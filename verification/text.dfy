/** The string normalisations the form schemas apply before checking lengths:
    JavaScript's `String.prototype.trim` and `toLowerCase`, and the shape of an e-mail. */
module Text {

  /** ECMAScript WhiteSpace and LineTerminator code points, the set `trim` strips. */
  const WhiteSpace: set<char> :=
    {'\t', '\n', '\U{0B}', '\U{0C}', '\r', ' ', '\U{A0}', '\U{1680}',
     '\U{2000}', '\U{2001}', '\U{2002}', '\U{2003}', '\U{2004}', '\U{2005}', '\U{2006}',
     '\U{2007}', '\U{2008}', '\U{2009}', '\U{200A}',
     '\U{2028}', '\U{2029}', '\U{202F}', '\U{205F}', '\U{3000}', '\U{FEFF}'}

  predicate IsWhitespace(c: char) {
    c in WhiteSpace
  }

  function TrimStart(s: string): (r: string)
    ensures |r| <= |s| && r == s[|s| - |r|..]
    ensures r == [] || !IsWhitespace(r[0])
    ensures forall i :: 0 <= i < |s| - |r| ==> IsWhitespace(s[i])
  {
    if s != [] && IsWhitespace(s[0]) then TrimStart(s[1..]) else s
  }

  function TrimEnd(s: string): (r: string)
    ensures |r| <= |s| && r == s[..|r|]
    ensures r == [] || !IsWhitespace(r[|r| - 1])
    ensures forall i :: |r| <= i < |s| ==> IsWhitespace(s[i])
  {
    if s != [] && IsWhitespace(s[|s| - 1]) then TrimEnd(s[..|s| - 1]) else s
  }

  /** `s.trim()`: white space stripped from both ends, one character at a time. */
  function Trim(s: string): (r: string)
    ensures |r| <= |s|
    ensures r == [] || (!IsWhitespace(r[0]) && !IsWhitespace(r[|r| - 1]))
    ensures s == [] || (!IsWhitespace(s[0]) && !IsWhitespace(s[|s| - 1])) ==> r == s
    decreases |s|
  {
    if s == [] then s
    else if IsWhitespace(s[0]) then Trim(s[1..])
    else if IsWhitespace(s[|s| - 1]) then Trim(s[..|s| - 1])
    else s
  }

  /** Trimming is stripping the leading white space and then the trailing white space, so
      what `Trim` removes is white space and what it keeps is a slice of the input. */
  lemma {:induction false} TrimStripsBothEnds(s: string)
    ensures Trim(s) == TrimEnd(TrimStart(s))
    decreases |s|
  {
    if s != [] {
      if IsWhitespace(s[0]) {
        TrimStripsBothEnds(s[1..]);
      } else if IsWhitespace(s[|s| - 1]) {
        var init := s[..|s| - 1];
        TrimStripsBothEnds(init);
        assert init != [] && init[0] == s[0];
        assert TrimStart(init) == init;
        assert TrimStart(s) == s;
      }
    }
  }

  predicate IsUpper(c: char) { 'A' <= c <= 'Z' }

  function LowerChar(c: char): (l: char)
    ensures !IsUpper(l)
    ensures !IsUpper(c) ==> l == c
  {
    if IsUpper(c) then (c as int + 32) as char else c
  }

  /** `s.toLowerCase()`, restricted to the ASCII letters. */
  function Lower(s: string): (r: string)
    ensures |r| == |s|
    ensures forall i :: 0 <= i < |s| ==> r[i] == LowerChar(s[i])
  {
    seq(|s|, i requires 0 <= i < |s| => LowerChar(s[i]))
  }

  predicate HasUpper(s: string) {
    exists i :: 0 <= i < |s| && IsUpper(s[i])
  }

  /** A lower-cased string holds no upper-case letter, so it never equals one that does. */
  lemma LowerHasNoUpper(s: string)
    ensures !HasUpper(Lower(s))
  {
  }

  /** Trimming twice is trimming once. */
  lemma TrimIdempotent(s: string)
    ensures Trim(Trim(s)) == Trim(s)
  {
  }

  /** Lower-casing twice is lower-casing once. */
  lemma LowerIdempotent(s: string)
    ensures Lower(Lower(s)) == Lower(s)
  {
  }

  /** The position of the first `c` in `s`, or `|s|` when there is none. */
  function IndexOf(s: string, c: char): (i: nat)
    ensures i <= |s|
    ensures i < |s| ==> s[i] == c
    ensures c !in s[..i]
  {
    if s == [] then 0
    else if s[0] == c then 0
    else
      var j := IndexOf(s[1..], c);
      assert s[..1 + j] == [s[0]] + s[1..][..j];
      1 + j
  }

  /** The e-mail shape accepted by the schemas' `.email()` check, simplified: one `@` that is
      neither first nor last, and a `.` strictly inside the domain part after it. */
  predicate IsEmail(s: string) {
    var at := IndexOf(s, '@');
    0 < at < |s| - 1 && '@' !in s[at + 1..] && HasInnerDot(s[at + 1..])
  }

  predicate HasInnerDot(d: string) {
    |d| >= 3 && '.' in d[1..|d| - 1]
  }

  /** Every address has at least five characters (`a@b.c`), so the empty string is none. */
  lemma EmailIsLong(s: string)
    requires IsEmail(s)
    ensures |s| >= 5
  {
  }

  /** An address has exactly one `@`. */
  lemma EmailHasOneAt(s: string)
    requires IsEmail(s)
    ensures exists i :: 0 < i < |s| - 1 && s[i] == '@' && forall j :: 0 <= j < |s| && j != i ==> s[j] != '@'
  {
    var at := IndexOf(s, '@');
    forall j | 0 <= j < |s| && j != at
      ensures s[j] != '@'
    {
      if j < at {
        assert s[j] in s[..at];
      } else {
        assert s[j] == s[at + 1..][j - at - 1];
      }
    }
  }
}
