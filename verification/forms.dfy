/** The slice of zod the form schemas use: `safeParse` either yields the parsed data or the
    flattened field errors, the messages of every failed check grouped by field. */
module Forms {

  import opened Text

  /** One entry of `error.flatten().fieldErrors`. */
  datatype FieldError = FieldError(field: string, messages: seq<string>)

  /** `error.flatten().fieldErrors`, one entry per field with at least one failed check, in
      schema order (a map whose keys are listed in order). */
  type FieldErrors = seq<FieldError>

  /** The `{ errors }` / `{ safeParse }` result every `validate` returns. */
  datatype Validation<T> = Invalid(errors: FieldErrors) | Valid(data: T)

  /** A numeric form field as `z.string().min(1).transform(parseInt)` sees it: the empty string,
      or text that `parseInt` reads as `value`. */
  datatype NumberField = Empty | Parsed(value: int)

  /** Every element of a numeric array field was filled in. */
  predicate AllParsed(fields: seq<NumberField>) {
    forall i :: 0 <= i < |fields| ==> fields[i].Parsed?
  }

  /** The message of one check, when the check fails. */
  function Check(failed: bool, message: string): (m: seq<string>)
    ensures m == [] <==> !failed
    ensures failed ==> m == [message]
  {
    if failed then [message] else []
  }

  /** `.min(n, { message })` on an already trimmed string. */
  function MinLength(s: string, n: nat, message: string): (m: seq<string>)
    ensures m == [] <==> |s| >= n
    ensures |s| < n ==> m == [message]
  {
    Check(|s| < n, message)
  }

  /** `.min(1, required).min(3, tooShort)`: both messages when the string is empty. */
  function NameMessages(s: string, required: string, tooShort: string): (m: seq<string>)
    ensures m == [] <==> |s| >= 3
    ensures s == [] ==> m == [required, tooShort]
    ensures 0 < |s| < 3 ==> m == [tooShort]
  {
    MinLength(s, 1, required) + MinLength(s, 3, tooShort)
  }

  /** `.min(1, required).email(invalid)`. */
  function EmailMessages(s: string, required: string, invalid: string): (m: seq<string>)
    ensures m == [] <==> IsEmail(s)
    ensures s == [] ==> m == [required, invalid]
  {
    if IsEmail(s) then EmailIsLong(s); [] else MinLength(s, 1, required) + [invalid]
  }

  /** `.min(1, required).min(8, short).max(64, long)` on a trimmed password. */
  function PasswordMessages(s: string): (m: seq<string>)
    ensures m == [] <==> 8 <= |s| <= 64
  {
    MinLength(s, 1, "password required")
    + MinLength(s, 8, "password must be at lease 8 character long")
    + Check(|s| > 64, "password must be at most 64 character long")
  }

  /** A required numeric field: the empty string fails `.min(1, message)`. */
  function NumberMessages(f: NumberField, message: string): (m: seq<string>)
    ensures m == [] <==> f.Parsed?
  {
    Check(f.Empty?, message)
  }

  /** Every reported field carries at least one message. */
  predicate Reported(errors: FieldErrors) {
    forall e :: e in errors ==> e.messages != []
  }

  /** A failed parse reports at least one field, and every reported field at least one message. */
  predicate WellFormed(errors: FieldErrors) {
    errors != [] && Reported(errors)
  }

  /** Joining the entries of two groups of fields keeps every entry non-empty. */
  lemma ReportedAppend(a: FieldErrors, b: FieldErrors)
    requires Reported(a) && Reported(b)
    ensures Reported(a + b)
  {
  }

  /** The entry of one field in the flattened errors: none when every check passed. Joining
      the entries of a schema's fields in order gives `error.flatten().fieldErrors`. */
  function Field(name: string, messages: seq<string>): (e: FieldErrors)
    ensures messages == [] ==> e == []
    ensures messages != [] ==> e == [FieldError(name, messages)]
    ensures |e| <= 1 && (|e| == 0 <==> messages == [])
    ensures Reported(e)
  {
    if messages == [] then [] else [FieldError(name, messages)]
  }

  /** The errors of the fields so far followed by the entry of one more field. */
  function Then(errors: FieldErrors, name: string, messages: seq<string>): (r: FieldErrors)
    requires Reported(errors)
    ensures Reported(r)
    ensures r == [] <==> errors == [] && messages == []
    ensures errors != [] ==> r[0] == errors[0]
    ensures messages != [] ==> r[|r| - 1] == FieldError(name, messages)
    ensures messages == [] ==> r == errors
  {
    ReportedAppend(errors, Field(name, messages));
    errors + Field(name, messages)
  }
}
