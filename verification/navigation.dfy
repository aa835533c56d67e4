/** `app/routes/_dashboard/side-navigation-bar.tsx` with `links.ts`: which dashboard links the
    side bar shows for a session's role. */
module Navigation {

  import opened Seqs
  import opened Schema

  /** One entry of `links`; the icon is left out. */
  datatype Link = Link(name: string, href: string)

  const UserManagement: string := "/dashboard/user-management"

  /** The `links` array, in order. */
  const Links: seq<Link> := [
    Link("Dashboard", "/dashboard"),
    Link("Orders", "/dashboard/orders"),
    Link("Products", "/dashboard/products"),
    Link("Customers", "/dashboard/customers"),
    Link("Categories", "/dashboard/categories"),
    Link("User Management", UserManagement)
  ]

  /** The `links.filter` callback: an admin keeps every link (a link object is truthy), anyone
      else every link but user management. */
  predicate Shown(roles: string, link: Link) {
    roles == ADMIN || link.href != UserManagement
  }

  /** The links rendered for a session with these roles. */
  function VisibleLinks(roles: string): (r: seq<Link>)
    ensures IsSubsequence(r, Links)
    ensures forall l :: l in r <==> l in Links && (roles == ADMIN || l.href != UserManagement)
  {
    var keep := (l: Link) => Shown(roles, l);
    FilterIsSubsequence(Links, keep);
    Filter(Links, keep)
  }

  /** An admin sees all six links, in order. */
  lemma AdminSeesEverything()
    ensures VisibleLinks(ADMIN) == Links
  {
    FilterKeepsAll(Links, (l: Link) => Shown(ADMIN, l));
  }

  /** Any other role sees the first five links, in order: only user management is hidden. */
  lemma {:induction false} OthersLoseOnlyUserManagement(roles: string)
    requires roles != ADMIN
    ensures VisibleLinks(roles) == Links[..5]
  {
    var keep := (l: Link) => Shown(roles, l);
    assert Links == Links[..5] + [Links[5]];
    FilterDropsAppended(Links[..5], [Links[5]], keep);
  }
}
