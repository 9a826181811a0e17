/** The bottom navigation bar on small screens and which of its items is
    highlighted for the current path. */
module MobileNav {
  import opened Wrappers
  import opened Text
  import opened Script

  datatype NavItem = NavItem(path: string, title: string, matchPrefix: Option<string>)

  const NavItems: seq<NavItem> := [
    NavItem("/dashboard", "Home", None),
    NavItem("/dashboard", "Projects", Some("/project")),
    NavItem("/dashboard", "Reader", Some("/reader"))
  ]

  /** `isActive`: a prefix match on `match` (here `matchPrefix`) when the item has one, else
      (or when that fails) equality with the item's own path. */
  predicate IsActive(pathname: string, item: NavItem) {
    (Truthy(item.matchPrefix) && StartsWith(pathname, item.matchPrefix.value)) || pathname == item.path
  }

  datatype Rendered = Rendered(title: string, to: string, active: bool)

  /** The bar: nothing without a signed-in user, else one entry per item. */
  function Render(signedIn: bool, pathname: string): (r: Option<seq<Rendered>>)
    ensures !signedIn <==> r.None?
    ensures r.Some? ==> |r.value| == |NavItems| && forall i :: 0 <= i < |NavItems| ==>
      r.value[i] == Rendered(NavItems[i].title, NavItems[i].path, IsActive(pathname, NavItems[i]))
  {
    if !signedIn then None
    else Some(seq(|NavItems|, i requires 0 <= i < |NavItems| =>
      Rendered(NavItems[i].title, NavItems[i].path, IsActive(pathname, NavItems[i]))))
  }

  /** For every path: Home is lit only on "/dashboard", Projects on paths
      starting "/project" or on "/dashboard", Reader on paths starting
      "/reader" or on "/dashboard". */
  lemma WhichItemIsActive(pathname: string)
    ensures IsActive(pathname, NavItems[0]) <==> pathname == "/dashboard"
    ensures IsActive(pathname, NavItems[1]) <==> StartsWith(pathname, "/project") || pathname == "/dashboard"
    ensures IsActive(pathname, NavItems[2]) <==> StartsWith(pathname, "/reader") || pathname == "/dashboard"
  {
  }

  /** All items share the path "/dashboard", so all three are lit there. */
  lemma DashboardLightsAll()
    ensures forall i :: 0 <= i < |NavItems| ==> IsActive("/dashboard", NavItems[i])
  {
  }

  /** Away from "/dashboard" at most one item is lit: no path starts with
      both "/project" and "/reader". */
  lemma ElsewhereAtMostOne(pathname: string)
    requires pathname != "/dashboard"
    ensures !(IsActive(pathname, NavItems[1]) && IsActive(pathname, NavItems[2]))
    ensures !IsActive(pathname, NavItems[0])
  {
    assert StartsWith(pathname, "/project") ==> pathname[1] == 'p';
    assert StartsWith(pathname, "/reader") ==> pathname[1] == 'r';
  }
}
