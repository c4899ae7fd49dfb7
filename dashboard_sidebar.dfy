/** The dashboard sidebar (components/DashboardSidebar.tsx): a fixed list of
    six links and the rule that highlights the one for the current path. */
module DashboardSidebar {
  import opened Http

  datatype NavItem = NavItem(href: string, title: string)

  const HomeHref := "/dashboard"

  const NavItems: seq<NavItem> := [
    NavItem("/dashboard", "Home"),
    NavItem("/dashboard/pricing", "Pricing"),
    NavItem("/dashboard/users", "Users"),
    NavItem("/dashboard/trips", "Trips"),
    NavItem("/dashboard/media", "Media"),
    NavItem("/dashboard/social", "Social")
  ]

  /** `isActive(href)`: Home by exact match, every other link by a raw
      prefix test; a missing path (`None`) activates nothing. */
  function IsActive(pathname: Option<string>, href: string): (b: bool)
    ensures pathname.None? ==> !b
    ensures href == HomeHref ==> (b <==> pathname == Some(HomeHref))
    ensures href != HomeHref ==> (b <==> pathname.Some? && StartsWith(pathname.value, href))
  {
    if href == HomeHref then pathname == Some(HomeHref)
    else pathname.Some? && StartsWith(pathname.value, href)
  }

  /** Every link is active on its own page. */
  lemma OwnPageActive(i: nat)
    requires i < |NavItems|
    ensures IsActive(Some(NavItems[i].href), NavItems[i].href)
  {
  }

  /** Two prefixes of one string are comparable. */
  lemma PrefixesComparable(a: string, b: string, s: string)
    requires a <= s && b <= s && |a| <= |b|
    ensures a <= b
  {
    assert a == s[..|a|] && b == s[..|b|];
    assert b[..|a|] == s[..|a|];
  }

  /** No link other than Home is a prefix of another link. */
  lemma HrefsPrefixFree(i: nat, j: nat)
    requires i < |NavItems| && j < |NavItems| && i != j && i != 0 && j != 0
    ensures !(NavItems[i].href <= NavItems[j].href)
  {
    // after "/dashboard/" each link has its own first letter
    assert NavItems[i].href[11] != NavItems[j].href[11];
  }

  /** Whatever the path, at most one link is highlighted. */
  lemma AtMostOneActive(pathname: Option<string>, i: nat, j: nat)
    requires i < |NavItems| && j < |NavItems| && i != j
    ensures !(IsActive(pathname, NavItems[i].href) && IsActive(pathname, NavItems[j].href))
  {
    if IsActive(pathname, NavItems[i].href) && IsActive(pathname, NavItems[j].href) && i != 0 && j != 0 {
      var p, a, b := pathname.value, NavItems[i].href, NavItems[j].href;
      if |a| <= |b| {
        PrefixesComparable(a, b, p);
        HrefsPrefixFree(i, j);
      } else {
        PrefixesComparable(b, a, p);
        HrefsPrefixFree(j, i);
      }
    }
  }

  /** The prefix test is not a path-segment test: a path that merely begins
      with a link's text activates it. */
  lemma RawPrefixExample()
    ensures IsActive(Some("/dashboard/usersettings"), "/dashboard/users")
    ensures !IsActive(Some("/dashboard/"), HomeHref)
  {
    assert "/dashboard/users" <= "/dashboard/usersettings";
  }
}
