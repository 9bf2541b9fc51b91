/** The dashboard sidebar: its fixed list of links and the rule that
    highlights the link of the current page. */
module Sidebar {
  import opened Wrappers
  import opened JsString

  datatype SidebarItem = SidebarItem(href: string, caption: string)  // `caption` is the item's `label`

  const SidebarItems: seq<SidebarItem> := [
    SidebarItem("/dashboard", "Overview"),
    SidebarItem("/dashboard/teams", "Teams"),
    SidebarItem("/dashboard/projects", "Projects"),
    SidebarItem("/dashboard/settings", "Settings")
  ]

  /** A link is active on its own path and on every path below it; there is no
      current path (`null`/`undefined`) before the router knows one. */
  predicate IsActive(pathname: Option<string>, href: string)
  {
    pathname.Some? && (pathname.value == href || StartsWith(pathname.value, href + "/"))
  }

  /** Which items are highlighted, in list order. */
  function ActiveFlags(pathname: Option<string>): (r: seq<bool>)
    ensures |r| == |SidebarItems|
    ensures forall i :: 0 <= i < |r| ==> (r[i] <==> IsActive(pathname, SidebarItems[i].href))
  {
    seq(|SidebarItems|, i requires 0 <= i < |SidebarItems| => IsActive(pathname, SidebarItems[i].href))
  }

  /** The four items, in order. */
  lemma ItemsAreFixed()
    ensures |SidebarItems| == 4
    ensures SidebarItems[0].href == "/dashboard" && SidebarItems[1].href == "/dashboard/teams"
    ensures SidebarItems[2].href == "/dashboard/projects" && SidebarItems[3].href == "/dashboard/settings"
  {
  }

  /** A path that merely shares a prefix with a link, without a `/` after it,
      does not activate it. */
  lemma SiblingPathNotActive(path: string, href: string)
    requires StartsWith(path, href) && |path| > |href| && path[|href|] != '/'
    ensures !IsActive(Some(path), href)
  {
    var slash := href + "/";
    assert slash[|href|] == '/';
    assert path[..|slash|][|href|] == path[|href|];
  }

  /** For instance, `/dashboard/teamsX` does not activate the Teams item. */
  lemma TeamsXNotActive()
    ensures !IsActive(Some("/dashboard/teamsX"), "/dashboard/teams")
  {
    SiblingPathNotActive("/dashboard/teamsX", "/dashboard/teams");
  }

  /** Overview is active on every path below `/dashboard`, so on the Teams page
      two items are highlighted. */
  lemma OverviewActiveBelowDashboard(path: string)
    requires StartsWith(path, "/dashboard/")
    ensures ActiveFlags(Some(path))[0]
  {
  }

  lemma TeamsPageHighlightsTwo()
    ensures ActiveFlags(Some("/dashboard/teams")) == [true, true, false, false]
  {
    var flags := ActiveFlags(Some("/dashboard/teams"));
    assert "/dashboard/teams"[..11] == "/dashboard/";
    assert flags[0] && flags[1];
    assert !flags[2] by { assert "/dashboard/teams" != "/dashboard/projects"; }
    assert !flags[3] by { assert "/dashboard/teams" != "/dashboard/settings"; }
  }

  /** Without a current path no item is active. */
  lemma NoPathNoActiveItem()
    ensures forall i :: 0 <= i < 4 ==> !ActiveFlags(None)[i]
  {
  }
}
