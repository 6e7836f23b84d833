/** The application shell (src/components/layout/AppLayout.tsx): which navigation
    entries a role sees, and how links carry the role along. */
module Layout {
  import opened Types

  /** A navigation entry (its icon is left out). */
  datatype NavItem = NavItem(href: string, caption: string)

  /** Each list's entries link to distinct paths (the path is the entry's key). */
  predicate DistinctHrefs(items: seq<NavItem>)
  {
    forall i, j :: 0 <= i < j < |items| ==> items[i].href != items[j].href
  }

  function BaseNavItems(): (items: seq<NavItem>)
    ensures |items| == 3 && DistinctHrefs(items)
  {
    [NavItem("/dashboard", "Home"), NavItem("/contacts", "My Network"), NavItem("/messages", "Messages")]
  }

  function CandidateNavItems(): (items: seq<NavItem>)
    ensures |items| == 5 && items[..3] == BaseNavItems() && DistinctHrefs(items)
  {
    BaseNavItems() + [NavItem("/network/tree", "Network Tree"), NavItem("/polling", "Polling Day")]
  }

  function CampaignerNavItems(): (items: seq<NavItem>)
    ensures |items| == 4 && items[..3] == BaseNavItems() && DistinctHrefs(items)
  {
    BaseNavItems() + [NavItem("/polling", "Polling Day")]
  }

  /** `searchParams.get('role') || 'campaigner'`: a missing or empty parameter means
      campaigner; any other value is taken as it is. */
  function ResolveRole(param: Option<string>): (role: string)
    ensures role != ""
    ensures param.None? ==> role == "campaigner"
    ensures param.Some? && param.value == "" ==> role == "campaigner"
    ensures param.Some? && param.value != "" ==> role == param.value
  {
    match param
    case None => "campaigner"
    case Some(r) => if r == "" then "campaigner" else r
  }

  /** The role is candidate only when the parameter says exactly `candidate`. */
  lemma CandidateOnlyWhenAsked(param: Option<string>)
    ensures ResolveRole(param) == "candidate" <==> param == Some("candidate")
  {
  }

  /** `navItems` */
  function NavItemsFor(role: string): (items: seq<NavItem>)
    ensures role == "candidate" ==> |items| == 5
    ensures role != "candidate" ==> |items| == 4
    ensures items[..3] == BaseNavItems()
    ensures items[|items| - 1] == NavItem("/polling", "Polling Day")
  {
    if role == "candidate" then CandidateNavItems() else CampaignerNavItems()
  }

  /** Some entry of `items` links to `href`. */
  predicate LinksTo(items: seq<NavItem>, href: string)
  {
    exists k :: 0 <= k < |items| && items[k].href == href
  }

  /** Both lists start with Home, My Network and Messages, in that order; only the
      candidate's list has the Network Tree entry. */
  lemma NavItemsSpec(role: string)
    ensures var items := NavItemsFor(role);
      && items[0].caption == "Home" && items[1].caption == "My Network" && items[2].caption == "Messages"
      && (LinksTo(items, "/network/tree") <==> role == "candidate")
      && LinksTo(items, "/polling")
  {
    var items := NavItemsFor(role);
    if role == "candidate" {
      assert items[3].href == "/network/tree";
    } else {
      forall k | 0 <= k < |items| ensures items[k].href != "/network/tree" {
        assert items[k] in CampaignerNavItems();
      }
    }
    assert items[|items| - 1].href == "/polling";
  }

  /** `appendRoleToHref` */
  function AppendRoleToHref(href: string, role: string): (link: string)
    ensures |link| == |href| + 6 + |role|
    ensures link[..|href|] == href && link[|href|..|href| + 6] == "?role=" && link[|href| + 6..] == role
  {
    href + "?role=" + role
  }

  /** The path a role-carrying link was made from, if `link` ends with the role's
      query suffix. */
  function StripRole(link: string, role: string): (href: Option<string>)
    ensures href.Some? ==> href.value + "?role=" + role == link
    ensures href.None? ==> forall h :: h + "?role=" + role != link
  {
    var suffix := "?role=" + role;
    if |suffix| <= |link| && link[|link| - |suffix|..] == suffix then Some(link[..|link| - |suffix|]) else None
  }

  /** The link is the entry's own path, then the query key, then the role; stripping
      the role gives the path back, so different paths give different links under the
      same role. */
  lemma AppendRoleRoundTrip(href: string, role: string)
    ensures var link := AppendRoleToHref(href, role);
      && link[..|href|] == href
      && link[|href|..|href| + 6] == "?role="
      && link[|href| + 6..] == role
      && StripRole(link, role) == Some(href)
  {
    var link := AppendRoleToHref(href, role);
    assert link == href + ("?role=" + role);
  }

  /** Different nav paths give different links under the same role. */
  lemma AppendRoleInjective(h1: string, h2: string, role: string)
    ensures AppendRoleToHref(h1, role) == AppendRoleToHref(h2, role) ==> h1 == h2
  {
    AppendRoleRoundTrip(h1, role);
    AppendRoleRoundTrip(h2, role);
  }
}
