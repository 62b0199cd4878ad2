/**
 * `DashboardSidebar`: the navigation entries each role sees, the link each
 * entry points to, and which entry is highlighted for the current path.
 */
module Sidebar {
  import opened Wrappers
  import opened Domain
  import Seqs
  import Text

  datatype NavItem = NavItem(title: string, href: string, roles: seq<Role>)

  const AllRoles: seq<Role> := [Educator, Marketer, Student]

  const NavItems: seq<NavItem> := [
    NavItem("Dashboard", "/dashboard", AllRoles),
    NavItem("Courses", "/courses", AllRoles),
    NavItem("Bundles", "/bundles", [Marketer, Student]),
    NavItem("Analytics", "/analytics", AllRoles),
    NavItem("AI Suggestions", "/ai-suggestions", [Student, Educator, Marketer]),
    NavItem("Students", "/students", [Educator, Marketer]),
    NavItem("My Purchases", "/purchases", [Student])
  ]

  function ForRole(role: Role): NavItem -> bool {
    (item: NavItem) => role in item.roles
  }

  /** `filteredItems`: the entries listing the user's role, in declaration order; none without a user. */
  function VisibleItems(role: Option<Role>): (r: seq<NavItem>)
    ensures role.None? ==> r == []
    ensures role.Some? ==> forall item :: item in r <==> item in NavItems && role.value in item.roles
    ensures Seqs.IsSubsequence(r, NavItems)
  {
    if role.None? then
      assert Seqs.IsSubsequence(Seqs.Filter(NavItems, (item: NavItem) => false), NavItems);
      Seqs.FilterKeepsNone(NavItems, (item: NavItem) => false);
      []
    else Seqs.Filter(NavItems, ForRole(role.value))
  }

  /** An entry is visible exactly when it lists the role. */
  lemma ItemVisible(role: Role, k: nat)
    requires k < |NavItems|
    ensures NavItems[k] in VisibleItems(Some(role)) <==> role in NavItems[k].roles
  {
    assert NavItems[k] in NavItems;
  }

  /**
   * Which entries each role sees: Dashboard, Courses, Analytics and AI
   * Suggestions for everyone; Bundles for marketers and students; Students for
   * educators and marketers; My Purchases for students only.
   */
  lemma VisibilityPerItem(role: Role)
    ensures NavItems[0] in VisibleItems(Some(role)) && NavItems[1] in VisibleItems(Some(role))
    ensures NavItems[3] in VisibleItems(Some(role)) && NavItems[4] in VisibleItems(Some(role))
    ensures NavItems[2] in VisibleItems(Some(role)) <==> role == Marketer || role == Student
    ensures NavItems[5] in VisibleItems(Some(role)) <==> role == Educator || role == Marketer
    ensures NavItems[6] in VisibleItems(Some(role)) <==> role == Student
  {
    ItemVisible(role, 0);
    ItemVisible(role, 1);
    ItemVisible(role, 2);
    ItemVisible(role, 3);
    ItemVisible(role, 4);
    ItemVisible(role, 5);
    ItemVisible(role, 6);
  }

  /** `to`: '/courses' and '/bundles' get an explicit 'role' segment; every other entry is followed by the role directly. */
  function Link(href: string, role: Role): (to: string)
    ensures href == "/courses" || href == "/bundles" ==> to == href + "/role/" + RoleName(role)
    ensures href != "/courses" && href != "/bundles" ==> to == href + "/" + RoleName(role)
  {
    if href == "/courses" || href == "/bundles" then href + "/role/" + RoleName(role) else href + "/" + RoleName(role)
  }

  /** `isActive`: the current path starts with the entry's href. */
  predicate IsActive(pathname: string, href: string): (b: bool)
    ensures b <==> exists rest :: pathname == href + rest
  {
    assert Text.StartsWith(pathname, href) ==> pathname == href + pathname[|href|..];
    assert forall rest :: pathname == href + rest ==> pathname[..|href|] == href;
    Text.StartsWith(pathname, href)
  }

  /** Following an entry's link highlights that entry. */
  lemma LinkActivatesItem(href: string, role: Role)
    ensures IsActive(Link(href, role), href)
  {
    var to := Link(href, role);
    assert to[..|href|] == href;
  }

  /** The catalog links never collide with a detail route `/courses/<id>` or `/bundles/<id>` for an id without '/'. */
  lemma CatalogLinkIsNotDetailRoute(href: string, role: Role, id: string)
    requires href == "/courses" || href == "/bundles"
    requires '/' !in id
    ensures Link(href, role) != href + "/" + id
  {
    var to := Link(href, role);
    var detail := href + "/" + id;
    if |to| == |detail| {
      assert to[|href| + 5] == '/';
      assert detail[|href| + 5] == id[4];
      assert id[4] in id;
    }
  }
}
