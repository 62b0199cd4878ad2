/** The bundle list page: the title search, the role's action label and the route a bundle opens. */
module BundlesPage {
  import opened Wrappers
  import opened Seqs
  import opened Text
  import opened Domain
  import opened BundleCatalog

  /** A bundle matches when its title contains the query, ignoring case. */
  function TitleMatches(query: string): Bundle -> bool {
    (b: Bundle) => IncludesIgnoringCase(b.title, query)
  }

  /** What the search effect stores: every bundle for an empty query, the matches otherwise. */
  function VisibleBundles(bundles: seq<Bundle>, query: string): (r: seq<Bundle>)
    ensures query == "" ==> r == bundles
    ensures forall b :: b in r <==> b in bundles && TitleMatches(query)(b)
  {
    if query != "" then Filter(bundles, TitleMatches(query))
    else
      assert forall b :: b in bundles ==> TitleMatches(query)(b) by {
        forall b | b in bundles ensures TitleMatches(query)(b) {
          IncludesIgnoringCaseEmpty(b.title);
        }
      }
      bundles
  }

  /** The empty-query branch is the filter too: every title contains the empty string. */
  lemma VisibleIsFilter(bundles: seq<Bundle>, query: string)
    ensures VisibleBundles(bundles, query) == Filter(bundles, TitleMatches(query))
    ensures IsSubsequence(VisibleBundles(bundles, query), bundles)
  {
    if query == "" {
      forall b | b in bundles ensures TitleMatches(query)(b) {
        IncludesIgnoringCaseEmpty(b.title);
      }
      FilterKeepsAll(bundles, TitleMatches(query));
    }
  }

  /** `getActionLabel`, by the signed-in user's role; educators get the visitor's label. */
  function ActionLabel(role: Option<Role>): (r: string)
    ensures r == "Manage Bundle" <==> role == Some(Marketer)
    ensures r == "Purchase Bundle" <==> role == Some(Student)
    ensures r == "View Bundle" <==> role.None? || role == Some(Educator)
  {
    match role
    case Some(Marketer) => "Manage Bundle"
    case Some(Student) => "Purchase Bundle"
    case _ => "View Bundle"
  }

  /** Only marketers get the Create Bundle button. */
  predicate ShowsCreateButton(role: Option<Role>): (b: bool)
    ensures b <==> ActionLabel(role) == "Manage Bundle"
  {
    role == Some(Marketer)
  }

  /** Marketers and students have labels of their own; educators and visitors share one. */
  lemma ActionLabelsByRole(a: Option<Role>, b: Option<Role>)
    ensures ActionLabel(a) == ActionLabel(b) <==>
            a == b || (a in {None, Some(Educator)} && b in {None, Some(Educator)})
    ensures ShowsCreateButton(a) <==> ActionLabel(a) == "Manage Bundle"
  {
    var la, lb := ActionLabel(a), ActionLabel(b);
    if la == lb {
      assert la[0] == lb[0];
    }
  }

  /** `handleBundleAction`: where a bundle card leads. */
  function BundleRoute(id: string): (r: string)
    ensures StartsWith(r, "/bundles/")
  {
    "/bundles/" + id
  }

  /** Different bundles lead to different routes. */
  lemma BundleRouteInjective(a: string, b: string)
    ensures BundleRoute(a) == BundleRoute(b) <==> a == b
  {
    assert BundleRoute(a)[9..] == a;
    assert BundleRoute(b)[9..] == b;
  }

  /** The page: its own catalogue, the query box and the list the effect keeps. */
  class Page {
    var searchQuery: string
    var filteredBundles: seq<Bundle>
    const catalog: BundleRepository

    /** The search effect has run for the current query and catalogue. */
    predicate InSync()
      reads this, catalog
    {
      filteredBundles == VisibleBundles(catalog.bundles, searchQuery)
    }

    /** Before the first effect the list is empty. */
    constructor ()
      ensures searchQuery == "" && filteredBundles == []
      ensures fresh(catalog) && catalog.bundles == MockBundles
    {
      searchQuery := "";
      filteredBundles := [];
      catalog := new BundleRepository();
    }

    /** The search effect, run when the query or the catalogue changes. */
    method Refresh()
      modifies this`filteredBundles
      ensures InSync()
      ensures filteredBundles == VisibleBundles(catalog.bundles, searchQuery)
    {
      filteredBundles := VisibleBundles(catalog.bundles, searchQuery);
    }

    /** Typing a query, followed by the effect it triggers. */
    method SetSearchQuery(query: string)
      modifies this`searchQuery, this`filteredBundles
      ensures searchQuery == query && InSync()
    {
      searchQuery := query;
      Refresh();
    }
  }
}
