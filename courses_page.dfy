/** The course list page: the title/category search, the role's action label and the route a course opens. */
module CoursesPage {
  import opened Wrappers
  import opened Seqs
  import opened Text
  import opened Domain
  import opened CourseCatalog

  /** A course matches when its title or its category contains the query, ignoring case. */
  function TitleOrCategory(query: string): Course -> bool {
    (c: Course) => IncludesIgnoringCase(c.title, query) || IncludesIgnoringCase(c.category, query)
  }

  /** What the search effect stores: every course for an empty query, the matches otherwise. */
  function VisibleCourses(courses: seq<Course>, query: string): (r: seq<Course>)
    ensures query == "" ==> r == courses
    ensures forall c :: c in r <==> c in courses && TitleOrCategory(query)(c)
  {
    if query != "" then Filter(courses, TitleOrCategory(query))
    else
      assert forall c :: c in courses ==> TitleOrCategory(query)(c) by {
        forall c | c in courses ensures TitleOrCategory(query)(c) {
          IncludesIgnoringCaseEmpty(c.title);
        }
      }
      courses
  }

  /** The empty-query branch is the filter too: every course contains the empty string. */
  lemma VisibleIsFilter(courses: seq<Course>, query: string)
    ensures VisibleCourses(courses, query) == Filter(courses, TitleOrCategory(query))
    ensures IsSubsequence(VisibleCourses(courses, query), courses)
  {
    if query == "" {
      forall c | c in courses ensures TitleOrCategory(query)(c) {
        IncludesIgnoringCaseEmpty(c.title);
      }
      FilterKeepsAll(courses, TitleOrCategory(query));
    }
  }

  /** `getActionLabel`, by the signed-in user's role. */
  function ActionLabel(role: Option<Role>): (r: string)
    ensures r == "Manage Course" <==> role == Some(Educator)
    ensures r == "License Course" <==> role == Some(Marketer)
    ensures r == "Enroll Now" <==> role == Some(Student)
    ensures r == "View Course" <==> role.None?
  {
    match role
    case Some(Educator) => "Manage Course"
    case Some(Marketer) => "License Course"
    case Some(Student) => "Enroll Now"
    case None => "View Course"
  }

  /** Only educators get the Create Course button. */
  predicate ShowsCreateButton(role: Option<Role>): (b: bool)
    ensures b <==> ActionLabel(role) == "Manage Course"
  {
    role == Some(Educator)
  }

  /** Each role sees its own label, and the create button goes with the managing label. */
  lemma ActionLabelsDistinct(a: Option<Role>, b: Option<Role>)
    ensures ActionLabel(a) == ActionLabel(b) <==> a == b
    ensures ShowsCreateButton(a) <==> ActionLabel(a) == "Manage Course"
  {
    var la, lb := ActionLabel(a), ActionLabel(b);
    if a != b {
      assert la[0] != lb[0];
    }
  }

  /** `handleCourseAction`: where a course card leads. */
  function CourseRoute(id: string): (r: string)
    ensures StartsWith(r, "/courses/")
  {
    "/courses/" + id
  }

  /** Different courses lead to different routes. */
  lemma CourseRouteInjective(a: string, b: string)
    ensures CourseRoute(a) == CourseRoute(b) <==> a == b
  {
    assert CourseRoute(a)[9..] == a;
    assert CourseRoute(b)[9..] == b;
  }

  /** The page: its own catalogue, the query box and the list the effect keeps. */
  class Page {
    var searchQuery: string
    var filteredCourses: seq<Course>
    const catalog: CourseRepository

    /** The search effect has run for the current query and catalogue. */
    predicate InSync()
      reads this, catalog
    {
      filteredCourses == VisibleCourses(catalog.courses, searchQuery)
    }

    /** Before the first effect the list is empty. */
    constructor ()
      ensures searchQuery == "" && filteredCourses == []
      ensures fresh(catalog) && catalog.courses == MockCourses
    {
      searchQuery := "";
      filteredCourses := [];
      catalog := new CourseRepository();
    }

    /** The search effect, run when the query or the catalogue changes. */
    method Refresh()
      modifies this`filteredCourses
      ensures InSync()
      ensures filteredCourses == VisibleCourses(catalog.courses, searchQuery)
    {
      filteredCourses := VisibleCourses(catalog.courses, searchQuery);
    }

    /** Typing a query, followed by the effect it triggers. */
    method SetSearchQuery(query: string)
      modifies this`searchQuery, this`filteredCourses
      ensures searchQuery == query && InSync()
    {
      searchQuery := query;
      Refresh();
    }
  }
}
