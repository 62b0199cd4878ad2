/**
 * `demoSeeder`: the demo course and bundle lists and the routines that write
 * them into local storage under 'courses' and 'bundles'.
 */
module DemoSeeder {
  import opened Wrappers
  import opened Domain
  import opened Storage

  const DemoCourses: seq<Course> := [
    Course("1", "Advanced React Patterns", "Master advanced React patterns including render props, HOCs, and custom hooks",
           "Sarah Johnson", "8 weeks", 245, 99.0, "Web Development", None, None, None),
    Course("2", "TypeScript Fundamentals", "Learn TypeScript from basics to advanced type systems",
           "Mike Chen", "6 weeks", 389, 79.0, "Programming", None, None, None),
    Course("3", "Node.js Backend Development", "Build scalable backend applications with Node.js and Express",
           "Alex Rodriguez", "10 weeks", 167, 119.0, "Backend", None, None, None),
    Course("4", "UI/UX Design Principles", "Design beautiful and intuitive user interfaces",
           "Emma Watson", "5 weeks", 512, 89.0, "Design", None, None, None),
    Course("5", "Python for Data Science", "Analyze data and build ML models with Python",
           "David Lee", "12 weeks", 678, 149.0, "Data Science", None, None, None)
  ]

  const DemoBundles: seq<Bundle> := [
    Bundle("1", "Full Stack Developer Bundle", "Complete path from frontend to backend development", 5, 500.0, 300.0, 40.0),
    Bundle("2", "Data Science Master Bundle", "Everything you need to become a data scientist", 6, 600.0, 360.0, 40.0),
    Bundle("3", "Mobile Development Bundle", "Build iOS and Android apps from scratch", 4, 400.0, 260.0, 35.0),
    Bundle("4", "UI/UX Design Complete Bundle", "Master design thinking and user experience", 7, 550.0, 330.0, 40.0),
    Bundle("5", "DevOps Engineer Bundle", "Learn CI/CD, Docker, Kubernetes and cloud platforms", 5, 480.0, 312.0, 35.0)
  ]

  /** The demo data is internally consistent: discounted price is the original less the percentage, and ids are distinct. */
  lemma DemoDataConsistent()
    ensures forall b :: b in DemoBundles ==> b.discountedPrice * 100.0 == b.originalPrice * (100.0 - b.discount)
    ensures forall i, j :: 0 <= i < j < |DemoBundles| ==> DemoBundles[i].id != DemoBundles[j].id
    ensures forall i, j :: 0 <= i < j < |DemoCourses| ==> DemoCourses[i].id != DemoCourses[j].id
  {
  }

  /** `hasDemoData()`: both keys are present, whatever they hold. */
  predicate HasDemoData(entries: map<string, Stored>) {
    CoursesKey in entries && BundlesKey in entries
  }

  /** The store after `forceSeedDemoData()`: both keys hold the demo lists; every other key is untouched. */
  function ForceSeeded(entries: map<string, Stored>): (r: map<string, Stored>)
    ensures HasDemoData(r)
    ensures r[CoursesKey] == CourseList(DemoCourses) && r[BundlesKey] == BundleList(DemoBundles)
    ensures forall k :: k != CoursesKey && k != BundlesKey ==> (k in r <==> k in entries) && (k in r ==> r[k] == entries[k])
  {
    entries[CoursesKey := CourseList(DemoCourses)][BundlesKey := BundleList(DemoBundles)]
  }

  /** The store after `initDemoData()`: seeded in full unless both keys are present. */
  function InitSeeded(entries: map<string, Stored>): (r: map<string, Stored>)
    ensures HasDemoData(r)
    ensures HasDemoData(entries) ==> r == entries
    ensures !HasDemoData(entries) ==> r == ForceSeeded(entries)
  {
    if HasDemoData(entries) then entries else ForceSeeded(entries)
  }

  /** Seeding once is enough: a second `initDemoData()` changes nothing. */
  lemma InitIdempotent(entries: map<string, Stored>)
    ensures InitSeeded(InitSeeded(entries)) == InitSeeded(entries)
  {
  }

  /** With only the course list present, `initDemoData()` overwrites it too. */
  lemma InitOverwritesLoneCourses(entries: map<string, Stored>)
    requires CoursesKey in entries && BundlesKey !in entries
    ensures InitSeeded(entries)[CoursesKey] == CourseList(DemoCourses)
  {
  }

  method HasDemoDataIn(store: LocalStore) returns (b: bool)
    ensures b == HasDemoData(store.entries)
  {
    var courses := store.Get(CoursesKey);
    var bundles := store.Get(BundlesKey);
    b := courses.Some? && bundles.Some?;
  }

  /** `forceSeedDemoData()`. */
  method ForceSeedDemoData(store: LocalStore)
    modifies store
    ensures store.entries == ForceSeeded(old(store.entries))
  {
    store.SetItem(CoursesKey, CourseList(DemoCourses));
    store.SetItem(BundlesKey, BundleList(DemoBundles));
  }

  /** `initDemoData()`. */
  method InitDemoData(store: LocalStore)
    modifies store
    ensures store.entries == InitSeeded(old(store.entries))
  {
    var present := HasDemoDataIn(store);
    if !present {
      ForceSeedDemoData(store);
    }
  }
}
