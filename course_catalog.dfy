/**
 * The `useCourses` hook: an in-memory list of courses, seeded from six mock
 * courses, with list, lookup, create, shallow-merge update and delete.
 */
module CourseCatalog {
  import opened Wrappers
  import opened Domain
  import Seqs
  import Text

  const MockCourses: seq<Course> := [
    Course("1", "Advanced React Patterns", "Master advanced React patterns including render props, HOCs, and custom hooks",
           "Sarah Johnson", "8 weeks", 245, 99.0, "Web Development", None, None, None),
    Course("2", "TypeScript Fundamentals", "Learn TypeScript from basics to advanced type systems",
           "Mike Chen", "6 weeks", 389, 79.0, "Programming", None, None, None),
    Course("3", "Node.js Backend Development", "Build scalable backend applications with Node.js and Express",
           "Alex Rodriguez", "10 weeks", 167, 119.0, "Backend", None, None, None),
    Course("4", "UI/UX Design Principles", "Design beautiful and intuitive user interfaces",
           "Emma Watson", "5 weeks", 512, 89.0, "Design", None, None, None),
    Course("5", "Python for Data Science", "Analyze data and build ML models with Python",
           "David Lee", "12 weeks", 678, 149.0, "Data Science", None, None, None),
    Course("6", "Mobile App Development with React Native", "Build cross-platform mobile apps",
           "Lisa Park", "9 weeks", 234, 129.0, "Mobile", None, None, None)
  ]

  /** `Omit<Course, 'id' | 'students'>`: what a caller supplies to create a course. */
  datatype CourseDraft = CourseDraft(
    title: string,
    description: string,
    instructor: string,
    duration: string,
    price: real,
    category: string,
    instructorBio: Option<string>,
    modules: Option<seq<ModuleData>>,
    thumbnail: Option<string>)

  /** `Partial<Course>`: each present field overwrites the course's. */
  datatype CoursePatch = CoursePatch(
    id: Option<string>,
    title: Option<string>,
    description: Option<string>,
    instructor: Option<string>,
    duration: Option<string>,
    students: Option<int>,
    price: Option<real>,
    category: Option<string>,
    instructorBio: Option<string>,
    modules: Option<seq<ModuleData>>,
    thumbnail: Option<string>)

  const EmptyPatch := CoursePatch(None, None, None, None, None, None, None, None, None, None, None)

  /** The draft fields of a course: everything but `id` and `students`. */
  function DraftOf(c: Course): CourseDraft {
    CourseDraft(c.title, c.description, c.instructor, c.duration, c.price, c.category,
                c.instructorBio, c.modules, c.thumbnail)
  }

  /** `{ ...courseData, id: String(count + 1), students: 0 }`. */
  function NewCourse(d: CourseDraft, count: nat): (c: Course)
    ensures DraftOf(c) == d
    ensures c.id == Text.NatToString(count + 1) && c.students == 0
  {
    Course(Text.NatToString(count + 1), d.title, d.description, d.instructor, d.duration, 0, d.price,
           d.category, d.instructorBio, d.modules, d.thumbnail)
  }

  /** `{ ...course, ...patch }`. */
  function Merge(c: Course, p: CoursePatch): (r: Course)
    ensures r.id == (if p.id.Some? then p.id.value else c.id)
    ensures r.title == (if p.title.Some? then p.title.value else c.title)
    ensures r.description == (if p.description.Some? then p.description.value else c.description)
    ensures r.instructor == (if p.instructor.Some? then p.instructor.value else c.instructor)
    ensures r.duration == (if p.duration.Some? then p.duration.value else c.duration)
    ensures r.students == (if p.students.Some? then p.students.value else c.students)
    ensures r.price == (if p.price.Some? then p.price.value else c.price)
    ensures r.category == (if p.category.Some? then p.category.value else c.category)
    ensures r.instructorBio == (if p.instructorBio.Some? then p.instructorBio else c.instructorBio)
    ensures r.modules == (if p.modules.Some? then p.modules else c.modules)
    ensures r.thumbnail == (if p.thumbnail.Some? then p.thumbnail else c.thumbnail)
  {
    Course(p.id.GetOr(c.id), p.title.GetOr(c.title), p.description.GetOr(c.description),
           p.instructor.GetOr(c.instructor), p.duration.GetOr(c.duration), p.students.GetOr(c.students),
           p.price.GetOr(c.price), p.category.GetOr(c.category),
           if p.instructorBio.Some? then p.instructorBio else c.instructorBio,
           if p.modules.Some? then p.modules else c.modules,
           if p.thumbnail.Some? then p.thumbnail else c.thumbnail)
  }

  /** An empty patch changes nothing, and merging the same patch twice is merging it once. */
  lemma MergeLaws(c: Course, p: CoursePatch)
    ensures Merge(c, EmptyPatch) == c
    ensures Merge(Merge(c, p), p) == Merge(c, p)
  {
  }

  function HasId(id: string): Course -> bool {
    (c: Course) => c.id == id
  }

  function LacksId(id: string): Course -> bool {
    (c: Course) => c.id != id
  }

  /** `courses.find(c => c.id === id)`. */
  function FindCourse(courses: seq<Course>, id: string): (r: Option<Course>)
    ensures r.None? <==> forall c :: c in courses ==> c.id != id
    ensures r.Some? ==> exists k :: 0 <= k < |courses| && courses[k] == r.value && r.value.id == id
                          && forall j :: 0 <= j < k ==> courses[j].id != id
  {
    Seqs.Find(courses, HasId(id))
  }

  /** `courses.map(c => c.id === id ? { ...c, ...patch } : c)`. */
  function UpdateCourses(courses: seq<Course>, id: string, p: CoursePatch): (r: seq<Course>)
    ensures |r| == |courses|
    ensures forall i :: 0 <= i < |courses| && courses[i].id != id ==> r[i] == courses[i]
    ensures forall i :: 0 <= i < |courses| && courses[i].id == id ==> r[i] == Merge(courses[i], p)
  {
    Seqs.MapWhere(courses, HasId(id), (c: Course) => Merge(c, p))
  }

  /** `courses.filter(c => c.id !== id)`. */
  function DeleteCourses(courses: seq<Course>, id: string): (r: seq<Course>)
    ensures forall c :: c in r <==> c in courses && c.id != id
    ensures Seqs.IsSubsequence(r, courses)
    ensures forall c :: multiset(r)[c] == if c.id != id then multiset(courses)[c] else 0
  {
    Seqs.FilterCounts(courses, LacksId(id));
    Seqs.Filter(courses, LacksId(id))
  }

  /** Ids are `String(position + 1)`: what a list built only by `createCourse` from empty looks like. */
  ghost predicate PositionalIds(courses: seq<Course>) {
    forall i :: 0 <= i < |courses| ==> courses[i].id == Text.NatToString(i + 1)
  }

  /** The six mock courses carry the ids '1'..'6'. */
  lemma MockCoursesPositional()
    ensures PositionalIds(MockCourses)
  {
    assert Text.NatToString(1) == "1" && Text.NatToString(2) == "2" && Text.NatToString(3) == "3";
    assert Text.NatToString(4) == "4" && Text.NatToString(5) == "5" && Text.NatToString(6) == "6";
  }

  /** While ids are positional, a created course gets a fresh id, is the one found by it, and keeps ids positional. */
  lemma CreateFreshWhilePositional(courses: seq<Course>, d: CourseDraft)
    requires PositionalIds(courses)
    ensures FindCourse(courses, NewCourse(d, |courses|).id).None?
    ensures FindCourse(courses + [NewCourse(d, |courses|)], NewCourse(d, |courses|).id) == Some(NewCourse(d, |courses|))
    ensures PositionalIds(courses + [NewCourse(d, |courses|)])
  {
    var c := NewCourse(d, |courses|);
    forall i | 0 <= i < |courses| ensures courses[i].id != c.id {
      Text.NatToStringInjective(i + 1, |courses| + 1);
    }
    Seqs.FindAppendNew(courses, c, HasId(c.id));
  }

  /**
   * `createCourse` does not check that the id is unused: after deleting course '1'
   * from the mock list, the next course created is given the id '6', which the
   * last mock course still has.
   */
  lemma CreateAfterDeleteDuplicatesId(d: CourseDraft)
    ensures var rest := DeleteCourses(MockCourses, "1");
            |rest| == 5 && NewCourse(d, |rest|).id == "6" && rest[4].id == "6"
  {
    var s := MockCourses;
    MockCoursesPositional();
    assert s[0].id == "1";
    forall c | c in s[1..] ensures LacksId("1")(c) {
      var i :| 0 <= i < |s[1..]| && s[1..][i] == c;
      assert c.id == Text.NatToString(i + 2);
      Text.NatToStringInjective(i + 2, 1);
    }
    assert s == [s[0]] + s[1..];
    Seqs.FilterAppend([s[0]], s[1..], LacksId("1"));
    Seqs.FilterKeepsAll(s[1..], LacksId("1"));
    assert DeleteCourses(s, "1") == s[1..];
    assert s[1..][4].id == Text.NatToString(6) == "6";
  }

  /** Updating with a patch that keeps the id turns the course found by that id into its merge with the patch. */
  lemma UpdateThenFind(courses: seq<Course>, id: string, p: CoursePatch)
    requires p.id.None? || p.id == Some(id)
    ensures FindCourse(UpdateCourses(courses, id, p), id) ==
            match FindCourse(courses, id) case Some(c) => Some(Merge(c, p)) case None => None
  {
    Seqs.FindIndexMapWhere(courses, HasId(id), (c: Course) => Merge(c, p));
  }

  /** After a delete no course has the id, and every other course is still there. */
  lemma DeleteThenFind(courses: seq<Course>, id: string, other: string)
    requires other != id
    ensures FindCourse(DeleteCourses(courses, id), id).None?
    ensures FindCourse(DeleteCourses(courses, id), other).Some? <==> FindCourse(courses, other).Some?
  {
    var r := DeleteCourses(courses, id);
    if FindCourse(courses, other).Some? {
      var c := FindCourse(courses, other).value;
      assert c in r;
    }
  }

  /** The `useCourses` hook state. */
  class CourseRepository {
    var courses: seq<Course>
    var loading: bool

    constructor ()
      ensures courses == MockCourses && !loading
    {
      courses := MockCourses;
      loading := false;
    }

    /** `getCourses`: the current list, unchanged. */
    method GetCourses() returns (r: seq<Course>)
      modifies this`loading
      ensures r == courses && !loading
    {
      loading := true;
      loading := false;
      r := courses;
    }

    /** `getCourseById`: the first course with the id, if any. */
    method GetCourseById(id: string) returns (r: Option<Course>)
      modifies this`loading
      ensures r == FindCourse(courses, id) && !loading
    {
      loading := true;
      loading := false;
      r := FindCourse(courses, id);
    }

    /** `createCourse`: appends the new course, numbered after the current length. */
    method CreateCourse(d: CourseDraft) returns (c: Course)
      modifies this
      ensures c == NewCourse(d, |old(courses)|)
      ensures courses == old(courses) + [c] && !loading
    {
      loading := true;
      c := NewCourse(d, |courses|);
      courses := courses + [c];
      loading := false;
    }

    /** `updateCourse`: shallow-merges the patch into every course with the id; no error if there is none. */
    method UpdateCourse(id: string, p: CoursePatch)
      modifies this
      ensures courses == UpdateCourses(old(courses), id, p) && !loading
    {
      loading := true;
      courses := UpdateCourses(courses, id, p);
      loading := false;
    }

    /** `deleteCourse`: drops every course with the id. */
    method DeleteCourse(id: string)
      modifies this
      ensures courses == DeleteCourses(old(courses), id) && !loading
    {
      loading := true;
      courses := DeleteCourses(courses, id);
      loading := false;
    }
  }
}
