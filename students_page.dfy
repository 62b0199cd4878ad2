/** The student directory: a fixed list shown through a case-insensitive search box. */
module StudentsPage {
  import opened Seqs
  import opened Text

  datatype Student = Student(id: string, name: string, email: string, institution: string)

  /** The list the page loads. */
  const MockStudents: seq<Student> := [
    Student("1", "John Doe", "john.doe@university.edu", "University of Technology"),
    Student("2", "Jane Smith", "jane.smith@college.edu", "College of Arts"),
    Student("3", "Robert Johnson", "robert.j@institute.edu", "Institute of Science"),
    Student("4", "Emily Davis", "emily.davis@academy.edu", "Academy of Design"),
    Student("5", "Michael Brown", "michael.b@university.edu", "University of Technology"),
    Student("6", "Sarah Wilson", "sarah.w@college.edu", "College of Arts"),
    Student("7", "David Miller", "david.m@institute.edu", "Institute of Science"),
    Student("8", "Lisa Taylor", "lisa.t@academy.edu", "Academy of Design"),
    Student("9", "James Anderson", "james.a@university.edu", "University of Technology"),
    Student("10", "Jennifer Thomas", "jennifer.t@college.edu", "College of Arts"),
    Student("11", "Daniel White", "daniel.w@institute.edu", "Institute of Science"),
    Student("12", "Karen Martin", "karen.m@academy.edu", "Academy of Design")
  ]

  /** A student matches when the name, email or institution contains the term, ignoring case. */
  function Matches(term: string): Student -> bool {
    (s: Student) =>
      IncludesIgnoringCase(s.name, term) || IncludesIgnoringCase(s.email, term) ||
      IncludesIgnoringCase(s.institution, term)
  }

  /** `filteredStudents`. */
  function FilteredStudents(students: seq<Student>, term: string): (r: seq<Student>)
    ensures forall s :: s in r <==> s in students && Matches(term)(s)
    ensures IsSubsequence(r, students)
    ensures forall s :: multiset(r)[s] == if Matches(term)(s) then multiset(students)[s] else 0
  {
    FilterCounts(students, Matches(term));
    Filter(students, Matches(term))
  }

  /** An empty search box shows everyone. */
  lemma EmptyTermKeepsAll(students: seq<Student>)
    ensures FilteredStudents(students, "") == students
  {
    forall s | s in students ensures Matches("")(s) {
      IncludesIgnoringCaseEmpty(s.name);
    }
    FilterKeepsAll(students, Matches(""));
  }

  /** What the table body shows. */
  datatype Table = LoadingNotice | NoMatchRow | Rows(shown: seq<Student>)

  const LoadingText := "Loading students..."
  const NoMatchText := "No students found matching your search."

  /** The card's body while loading, then the rows or the single no-match row. */
  function TableFor(loading: bool, students: seq<Student>, term: string): (t: Table)
    ensures t.LoadingNotice? <==> loading
    ensures t.Rows? ==> t.shown == FilteredStudents(students, term) && t.shown != []
  {
    if loading then LoadingNotice
    else
      var shown := FilteredStudents(students, term);
      if |shown| > 0 then Rows(shown) else NoMatchRow
  }

  /** Once loaded, the no-match row appears exactly when no student matches the term. */
  lemma NoMatchRowIffNoneMatch(students: seq<Student>, term: string)
    ensures TableFor(false, students, term) == NoMatchRow <==>
            forall s :: s in students ==> !Matches(term)(s)
  {
    var shown := FilteredStudents(students, term);
    if |shown| > 0 {
      assert shown[0] in shown;
    }
  }

  /** Before and after the load: the notice, then the whole list for an empty box. */
  lemma LoadedListShowsAll()
    ensures TableFor(true, [], "") == LoadingNotice
    ensures TableFor(false, MockStudents, "") == Rows(MockStudents)
  {
    EmptyTermKeepsAll(MockStudents);
  }
}
