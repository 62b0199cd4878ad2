/** The teacher directory: a fixed list, a case-insensitive search box and an invite button per row. */
module TeachersPage {
  import opened Seqs
  import opened Text

  datatype Teacher = Teacher(id: string, name: string, email: string, specialization: string)

  /** The list the page loads. */
  const MockTeachers: seq<Teacher> := [
    Teacher("t1", "Alice Johnson", "alice@academy.edu", "Web Development"),
    Teacher("t2", "Brian Lee", "brian@tech.edu", "Data Science"),
    Teacher("t3", "Cynthia Park", "cynthia@design.edu", "UI/UX Design"),
    Teacher("t4", "Daniel Kim", "daniel@mobile.edu", "Mobile Development"),
    Teacher("t5", "Eva Martinez", "eva@cloud.edu", "DevOps")
  ]

  /** A teacher matches when the name, email or specialisation contains the term, ignoring case. */
  function Matches(term: string): Teacher -> bool {
    (t: Teacher) =>
      IncludesIgnoringCase(t.name, term) || IncludesIgnoringCase(t.email, term) ||
      IncludesIgnoringCase(t.specialization, term)
  }

  /** `filteredTeachers`. */
  function FilteredTeachers(teachers: seq<Teacher>, term: string): (r: seq<Teacher>)
    ensures forall t :: t in r <==> t in teachers && Matches(term)(t)
    ensures IsSubsequence(r, teachers)
    ensures forall t :: multiset(r)[t] == if Matches(term)(t) then multiset(teachers)[t] else 0
  {
    FilterCounts(teachers, Matches(term));
    Filter(teachers, Matches(term))
  }

  /** An empty search box shows everyone. */
  lemma EmptyTermKeepsAll(teachers: seq<Teacher>)
    ensures FilteredTeachers(teachers, "") == teachers
  {
    forall t | t in teachers ensures Matches("")(t) {
      IncludesIgnoringCaseEmpty(t.name);
    }
    FilterKeepsAll(teachers, Matches(""));
  }

  /** What the table body shows. */
  datatype Table = LoadingNotice | NoMatchRow | Rows(shown: seq<Teacher>)

  const LoadingText := "Loading teachers..."
  const NoMatchText := "No teachers found matching your search."

  /** The card's body while loading, then the rows or the single no-match row. */
  function TableFor(loading: bool, teachers: seq<Teacher>, term: string): (t: Table)
    ensures t.LoadingNotice? <==> loading
    ensures t.Rows? ==> t.shown == FilteredTeachers(teachers, term) && t.shown != []
  {
    if loading then LoadingNotice
    else
      var shown := FilteredTeachers(teachers, term);
      if |shown| > 0 then Rows(shown) else NoMatchRow
  }

  /** Once loaded, the no-match row appears exactly when no teacher matches the term. */
  lemma NoMatchRowIffNoneMatch(teachers: seq<Teacher>, term: string)
    ensures TableFor(false, teachers, term) == NoMatchRow <==>
            forall t :: t in teachers ==> !Matches(term)(t)
  {
    var shown := FilteredTeachers(teachers, term);
    if |shown| > 0 {
      assert shown[0] in shown;
    }
  }

  /** `handleInvite`: the alert text for a teacher. */
  function InviteMessage(t: Teacher): (r: string)
    ensures |r| == |t.name| + |t.email| + 22
    ensures StartsWith(r, "Invitation sent to ") && r[|r| - 1] == ')'
  {
    "Invitation sent to " + t.name + " (" + t.email + ")"
  }

  /** The alert names the teacher and gives the address the invitation went to. */
  lemma InviteMessageNamesTeacher(t: Teacher)
    ensures StartsWith(InviteMessage(t), "Invitation sent to ")
    ensures Includes(InviteMessage(t), t.name)
    ensures Includes(InviteMessage(t), " (" + t.email + ")")
    ensures InviteMessage(t)[|InviteMessage(t)| - 1] == ')'
  {
    var m := InviteMessage(t);
    IncludesMiddle("Invitation sent to ", t.name, " (" + t.email + ")");
    assert "Invitation sent to " + t.name + (" (" + t.email + ")") == m;
    IncludesMiddle("Invitation sent to " + t.name, " (" + t.email + ")", "");
    assert "Invitation sent to " + t.name + (" (" + t.email + ")") + "" == m;
  }
}
