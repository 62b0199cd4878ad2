/**
 * `AISuggestionsPage`: canned suggestions chosen by role, a checklist of the
 * ones marked done, the one plan shown expanded, and the completion rate.
 */
module Suggestions {
  import opened Wrappers
  import opened Domain
  import Seqs

  datatype Suggestion = Suggestion(title: string, description: string, action: string, before: int, after: int, plan: seq<string>)

  const EducatorSuggestions: seq<Suggestion> := [
    Suggestion("Add interactive quizzes", "Courses with quizzes have 35% higher completion rates.", "Generate Quizzes", 62, 84,
               ["Week 1: Add quizzes to two lessons", "Week 2: Collect student feedback", "Week 3: Refine based on engagement analytics"]),
    Suggestion("Update course content", "Your React course could benefit from latest v18 features.", "View Suggestions", 70, 90,
               ["Week 1: Update code examples to React 18", "Week 2: Add explanation videos", "Week 3: Run A/B test on updated lessons"]),
    Suggestion("Improve video quality", "AI can enhance clarity and reduce background noise.", "Enhance Videos", 75, 88,
               ["Day 1: Upload videos to AI enhancer", "Day 2: Review improvements", "Day 3: Publish enhanced version"])
  ]

  const MarketerSuggestions: seq<Suggestion> := [
    Suggestion("Optimize bundle pricing", "Increase discounts to 35% for higher conversion rates.", "Apply Changes", 50, 72,
               ["Step 1: Analyze top-performing bundles", "Step 2: Apply 35% discount", "Step 3: Measure conversions weekly"]),
    Suggestion("Target new audience", "Data shows potential in the healthcare sector.", "View Analysis", 65, 83,
               ["Step 1: Research healthcare audience needs", "Step 2: Run targeted campaign", "Step 3: Compare engagement vs. old audience"])
  ]

  const StudentSuggestions: seq<Suggestion> := [
    Suggestion("Recommended course: Advanced TypeScript", "Based on your completed React courses.", "View Course", 68, 92,
               ["Week 1: Enroll and complete intro module", "Week 2: Practice weekly exercises", "Week 3: Attempt final project"]),
    Suggestion("Study schedule optimization", "AI can create a personalized study plan.", "Generate Plan", 55, 80,
               ["Day 1: Analyze current study pattern", "Day 2: Generate new schedule", "Day 3: Track consistency for one week"])
  ]

  /** Educators and marketers get their own lists; students, and visitors with no user, get the student list. */
  function SuggestionsFor(role: Option<Role>): (r: seq<Suggestion>)
    ensures role == Some(Educator) ==> r == EducatorSuggestions
    ensures role == Some(Marketer) ==> r == MarketerSuggestions
    ensures role != Some(Educator) && role != Some(Marketer) ==> r == StudentSuggestions
    ensures 2 <= |r| <= 3
  {
    if role == Some(Educator) then EducatorSuggestions
    else if role == Some(Marketer) then MarketerSuggestions
    else StudentSuggestions
  }

  function IsNot(i: nat): nat -> bool {
    (x: nat) => x != i
  }

  /** `toggleCompletion(index)`: removes every copy of the index if present, else appends it. */
  function ToggleIndex(completed: seq<nat>, i: nat): (r: seq<nat>)
    ensures i in r <==> i !in completed
    ensures forall x :: x != i ==> (x in r <==> x in completed)
    ensures i !in completed ==> r == completed + [i]
  {
    if i in completed then Seqs.Filter(completed, IsNot(i)) else completed + [i]
  }

  ghost predicate NoDuplicates(s: seq<nat>) {
    forall a, b :: 0 <= a < b < |s| ==> s[a] != s[b]
  }

  /** Toggling keeps the list free of duplicates. */
  lemma ToggleKeepsNoDuplicates(completed: seq<nat>, i: nat)
    requires NoDuplicates(completed)
    ensures NoDuplicates(ToggleIndex(completed, i))
  {
    if i in completed {
      FilterKeepsNoDuplicates(completed, IsNot(i));
    }
  }

  lemma {:induction false} FilterKeepsNoDuplicates(s: seq<nat>, keep: nat -> bool)
    requires NoDuplicates(s)
    ensures NoDuplicates(Seqs.Filter(s, keep))
    decreases |s|
  {
    if s != [] {
      assert NoDuplicates(s[1..]);
      FilterKeepsNoDuplicates(s[1..], keep);
      var rest := Seqs.Filter(s[1..], keep);
      assert s[0] !in s[1..];
      assert s[0] !in rest;
    }
  }

  /** Toggling an index off again restores the list exactly; toggling a present index twice restores the set of indices. */
  lemma ToggleTwice(completed: seq<nat>, i: nat)
    ensures i !in completed ==> ToggleIndex(ToggleIndex(completed, i), i) == completed
    ensures forall x :: x in ToggleIndex(ToggleIndex(completed, i), i) <==> x in completed
  {
    if i !in completed {
      Seqs.FilterAppend(completed, [i], IsNot(i));
      Seqs.FilterKeepsAll(completed, IsNot(i));
    }
  }

  /** `togglePlan(index)`: open the plan, or close it when it is the one already open. */
  function TogglePlan(active: Option<nat>, i: nat): (r: Option<nat>)
    ensures r == Some(i) <==> active != Some(i)
    ensures r.None? <==> active == Some(i)
  {
    if active == Some(i) then None else Some(i)
  }

  /**
   * `Math.round(done / total * 100)` in exact arithmetic: the whole percentage
   * nearest to `100 * done / total`, halves rounded up.
   */
  function CompletionRate(done: nat, total: nat): (r: nat)
    requires total > 0
    ensures 2 * total * r <= 200 * done + total < 2 * total * (r + 1)
  {
    (200 * done + total) / (2 * total)
  }

  /** Multiplication by a natural number is monotone. */
  lemma {:induction false} MulMonotone(a: nat, b: nat, c: nat)
    requires b <= c
    ensures a * b <= a * c
    decreases a
  {
    if a > 0 {
      MulMonotone(a - 1, b, c);
      assert a * b == (a - 1) * b + b && a * c == (a - 1) * c + c;
    }
  }

  /** A quotient below `v` follows from a dividend below `d * v`. */
  lemma DivBelow(x: nat, d: nat, v: nat)
    requires d > 0 && x < d * v
    ensures x / d < v
  {
    var q := x / d;
    assert d * q <= x;
    if q >= v {
      MulMonotone(d, v, q);
      assert false;
    }
  }

  /** A quotient of at least `v` follows from a dividend of at least `d * v`. */
  lemma DivAtLeast(x: nat, d: nat, v: nat)
    requires d > 0 && d * v <= x
    ensures v <= x / d
  {
    var q := x / d;
    assert x < d * (q + 1);
    if q + 1 <= v {
      MulMonotone(d, q + 1, v);
      assert false;
    }
  }

  /** Division by a positive number is monotone in the dividend. */
  lemma DivMonotone(x: nat, y: nat, d: nat)
    requires d > 0 && x <= y
    ensures x / d <= y / d
  {
    var q := x / d;
    assert d * q <= x;
    DivAtLeast(y, d, q);
  }

  /**
   * No suggestion done is 0% and all of them done is 100%; in between the rate
   * stays within 0..100 and grows with `done`. For fewer than 200 suggestions,
   * anything short of all of them stays below 100%.
   */
  lemma CompletionRateBounds(done: nat, total: nat)
    requires total > 0
    ensures done == 0 ==> CompletionRate(done, total) == 0
    ensures done == total ==> CompletionRate(done, total) == 100
    ensures done <= total ==> CompletionRate(done, total) <= 100
    ensures CompletionRate(done, total) <= CompletionRate(done + 1, total)
    ensures done < total < 200 ==> CompletionRate(done, total) < 100
  {
    var d := 2 * total;
    DivMonotone(200 * done + total, 200 * (done + 1) + total, d);
    if done == 0 {
      DivBelow(total, d, 1);
    }
    if done <= total {
      DivMonotone(200 * done + total, 200 * total + total, d);
      assert 200 * total + total < d * 101;
      DivBelow(200 * total + total, d, 101);
    }
    if done == total {
      assert d * 100 <= 200 * total + total;
      DivAtLeast(200 * total + total, d, 100);
    }
    if done < total < 200 {
      DivMonotone(200 * done + total, 200 * (total - 1) + total, d);
      assert 200 * (total - 1) + total < d * 100;
      DivBelow(200 * (total - 1) + total, d, 100);
    }
  }

  /** The indices a list holds. */
  ghost function Elems(s: seq<nat>): (r: set<nat>)
    ensures forall x :: x in r <==> x in s
    decreases |s|
  {
    if s == [] then {} else {s[0]} + Elems(s[1..])
  }

  /** The indices below `n`. */
  ghost function Below(n: nat): (r: set<nat>)
    ensures forall k :: k in r <==> 0 <= k < n
    ensures |r| == n
    decreases n
  {
    if n == 0 then {} else Below(n - 1) + {n - 1}
  }

  lemma {:induction false} ElemsCard(s: seq<nat>)
    requires NoDuplicates(s)
    ensures |Elems(s)| == |s|
    decreases |s|
  {
    if s != [] {
      assert NoDuplicates(s[1..]);
      ElemsCard(s[1..]);
      assert s[0] !in s[1..];
    }
  }

  lemma SubsetCard(a: set<nat>, b: set<nat>)
    requires a <= b
    ensures |a| <= |b|
    ensures a != b ==> |a| < |b|
  {
    assert b == a + (b - a);
    assert a * (b - a) == {};
    if a != b {
      assert b - a != {};
    }
  }

  /** Distinct in-range indices number no more than the range, and exactly the range only when they cover it. */
  lemma DistinctIndicesBound(s: seq<nat>, total: nat)
    requires NoDuplicates(s) && forall x :: x in s ==> x < total
    ensures |s| <= total
    ensures |s| == total <==> forall k :: 0 <= k < total ==> k in s
  {
    var e, b := Elems(s), Below(total);
    ElemsCard(s);
    assert e <= b;
    SubsetCard(e, b);
    if |s| == total {
      assert e == b;
      forall k | 0 <= k < total ensures k in s {
        assert k in b;
      }
    }
    if forall k :: 0 <= k < total ==> k in s {
      assert b <= e;
    }
  }

  /** The page's state for the signed-in user's role. */
  class Page {
    const role: Option<Role>
    var completed: seq<nat>
    var activePlan: Option<nat>

    /** Only displayed suggestions can be toggled, and each at most once. */
    ghost predicate Valid()
      reads this
    {
      NoDuplicates(completed) && forall x :: x in completed ==> x < |SuggestionsFor(role)|
    }

    constructor (role: Option<Role>)
      ensures this.role == role && completed == [] && activePlan.None? && Valid()
    {
      this.role := role;
      completed := [];
      activePlan := None;
    }

    /** `completionRate`. */
    function Rate(): (r: nat)
      reads this
      requires Valid()
      ensures r <= 100
      ensures r == 100 <==> forall k :: 0 <= k < |SuggestionsFor(role)| ==> k in completed
    {
      var total := |SuggestionsFor(role)|;
      DistinctIndicesBound(completed, total);
      CompletionRateBounds(|completed|, total);
      CompletionRate(|completed|, total)
    }

    /** A "Mark done" button for a displayed suggestion. */
    method ToggleCompletion(i: nat)
      requires Valid() && i < |SuggestionsFor(role)|
      modifies this`completed
      ensures completed == ToggleIndex(old(completed), i) && Valid()
    {
      ToggleKeepsNoDuplicates(completed, i);
      completed := ToggleIndex(completed, i);
    }

    /** A "View plan" button. */
    method TogglePlanAt(i: nat)
      modifies this`activePlan
      ensures activePlan == TogglePlan(old(activePlan), i)
    {
      activePlan := TogglePlan(activePlan, i);
    }
  }
}
