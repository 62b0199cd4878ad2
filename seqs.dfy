/**
 * The array operations the application builds its state from (`filter`, `find`,
 * `some`, `map` over matching elements), stated once over Dafny sequences.
 */
module Seqs {
  import opened Wrappers

  /** `r` keeps some of the elements of `s`, in their original relative order. */
  ghost predicate IsSubsequence<T>(r: seq<T>, s: seq<T>)
    decreases |s|
  {
    r == [] || (s != [] && ((r[0] == s[0] && IsSubsequence(r[1..], s[1..])) || IsSubsequence(r, s[1..])))
  }

  /** `s.filter(keep)`. */
  function Filter<T(!new)>(s: seq<T>, keep: T -> bool): (r: seq<T>)
    ensures |r| <= |s|
    ensures forall x :: x in r <==> x in s && keep(x)
    ensures IsSubsequence(r, s)
    decreases |s|
  {
    if s == [] then []
    else if keep(s[0]) then [s[0]] + Filter(s[1..], keep)
    else Filter(s[1..], keep)
  }

  /** The filter keeps every copy of a kept element and no copy of a dropped one. */
  lemma {:induction false} FilterCounts<T(!new)>(s: seq<T>, keep: T -> bool)
    ensures forall x :: multiset(Filter(s, keep))[x] == if keep(x) then multiset(s)[x] else 0
    decreases |s|
  {
    if s != [] {
      FilterCounts(s[1..], keep);
      assert s == [s[0]] + s[1..];
    }
  }

  /** Number of elements of `s` that satisfy `p`. */
  function Count<T(!new)>(s: seq<T>, p: T -> bool): nat {
    |Filter(s, p)|
  }

  /** `s.some(p)`. */
  function Any<T(!new)>(s: seq<T>, p: T -> bool): (b: bool)
    ensures b <==> exists x :: x in s && p(x)
    decreases |s|
  {
    if s == [] then false else p(s[0]) || Any(s[1..], p)
  }

  /** `s.findIndex(p)`, with -1 as None. */
  function FindIndex<T>(s: seq<T>, p: T -> bool): (r: Option<nat>)
    ensures r.None? <==> forall i :: 0 <= i < |s| ==> !p(s[i])
    ensures r.Some? ==> r.value < |s| && p(s[r.value]) && forall j :: 0 <= j < r.value ==> !p(s[j])
    decreases |s|
  {
    if s == [] then None
    else if p(s[0]) then Some(0)
    else match FindIndex(s[1..], p)
      case None => None
      case Some(k) => Some(k + 1)
  }

  /** `s.find(p)`: the first element that satisfies `p`, if any. */
  function Find<T(!new)>(s: seq<T>, p: T -> bool): (r: Option<T>)
    ensures r.None? <==> forall x :: x in s ==> !p(x)
    ensures r.Some? ==> exists k :: 0 <= k < |s| && s[k] == r.value && p(s[k]) && forall j :: 0 <= j < k ==> !p(s[j])
  {
    match FindIndex(s, p)
    case None => None
    case Some(k) => Some(s[k])
  }

  /** `s.map(x => p(x) ? f(x) : x)`: `f` applied to the matching elements only. */
  function MapWhere<T>(s: seq<T>, p: T -> bool, f: T -> T): (r: seq<T>)
    ensures |r| == |s|
    ensures forall i :: 0 <= i < |s| ==> r[i] == (if p(s[i]) then f(s[i]) else s[i])
    decreases |s|
  {
    if s == [] then []
    else [if p(s[0]) then f(s[0]) else s[0]] + MapWhere(s[1..], p, f)
  }

  /** One step of the filter: the head is kept or dropped, then the tail is filtered. */
  lemma FilterCons<T(!new)>(x: T, t: seq<T>, keep: T -> bool)
    ensures Filter([x] + t, keep) == (if keep(x) then [x] else []) + Filter(t, keep)
  {
    assert ([x] + t)[0] == x && ([x] + t)[1..] == t;
  }

  /** Filtering distributes over concatenation. */
  lemma {:induction false} FilterAppend<T(!new)>(a: seq<T>, b: seq<T>, keep: T -> bool)
    ensures Filter(a + b, keep) == Filter(a, keep) + Filter(b, keep)
    decreases |a|
  {
    if a != [] {
      var x, t := a[0], a[1..];
      assert a == [x] + t && a + b == [x] + (t + b);
      FilterAppend(t, b, keep);
      FilterCons(x, t + b, keep);
      FilterCons(x, t, keep);
      var head := if keep(x) then [x] else [];
      assert head + (Filter(t, keep) + Filter(b, keep)) == (head + Filter(t, keep)) + Filter(b, keep);
    } else {
      assert a + b == b;
    }
  }

  /** A filter that keeps every element returns the sequence unchanged. */
  lemma {:induction false} FilterKeepsAll<T(!new)>(s: seq<T>, keep: T -> bool)
    requires forall x :: x in s ==> keep(x)
    ensures Filter(s, keep) == s
    decreases |s|
  {
    if s != [] {
      assert s[0] in s;
      assert forall x :: x in s[1..] ==> x in s;
      FilterKeepsAll(s[1..], keep);
      assert [s[0]] + s[1..] == s;
    }
  }

  /** A filter that keeps nothing returns the empty sequence. */
  lemma FilterKeepsNone<T(!new)>(s: seq<T>, keep: T -> bool)
    requires forall x :: x in s ==> !keep(x)
    ensures Filter(s, keep) == []
  {
    if Filter(s, keep) != [] {
      assert Filter(s, keep)[0] in Filter(s, keep);
    }
  }

  /** Searching a concatenation searches the left part first. */
  lemma {:induction false} FindIndexAppend<T>(a: seq<T>, b: seq<T>, p: T -> bool)
    ensures FindIndex(a + b, p) ==
      match FindIndex(a, p)
      case Some(k) => Some(k)
      case None => (match FindIndex(b, p) case Some(k) => Some(|a| + k) case None => None)
  {
    var ab := a + b;
    match FindIndex(a, p)
    case Some(k) =>
      assert ab[k] == a[k];
      assert forall j :: 0 <= j < k ==> ab[j] == a[j];
    case None =>
      assert forall j :: 0 <= j < |a| ==> ab[j] == a[j];
      match FindIndex(b, p)
      case Some(k) =>
        assert ab[|a| + k] == b[k];
        assert forall j :: |a| <= j < |a| + k ==> ab[j] == b[j - |a|];
      case None =>
        assert forall j :: |a| <= j < |ab| ==> ab[j] == b[j - |a|];
  }

  /** Appending an element leaves the result of an earlier successful `find` unchanged. */
  lemma FindAppendFound<T(!new)>(s: seq<T>, x: T, p: T -> bool)
    requires Find(s, p).Some?
    ensures Find(s + [x], p) == Find(s, p)
  {
    FindIndexAppend(s, [x], p);
    assert (s + [x])[FindIndex(s, p).value] == s[FindIndex(s, p).value];
  }

  /** Appending a matching element to a sequence without a match makes it the one found. */
  lemma FindAppendNew<T(!new)>(s: seq<T>, x: T, p: T -> bool)
    requires Find(s, p).None? && p(x)
    ensures Find(s + [x], p) == Some(x)
  {
    FindIndexAppend(s, [x], p);
    assert (s + [x])[|s|] == x;
  }

  /** Counting distributes over concatenation. */
  lemma CountAppend<T(!new)>(a: seq<T>, b: seq<T>, p: T -> bool)
    ensures Count(a + b, p) == Count(a, p) + Count(b, p)
  {
    FilterAppend(a, b, p);
  }

  /** No element matches iff the count is zero. */
  lemma CountZero<T(!new)>(s: seq<T>, p: T -> bool)
    ensures Count(s, p) == 0 <==> !Any(s, p)
  {
    if Count(s, p) != 0 {
      assert Filter(s, p)[0] in Filter(s, p);
    }
  }

  /** Rewriting matching elements into matching elements does not move the first match. */
  lemma {:induction false} FindIndexMapWhere<T>(s: seq<T>, p: T -> bool, f: T -> T)
    requires forall x :: p(x) ==> p(f(x))
    ensures FindIndex(MapWhere(s, p, f), p) == FindIndex(s, p)
    decreases |s|
  {
    if s != [] {
      var r := MapWhere(s, p, f);
      assert r[1..] == MapWhere(s[1..], p, f);
      FindIndexMapWhere(s[1..], p, f);
    }
  }
}
