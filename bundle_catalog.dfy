/**
 * The `useBundles` hook: an in-memory list of bundles, seeded from five mock
 * bundles, with list, lookup, create, shallow-merge update and delete.
 */
module BundleCatalog {
  import opened Wrappers
  import opened Domain
  import Seqs
  import Text

  const MockBundles: seq<Bundle> := [
    Bundle("1", "Full Stack Developer Bundle", "Complete path from frontend to backend development", 5, 500.0, 300.0, 40.0),
    Bundle("2", "Data Science Master Bundle", "Everything you need to become a data scientist", 6, 600.0, 360.0, 40.0),
    Bundle("3", "Mobile Development Bundle", "Build iOS and Android apps from scratch", 4, 400.0, 260.0, 35.0),
    Bundle("4", "UI/UX Design Complete Bundle", "Master design thinking and user experience", 7, 550.0, 330.0, 40.0),
    Bundle("5", "DevOps Engineer Bundle", "Learn CI/CD, Docker, Kubernetes and cloud platforms", 5, 480.0, 312.0, 35.0)
  ]

  /** `Omit<Bundle, 'id'>`. */
  datatype BundleDraft = BundleDraft(
    title: string,
    description: string,
    courses: int,
    originalPrice: real,
    discountedPrice: real,
    discount: real)

  /** `Partial<Bundle>`. */
  datatype BundlePatch = BundlePatch(
    id: Option<string>,
    title: Option<string>,
    description: Option<string>,
    courses: Option<int>,
    originalPrice: Option<real>,
    discountedPrice: Option<real>,
    discount: Option<real>)

  const EmptyPatch := BundlePatch(None, None, None, None, None, None, None)

  function DraftOf(b: Bundle): BundleDraft {
    BundleDraft(b.title, b.description, b.courses, b.originalPrice, b.discountedPrice, b.discount)
  }

  /** `{ ...bundleData, id: String(count + 1) }`: no other field is defaulted. */
  function NewBundle(d: BundleDraft, count: nat): (b: Bundle)
    ensures DraftOf(b) == d
    ensures b.id == Text.NatToString(count + 1)
  {
    Bundle(Text.NatToString(count + 1), d.title, d.description, d.courses, d.originalPrice, d.discountedPrice, d.discount)
  }

  /** `{ ...bundle, ...patch }`. */
  function Merge(b: Bundle, p: BundlePatch): (r: Bundle)
    ensures r.id == (if p.id.Some? then p.id.value else b.id)
    ensures r.title == (if p.title.Some? then p.title.value else b.title)
    ensures r.description == (if p.description.Some? then p.description.value else b.description)
    ensures r.courses == (if p.courses.Some? then p.courses.value else b.courses)
    ensures r.originalPrice == (if p.originalPrice.Some? then p.originalPrice.value else b.originalPrice)
    ensures r.discountedPrice == (if p.discountedPrice.Some? then p.discountedPrice.value else b.discountedPrice)
    ensures r.discount == (if p.discount.Some? then p.discount.value else b.discount)
  {
    Bundle(p.id.GetOr(b.id), p.title.GetOr(b.title), p.description.GetOr(b.description),
           p.courses.GetOr(b.courses), p.originalPrice.GetOr(b.originalPrice),
           p.discountedPrice.GetOr(b.discountedPrice), p.discount.GetOr(b.discount))
  }

  /** An empty patch changes nothing, and merging the same patch twice is merging it once. */
  lemma MergeLaws(b: Bundle, p: BundlePatch)
    ensures Merge(b, EmptyPatch) == b
    ensures Merge(Merge(b, p), p) == Merge(b, p)
  {
  }

  function HasId(id: string): Bundle -> bool {
    (b: Bundle) => b.id == id
  }

  function LacksId(id: string): Bundle -> bool {
    (b: Bundle) => b.id != id
  }

  /** `bundles.find(b => b.id === id)`. */
  function FindBundle(bundles: seq<Bundle>, id: string): (r: Option<Bundle>)
    ensures r.None? <==> forall b :: b in bundles ==> b.id != id
    ensures r.Some? ==> exists k :: 0 <= k < |bundles| && bundles[k] == r.value && r.value.id == id
                          && forall j :: 0 <= j < k ==> bundles[j].id != id
  {
    Seqs.Find(bundles, HasId(id))
  }

  /** `bundles.map(b => b.id === id ? { ...b, ...patch } : b)`. */
  function UpdateBundles(bundles: seq<Bundle>, id: string, p: BundlePatch): (r: seq<Bundle>)
    ensures |r| == |bundles|
    ensures forall i :: 0 <= i < |bundles| && bundles[i].id != id ==> r[i] == bundles[i]
    ensures forall i :: 0 <= i < |bundles| && bundles[i].id == id ==> r[i] == Merge(bundles[i], p)
  {
    Seqs.MapWhere(bundles, HasId(id), (b: Bundle) => Merge(b, p))
  }

  /** `bundles.filter(b => b.id !== id)`. */
  function DeleteBundles(bundles: seq<Bundle>, id: string): (r: seq<Bundle>)
    ensures forall b :: b in r <==> b in bundles && b.id != id
    ensures Seqs.IsSubsequence(r, bundles)
    ensures forall b :: multiset(r)[b] == if b.id != id then multiset(bundles)[b] else 0
  {
    Seqs.FilterCounts(bundles, LacksId(id));
    Seqs.Filter(bundles, LacksId(id))
  }

  /** Ids are `String(position + 1)`. */
  ghost predicate PositionalIds(bundles: seq<Bundle>) {
    forall i :: 0 <= i < |bundles| ==> bundles[i].id == Text.NatToString(i + 1)
  }

  /** The five mock bundles carry the ids '1'..'5'. */
  lemma MockBundlesPositional()
    ensures PositionalIds(MockBundles)
  {
    assert Text.NatToString(1) == "1" && Text.NatToString(2) == "2" && Text.NatToString(3) == "3";
    assert Text.NatToString(4) == "4" && Text.NatToString(5) == "5";
  }

  /** While ids are positional, a created bundle gets a fresh id and is the one found by it. */
  lemma CreateFreshWhilePositional(bundles: seq<Bundle>, d: BundleDraft)
    requires PositionalIds(bundles)
    ensures FindBundle(bundles, NewBundle(d, |bundles|).id).None?
    ensures FindBundle(bundles + [NewBundle(d, |bundles|)], NewBundle(d, |bundles|).id) == Some(NewBundle(d, |bundles|))
    ensures PositionalIds(bundles + [NewBundle(d, |bundles|)])
  {
    var b := NewBundle(d, |bundles|);
    forall i | 0 <= i < |bundles| ensures bundles[i].id != b.id {
      Text.NatToStringInjective(i + 1, |bundles| + 1);
    }
    Seqs.FindAppendNew(bundles, b, HasId(b.id));
  }

  /** Updating with a patch that keeps the id turns the bundle found by that id into its merge with the patch. */
  lemma UpdateThenFind(bundles: seq<Bundle>, id: string, p: BundlePatch)
    requires p.id.None? || p.id == Some(id)
    ensures FindBundle(UpdateBundles(bundles, id, p), id) ==
            match FindBundle(bundles, id) case Some(b) => Some(Merge(b, p)) case None => None
  {
    Seqs.FindIndexMapWhere(bundles, HasId(id), (b: Bundle) => Merge(b, p));
  }

  /** The `useBundles` hook state. */
  class BundleRepository {
    var bundles: seq<Bundle>
    var loading: bool

    constructor ()
      ensures bundles == MockBundles && !loading
    {
      bundles := MockBundles;
      loading := false;
    }

    /** `getBundles`: the current list, unchanged. */
    method GetBundles() returns (r: seq<Bundle>)
      modifies this`loading
      ensures r == bundles && !loading
    {
      loading := true;
      loading := false;
      r := bundles;
    }

    /** `getBundleById`: the first bundle with the id, if any. */
    method GetBundleById(id: string) returns (r: Option<Bundle>)
      modifies this`loading
      ensures r == FindBundle(bundles, id) && !loading
    {
      loading := true;
      loading := false;
      r := FindBundle(bundles, id);
    }

    /** `createBundle`: appends the new bundle, numbered after the current length. */
    method CreateBundle(d: BundleDraft) returns (b: Bundle)
      modifies this
      ensures b == NewBundle(d, |old(bundles)|)
      ensures bundles == old(bundles) + [b] && !loading
    {
      loading := true;
      b := NewBundle(d, |bundles|);
      bundles := bundles + [b];
      loading := false;
    }

    /** `updateBundle`: shallow-merges the patch into every bundle with the id; no error if there is none. */
    method UpdateBundle(id: string, p: BundlePatch)
      modifies this
      ensures bundles == UpdateBundles(old(bundles), id, p) && !loading
    {
      loading := true;
      bundles := UpdateBundles(bundles, id, p);
      loading := false;
    }

    /** `deleteBundle`: drops every bundle with the id. */
    method DeleteBundle(id: string)
      modifies this
      ensures bundles == DeleteBundles(old(bundles), id) && !loading
    {
      loading := true;
      bundles := DeleteBundles(bundles, id);
      loading := false;
    }
  }
}
