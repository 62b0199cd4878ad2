/**
 * `PurchasesContext`: the signed-in user's enrolled courses and purchased
 * bundles, kept as lists of snapshots with idempotent, id-guarded appends, and
 * mirrored into local storage under per-user keys.
 */
module Purchases {
  import opened Wrappers
  import opened Domain
  import opened Storage
  import Seqs

  // ----- membership and guarded append -----

  function CourseHasId(id: string): Course -> bool {
    (c: Course) => c.id == id
  }

  function BundleHasId(id: string): Bundle -> bool {
    (b: Bundle) => b.id == id
  }

  /** `isEnrolled(courseId)`: some enrolled course has the id. */
  function IsEnrolled(courses: seq<Course>, id: string): (b: bool)
    ensures b <==> exists k :: 0 <= k < |courses| && courses[k].id == id
  {
    assert forall k :: 0 <= k < |courses| ==> courses[k] in courses;
    Seqs.Any(courses, CourseHasId(id))
  }

  /** `isBundlePurchased(bundleId)`: some purchased bundle has the id. */
  function IsBundlePurchased(bundles: seq<Bundle>, id: string): (b: bool)
    ensures b <==> exists k :: 0 <= k < |bundles| && bundles[k].id == id
  {
    assert forall k :: 0 <= k < |bundles| ==> bundles[k] in bundles;
    Seqs.Any(bundles, BundleHasId(id))
  }

  /** The list after `enrollInCourse(c)`: `c` is appended unless its id is already enrolled. */
  function Enroll(courses: seq<Course>, c: Course): (r: seq<Course>)
    ensures IsEnrolled(r, c.id)
    ensures IsEnrolled(courses, c.id) ==> r == courses
    ensures !IsEnrolled(courses, c.id) ==> r == courses + [c]
    ensures forall id :: IsEnrolled(r, id) <==> IsEnrolled(courses, id) || id == c.id
  {
    if IsEnrolled(courses, c.id) then courses
    else
      assert (courses + [c])[|courses|] == c;
      courses + [c]
  }

  /** The list after `purchaseBundle(b)`: `b` is appended unless its id is already purchased. */
  function Purchase(bundles: seq<Bundle>, b: Bundle): (r: seq<Bundle>)
    ensures IsBundlePurchased(r, b.id)
    ensures IsBundlePurchased(bundles, b.id) ==> r == bundles
    ensures !IsBundlePurchased(bundles, b.id) ==> r == bundles + [b]
    ensures forall id :: IsBundlePurchased(r, id) <==> IsBundlePurchased(bundles, id) || id == b.id
  {
    if IsBundlePurchased(bundles, b.id) then bundles
    else
      assert (bundles + [b])[|bundles|] == b;
      bundles + [b]
  }

  ghost predicate DistinctCourseIds(courses: seq<Course>) {
    forall i, j :: 0 <= i < j < |courses| ==> courses[i].id != courses[j].id
  }

  ghost predicate DistinctBundleIds(bundles: seq<Bundle>) {
    forall i, j :: 0 <= i < j < |bundles| ==> bundles[i].id != bundles[j].id
  }

  /** Enrolling is idempotent. */
  lemma EnrollIdempotent(courses: seq<Course>, c: Course)
    ensures Enroll(Enroll(courses, c), c) == Enroll(courses, c)
  {
  }

  /** Purchasing is idempotent. */
  lemma PurchaseIdempotent(bundles: seq<Bundle>, b: Bundle)
    ensures Purchase(Purchase(bundles, b), b) == Purchase(bundles, b)
  {
  }

  /** Enrolling never introduces a second course with the same id. */
  lemma EnrollKeepsIdsDistinct(courses: seq<Course>, c: Course)
    requires DistinctCourseIds(courses)
    ensures DistinctCourseIds(Enroll(courses, c))
  {
  }

  /** Purchasing never introduces a second bundle with the same id. */
  lemma PurchaseKeepsIdsDistinct(bundles: seq<Bundle>, b: Bundle)
    requires DistinctBundleIds(bundles)
    ensures DistinctBundleIds(Purchase(bundles, b))
  {
  }

  /** Enrolling in a course not yet enrolled, twice over, leaves exactly one entry with its id. */
  lemma EnrollTwiceLeavesOne(courses: seq<Course>, c: Course)
    requires !IsEnrolled(courses, c.id)
    ensures Seqs.Count(Enroll(Enroll(courses, c), c), CourseHasId(c.id)) == 1
  {
    EnrollIdempotent(courses, c);
    Seqs.FilterKeepsNone(courses, CourseHasId(c.id));
    Seqs.FilterAppend(courses, [c], CourseHasId(c.id));
  }

  /** Purchasing a bundle not yet purchased, twice over, leaves exactly one entry with its id. */
  lemma PurchaseTwiceLeavesOne(bundles: seq<Bundle>, b: Bundle)
    requires !IsBundlePurchased(bundles, b.id)
    ensures Seqs.Count(Purchase(Purchase(bundles, b), b), BundleHasId(b.id)) == 1
  {
    PurchaseIdempotent(bundles, b);
    Seqs.FilterKeepsNone(bundles, BundleHasId(b.id));
    Seqs.FilterAppend(bundles, [b], BundleHasId(b.id));
  }

  // ----- per-user storage keys and the load/save effects -----

  const EnrolledPrefix := "enrolledCourses_"
  const PurchasedPrefix := "purchasedBundles_"

  /** `enrolledCourses_${user.id}`. */
  function EnrolledKey(userId: string): (k: string)
    ensures |k| == |EnrolledPrefix| + |userId| && k[..|EnrolledPrefix|] == EnrolledPrefix && k[|EnrolledPrefix|..] == userId
  {
    EnrolledPrefix + userId
  }

  /** `purchasedBundles_${user.id}`. */
  function PurchasedKey(userId: string): (k: string)
    ensures |k| == |PurchasedPrefix| + |userId| && k[..|PurchasedPrefix|] == PurchasedPrefix && k[|PurchasedPrefix|..] == userId
  {
    PurchasedPrefix + userId
  }

  /**
   * The per-user keys separate users, never collide with each other, and never
   * collide with the keys the rest of the application stores under.
   */
  lemma KeysDistinct(u: string, v: string)
    ensures EnrolledKey(u) == EnrolledKey(v) <==> u == v
    ensures PurchasedKey(u) == PurchasedKey(v) <==> u == v
    ensures EnrolledKey(u) != PurchasedKey(v)
    ensures EnrolledKey(u) !in {CoursesKey, BundlesKey, UsersKey, TokenKey, UserKey}
    ensures PurchasedKey(u) !in {CoursesKey, BundlesKey, UsersKey, TokenKey, UserKey}
  {
    assert EnrolledKey(u)[0] == 'e' && PurchasedKey(v)[0] == 'p';
  }

  /** The save effect for enrolled courses: written only with a user and a non-empty list. */
  function SaveEnrolled(entries: map<string, Stored>, user: Option<User>, courses: seq<Course>): (r: map<string, Stored>)
    ensures user.Some? && |courses| > 0 ==> r == entries[EnrolledKey(user.value.id) := CourseList(courses)]
    ensures user.None? || |courses| == 0 ==> r == entries
  {
    if user.Some? && |courses| > 0 then entries[EnrolledKey(user.value.id) := CourseList(courses)] else entries
  }

  /** The save effect for purchased bundles: written whenever there is a user, even for an empty list. */
  function SavePurchased(entries: map<string, Stored>, user: Option<User>, bundles: seq<Bundle>): (r: map<string, Stored>)
    ensures user.Some? ==> r == entries[PurchasedKey(user.value.id) := BundleList(bundles)]
    ensures user.None? ==> r == entries
  {
    if user.Some? then entries[PurchasedKey(user.value.id) := BundleList(bundles)] else entries
  }

  /** The outcome of the load effect: the two lists it leaves behind. */
  datatype Loaded = Loaded(courses: seq<Course>, bundles: seq<Bundle>)

  /**
   * The load effect for a user. A truthy stored list replaces the current one;
   * an absent or empty entry leaves it; a value that does not parse as a list
   * aborts the effect before the bundles are read.
   */
  function Load(entries: map<string, Stored>, userId: string, courses: seq<Course>, bundles: seq<Bundle>): (r: Loaded)
    ensures EnrolledKey(userId) in entries && entries[EnrolledKey(userId)].CourseList? ==>
              r.courses == entries[EnrolledKey(userId)].courses
    ensures !Truthy(if EnrolledKey(userId) in entries then Some(entries[EnrolledKey(userId)]) else None) ==>
              r.courses == courses
    ensures PurchasedKey(userId) in entries && entries[PurchasedKey(userId)].BundleList?
            && (EnrolledKey(userId) !in entries || entries[EnrolledKey(userId)] == Text("") || entries[EnrolledKey(userId)].CourseList?) ==>
              r.bundles == entries[PurchasedKey(userId)].bundles
    ensures PurchasedKey(userId) !in entries || entries[PurchasedKey(userId)] == Text("") ==> r.bundles == bundles
    ensures TruthyAt(entries, EnrolledKey(userId)) && !entries[EnrolledKey(userId)].CourseList? ==>
              r == Loaded(courses, bundles)
    ensures !(TruthyAt(entries, EnrolledKey(userId)) && !entries[EnrolledKey(userId)].CourseList?)
            && TruthyAt(entries, PurchasedKey(userId)) && !entries[PurchasedKey(userId)].BundleList? ==>
              r.bundles == bundles
  {
    var ek := EnrolledKey(userId);
    var pk := PurchasedKey(userId);
    var stored := if ek in entries then Some(entries[ek]) else None;
    if Truthy(stored) && !stored.value.CourseList? then
      Loaded(courses, bundles)
    else
      var courses' := if Truthy(stored) then stored.value.courses else courses;
      var storedBundles := if pk in entries then Some(entries[pk]) else None;
      if Truthy(storedBundles) && !storedBundles.value.BundleList? then
        Loaded(courses', bundles)
      else
        Loaded(courses', if Truthy(storedBundles) then storedBundles.value.bundles else bundles)
  }

  /** A user's own lists, written by the save effects, are what the load effect reads back. */
  lemma SaveThenLoad(entries: map<string, Stored>, u: User, courses: seq<Course>, bundles: seq<Bundle>, c0: seq<Course>, b0: seq<Bundle>)
    requires |courses| > 0
    ensures Load(SavePurchased(SaveEnrolled(entries, Some(u), courses), Some(u), bundles), u.id, c0, b0)
            == Loaded(courses, bundles)
  {
    KeysDistinct(u.id, u.id);
  }

  /**
   * The lists are not cleared when the user changes: a user with nothing stored
   * inherits the previous user's lists, which the save effects then write under
   * that user's keys.
   */
  lemma SwitchUserCarriesOverPurchases(entries: map<string, Stored>, next: User, courses: seq<Course>, bundles: seq<Bundle>)
    requires EnrolledKey(next.id) !in entries && PurchasedKey(next.id) !in entries
    requires |courses| > 0
    ensures Load(entries, next.id, courses, bundles) == Loaded(courses, bundles)
    ensures var saved := SavePurchased(SaveEnrolled(entries, Some(next), courses), Some(next), bundles);
            saved[EnrolledKey(next.id)] == CourseList(courses) && saved[PurchasedKey(next.id)] == BundleList(bundles)
  {
    KeysDistinct(next.id, next.id);
  }

  /** The provider's state; `store` is the browser's local storage. */
  class PurchasesProvider {
    var user: Option<User>
    var enrolledCourses: seq<Course>
    var purchasedBundles: seq<Bundle>
    const store: LocalStore

    /** Mounting with no user: both lists start empty and nothing is written. */
    constructor (store: LocalStore)
      ensures this.store == store && user.None?
      ensures enrolledCourses == [] && purchasedBundles == []
    {
      this.store := store;
      user := None;
      enrolledCourses := [];
      purchasedBundles := [];
    }

    /**
     * A change of the signed-in user, with the effects that follow it: load
     * (when there is a user), then both save effects on the resulting lists.
     */
    method SetUser(u: Option<User>)
      modifies this, store
      ensures user == u
      ensures u.None? ==> enrolledCourses == old(enrolledCourses) && purchasedBundles == old(purchasedBundles)
      ensures u.Some? ==> Loaded(enrolledCourses, purchasedBundles)
                          == Load(old(store.entries), u.value.id, old(enrolledCourses), old(purchasedBundles))
      ensures store.entries == SavePurchased(SaveEnrolled(old(store.entries), u, enrolledCourses), u, purchasedBundles)
    {
      user := u;
      if u.Some? {
        var loaded := Load(store.entries, u.value.id, enrolledCourses, purchasedBundles);
        enrolledCourses := loaded.courses;
        purchasedBundles := loaded.bundles;
      }
      if u.Some? && |enrolledCourses| > 0 {
        store.SetItem(EnrolledKey(u.value.id), CourseList(enrolledCourses));
      }
      if u.Some? {
        store.SetItem(PurchasedKey(u.value.id), BundleList(purchasedBundles));
      }
    }

    /** `isEnrolled`. */
    method IsEnrolledIn(courseId: string) returns (b: bool)
      ensures b == IsEnrolled(enrolledCourses, courseId)
    {
      b := IsEnrolled(enrolledCourses, courseId);
    }

    /** `isBundlePurchased`. */
    method IsPurchased(bundleId: string) returns (b: bool)
      ensures b == IsBundlePurchased(purchasedBundles, bundleId)
    {
      b := IsBundlePurchased(purchasedBundles, bundleId);
    }

    /** `enrollInCourse`, followed by the save effect when the list changed. */
    method EnrollInCourse(c: Course)
      modifies this`enrolledCourses, store
      ensures enrolledCourses == Enroll(old(enrolledCourses), c)
      ensures store.entries == if IsEnrolled(old(enrolledCourses), c.id) then old(store.entries)
                               else SaveEnrolled(old(store.entries), user, enrolledCourses)
    {
      if !IsEnrolled(enrolledCourses, c.id) {
        enrolledCourses := enrolledCourses + [c];
        if user.Some? && |enrolledCourses| > 0 {
          store.SetItem(EnrolledKey(user.value.id), CourseList(enrolledCourses));
        }
      }
    }

    /** `purchaseBundle`, followed by the save effect when the list changed. */
    method PurchaseBundle(b: Bundle)
      modifies this`purchasedBundles, store
      ensures purchasedBundles == Purchase(old(purchasedBundles), b)
      ensures store.entries == if IsBundlePurchased(old(purchasedBundles), b.id) then old(store.entries)
                               else SavePurchased(old(store.entries), user, purchasedBundles)
    {
      if !IsBundlePurchased(purchasedBundles, b.id) {
        purchasedBundles := purchasedBundles + [b];
        if user.Some? {
          store.SetItem(PurchasedKey(user.value.id), BundleList(purchasedBundles));
        }
      }
    }
  }
}
