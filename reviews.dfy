/**
 * `ReviewsContext`: an append-only list of course reviews with a first-match
 * lookup per user and course, and a per-course filter.
 */
module Reviews {
  import opened Wrappers
  import Seqs
  import Text

  datatype Review = Review(
    id: string,
    userId: string,
    userName: string,
    courseId: string,
    rating: int,
    comment: string,
    date: string)

  /** `Omit<Review, 'id' | 'date'>`: what a caller supplies. */
  datatype ReviewData = ReviewData(userId: string, userName: string, courseId: string, rating: int, comment: string)

  const InitialReviews: seq<Review> := [
    Review("1", "user1", "John Doe", "1", 5, "Excellent course! I learned a lot about React patterns.", "2023-10-15"),
    Review("2", "user2", "Jane Smith", "1", 4, "Very informative content, but could use more examples.", "2023-10-10"),
    Review("3", "user3", "Mike Johnson", "2", 5, "The TypeScript explanations were clear and concise.", "2023-09-28")
  ]

  function ByUserAndCourse(userId: string, courseId: string): Review -> bool {
    (r: Review) => r.userId == userId && r.courseId == courseId
  }

  function ForCourse(courseId: string): Review -> bool {
    (r: Review) => r.courseId == courseId
  }

  /** `getUserReview(userId, courseId)`: the first review by that user for that course. */
  function UserReview(reviews: seq<Review>, userId: string, courseId: string): (r: Option<Review>)
    ensures r.None? <==> forall x :: x in reviews ==> !(x.userId == userId && x.courseId == courseId)
    ensures r.Some? ==> exists k :: 0 <= k < |reviews| && reviews[k] == r.value
                          && r.value.userId == userId && r.value.courseId == courseId
                          && forall j :: 0 <= j < k ==> !(reviews[j].userId == userId && reviews[j].courseId == courseId)
  {
    Seqs.Find(reviews, ByUserAndCourse(userId, courseId))
  }

  /** `getCourseReviews(courseId)`: exactly the reviews of that course, in list order. */
  function CourseReviews(reviews: seq<Review>, courseId: string): (r: seq<Review>)
    ensures forall x :: x in r <==> x in reviews && x.courseId == courseId
    ensures Seqs.IsSubsequence(r, reviews)
    ensures forall x :: multiset(r)[x] == if x.courseId == courseId then multiset(reviews)[x] else 0
  {
    Seqs.FilterCounts(reviews, ForCourse(courseId));
    Seqs.Filter(reviews, ForCourse(courseId))
  }

  /** The review `addReview` builds: the caller's fields, a timestamp id and the date part of an ISO time. */
  function NewReview(data: ReviewData, now: nat, isoTime: string): (r: Review)
    ensures ReviewData(r.userId, r.userName, r.courseId, r.rating, r.comment) == data
    ensures r.id == "review-" + Text.NatToString(now)
    ensures 'T' !in r.date && Text.StartsWith(isoTime, r.date)
    ensures |r.date| == |isoTime| || isoTime[|r.date|] == 'T'
  {
    Review("review-" + Text.NatToString(now), data.userId, data.userName, data.courseId, data.rating, data.comment,
           Text.BeforeFirst(isoTime, 'T'))
  }

  /** For an ISO time `day + "T" + clock`, the stored date is `day`. */
  lemma NewReviewDate(data: ReviewData, now: nat, day: string, clock: string)
    requires 'T' !in day
    ensures NewReview(data, now, day + "T" + clock).date == day
  {
    Text.SplitAfterWord(day, 'T', clock);
    assert day + "T" + clock == day + ['T'] + clock;
  }

  /**
   * Adding is not an upsert: once a user has reviewed a course, the review
   * found for them stays the earlier one whatever is added after it.
   */
  lemma AddKeepsEarlierReview(reviews: seq<Review>, added: Review, userId: string, courseId: string)
    requires UserReview(reviews, userId, courseId).Some?
    ensures UserReview(reviews + [added], userId, courseId) == UserReview(reviews, userId, courseId)
  {
    Seqs.FindAppendFound(reviews, added, ByUserAndCourse(userId, courseId));
  }

  /** A user's first review of a course is the one found for them once added. */
  lemma AddFirstReview(reviews: seq<Review>, added: Review)
    requires UserReview(reviews, added.userId, added.courseId).None?
    ensures UserReview(reviews + [added], added.userId, added.courseId) == Some(added)
  {
    Seqs.FindAppendNew(reviews, added, ByUserAndCourse(added.userId, added.courseId));
  }

  /** Adding a review extends its own course's list by it and leaves every other course's list alone. */
  lemma CourseReviewsAfterAdd(reviews: seq<Review>, added: Review, courseId: string)
    ensures CourseReviews(reviews + [added], courseId) ==
            CourseReviews(reviews, courseId) + (if added.courseId == courseId then [added] else [])
  {
    Seqs.FilterAppend(reviews, [added], ForCourse(courseId));
  }

  /** The seed list holds two reviews of course '1' and one of course '2'. */
  lemma InitialReviewCounts()
    ensures |CourseReviews(InitialReviews, "1")| == 2
    ensures |CourseReviews(InitialReviews, "2")| == 1
    ensures CourseReviews(InitialReviews, "1") == InitialReviews[..2]
  {
    Seqs.FilterAppend(InitialReviews[..2], InitialReviews[2..], ForCourse("1"));
    Seqs.FilterAppend(InitialReviews[..2], InitialReviews[2..], ForCourse("2"));
    assert InitialReviews[..2] + InitialReviews[2..] == InitialReviews;
    Seqs.FilterKeepsAll(InitialReviews[..2], ForCourse("1"));
    Seqs.FilterKeepsNone(InitialReviews[2..], ForCourse("1"));
    Seqs.FilterKeepsNone(InitialReviews[..2], ForCourse("2"));
    Seqs.FilterKeepsAll(InitialReviews[2..], ForCourse("2"));
  }

  /** The provider's `reviews` state. */
  class ReviewsProvider {
    var reviews: seq<Review>

    constructor ()
      ensures reviews == InitialReviews
    {
      reviews := InitialReviews;
    }

    /** `addReview`: appends one new review; every existing review stays as it was. */
    method AddReview(data: ReviewData, now: nat, isoTime: string) returns (added: Review)
      modifies this
      ensures added == NewReview(data, now, isoTime)
      ensures reviews == old(reviews) + [added]
    {
      added := NewReview(data, now, isoTime);
      reviews := reviews + [added];
    }

    /** `getUserReview`. */
    method GetUserReview(userId: string, courseId: string) returns (r: Option<Review>)
      ensures r == UserReview(reviews, userId, courseId)
    {
      r := UserReview(reviews, userId, courseId);
    }

    /** `getCourseReviews`. */
    method GetCourseReviews(courseId: string) returns (r: seq<Review>)
      ensures r == CourseReviews(reviews, courseId)
    {
      r := CourseReviews(reviews, courseId);
    }
  }
}
