/**
 * `ReviewForm`: the star rating and comment a signed-in user submits for a
 * course, with the guards that keep bad submissions out of the review list.
 */
module ReviewForm {
  import opened Wrappers
  import opened Domain
  import Text
  import opened Reviews

  datatype SubmitError = NotLoggedIn | EmptyComment

  function Message(e: SubmitError): string {
    match e
    case NotLoggedIn => "You must be logged in to leave a review"
    case EmptyComment => "Please enter a comment for your review"
  }

  /** `user.name || user.email.split('@')[0]`. */
  function UserName(u: User): (n: string)
    ensures u.name != "" ==> n == u.name
    ensures u.name == "" ==> '@' !in n && Text.StartsWith(u.email, n) && (|n| == |u.email| || u.email[|n|] == '@')
  {
    if u.name != "" then u.name else Text.BeforeFirst(u.email, '@')
  }

  /** With no name, the displayed name is the local part of an address `local@domain`. */
  lemma UserNameFromEmail(u: User, local: string, domain: string)
    requires u.name == "" && '@' !in local && u.email == local + "@" + domain
    ensures UserName(u) == local
  {
    Text.SplitAfterWord(local, '@', domain);
    assert local + "@" + domain == local + ['@'] + domain;
  }

  /** The guards of `handleSubmit`, in order, and the review data it sends when both pass. */
  function Decide(user: Option<User>, courseId: string, rating: int, comment: string): (r: Result<ReviewData, SubmitError>)
    ensures r.Success? <==> user.Some? && !Text.IsBlank(comment)
    ensures user.None? ==> r == Failure(NotLoggedIn)
    ensures user.Some? && Text.IsBlank(comment) ==> r == Failure(EmptyComment)
    ensures r.Success? ==> r.value.userId == user.value.id && r.value.userName == UserName(user.value)
                           && r.value.courseId == courseId && r.value.rating == rating && r.value.comment == comment
  {
    if user.None? then Failure(NotLoggedIn)
    else if Text.IsBlank(comment) then Failure(EmptyComment)
    else Success(ReviewData(user.value.id, UserName(user.value), courseId, rating, comment))
  }

  /** A comment of white space alone is refused, however long. */
  lemma WhiteSpaceCommentRefused(u: User, courseId: string, rating: int, comment: string)
    requires forall i :: 0 <= i < |comment| ==> Text.IsSpace(comment[i])
    ensures Decide(Some(u), courseId, rating, comment) == Failure(EmptyComment)
  {
    Text.BlankIffAllSpace(comment);
  }

  /** The form is offered unless the signed-in user already has a review of the course. */
  predicate FormOffered(reviews: seq<Review>, user: Option<User>, courseId: string): (b: bool)
    ensures b <==> user.None? || forall x :: x in reviews ==> !(x.userId == user.value.id && x.courseId == courseId)
  {
    !(user.Some? && UserReview(reviews, user.value.id, courseId).Some?)
  }

  /** Once a first review is submitted, the form is withdrawn for that user and course. */
  lemma SubmitWithdrawsForm(reviews: seq<Review>, u: User, courseId: string, rating: int, comment: string, now: nat, isoTime: string)
    requires FormOffered(reviews, Some(u), courseId)
    requires Decide(Some(u), courseId, rating, comment).Success?
    ensures !FormOffered(reviews + [NewReview(Decide(Some(u), courseId, rating, comment).value, now, isoTime)], Some(u), courseId)
  {
    AddFirstReview(reviews, NewReview(Decide(Some(u), courseId, rating, comment).value, now, isoTime));
  }

  const Stars: seq<int> := [1, 2, 3, 4, 5]

  /** The form's state for one course; `provider` is the reviews context it writes to. */
  class Form {
    var rating: int
    var comment: string
    const courseId: string
    const user: Option<User>
    const provider: ReviewsProvider

    ghost predicate Valid()
      reads this
    {
      1 <= rating <= 5
    }

    constructor (courseId: string, user: Option<User>, provider: ReviewsProvider)
      ensures Valid() && rating == 5 && comment == ""
      ensures this.courseId == courseId && this.user == user && this.provider == provider
    {
      rating := 5;
      comment := "";
      this.courseId := courseId;
      this.user := user;
      this.provider := provider;
    }

    /** A click on the star button at position `k` of the five. */
    method ClickStar(k: nat)
      requires k < |Stars|
      modifies this`rating
      ensures rating == k + 1 && Valid()
    {
      rating := Stars[k];
    }

    /** Typing into the comment box. */
    method SetComment(text: string)
      modifies this`comment
      ensures comment == text
    {
      comment := text;
    }

    /**
     * `handleSubmit`: a refused submission changes nothing; an accepted one adds
     * exactly one review and resets the rating to 5 and the comment to empty.
     */
    method HandleSubmit(now: nat, isoTime: string) returns (r: Result<ReviewData, SubmitError>)
      requires Valid()
      modifies this`rating, this`comment, provider
      ensures Valid()
      ensures r == Decide(user, courseId, old(rating), old(comment))
      ensures r.Failure? ==> rating == old(rating) && comment == old(comment) && provider.reviews == old(provider.reviews)
      ensures r.Success? ==> provider.reviews == old(provider.reviews) + [NewReview(r.value, now, isoTime)]
                             && rating == 5 && comment == ""
    {
      r := Decide(user, courseId, rating, comment);
      if r.Success? {
        var _ := provider.AddReview(r.value, now, isoTime);
        comment := "";
        rating := 5;
      }
    }
  }
}
