/**
 * The review service of a climbing centre: owners list their centre's
 * reviews, answer them once, edit or withdraw the answer, and read a summary.
 * The three repositories become an in-memory store: the centres with their
 * owners, the review table, and the answer table, which is looked up by the
 * review it answers and so is kept as a map from review id to its row.
 */
module ReviewService {
  import opened Wrappers
  import opened Text
  import opened Tally

  type UserId = string
  type CenterId = string
  type ReviewId = string
  type AnswerId = nat

  /** A calendar date as a day number, so that `(end - start).days` is a subtraction. */
  type Day = int

  datatype ErrorKind = NotFound | Unauthorized | BadRequest

  datatype ErrorCode = DataDoesNotExist | NotAccessible | WrongDateRange | RowAlreadyExist

  datatype ServiceError = ServiceError(kind: ErrorKind, code: ErrorCode)

  const CenterMissing := ServiceError(NotFound, DataDoesNotExist)
  const NotOwner := ServiceError(Unauthorized, NotAccessible)
  const BadDateRange := ServiceError(BadRequest, WrongDateRange)
  const ReviewMissing := ServiceError(NotFound, DataDoesNotExist)
  const AnswerMissing := ServiceError(NotFound, DataDoesNotExist)
  const AnswerExists := ServiceError(NotFound, RowAlreadyExist)

  datatype Review = Review(id: ReviewId, centerId: CenterId, tags: seq<string>)

  /** A row of the answer table: its generated id, the review it answers, its content. */
  datatype Answer = Answer(id: AnswerId, reviewId: ReviewId, content: string)

  /** The filter handed to the review repository once every guard of the listing passed. */
  datatype ReviewQuery = ReviewQuery(
    centerId: CenterId, start: Day, end: Day, tag: Option<string>, isAnswered: Option<bool>)

  /** The answered and unanswered counts, and the tag counts, of one centre's reviews. */
  datatype ReviewSummary = ReviewSummary(
    centerId: CenterId, answeredCount: nat, unansweredCount: nat, tagCounts: seq<TagCount>)

  // ---------------------------------------------------------------------------
  // Repository lookups

  /** `review_repository.find_by_id_and_center_id`: the review with that id, if it belongs to that centre. */
  function FindReview(reviews: seq<Review>, reviewId: ReviewId, centerId: CenterId): (r: Option<Review>)
    ensures r.Some? <==>
      exists i :: 0 <= i < |reviews| && reviews[i].id == reviewId && reviews[i].centerId == centerId
    ensures r.Some? ==> r.value in reviews && r.value.id == reviewId && r.value.centerId == centerId
  {
    if reviews == [] then None
    else if reviews[0].id == reviewId && reviews[0].centerId == centerId then Some(reviews[0])
    else FindReview(reviews[1..], reviewId, centerId)
  }

  /** `review_repository.find_all_by_center`: the centre's reviews, in table order. */
  function CenterReviews(reviews: seq<Review>, centerId: CenterId): (rs: seq<Review>)
    ensures |rs| <= |reviews|
    ensures forall r :: r in rs <==> r in reviews && r.centerId == centerId
  {
    if reviews == [] then []
    else (if reviews[0].centerId == centerId then [reviews[0]] else []) + CenterReviews(reviews[1..], centerId)
  }

  /** Each of the centre's reviews appears as often as in the table, and no other review appears. */
  lemma {:induction false} CenterReviewsMultiplicity(reviews: seq<Review>, centerId: CenterId)
    ensures forall r ::
      multiset(CenterReviews(reviews, centerId))[r] == (if r.centerId == centerId then multiset(reviews)[r] else 0)
  {
    if reviews != [] {
      CenterReviewsMultiplicity(reviews[1..], centerId);
      assert reviews == [reviews[0]] + reviews[1..];
    }
  }

  /** `review_answer_repository.find_by_review_id` finds a row. */
  predicate HasAnswer(answers: map<ReviewId, Answer>, reviewId: ReviewId) {
    reviewId in answers
  }

  /** Every row is filed under the review it answers, and no two rows share an id. */
  predicate WellFiled(answers: map<ReviewId, Answer>) {
    && (forall rid :: rid in answers ==> answers[rid].reviewId == rid)
    && (forall r1, r2 :: r1 in answers && r2 in answers && answers[r1].id == answers[r2].id ==> r1 == r2)
  }

  predicate DistinctIds(reviews: seq<Review>) {
    forall i, j :: 0 <= i < j < |reviews| ==> reviews[i].id != reviews[j].id
  }

  // ---------------------------------------------------------------------------
  // The guard chain, shared by every operation

  /**
   * The first two guards: the centre exists, then the requester owns it.
   * Ownership is `center.is_owner(subject.id)`, read as the owner id being
   * the requester's id.
   */
  function CenterGuard(centers: map<CenterId, UserId>, subject: UserId, centerId: CenterId): (e: Option<ServiceError>)
    ensures e.None? <==> centerId in centers && centers[centerId] == subject
    ensures centerId !in centers ==> e == Some(CenterMissing)
    ensures centerId in centers && centers[centerId] != subject ==> e == Some(NotOwner)
  {
    if centerId !in centers then Some(CenterMissing)
    else if centers[centerId] != subject then Some(NotOwner)
    else None
  }

  /** The third guard: the review is one of this centre's. */
  function ReviewGuard(centers: map<CenterId, UserId>, reviews: seq<Review>,
                       subject: UserId, centerId: CenterId, reviewId: ReviewId): (e: Option<ServiceError>)
    ensures e.None? <==>
      CenterGuard(centers, subject, centerId).None? &&
      exists i :: 0 <= i < |reviews| && reviews[i].id == reviewId && reviews[i].centerId == centerId
    ensures CenterGuard(centers, subject, centerId).Some? ==> e == CenterGuard(centers, subject, centerId)
    ensures e.Some? && CenterGuard(centers, subject, centerId).None? ==> e == Some(ReviewMissing)
  {
    var c := CenterGuard(centers, subject, centerId);
    if c.Some? then c
    else if FindReview(reviews, reviewId, centerId).None? then Some(ReviewMissing)
    else None
  }

  /** The guards of `create_review_answer`: the review must not have an answer yet. */
  function CreateGuard(centers: map<CenterId, UserId>, reviews: seq<Review>, answers: map<ReviewId, Answer>,
                       subject: UserId, centerId: CenterId, reviewId: ReviewId): (e: Option<ServiceError>)
    ensures e.None? <==>
      ReviewGuard(centers, reviews, subject, centerId, reviewId).None? && !HasAnswer(answers, reviewId)
    ensures ReviewGuard(centers, reviews, subject, centerId, reviewId).Some? ==>
      e == ReviewGuard(centers, reviews, subject, centerId, reviewId)
    ensures ReviewGuard(centers, reviews, subject, centerId, reviewId).None? && HasAnswer(answers, reviewId) ==>
      e == Some(AnswerExists)
  {
    var g := ReviewGuard(centers, reviews, subject, centerId, reviewId);
    if g.Some? then g
    else if HasAnswer(answers, reviewId) then Some(AnswerExists)
    else None
  }

  /** The guards of `update_review_answer` and `delete_review_answer`: the review must have an answer. */
  function AnsweredGuard(centers: map<CenterId, UserId>, reviews: seq<Review>, answers: map<ReviewId, Answer>,
                         subject: UserId, centerId: CenterId, reviewId: ReviewId): (e: Option<ServiceError>)
    ensures e.None? <==>
      ReviewGuard(centers, reviews, subject, centerId, reviewId).None? && HasAnswer(answers, reviewId)
    ensures ReviewGuard(centers, reviews, subject, centerId, reviewId).Some? ==>
      e == ReviewGuard(centers, reviews, subject, centerId, reviewId)
    ensures ReviewGuard(centers, reviews, subject, centerId, reviewId).None? && !HasAnswer(answers, reviewId) ==>
      e == Some(AnswerMissing)
  {
    var g := ReviewGuard(centers, reviews, subject, centerId, reviewId);
    if g.Some? then g
    else if !HasAnswer(answers, reviewId) then Some(AnswerMissing)
    else None
  }

  /** `(end - start).days > 365 or (end - start).days < 0` rejects the range. */
  function DateRangeGuard(start: Day, end: Day): (e: Option<ServiceError>)
    ensures e.None? <==> 0 <= end - start <= 365
    ensures e.Some? ==> e == Some(BadDateRange)
  {
    if end - start > 365 || end - start < 0 then Some(BadDateRange) else None
  }

  // ---------------------------------------------------------------------------
  // Properties of the guard chain across operations

  /** Every error of the chain is one of those the service raises, with its matching kind. */
  lemma GuardErrorsAreNotFoundOrUnauthorized(
    centers: map<CenterId, UserId>, reviews: seq<Review>, answers: map<ReviewId, Answer>,
    subject: UserId, centerId: CenterId, reviewId: ReviewId)
    ensures var e := CreateGuard(centers, reviews, answers, subject, centerId, reviewId);
      e.Some? ==> e.value in {CenterMissing, NotOwner, ReviewMissing, AnswerExists}
    ensures var e := AnsweredGuard(centers, reviews, answers, subject, centerId, reviewId);
      e.Some? ==> e.value in {CenterMissing, NotOwner, ReviewMissing}
    ensures var e := CreateGuard(centers, reviews, answers, subject, centerId, reviewId);
      e == Some(NotOwner) <==> centerId in centers && centers[centerId] != subject
  {
  }

  /** A review of another centre is invisible to this one: its owner is told it does not exist. */
  lemma ReviewOfOtherCenterIsMissing(
    centers: map<CenterId, UserId>, reviews: seq<Review>, subject: UserId,
    centerId: CenterId, reviewId: ReviewId, i: nat)
    requires CenterGuard(centers, subject, centerId).None?
    requires DistinctIds(reviews)
    requires i < |reviews| && reviews[i].id == reviewId && reviews[i].centerId != centerId
    ensures ReviewGuard(centers, reviews, subject, centerId, reviewId) == Some(ReviewMissing)
  {
  }

  /** A second create on a review that the first create answered fails with "already exists". */
  lemma CreateTwiceFails(
    centers: map<CenterId, UserId>, reviews: seq<Review>, answers: map<ReviewId, Answer>,
    subject: UserId, centerId: CenterId, reviewId: ReviewId, row: Answer)
    requires CreateGuard(centers, reviews, answers, subject, centerId, reviewId).None?
    ensures CreateGuard(centers, reviews, answers[reviewId := row], subject, centerId, reviewId) == Some(AnswerExists)
  {
  }

  /** After a successful create, update and delete of that review pass their guards. */
  lemma CreateEnablesUpdateAndDelete(
    centers: map<CenterId, UserId>, reviews: seq<Review>, answers: map<ReviewId, Answer>,
    subject: UserId, centerId: CenterId, reviewId: ReviewId, row: Answer)
    requires CreateGuard(centers, reviews, answers, subject, centerId, reviewId).None?
    ensures AnsweredGuard(centers, reviews, answers[reviewId := row], subject, centerId, reviewId).None?
  {
  }

  /** Deleting a review's answer lets a later create on that review pass the answer guard. */
  lemma DeleteEnablesCreate(
    centers: map<CenterId, UserId>, reviews: seq<Review>, answers: map<ReviewId, Answer>,
    subject: UserId, centerId: CenterId, reviewId: ReviewId)
    requires AnsweredGuard(centers, reviews, answers, subject, centerId, reviewId).None?
    ensures CreateGuard(centers, reviews, answers - {reviewId}, subject, centerId, reviewId).None?
  {
  }

  /** Filing a fresh row under a review that had none keeps the table well filed and adds exactly one row. */
  lemma {:induction false} InsertKeepsWellFiled(answers: map<ReviewId, Answer>, row: Answer, nextId: AnswerId)
    requires WellFiled(answers) && row.reviewId !in answers
    requires forall rid :: rid in answers ==> answers[rid].id < nextId
    requires row.id == nextId
    ensures WellFiled(answers[row.reviewId := row])
    ensures |answers[row.reviewId := row]| == |answers| + 1
  {
  }

  /** The answered flag of each review, in order: `False if review.answer_id is None else True`. */
  function AnsweredFlags(rs: seq<Review>, answers: map<ReviewId, Answer>): (flags: seq<bool>)
    ensures |flags| == |rs|
    ensures forall i :: 0 <= i < |rs| ==> flags[i] == HasAnswer(answers, rs[i].id)
  {
    if rs == [] then [] else [HasAnswer(answers, rs[0].id)] + AnsweredFlags(rs[1..], answers)
  }

  /** `sum(tags, [])`: the tag words of the reviews, concatenated in review order. */
  function Flatten(lists: seq<seq<string>>): seq<string> {
    if lists == [] then [] else lists[0] + Flatten(lists[1..])
  }

  /** The tag lists of the reviews, in order. */
  function TagLists(rs: seq<Review>): (lists: seq<seq<string>>)
    ensures |lists| == |rs|
    ensures forall i :: 0 <= i < |rs| ==> lists[i] == rs[i].tags
  {
    if rs == [] then [] else [rs[0].tags] + TagLists(rs[1..])
  }

  /** Each flag is either true or false: the two Counter buckets add up to the number of reviews. */
  lemma {:induction false} TrueFalseCounts(flags: seq<bool>)
    ensures Occurrences(flags, true) + Occurrences(flags, false) == |flags|
  {
    if flags != [] {
      TrueFalseCounts(flags[1..]);
      assert Occurrences(flags, true) == (if flags[0] then 1 else 0) + Occurrences(flags[1..], true);
      assert Occurrences(flags, false) == (if flags[0] then 0 else 1) + Occurrences(flags[1..], false);
    }
  }

  /** The number of tag words is the total length of the reviews' tag lists. */
  lemma {:induction false} FlattenLength(lists: seq<seq<string>>)
    ensures |Flatten(lists)| == TotalLength(lists)
  {
    if lists != [] {
      FlattenLength(lists[1..]);
    }
  }

  function TotalLength(lists: seq<seq<string>>): nat {
    if lists == [] then 0 else |lists[0]| + TotalLength(lists[1..])
  }

  // ---------------------------------------------------------------------------
  // The service

  class ReviewStore {
    /** `center_repository`: centre id to owner id. */
    var centers: map<CenterId, UserId>
    /** `review_repository`: the review table. */
    var reviews: seq<Review>
    /** `review_answer_repository`: the answer table, by the review each row answers. */
    var answers: map<ReviewId, Answer>
    /** The id the answer table gives its next row. */
    var nextAnswerId: AnswerId

    ghost predicate Valid()
      reads this
    {
      && DistinctIds(reviews)
      && WellFiled(answers)
      && (forall rid :: rid in answers ==> answers[rid].id < nextAnswerId)
      && (forall rid :: rid in answers ==> exists i :: 0 <= i < |reviews| && reviews[i].id == rid)
    }

    constructor (centers: map<CenterId, UserId>, reviews: seq<Review>)
      requires DistinctIds(reviews)
      ensures Valid()
      ensures this.centers == centers && this.reviews == reviews && answers == map[]
    {
      this.centers := centers;
      this.reviews := reviews;
      answers := map[];
      nextAnswerId := 0;
    }

    /**
     * `find_reviews_by_center`, up to the repository call: the guards, then
     * the query the repository is asked to page through.
     */
    function FindReviewsByCenter(subject: UserId, centerId: CenterId, start: Day, end: Day,
                                 tag: Option<string>, isAnswered: Option<bool>): (r: Result<ReviewQuery, ServiceError>)
      reads this
      ensures centerId !in centers ==> r == Failure(CenterMissing)
      ensures centerId in centers && centers[centerId] != subject ==> r == Failure(NotOwner)
      ensures r == Failure(BadDateRange) <==>
        centerId in centers && centers[centerId] == subject && (end - start < 0 || end - start > 365)
      ensures r.Success? <==> centerId in centers && centers[centerId] == subject && 0 <= end - start <= 365
      ensures r.Success? ==> r.value == ReviewQuery(centerId, start, end, tag, isAnswered)
    {
      var c := CenterGuard(centers, subject, centerId);
      if c.Some? then Failure(c.value)
      else
        var d := DateRangeGuard(start, end);
        if d.Some? then Failure(d.value)
        else Success(ReviewQuery(centerId, start, end, tag, isAnswered))
    }

    /**
     * `create_review_answer`: after the guards, one new answer row holding
     * the content, for that review; on any failed guard nothing changes.
     */
    method CreateReviewAnswer(subject: UserId, centerId: CenterId, reviewId: ReviewId, content: string)
      returns (r: Result<Answer, ServiceError>)
      requires Valid()
      modifies this`answers, this`nextAnswerId
      ensures Valid()
      ensures var e := CreateGuard(centers, reviews, old(answers), subject, centerId, reviewId);
        if e.Some? then r == Failure(e.value) && answers == old(answers) && nextAnswerId == old(nextAnswerId)
        else
          && r == Success(Answer(old(nextAnswerId), reviewId, content))
          && reviewId !in old(answers)
          && answers == old(answers)[reviewId := r.value]
          && |answers| == |old(answers)| + 1
    {
      var c := CenterGuard(centers, subject, centerId);
      if c.Some? {
        return Failure(c.value);
      }
      var review := FindReview(reviews, reviewId, centerId);
      if review.None? {
        return Failure(ReviewMissing);
      }
      if review.value.id in answers {
        return Failure(AnswerExists);
      }
      var row := Answer(nextAnswerId, review.value.id, content);
      InsertKeepsWellFiled(answers, row, nextAnswerId);
      answers := answers[row.reviewId := row];
      nextAnswerId := nextAnswerId + 1;
      r := Success(row);
    }

    /**
     * `update_review_answer`: after the guards, the review's answer row gets
     * the new content and keeps its id; no other row changes.
     */
    method UpdateReviewAnswer(subject: UserId, centerId: CenterId, reviewId: ReviewId, content: string)
      returns (r: Result<Answer, ServiceError>)
      requires Valid()
      modifies this`answers
      ensures Valid()
      ensures var e := AnsweredGuard(centers, reviews, old(answers), subject, centerId, reviewId);
        if e.Some? then r == Failure(e.value) && answers == old(answers)
        else
          && r == Success(old(answers)[reviewId].(content := content))
          && answers == old(answers)[reviewId := r.value]
    {
      var c := CenterGuard(centers, subject, centerId);
      if c.Some? {
        return Failure(c.value);
      }
      var review := FindReview(reviews, reviewId, centerId);
      if review.None? {
        return Failure(ReviewMissing);
      }
      if review.value.id !in answers {
        return Failure(AnswerMissing);
      }
      var row := answers[review.value.id].(content := content);
      answers := answers[review.value.id := row];
      r := Success(row);
    }

    /**
     * `delete_review_answer`: after the guards, the review's answer row is
     * removed, leaving the review unanswered.
     */
    method DeleteReviewAnswer(subject: UserId, centerId: CenterId, reviewId: ReviewId)
      returns (r: Result<(), ServiceError>)
      requires Valid()
      modifies this`answers
      ensures Valid()
      ensures var e := AnsweredGuard(centers, reviews, old(answers), subject, centerId, reviewId);
        if e.Some? then r == Failure(e.value) && answers == old(answers)
        else r == Success(()) && answers == old(answers) - {reviewId} && |answers| == |old(answers)| - 1
    {
      var c := CenterGuard(centers, subject, centerId);
      if c.Some? {
        return Failure(c.value);
      }
      var review := FindReview(reviews, reviewId, centerId);
      if review.None? {
        return Failure(ReviewMissing);
      }
      if review.value.id !in answers {
        return Failure(AnswerMissing);
      }
      answers := answers - {review.value.id};
      r := Success(());
    }

    /**
     * `find_reviews_summary_by_center`: after the centre guards, one pass
     * over the centre's reviews collects each one's answered flag and tag
     * list; the flags and the flattened tag words are then counted.
     */
    method FindReviewsSummaryByCenter(subject: UserId, centerId: CenterId) returns (r: Result<ReviewSummary, ServiceError>)
      requires Valid()
      ensures var c := CenterGuard(centers, subject, centerId); c.Some? ==> r == Failure(c.value)
      ensures CenterGuard(centers, subject, centerId).None? ==> r.Success? && r.value.centerId == centerId
      ensures r.Success? ==>
        var rs := CenterReviews(reviews, centerId);
        && r.value.answeredCount == Occurrences(AnsweredFlags(rs, answers), true)
        && r.value.unansweredCount == Occurrences(AnsweredFlags(rs, answers), false)
        && r.value.answeredCount + r.value.unansweredCount == |rs|
        && r.value.tagCounts == Counter(Flatten(TagLists(rs)))
        && Sum(r.value.tagCounts) == TotalLength(TagLists(rs))
    {
      var c := CenterGuard(centers, subject, centerId);
      if c.Some? {
        return Failure(c.value);
      }
      var rs := CenterReviews(reviews, centerId);
      var isAnswer: seq<bool> := [];
      var tags: seq<seq<string>> := [];
      var i := 0;
      while i < |rs|
        invariant 0 <= i <= |rs|
        invariant |isAnswer| == i && forall k :: 0 <= k < i ==> isAnswer[k] == HasAnswer(answers, rs[k].id)
        invariant |tags| == i && forall k :: 0 <= k < i ==> tags[k] == rs[k].tags
      {
        isAnswer := isAnswer + [rs[i].id in answers];
        tags := tags + [rs[i].tags];
        i := i + 1;
      }
      assert isAnswer == AnsweredFlags(rs, answers);
      assert tags == TagLists(rs);
      TrueFalseCounts(isAnswer);
      var tagList := Flatten(tags);
      FlattenLength(tags);
      r := Success(ReviewSummary(centerId, Occurrences(isAnswer, true), Occurrences(isAnswer, false), Counter(tagList)));
    }
  }
}
