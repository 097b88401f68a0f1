/** The user-reviews namespace: the list, create and score handlers on the
    UserReview table, where the subject column is `reviewee_id`. */
module UsersReviews {
  import opened Wrappers
  import opened Models
  import opened Database
  import opened Utils
  import opened Resources

  /** `user_review_parser`: filters on `booking_id`, `reviewer_id` and `reviewee_id`. */
  method NewUserReviewParser() returns (parser: ReviewParser)
    ensures parser.Valid() && parser.kind == UserReviewKind
    ensures parser.booking.name == "booking_id" && parser.reviewer.name == "reviewer_id"
    ensures parser.subject.name == "reviewee_id"
    ensures fresh(parser.booking) && fresh(parser.reviewer) && fresh(parser.subject)
  {
    parser := new ReviewParser(UserReviewKind);
  }

  /** `UserReviewResource.get`: exactly the stored user reviews that match every
      supplied filter; with none supplied, all of them. */
  method ListUserReviews(table: ReviewTable, parser: ReviewParser, args: map<string, int>)
      returns (result: seq<Review>)
    requires table.kind == UserReviewKind && parser.kind == UserReviewKind && parser.Valid()
    modifies parser.booking, parser.reviewer, parser.subject
    ensures forall x :: x in result <==>
      && x in table.rows
      && ("booking_id" in args ==> x.bookingId == args["booking_id"])
      && ("reviewer_id" in args ==> x.reviewerId == args["reviewer_id"])
      && ("reviewee_id" in args ==> x.subjectId == args["reviewee_id"])
    ensures "booking_id" !in args && "reviewer_id" !in args && "reviewee_id" !in args
      ==> result == table.rows
    ensures result == Select(table.rows, UserReviewKind, args)
  {
    result := GetReviews(table, parser, args);
    forall x ensures x in result <==> x in table.rows && MatchesArgs(x, UserReviewKind, args) {
      SelectMembership(table.rows, UserReviewKind, args, x);
    }
    if "booking_id" !in args && "reviewer_id" !in args && "reviewee_id" !in args {
      SelectUnfiltered(table.rows, UserReviewKind, args);
    }
  }

  /** `UserReviewResource.post`: 400 for a score outside 1..4, 409 when the commit
      fails, otherwise the stored review; the table changes only on success. */
  method CreateUserReview(table: ReviewTable, p: Payload, now: int) returns (resp: CreateResponse)
    requires table.kind == UserReviewKind && table.Valid()
    modifies table
    ensures table.Valid()
    ensures (resp, table.State()) == Create(old(table.State()), p, now)
  {
    resp := Post(table, p, now);
  }

  /** `UserReviewRevieweeResource.get`: 204 for a reviewee without reviews, otherwise
      the reviewee and the mean of its scores, which lies within 1..4. */
  function RevieweeScore(table: ReviewTable, revieweeId: int): (r: ScoreResponse)
    reads table
    requires table.kind == UserReviewKind
    ensures r.NoContent? <==> forall i :: 0 <= i < |table.rows| ==> table.rows[i].subjectId != revieweeId
    ensures r.Score? ==>
      && r.subjectId == revieweeId
      && r.scoreCount >= 1
      && r.scoreSum == SumScores(Select(table.rows, UserReviewKind, map["reviewee_id" := revieweeId]))
      && r.scoreCount == |Select(table.rows, UserReviewKind, map["reviewee_id" := revieweeId])|
    ensures r.Score? && ScoresInRange(table.rows) ==> r.scoreCount <= r.scoreSum <= 4 * r.scoreCount
  {
    ScoreOf(table.rows, UserReviewKind, revieweeId)
  }

  /** The review the scenario below stores: id 1, booking 100, reviewee 2, score 3. */
  const StoredReview: Review := Review(1, 1, 2, 100, 3, None, 1)

  /** The scenario on table values: a score of 5 is refused, the first valid review
      for booking 100 is stored with id 1, a second one for the same booking is
      refused, and the reviewee's mean is 3 over one review. */
  lemma OneBookingTrace()
    ensures Create(EmptyTable, Payload(Some(1), Some(2), Some(100), Some(5), None), 0)
         == (Abort(400, ScoreRangeMessage), EmptyTable)
    ensures Create(EmptyTable, Payload(Some(1), Some(2), Some(100), Some(3), None), 1)
         == (Created(StoredReview), Table([StoredReview], 2))
    ensures Create(Table([StoredReview], 2), Payload(Some(1), Some(2), Some(100), Some(4), None), 2)
         == (Abort(409, DuplicateMessage), Table([StoredReview], 2))
    ensures ScoreOf([StoredReview], UserReviewKind, 2) == Score(2, 3, 1)
  {
    var valid := Payload(Some(1), Some(2), Some(100), Some(3), None);
    assert !BookingTaken(EmptyTable.rows, 100);
    assert Commit(EmptyTable, valid, 1) == Ok(StoredReview);
    assert Inserted(EmptyTable, StoredReview) == Table([StoredReview], 2) by {
      assert EmptyTable.rows + [StoredReview] == [StoredReview];
    }
    assert BookingTaken([StoredReview], 100) by {
      assert [StoredReview][0].bookingId == 100;
    }
    SingleReviewScore(StoredReview);
  }

  /** The first half of the scenario through the handler: on an empty user table a
      score of 5 is refused and a score of 3 for booking 100 is stored. */
  method RefuseThenStore(table: ReviewTable) returns (tooHigh: CreateResponse, first: CreateResponse)
    requires table.kind == UserReviewKind && table.Valid() && table.State() == EmptyTable
    modifies table
    ensures table.Valid() && table.State() == Table([StoredReview], 2)
    ensures tooHigh == Abort(400, ScoreRangeMessage)
    ensures first == Created(StoredReview)
  {
    OneBookingTrace();
    tooHigh := CreateUserReview(table, Payload(Some(1), Some(2), Some(100), Some(5), None), 0);
    first := CreateUserReview(table, Payload(Some(1), Some(2), Some(100), Some(3), None), 1);
  }

  /** The whole scenario through the handlers, on a new user table: the duplicate
      booking is refused and the reviewee's mean is 3 over one review. */
  method OneBookingScenario() returns (tooHigh: CreateResponse, first: CreateResponse,
                                       again: CreateResponse, score: ScoreResponse)
    ensures tooHigh == Abort(400, ScoreRangeMessage)
    ensures first == Created(StoredReview)
    ensures again == Abort(409, DuplicateMessage)
    ensures score == Score(2, 3, 1)
  {
    OneBookingTrace();
    var table := new ReviewTable(UserReviewKind);
    tooHigh, first := RefuseThenStore(table);
    again := CreateUserReview(table, Payload(Some(1), Some(2), Some(100), Some(4), None), 2);
    score := RevieweeScore(table, 2);
  }

  /** A reviewee with one review scored 3 has mean 3. */
  lemma SingleReviewScore(r: Review)
    requires r.subjectId == 2 && r.score == 3
    ensures ScoreOf([r], UserReviewKind, 2) == Score(2, 3, 1)
  {
    ScoreOfSingleSubject([r], UserReviewKind, 2);
    assert SumScores([r]) == 3;
  }
}
