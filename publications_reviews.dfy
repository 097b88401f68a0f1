/** The publication-reviews namespace: the list, create and score handlers on the
    PublicationReview table, where the subject column is `publication_id`. */
module PublicationsReviews {
  import opened Wrappers
  import opened Models
  import opened Database
  import opened Utils
  import opened Resources

  /** `publication_review_parser`: filters on `booking_id`, `reviewer_id` and `publication_id`. */
  method NewPublicationReviewParser() returns (parser: ReviewParser)
    ensures parser.Valid() && parser.kind == PublicationReviewKind
    ensures parser.booking.name == "booking_id" && parser.reviewer.name == "reviewer_id"
    ensures parser.subject.name == "publication_id"
    ensures fresh(parser.booking) && fresh(parser.reviewer) && fresh(parser.subject)
  {
    parser := new ReviewParser(PublicationReviewKind);
  }

  /** `PublicationReviewResource.get`: exactly the stored publication reviews that
      match every supplied filter; with none supplied, all of them. */
  method ListPublicationReviews(table: ReviewTable, parser: ReviewParser, args: map<string, int>)
      returns (result: seq<Review>)
    requires table.kind == PublicationReviewKind && parser.kind == PublicationReviewKind && parser.Valid()
    modifies parser.booking, parser.reviewer, parser.subject
    ensures forall x :: x in result <==>
      && x in table.rows
      && ("booking_id" in args ==> x.bookingId == args["booking_id"])
      && ("reviewer_id" in args ==> x.reviewerId == args["reviewer_id"])
      && ("publication_id" in args ==> x.subjectId == args["publication_id"])
    ensures "booking_id" !in args && "reviewer_id" !in args && "publication_id" !in args
      ==> result == table.rows
    ensures result == Select(table.rows, PublicationReviewKind, args)
  {
    result := GetReviews(table, parser, args);
    forall x ensures x in result <==> x in table.rows && MatchesArgs(x, PublicationReviewKind, args) {
      SelectMembership(table.rows, PublicationReviewKind, args, x);
    }
    if "booking_id" !in args && "reviewer_id" !in args && "publication_id" !in args {
      SelectUnfiltered(table.rows, PublicationReviewKind, args);
    }
  }

  /** `PublicationReviewResource.post`: 400 for a score outside 1..4, 409 when the
      commit fails, otherwise the stored review; the table changes only on success. */
  method CreatePublicationReview(table: ReviewTable, p: Payload, now: int) returns (resp: CreateResponse)
    requires table.kind == PublicationReviewKind && table.Valid()
    modifies table
    ensures table.Valid()
    ensures (resp, table.State()) == Create(old(table.State()), p, now)
  {
    resp := Post(table, p, now);
  }

  /** `PublicationReviewRevieweeResource.get`: 204 for a publication without
      reviews, otherwise the publication and the mean of its scores, within 1..4. */
  function PublicationScore(table: ReviewTable, publicationId: int): (r: ScoreResponse)
    reads table
    requires table.kind == PublicationReviewKind
    ensures r.NoContent? <==> forall i :: 0 <= i < |table.rows| ==> table.rows[i].subjectId != publicationId
    ensures r.Score? ==>
      && r.subjectId == publicationId
      && r.scoreCount >= 1
      && r.scoreSum == SumScores(Select(table.rows, PublicationReviewKind, map["publication_id" := publicationId]))
      && r.scoreCount == |Select(table.rows, PublicationReviewKind, map["publication_id" := publicationId])|
    ensures r.Score? && ScoresInRange(table.rows) ==> r.scoreCount <= r.scoreSum <= 4 * r.scoreCount
  {
    ScoreOf(table.rows, PublicationReviewKind, publicationId)
  }

  /** The two tables are independent: one booking may carry both a review of the
      host and a review of the publication, each stored once. */
  method SameBookingBothTables(users: ReviewTable, publications: ReviewTable)
      returns (userReview: CreateResponse, publicationReview: CreateResponse)
    requires users.kind == UserReviewKind && users.Valid() && users.rows == []
    requires publications.kind == PublicationReviewKind && publications.Valid() && publications.rows == []
    requires users != publications
    modifies users, publications
    ensures userReview.Created? && userReview.review.bookingId == 100
    ensures publicationReview.Created? && publicationReview.review.bookingId == 100
    ensures users.rows == [userReview.review] && publications.rows == [publicationReview.review]
  {
    userReview := Post(users, Payload(Some(1), Some(2), Some(100), Some(4), None), 0);
    assert publications.rows == [];
    publicationReview := Post(publications, Payload(Some(1), Some(7), Some(100), Some(2), Some("quiet")), 1);
  }
}
