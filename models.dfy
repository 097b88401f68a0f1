/** The two SQLAlchemy models, UserReview and PublicationReview, their columns, the
    score validator and the table constraints, stated as predicates on the rows. */
module Models {
  import opened Wrappers

  /** Which of the two tables a row, a query or a handler belongs to. The tables have
      the same columns except the one naming the reviewed subject. */
  datatype Kind = UserReviewKind | PublicationReviewKind

  /** Name of the subject column: `reviewee_id` for user reviews, `publication_id`
      for publication reviews. */
  function SubjectName(kind: Kind): string
  {
    match kind
    case UserReviewKind => "reviewee_id"
    case PublicationReviewKind => "publication_id"
  }

  /** A stored row. `subjectId` is `reviewee_id` or `publication_id` depending on the
      table; `timestamp` is the server clock reading taken at insert; `comment` is the
      only nullable column. */
  datatype Review = Review(
    id: int,
    reviewerId: int,
    subjectId: int,
    bookingId: int,
    score: int,
    comment: Option<string>,
    timestamp: int)

  /** The integer columns, the ones a query can compare with an integer value. */
  datatype Column = IdColumn | ReviewerColumn | SubjectColumn | BookingColumn | ScoreColumn

  function ColumnName(kind: Kind, c: Column): string
  {
    match c
    case IdColumn => "id"
    case ReviewerColumn => "reviewer_id"
    case SubjectColumn => SubjectName(kind)
    case BookingColumn => "booking_id"
    case ScoreColumn => "score"
  }

  /** Attribute lookup by name on a model class (`getattr(model, name)`), restricted to
      the integer columns; `None` is the AttributeError a wrong name raises. */
  function ColumnNamed(kind: Kind, name: string): (c: Option<Column>)
    ensures c.Some? ==> ColumnName(kind, c.value) == name
    ensures forall col: Column :: ColumnName(kind, col) == name ==> c == Some(col)
  {
    if name == "id" then Some(IdColumn)
    else if name == "reviewer_id" then Some(ReviewerColumn)
    else if name == SubjectName(kind) then Some(SubjectColumn)
    else if name == "booking_id" then Some(BookingColumn)
    else if name == "score" then Some(ScoreColumn)
    else None
  }

  function ColumnValue(r: Review, c: Column): int
  {
    match c
    case IdColumn => r.id
    case ReviewerColumn => r.reviewerId
    case SubjectColumn => r.subjectId
    case BookingColumn => r.bookingId
    case ScoreColumn => r.score
  }

  const ScoreRangeMessage: string := "Score must be between 1 and 4"

  predicate ValidScore(score: int)
  {
    1 <= score <= 4
  }

  /** The `@validates("score")` hook: accepts the score unchanged or raises ValueError. */
  function ValidateScore(score: int): (r: Result<int, string>)
    ensures r.Ok? <==> ValidScore(score)
    ensures r.Ok? ==> r.value == score
    ensures r.Err? ==> r.error == ScoreRangeMessage
  {
    if !(1 <= score <= 4) then Err(ScoreRangeMessage) else Ok(score)
  }

  /** The keyword arguments of a model constructor, as the request body gives them.
      `None` is an absent key; for the id columns and the comment it may also be an
      explicit JSON null, which the ORM stores as NULL just the same. The `id` and
      `timestamp` columns, which the constructor would also accept, are not part of
      the payload: the id comes from the table's counter and the timestamp from the
      commit time. */
  datatype Payload = Payload(
    reviewerId: Option<int>,
    subjectId: Option<int>,
    bookingId: Option<int>,
    score: Option<int>,
    comment: Option<string>)

  /** The model constructor `UserReview(**payload)` / `PublicationReview(**payload)`:
      setting `score` runs the validator, so a bad score raises before anything reaches
      the session; an absent score is not validated. The constructed object carries the
      payload's fields unchanged. */
  function Construct(p: Payload): (r: Result<Payload, string>)
    ensures r.Err? <==> p.score.Some? && !ValidScore(p.score.value)
    ensures r.Ok? ==> r.value == p
    ensures r.Err? ==> r.error == ScoreRangeMessage
  {
    match p.score
    case None => Ok(p)
    case Some(s) =>
      match ValidateScore(s)
      case Ok(_) => Ok(p)
      case Err(e) => Err(e)
  }

  /** A NOT NULL column (reviewer, subject, booking, score) has no value. */
  predicate MissingRequired(p: Payload)
  {
    p.reviewerId.None? || p.subjectId.None? || p.bookingId.None? || p.score.None?
  }

  predicate BookingTaken(rows: seq<Review>, booking: int)
  {
    exists i :: 0 <= i < |rows| && rows[i].bookingId == booking
  }

  /** `UniqueConstraint('booking_id')`: no two rows share a booking. */
  predicate UniqueBookings(rows: seq<Review>)
  {
    forall i, j :: 0 <= i < j < |rows| ==> rows[i].bookingId != rows[j].bookingId
  }

  /** Every stored score passed the validator. */
  predicate ScoresInRange(rows: seq<Review>)
  {
    forall i :: 0 <= i < |rows| ==> ValidScore(rows[i].score)
  }

  /** The autoincrement primary key: ids are positive, increase in insertion order
      (so are distinct) and stay below the next id to hand out. */
  predicate IdsAssigned(rows: seq<Review>, nextId: int)
  {
    && (forall i :: 0 <= i < |rows| ==> 1 <= rows[i].id < nextId)
    && (forall i, j :: 0 <= i < j < |rows| ==> rows[i].id < rows[j].id)
  }
}
