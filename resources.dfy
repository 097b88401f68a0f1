/** The three request handlers both namespaces define, written once over the table
    kind: the filtered list, the create path and the score average, together with the
    query-string parser that feeds the list. */
module Resources {
  import opened Wrappers
  import opened Models
  import opened Database
  import opened Utils

  // ---------------------------------------------------------------------------
  // Listing
  // ---------------------------------------------------------------------------

  /** The query-string parser of the list endpoint: one `FilterParam` per supported
      argument, in registration order, each registered with `store_missing=False`.
      The filter objects are shared by all requests. */
  class ReviewParser {
    const kind: Kind
    const booking: FilterParam
    const reviewer: FilterParam
    const subject: FilterParam

    ghost predicate Valid()
    {
      && booking.name == "booking_id" && booking.op == Eq
      && reviewer.name == "reviewer_id" && reviewer.op == Eq
      && subject.name == SubjectName(kind) && subject.op == Eq
      && booking != reviewer && reviewer != subject && booking != subject
    }

    constructor (kind: Kind)
      ensures Valid() && this.kind == kind
      ensures fresh(booking) && fresh(reviewer) && fresh(subject)
      ensures booking.val == None && reviewer.val == None && subject.val == None
    {
      this.kind := kind;
      booking := new FilterParam("booking_id", Eq);
      reviewer := new FilterParam("reviewer_id", Eq);
      subject := new FilterParam(SubjectName(kind), Eq);
    }

    /** The filters whose argument the request supplies, in registration order. */
    function Supplied(args: map<string, int>): seq<FilterParam>
    {
      (if booking.name in args then [booking] else [])
      + (if reviewer.name in args then [reviewer] else [])
      + (if subject.name in args then [subject] else [])
    }

    /** `parse_args()`: each supplied argument's value is passed to its filter object,
        which binds it and returns itself; absent arguments are not stored, and their
        filters keep whatever value an earlier request bound. */
    method ParseArgs(args: map<string, int>) returns (params: seq<FilterParam>)
      requires Valid()
      modifies booking, reviewer, subject
      ensures params == Supplied(args)
      ensures |params| == |ArgConds(kind, args)|
      ensures forall j :: 0 <= j < |params| ==> params[j].Condition(kind) == Some(ArgConds(kind, args)[j])
      ensures booking.name !in args ==> booking.val == old(booking.val)
      ensures reviewer.name !in args ==> reviewer.val == old(reviewer.val)
      ensures subject.name !in args ==> subject.val == old(subject.val)
    {
      params := [];
      if booking.name in args {
        var f := booking.Call(args[booking.name]);
        params := params + [f];
      }
      if reviewer.name in args {
        var f := reviewer.Call(args[reviewer.name]);
        params := params + [f];
      }
      if subject.name in args {
        var f := subject.Call(args[subject.name]);
        params := params + [f];
      }
    }
  }

  /** The reference meaning of a list request: every supplied filter holds. */
  predicate MatchesArgs(r: Review, kind: Kind, args: map<string, int>)
  {
    && ("booking_id" in args ==> r.bookingId == args["booking_id"])
    && ("reviewer_id" in args ==> r.reviewerId == args["reviewer_id"])
    && (SubjectName(kind) in args ==> r.subjectId == args[SubjectName(kind)])
  }

  /** The stored rows that match a list request, in table order. */
  function Select(rows: seq<Review>, kind: Kind, args: map<string, int>): seq<Review>
  {
    if rows == [] then []
    else (if MatchesArgs(rows[0], kind, args) then [rows[0]] else []) + Select(rows[1..], kind, args)
  }

  /** The conditions the supplied filters add, in registration order. */
  function ArgConds(kind: Kind, args: map<string, int>): seq<Cond>
  {
    (if "booking_id" in args then [Cond(BookingColumn, Eq, Some(args["booking_id"]))] else [])
    + (if "reviewer_id" in args then [Cond(ReviewerColumn, Eq, Some(args["reviewer_id"]))] else [])
    + (if SubjectName(kind) in args then [Cond(SubjectColumn, Eq, Some(args[SubjectName(kind)]))] else [])
  }

  lemma ArgCondsMeaning(kind: Kind, args: map<string, int>, x: Review)
    ensures Matches(x, Query(ArgConds(kind, args))) <==> MatchesArgs(x, kind, args)
  {
    var a := if "booking_id" in args then [Cond(BookingColumn, Eq, Some(args["booking_id"]))] else [];
    var b := if "reviewer_id" in args then [Cond(ReviewerColumn, Eq, Some(args["reviewer_id"]))] else [];
    var c := if SubjectName(kind) in args then [Cond(SubjectColumn, Eq, Some(args[SubjectName(kind)]))] else [];
    MatchesConcat(x, a + b, c);
    MatchesConcat(x, a, b);
    MatchesSingleton(x, a);
    MatchesSingleton(x, b);
    MatchesSingleton(x, c);
  }

  /** A query whose conditions mean the request's filters returns `Select`. */
  lemma {:induction false} ExecuteIsSelect(q: Query, rows: seq<Review>, kind: Kind, args: map<string, int>)
    requires forall x: Review :: Matches(x, q) <==> MatchesArgs(x, kind, args)
    ensures Execute(q, rows) == Select(rows, kind, args)
    decreases rows
  {
    if rows != [] {
      ExecuteIsSelect(q, rows[1..], kind, args);
    }
  }

  lemma {:induction false} SelectMembership(rows: seq<Review>, kind: Kind, args: map<string, int>, x: Review)
    ensures x in Select(rows, kind, args) <==> x in rows && MatchesArgs(x, kind, args)
    decreases rows
  {
    if rows != [] {
      SelectMembership(rows[1..], kind, args, x);
      assert rows == [rows[0]] + rows[1..];
    }
  }

  /** A request without filters lists every stored review. */
  lemma {:induction false} SelectUnfiltered(rows: seq<Review>, kind: Kind, args: map<string, int>)
    requires "booking_id" !in args && "reviewer_id" !in args && SubjectName(kind) !in args
    ensures Select(rows, kind, args) == rows
    decreases rows
  {
    if rows != [] {
      SelectUnfiltered(rows[1..], kind, args);
      assert rows == [rows[0]] + rows[1..];
    }
  }

  /** Filters that match nothing give the empty list. */
  lemma {:induction false} SelectNothingMatches(rows: seq<Review>, kind: Kind, args: map<string, int>)
    requires forall i :: 0 <= i < |rows| ==> !MatchesArgs(rows[i], kind, args)
    ensures Select(rows, kind, args) == []
    decreases rows
  {
    if rows != [] {
      SelectNothingMatches(rows[1..], kind, args);
    }
  }

  /** When every stored row matches, the list is the whole table. */
  lemma {:induction false} SelectAllMatch(rows: seq<Review>, kind: Kind, args: map<string, int>)
    requires forall i :: 0 <= i < |rows| ==> MatchesArgs(rows[i], kind, args)
    ensures Select(rows, kind, args) == rows
    decreases rows
  {
    if rows != [] {
      SelectAllMatch(rows[1..], kind, args);
      assert rows == [rows[0]] + rows[1..];
    }
  }

  lemma {:induction false} SelectAppend(rows: seq<Review>, x: Review, kind: Kind, args: map<string, int>)
    ensures Select(rows + [x], kind, args)
         == Select(rows, kind, args) + (if MatchesArgs(x, kind, args) then [x] else [])
    decreases rows
  {
    if rows == [] {
      assert rows + [x] == [x];
    } else {
      var tail := rows[1..];
      var head := if MatchesArgs(rows[0], kind, args) then [rows[0]] else [];
      assert (rows + [x])[0] == rows[0] && (rows + [x])[1..] == tail + [x];
      SelectAppend(tail, x, kind, args);
      assert Select(rows + [x], kind, args) == head + Select(tail + [x], kind, args);
      assert Select(rows, kind, args) == head + Select(tail, kind, args);
    }
  }

  /** The list endpoint: parse the filters, fold each into the query, run it. The
      result depends only on the stored rows and this request's arguments, never on
      values an earlier request left bound in the shared filter objects. */
  method GetReviews(table: ReviewTable, parser: ReviewParser, args: map<string, int>)
      returns (result: seq<Review>)
    requires parser.Valid() && parser.kind == table.kind
    modifies parser.booking, parser.reviewer, parser.subject
    ensures result == Select(table.rows, table.kind, args)
  {
    var params := parser.ParseArgs(args);
    ghost var conds := ArgConds(table.kind, args);
    var query := AllRows;
    var i := 0;
    while i < |params|
      invariant 0 <= i <= |params|
      invariant forall x: Review :: Matches(x, query) <==> Matches(x, Query(conds[..i]))
      invariant forall j :: 0 <= j < |params| ==> params[j].Condition(table.kind) == Some(conds[j])
    {
      var narrowed := params[i].Apply(query, table.kind);
      assert ColumnNamed(table.kind, params[i].name) == Some(conds[i].column) by {
        assert ColumnName(table.kind, conds[i].column) == params[i].name;
      }
      FilterMeaning(Query(conds[..i]), conds[i]);
      assert conds[..i + 1] == conds[..i] + [conds[i]];
      forall x: Review
        ensures Matches(x, narrowed.value) <==> Matches(x, Query(conds[..i + 1]))
      {
        assert params[i].Condition(table.kind) == Some(conds[i]);
        assert conds[i].value == params[i].val && conds[i].op == Eq;
      }
      query := narrowed.value;
      i := i + 1;
    }
    assert conds[..i] == conds;
    forall x: Review
      ensures Matches(x, query) <==> MatchesArgs(x, table.kind, args)
    {
      ArgCondsMeaning(table.kind, args, x);
    }
    result := Execute(query, table.rows);
    ExecuteIsSelect(query, table.rows, table.kind, args);
  }

  // ---------------------------------------------------------------------------
  // Creating
  // ---------------------------------------------------------------------------

  /** What the create endpoint answers: the stored review, or `abort(status, message)`. */
  datatype CreateResponse = Created(review: Review) | Abort(status: int, message: string)

  const DuplicateMessage: string := "Review has already been created"

  /** The request body would be stored: every required column is given, the score is
      in range and the booking has no review in this table yet. */
  predicate Accepted(t: Table, p: Payload)
  {
    && !MissingRequired(p)
    && ValidScore(p.score.value)
    && !BookingTaken(t.rows, p.bookingId.value)
  }

  /** The create endpoint on a table value: construct (a ValueError is 400), then add
      and commit (an IntegrityError is 409). Returns the response and the new table. */
  function Create(t: Table, p: Payload, now: int): (r: (CreateResponse, Table))
    ensures p.score.Some? && !ValidScore(p.score.value) ==> r == (Abort(400, ScoreRangeMessage), t)
    ensures Construct(p).Ok? && (MissingRequired(p) || BookingTaken(t.rows, p.bookingId.value))
      ==> r == (Abort(409, DuplicateMessage), t)
    ensures r.0.Created? <==> Accepted(t, p)
    ensures r.0.Abort? ==> r.1 == t
    ensures r.0.Created? ==>
      && Some(r.0.review.reviewerId) == p.reviewerId
      && Some(r.0.review.subjectId) == p.subjectId
      && Some(r.0.review.bookingId) == p.bookingId
      && Some(r.0.review.score) == p.score
      && r.0.review.comment == p.comment
      && r.0.review.timestamp == now
      && r.1.rows == t.rows + [r.0.review]
    ensures Invariant(t) ==> Invariant(r.1)
    ensures Invariant(t) && r.0.Created? ==>
      forall i :: 0 <= i < |t.rows| ==> t.rows[i].id < r.0.review.id
  {
    match Construct(p)
    case Err(_) => (Abort(400, ScoreRangeMessage), t)
    case Ok(pending) =>
      match Commit(t, pending, now)
      case Err(_) => (Abort(409, DuplicateMessage), t)
      case Ok(review) => (Created(review), Inserted(t, review))
  }

  /** The create endpoint. */
  method Post(table: ReviewTable, p: Payload, now: int) returns (resp: CreateResponse)
    requires table.Valid()
    modifies table
    ensures table.Valid()
    ensures (resp, table.State()) == Create(old(table.State()), p, now)
  {
    var constructed := Construct(p);
    if constructed.Err? {
      return Abort(400, ScoreRangeMessage);
    }
    var committed := table.AddAndCommit(constructed.value, now);
    if committed.Err? {
      return Abort(409, DuplicateMessage);
    }
    resp := Created(committed.value);
  }

  /** How many rows of the table carry the booking. */
  function BookingCount(rows: seq<Review>, booking: int): nat
  {
    if rows == [] then 0
    else (if rows[0].bookingId == booking then 1 else 0) + BookingCount(rows[1..], booking)
  }

  lemma {:induction false} BookingCountAppend(rows: seq<Review>, x: Review, booking: int)
    ensures BookingCount(rows + [x], booking)
         == BookingCount(rows, booking) + (if x.bookingId == booking then 1 else 0)
    decreases rows
  {
    if rows == [] {
      assert rows + [x] == [x];
    } else {
      assert (rows + [x])[1..] == rows[1..] + [x];
      BookingCountAppend(rows[1..], x, booking);
    }
  }

  lemma {:induction false} BookingCountZero(rows: seq<Review>, booking: int)
    requires !BookingTaken(rows, booking)
    ensures BookingCount(rows, booking) == 0
    decreases rows
  {
    if rows != [] {
      assert rows[0].bookingId != booking;
      assert !BookingTaken(rows[1..], booking) by {
        forall i | 0 <= i < |rows[1..]| ensures rows[1..][i].bookingId != booking {
          assert rows[1..][i] == rows[i + 1];
        }
      }
      BookingCountZero(rows[1..], booking);
    }
  }

  /** Two creates for one booking: the first stores its review, the second is a 409
      that leaves the table as the first left it, and the booking ends with exactly
      one review. */
  lemma DuplicateBookingConflicts(t: Table, p: Payload, q: Payload, now: int, later: int)
    requires Create(t, p, now).0.Created?
    requires q.bookingId == p.bookingId && Construct(q).Ok?
    ensures Create(Create(t, p, now).1, q, later) == (Abort(409, DuplicateMessage), Create(t, p, now).1)
    ensures BookingCount(Create(t, p, now).1.rows, p.bookingId.value) == 1
  {
    var (resp, t1) := Create(t, p, now);
    var b := p.bookingId.value;
    assert t1.rows[|t.rows|] == resp.review;
    assert BookingTaken(t1.rows, b);
    BookingCountZero(t.rows, b);
    BookingCountAppend(t.rows, resp.review, b);
  }

  /** Read-your-write: right after a create, listing by its booking returns exactly
      the created review. */
  lemma CreateThenListByBooking(t: Table, p: Payload, now: int, kind: Kind)
    requires Create(t, p, now).0.Created?
    ensures Select(Create(t, p, now).1.rows, kind, map["booking_id" := p.bookingId.value])
         == [Create(t, p, now).0.review]
  {
    var (resp, t1) := Create(t, p, now);
    var args := map["booking_id" := p.bookingId.value];
    assert "reviewer_id" !in args;
    assert SubjectName(kind) !in args;
    SelectNothingMatches(t.rows, kind, args);
    SelectAppend(t.rows, resp.review, kind, args);
  }

  // ---------------------------------------------------------------------------
  // Score average
  // ---------------------------------------------------------------------------

  /** What the score endpoint answers: an empty 204, or the subject and its mean score
      `scoreSum / scoreCount` (the SQL AVG, kept exact as a fraction). */
  datatype ScoreResponse = NoContent | Score(subjectId: int, scoreSum: int, scoreCount: int)

  /** `Model.query.filter(Model.<subject> == subject_id)`. */
  function SubjectQuery(subjectId: int): Query
  {
    AllRows.Filter(Cond(SubjectColumn, Eq, Some(subjectId)))
  }

  function SumScores(rows: seq<Review>): int
  {
    if rows == [] then 0 else rows[0].score + SumScores(rows[1..])
  }

  /** With every score in 1..4, the sum of n scores lies between n and 4n. */
  lemma {:induction false} SumScoresBounds(rows: seq<Review>)
    requires ScoresInRange(rows)
    ensures |rows| <= SumScores(rows) <= 4 * |rows|
    decreases rows
  {
    if rows != [] {
      assert ScoresInRange(rows[1..]) by {
        forall i | 0 <= i < |rows[1..]| ensures ValidScore(rows[1..][i].score) {
          assert rows[1..][i] == rows[i + 1];
        }
      }
      SumScoresBounds(rows[1..]);
    }
  }

  /** The subject's reviews are what the list endpoint returns when filtered by it. */
  lemma SubjectQueryIsSelect(rows: seq<Review>, kind: Kind, subjectId: int)
    ensures Execute(SubjectQuery(subjectId), rows) == Select(rows, kind, map[SubjectName(kind) := subjectId])
  {
    var args := map[SubjectName(kind) := subjectId];
    assert "booking_id" !in args && "reviewer_id" !in args;
    forall x: Review
      ensures Matches(x, SubjectQuery(subjectId)) <==> MatchesArgs(x, kind, args)
    {
      MatchesSingleton(x, SubjectQuery(subjectId).conds);
    }
    ExecuteIsSelect(SubjectQuery(subjectId), rows, kind, args);
  }

  /** The scores a query selects from a valid table sum to between n and 4n. */
  lemma QueryScoreBounds(q: Query, rows: seq<Review>)
    ensures ScoresInRange(rows) ==>
      |Execute(q, rows)| <= SumScores(Execute(q, rows)) <= 4 * |Execute(q, rows)|
  {
    if ScoresInRange(rows) {
      var m := Execute(q, rows);
      forall i | 0 <= i < |m| ensures ValidScore(m[i].score) {
        ExecuteMembership(q, rows, m[i]);
      }
      SumScoresBounds(m);
    }
  }

  /** The score endpoint on the rows of one table: 204 when the subject has no
      review, otherwise the sum and the number of its reviews' scores. */
  function ScoreOf(rows: seq<Review>, kind: Kind, subjectId: int): (r: ScoreResponse)
    ensures r.NoContent? <==> forall i :: 0 <= i < |rows| ==> rows[i].subjectId != subjectId
    ensures r.Score? ==>
      var reviews := Select(rows, kind, map[SubjectName(kind) := subjectId]);
      && r.subjectId == subjectId
      && r.scoreCount == |reviews| >= 1
      && r.scoreSum == SumScores(reviews)
    ensures r.Score? && ScoresInRange(rows) ==> r.scoreCount <= r.scoreSum <= 4 * r.scoreCount
  {
    var q := SubjectQuery(subjectId);
    assert forall x: Review :: Matches(x, q) <==> x.subjectId == subjectId by {
      forall x: Review ensures Matches(x, q) <==> x.subjectId == subjectId {
        MatchesSingleton(x, q.conds);
      }
    }
    match First(q, rows)
    case None => NoContent
    case Some(found) =>
      var matching := Execute(q, rows);
      SubjectQueryIsSelect(rows, kind, subjectId);
      ExecuteMembership(q, rows, found);
      QueryScoreBounds(q, rows);
      Score(subjectId, SumScores(matching), |matching|)
  }

  /** When every review in the table is about one subject, its score is the sum and
      the number of all their scores. */
  lemma ScoreOfSingleSubject(rows: seq<Review>, kind: Kind, subjectId: int)
    requires rows != [] && forall i :: 0 <= i < |rows| ==> rows[i].subjectId == subjectId
    ensures ScoreOf(rows, kind, subjectId) == Score(subjectId, SumScores(rows), |rows|)
  {
    var args := map[SubjectName(kind) := subjectId];
    assert Select(rows, kind, args) == rows by {
      assert "booking_id" !in args && "reviewer_id" !in args && args[SubjectName(kind)] == subjectId;
      forall i | 0 <= i < |rows| ensures MatchesArgs(rows[i], kind, args) {
        assert rows[i].subjectId == subjectId;
      }
      SelectAllMatch(rows, kind, args);
    }
    var r := ScoreOf(rows, kind, subjectId);
    assert r.Score? by {
      assert 0 < |rows| && rows[0].subjectId == subjectId;
    }
  }

  /** Reviews scored 2, 3 and 4 average exactly 3. */
  lemma ScoreExample(a: Review, b: Review, c: Review, kind: Kind)
    requires a.subjectId == b.subjectId == c.subjectId
    requires a.score == 2 && b.score == 3 && c.score == 4
    ensures ScoreOf([a, b, c], kind, a.subjectId) == Score(a.subjectId, 9, 3)
  {
    ScoreOfSingleSubject([a, b, c], kind, a.subjectId);
    assert SumScores([a, b, c]) == 2 + SumScores([b, c]);
    assert SumScores([b, c]) == 3 + SumScores([c]);
  }
}
