/** The relational store behind `db.session`, reduced to one in-memory table per
    model: its rows in primary-key order and the next autoincrement id. */
module Database {
  import opened Wrappers
  import opened Models

  /** The value of a table, for specifications. */
  datatype Table = Table(rows: seq<Review>, nextId: int)

  /** What the schema guarantees of every committed state. */
  predicate Invariant(t: Table)
  {
    && 1 <= t.nextId
    && UniqueBookings(t.rows)
    && ScoresInRange(t.rows)
    && IdsAssigned(t.rows, t.nextId)
  }

  const EmptyTable: Table := Table([], 1)

  /** The constraint that rejects a commit: a NOT NULL column without a value, or the
      unique constraint on `booking_id`. Both raise IntegrityError. */
  datatype IntegrityError = NotNullFailed | UniqueBookingFailed

  /** The row a successful insert stores: the next id, the server timestamp, the other
      columns from the constructed object. */
  function Persisted(p: Payload, id: int, now: int): Review
    requires !MissingRequired(p)
  {
    Review(id, p.reviewerId.value, p.subjectId.value, p.bookingId.value,
           p.score.value, p.comment, now)
  }

  /** `db.session.add(obj); db.session.commit()` for one constructed object. */
  function Commit(t: Table, p: Payload, now: int): (r: Result<Review, IntegrityError>)
    ensures r.Err? <==> MissingRequired(p) || BookingTaken(t.rows, p.bookingId.value)
    ensures r == Err(NotNullFailed) <==> MissingRequired(p)
    ensures r.Ok? ==>
      && r.value.id == t.nextId
      && Some(r.value.reviewerId) == p.reviewerId
      && Some(r.value.subjectId) == p.subjectId
      && Some(r.value.bookingId) == p.bookingId
      && Some(r.value.score) == p.score
      && r.value.comment == p.comment
      && r.value.timestamp == now
    ensures r.Ok? && Invariant(t) && Construct(p).Ok? ==> Invariant(Inserted(t, r.value))
  {
    if MissingRequired(p) then Err(NotNullFailed)
    else if BookingTaken(t.rows, p.bookingId.value) then Err(UniqueBookingFailed)
    else Ok(Persisted(p, t.nextId, now))
  }

  /** The table after a row has been committed. */
  function Inserted(t: Table, r: Review): Table
  {
    Table(t.rows + [r], t.nextId + 1)
  }

  /** The mutable table a handler works on. */
  class ReviewTable {
    const kind: Kind
    var rows: seq<Review>
    var nextId: int

    function State(): Table
      reads this
    {
      Table(rows, nextId)
    }

    ghost predicate Valid()
      reads this
    {
      Invariant(State())
    }

    constructor (kind: Kind)
      ensures Valid() && this.kind == kind && State() == EmptyTable
    {
      this.kind := kind;
      rows := [];
      nextId := 1;
    }

    /** Adds a constructed review and commits it. On an IntegrityError nothing is
        stored and the id counter does not move. */
    method AddAndCommit(p: Payload, now: int) returns (r: Result<Review, IntegrityError>)
      requires Valid() && Construct(p).Ok?
      modifies this
      ensures Valid()
      ensures r == Commit(old(State()), p, now)
      ensures r.Err? ==> State() == old(State())
      ensures r.Ok? ==> rows == old(rows) + [r.value] && nextId == old(nextId) + 1
    {
      r := Commit(State(), p, now);
      if r.Ok? {
        rows := rows + [r.value];
        nextId := nextId + 1;
      }
    }
  }
}
