/** `FilterParam`, a named filter bound to a comparison operator, and the part of
    the query API it uses: a query is a conjunction of conditions, `filter` adds one
    more, `all` returns the matching rows. The model returns them in the table's
    primary-key order; the service's queries have no `order_by`, so the database
    itself promises no order. */
module Utils {
  import opened Wrappers
  import opened Models

  /** The comparison operator of a filter; the service only ever passes `operator.eq`. */
  datatype Op = Eq

  /** How Python prints the operator object. */
  function OpRepr(op: Op): string
  {
    match op
    case Eq => "<built-in function eq>"
  }

  /** `op(column, value)`: a condition on one integer column. A `None` value compiles
      to `column IS NULL`, which no row satisfies because the columns are NOT NULL. */
  datatype Cond = Cond(column: Column, op: Op, value: Option<int>)

  predicate Holds(r: Review, c: Cond)
  {
    match c.op
    case Eq => c.value == Some(ColumnValue(r, c.column))
  }

  /** A query over one table: the conjunction of its conditions. */
  datatype Query = Query(conds: seq<Cond>) {
    /** `query.filter(cond)`: one more conjunct; the query itself is not changed. */
    function Filter(c: Cond): (q: Query)
      ensures forall r: Review :: Matches(r, q) <==> Matches(r, this) && Holds(r, c)
    {
      FilterMeaning(this, c);
      Query(conds + [c])
    }
  }

  lemma FilterMeaning(q: Query, c: Cond)
    ensures forall r: Review :: Matches(r, Query(q.conds + [c])) <==> Matches(r, q) && Holds(r, c)
  {
    forall r: Review
      ensures Matches(r, Query(q.conds + [c])) <==> Matches(r, q) && Holds(r, c)
    {
      var cs := q.conds + [c];
      assert cs[|q.conds|] == c;
      assert forall i :: 0 <= i < |q.conds| ==> cs[i] == q.conds[i];
    }
  }

  lemma MatchesConcat(x: Review, a: seq<Cond>, b: seq<Cond>)
    ensures Matches(x, Query(a + b)) <==> Matches(x, Query(a)) && Matches(x, Query(b))
  {
    var ab := a + b;
    assert forall i :: 0 <= i < |a| ==> ab[i] == a[i];
    assert forall i :: 0 <= i < |b| ==> ab[|a| + i] == b[i];
    if Matches(x, Query(a)) && Matches(x, Query(b)) {
      forall i | 0 <= i < |ab| ensures Holds(x, ab[i]) {
        if i >= |a| {
          assert ab[i] == b[i - |a|];
        }
      }
    }
  }

  lemma MatchesSingleton(x: Review, cs: seq<Cond>)
    requires |cs| <= 1
    ensures Matches(x, Query(cs)) <==> (cs == [] || Holds(x, cs[0]))
  {
  }

  /** `Model.query`, the unfiltered query. */
  const AllRows: Query := Query([])

  predicate Matches(r: Review, q: Query)
  {
    forall i :: 0 <= i < |q.conds| ==> Holds(r, q.conds[i])
  }

  /** `query.all()`: the rows of the table that satisfy the query, kept in the
      model's table order. Every row it returns satisfies the query, and it never
      returns more rows than the table holds. */
  function Execute(q: Query, rows: seq<Review>): (r: seq<Review>)
    ensures |r| <= |rows|
    ensures forall i :: 0 <= i < |r| ==> Matches(r[i], q)
  {
    if rows == [] then []
    else (if Matches(rows[0], q) then [rows[0]] else []) + Execute(q, rows[1..])
  }

  /** `query.first()`. */
  function First(q: Query, rows: seq<Review>): (r: Option<Review>)
    ensures r.None? <==> forall i :: 0 <= i < |rows| ==> !Matches(rows[i], q)
    ensures r.Some? ==> r.value in rows && Matches(r.value, q)
  {
    if rows == [] then None
    else if Matches(rows[0], q) then Some(rows[0])
    else First(q, rows[1..])
  }

  lemma {:induction false} ExecuteMembership(q: Query, rows: seq<Review>, x: Review)
    ensures x in Execute(q, rows) <==> x in rows && Matches(x, q)
    decreases rows
  {
    if rows != [] {
      ExecuteMembership(q, rows[1..], x);
      assert rows == [rows[0]] + rows[1..];
    }
  }

  /** Two queries that accept the same rows return the same result on every table. */
  lemma {:induction false} ExecuteCongruent(q1: Query, q2: Query, rows: seq<Review>)
    requires forall r: Review :: Matches(r, q1) <==> Matches(r, q2)
    ensures Execute(q1, rows) == Execute(q2, rows)
    decreases rows
  {
    if rows != [] {
      ExecuteCongruent(q1, q2, rows[1..]);
    }
  }

  lemma {:induction false} ExecuteAllRows(rows: seq<Review>)
    ensures Execute(AllRows, rows) == rows
    decreases rows
  {
    if rows != [] {
      ExecuteAllRows(rows[1..]);
      assert rows == [rows[0]] + rows[1..];
    }
  }

  /** The OpenAPI description of a query parameter (`__schema__`). */
  datatype Schema = Schema(name: string, location: string, schemaType: string)

  class FilterParam {
    const name: string
    const op: Op
    const schema: Schema
    var val: Option<int>

    /** A fresh filter is unbound; its schema records the name, the location and the
        declared type. */
    constructor (name: string, op: Op, location: string := "query", schemaType: string := "int")
      ensures this.name == name && this.op == op && val == None
      ensures schema == Schema(name, location, schemaType)
    {
      this.name := name;
      this.op := op;
      this.val := None;
      this.schema := Schema(name, location, schemaType);
    }

    /** `__call__`: binds the value and returns the same object, not a copy. */
    method Call(v: int) returns (self: FilterParam)
      modifies this
      ensures self == this && val == Some(v)
    {
      val := Some(v);
      self := this;
    }

    /** The condition this filter adds on a table of the given kind, `None` when the
        table has no integer column of that name. */
    function Condition(kind: Kind): (c: Option<Cond>)
      reads this
      ensures c.Some? <==> ColumnNamed(kind, name).Some?
      ensures c.Some? ==> ColumnName(kind, c.value.column) == name
      ensures c.Some? ==> c.value.op == op && c.value.value == val
    {
      match ColumnNamed(kind, name)
      case Some(col) => Some(Cond(col, op, val))
      case None => None
    }

    /** `apply(query, model)`: the query narrowed by `model.<name> op val`; the
        attribute lookup fails (AttributeError) when the model has no such column. */
    function Apply(q: Query, kind: Kind): (r: Result<Query, string>)
      reads this
      ensures r.Ok? <==> ColumnNamed(kind, name).Some?
      ensures r.Ok? ==> forall x: Review ::
        Matches(x, r.value) <==> Matches(x, q) && op == Eq && val == Some(ColumnValue(x, ColumnNamed(kind, name).value))
    {
      match Condition(kind)
      case Some(c) => Ok(q.Filter(c))
      case None => Err("AttributeError: " + name)
    }

    /** `__repr__`: "filter <name> by <op>"; the name can be read back from it. */
    function Repr(): (s: string)
      ensures |s| == 7 + |name| + 4 + |OpRepr(op)| && s[..7] == "filter "
      ensures s[7..7 + |name|] == name && s[7 + |name|..7 + |name| + 4] == " by "
      ensures s[7 + |name| + 4..] == OpRepr(op)
    {
      "filter " + name + " by " + OpRepr(op)
    }

    /** `__str__` is `__repr__`. */
    function Str(): (s: string)
      ensures s == Repr()
    {
      Repr()
    }
  }

  /** With the equality operator, applying a filter keeps exactly the rows of the
      query's result whose named column equals the bound value. */
  lemma ApplyKeepsEqualRows(f: FilterParam, q: Query, kind: Kind, rows: seq<Review>, x: Review)
    requires f.op == Eq && ColumnNamed(kind, f.name).Some?
    ensures f.Apply(q, kind).Ok?
    ensures x in Execute(f.Apply(q, kind).value, rows) <==>
      x in Execute(q, rows) && f.val == Some(ColumnValue(x, ColumnNamed(kind, f.name).value))
  {
    ExecuteMembership(f.Apply(q, kind).value, rows, x);
    ExecuteMembership(q, rows, x);
  }

  /** Applying a filter only narrows: every row it returns is returned by the input
      query. */
  lemma ApplyNarrows(f: FilterParam, q: Query, kind: Kind, rows: seq<Review>)
    requires f.Apply(q, kind).Ok?
    ensures forall x :: x in Execute(f.Apply(q, kind).value, rows) ==> x in Execute(q, rows)
  {
    forall x | x in Execute(f.Apply(q, kind).value, rows)
      ensures x in Execute(q, rows)
    {
      ExecuteMembership(f.Apply(q, kind).value, rows, x);
      ExecuteMembership(q, rows, x);
    }
  }

  /** Two filters applied in either order select the same rows. */
  lemma ApplyCommutes(f: FilterParam, g: FilterParam, q: Query, kind: Kind, rows: seq<Review>)
    requires f.Apply(q, kind).Ok? && g.Apply(q, kind).Ok?
    ensures f.Apply(g.Apply(q, kind).value, kind).Ok? && g.Apply(f.Apply(q, kind).value, kind).Ok?
    ensures Execute(f.Apply(g.Apply(q, kind).value, kind).value, rows)
         == Execute(g.Apply(f.Apply(q, kind).value, kind).value, rows)
  {
    ExecuteCongruent(f.Apply(g.Apply(q, kind).value, kind).value,
                     g.Apply(f.Apply(q, kind).value, kind).value, rows);
  }

  /** Filters with the same operator and the same printed form have the same name. */
  lemma ReprInjective(f: FilterParam, g: FilterParam)
    requires f.op == g.op && f.Repr() == g.Repr()
    ensures f.name == g.name
  {
    var s := f.Repr();
    assert |f.name| == |g.name|;
    assert f.name == s[7..7 + |f.name|] == g.name;
  }
}
