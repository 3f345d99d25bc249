/**
 * The selection semantics of the two endpoints of routers.py, as functions
 * over the trading-results table held as a sequence of rows.
 *
 * `get_last_trading_dates` groups the rows by date, orders the groups newest
 * first and keeps at most `limit` of them; `get_dynamics` keeps the rows
 * whose date lies in the filter's range and whose identifiers equal each
 * identifier the filter supplies.
 */
module Routers {
  import opened Base
  import opened Schemas

  /** One row of the trading-results table. */
  datatype TradingResult = TradingResult(
    exchange_product_id: string,
    exchange_product_name: string,
    oil_id: string,
    delivery_basis_id: string,
    delivery_basis_name: string,
    delivery_type_id: string,
    volume: int,
    total: int,
    count: int,
    date: Date)

  // ---------------------------------------------------------------------
  // get_last_trading_dates
  // ---------------------------------------------------------------------

  /** The `limit` used when the request gives none (routers.py:16). */
  const LastDatesDefaultLimit: int := 5

  /** The failure of a query the database refuses. */
  datatype QueryError = NegativeLimit(limit: int)

  /** Every date that occurs in the table. */
  function TradingDates(rows: seq<TradingResult>): set<Date>
  {
    set r | r in rows :: r.date
  }

  /** Newest first, with no date repeated. */
  predicate StrictlyDescending(s: seq<Date>)
  {
    forall i, j :: 0 <= i < j < |s| ==> s[i] > s[j]
  }

  /** Adds `d` to a newest-first list of distinct dates, at its place, unless it is already there. */
  function InsertDescending(s: seq<Date>, d: Date): (r: seq<Date>)
    requires StrictlyDescending(s)
    ensures StrictlyDescending(r)
    ensures forall x :: x in r <==> x in s || x == d
  {
    if s == [] then [d]
    else if d == s[0] then s
    else if d > s[0] then [d] + s
    else
      var rest := InsertDescending(s[1..], d);
      assert forall x :: x in rest ==> x < s[0] by {
        forall x | x in rest ensures x < s[0] {
          if x != d {
            var j :| 0 <= j < |s[1..]| && s[1..][j] == x;
            assert s[j + 1] == x;
          }
        }
      }
      var r := [s[0]] + rest;
      assert StrictlyDescending(r) by {
        forall i, j | 0 <= i < j < |r| ensures r[i] > r[j] {
          assert r[j] == rest[j - 1];
          if i > 0 {
            assert r[i] == rest[i - 1];
          } else {
            assert rest[j - 1] in rest;
          }
        }
      }
      r
  }

  /** `select date ... group by date order by date desc`: each table date once, newest first. */
  function DistinctDatesDescending(rows: seq<TradingResult>): (r: seq<Date>)
    ensures StrictlyDescending(r)
    ensures forall d :: d in r <==> d in TradingDates(rows)
  {
    if rows == [] then []
    else
      var rest := DistinctDatesDescending(rows[1..]);
      assert forall d :: d in TradingDates(rows) <==> d in TradingDates(rows[1..]) || d == rows[0].date by {
        assert rows == [rows[0]] + rows[1..];
      }
      InsertDescending(rest, rows[0].date)
  }

  /** A list with no repeated element has as many elements as its set. */
  lemma {:induction false} DistinctCardinality(s: seq<Date>)
    requires StrictlyDescending(s)
    ensures |set x | x in s| == |s|
  {
    if s != [] {
      var tail := s[1..];
      assert StrictlyDescending(tail);
      DistinctCardinality(tail);
      var rest := set x | x in tail;
      assert s[0] !in rest;
      assert (set x | x in s) == rest + {s[0]};
    }
  }

  /**
   * `get_last_trading_dates(limit)`: the newest `limit` distinct trading
   * dates, newest first; `limit` defaults to 5. A negative limit is refused.
   */
  function GetLastTradingDates(rows: seq<TradingResult>, limit: Option<int>): (r: Result<seq<Date>, QueryError>)
    ensures var l := if limit.Some? then limit.value else LastDatesDefaultLimit;
      && (r.Err? <==> l < 0)
      && (r.Ok? ==>
            && StrictlyDescending(r.value)
            && |r.value| == (if l < |TradingDates(rows)| then l else |TradingDates(rows)|)
            && (forall d :: d in r.value ==> d in TradingDates(rows))
            && (forall d, e :: d in TradingDates(rows) && d !in r.value && e in r.value ==> d < e))
  {
    var l := if limit.Some? then limit.value else LastDatesDefaultLimit;
    if l < 0 then Err(NegativeLimit(l))
    else
      var all := DistinctDatesDescending(rows);
      DistinctCardinality(all);
      assert (set x | x in all) == TradingDates(rows);
      var n := if l < |all| then l else |all|;
      var kept := all[..n];
      assert forall d, e :: d in TradingDates(rows) && d !in kept && e in kept ==> d < e by {
        forall d, e | d in TradingDates(rows) && d !in kept && e in kept ensures d < e {
          var j :| 0 <= j < |all| && all[j] == d;
          var i :| 0 <= i < |kept| && kept[i] == e;
          assert all[i] == e;
        }
      }
      Ok(kept)
  }

  // ---------------------------------------------------------------------
  // get_dynamics
  // ---------------------------------------------------------------------

  /** Python truthiness of an optional string: supplied and not empty. */
  predicate Supplied(v: Option<string>)
  {
    v.Some? && v.value != ""
  }

  /** `column == value if value else True`: a constraint only when the value is truthy. */
  predicate IdentifierClause(v: Option<string>, column: string)
  {
    if Supplied(v) then column == v.value else true
  }

  /** The `where` clause of `get_dynamics` applied to one row. */
  predicate Where(f: TradingDateFilter, row: TradingResult)
  {
    && f.start_date <= row.date <= f.end_date
    && IdentifierClause(f.ids.oil_id, row.oil_id)
    && IdentifierClause(f.ids.delivery_type_id, row.delivery_type_id)
    && IdentifierClause(f.ids.delivery_basis_id, row.delivery_basis_id)
  }

  /**
   * `get_dynamics(data)`: the rows of the table that satisfy the `where`
   * clause. The query has no `order by`; the model lists the rows in table
   * order, and `DynamicsExact` states the result without any order.
   */
  function GetDynamics(rows: seq<TradingResult>, f: TradingDateFilter): (r: seq<TradingResult>)
    ensures |r| <= |rows|
    ensures forall x :: x in r ==> x in rows && Where(f, x)
  {
    if rows == [] then []
    else
      var rest := GetDynamics(rows[1..], f);
      assert forall x :: x in rest ==> x in rows by {
        assert rows == [rows[0]] + rows[1..];
      }
      (if Where(f, rows[0]) then [rows[0]] else []) + rest
  }

  /**
   * `get_dynamics` returns exactly the table rows satisfying the `where`
   * clause, each as often as it occurs in the table; the query promises no
   * order, so the result is compared as a multiset.
   */
  lemma {:induction false} DynamicsExact(rows: seq<TradingResult>, f: TradingDateFilter)
    ensures forall x :: multiset(GetDynamics(rows, f))[x] == if Where(f, x) then multiset(rows)[x] else 0
  {
    if rows != [] {
      DynamicsExact(rows[1..], f);
      assert rows == [rows[0]] + rows[1..];
    }
  }

  /** Every returned row lies in the requested range, both ends included. */
  lemma DynamicsWithinRange(rows: seq<TradingResult>, f: TradingDateFilter, x: TradingResult)
    requires x in GetDynamics(rows, f)
    ensures f.start_date <= x.date <= f.end_date
  {
    DynamicsExact(rows, f);
    assert multiset(GetDynamics(rows, f))[x] > 0;
  }

  /**
   * Over a filter produced by validation, a row is returned exactly when it
   * is in the table, its date is in the inclusive range, and it equals
   * every identifier the request supplied; an absent identifier imposes
   * nothing.
   */
  lemma DynamicsSelects(rows: seq<TradingResult>, q: Query, today: Date, x: TradingResult)
    requires ValidateTradingDate(q, today).Ok?
    ensures x in GetDynamics(rows, ValidateTradingDate(q, today).value) <==>
      && x in rows
      && q.start_date.value <= x.date <= q.end_date.value
      && (q.oil_id.Some? ==> x.oil_id == q.oil_id.value)
      && (q.delivery_type_id.Some? ==> x.delivery_type_id == q.delivery_type_id.value)
      && (q.delivery_basis_id.Some? ==> x.delivery_basis_id == q.delivery_basis_id.value)
  {
    ValidatedIdentifiersNonEmpty(q, today);
    var f := ValidateTradingDate(q, today).value;
    DynamicsExact(rows, f);
    assert x in GetDynamics(rows, f) <==> multiset(GetDynamics(rows, f))[x] > 0;
    assert x in rows <==> multiset(rows)[x] > 0;
  }
}
