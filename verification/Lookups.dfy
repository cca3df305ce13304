/** Effective-dated lookups: the in-memory scans and the "latest first" queries. */
module Lookups {
  import opened Basics
  import opened Model

  predicate RateApplies(v: TaxRate, company: CompanyId, code: string, at: int) {
    v.company == company && v.code == code && v.effectiveFrom <= at
    && (v.effectiveTo.Some? ==> at < v.effectiveTo.value)
  }

  /** The rate the scan has selected after all of `rates`. */
  function SelectedRate(rates: seq<TaxRate>, company: CompanyId, code: string, at: int): Option<TaxRate> {
    if rates == [] then None else
    var selected := SelectedRate(rates[..|rates| - 1], company, code, at);
    var v := rates[|rates| - 1];
    if RateApplies(v, company, code, at) && (selected.None? || v.effectiveFrom > selected.value.effectiveFrom)
    then Some(v) else selected
  }

  predicate PeriodCovers(v: FiscalPeriod, company: CompanyId, at: int) {
    v.company == company && v.startsAt <= at < v.endsAt
  }

  /** The first period that covers the instant decides. */
  function PeriodOpen(periods: seq<FiscalPeriod>, company: CompanyId, at: int): bool {
    periods != []
    && if PeriodCovers(periods[0], company, at) then periods[0].open else PeriodOpen(periods[1..], company, at)
  }

  /** A row `ORDER BY effective_from DESC LIMIT 1` may return. */
  ghost predicate LatestRate(rates: seq<TaxRate>, company: CompanyId, code: string, at: int, r: TaxRate) {
    r in rates && RateApplies(r, company, code, at)
    && forall v :: v in rates && RateApplies(v, company, code, at) ==> v.effectiveFrom <= r.effectiveFrom
  }

  ghost predicate LatestPeriod(periods: seq<FiscalPeriod>, company: CompanyId, at: int, r: FiscalPeriod) {
    r in periods && PeriodCovers(r, company, at)
    && forall v :: v in periods && PeriodCovers(v, company, at) ==> v.startsAt <= r.startsAt
  }

  /** UNIQUE (tenant, company, code, effective_from) on the rows. */
  ghost predicate DistinctRates(rates: seq<TaxRate>) {
    forall u, v | u in rates && v in rates && u.company == v.company && u.code == v.code
      && u.effectiveFrom == v.effectiveFrom :: u == v
  }

  ghost predicate DisjointPeriods(periods: seq<FiscalPeriod>) {
    forall u, v, at | u in periods && v in periods && u.company == v.company
      && PeriodCovers(u, u.company, at) && PeriodCovers(v, v.company, at) :: u == v
  }

  /** The scan finds a latest applicable rate whenever there is one. */
  lemma {:induction false} ScanIsLatest(rates: seq<TaxRate>, company: CompanyId, code: string, at: int)
    ensures match SelectedRate(rates, company, code, at)
      case Some(r) => LatestRate(rates, company, code, at, r)
      case None => forall v :: v in rates ==> !RateApplies(v, company, code, at)
  {
    if rates == [] {
    } else {
      ScanIsLatest(rates[..|rates| - 1], company, code, at);
      assert rates == rates[..|rates| - 1] + [rates[|rates| - 1]];
    }
  }

  /** With distinct effective dates the memory scan and the SQL query return the same rate. */
  lemma RatesAgree(rates: seq<TaxRate>, company: CompanyId, code: string, at: int, r: TaxRate)
    requires DistinctRates(rates)
    ensures SelectedRate(rates, company, code, at) == Some(r) <==> LatestRate(rates, company, code, at, r)
  {
    ScanIsLatest(rates, company, code, at);
  }

  lemma {:induction false} FirstCovers(periods: seq<FiscalPeriod>, company: CompanyId, at: int, r: FiscalPeriod)
    requires DisjointPeriods(periods) && r in periods && PeriodCovers(r, company, at)
    ensures PeriodOpen(periods, company, at) == r.open
  {
    assert periods[0] in periods;
    if PeriodCovers(periods[0], company, at) {
      assert periods[0] == r;
    } else {
      FirstCovers(periods[1..], company, at, r);
    }
  }

  /** With disjoint periods the first match and the latest match agree; without a match both refuse. */
  lemma PeriodsAgree(periods: seq<FiscalPeriod>, company: CompanyId, at: int)
    requires DisjointPeriods(periods)
    ensures PeriodOpen(periods, company, at) <==>
      exists r :: LatestPeriod(periods, company, at, r) && r.open
  {
    if r :| LatestPeriod(periods, company, at, r) {
      FirstCovers(periods, company, at, r);
    } else {
      forall v | v in periods && PeriodCovers(v, company, at) ensures false {
        forall u | u in periods && PeriodCovers(u, company, at) ensures u.startsAt <= v.startsAt {
          assert PeriodCovers(u, u.company, at) && PeriodCovers(v, v.company, at);
        }
        assert LatestPeriod(periods, company, at, v);
      }
      NoneCovers(periods, company, at);
    }
  }

  lemma {:induction false} NoneCovers(periods: seq<FiscalPeriod>, company: CompanyId, at: int)
    requires forall v :: v in periods ==> !PeriodCovers(v, company, at)
    ensures !PeriodOpen(periods, company, at)
  {
    if periods == [] {
    } else {
      assert periods[0] in periods;
      NoneCovers(periods[1..], company, at);
    }
  }

  // The queries of the SQL store: the first match among rows taken latest first.

  function RateDate(): TaxRate -> int {
    (v: TaxRate) => v.effectiveFrom
  }

  function PeriodDate(): FiscalPeriod -> int {
    (v: FiscalPeriod) => v.startsAt
  }

  ghost predicate Descending<T>(rows: seq<T>, date: T -> int) {
    forall i, j :: 0 <= i < j < |rows| ==> date(rows[i]) >= date(rows[j])
  }

  function Placed<T>(x: T, rows: seq<T>, date: T -> int): (r: seq<T>)
    ensures multiset(r) == multiset(rows) + multiset{x}
  {
    if rows == [] || date(x) > date(rows[0]) then [x] + rows
    else
      assert rows == [rows[0]] + rows[1..];
      [rows[0]] + Placed(x, rows[1..], date)
  }

  /** ORDER BY date DESC. */
  function LatestFirst<T>(rows: seq<T>, date: T -> int): (r: seq<T>)
    ensures multiset(r) == multiset(rows)
  {
    if rows == [] then [] else
    assert rows == [rows[0]] + rows[1..];
    Placed(rows[0], LatestFirst(rows[1..], date), date)
  }

  lemma {:induction false} PlacedDescending<T>(x: T, rows: seq<T>, date: T -> int)
    requires Descending(rows, date)
    ensures Descending(Placed(x, rows, date), date)
  {
    if rows != [] && date(x) <= date(rows[0]) {
      var rest := Placed(x, rows[1..], date);
      PlacedDescending(x, rows[1..], date);
      forall y | y in rest ensures date(y) <= date(rows[0]) {
        assert y in multiset(rest);
      }
    }
  }

  lemma {:induction false} LatestFirstDescending<T>(rows: seq<T>, date: T -> int)
    ensures Descending(LatestFirst(rows, date), date)
  {
    if rows == [] {
    } else {
      LatestFirstDescending(rows[1..], date);
      PlacedDescending(rows[0], LatestFirst(rows[1..], date), date);
    }
  }

  lemma SameRows<T>(rows: seq<T>, date: T -> int)
    ensures forall x :: x in LatestFirst(rows, date) <==> x in rows
  {
    forall x ensures x in LatestFirst(rows, date) <==> x in rows {
      assert x in multiset(LatestFirst(rows, date)) <==> x in multiset(rows);
    }
  }

  /** The row that decides: it covers the instant and no row before it does. */
  ghost predicate FirstPeriod(periods: seq<FiscalPeriod>, company: CompanyId, at: int, i: int) {
    0 <= i < |periods| && PeriodCovers(periods[i], company, at)
    && forall k :: 0 <= k < i ==> !PeriodCovers(periods[k], company, at)
  }

  lemma {:induction false} FirstDecides(periods: seq<FiscalPeriod>, company: CompanyId, at: int, i: int)
    requires FirstPeriod(periods, company, at, i)
    ensures PeriodOpen(periods, company, at) == periods[i].open
  {
    if i > 0 {
      assert !PeriodCovers(periods[0], company, at);
      FirstDecides(periods[1..], company, at, i - 1);
    }
  }

  lemma {:induction false} SomeFirst(periods: seq<FiscalPeriod>, company: CompanyId, at: int, r: FiscalPeriod)
    requires r in periods && PeriodCovers(r, company, at)
    ensures exists i :: FirstPeriod(periods, company, at, i)
  {
    if PeriodCovers(periods[0], company, at) {
      assert FirstPeriod(periods, company, at, 0);
    } else {
      SomeFirst(periods[1..], company, at, r);
      var i :| FirstPeriod(periods[1..], company, at, i);
      assert FirstPeriod(periods, company, at, i + 1);
    }
  }

  /** UNIQUE (tenant, company, starts_at) on the rows. */
  ghost predicate DistinctStarts(periods: seq<FiscalPeriod>) {
    forall u, v | u in periods && v in periods && u.company == v.company && u.startsAt == v.startsAt :: u == v
  }

  /** The period query answers with a latest covering row, and says closed when there is none. */
  lemma PeriodQuery(periods: seq<FiscalPeriod>, company: CompanyId, at: int)
    requires DistinctStarts(periods)
    ensures PeriodOpen(LatestFirst(periods, PeriodDate()), company, at) <==>
      exists r :: LatestPeriod(periods, company, at, r) && r.open
  {
    var sorted := LatestFirst(periods, PeriodDate());
    LatestFirstDescending(periods, PeriodDate());
    SameRows(periods, PeriodDate());
    hide LatestFirst;
    if r :| r in periods && PeriodCovers(r, company, at) {
      SomeFirst(sorted, company, at, r);
      var i :| FirstPeriod(sorted, company, at, i);
      FirstDecides(sorted, company, at, i);
      FirstIsLatest(periods, sorted, company, at, i);
    } else {
      NoneCovers(sorted, company, at);
    }
  }

  lemma FirstIsLatest(periods: seq<FiscalPeriod>, sorted: seq<FiscalPeriod>, company: CompanyId, at: int, i: int)
    requires Descending(sorted, PeriodDate()) && FirstPeriod(sorted, company, at, i) && DistinctStarts(periods)
    requires forall x :: x in sorted <==> x in periods
    ensures forall r :: LatestPeriod(periods, company, at, r) <==> r == sorted[i]
  {
    forall v | v in periods && PeriodCovers(v, company, at) ensures v.startsAt <= sorted[i].startsAt {
      var k :| 0 <= k < |sorted| && sorted[k] == v;
      assert PeriodDate()(sorted[i]) >= PeriodDate()(sorted[k]);
    }
    assert sorted[i] in periods;
    assert LatestPeriod(periods, company, at, sorted[i]);
  }

  /** The scan and the query differ exactly when the first and the latest covering rows differ in being open. */
  lemma PeriodLookupsDiffer(periods: seq<FiscalPeriod>, company: CompanyId, at: int)
    requires DistinctStarts(periods)
    ensures PeriodOpen(periods, company, at) != PeriodOpen(LatestFirst(periods, PeriodDate()), company, at) <==>
      exists i, r :: FirstPeriod(periods, company, at, i) && LatestPeriod(periods, company, at, r)
        && periods[i].open != r.open
  {
    PeriodQuery(periods, company, at);
    if i :| FirstPeriod(periods, company, at, i) {
      FirstDecides(periods, company, at, i);
    } else {
      forall v | v in periods ensures !PeriodCovers(v, company, at) {
        if PeriodCovers(v, company, at) {
          SomeFirst(periods, company, at, v);
        }
      }
      NoneCovers(periods, company, at);
    }
    LatestUnique(periods, company, at);
  }

  /** Under the unique constraint there is one latest covering row as soon as a row covers. */
  lemma LatestUnique(periods: seq<FiscalPeriod>, company: CompanyId, at: int)
    requires DistinctStarts(periods)
    ensures forall p, r :: LatestPeriod(periods, company, at, p) && LatestPeriod(periods, company, at, r) ==> p == r
    ensures (exists v :: v in periods && PeriodCovers(v, company, at)) ==>
      exists r :: LatestPeriod(periods, company, at, r)
  {
    if v :| v in periods && PeriodCovers(v, company, at) {
      var sorted := LatestFirst(periods, PeriodDate());
      LatestFirstDescending(periods, PeriodDate());
      SameRows(periods, PeriodDate());
      SomeFirst(sorted, company, at, v);
      var i :| FirstPeriod(sorted, company, at, i);
      FirstIsLatest(periods, sorted, company, at, i);
      assert LatestPeriod(periods, company, at, sorted[i]);
    }
  }

  /** An open period and a closed one that starts inside it: at 7 the scan says open and the query says closed. */
  lemma OverlapDisagrees(company: CompanyId)
    ensures var periods := [FiscalPeriod(company, 0, 10, true), FiscalPeriod(company, 5, 15, false)];
      && DistinctStarts(periods)
      && PeriodOpen(periods, company, 7) && !PeriodOpen(LatestFirst(periods, PeriodDate()), company, 7)
  {
    var p, q := FiscalPeriod(company, 0, 10, true), FiscalPeriod(company, 5, 15, false);
    assert [p, q][1..] == [q] && [q][1..] == [];
    assert LatestFirst([q], PeriodDate()) == [q];
    assert LatestFirst([p, q], PeriodDate()) == [q, p];
  }

  /** The rate query returns a latest applicable row, and nothing when there is none. */
  lemma RateQuery(rates: seq<TaxRate>, company: CompanyId, code: string, at: int)
    ensures match SelectedRate(LatestFirst(rates, RateDate()), company, code, at)
      case Some(r) => LatestRate(rates, company, code, at, r)
      case None => forall v :: v in rates ==> !RateApplies(v, company, code, at)
  {
    ScanIsLatest(LatestFirst(rates, RateDate()), company, code, at);
    SameRows(rates, RateDate());
  }

  /** Distinct dates and disjoint periods make the scans and the queries answer alike. */
  lemma LookupsAgree(rates: seq<TaxRate>, periods: seq<FiscalPeriod>, company: CompanyId, code: string, at: int)
    requires DistinctRates(rates) && DisjointPeriods(periods)
    ensures SelectedRate(LatestFirst(rates, RateDate()), company, code, at) == SelectedRate(rates, company, code, at)
    ensures PeriodOpen(LatestFirst(periods, PeriodDate()), company, at) == PeriodOpen(periods, company, at)
  {
    RateQuery(rates, company, code, at);
    ScanIsLatest(rates, company, code, at);
    if r :| LatestRate(rates, company, code, at, r) {
      RatesAgree(rates, company, code, at, r);
    }
    SameRows(periods, PeriodDate());
    PeriodsAgree(periods, company, at);
    PeriodsAgree(LatestFirst(periods, PeriodDate()), company, at);
    forall r ensures LatestPeriod(periods, company, at, r) <==>
      LatestPeriod(LatestFirst(periods, PeriodDate()), company, at, r)
    {
    }
  }
}
