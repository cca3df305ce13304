/** What an accepted reversal is made of, and when a reversal is accepted. */
module Returned {
  import opened Basics
  import opened Sums
  import opened Model
  import opened Posting
  import opened Packets
  import opened Ledgers
  import opened Reconciliation
  import opened Runs
  import opened Backends
  import opened Sold
  import opened Accepting
  import Finance
  import Lookups

  /** Rows as a backend reads them: as stored, or in the order of their identifiers. */
  ghost predicate ReadAs<T>(b: Backend, stored: seq<T>, id: T -> string, rows: seq<T>) {
    && multiset(rows) == multiset(stored)
    && (b == Memory ==> rows == stored)
    && (b == Postgres ==> Ascending(rows, id))
  }

  lemma RowsReadAs<T>(b: Backend, s: seq<T>, id: T -> string)
    ensures ReadAs(b, s, id, Rows(b, s, id))
  {
    SortAscending(s, id);
    hide SortById, LexLess;
  }

  // The copies.

  ghost predicate LinesCopied(lines: seq<Line>, ids: seq<string>, copies: seq<Line>) {
    && |copies| == |lines| <= |ids|
    && forall i :: 0 <= i < |lines| ==> copies[i] == lines[i].(id := ids[i])
  }

  /** What went out comes back in, under new identifiers, at the time of the reversal. */
  ghost predicate MovesReversed(rows: seq<Movement>, ids: seq<string>, saleId: string, now: int, copies: seq<Movement>)
  {
    && |copies| == |rows| <= |ids|
    && forall i :: 0 <= i < |rows| ==>
      && copies[i].quantity + rows[i].quantity == 0
      && copies[i] == Movement(ids[i], rows[i].scope, rows[i].productId, FromReversal, saleId, copies[i].quantity, now)
  }

  ghost predicate DebtsReversed(rows: seq<LedgerEntry>, ids: seq<string>, saleId: string, now: int,
                                copies: seq<LedgerEntry>)
  {
    && |copies| == |rows| <= |ids|
    && forall i :: 0 <= i < |rows| ==>
      && copies[i].amount + rows[i].amount == 0
      && copies[i] == LedgerEntry(ids[i], rows[i].company, rows[i].customerId, FromReversal, saleId, copies[i].amount,
                                  rows[i].currency, now)
  }

  ghost predicate PaymentsReversed(rows: seq<Payment>, ids: seq<string>, saleId: string, now: int, copies: seq<Payment>)
  {
    && |copies| == |rows| <= |ids|
    && forall i :: 0 <= i < |rows| ==>
      && copies[i].amount + rows[i].amount == 0
      && copies[i] == Payment(ids[i], rows[i].company, saleId, rows[i].accountId, rows[i].payMethod, copies[i].amount,
                              rows[i].currency, now)
  }

  /** Debits and credits change places, and every memo says so. */
  ghost predicate JournalReversed(j: Journal, id: string, saleId: string, now: int, r: Journal) {
    && r == Journal(id, j.company, FromReversal, saleId, j.currency, now, r.entries) && |r.entries| == |j.entries|
    && forall i :: 0 <= i < |j.entries| ==>
      r.entries[i] == JournalEntry(j.entries[i].accountId, j.entries[i].credit, j.entries[i].debit,
                                   "Reversal: " + j.entries[i].memo)
  }

  /** The rows of the sale that a reversal reads. */
  datatype SaleRows = SaleRows(lines: seq<Line>, moves: seq<Movement>, owed: seq<LedgerEntry>, paid: seq<Payment>)

  ghost predicate RowsRead(b: Backend, s: State, original: Sale, rows: SaleRows) {
    && ReadAs(b, original.lines, LineId(), rows.lines)
    && ReadAs(b, MovementsOf(s, original), MoveId(), rows.moves)
    && ReadAs(b, LedgerOf(s, original), EntryId(), rows.owed)
    && ReadAs(b, PaymentsOf(s, original), PayId(), rows.paid)
  }

  /** The reversal record repeats the sale, and says what it reverses, why, by whom and when. */
  ghost predicate ReversalHeaded(original: Sale, cmd: ReverseCommand, now: int, id: string, r: Sale) {
    r == Sale(id, original.scope, ReversalRecord, original.kind, Posted, original.customerId, original.currency,
              original.subtotal, original.tax, original.total, original.cogs, original.paymentMethod, original.id,
              TrimSpace(cmd.reason), cmd.actor, if cmd.correlationId == "" then id else cmd.correlationId, now, None,
              r.lines)
  }

  /** Everything an accepted reversal writes, with the identifiers in the order the generator hands them out. */
  ghost predicate ReversalWritten(s: State, original: Sale, cmd: ReverseCommand, now: int, ids: seq<string>,
                                  rows: SaleRows, p: Packet)
  {
    var n, m, k := |rows.lines|, |rows.moves|, |rows.owed| + |rows.paid|;
    && |ids| >= 4 + n + m + k && JournalsOf(s, original) != []
    && ReversalHeaded(original, cmd, now, ids[0], p.books.sale) && LinesCopied(rows.lines, ids[1..], p.books.sale.lines)
    && MovesReversed(rows.moves, ids[1 + n..], ids[0], now, p.books.movements)
    && JournalReversed(JournalsOf(s, original)[0], ids[1 + n + m], ids[0], now, p.books.journal)
    && DebtsReversed(rows.owed, ids[2 + n + m..], ids[0], now, p.books.ledger)
    && PaymentsReversed(rows.paid, ids[2 + n + m + |rows.owed|..], ids[0], now, p.books.payments)
    && EventsWritten(cmd.actor, "sale.reversed", original.id, now, ids[2 + n + m + k], ids[3 + n + m + k], p)
    && p.claim == ClaimId(cmd.scope.tenant, cmd.scope.company, "sales.reverse.v1", cmd.key)
    && p.hash == ReverseHash(cmd.scope, cmd.saleId, cmd.reason, cmd.actor)
  }

  /** The state after an accepted reversal: the sale is marked, and the reversal is added like a sale. */
  ghost predicate ReversalInstalled(s: State, k: EntityId, now: int, p: Packet, s': State)
    requires k in s.sales
  {
    var r, marked := p.books.sale, s.sales[k].(status := Reversed, reversedAt := Some(now));
    s' == State(s.sales[k := marked][EntityId(r.scope.tenant, r.scope.company, r.id) := r],
                s.movements + p.books.movements, s.ledger + p.books.ledger, s.payments + p.books.payments,
                s.journals + [p.books.journal], s.audits + [p.audit], s.outbox + [p.event],
                s.claims[p.claim := Claim(p.hash, r.id)])
  }

  // The stages.

  lemma OpeningStated(md: Master, cmd: ReverseCommand, now: int, original: Sale, ids: seq<string>)
    requires OpenReversal(md, cmd, now, original, ids).Ok?
    ensures var (r, rest) := OpenReversal(md, cmd, now, original, ids).value;
      && |ids| >= 1 + |original.lines| && rest == ids[1 + |original.lines|..]
      && ReversalHeaded(original, cmd, now, ids[0], r) && LinesCopied(original.lines, ids[1..], r.lines)
  {
    hide Lookups.PeriodOpen, TrimSpace;
  }

  lemma MovesStated(existing: seq<Movement>, rows: seq<Movement>, ids: seq<string>, saleId: string, now: int)
    requires Mirror(existing, rows, ids, MoveId(), ReverseMovement(saleId, now)).Ok?
    requires forall m :: m in rows ==> -MAX64 <= m.quantity
    ensures var (copies, rest) := Mirror(existing, rows, ids, MoveId(), ReverseMovement(saleId, now)).value;
      MovesReversed(rows, ids, saleId, now, copies) && rest == ids[|rows|..]
  {
    MirrorFacts(existing, rows, ids, MoveId(), ReverseMovement(saleId, now));
    hide Mirror;
  }

  lemma DebtsStated(existing: seq<LedgerEntry>, rows: seq<LedgerEntry>, ids: seq<string>, saleId: string, now: int)
    requires Mirror(existing, rows, ids, EntryId(), ReverseEntry(saleId, now)).Ok?
    requires forall e :: e in rows ==> -MAX64 <= e.amount
    ensures var (copies, rest) := Mirror(existing, rows, ids, EntryId(), ReverseEntry(saleId, now)).value;
      DebtsReversed(rows, ids, saleId, now, copies) && rest == ids[|rows|..]
  {
    MirrorFacts(existing, rows, ids, EntryId(), ReverseEntry(saleId, now));
    hide Mirror;
  }

  lemma PaymentsStated(existing: seq<Payment>, rows: seq<Payment>, ids: seq<string>, saleId: string, now: int)
    requires Mirror(existing, rows, ids, PayId(), ReversePayment(saleId, now)).Ok?
    requires forall q :: q in rows ==> -MAX64 <= q.amount
    ensures var (copies, rest) := Mirror(existing, rows, ids, PayId(), ReversePayment(saleId, now)).value;
      PaymentsReversed(rows, ids, saleId, now, copies) && rest == ids[|rows|..]
  {
    MirrorFacts(existing, rows, ids, PayId(), ReversePayment(saleId, now));
    hide Mirror;
  }

  lemma JournalStated(j: Journal, id: string, saleId: string, now: int)
    ensures JournalReversed(j, id, saleId, now, Finance.Reverse(j, id, FromReversal, saleId, now))
  {
  }

  /** No amount of a linked sale is the one int64 that has no opposite. */
  lemma HasOpposites(md: Master, s: State, original: Sale)
    requires original.recordType == SaleRecord && SaleLinked(md, s, original)
    ensures forall m :: m in MovementsOf(s, original) ==> -MAX64 <= m.quantity
    ensures forall e :: e in LedgerOf(s, original) ==> -MAX64 <= e.amount
    ensures forall q :: q in PaymentsOf(s, original) ==> -MAX64 <= q.amount
    ensures |MovementsOf(s, original)| == |original.lines| && |LedgerOf(s, original)| + |PaymentsOf(s, original)| == 1
    ensures |LedgerOf(s, original)| == if original.kind == Credit then 1 else 0
  {
    IssuesNegative(original, MovementsOf(s, original));
    PositiveTotal(original);
    hide GoodTotals, Configured, SaleEntries, MovementsOf, LedgerOf, PaymentsOf, JournalsOf;
  }

  lemma MirrorStated(md: Master, s: State, origin: Origin, r: Sale, now: int, ids: seq<string>)
    requires MirrorBooks(s, origin, r, now, ids).Ok?
    requires forall m :: m in origin.movements ==> -MAX64 <= m.quantity
    requires forall e :: e in origin.ledger ==> -MAX64 <= e.amount
    requires forall q :: q in origin.payments ==> -MAX64 <= q.amount
    ensures var books, m, e, q := MirrorBooks(s, origin, r, now, ids).value, |origin.movements|, |origin.ledger|,
                                  |origin.payments|;
      && |ids| >= 1 + m + e + q && books.ids == ids[1 + m + e + q..] && books.sale == r && origin.journals != []
      && MovesReversed(origin.movements, ids, r.id, now, books.movements)
      && JournalReversed(origin.journals[0], ids[m], r.id, now, books.journal)
      && DebtsReversed(origin.ledger, ids[1 + m..], r.id, now, books.ledger)
      && PaymentsReversed(origin.payments, ids[1 + m + e..], r.id, now, books.payments)
  {
    var moved := Mirror(s.movements, origin.movements, ids, MoveId(), ReverseMovement(r.id, now));
    MovesStated(s.movements, origin.movements, ids, r.id, now);
    var ids2 := moved.value.1[1..];
    JournalStated(origin.journals[0], moved.value.1[0], r.id, now);
    DebtsStated(s.ledger, origin.ledger, ids2, r.id, now);
    var owed := Mirror(s.ledger, origin.ledger, ids2, EntryId(), ReverseEntry(r.id, now));
    PaymentsStated(s.payments, origin.payments, owed.value.1, r.id, now);
    hide Finance.Validates, Mirror, MovesReversed, DebtsReversed, PaymentsReversed, JournalReversed, Finance.Reverse;
  }

  function RowsOf(b: Backend, s: State, scope: Scope, original: Sale): SaleRows {
    SaleRows(ReadSale(b, original).lines, ReadMovements(b, s, scope, original.id), ReadLedger(b, s, scope, original.id),
             ReadPayments(b, s, scope, original.id))
  }

  lemma SameRow(b: Backend, s: State, scope: Scope, original: Sale)
    requires original.recordType == SaleRecord && original.scope.Company() == scope.Company()
    ensures RowsRead(b, s, original, RowsOf(b, s, scope, original))
    ensures ReadJournals(s, scope, original.id) == JournalsOf(s, original)
  {
    hide Filter, SortById, LexLess;
    RowsReadAs(b, original.lines, LineId());
    RowsReadAs(b, MovementsOf(s, original), MoveId());
    RowsReadAs(b, LedgerOf(s, original), EntryId());
    RowsReadAs(b, PaymentsOf(s, original), PayId());
    hide Ascending, Rows;
  }

  lemma ReadsHaveOpposites(b: Backend, md: Master, s: State, original: Sale, rows: SaleRows)
    requires original.recordType == SaleRecord && SaleLinked(md, s, original) && RowsRead(b, s, original, rows)
    ensures forall m :: m in rows.moves ==> -MAX64 <= m.quantity
    ensures forall e :: e in rows.owed ==> -MAX64 <= e.amount
    ensures forall q :: q in rows.paid ==> -MAX64 <= q.amount
    ensures |rows.lines| == |rows.moves| == |original.lines| && |rows.owed| + |rows.paid| == 1
    ensures |rows.owed| == if original.kind == Credit then 1 else 0
  {
    HasOpposites(md, s, original);
    SameMembers(rows.lines, original.lines);
    SameMembers(rows.moves, MovementsOf(s, original));
    SameMembers(rows.owed, LedgerOf(s, original));
    SameMembers(rows.paid, PaymentsOf(s, original));
    hide SaleLinked, MovementsOf, LedgerOf, PaymentsOf, Ascending;
  }

  lemma SameMembers<T>(a: seq<T>, b: seq<T>)
    requires multiset(a) == multiset(b)
    ensures |a| == |b| && forall x :: x in a <==> x in b
  {
    assert |a| == |multiset(a)| && |b| == |multiset(b)|;
    forall x ensures x in a <==> x in b {
      assert x in multiset(a) <==> x in multiset(b);
    }
  }

  lemma ServedAsStored(b: Backend, md: Master, s: State, cmd: ReverseCommand, now: int, ids: seq<string>, p: Packet)
    requires Keyed(s) && Linked(md, s) && Reverse(b, md, s, cmd, now, ids) == Accepted(p)
    ensures var k := cmd.scope.Entity(cmd.saleId);
      && k in s.sales && s.sales[k].recordType == SaleRecord && s.sales[k].status == Posted
      && var rows := RowsOf(b, s, cmd.scope, s.sales[k]);
      && RowsRead(b, s, s.sales[k], rows) && ReversalWritten(s, s.sales[k], cmd, now, ids, rows, p)
      && p.reverses == Some(k) && p.now == now
  {
    hide OpenReversal, MirrorBooks, Record, Reverse, AdmitReverse, SaleLinked, ReadMovements, ReadJournals, ReadLedger,
      ReadPayments, JournalsOf, RowsRead, EventsWritten, LinesCopied, MovesReversed, DebtsReversed, PaymentsReversed,
      JournalReversed, ReversalWritten, Rows, TrimSpace;
    var read, r, rest, origin := ReverseStages(b, md, s, cmd, now, ids, p);
    var k := cmd.scope.Entity(cmd.saleId);
    var original := s.sales[k];
    assert original.Key() == k;
    OpenReversalFacts(md, cmd, now, read, ids);
    SameRow(b, s, cmd.scope, original);
    var rows := SaleRows(read.lines, origin.movements, origin.ledger, origin.payments);
    ReadsHaveOpposites(b, md, s, original, rows);
    OpeningStated(md, cmd, now, read, ids);
    MirrorStated(md, s, origin, r, now, rest);
    RecordStated(s, p, p.books.ids, cmd.actor, "sale.reversed", read.id, cmd.Claim(), cmd.Hash(),
                 Some(cmd.scope.Entity(read.id)), now);
    ReversalAssembled(s, original, read, cmd, now, ids, rows, p);
  }

  lemma ReversalAssembled(s: State, original: Sale, read: Sale, cmd: ReverseCommand, now: int, ids: seq<string>,
                          rows: SaleRows, p: Packet)
    requires read == original.(lines := rows.lines) && JournalsOf(s, original) != []
    requires |ids| >= 1 + |rows.lines| && ReversalHeaded(read, cmd, now, ids[0], p.books.sale)
    requires LinesCopied(rows.lines, ids[1..], p.books.sale.lines)
    requires var rest, m, e, q := ids[1 + |rows.lines|..], |rows.moves|, |rows.owed|, |rows.paid|;
      && |rest| >= 1 + m + e + q && p.books.ids == rest[1 + m + e + q..]
      && MovesReversed(rows.moves, rest, ids[0], now, p.books.movements)
      && JournalReversed(JournalsOf(s, original)[0], rest[m], ids[0], now, p.books.journal)
      && DebtsReversed(rows.owed, rest[1 + m..], ids[0], now, p.books.ledger)
      && PaymentsReversed(rows.paid, rest[1 + m + e..], ids[0], now, p.books.payments)
    requires |p.books.ids| >= 2
    requires EventsWritten(cmd.actor, "sale.reversed", original.id, now, p.books.ids[0], p.books.ids[1], p)
    requires p.claim == cmd.Claim() && p.hash == cmd.Hash()
    ensures ReversalWritten(s, original, cmd, now, ids, rows, p)
  {
    hide EventsWritten, JournalsOf, LinesCopied, MovesReversed, DebtsReversed, PaymentsReversed, JournalReversed;
    var n, m := |rows.lines|, |rows.moves|;
    assert ids[1 + n..][1 + m..] == ids[2 + n + m..];
    assert ids[1 + n..][1 + m + |rows.owed|..] == ids[2 + n + m + |rows.owed|..];
  }

  /**
   * An accepted reversal copies every row of the sale with the opposite sign, under new identifiers and at the time
   * of the reversal, marks the sale, and writes nothing else.
   */
  lemma ReversalAsStored(b: Backend, md: Master, s: State, cmd: ReverseCommand, now: int, ids: seq<string>, p: Packet)
    requires Keyed(s) && Linked(md, s) && Perform(b, md, s, ReverseOp(cmd, now, ids)) == Accepted(p)
    ensures var k := EntityId(cmd.scope.tenant, cmd.scope.company, cmd.saleId);
      && k in s.sales && s.sales[k].recordType == SaleRecord && s.sales[k].status == Posted
      && (exists rows :: RowsRead(b, s, s.sales[k], rows) && ReversalWritten(s, s.sales[k], cmd, now, ids, rows, p))
      && ReversalInstalled(s, k, now, p, After(s, Perform(b, md, s, ReverseOp(cmd, now, ids))))
  {
    PresentedLinks(b, md, s);
    hide Linked, Reverse, FitsBigint, Presented, RowsRead, ReversalWritten;
    assert Reverse(b, Presented(b, md), s, cmd, now, ids) == Accepted(p);
    ServedAsStored(b, Presented(b, md), s, cmd, now, ids, p);
  }

  // When a reversal is accepted.

  /** Copies get their identifiers exactly when there are enough, and all are new. */
  lemma {:induction false} MirrorsExactly<T>(existing: seq<T>, rows: seq<T>, ids: seq<string>, id: T -> string,
                                             copy: (T, string) -> T)
    requires forall x, i :: id(copy(x, i)) == i
    ensures Mirror(existing, rows, ids, id, copy).Ok? <==> |rows| <= |ids| && NewIds(existing, id, ids[..|rows|])
  {
    if rows == [] {
    } else {
      var n := |rows| - 1;
      MirrorsExactly(existing, rows[..n], ids, id, copy);
      if Mirror(existing, rows[..n], ids, id, copy).Ok? {
        MirrorFacts(existing, rows[..n], ids, id, copy);
        if n < |ids| {
          var copies := Mirror(existing, rows[..n], ids, id, copy).value.0;
          forall i | 0 <= i < n ensures id(copies[i]) == ids[i] {
            assert copies[i] == copy(rows[..n][i], ids[i]);
          }
          OneMoreId(existing, id, ids, n, copies);
        }
      } else if |rows| <= |ids| && NewIds(existing, id, ids[..|rows|]) {
        FewerIds(existing, id, ids, n);
      }
    }
  }

  ghost predicate NewIds<T>(existing: seq<T>, id: T -> string, ids: seq<string>) {
    && (forall i :: 0 <= i < |ids| ==> Unused(existing, id, ids[i]))
    && (forall i, j :: 0 <= i < j < |ids| ==> ids[i] != ids[j])
  }

  lemma FewerIds<T>(existing: seq<T>, id: T -> string, ids: seq<string>, n: nat)
    requires n < |ids| && NewIds(existing, id, ids[..n + 1])
    ensures NewIds(existing, id, ids[..n])
  {
    hide Unused;
    forall i | 0 <= i < n ensures Unused(existing, id, ids[..n][i]) {
      assert ids[..n + 1][i] == ids[i];
    }
    forall i, j | 0 <= i < j < n ensures ids[..n][i] != ids[..n][j] {
      assert ids[..n + 1][i] == ids[i] && ids[..n + 1][j] == ids[j];
    }
  }

  lemma OneMoreId<T>(existing: seq<T>, id: T -> string, ids: seq<string>, n: nat, copies: seq<T>)
    requires n < |ids| && |copies| == n && forall i :: 0 <= i < n ==> id(copies[i]) == ids[i]
    requires NewIds(existing, id, ids[..n])
    ensures HasId(existing + copies, id, ids[n]) <==> !NewIds(existing, id, ids[..n + 1])
  {
    var some, more := ids[..n], ids[..n + 1];
    if !HasId(existing + copies, id, ids[n]) {
      forall i | 0 <= i < |more| ensures Unused(existing, id, more[i]) {
        if i < n {
          assert some[i] == more[i];
        } else {
          forall k | 0 <= k < |existing| ensures id(existing[k]) != ids[n] {
            assert (existing + copies)[k] == existing[k];
          }
        }
      }
      forall i, j | 0 <= i < j < |more| ensures more[i] != more[j] {
        if j < n {
          assert some[i] == more[i] && some[j] == more[j];
        } else {
          assert (existing + copies)[|existing| + i] == copies[i];
        }
      }
    } else {
      var k :| 0 <= k < |existing + copies| && id((existing + copies)[k]) == ids[n];
      if k < |existing| {
        assert !Unused(existing, id, more[n]);
      } else {
        assert more[k - |existing|] == more[n];
      }
    }
  }

  /** The fields a command must fill in. */
  predicate FilledIn(cmd: ReverseCommand) {
    && !Blank(cmd.scope.tenant) && !Blank(cmd.scope.company) && !Blank(cmd.scope.branch) && !Blank(cmd.scope.warehouse)
    && !Blank(cmd.saleId) && !Blank(cmd.reason) && !Blank(cmd.actor) && !Blank(cmd.key)
  }

  /** The copies, the journal and the record are new; line copies need identifiers of any kind. */
  ghost predicate CopiesNew(s: State, original: Sale, ids: seq<string>) {
    var n := |original.lines|;
    && |ids| >= 5 + 2 * n && ids[0] != "" && ids[1 + 2 * n] != ""
    && NewIds(s.movements, MoveId(), ids[1 + n..1 + 2 * n])
    && (if original.kind == Credit then Unused(s.ledger, EntryId(), ids[2 + 2 * n])
        else Unused(s.payments, PayId(), ids[2 + 2 * n]))
    && Recordable(s, original.scope, ids[0], ids[1 + 2 * n], ids[3 + 2 * n..])
  }

  /** Everything an accepted reversal requires. */
  ghost predicate MayReverse(b: Backend, md: Master, s: State, cmd: ReverseCommand, now: int, ids: seq<string>) {
    var k := EntityId(cmd.scope.tenant, cmd.scope.company, cmd.saleId);
    && FilledIn(cmd) && Permission(cmd.scope, cmd.actor, "sales.reverse") in md.permissions
    && ClaimId(cmd.scope.tenant, cmd.scope.company, "sales.reverse.v1", cmd.key) !in s.claims
    && k in s.sales && s.sales[k].recordType == SaleRecord && s.sales[k].status == Posted
    && OpenPeriod(md, CompanyId(cmd.scope.tenant, cmd.scope.company), now)
    && CopiesNew(s, s.sales[k], ids)
    && (b == Postgres ==> s.sales[k].total + s.sales[k].cogs <= MAX64)
  }

  lemma ReverseAdmitsExactly(md: Master, s: State, cmd: ReverseCommand)
    ensures AdmitReverse(md, s.claims, cmd) == Acquired <==>
      && FilledIn(cmd) && Permission(cmd.scope, cmd.actor, "sales.reverse") in md.permissions
      && ClaimId(cmd.scope.tenant, cmd.scope.company, "sales.reverse.v1", cmd.key) !in s.claims
  {
    hide Blank;
  }

  lemma OpensReversalExactly(md: Master, cmd: ReverseCommand, now: int, original: Sale, ids: seq<string>)
    requires Lookups.DisjointPeriods(md.periods)
    ensures OpenReversal(md, cmd, now, original, ids).Ok? <==>
      && OpenPeriod(md, cmd.scope.Company(), now) && original.recordType == SaleRecord && original.status == Posted
      && |ids| >= 1 + |original.lines|
  {
    PeriodFound(md, cmd.scope.Company(), now);
    hide Lookups.PeriodOpen, OpenPeriod, Lookups.DisjointPeriods;
  }

  /** The reversed journal of a linked sale is always valid, given its identifiers. */
  lemma ReversedValidates(md: Master, s: State, original: Sale, id: string, saleId: string, now: int)
    requires original.recordType == SaleRecord && SaleLinked(md, s, original)
    requires Finance.Balanced(JournalsOf(s, original)[0])
    ensures var r := Finance.Reverse(JournalsOf(s, original)[0], id, FromReversal, saleId, now);
      && (Finance.Validates(r) <==> id != "" && saleId != "")
      && Sum(r.entries, Finance.Debits()) == Sum(r.entries, Finance.Credits()) == original.total + original.cogs
  {
    var j := JournalsOf(s, original)[0];
    var r := Finance.Reverse(j, id, FromReversal, saleId, now);
    SaleBalances(md, j, original);
    Finance.ReverseSwaps(j, id, FromReversal, saleId, now);
    Finance.ValidateExact(r);
    forall e | e in r.entries ensures Finance.OneSided(e) {
      var i :| 0 <= i < |r.entries| && r.entries[i] == e;
      assert Finance.OneSided(j.entries[i]);
    }
    hide GoodTotals, Configured, SaleEntries, JournalsOf, Sum, Settled, IssuesLines;
  }

  lemma OneMirrored<T>(existing: seq<T>, rows: seq<T>, ids: seq<string>, id: T -> string, copy: (T, string) -> T)
    requires |rows| <= 1 && forall x, i :: id(copy(x, i)) == i
    ensures Mirror(existing, rows, ids, id, copy).Ok? <==> rows == [] || (ids != [] && Unused(existing, id, ids[0]))
    ensures Mirror(existing, rows, ids, id, copy).Ok? ==> Mirror(existing, rows, ids, id, copy).value.1 == ids[|rows|..]
  {
    MirrorsExactly(existing, rows, ids, id, copy);
    if Mirror(existing, rows, ids, id, copy).Ok? {
      MirrorFacts(existing, rows, ids, id, copy);
    }
    hide Mirror;
  }

  lemma MovesMirrored(existing: seq<Movement>, rows: seq<Movement>, ids: seq<string>, saleId: string, now: int)
    ensures var moved := Mirror(existing, rows, ids, MoveId(), ReverseMovement(saleId, now));
      && (moved.Ok? <==> |rows| <= |ids| && NewIds(existing, MoveId(), ids[..|rows|]))
      && (moved.Ok? ==> moved.value.1 == ids[|rows|..])
  {
    MirrorsExactly(existing, rows, ids, MoveId(), ReverseMovement(saleId, now));
    if Mirror(existing, rows, ids, MoveId(), ReverseMovement(saleId, now)).Ok? {
      MirrorFacts(existing, rows, ids, MoveId(), ReverseMovement(saleId, now));
    }
    hide Mirror, NewIds;
  }

  /** All copies of a sale with one row for its customer or payment. */
  lemma CopiesExactly(s: State, origin: Origin, r: Sale, now: int, ids: seq<string>)
    requires origin.movements != [] && origin.journals != [] && |origin.ledger| + |origin.payments| == 1
    requires forall id :: Finance.Validates(Finance.Reverse(origin.journals[0], id, FromReversal, r.id, now)) <==>
      id != "" && r.id != ""
    ensures var m := |origin.movements|;
      MirrorBooks(s, origin, r, now, ids).Ok? <==>
        && |ids| >= 2 + m && NewIds(s.movements, MoveId(), ids[..m]) && ids[m] != "" && r.id != ""
        && (if origin.ledger != [] then Unused(s.ledger, EntryId(), ids[1 + m])
            else Unused(s.payments, PayId(), ids[1 + m]))
  {
    var m := |origin.movements|;
    MovesMirrored(s.movements, origin.movements, ids, r.id, now);
    if |ids| > m {
      var ids2 := ids[m + 1..];
      assert ids[m..][1..] == ids2;
      OneMirrored(s.ledger, origin.ledger, ids2, EntryId(), ReverseEntry(r.id, now));
      OneMirrored(s.payments, origin.payments, ids2[if |ids2| > 0 then |origin.ledger| else 0..], PayId(),
                  ReversePayment(r.id, now));
    }
    hide Mirror, NewIds, Unused, Finance.Validates, Finance.Reverse;
  }

  /** What is read of a linked sale can be copied exactly when the identifiers are new. */
  lemma LinkedCopies(b: Backend, md: Master, s: State, scope: Scope, original: Sale, r: Sale, now: int,
                     ids: seq<string>)
    requires original.recordType == SaleRecord && SaleLinked(md, s, original)
    requires original.scope.Company() == scope.Company() && Finance.Balanced(JournalsOf(s, original)[0])
    ensures var n, read := |original.lines|, ReadSale(b, original);
      var origin := Origin(read, ReadMovements(b, s, scope, original.id), ReadJournals(s, scope, original.id),
                           ReadLedger(b, s, scope, original.id), ReadPayments(b, s, scope, original.id));
      MirrorBooks(s, origin, r, now, ids).Ok? <==>
        && |ids| >= 2 + n && NewIds(s.movements, MoveId(), ids[..n]) && ids[n] != "" && r.id != ""
        && (if original.kind == Credit then Unused(s.ledger, EntryId(), ids[1 + n])
            else Unused(s.payments, PayId(), ids[1 + n]))
  {
    SameRow(b, s, scope, original);
    var rows := RowsOf(b, s, scope, original);
    ReadsHaveOpposites(b, md, s, original, rows);
    forall id ensures Finance.Validates(Finance.Reverse(JournalsOf(s, original)[0], id, FromReversal, r.id, now)) <==>
      id != "" && r.id != ""
    {
      ReversedValidates(md, s, original, id, r.id, now);
    }
    HasLines(md, s, original);
    hide MirrorBooks, SaleLinked, JournalsOf, ReadMovements, ReadJournals, ReadLedger, ReadPayments, NewIds, Unused,
      Finance.Validates, Finance.Reverse, RowsRead;
    CopiesExactly(s, Origin(ReadSale(b, original), rows.moves, ReadJournals(s, scope, original.id), rows.owed,
                  rows.paid), r, now, ids);
  }

  lemma HasLines(md: Master, s: State, original: Sale)
    requires SaleLinked(md, s, original)
    ensures original.lines != [] && JournalsOf(s, original) != []
  {
  }

  /** A reversal is built exactly when the sale is posted, a period is open and the identifiers are new. */
  lemma BuildsExactly(b: Backend, md: Master, s: State, cmd: ReverseCommand, now: int, ids: seq<string>)
    requires Keyed(s) && Linked(md, s) && Closed(s) && TrialBalance(s) && Lookups.DisjointPeriods(md.periods)
    ensures var k := cmd.scope.Entity(cmd.saleId);
      BuildReversal(b, md, s, cmd, now, ids).Ok? <==>
        && k in s.sales && s.sales[k].recordType == SaleRecord && s.sales[k].status == Posted
        && OpenPeriod(md, cmd.scope.Company(), now) && CopiesNew(s, s.sales[k], ids)
  {
    hide OpenReversal, MirrorBooks, Record, ReadMovements, ReadJournals, ReadLedger, ReadPayments, SaleLinked,
      CopiesNew, Lookups.DisjointPeriods, OpenPeriod, Finance.Balanced, Closed;
    var k := cmd.scope.Entity(cmd.saleId);
    if k in s.sales {
      var original, read := s.sales[k], ReadSale(b, s.sales[k]);
      ReadShape(b, original);
      OpensReversalExactly(md, cmd, now, read, ids);
      if OpenReversal(md, cmd, now, read, ids).Ok? {
        var (r, rest) := OpenReversal(md, cmd, now, read, ids).value;
        OpeningStated(md, cmd, now, read, ids);
        JournalBalanced(md, s, original);
        LinkedCopies(b, md, s, cmd.scope, original, r, now, rest);
        LinkedOrigin(b, md, s, cmd.scope, original);
        CopiesRecorded(md, s, cmd, now, ids, original, OriginOf(b, s, cmd.scope, original), r, rest);
      } else {
        FewIds(s, original, ids);
      }
    }
  }

  /** What a reversal reads of a sale. */
  function OriginOf(b: Backend, s: State, scope: Scope, original: Sale): Origin {
    Origin(ReadSale(b, original), ReadMovements(b, s, scope, original.id), ReadJournals(s, scope, original.id),
           ReadLedger(b, s, scope, original.id), ReadPayments(b, s, scope, original.id))
  }

  lemma LinkedOrigin(b: Backend, md: Master, s: State, scope: Scope, original: Sale)
    requires original.recordType == SaleRecord && SaleLinked(md, s, original)
      && original.scope.Company() == scope.Company()
    ensures var origin := OriginOf(b, s, scope, original);
      && Opposable(origin) && |origin.movements| == |original.lines| && |origin.ledger| + |origin.payments| == 1
      && origin.journals != [] && origin.journals[0].company == original.scope.Company()
  {
    SameRow(b, s, scope, original);
    ReadsHaveOpposites(b, md, s, original, RowsOf(b, s, scope, original));
    JournalOwner(md, s, original);
    hide ReadMovements, ReadJournals, ReadLedger, ReadPayments, JournalsOf, SaleLinked, RowsRead, ReadSale;
  }

  lemma ReadShape(b: Backend, original: Sale)
    ensures |ReadSale(b, original).lines| == |original.lines|
    ensures ReadSale(b, original) == original.(lines := ReadSale(b, original).lines)
  {
    assert |multiset(ReadSale(b, original).lines)| == |multiset(original.lines)|;
  }

  lemma FewIds(s: State, original: Sale, ids: seq<string>)
    ensures CopiesNew(s, original, ids) ==> |ids| >= 1 + |original.lines|
  {
  }

  lemma JournalBalanced(md: Master, s: State, original: Sale)
    requires SaleLinked(md, s, original) && TrialBalance(s)
    ensures Finance.Balanced(JournalsOf(s, original)[0])
  {
    FilterMember(s.journals, JournaledBy(original.scope.Company(), original.Source(), original.id),
                 JournalsOf(s, original)[0]);
    hide Finance.Balanced, Filter;
  }

  /** With the opening done, the rest is a matter of identifiers. */
  lemma CopiesRecorded(md: Master, s: State, cmd: ReverseCommand, now: int, ids: seq<string>, original: Sale,
                       origin: Origin, r: Sale, rest: seq<string>)
    requires Closed(s) && original.Key() in s.sales && s.sales[original.Key()] == original && original.status == Posted
    requires original.scope.Company() == cmd.scope.Company() && r.scope == original.scope
    requires |ids| >= 1 + |original.lines| && rest == ids[1 + |original.lines|..] && r.id == ids[0]
    requires Opposable(origin) && |origin.movements| == |original.lines| && |origin.ledger| + |origin.payments| == 1
    requires origin.journals != [] && origin.journals[0].company == original.scope.Company()
    requires var n := |original.lines|;
      MirrorBooks(s, origin, r, now, rest).Ok? <==>
        && |rest| >= 2 + n && NewIds(s.movements, MoveId(), rest[..n]) && rest[n] != "" && r.id != ""
        && (if original.kind == Credit then Unused(s.ledger, EntryId(), rest[1 + n])
            else Unused(s.payments, PayId(), rest[1 + n]))
    ensures CopiesNew(s, original, ids) <==>
      && MirrorBooks(s, origin, r, now, rest).Ok?
      && Record(s, MirrorBooks(s, origin, r, now, rest).value, cmd.actor, "sale.reversed", original.id, cmd.Claim(),
                cmd.Hash(), Some(cmd.scope.Entity(original.id)), now).Ok?
  {
    var n := |original.lines|;
    hide MirrorBooks, NewIds, Unused, Record, Closed;
    if |rest| >= n {
      assert rest[..n] == ids[1 + n..1 + 2 * n];
    }
    if MirrorBooks(s, origin, r, now, rest).Ok? {
      MirrorIdentified(md, s, origin, r, now, rest);
      RecordsExactly(s, MirrorBooks(s, origin, r, now, rest).value, cmd.actor, "sale.reversed", original.id,
                     cmd.Claim(), cmd.Hash(), Some(cmd.scope.Entity(original.id)), now);
      assert rest[2 + n..] == ids[3 + 2 * n..];
    }
  }

  ghost predicate Opposable(origin: Origin) {
    && (forall m :: m in origin.movements ==> -MAX64 <= m.quantity)
    && (forall e :: e in origin.ledger ==> -MAX64 <= e.amount)
    && (forall q :: q in origin.payments ==> -MAX64 <= q.amount)
  }

  lemma MirrorIdentified(md: Master, s: State, origin: Origin, r: Sale, now: int, ids: seq<string>)
    requires MirrorBooks(s, origin, r, now, ids).Ok? && Opposable(origin) && |origin.ledger| + |origin.payments| == 1
    ensures var books, m := MirrorBooks(s, origin, r, now, ids).value, |origin.movements|;
      && |ids| >= 2 + m && books.ids == ids[2 + m..] && books.sale == r && Finance.Validates(books.journal)
      && origin.journals != [] && books.journal.company == origin.journals[0].company
      && books.journal.source == FromReversal && books.journal.sourceId == r.id && books.journal.id == ids[m]
  {
    MirrorStated(md, s, origin, r, now, ids);
    MirrorValidates(s, origin, r, now, ids);
    hide MirrorBooks, MovesReversed, DebtsReversed, PaymentsReversed, Finance.Validates;
  }

  lemma MirrorValidates(s: State, origin: Origin, r: Sale, now: int, ids: seq<string>)
    requires MirrorBooks(s, origin, r, now, ids).Ok?
    ensures Finance.Validates(MirrorBooks(s, origin, r, now, ids).value.journal)
  {
    hide Finance.Validates, Mirror;
  }

  lemma JournalOwner(md: Master, s: State, original: Sale)
    requires SaleLinked(md, s, original) && original.recordType == SaleRecord
    ensures JournalsOf(s, original) != [] && JournalsOf(s, original)[0].company == original.scope.Company()
  {
    FilterMember(s.journals, JournaledBy(original.scope.Company(), original.Source(), original.id),
                 JournalsOf(s, original)[0]);
    hide Filter;
  }

  /** The original's total and cost decide whether the reversal's journal fits bigint. */
  lemma ReversalFits(b: Backend, md: Master, s: State, cmd: ReverseCommand, now: int, ids: seq<string>)
    requires md.Valid() && Keyed(s) && Linked(md, s)
    requires AdmitReverse(md, s.claims, cmd) == Acquired && BuildReversal(b, md, s, cmd, now, ids).Ok?
    ensures var p, k := BuildReversal(b, md, s, cmd, now, ids).value, cmd.scope.Entity(cmd.saleId);
      && k in s.sales && p.books.sale.total == s.sales[k].total && p.books.sale.cogs == s.sales[k].cogs
      && (FitsBigint(p.books.journal) <==> s.sales[k].total + s.sales[k].cogs <= MAX64)
  {
    var op, p := ReverseOp(cmd, now, ids), BuildReversal(b, md, s, cmd, now, ids).value;
    hide BuildReversal, AdmitReverse, Keyed, Linked, Accepts, Finance.Balanced, Sum;
    assert Serve(b, md, s, op) == Accepted(p);
    ServedPacket(b, md, s, op, p);
    ServedBalanced(b, md, s, op, p);
    EqualSides(p.books.journal);
  }

  /**
   * In a state that keeps the books, with periods that do not overlap, a reversal is accepted exactly when everything
   * it requires is met. On PostgreSQL the journal must also fit bigint.
   */
  lemma ReversalAcceptedExactly(b: Backend, md: Master, seeds: seq<Movement>, s: State, cmd: ReverseCommand, now: int,
                                ids: seq<string>)
    requires md.Valid() && GoodBooks(md, seeds, s)
    requires Lookups.DistinctRates(md.taxRates) && Lookups.DisjointPeriods(md.periods)
    ensures Perform(b, md, s, ReverseOp(cmd, now, ids)).Accepted? <==> MayReverse(b, md, s, cmd, now, ids)
  {
    hide GoodBooks, BuildReversal, CopiesNew, Keyed, Linked, Closed, TrialBalance, FitsBigint, Perform, AdmitReverse,
      Lookups.DistinctRates, Lookups.DisjointPeriods, OpenPeriod, FilledIn;
    BooksLinked(md, seeds, s);
    ReversedAlways(b, md, s, cmd, now, ids);
    ReverseAdmitsExactly(md, s, cmd);
    BuildsExactly(b, md, s, cmd, now, ids);
    if AdmitReverse(md, s.claims, cmd) == Acquired && BuildReversal(b, md, s, cmd, now, ids).Ok? {
      ReversalFits(b, md, s, cmd, now, ids);
    }
  }

  lemma ReversedAlways(b: Backend, md: Master, s: State, cmd: ReverseCommand, now: int, ids: seq<string>)
    requires Lookups.DistinctRates(md.taxRates) && Lookups.DisjointPeriods(md.periods)
    ensures Perform(b, md, s, ReverseOp(cmd, now, ids)).Accepted? <==>
      && AdmitReverse(md, s.claims, cmd) == Acquired && BuildReversal(b, md, s, cmd, now, ids).Ok?
      && (b == Postgres ==> FitsBigint(BuildReversal(b, md, s, cmd, now, ids).value.books.journal))
  {
    hide Lookups.DistinctRates, Lookups.DisjointPeriods;
    PerformedAlways(b, md, s, ReverseOp(cmd, now, ids));
    hide BuildSale, BuildReversal, AdmitComplete, AdmitReverse, FitsBigint, FindSale, CompleteCommand.Normalized,
      Perform;
  }
}
