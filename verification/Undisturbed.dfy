/**
 * What the commit of one transaction leaves to the others: reversals only add stock and only
 * lower exposure, and a sale stays within the locks it holds.
 */
module Undisturbed {
  import opened Basics
  import opened Sums
  import opened Model
  import opened Posting
  import opened Packets
  import opened Ledgers
  import opened CreditControl
  import opened Runs
  import opened Theorems
  import opened Concurrency
  import opened Serial
  import Finance

  /** The packet stays away from what the locks protect. */
  ghost predicate Respects(p: Packet, locks: set<Lock>) {
    var sale := p.books.sale;
    && KeyLock(p.claim) !in locks
    && (sale.recordType == SaleRecord ==>
      && CustomerLock(sale.scope.Entity(sale.customerId)) !in locks
      && forall m :: m in p.books.movements ==> StockLockOf(m.scope, m.productId) !in locks)
    && (p.reverses.Some? ==> SaleLock(p.reverses.value) !in locks)
    && RowsFree(p, locks)
  }

  lemma CommitRespects(md: Master, s: State, session: Session, p: Packet, others: set<Lock>)
    requires md.Valid() && Keyed(s) && Linked(md, s)
    requires SessionOk(md, s, session) && Prepare(s, session.tx) == Ok(p)
    requires session.locks !! others && RowsFree(p, others)
    ensures Respects(p, others)
  {
    hide Serve, AdmissionOf, Open, PostLines, Settle, OpenReversal, FindSale, Accepts, WithinCredit, StockOk, Keyed,
      Linked, Prepare, CompleteCommand.Normalized;
    var op := session.tx.op;
    CommitMatches(md, s, session, p);
    ServedPacket(Postgres, md, s, op, p);
    if op.CompleteOp? {
      SettlingCommits(md, s, session, p);
      var cmd := op.complete.Normalized();
      NormalizedScope(op.complete);
      assert p.books.sale.scope == cmd.scope;
      assert CustomerLock(cmd.scope.Entity(cmd.customerId)) in session.locks;
    } else {
      ReversingCommits(md, s, session, p);
      assert SaleLock(p.reverses.value) in session.locks;
    }
  }

  lemma SettlingDraft(md: Master, s: State, session: Session)
    requires md.Valid() && session.tx.Settling? && SessionOk(md, s, session)
    ensures session.tx.op.CompleteOp?
    ensures var cmd, books := session.tx.op.complete.Normalized(), session.tx.books;
      && books.sale.scope == cmd.scope && books.sale.customerId == cmd.customerId
      && books.movements == session.tx.draft.movements
      && forall m :: m in books.movements ==> m.scope == cmd.scope
  {
    hide Open, PostLines, AdmissionOf, Finance.Validates, HasId, CompleteCommand.Normalized, Settle;
    var tx, cmd := session.tx, session.tx.op.complete.Normalized();
    assert cmd.lines[..|cmd.lines|] == cmd.lines;
    HeldPositive(md, s, tx.op);
    DraftFacts(md, s.movements, cmd, tx.op.now, tx.op.ids, tx.begun, tx.draft);
    SettleRows(md, s, cmd, tx.op.now, tx.draft);
    hide GoodTotals, Configured;
  }

  lemma SettlingPacket(md: Master, s: State, tx: Tx, p: Packet)
    requires tx.op.CompleteOp? && Prepare(s, tx) == Ok(p)
    ensures tx.Settling? && p.reverses == None && p.books == tx.books
  {
    hide Finance.Validates, HasId, CompleteCommand.Normalized, Filter;
  }

  lemma SettlingCommits(md: Master, s: State, session: Session, p: Packet)
    requires md.Valid() && session.tx.op.CompleteOp?
    requires SessionOk(md, s, session) && Prepare(s, session.tx) == Ok(p)
    ensures session.tx.Settling? && p.reverses == None
    ensures var cmd := session.tx.op.complete.Normalized();
      && p.books.sale.scope == cmd.scope && p.books.sale.customerId == cmd.customerId
      && p.books.movements == session.tx.draft.movements
      && forall m :: m in p.books.movements ==> m.scope == cmd.scope
  {
    SettlingPacket(md, s, session.tx, p);
    hide Prepare, Record, MirrorBooks;
    SettlingDraft(md, s, session);
    hide SessionOk;
  }

  lemma ReversingCommits(md: Master, s: State, session: Session, p: Packet)
    requires Keyed(s) && Linked(md, s) && session.tx.op.ReverseOp?
    requires SessionOk(md, s, session) && Prepare(s, session.tx) == Ok(p)
    ensures p.books.sale.recordType == ReversalRecord && session.tx.Reversing?
    ensures p.reverses.Some? && SaleLock(p.reverses.value) in session.locks
  {
    hide Reverse, AdmissionOf, OpenReversal, FindSale, MirrorBooks, Record, ReversalPacket, Linked, Keyed;
    CommitMatches(md, s, session, p);
    ReversedPacket(md, s, session.tx.op, p);
    assert session.tx.Reversing?;
  }

  lemma ReversedPacket(md: Master, s: State, op: Op, p: Packet)
    requires Keyed(s) && Linked(md, s) && op.ReverseOp? && Serve(Postgres, md, s, op) == Accepted(p)
    ensures p.books.sale.recordType == ReversalRecord
    ensures p.reverses == Some(op.reverse.scope.Entity(op.reverse.saleId))
  {
    hide Reverse, SaleLinked, Cancels;
    ReversePacket(Postgres, md, s, op.reverse, op.now, op.ids, p);
  }

  // The reads of the others, on the state after the commit.

  lemma AdmissionKept(md: Master, s: State, p: Packet, op: Op)
    requires p.claim !in s.claims && (op.Claim() in s.claims || op.Claim() != p.claim)
    ensures AdmissionOf(md, Apply(s, p), op) == AdmissionOf(md, s, op)
  {
    hide CompleteCommand.Validate, ReverseCommand.Validate, ToUpper, TrimSpace;
  }

  /** A line posted on some stock is posted the same way on more stock. */
  lemma PostLineStable(md: Master, committed: seq<Movement>, committed': seq<Movement>, cmd: CompleteCommand, now: int,
                       d: Draft, requested: CommandLine)
    requires md.Valid() && requested.quantity > 0 && PostLine(md, committed, cmd, now, d, requested).Ok?
    requires var loc := Loc(cmd.scope, requested.productId);
      Available(committed' + d.movements, loc) >= Available(committed + d.movements, loc)
    requires var d' := PostLine(md, committed, cmd, now, d, requested).value;
      forall m :: m in d'.movements ==> !HasId(committed', MoveId(), m.id)
    ensures PostLine(md, committed', cmd, now, d, requested) == PostLine(md, committed, cmd, now, d, requested)
  {
    hide LineAmounts, AddTotals, Available, Sum;
    var _, _, m := PostLineShape(md, committed, cmd, now, d, requested);
    var d' := PostLine(md, committed, cmd, now, d, requested).value;
    assert d'.movements[|d.movements|] == m;
    NewId(committed, committed', d.movements, m.id);
  }

  lemma NewId(committed: seq<Movement>, committed': seq<Movement>, own: seq<Movement>, id: string)
    requires !HasId(committed + own, MoveId(), id) && !HasId(committed', MoveId(), id)
    ensures !HasId(committed' + own, MoveId(), id)
  {
    forall i | 0 <= i < |committed' + own| ensures MoveId()((committed' + own)[i]) != id {
      if i >= |committed'| {
        var j := i - |committed'|;
        assert (committed + own)[|committed| + j] == own[j];
      }
    }
  }

  /** More stock at the locations of the draft: the serial code would post the same lines. */
  lemma {:induction false} PostLinesStable(md: Master, committed: seq<Movement>, committed': seq<Movement>,
                                        cmd: CompleteCommand, now: int, begun: Draft, lines: seq<CommandLine>)
    requires md.Valid() && (forall line :: line in lines ==> line.quantity > 0)
    requires GoodDraft(md, cmd, begun) && begun.movements == []
    requires StockOk(committed) && StockOk(committed')
    requires PostLines(md, committed, cmd, now, begun, lines).Ok?
    requires var d := PostLines(md, committed, cmd, now, begun, lines).value;
      forall m :: m in d.movements ==>
        && !HasId(committed', MoveId(), m.id)
        && Sum(committed', AtLoc(Loc(cmd.scope, m.productId))) >= Sum(committed, AtLoc(Loc(cmd.scope, m.productId)))
    ensures PostLines(md, committed', cmd, now, begun, lines) == PostLines(md, committed, cmd, now, begun, lines)
  {
    hide PostLine, GoodDraft, HasId, Sum;
    if lines == [] {
    } else {
      var some, last := lines[..|lines| - 1], lines[|lines| - 1];
      var d := PostLines(md, committed, cmd, now, begun, some).value;
      PostLinesFacts(md, committed, cmd, now, begun, some);
      var _, _, m := PostLineShape(md, committed, cmd, now, d, last);
      var d' := PostLine(md, committed, cmd, now, d, last).value;
      assert forall x :: x in d.movements ==> x in d'.movements;
      PostLinesStable(md, committed, committed', cmd, now, begun, some);
      assert m in d'.movements;
      MoreAvailable(md, committed, committed', cmd, now, begun, some, Loc(cmd.scope, last.productId));
      PostLineStable(md, committed, committed', cmd, now, d, last);
    }
  }

  lemma MoreAvailable(md: Master, committed: seq<Movement>, committed': seq<Movement>, cmd: CompleteCommand, now: int,
                      begun: Draft, lines: seq<CommandLine>, loc: Loc)
    requires md.Valid() && (forall line :: line in lines ==> line.quantity > 0)
    requires GoodDraft(md, cmd, begun) && begun.movements == []
    requires StockOk(committed) && StockOk(committed')
    requires PostLines(md, committed, cmd, now, begun, lines).Ok?
    requires PostLines(md, committed', cmd, now, begun, lines) == PostLines(md, committed, cmd, now, begun, lines)
    requires Sum(committed', AtLoc(loc)) >= Sum(committed, AtLoc(loc))
    ensures var d := PostLines(md, committed, cmd, now, begun, lines).value;
      Available(committed' + d.movements, loc) >= Available(committed + d.movements, loc)
  {
    hide PostLines, GoodDraft, Sum;
    var d := PostLines(md, committed, cmd, now, begun, lines).value;
    assert committed + begun.movements == committed && committed' + begun.movements == committed';
    PostLinesStock(md, committed, cmd, now, begun, lines);
    PostLinesStock(md, committed', cmd, now, begun, lines);
    SumAppend(committed, d.movements, AtLoc(loc));
    SumAppend(committed', d.movements, AtLoc(loc));
  }

  /** Stock at a location whose lock another transaction holds only grows. */
  lemma LockedStockGrows(md: Master, s: State, p: Packet, locks: set<Lock>, loc: Loc)
    requires Accepts(md, s, p) && Respects(p, locks) && StockLockOf(loc.scope, loc.productId) in locks
    ensures Sum(Apply(s, p).movements, AtLoc(loc)) >= Sum(s.movements, AtLoc(loc))
  {
    hide Fresh, Cancels, GoodTotals, Configured, Settled, SaleEntries, RowsFree;
    SumAppend(s.movements, p.books.movements, AtLoc(loc));
    SumNonNegative(p.books.movements, AtLoc(loc));
  }

  /** Exposure of a customer whose lock another transaction holds only falls. */
  lemma LockedExposureFalls(md: Master, s: State, p: Packet, locks: set<Lock>, company: CompanyId, id: string)
    requires Accepts(md, s, p) && Respects(p, locks)
    requires CustomerLock(EntityId(company.tenant, company.company, id)) in locks
    ensures Sum(Apply(s, p).ledger, OwedBy(company, id)) <= Sum(s.ledger, OwedBy(company, id))
  {
    hide Cancels, GoodTotals, Configured, SaleEntries, RowsFree, IssuesLines;
    SumAppend(s.ledger, p.books.ledger, OwedBy(company, id));
    SumNonPositive(p.books.ledger, OwedBy(company, id));
  }

  /** A settlement computed at some exposure is the same at a lower one. */
  lemma SettleStable(ledger: seq<LedgerEntry>, ledger': seq<LedgerEntry>, payments: seq<Payment>,
                     payments': seq<Payment>, cmd: CompleteCommand, now: int, d: Draft)
    requires Settle(ledger, payments, cmd, now, d).Ok?
    requires var owed := Exposure(ledger', cmd.scope.Company(), d.customer.id);
      0 <= owed <= Exposure(ledger, cmd.scope.Company(), d.customer.id)
    requires var books := Settle(ledger, payments, cmd, now, d).value;
      && (forall e :: e in books.ledger ==> !HasId(ledger', EntryId(), e.id))
      && (forall q :: q in books.payments ==> !HasId(payments', PayId(), q.id))
    ensures Settle(ledger', payments', cmd, now, d) == Settle(ledger, payments, cmd, now, d)
  {
    hide Exposure, HasId, Finance.Validates, TaxEntries, SettleEntry;
    var books := Settle(ledger, payments, cmd, now, d).value;
    if cmd.kind == Credit {
      assert books.ledger[0] in books.ledger;
    } else {
      assert books.payments[0] in books.payments;
    }
  }

  lemma IdStillNew<T>(rows: seq<T>, added: seq<T>, id: T -> string, x: string)
    requires !HasId(rows, id, x) && forall r :: r in added ==> id(r) != x
    ensures !HasId(rows + added, id, x)
  {
    forall i | 0 <= i < |rows + added| ensures id((rows + added)[i]) != x {
      if i >= |rows| {
        assert (rows + added)[i] in added;
      }
    }
  }

  lemma IdStays<T>(rows: seq<T>, added: seq<T>, id: T -> string, x: string)
    ensures HasId(rows, id, x) ==> HasId(rows + added, id, x)
  {
    if i :| 0 <= i < |rows| && id(rows[i]) == x {
      assert (rows + added)[i] == rows[i];
    }
  }

  lemma {:induction false} DraftIdsNew(md: Master, committed: seq<Movement>, cmd: CompleteCommand, now: int,
                                       begun: Draft, lines: seq<CommandLine>)
    requires md.Valid() && (forall line :: line in lines ==> line.quantity > 0) && begun.movements == []
    requires PostLines(md, committed, cmd, now, begun, lines).Ok?
    ensures var d := PostLines(md, committed, cmd, now, begun, lines).value;
      forall m :: m in d.movements ==> !HasId(committed, MoveId(), m.id)
  {
    hide PostLine;
    if lines == [] {
    } else {
      var some := lines[..|lines| - 1];
      DraftIdsNew(md, committed, cmd, now, begun, some);
      var d := PostLines(md, committed, cmd, now, begun, some).value;
      var _, _, m := PostLineShape(md, committed, cmd, now, d, lines[|lines| - 1]);
      IdStays(committed, d.movements, MoveId(), m.id);
    }
  }

  // The invariants of an open transaction survive the commit of another one.

  lemma SellingKept(md: Master, s: State, p: Packet, op: Op, begun: Draft, posted: nat, draft: Draft, locks: set<Lock>)
    requires md.Valid() && StockOk(s.movements) && StockOk(Apply(s, p).movements)
    requires Accepts(md, s, p) && p.claim !in s.claims && Respects(p, locks)
    requires SellingAt(md, s, op, begun, posted, draft, locks)
    ensures SellingAt(md, Apply(s, p), op, begun, posted, draft, locks)
  {
    hide Accepts, Open, PostLines, StockOk, Sum, AdmissionOf;
    var cmd, s' := op.complete.Normalized(), Apply(s, p);
    assert posted <= |cmd.lines|;
    var lines := cmd.lines[..posted];
    AdmissionKept(md, s, p, op);
    HeldPositive(md, s, op);
    OpenFacts(md, cmd, op.now, op.ids);
    DraftIdsNew(md, s.movements, cmd, op.now, begun, lines);
    forall m | m in draft.movements
      ensures !HasId(s'.movements, MoveId(), m.id)
      ensures Sum(s'.movements, AtLoc(Loc(cmd.scope, m.productId)))
        >= Sum(s.movements, AtLoc(Loc(cmd.scope, m.productId)))
    {
      LockedStockGrows(md, s, p, locks, Loc(cmd.scope, m.productId));
      forall q | q in p.books.movements ensures MoveId()(q) != m.id {
        assert RowLock(MovementRows, q.id) !in locks;
      }
      IdStillNew(s.movements, p.books.movements, MoveId(), m.id);
    }
    PostLinesStable(md, s.movements, s'.movements, cmd, op.now, begun, lines);
  }

  lemma SettlingKept(md: Master, s: State, p: Packet, cmd: CompleteCommand, now: int, draft: Draft, books: Books,
                     locks: set<Lock>)
    requires WithinLimits(md, s) && WithinLimits(md, Apply(s, p))
    requires Accepts(md, s, p) && Respects(p, locks)
    requires CustomerLock(cmd.scope.Entity(cmd.customerId)) in locks && draft.customer.id == cmd.customerId
    requires Settle(s.ledger, s.payments, cmd, now, draft) == Ok(books) && RowsLocked(books, locks)
    ensures Settle(Apply(s, p).ledger, Apply(s, p).payments, cmd, now, draft) == Ok(books)
  {
    hide Accepts, Settle, Sum, Respects;
    var s', c, id := Apply(s, p), cmd.scope.Company(), cmd.customerId;
    LockedExposureFalls(md, s, p, locks, c, id);
    assert MayOwe(md, c, id, Sum(s.ledger, OwedBy(c, id))) && MayOwe(md, c, id, Sum(s'.ledger, OwedBy(c, id)));
    SettledIds(s, p, cmd, now, draft, books, locks);
    SettleStable(s.ledger, s'.ledger, s.payments, s'.payments, cmd, now, draft);
  }

  lemma SettledIds(s: State, p: Packet, cmd: CompleteCommand, now: int, draft: Draft, books: Books, locks: set<Lock>)
    requires Respects(p, locks)
    requires Settle(s.ledger, s.payments, cmd, now, draft) == Ok(books) && RowsLocked(books, locks)
    ensures forall e :: e in books.ledger ==> !HasId(Apply(s, p).ledger, EntryId(), e.id)
    ensures forall q :: q in books.payments ==> !HasId(Apply(s, p).payments, PayId(), q.id)
  {
    hide Exposure, Finance.Validates, HasId;
    forall e | e in books.ledger ensures !HasId(Apply(s, p).ledger, EntryId(), e.id) {
      forall r | r in p.books.ledger ensures EntryId()(r) != e.id {
        assert RowLock(LedgerRows, r.id) !in locks;
      }
      IdStillNew(s.ledger, p.books.ledger, EntryId(), e.id);
    }
    forall q | q in books.payments ensures !HasId(Apply(s, p).payments, PayId(), q.id) {
      forall r | r in p.books.payments ensures PayId()(r) != q.id {
        assert RowLock(PaymentRows, r.id) !in locks;
      }
      IdStillNew(s.payments, p.books.payments, PayId(), q.id);
    }
  }

  lemma ReversingKept(md: Master, s: State, p: Packet, op: Op, reversal: Sale, rest: seq<string>, done: nat,
                      origin: Origin, locks: set<Lock>)
    requires Keyed(s) && Fresh(s, p) && (p.reverses.Some? ==> p.reverses.value in s.sales) && Respects(p, locks)
    requires ReversingAt(md, s, op, reversal, rest, done, origin, locks)
    ensures ReversingAt(md, Apply(s, p), op, reversal, rest, done, origin, locks)
  {
    hide AdmissionOf, OpenReversal, OwnRows, ReadMovements, ReadJournals, ReadLedger, ReadPayments, Filter, Rows;
    var cmd, s' := op.reverse, Apply(s, p);
    var k := cmd.scope.Entity(cmd.saleId);
    AdmissionKept(md, s, p, op);
    SalesAfter(s, p);
    OpenReversalFacts(md, cmd, op.now, origin.sale, op.ids);
    ReadsKept(s, p, s.sales[k]);
    SameReads(Postgres, s, cmd.scope, s.sales[k].scope, s.sales[k].id);
    SameReads(Postgres, s', cmd.scope, s.sales[k].scope, s.sales[k].id);
  }

  lemma ReadsKept(s: State, p: Packet, sale: Sale)
    requires Fresh(s, p) && sale.Key() in s.sales && sale.recordType == SaleRecord
    ensures ReadMovements(Postgres, Apply(s, p), sale.scope, sale.id) == ReadMovements(Postgres, s, sale.scope, sale.id)
    ensures ReadJournals(Apply(s, p), sale.scope, sale.id) == ReadJournals(s, sale.scope, sale.id)
    ensures ReadLedger(Postgres, Apply(s, p), sale.scope, sale.id) == ReadLedger(Postgres, s, sale.scope, sale.id)
    ensures ReadPayments(Postgres, Apply(s, p), sale.scope, sale.id) == ReadPayments(Postgres, s, sale.scope, sale.id)
  {
    hide Rows, Filter, Fresh, Apply;
    RowsKept(s, p, sale);
  }

  lemma ReplayKept(md: Master, s: State, p: Packet, op: Op, answer: EntityId)
    requires p.claim !in s.claims && Replays(md, s, op, answer)
    ensures Replays(md, Apply(s, p), op, answer)
  {
    AdmissionClaimed(md, s, op);
    AdmissionKept(md, s, p, op);
  }

  lemma AdmissionClaimed(md: Master, s: State, op: Op)
    requires AdmissionOf(md, s, op).Replay?
    ensures op.Claim() in s.claims
  {
    hide CompleteCommand.Validate, ReverseCommand.Validate, ToUpper, TrimSpace;
  }

  /** The commit of one transaction leaves every other transaction's view as it was. */
  lemma SessionKept(md: Master, s: State, p: Packet, session: Session)
    requires md.Valid() && Keyed(s) && StockOk(s.movements) && StockOk(Apply(s, p).movements)
    requires WithinLimits(md, s) && WithinLimits(md, Apply(s, p))
    requires Accepts(md, s, p) && Respects(p, session.locks) && SessionOk(md, s, session)
    ensures SessionOk(md, Apply(s, p), session)
  {
    hide Accepts, Fresh, AdmissionOf, Open, PostLines, Settle, OpenReversal, FindSale, ReadSale, SellingAt, ReversingAt,
      Replays, StockOk, WithinLimits, RowsLocked, Apply, Keyed;
    AcceptsFresh(md, s, p);
    FreshClaim(s, p);
    match session.tx
    case Started(op) =>
    case Answered(op, answer) => ReplayKept(md, s, p, op, answer);
    case Replaying(op, answer, sale) =>
      ReplayKept(md, s, p, op, answer);
      SalesAfter(s, p);
    case Claimed(op) => AdmissionKept(md, s, p, op);
    case Selling(op, begun, posted, draft) => SellingKept(md, s, p, op, begun, posted, draft, session.locks);
    case Settling(op, begun, draft, books) =>
      SellingKept(md, s, p, op, begun, |op.complete.Normalized().lines|, draft, session.locks);
      SettlingCustomer(md, s, session);
      SettlingKept(md, s, p, op.complete.Normalized(), op.now, draft, books, session.locks);
    case Reversing(op, reversal, rest, done, origin) =>
      ReversingKept(md, s, p, op, reversal, rest, done, origin, session.locks);
  }

  lemma FreshClaim(s: State, p: Packet)
    requires Fresh(s, p)
    ensures p.claim !in s.claims
  {
  }

  lemma SettlingCustomer(md: Master, s: State, session: Session)
    requires md.Valid() && session.tx.Settling? && SessionOk(md, s, session)
    ensures var cmd := session.tx.op.complete.Normalized();
      session.tx.draft.customer.id == cmd.customerId && CustomerLock(cmd.scope.Entity(cmd.customerId)) in session.locks
  {
    hide Open, PostLines, Settle, AdmissionOf;
    var tx, cmd := session.tx, session.tx.op.complete.Normalized();
    assert cmd.lines[..|cmd.lines|] == cmd.lines;
    HeldPositive(md, s, tx.op);
    DraftFacts(md, s.movements, cmd, tx.op.now, tx.op.ids, tx.begun, tx.draft);
  }
}
