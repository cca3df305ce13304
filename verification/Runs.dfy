/** Whole runs of the store: every reachable state keeps the books. */
module Runs {
  import opened Basics
  import opened Sums
  import opened Model
  import opened Posting
  import opened Packets
  import opened Ledgers
  import opened Stock
  import opened CreditControl
  import opened Reconciliation
  import opened Cancellation
  import opened Idempotency
  import Finance

  /** Receipts are seeded, and no seeded location is negative or leaves int64. */
  ghost predicate SeedsOk(seeds: seq<Movement>) {
    (forall m :: m in seeds ==> m.source.FromOther?) && StockOk(seeds)
  }

  /** The invariant of the store. */
  ghost predicate GoodBooks(md: Master, seeds: seq<Movement>, s: State) {
    && Keyed(s) && Closed(s) && Linked(md, s)
    && Conserved(seeds, s) && StockOk(s.movements)
    && ExposureIsOwed(s) && WithinLimits(md, s)
    && AllReconciled(md, s) && TrialBalance(s)
    && ReversalsCancel(s) && ReversedOnce(s)
    && ClaimsNameRecords(s) && OneClaimEach(s) && AllTold(s)
  }

  lemma BooksInitial(md: Master, seeds: seq<Movement>)
    requires SeedsOk(seeds)
    ensures GoodBooks(md, seeds, Initial(seeds))
  {
  }

  /** The guards of the books on the master data as a backend examines it. */
  lemma BooksPresented(b: Backend, md: Master, seeds: seq<Movement>, s: State)
    requires GoodBooks(md, seeds, s)
    ensures Keyed(s) && StockOk(s.movements) && Linked(Presented(b, md), s) && WithinLimits(Presented(b, md), s)
  {
    PresentedLinks(b, md, s);
    hide Linked, Closed, Conserved, StockOk, ExposureIsOwed, AllReconciled, TrialBalance, ReversalsCancel, ReversedOnce,
      ClaimsNameRecords, OneClaimEach, AllTold, Keyed;
    SameLimits(md, Presented(b, md), s);
  }

  lemma SameLimits(md: Master, md': Master, s: State)
    requires SameAccounts(md, md') && WithinLimits(md, s)
    ensures WithinLimits(md', s)
  {
  }

  // One accepted operation.

  /** Everything the invariants need to know about an accepted operation. */
  lemma ServedPacket(b: Backend, md: Master, s: State, op: Op, p: Packet)
    requires md.Valid() && Keyed(s) && Linked(md, s) && Serve(b, md, s, op) == Accepted(p)
    ensures Accepts(md, s, p)
    ensures op.CompleteOp? <==> p.books.sale.recordType == SaleRecord
    ensures p.claim == op.Claim() && p.hash == op.Hash()
    ensures op.CompleteOp? ==> WithinCredit(md, s.ledger, p.books.sale)
    ensures op.CompleteOp? && StockOk(s.movements) ==> StockOk(Apply(s, p).movements)
  {
    hide Complete, Reverse, SalePacket, ReversalPacket, WithinCredit;
    match op
    case CompleteOp(cmd, now, ids) =>
      CompletePacket(b, md, s, cmd, now, ids, p);
      CompleteGuards(b, md, s, cmd, now, ids, p);
      PacketKind(md, s, p);
    case ReverseOp(cmd, now, ids) =>
      ReversePacket(b, md, s, cmd, now, ids, p);
      PacketKind(md, s, p);
  }

  /** Accounts, products and posting rules are the same in whatever order rates and periods are examined. */
  ghost predicate SameAccounts(md: Master, md': Master) {
    md'.(taxRates := md.taxRates, periods := md.periods) == md
  }

  lemma {:induction false} SameEntries(md: Master, md': Master, scope: Scope, lines: seq<Line>)
    requires SameAccounts(md, md')
    ensures ProductEntries(md, scope, lines) == ProductEntries(md', scope, lines)
  {
    if lines == [] {
    } else {
      SameEntries(md, md', scope, lines[..|lines| - 1]);
    }
  }

  lemma SameLinks(md: Master, md': Master, s: State, sale: Sale)
    requires SameAccounts(md, md') && SaleLinked(md, s, sale)
    ensures SaleLinked(md', s, sale)
  {
    SameEntries(md, md', sale.scope, sale.lines);
    hide ProductEntries, GoodTotals, IssuesLines, MovementsOf, LedgerOf, PaymentsOf, JournalsOf;
  }

  lemma PresentedLinks(b: Backend, md: Master, s: State)
    ensures SameAccounts(md, Presented(b, md)) && (md.Valid() ==> Presented(b, md).Valid())
    ensures Linked(md, s) <==> Linked(Presented(b, md), s)
  {
    var md' := Presented(b, md);
    forall k | k in s.sales ensures SaleLinked(md, s, s.sales[k]) <==> SaleLinked(md', s, s.sales[k]) {
      if SaleLinked(md, s, s.sales[k]) {
        SameLinks(md, md', s, s.sales[k]);
      }
      if SaleLinked(md', s, s.sales[k]) {
        SameLinks(md', md, s, s.sales[k]);
      }
    }
    hide SaleLinked;
  }

  lemma SameAccepted(md: Master, md': Master, s: State, p: Packet)
    requires SameAccounts(md, md') && Accepts(md, s, p)
    ensures Accepts(md', s, p)
  {
    SameEntries(md, md', p.books.sale.scope, p.books.sale.lines);
    hide ProductEntries, GoodTotals, IssuesLines, Fresh, ReversalPacket;
  }

  lemma AcceptedPacket(b: Backend, md: Master, s: State, op: Op, p: Packet)
    requires md.Valid() && Keyed(s) && Linked(md, s) && Perform(b, md, s, op) == Accepted(p)
    ensures Serve(b, Presented(b, md), s, op) == Accepted(p) && (b == Postgres ==> FitsBigint(p.books.journal))
    ensures Accepts(md, s, p)
    ensures op.CompleteOp? <==> p.books.sale.recordType == SaleRecord
    ensures p.claim == op.Claim() && p.hash == op.Hash()
    ensures op.CompleteOp? ==> WithinCredit(md, s.ledger, p.books.sale)
    ensures op.CompleteOp? && StockOk(s.movements) ==> StockOk(Apply(s, p).movements)
  {
    hide Serve, FitsBigint, Accepts, Linked, StockOk;
    PresentedLinks(b, md, s);
    ServedPacket(b, Presented(b, md), s, op, p);
    SameAccepted(Presented(b, md), md, s, p);
  }

  lemma PacketKind(md: Master, s: State, p: Packet)
    ensures SalePacket(md, s, p) ==> p.books.sale.recordType == SaleRecord
    ensures ReversalPacket(s, p) ==> p.books.sale.recordType == ReversalRecord
  {
  }

  lemma AcceptsFresh(md: Master, s: State, p: Packet)
    requires Accepts(md, s, p)
    ensures Fresh(s, p) && (p.reverses.Some? ==> p.reverses.value in s.sales)
  {
  }

  /** A stored journal is balanced, at total plus cost, whichever operation built it. */
  lemma PacketBalanced(b: Backend, md: Master, s: State, op: Op, p: Packet)
    requires Linked(md, s) && Keyed(s) && Perform(b, md, s, op) == Accepted(p)
    requires Accepts(md, s, p) && (op.CompleteOp? <==> p.books.sale.recordType == SaleRecord)
    ensures Finance.Balanced(p.books.journal)
    ensures Sum(p.books.journal.entries, Finance.Debits()) == p.books.sale.total + p.books.sale.cogs
  {
    hide Serve, FitsBigint, Accepts, Linked, Finance.Balanced;
    PresentedLinks(b, md, s);
    SameAccepted(md, Presented(b, md), s, p);
    ServedBalanced(b, Presented(b, md), s, op, p);
  }

  lemma ServedBalanced(b: Backend, md: Master, s: State, op: Op, p: Packet)
    requires Linked(md, s) && Keyed(s) && Serve(b, md, s, op) == Accepted(p)
    requires Accepts(md, s, p) && (op.CompleteOp? <==> p.books.sale.recordType == SaleRecord)
    ensures Finance.Balanced(p.books.journal)
    ensures Sum(p.books.journal.entries, Finance.Debits()) == p.books.sale.total + p.books.sale.cogs
    ensures op.ReverseOp? ==>
      var k := OriginalKey(op.reverse);
      k in s.sales && p.books.sale.total == s.sales[k].total && p.books.sale.cogs == s.sales[k].cogs
  {
    hide Complete, Reverse, Record, MirrorBooks, OpenReversal, Settle, PostLines, Open, Finance.Validates,
      Finance.Balanced, ReversalPacket, AdmitComplete, AdmitReverse;
    match op
    case CompleteOp(cmd, now, ids) =>
      var begun, d := CompleteStages(b, md, s, cmd, now, ids, p);
      RecordValidates(s, p, cmd.actor, "sale.posted", cmd.key, cmd.Claim(), cmd.Normalized().Hash(), None, now);
      SaleBalances(md, p.books.journal, p.books.sale);
      Finance.ValidateExact(p.books.journal);
    case ReverseOp(cmd, now, ids) =>
      var read, reversal, rest, origin := ReverseStages(b, md, s, cmd, now, ids, p);
      RecordValidates(s, p, cmd.actor, "sale.reversed", read.id, cmd.Claim(), cmd.Hash(),
                      Some(cmd.scope.Entity(read.id)), now);
      OpenReversalFacts(md, cmd, now, read, ids);
      MirrorStages(s, origin, reversal, now, rest);
      var original := s.sales[cmd.scope.Entity(cmd.saleId)];
      SameReads(b, s, cmd.scope, original.scope, original.id);
      OriginBalanced(md, s, original, p.books.journal, reversal.id, now);
  }

  /** The sale a reversal names. */
  function OriginalKey(cmd: ReverseCommand): EntityId {
    EntityId(cmd.scope.tenant, cmd.scope.company, cmd.saleId)
  }

  /**
   * PostgreSQL accepts what it serves as long as total plus cost, which both sides of the journal add up to, stays
   * within bigint; beyond, it refuses. For a reversal these are the amounts of the sale it reverses.
   */
  lemma BigintDecides(md: Master, seeds: seq<Movement>, s: State, op: Op, p: Packet)
    requires md.Valid() && GoodBooks(md, seeds, s) && Serve(Postgres, Presented(Postgres, md), s, op) == Accepted(p)
    ensures Perform(Postgres, md, s, op)
      == if p.books.sale.total + p.books.sale.cogs <= MAX64 then Accepted(p) else Failed(MoneyOverflow)
    ensures op.ReverseOp? ==>
      var k := OriginalKey(op.reverse);
      k in s.sales && p.books.sale.total == s.sales[k].total && p.books.sale.cogs == s.sales[k].cogs
  {
    var md' := Presented(Postgres, md);
    PresentedLinks(Postgres, md, s);
    hide Serve, GoodBooks, Linked, Accepts, Finance.Balanced, Presented, Sum;
    BooksLinked(md, seeds, s);
    ServedPacket(Postgres, md', s, op, p);
    ServedBalanced(Postgres, md', s, op, p);
    EqualSides(p.books.journal);
  }

  lemma BooksLinked(md: Master, seeds: seq<Movement>, s: State)
    requires GoodBooks(md, seeds, s)
    ensures Keyed(s) && Linked(md, s) && Closed(s) && TrialBalance(s)
  {
  }

  lemma EqualSides(j: Journal)
    requires Finance.Balanced(j)
    ensures Sum(j.entries, Finance.Debits()) == Sum(j.entries, Finance.Credits())
  {
  }

  lemma RecordValidates(s: State, p: Packet, actor: string, eventType: string, causation: string,
                        claim: ClaimId, hash: Hash, reverses: Option<EntityId>, now: int)
    requires Record(s, p.books, actor, eventType, causation, claim, hash, reverses, now) == Ok(p)
    ensures Finance.Validates(p.books.journal)
  {
    hide Finance.Validates, HasId, Filter;
  }

  lemma OriginBalanced(md: Master, s: State, original: Sale, j: Journal, id: string, now: int)
    requires original.recordType == SaleRecord && SaleLinked(md, s, original)
    requires ReadJournals(s, original.scope, original.id) != []
    requires j == Finance.Reverse(ReadJournals(s, original.scope, original.id)[0], j.id, FromReversal, id, now)
    requires Finance.Validates(j)
    ensures Finance.Balanced(j) && Sum(j.entries, Finance.Debits()) == original.total + original.cogs
  {
    hide Finance.Validates, Finance.Balanced;
    var origin := ReadJournals(s, original.scope, original.id)[0];
    SaleBalances(md, origin, original);
    Finance.ReverseSwaps(origin, j.id, FromReversal, id, now);
    Finance.ValidateExact(j);
  }

  lemma MoneyStep(b: Backend, md: Master, seeds: seq<Movement>, s: State, op: Op, p: Packet)
    requires md.Valid() && SeedsOk(seeds) && GoodBooks(md, seeds, s) && Perform(b, md, s, op) == Accepted(p)
    requires Accepts(md, s, p) && (op.CompleteOp? <==> p.books.sale.recordType == SaleRecord)
    requires op.CompleteOp? ==> WithinCredit(md, s.ledger, p.books.sale) && StockOk(Apply(s, p).movements)
    requires Linked(md, Apply(s, p))
    ensures var s' := Apply(s, p);
      && Conserved(seeds, s') && StockOk(s'.movements) && ExposureIsOwed(s') && WithinLimits(md, s')
      && AllReconciled(md, s') && TrialBalance(s')
  {
    hide Perform, Apply, SalePacket, ReversalPacket, Linked, Conserved, StockOk, ExposureIsOwed, WithinLimits,
      WithinCredit, Reconciled, DisjointRoles, TrialBalance, Keyed, Closed, ReversalsCancel, ReversedOnce,
      ClaimsNameRecords, OneClaimEach, AllTold;
    var s' := Apply(s, p);
    if op.CompleteOp? {
      ConservedSale(md, seeds, s, p);
      OwedSale(md, s, p);
      LimitsSale(md, s, p);
      forall c | DisjointRoles(md, c) ensures Reconciled(md, s', c) { ReconciledSale(md, s, p, c); }
    } else {
      ConservedReversal(md, seeds, s, p);
      StockOkReversal(md, seeds, s, p);
      OwedReversal(md, s, p);
      LimitsReversal(md, s, p);
      forall c | DisjointRoles(md, c) ensures Reconciled(md, s', c) { ReconciledReversal(md, s, p, c); }
    }
    PacketBalanced(b, md, s, op, p);
    TrialBalanceStep(s, p);
  }

  lemma BooksStep(b: Backend, md: Master, seeds: seq<Movement>, s: State, op: Op)
    requires md.Valid() && SeedsOk(seeds) && GoodBooks(md, seeds, s)
    ensures GoodBooks(md, seeds, After(s, Perform(b, md, s, op)))
  {
    hide Perform, Apply, Accepts, Linked, Conserved, StockOk, ExposureIsOwed, WithinLimits, AllReconciled, TrialBalance,
      Keyed, Closed, ReversalsCancel, ReversedOnce, ClaimsNameRecords, OneClaimEach, AllTold, Fresh, SeedsOk,
      WithinCredit;
    if Perform(b, md, s, op).Accepted? {
      var p := Perform(b, md, s, op).packet;
      AcceptedPacket(b, md, s, op, p);
      AcceptsFresh(md, s, p);
      SalesAfter(s, p);
      ClosedStep(s, p);
      LinkedStep(md, s, p);
      MoneyStep(b, md, seeds, s, op, p);
      CancelStep(md, s, p);
      OnceStep(md, s, p);
      ClaimsStep(s, p);
      OneClaimStep(s, p);
      ToldStep(s, p);
    }
  }

  /** Every state a run reaches keeps the books. */
  lemma {:induction false} RunKeepsBooks(b: Backend, md: Master, seeds: seq<Movement>, s: State, ops: seq<Op>)
    requires md.Valid() && SeedsOk(seeds) && GoodBooks(md, seeds, s)
    ensures GoodBooks(md, seeds, Run(b, md, s, ops))
  {
    hide GoodBooks, Perform, SeedsOk, After;
    if ops == [] {
    } else {
      RunKeepsBooks(b, md, seeds, s, ops[..|ops| - 1]);
      BooksStep(b, md, seeds, Run(b, md, s, ops[..|ops| - 1]), ops[|ops| - 1]);
    }
  }
}
