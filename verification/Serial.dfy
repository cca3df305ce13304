/**
 * Every interleaved run of PostgreSQL transactions ends in the state that running the committed
 * operations one after another, in commit order, would reach.
 */
module Serial {
  import opened Basics
  import opened Model
  import opened Posting
  import opened Packets
  import opened Theorems
  import opened Concurrency

  // What an open transaction may rely on, stated about the state that is committed NOW: running
  // the serial code again on that state would give exactly what the transaction holds.

  ghost predicate Holds(md: Master, s: State, op: Op, locks: set<Lock>) {
    AdmissionOf(md, s, op) == Acquired && KeyLock(op.Claim()) in locks
  }

  ghost predicate Replays(md: Master, s: State, op: Op, answer: EntityId) {
    AdmissionOf(md, s, op).Replay? && answer == OpScope(op).Entity(AdmissionOf(md, s, op).resultId)
  }

  ghost predicate SellingAt(md: Master, s: State, op: Op, begun: Draft, posted: nat, draft: Draft, locks: set<Lock>) {
    && op.CompleteOp?
    && var cmd := op.complete.Normalized();
    && Holds(md, s, op, locks)
    && Open(md, cmd, op.now, op.ids) == Ok(begun)
    && CustomerLock(cmd.scope.Entity(cmd.customerId)) in locks
    && posted <= |cmd.lines|
    && PostLines(md, s.movements, cmd, op.now, begun, cmd.lines[..posted]) == Ok(draft)
    && LinesLocked(cmd.scope, draft.movements, locks)
  }

  ghost predicate LinesLocked(scope: Scope, movements: seq<Movement>, locks: set<Lock>) {
    forall m :: m in movements ==> StockLockOf(scope, m.productId) in locks && RowLock(MovementRows, m.id) in locks
  }

  ghost predicate RowsLocked(books: Books, locks: set<Lock>) {
    && (forall e :: e in books.ledger ==> RowLock(LedgerRows, e.id) in locks)
    && (forall q :: q in books.payments ==> RowLock(PaymentRows, q.id) in locks)
  }

  ghost predicate ReversingAt(md: Master, s: State, op: Op, reversal: Sale, rest: seq<string>, done: nat,
                              origin: Origin, locks: set<Lock>)
  {
    && op.ReverseOp?
    && var cmd := op.reverse;
    && Holds(md, s, op, locks)
    && SaleLock(cmd.scope.Entity(cmd.saleId)) in locks
    && FindSale(Postgres, s, cmd.scope, cmd.saleId) == Ok(origin.sale)
    && OpenReversal(md, cmd, op.now, origin.sale, op.ids) == Ok((reversal, rest))
    && (done >= 1 ==> origin.movements == ReadMovements(Postgres, s, cmd.scope, origin.sale.id))
    && (done >= 2 ==> origin.journals == ReadJournals(s, cmd.scope, origin.sale.id))
    && (done >= 3 ==> origin.ledger == ReadLedger(Postgres, s, cmd.scope, origin.sale.id))
    && (done >= 4 ==> origin.payments == ReadPayments(Postgres, s, cmd.scope, origin.sale.id))
  }

  ghost predicate SessionOk(md: Master, s: State, session: Session) {
    match session.tx
    case Started(op) => true
    case Answered(op, answer) => Replays(md, s, op, answer)
    case Replaying(op, answer, sale) =>
      && Replays(md, s, op, answer) && SaleLock(answer) in session.locks
      && answer in s.sales && sale == ReadSale(Postgres, s.sales[answer])
    case Claimed(op) => Holds(md, s, op, session.locks)
    case Selling(op, begun, posted, draft) => SellingAt(md, s, op, begun, posted, draft, session.locks)
    case Settling(op, begun, draft, books) =>
      && op.CompleteOp?
      && var cmd := op.complete.Normalized();
      && SellingAt(md, s, op, begun, |cmd.lines|, draft, session.locks)
      && Settle(s.ledger, s.payments, cmd, op.now, draft) == Ok(books)
      && RowsLocked(books, session.locks)
    case Reversing(op, reversal, rest, done, origin) =>
      ReversingAt(md, s, op, reversal, rest, done, origin, session.locks)
  }

  // A transaction's own statements.

  lemma StatementKeeps(md: Master, s: State, session: Session, next: Tx)
    requires md.Valid() && SessionOk(md, s, session) && Advance(md, s, session.tx) == Ok(next)
    ensures SessionOk(md, s, Session(next, session.locks + Takes(session.tx, next)))
    ensures next.op == session.tx.op
  {
    hide Open, PostLine, PostLines, Settle, OpenReversal, ReadMovements, ReadJournals, ReadLedger, ReadPayments,
      AdmissionOf, ReadSale;
    match session.tx
    case Selling(op, begun, posted, draft) => SellingKeeps(md, s, session, next);
    case Claimed(op) => ClaimedKeeps(md, s, session, next);
    case _ =>
  }

  lemma ClaimedKeeps(md: Master, s: State, session: Session, next: Tx)
    requires md.Valid() && session.tx.Claimed? && SessionOk(md, s, session) && Advance(md, s, session.tx) == Ok(next)
    ensures SessionOk(md, s, Session(next, session.locks + Takes(session.tx, next)))
    ensures next.op == session.tx.op
  {
    hide Open, OpenReversal, AdmissionOf, ReadSale, PostLine;
    if session.tx.op.CompleteOp? {
      var op, cmd := session.tx.op, session.tx.op.complete.Normalized();
      HeldPositive(md, s, op);
      OpenFacts(md, cmd, op.now, op.ids);
      NormalizedScope(op.complete);
    } else {
      var op, cmd := session.tx.op, session.tx.op.reverse;
      var opening := OpenReversal(md, cmd, op.now, next.origin.sale, op.ids);
      assert opening == Ok((opening.value.0, opening.value.1));
      assert SaleLock(cmd.scope.Entity(cmd.saleId)) in Takes(session.tx, next);
    }
  }

  lemma LinePosted(md: Master, s: State, op: Op, begun: Draft, posted: nat, draft: Draft, locks: set<Lock>, next: Draft)
    requires md.Valid() && SellingAt(md, s, op, begun, posted, draft, locks)
    requires posted < |op.complete.Normalized().lines|
    requires PostLine(md, s.movements, op.complete.Normalized(), op.now, draft, op.complete.Normalized().lines[posted])
      == Ok(next)
    ensures next.movements != []
    ensures var last := next.movements[|next.movements| - 1];
      SellingAt(md, s, op, begun, posted + 1, next,
                locks + {StockLockOf(op.complete.scope, last.productId), RowLock(MovementRows, last.id)})
  {
    hide Open, PostLine, AdmissionOf, Settle, PostLines;
    var cmd := op.complete.Normalized();
    OneMore(md, s.movements, cmd, op.now, begun, cmd.lines, posted, draft);
    HeldPositive(md, s, op);
    var _, _, m := PostLineShape(md, s.movements, cmd, op.now, draft, cmd.lines[posted]);
    assert next.movements == draft.movements + [m];
  }

  lemma OneMore(md: Master, committed: seq<Movement>, cmd: CompleteCommand, now: int, begun: Draft,
                lines: seq<CommandLine>, n: nat, draft: Draft)
    requires n < |lines| && PostLines(md, committed, cmd, now, begun, lines[..n]) == Ok(draft)
    ensures PostLines(md, committed, cmd, now, begun, lines[..n + 1])
      == PostLine(md, committed, cmd, now, draft, lines[n])
  {
    hide PostLine;
    assert lines[..n + 1][..n] == lines[..n];
  }

  lemma SellingKeeps(md: Master, s: State, session: Session, next: Tx)
    requires md.Valid() && session.tx.Selling? && SessionOk(md, s, session) && Advance(md, s, session.tx) == Ok(next)
    ensures SessionOk(md, s, Session(next, session.locks + Takes(session.tx, next)))
    ensures next.op == session.tx.op
  {
    hide Open, Settle, PostLine, AdmissionOf, PostLines;
    var tx, cmd := session.tx, session.tx.op.complete.Normalized();
    if tx.posted < |cmd.lines| {
      LinePosted(md, s, tx.op, tx.begun, tx.posted, tx.draft, session.locks, next.draft);
      hide SellingAt;
    } else {
      assert cmd.lines[..tx.posted] == cmd.lines;
    }
  }

  lemma HeldPositive(md: Master, s: State, op: Op)
    requires op.CompleteOp? && AdmissionOf(md, s, op) == Acquired
    ensures var cmd := op.complete.Normalized();
      && cmd.Validate().Pass? && cmd.kind in {Cash, Credit}
      && forall line :: line in cmd.lines ==> line.quantity > 0
  {
    hide ToUpper, TrimSpace;
  }

  /** At commit, the serial code run now gives the packet the transaction has prepared. */
  lemma CommitMatches(md: Master, s: State, session: Session, p: Packet)
    requires SessionOk(md, s, session) && Prepare(s, session.tx) == Ok(p)
    ensures Serve(Postgres, md, s, session.tx.op) == Accepted(p)
  {
    hide Open, PostLines, Settle, OpenReversal, MirrorBooks, Record, ReadMovements, ReadJournals, ReadLedger,
      ReadPayments, AdmitComplete, AdmitReverse, CompleteCommand.Normalized, FindSale;
    match session.tx
    case Settling(op, begun, draft, books) =>
      var cmd := op.complete.Normalized();
      assert cmd.lines[..|cmd.lines|] == cmd.lines;
      NormalizedScope(op.complete);
    case Reversing(op, reversal, rest, done, origin) =>
      assert origin == Origin(origin.sale, origin.movements, origin.journals, origin.ledger, origin.payments);
    case _ =>
  }

  lemma NormalizedScope(cmd: CompleteCommand)
    ensures cmd.Normalized().scope == cmd.scope && cmd.Normalized().Claim() == cmd.Claim()
    ensures cmd.Normalized().customerId == cmd.customerId
  {
  }

  lemma ReplayMatches(md: Master, s: State, session: Session)
    requires session.tx.Replaying? && SessionOk(md, s, session)
    ensures Serve(Postgres, md, s, session.tx.op) == Replayed(session.tx.sale)
  {
    hide BuildSale, BuildReversal, AdmitComplete, AdmitReverse, ReadSale, ToUpper, TrimSpace;
  }
}
