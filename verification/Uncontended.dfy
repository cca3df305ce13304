/**
 * A transaction that meets none of its own company commits, and answers what the serial operation answers: other
 * companies neither block it nor are touched by it.
 */
module Uncontended {
  import opened Basics
  import opened Model
  import opened Posting
  import opened Packets
  import opened Theorems
  import opened Concurrency
  import opened Serial
  import opened Interleaving
  import Finance
  import Lookups

  /** The database after an operation that met nobody. */
  function Ended(md: Master, db: Db, others: map<nat, Session>, op: Op): Db {
    var outcome := Perform(Postgres, md, db.committed, op);
    Db(After(db.committed, outcome), others,
       db.log + match outcome.Reply() case Ok(sale) => [Entry(op, sale)] case Err(_) => [])
  }

  /** All actions are of one transaction that is already open. */
  predicate OwnActions(actions: seq<Action>, id: nat) {
    forall a :: a in actions ==> a == Statement(id) || a == Commit(id)
  }

  /** How many statements a transaction has left. */
  function Left(tx: Tx): nat {
    match tx
    case Started(op) => 9 + Lines(op)
    case Answered(_, _) => 1
    case Replaying(_, _, _) => 0
    case Claimed(op) => 8 + Lines(op)
    case Selling(op, _, posted, _) => 1 + if posted <= Lines(op) then Lines(op) - posted else 0
    case Settling(_, _, _, _) => 0
    case Reversing(_, _, _, done, _) => if done <= 4 then 4 - done else 0
  }

  function Lines(op: Op): nat {
    if op.CompleteOp? then |op.complete.lines| else 0
  }

  predicate Staged(tx: Tx) {
    && (tx.Reversing? ==> tx.done <= 4 && tx.op.ReverseOp?)
    && (tx.Selling? ==> tx.op.CompleteOp? && tx.posted <= Lines(tx.op))
    && (tx.Settling? ==> tx.op.CompleteOp?)
  }

  lemma {:induction false} FirstAction(md: Master, db: Db, a: Action, rest: seq<Action>)
    ensures Interleave(md, db, [a] + rest) == Interleave(md, Act(md, db, a), rest)
  {
    hide Act;
    if rest == [] {
      assert [a] + rest == [a];
      assert [a][..0] == [];
    } else {
      assert ([a] + rest)[..|rest|] == [a] + rest[..|rest| - 1];
      FirstAction(md, db, a, rest[..|rest| - 1]);
    }
  }

  // Each statement.

  lemma StatementShortens(md: Master, s: State, tx: Tx)
    requires Staged(tx) && Advance(md, s, tx).Ok?
    ensures Staged(Advance(md, s, tx).value) && Left(Advance(md, s, tx).value) < Left(tx)
  {
    hide AdmissionOf, Open, OpenReversal, PostLine, Settle, ReadMovements, ReadJournals, ReadLedger, ReadPayments,
      FindSale, ToUpper, TrimSpace;
  }

  /** A statement that fails is a failure of the serial operation. */
  lemma StatementFails(md: Master, s: State, session: Session)
    requires Staged(session.tx) && SessionOk(md, s, session) && Left(session.tx) > 0 && Advance(md, s, session.tx).Err?
    ensures Serve(Postgres, md, s, session.tx.op).Failed?
  {
    hide Open, OpenReversal, PostLine, PostLines, Settle, Record, MirrorBooks, AdmitComplete, AdmitReverse,
      ReadMovements, ReadJournals, ReadLedger, ReadPayments, CompleteCommand.Validate, ToUpper, TrimSpace, ReadSale;
    match session.tx
    case Selling(op, begun, posted, draft) => SellingFails(md, s, session);
    case _ =>
  }

  lemma SellingFails(md: Master, s: State, session: Session)
    requires session.tx.Selling? && Staged(session.tx) && SessionOk(md, s, session) && Advance(md, s, session.tx).Err?
    ensures Serve(Postgres, md, s, session.tx.op).Failed?
  {
    hide Open, PostLine, PostLines, Settle, Record, AdmitComplete, FindSale, CompleteCommand.Validate, TrimSpace,
      ToUpper;
    var tx, cmd := session.tx, session.tx.op.complete.Normalized();
    if tx.posted < |cmd.lines| {
      StopsAt(md, s.movements, cmd, tx.op.now, tx.begun, tx.posted);
    } else {
      assert cmd.lines[..tx.posted] == cmd.lines;
    }
  }

  /** A commit that fails is one too. */
  lemma CommitFails(md: Master, s: State, session: Session)
    requires Staged(session.tx) && SessionOk(md, s, session) && Left(session.tx) == 0 && !session.tx.Replaying?
    requires Prepare(s, session.tx).Err?
    ensures Serve(Postgres, md, s, session.tx.op).Failed?
  {
    hide Open, OpenReversal, PostLines, Settle, Record, MirrorBooks, AdmitComplete, AdmitReverse, FindSale,
      ReadMovements, ReadJournals, ReadLedger, ReadPayments, CompleteCommand.Validate, ToUpper, TrimSpace;
    match session.tx
    case Settling(op, begun, draft, books) =>
      var cmd := op.complete.Normalized();
      assert cmd.lines[..|cmd.lines|] == cmd.lines;
    case Reversing(op, reversal, rest, done, origin) =>
      assert origin == Origin(origin.sale, origin.movements, origin.journals, origin.ledger, origin.payments);
    case _ =>
  }

  // Locks.

  /** A lock on something of the operation's own company, or on a new row of its own. */
  predicate Own(op: Op, lock: Lock) {
    var c := OpScope(op).Company();
    match lock
    case KeyLock(claim) => claim.tenant == c.tenant && claim.company == c.company
    case CustomerLock(k) => k.tenant == c.tenant && k.company == c.company
    case StockLock(company, _, _) => company == c
    case SaleLock(k) => k.tenant == c.tenant && k.company == c.company
    case RowLock(_, id) => id in op.ids
  }

  /** The other transactions hold nothing of the kind. */
  ghost predicate Apart(op: Op, others: map<nat, Session>) {
    forall o, lock :: o in others && lock in others[o].locks ==> !Own(op, lock)
  }

  ghost predicate OwnLocks(op: Op, locks: set<Lock>) {
    forall lock :: lock in locks ==> Own(op, lock)
  }

  /** All identifiers come from the operation's own. */
  ghost predicate Among(ids: seq<string>, all: seq<string>) {
    forall x :: x in ids ==> x in all
  }

  ghost predicate DraftAmong(d: Draft, all: seq<string>) {
    Among(d.ids, all) && forall m :: m in d.movements ==> m.id in all
  }

  ghost predicate BooksAmong(books: Books, all: seq<string>) {
    && (forall m :: m in books.movements ==> m.id in all)
    && (forall e :: e in books.ledger ==> e.id in all)
    && (forall q :: q in books.payments ==> q.id in all)
  }

  lemma {:induction false} LinesAmong(md: Master, committed: seq<Movement>, cmd: CompleteCommand, now: int,
                                      ids: seq<string>, begun: Draft, lines: seq<CommandLine>)
    requires Open(md, cmd, now, ids) == Ok(begun) && PostLines(md, committed, cmd, now, begun, lines).Ok?
    ensures DraftAmong(PostLines(md, committed, cmd, now, begun, lines).value, ids)
  {
    if lines == [] {
      hide Lookups.PeriodOpen;
    } else {
      LinesAmong(md, committed, cmd, now, ids, begun, lines[..|lines| - 1]);
      hide Open, PostLine;
      LineAmong(md, committed, cmd, now, PostLines(md, committed, cmd, now, begun, lines[..|lines| - 1]).value,
                lines[|lines| - 1]);
    }
  }

  lemma LineAmong(md: Master, committed: seq<Movement>, cmd: CompleteCommand, now: int, d: Draft,
                  requested: CommandLine)
    requires PostLine(md, committed, cmd, now, d, requested).Ok?
    ensures var d' := PostLine(md, committed, cmd, now, d, requested).value;
      && |d.ids| >= 2 && d'.ids == d.ids[2..]
      && exists m :: d'.movements == d.movements + [m] && m.id == d.ids[1]
  {
    hide HasId, Available, AddTotals, LineEntries, LineAmounts, Postable;
  }

  lemma SettleAmong(ledger: seq<LedgerEntry>, payments: seq<Payment>, cmd: CompleteCommand, now: int, d: Draft,
                    all: seq<string>)
    requires Settle(ledger, payments, cmd, now, d).Ok? && DraftAmong(d, all)
    ensures BooksAmong(Settle(ledger, payments, cmd, now, d).value, all)
  {
    hide HasId, Exposure, Finance.Validates, SettleEntry, TaxEntries;
  }

  lemma MirrorAmong(s: State, origin: Origin, r: Sale, now: int, ids: seq<string>)
    requires MirrorBooks(s, origin, r, now, ids).Ok?
    ensures BooksAmong(MirrorBooks(s, origin, r, now, ids).value, ids)
  {
    MirrorStages(s, origin, r, now, ids);
    var ids2 := AfterJournal(s, origin, r, now, ids);
    var ids3 := AfterLedger(s, origin, r, now, ids2);
    MirrorFacts(s.movements, origin.movements, ids, MoveId(), ReverseMovement(r.id, now));
    MirrorFacts(s.ledger, origin.ledger, ids2, EntryId(), ReverseEntry(r.id, now));
    MirrorFacts(s.payments, origin.payments, ids3, PayId(), ReversePayment(r.id, now));
    hide MirrorBooks, Mirror, Finance.Reverse;
  }

  /** Whatever a statement locks is the operation's own. */
  lemma TakesOwn(md: Master, s: State, session: Session, next: Tx)
    requires md.Valid() && SessionOk(md, s, session) && Advance(md, s, session.tx) == Ok(next)
    requires Staged(session.tx)
    ensures OwnLocks(session.tx.op, Takes(session.tx, next))
  {
    var op := session.tx.op;
    hide PostLine, PostLines, Settle, Open, OpenReversal, AdmissionOf, ReadMovements, ReadJournals, ReadLedger,
      ReadPayments, ReadSale, CompleteCommand.Normalized;
    match session.tx
    case Selling(_, begun, posted, draft) =>
      var cmd := op.complete.Normalized();
      NormalizedScope(op.complete);
      LinesAmong(md, s.movements, cmd, op.now, op.ids, begun, cmd.lines[..posted]);
      if posted < |cmd.lines| {
        LineAmong(md, s.movements, cmd, op.now, draft, cmd.lines[posted]);
      } else {
        SettleAmong(s.ledger, s.payments, cmd, op.now, draft, op.ids);
      }
    case _ =>
      ScopeOfClaim(op);
  }

  /** So is every row it stores. */
  lemma StoresOwn(md: Master, s: State, session: Session, p: Packet)
    requires Staged(session.tx) && SessionOk(md, s, session) && Prepare(s, session.tx) == Ok(p)
    ensures BooksAmong(p.books, session.tx.op.ids)
  {
    var op := session.tx.op;
    hide PostLines, Settle, Open, OpenReversal, AdmissionOf, Record, MirrorBooks, FindSale, ReadMovements, ReadJournals,
      ReadLedger, ReadPayments, CompleteCommand.Normalized;
    match session.tx
    case Settling(_, begun, draft, books) =>
      var cmd := op.complete.Normalized();
      LinesAmong(md, s.movements, cmd, op.now, op.ids, begun, cmd.lines[..|cmd.lines|]);
      SettleAmong(s.ledger, s.payments, cmd, op.now, draft, op.ids);
      RecordBooks(s, books, cmd.actor, "sale.posted", cmd.key, cmd.Claim(), cmd.Hash(), None, op.now);
    case Reversing(_, r, rest, done, origin) =>
      var cmd := op.reverse;
      MirrorAmong(s, origin, r, op.now, rest);
      RestAmong(md, cmd, op.now, origin.sale, op.ids);
      RecordBooks(s, MirrorBooks(s, origin, r, op.now, rest).value, cmd.actor, "sale.reversed", origin.sale.id,
                  cmd.Claim(), cmd.Hash(), Some(cmd.scope.Entity(origin.sale.id)), op.now);
    case _ =>
  }

  lemma RestAmong(md: Master, cmd: ReverseCommand, now: int, original: Sale, ids: seq<string>)
    requires OpenReversal(md, cmd, now, original, ids).Ok?
    ensures Among(OpenReversal(md, cmd, now, original, ids).value.1, ids)
  {
    hide Lookups.PeriodOpen, ReversalOf;
  }

  // The whole transaction.

  lemma ServedEnds(md: Master, db: Db, others: map<nat, Session>, op: Op)
    ensures var o := Serve(Postgres, Presented(Postgres, md), db.committed, op);
      && (o.Failed? ==> Ended(md, db, others, op) == db.(sessions := others))
      && (o.Replayed? ==> Ended(md, db, others, op) == db.(sessions := others, log := db.log + [Entry(op, o.sale)]))
      && (o.Accepted? && FitsBigint(o.packet.books.journal) ==>
          Ended(md, db, others, op)
            == Db(Apply(db.committed, o.packet), others, db.log + [Entry(op, o.packet.books.sale)]))
      && (o.Accepted? && !FitsBigint(o.packet.books.journal) ==> Ended(md, db, others, op) == db.(sessions := others))
  {
    hide Serve, FitsBigint, Presented, Apply;
    assert db.log + [] == db.log;
  }

  /** Where a transaction among others stands: it holds only locks of its own, and they hold none of those. */
  ghost predicate Met(md: Master, db: Db, others: map<nat, Session>, id: nat, session: Session) {
    && id !in others && db.sessions == others[id := session] && Staged(session.tx)
    && SessionOk(Presented(Postgres, md), db.committed, session)
    && OwnLocks(session.tx.op, session.locks) && Apart(session.tx.op, others)
  }

  lemma NobodyInTheWay(op: Op, others: map<nat, Session>, id: nat, books: Books, db: Db)
    requires Apart(op, others) && BooksAmong(books, op.ids) && id !in others
    requires forall other :: other in db.sessions && other != id ==>
      other in others && others[other] == db.sessions[other]
    ensures forall other :: other in db.sessions && other != id ==>
      && (forall m :: m in books.movements ==> RowLock(MovementRows, m.id) !in db.sessions[other].locks)
      && (forall e :: e in books.ledger ==> RowLock(LedgerRows, e.id) !in db.sessions[other].locks)
      && (forall q :: q in books.payments ==> RowLock(PaymentRows, q.id) !in db.sessions[other].locks)
  {
    assert forall t, x :: x in op.ids ==> Own(op, RowLock(t, x));
  }

  /** At the end of its statements the transaction commits, or fails as the serial operation does. */
  lemma LastCommits(md: Master, db: Db, others: map<nat, Session>, id: nat, session: Session)
    requires Met(md, db, others, id, session) && Left(session.tx) == 0
    ensures Act(md, db, Commit(id)) == Ended(md, db, others, session.tx.op)
  {
    var md' := Presented(Postgres, md);
    hide Serve, FitsBigint, Presented, Apply, Prepare, SessionOk, Ended, OwnLocks, Apart, BooksAmong;
    ServedEnds(md, db, others, session.tx.op);
    assert db.sessions - {id} == others;
    if session.tx.Replaying? {
      ReplayMatches(md', db.committed, session);
    } else if Prepare(db.committed, session.tx).Ok? {
      var p := Prepare(db.committed, session.tx).value;
      CommitMatches(md', db.committed, session, p);
      StoresOwn(md', db.committed, session, p);
      NobodyInTheWay(session.tx.op, others, id, p.books, db);
    } else {
      CommitFails(md', db.committed, session);
    }
  }

  lemma StatementTaken(md: Master, db: Db, others: map<nat, Session>, id: nat, session: Session, next: Tx)
    requires md.Valid() && Met(md, db, others, id, session)
    requires Advance(Presented(Postgres, md), db.committed, session.tx) == Ok(next) && next.op == session.tx.op
    ensures var session' := Session(next, session.locks + Takes(session.tx, next));
      && Act(md, db, Statement(id)) == db.(sessions := others[id := session'])
      && OwnLocks(next.op, session'.locks)
  {
    hide Advance, Presented, Takes, SessionOk, OwnLocks, Apart, Free;
    PresentedValid(md);
    TakesOwn(Presented(Postgres, md), db.committed, session, next);
    OwnFree(session.tx.op, db, others, id, session.locks, Takes(session.tx, next));
    assert db.sessions[id := Session(next, session.locks + Takes(session.tx, next))]
        == others[id := Session(next, session.locks + Takes(session.tx, next))];
  }

  lemma OwnFree(op: Op, db: Db, others: map<nat, Session>, id: nat, held: set<Lock>, taken: set<Lock>)
    requires OwnLocks(op, held) && OwnLocks(op, taken) && Apart(op, others)
    requires forall other :: other in db.sessions && other != id ==>
      other in others && others[other] == db.sessions[other]
    ensures OwnLocks(op, held + taken) && Free(db, id, held + taken)
  {
    hide Own;
  }

  /** An open transaction can finish, and its answer and effect are those of the serial operation. */
  lemma {:induction false} AloneFinishes(md: Master, db: Db, others: map<nat, Session>, id: nat, session: Session)
    requires md.Valid() && Met(md, db, others, id, session)
    ensures exists actions ::
      OwnActions(actions, id) && Interleave(md, db, actions) == Ended(md, db, others, session.tx.op)
    decreases Left(session.tx)
  {
    var md', op := Presented(Postgres, md), session.tx.op;
    hide Serve, FitsBigint, Presented, Advance, SessionOk, Staged, Left, Ended, Takes, OwnLocks, Apart;
    var a := if Left(session.tx) == 0 then Commit(id) else Statement(id);
    if Left(session.tx) == 0 {
      LastCommits(md, db, others, id, session);
      FirstAction(md, db, a, []);
      assert Interleave(md, db, [a] + []) == Ended(md, db, others, op) && OwnActions([a] + [], id);
    } else if Advance(md', db.committed, session.tx).Err? {
      StatementFails(md', db.committed, session);
      ServedEnds(md, db, others, op);
      assert db.sessions - {id} == others;
      FirstAction(md, db, a, []);
      assert Interleave(md, db, [a] + []) == Ended(md, db, others, op) && OwnActions([a] + [], id);
    } else {
      var next := Advance(md', db.committed, session.tx).value;
      var session' := Session(next, session.locks + Takes(session.tx, next));
      PresentedValid(md);
      StatementKeeps(md', db.committed, session, next);
      StatementShortens(md', db.committed, session.tx);
      var db' := db.(sessions := others[id := session']);
      StatementTaken(md, db, others, id, session, next);
      AloneFinishes(md, db', others, id, session');
      var rest :| OwnActions(rest, id) && Interleave(md, db', rest) == Ended(md, db', others, op);
      FirstAction(md, db, a, rest);
      SameEnd(md, db, db', others, op);
      assert OwnActions([a] + rest, id);
    }
  }

  lemma SameEnd(md: Master, db: Db, db': Db, others: map<nat, Session>, op: Op)
    requires db'.committed == db.committed && db'.log == db.log
    ensures Ended(md, db', others, op) == Ended(md, db, others, op)
  {
  }

  /**
   * An operation that begins while the open transactions hold no locks of its company and none of its identifiers can
   * run to its end, and then has stored and answered exactly what the serial operation stores and answers; the others
   * are where they were.
   */
  lemma AloneCommits(md: Master, db: Db, id: nat, op: Op)
    requires md.Valid() && id !in db.sessions && Apart(op, db.sessions)
    ensures exists actions ::
      OwnActions(actions, id) && Interleave(md, db, [Begin(id, op)] + actions) == Ended(md, db, db.sessions, op)
  {
    var session := Session(Started(op), {});
    var db' := db.(sessions := db.sessions[id := session]);
    hide Ended, Interleave, Apart, Presented;
    assert Act(md, db, Begin(id, op)) == db';
    assert Met(md, db', db.sessions, id, session);
    AloneFinishes(md, db', db.sessions, id, session);
    var actions :| OwnActions(actions, id) && Interleave(md, db', actions) == Ended(md, db', db.sessions, op);
    FirstAction(md, db, Begin(id, op), actions);
    SameEnd(md, db, db', db.sessions, op);
  }
}
