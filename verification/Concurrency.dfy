/**
 * Interleaved PostgreSQL transactions at READ COMMITTED: each statement sees the latest committed
 * state, writes stay private until commit, and only locks keep transactions apart.
 */
module Concurrency {
  import opened Basics
  import opened Model
  import opened Posting
  import opened Theorems

  datatype Table = MovementRows | LedgerRows | PaymentRows

  datatype Lock =
    | KeyLock(claim: ClaimId)                                             // the inserted idempotency row
    | CustomerLock(customer: EntityId)                                    // FOR UPDATE on the account
    | StockLock(company: CompanyId, warehouse: string, productId: string) // pg_advisory_xact_lock
    | SaleLock(sale: EntityId)                                            // FOR UPDATE on the sale
    | RowLock(table: Table, id: string)                                   // an uncommitted unique index entry

  /** Where a transaction stands, with what it has read and privately written. */
  datatype Tx =
    | Started(op: Op)
    | Answered(op: Op, answer: EntityId)
    | Replaying(op: Op, answer: EntityId, sale: Sale)
    | Claimed(op: Op)
    | Selling(op: Op, begun: Draft, posted: nat, draft: Draft)
    | Settling(op: Op, begun: Draft, draft: Draft, books: Books)
    | Reversing(op: Op, reversal: Sale, rest: seq<string>, done: nat, origin: Origin)

  datatype Session = Session(tx: Tx, locks: set<Lock>)

  datatype Entry = Entry(op: Op, reply: Sale)

  /** The database: committed rows, open transactions, and what committed, in commit order. */
  datatype Db = Db(committed: State, sessions: map<nat, Session>, log: seq<Entry>)

  function StockLockOf(scope: Scope, productId: string): Lock {
    StockLock(scope.Company(), scope.warehouse, productId)
  }

  /** The next statement of a transaction on the current committed state. */
  function Advance(md: Master, s: State, tx: Tx): Result<Tx> {
    match tx
    case Started(op) =>
      (match AdmissionOf(md, s, op)
       case Rejected(e) => Err(e)
       case Replay(id) => Ok(Answered(op, OpScope(op).Entity(id)))
       case Acquired => Ok(Claimed(op)))
    case Answered(op, answer) =>
      if answer in s.sales then Ok(Replaying(op, answer, ReadSale(Postgres, s.sales[answer]))) else Err(NotFound)
    case Claimed(CompleteOp(command, now, ids)) =>
      var begun :- Open(md, command.Normalized(), now, ids);
      Ok(Selling(tx.op, begun, 0, begun))
    case Claimed(ReverseOp(cmd, now, ids)) =>
      var original :- FindSale(Postgres, s, cmd.scope, cmd.saleId);
      var (reversal, rest) :- OpenReversal(md, cmd, now, original, ids);
      Ok(Reversing(tx.op, reversal, rest, 0, Origin(original, [], [], [], [])))
    case Selling(CompleteOp(command, now, ids), begun, posted, draft) =>
      var cmd := command.Normalized();
      if posted < |cmd.lines| then
        var next :- PostLine(md, s.movements, cmd, now, draft, cmd.lines[posted]);
        Ok(Selling(tx.op, begun, posted + 1, next))
      else
        var books :- Settle(s.ledger, s.payments, cmd, now, draft);
        Ok(Settling(tx.op, begun, draft, books))
    case Reversing(ReverseOp(cmd, now, ids), reversal, rest, done, origin) =>
      var id := origin.sale.id;
      if done == 0 then Ok(tx.(done := 1, origin := origin.(movements := ReadMovements(Postgres, s, cmd.scope, id))))
      else if done == 1 then Ok(tx.(done := 2, origin := origin.(journals := ReadJournals(s, cmd.scope, id))))
      else if done == 2 then Ok(tx.(done := 3, origin := origin.(ledger := ReadLedger(Postgres, s, cmd.scope, id))))
      else if done == 3 then Ok(tx.(done := 4, origin := origin.(payments := ReadPayments(Postgres, s, cmd.scope, id))))
      else Err(Cancelled)
    case _ => Err(Cancelled)
  }

  /** The locks a statement takes before it returns. */
  function Takes(tx: Tx, next: Tx): set<Lock> {
    match next
    case Claimed(op) => {KeyLock(op.Claim())}
    case Replaying(_, answer, _) => {SaleLock(answer)}
    case Selling(CompleteOp(cmd, _, _), _, posted, draft) =>
      if posted == 0 then {CustomerLock(cmd.scope.Entity(cmd.customerId))}
      else if draft.movements == [] then {}
      else {StockLockOf(cmd.scope, draft.movements[|draft.movements| - 1].productId),
            RowLock(MovementRows, draft.movements[|draft.movements| - 1].id)}
    case Settling(_, _, _, books) =>
      (set e | e in books.ledger :: RowLock(LedgerRows, e.id))
        + (set q | q in books.payments :: RowLock(PaymentRows, q.id))
    case Reversing(ReverseOp(cmd, _, _), _, _, 0, _) => {SaleLock(cmd.scope.Entity(cmd.saleId))}
    case _ => {}
  }

  /** What a transaction that has done all its reads commits. */
  function Prepare(s: State, tx: Tx): Result<Packet> {
    match tx
    case Settling(CompleteOp(command, now, ids), _, _, books) =>
      var cmd := command.Normalized();
      Record(s, books, cmd.actor, "sale.posted", cmd.key, cmd.Claim(), cmd.Hash(), None, now)
    case Reversing(ReverseOp(cmd, now, ids), reversal, rest, 4, origin) =>
      var books :- MirrorBooks(s, origin, reversal, now, rest);
      Record(s, books, cmd.actor, "sale.reversed", origin.sale.id, cmd.Claim(), cmd.Hash(),
             Some(cmd.scope.Entity(origin.sale.id)), now)
    case _ => Err(Cancelled)
  }

  /** The unique index entries of a packet. */
  predicate RowsFree(p: Packet, locks: set<Lock>) {
    && (forall m :: m in p.books.movements ==> RowLock(MovementRows, m.id) !in locks)
    && (forall e :: e in p.books.ledger ==> RowLock(LedgerRows, e.id) !in locks)
    && (forall q :: q in p.books.payments ==> RowLock(PaymentRows, q.id) !in locks)
  }

  datatype Action = Begin(id: nat, op: Op) | Statement(id: nat) | Commit(id: nat) | Rollback(id: nat)

  predicate Free(db: Db, id: nat, locks: set<Lock>) {
    forall other :: other in db.sessions && other != id ==> db.sessions[other].locks !! locks
  }

  /** One action of one transaction; a blocked or impossible action changes nothing. */
  function Act(md: Master, db: Db, action: Action): Db {
    match action
    case Begin(id, op) =>
      if id in db.sessions then db else db.(sessions := db.sessions[id := Session(Started(op), {})])
    case Statement(id) =>
      if id !in db.sessions then db else
      var session := db.sessions[id];
      (match Advance(Presented(Postgres, md), db.committed, session.tx)
       case Ok(next) =>
         var locks := session.locks + Takes(session.tx, next);
         if Free(db, id, locks) then db.(sessions := db.sessions[id := Session(next, locks)]) else db
       case Err(_) => db.(sessions := db.sessions - {id}))
    case Commit(id) =>
      if id !in db.sessions then db else
      var tx := db.sessions[id].tx;
      if tx.Replaying? then db.(sessions := db.sessions - {id}, log := db.log + [Entry(tx.op, tx.sale)]) else
      (match Prepare(db.committed, tx)
       case Ok(p) =>
         if !FitsBigint(p.books.journal) then db.(sessions := db.sessions - {id})
         else if forall other :: other in db.sessions && other != id ==> RowsFree(p, db.sessions[other].locks)
         then Db(Apply(db.committed, p), db.sessions - {id}, db.log + [Entry(tx.op, p.books.sale)])
         else db
       case Err(_) => db.(sessions := db.sessions - {id}))
    case Rollback(id) => db.(sessions := db.sessions - {id})
  }

  function Interleave(md: Master, db: Db, actions: seq<Action>): Db {
    if actions == [] then db else
    Act(md, Interleave(md, db, actions[..|actions| - 1]), actions[|actions| - 1])
  }

  function Ops(log: seq<Entry>): seq<Op> {
    seq(|log|, i requires 0 <= i < |log| => log[i].op)
  }

  function Start(seeds: seq<Movement>): Db {
    Db(Initial(seeds), map[], [])
  }
}
