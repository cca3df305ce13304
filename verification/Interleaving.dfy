/** Commit-order refinement: interleaved transactions against the serial store. */
module Interleaving {
  import opened Basics
  import opened Model
  import opened Posting
  import opened Packets
  import opened Ledgers
  import opened CreditControl
  import opened Runs
  import opened Concurrency
  import opened Serial
  import opened Undisturbed

  /** The serial store answers every committed operation as the transaction was answered. */
  ghost predicate Faithful(md: Master, seeds: seq<Movement>, log: seq<Entry>) {
    forall i :: 0 <= i < |log| ==>
      Perform(Postgres, md, Run(Postgres, md, Initial(seeds), Ops(log[..i])), log[i].op).Reply() == Ok(log[i].reply)
  }

  ghost predicate SessionsOk(md: Master, db: Db) {
    && (forall id :: id in db.sessions ==> SessionOk(Presented(Postgres, md), db.committed, db.sessions[id]))
    && (forall i, j :: i in db.sessions && j in db.sessions && i != j ==> db.sessions[i].locks !! db.sessions[j].locks)
  }

  ghost predicate Serialized(md: Master, seeds: seq<Movement>, db: Db) {
    && db.committed == Run(Postgres, md, Initial(seeds), Ops(db.log))
    && Faithful(md, seeds, db.log)
  }

  lemma CommittedBooks(md: Master, seeds: seq<Movement>, db: Db)
    requires md.Valid() && SeedsOk(seeds) && Serialized(md, seeds, db)
    ensures GoodBooks(md, seeds, db.committed)
  {
    hide GoodBooks, Run, Faithful, SeedsOk;
    BooksInitial(md, seeds);
    RunKeepsBooks(Postgres, md, seeds, Initial(seeds), Ops(db.log));
  }

  lemma BooksGuards(md: Master, seeds: seq<Movement>, s: State)
    requires GoodBooks(md, seeds, s)
    ensures Keyed(s) && StockOk(s.movements)
    ensures Linked(Presented(Postgres, md), s) && WithinLimits(Presented(Postgres, md), s)
  {
    BooksPresented(Postgres, md, seeds, s);
    hide GoodBooks, Linked, WithinLimits, Presented, Keyed, StockOk;
  }

  /** Appending a committed entry to the log is one more operation of the serial run. */
  lemma LogGrows(md: Master, seeds: seq<Movement>, db: Db, e: Entry, after: State)
    requires Serialized(md, seeds, db)
    requires Perform(Postgres, md, db.committed, e.op).Reply() == Ok(e.reply)
    requires after == After(db.committed, Perform(Postgres, md, db.committed, e.op))
    ensures Serialized(md, seeds, db.(committed := after, log := db.log + [e]))
  {
    hide Perform, After;
    var log := db.log + [e];
    assert Ops(log)[..|db.log|] == Ops(db.log);
    forall i | 0 <= i < |log|
      ensures Perform(Postgres, md, Run(Postgres, md, Initial(seeds), Ops(log[..i])), log[i].op).Reply()
        == Ok(log[i].reply)
    {
      if i < |db.log| {
        assert log[..i] == db.log[..i];
      } else {
        assert log[..i] == db.log;
      }
    }
  }

  lemma PresentedValid(md: Master)
    requires md.Valid()
    ensures Presented(Postgres, md).Valid()
  {
  }

  /** What the serial operation answers, given what it answers on the master data as PostgreSQL examines it. */
  lemma PerformServes(b: Backend, md: Master, s: State, op: Op)
    ensures var o := Serve(b, Presented(b, md), s, op);
      Perform(b, md, s, op) == o || (b == Postgres && o.Accepted? && !FitsBigint(o.packet.books.journal))
  {
    hide Serve, FitsBigint;
  }

  lemma StatementOk(md: Master, db: Db, id: nat)
    requires md.Valid() && SessionsOk(md, db)
    ensures SessionsOk(md, Act(md, db, Statement(id)))
    ensures Act(md, db, Statement(id)).committed == db.committed && Act(md, db, Statement(id)).log == db.log
  {
    hide Advance, SessionOk, Takes, Presented;
    var md' := Presented(Postgres, md);
    PresentedValid(md);
    if id in db.sessions && Advance(md', db.committed, db.sessions[id].tx).Ok? {
      StatementKeeps(md', db.committed, db.sessions[id], Advance(md', db.committed, db.sessions[id].tx).value);
    }
  }

  lemma CommitOk(md: Master, seeds: seq<Movement>, db: Db, id: nat, p: Packet)
    requires md.Valid() && SeedsOk(seeds) && SessionsOk(md, db) && Serialized(md, seeds, db)
    requires id in db.sessions && Prepare(db.committed, db.sessions[id].tx) == Ok(p) && FitsBigint(p.books.journal)
    requires forall other :: other in db.sessions && other != id ==> RowsFree(p, db.sessions[other].locks)
    ensures var db' := Db(Apply(db.committed, p), db.sessions - {id},
                          db.log + [Entry(db.sessions[id].tx.op, p.books.sale)]);
      SessionsOk(md, db') && Serialized(md, seeds, db')
  {
    hide Prepare, SessionOk, Perform, Serve, Apply, GoodBooks, Accepts, RowsFree, Serialized, Respects, Keyed, Linked,
      StockOk, WithinLimits, SeedsOk, WithinCredit, FitsBigint, Presented;
    var s, session, md' := db.committed, db.sessions[id], Presented(Postgres, md);
    PresentedValid(md);
    var db' := Db(Apply(s, p), db.sessions - {id}, db.log + [Entry(session.tx.op, p.books.sale)]);
    CommitMatches(md', s, session, p);
    PerformServes(Postgres, md, s, session.tx.op);
    LogGrows(md, seeds, db, Entry(session.tx.op, p.books.sale), Apply(s, p));
    CommittedBooks(md, seeds, db);
    var logged := db.(committed := Apply(s, p), log := db.log + [Entry(session.tx.op, p.books.sale)]);
    CommittedBooks(md, seeds, logged);
    BooksGuards(md, seeds, s);
    BooksGuards(md, seeds, Apply(s, p));
    ServedPacket(Postgres, md', s, session.tx.op, p);
    forall other | other in db'.sessions ensures SessionOk(md', Apply(s, p), db'.sessions[other]) {
      CommitRespects(md', s, session, p, db.sessions[other].locks);
      SessionKept(md', s, p, db.sessions[other]);
    }
    SameLog(md, seeds, logged, db');
  }

  lemma SameLog(md: Master, seeds: seq<Movement>, db: Db, db': Db)
    requires Serialized(md, seeds, db) && db.committed == db'.committed && db.log == db'.log
    ensures Serialized(md, seeds, db')
  {
  }

  lemma ReplayOk(md: Master, seeds: seq<Movement>, db: Db, id: nat)
    requires SessionsOk(md, db) && Serialized(md, seeds, db)
    requires id in db.sessions && db.sessions[id].tx.Replaying?
    ensures var db' := db.(sessions := db.sessions - {id},
                           log := db.log + [Entry(db.sessions[id].tx.op, db.sessions[id].tx.sale)]);
      SessionsOk(md, db') && Serialized(md, seeds, db')
  {
    hide SessionOk, Perform, Serve, Serialized, FitsBigint, Presented;
    var tx := db.sessions[id].tx;
    ReplayMatches(Presented(Postgres, md), db.committed, db.sessions[id]);
    PerformServes(Postgres, md, db.committed, tx.op);
    LogGrows(md, seeds, db, Entry(tx.op, tx.sale), db.committed);
    SameLog(md, seeds, db.(log := db.log + [Entry(tx.op, tx.sale)]),
            db.(sessions := db.sessions - {id}, log := db.log + [Entry(tx.op, tx.sale)]));
  }

  lemma CommitAct(md: Master, seeds: seq<Movement>, db: Db, id: nat)
    requires md.Valid() && SeedsOk(seeds) && SessionsOk(md, db) && Serialized(md, seeds, db) && id in db.sessions
    ensures SessionsOk(md, Act(md, db, Commit(id))) && Serialized(md, seeds, Act(md, db, Commit(id)))
  {
    hide Prepare, Perform, Apply, Run, Faithful, RowsFree, Advance, FitsBigint, SeedsOk, SessionOk, Presented;
    if db.sessions[id].tx.Replaying? {
      ReplayOk(md, seeds, db, id);
    } else if Prepare(db.committed, db.sessions[id].tx).Ok? {
      var p := Prepare(db.committed, db.sessions[id].tx).value;
      if FitsBigint(p.books.journal)
         && forall other :: other in db.sessions && other != id ==> RowsFree(p, db.sessions[other].locks) {
        CommitOk(md, seeds, db, id, p);
      }
    }
  }

  lemma ActOk(md: Master, seeds: seq<Movement>, db: Db, action: Action)
    requires md.Valid() && SeedsOk(seeds) && SessionsOk(md, db) && Serialized(md, seeds, db)
    ensures SessionsOk(md, Act(md, db, action)) && Serialized(md, seeds, Act(md, db, action))
  {
    hide Prepare, Perform, Apply, Run, Faithful, RowsFree, Advance, FitsBigint, SeedsOk, Presented;
    match action
    case Begin(id, op) =>
    case Statement(id) => StatementOk(md, db, id);
    case Commit(id) =>
      if id in db.sessions {
        CommitAct(md, seeds, db, id);
      }
    case Rollback(id) =>
  }

  /** Every interleaving ends where the serial run of its committed operations, in commit order, ends. */
  lemma {:induction false} CommitOrder(md: Master, seeds: seq<Movement>, actions: seq<Action>)
    requires md.Valid() && SeedsOk(seeds)
    ensures var db := Interleave(md, Start(seeds), actions);
      && SessionsOk(md, db)
      && db.committed == Run(Postgres, md, Initial(seeds), Ops(db.log))
      && Faithful(md, seeds, db.log)
      && GoodBooks(md, seeds, db.committed)
  {
    hide Act, GoodBooks, SessionsOk, SeedsOk, Faithful;
    var db := Interleave(md, Start(seeds), actions);
    if actions == [] {
      StartOk(md, seeds);
    } else {
      CommitOrder(md, seeds, actions[..|actions| - 1]);
      ActOk(md, seeds, Interleave(md, Start(seeds), actions[..|actions| - 1]), actions[|actions| - 1]);
    }
    CommittedBooks(md, seeds, db);
  }

  lemma StartOk(md: Master, seeds: seq<Movement>)
    ensures SessionsOk(md, Start(seeds)) && Serialized(md, seeds, Start(seeds))
  {
  }
}
