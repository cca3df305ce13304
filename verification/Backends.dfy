/**
 * The two stores agree: run on the same operations, the memory store and PostgreSQL run serially give
 * the same answers and the same books, as long as fiscal periods do not overlap, rates have distinct
 * dates and journals fit bigint. They differ only in the order in which a reversal copies the
 * rows and lines of the sale it cancels, because PostgreSQL reads them back by identifier.
 */
module Backends {
  import opened Basics
  import opened Sums
  import opened Model
  import opened Lookups
  import opened Posting
  import opened Packets
  import opened Ledgers
  import opened Runs
  import opened Theorems
  import opened Concurrency
  import opened Interleaving
  import Finance
  import Money

  function Map<T, U>(s: seq<T>, g: T -> U): seq<U> {
    seq(|s|, i requires 0 <= i < |s| => g(s[i]))
  }

  lemma MapWithout<T, U>(b: seq<T>, i: nat, g: T -> U)
    requires i < |b|
    ensures multiset(Map(b, g)) == multiset(Map(b[..i] + b[i + 1..], g)) + multiset{g(b[i])}
  {
    var before, after := b[..i], b[i + 1..];
    assert Map(b, g) == Map(before, g) + [g(b[i])] + Map(after, g);
    assert Map(before + after, g) == Map(before, g) + Map(after, g);
  }

  lemma Without<T>(b: seq<T>, i: nat)
    requires i < |b|
    ensures multiset(b[..i] + b[i + 1..]) == multiset(b) - multiset{b[i]}
  {
    assert b == b[..i] + [b[i]] + b[i + 1..];
  }

  /** Rearranged rows stay rearranged when mapped. */
  lemma {:induction false} MapArranged<T, U>(a: seq<T>, b: seq<T>, g: T -> U)
    requires multiset(a) == multiset(b)
    ensures multiset(Map(a, g)) == multiset(Map(b, g))
  {
    if a == [] {
      assert |b| == |multiset(b)| == 0;
    } else {
      var n := |a| - 1;
      assert a[n] in multiset(b);
      var i :| 0 <= i < |b| && b[i] == a[n];
      Without(a, n);
      Without(b, i);
      MapWithout(a, n, g);
      MapWithout(b, i, g);
      hide Map;
      MapArranged(a[..n] + a[n + 1..], b[..i] + b[i + 1..], g);
    }
  }

  function BareLine(): Line -> Line {
    (x: Line) => x.(id := "")
  }

  function BareMove(): Movement -> Movement {
    (m: Movement) => m.(id := "")
  }

  /** The same sale, its lines perhaps in another order. */
  ghost predicate SameSale(a: Sale, b: Sale) {
    a.(lines := []) == b.(lines := []) && multiset(Map(a.lines, BareLine())) == multiset(Map(b.lines, BareLine()))
  }

  /** The same identifiers in the same places, over the same rows in some order. */
  ghost predicate SameMoves(a: seq<Movement>, b: seq<Movement>) {
    && |a| == |b|
    && (forall i :: 0 <= i < |a| ==> a[i].id == b[i].id)
    && multiset(Map(a, BareMove())) == multiset(Map(b, BareMove()))
  }

  ghost predicate SameAudit(a: AuditEvent, b: AuditEvent) {
    a.(data := b.data) == b && SameSale(a.data, b.data)
  }

  ghost predicate SameEvent(a: OutboxEvent, b: OutboxEvent) {
    a.(payload := b.payload) == b && SameSale(a.payload, b.payload)
  }

  ghost predicate SameSales(s: map<EntityId, Sale>, t: map<EntityId, Sale>) {
    && s.Keys == t.Keys
    && forall k :: k in s ==> SameSale(s[k], t[k]) && (s[k].recordType == SaleRecord ==> s[k] == t[k])
  }

  ghost predicate SameIssues(a: seq<Movement>, b: seq<Movement>) {
    forall c, id :: Filter(a, MovedBy(c, FromSale, id)) == Filter(b, MovedBy(c, FromSale, id))
  }

  /** Two states that differ only in how reversals are arranged. */
  ghost predicate Agree(s: State, t: State) {
    && s.claims == t.claims && s.ledger == t.ledger && s.payments == t.payments && s.journals == t.journals
    && SameSales(s.sales, t.sales)
    && SameMoves(s.movements, t.movements) && SameIssues(s.movements, t.movements)
    && |s.audits| == |t.audits| && (forall i :: 0 <= i < |s.audits| ==> SameAudit(s.audits[i], t.audits[i]))
    && |s.outbox| == |t.outbox| && (forall i :: 0 <= i < |s.outbox| ==> SameEvent(s.outbox[i], t.outbox[i]))
  }

  // Stock and identifiers.

  lemma SameStock(a: seq<Movement>, b: seq<Movement>, more: seq<Movement>, loc: Loc)
    requires SameMoves(a, b)
    ensures Available(a + more, loc) == Available(b + more, loc)
  {
    SumAppend(a, more, AtLoc(loc));
    SumAppend(b, more, AtLoc(loc));
    SumSame(a, AtLoc(loc), Map(a, BareMove()), AtLoc(loc));
    SumSame(b, AtLoc(loc), Map(b, BareMove()), AtLoc(loc));
    SumArranged(Map(a, BareMove()), Map(b, BareMove()), AtLoc(loc));
  }

  lemma SameIds<T>(a: seq<T>, b: seq<T>, more: seq<T>, id: T -> string, x: string)
    requires |a| == |b| && forall i :: 0 <= i < |a| ==> id(a[i]) == id(b[i])
    ensures HasId(a + more, id, x) <==> HasId(b + more, id, x)
  {
    if i :| 0 <= i < |a + more| && id((a + more)[i]) == x {
      assert id((b + more)[i]) == x;
    }
    if i :| 0 <= i < |b + more| && id((b + more)[i]) == x {
      assert id((a + more)[i]) == x;
    }
  }

  lemma SamePostLine(md: Master, a: seq<Movement>, b: seq<Movement>, cmd: CompleteCommand, now: int, d: Draft,
                     requested: CommandLine)
    requires SameMoves(a, b)
    ensures PostLine(md, a, cmd, now, d, requested) == PostLine(md, b, cmd, now, d, requested)
  {
    forall loc ensures Available(a + d.movements, loc) == Available(b + d.movements, loc) {
      SameStock(a, b, d.movements, loc);
    }
    forall x ensures HasId(a + d.movements, MoveId(), x) <==> HasId(b + d.movements, MoveId(), x) {
      SameIds(a, b, d.movements, MoveId(), x);
    }
    hide SameMoves, Available, HasId, LineAmounts, AddTotals, LineEntries;
  }

  lemma {:induction false} SamePostLines(md: Master, a: seq<Movement>, b: seq<Movement>, cmd: CompleteCommand, now: int,
                                        d: Draft, lines: seq<CommandLine>)
    requires SameMoves(a, b)
    ensures PostLines(md, a, cmd, now, d, lines) == PostLines(md, b, cmd, now, d, lines)
  {
    hide PostLine, SameMoves;
    if lines == [] {
    } else {
      var some := lines[..|lines| - 1];
      SamePostLines(md, a, b, cmd, now, d, some);
      if PostLines(md, a, cmd, now, d, some).Ok? {
        SamePostLine(md, a, b, cmd, now, PostLines(md, a, cmd, now, d, some).value, lines[|lines| - 1]);
      }
    }
  }

  // Storing.

  ghost predicate SameBooks(a: Books, b: Books) {
    && a.ids == b.ids && a.ledger == b.ledger && a.payments == b.payments && a.journal == b.journal
    && SameSale(a.sale, b.sale) && (a.sale.recordType == SaleRecord ==> a == b)
    && SameMoves(a.movements, b.movements) && (a == b || (NoIssues(a.movements) && NoIssues(b.movements)))
  }

  predicate NoIssues(moves: seq<Movement>) {
    forall m :: m in moves ==> m.source != FromSale
  }

  ghost predicate SamePacket(p: Packet, q: Packet) {
    && SameBooks(p.books, q.books) && SameAudit(p.audit, q.audit) && SameEvent(p.event, q.event)
    && p.claim == q.claim && p.hash == q.hash && p.reverses == q.reverses && p.now == q.now
  }

  ghost predicate SameBuilt(a: Result<Packet>, b: Result<Packet>) {
    if a.Ok? then b.Ok? && SamePacket(a.value, b.value) else a == b
  }

  lemma SaleHeads(a: Sale, b: Sale)
    requires SameSale(a, b)
    ensures a.id == b.id && a.scope == b.scope && a.recordType == b.recordType && a.status == b.status
    ensures a.Key() == b.Key() && a.correlationId == b.correlationId && a.reversedAt == b.reversedAt
  {
    assert a.(lines := []).id == b.(lines := []).id && a.(lines := []).scope == b.(lines := []).scope;
    assert a.(lines := []).recordType == b.(lines := []).recordType && a.(lines := []).status == b.(lines := []).status;
    assert a.(lines := []).correlationId == b.(lines := []).correlationId;
    assert a.(lines := []).reversedAt == b.(lines := []).reversedAt;
  }

  lemma RecordedAlike(s: State, t: State, a: Books, b: Books, actor: string, eventType: string, causation: string,
                      claim: ClaimId, hash: Hash, reverses: Option<EntityId>, now: int)
    requires s.sales.Keys == t.sales.Keys && s.journals == t.journals && a.journal == b.journal && a.ids == b.ids
    requires a.sale.Key() == b.sale.Key() && a.sale.id == b.sale.id && a.sale.scope == b.sale.scope
    requires a.sale.correlationId == b.sale.correlationId
    requires reverses.Some? && reverses.value in s.sales ==>
      s.sales[reverses.value].status == t.sales[reverses.value].status
    requires forall x :: HasId(s.audits, AuditId(), x) <==> HasId(t.audits, AuditId(), x)
    requires forall x :: HasId(s.outbox, EventId(), x) <==> HasId(t.outbox, EventId(), x)
    ensures var p, q := Record(s, a, actor, eventType, causation, claim, hash, reverses, now),
                        Record(t, b, actor, eventType, causation, claim, hash, reverses, now);
      if p.Err? then p == q else
        && q.Ok? && p.value.books == a && q.value.books == b
        && p.value.audit.(data := b.sale) == q.value.audit && p.value.audit.data == a.sale
        && p.value.event.(payload := b.sale) == q.value.event && p.value.event.payload == a.sale
        && p.value.claim == q.value.claim && p.value.hash == q.value.hash && p.value.reverses == q.value.reverses
        && p.value.now == q.value.now
  {
    hide HasId, Finance.Validates, Filter;
  }

  lemma SameAudits(s: State, t: State)
    requires Agree(s, t)
    ensures forall x :: HasId(s.audits, AuditId(), x) <==> HasId(t.audits, AuditId(), x)
    ensures forall x :: HasId(s.outbox, EventId(), x) <==> HasId(t.outbox, EventId(), x)
  {
    hide SameMoves, SameIssues, SameSales, SameSale;
    forall x ensures HasId(s.audits, AuditId(), x) <==> HasId(t.audits, AuditId(), x) {
      SameIds(s.audits, t.audits, [], AuditId(), x);
      assert s.audits + [] == s.audits && t.audits + [] == t.audits;
    }
    forall x ensures HasId(s.outbox, EventId(), x) <==> HasId(t.outbox, EventId(), x) {
      SameIds(s.outbox, t.outbox, [], EventId(), x);
      assert s.outbox + [] == s.outbox && t.outbox + [] == t.outbox;
    }
  }

  lemma SameStatus(s: State, t: State, k: EntityId)
    requires Agree(s, t) && k in s.sales
    ensures k in t.sales && s.sales[k].status == t.sales[k].status && s.sales[k].recordType == t.sales[k].recordType
  {
    SaleHeads(s.sales[k], t.sales[k]);
  }

  lemma SameEvents(p: Packet, q: Packet, a: Books, b: Books)
    requires SameBooks(a, b) && p.books == a && q.books == b
    requires p.audit.(data := b.sale) == q.audit && p.audit.data == a.sale
    requires p.event.(payload := b.sale) == q.event && p.event.payload == a.sale
    requires p.claim == q.claim && p.hash == q.hash && p.reverses == q.reverses && p.now == q.now
    ensures SamePacket(p, q)
  {
    hide SameMoves, NoIssues;
  }

  lemma BooksHeads(a: Books, b: Books)
    requires SameBooks(a, b)
    ensures a.ids == b.ids && a.journal == b.journal && a.sale.id == b.sale.id && a.sale.scope == b.sale.scope
    ensures a.sale.Key() == b.sale.Key() && a.sale.correlationId == b.sale.correlationId
  {
    SaleHeads(a.sale, b.sale);
  }

  lemma SameRecorded(s: State, t: State, a: Books, b: Books, actor: string, eventType: string, causation: string,
                     claim: ClaimId, hash: Hash, reverses: Option<EntityId>, now: int)
    requires Agree(s, t) && SameBooks(a, b)
    ensures SameBuilt(Record(s, a, actor, eventType, causation, claim, hash, reverses, now),
                      Record(t, b, actor, eventType, causation, claim, hash, reverses, now))
  {
    BooksHeads(a, b);
    assert s.sales.Keys == t.sales.Keys && s.journals == t.journals;
    SameAudits(s, t);
    if reverses.Some? && reverses.value in s.sales {
      SameStatus(s, t, reverses.value);
    }
    hide Agree, HasId, SameBooks, SamePacket;
    RecordedAlike(s, t, a, b, actor, eventType, causation, claim, hash, reverses, now);
    hide Record;
    if Record(s, a, actor, eventType, causation, claim, hash, reverses, now).Ok? {
      SameEvents(Record(s, a, actor, eventType, causation, claim, hash, reverses, now).value,
                 Record(t, b, actor, eventType, causation, claim, hash, reverses, now).value, a, b);
    }
  }

  lemma SameMovesAppend(a: seq<Movement>, b: seq<Movement>, x: seq<Movement>, y: seq<Movement>)
    requires SameMoves(a, b) && SameMoves(x, y)
    ensures SameMoves(a + x, b + y)
  {
    assert Map(a + x, BareMove()) == Map(a, BareMove()) + Map(x, BareMove());
    assert Map(b + y, BareMove()) == Map(b, BareMove()) + Map(y, BareMove());
  }

  lemma SameIssuesAppend(a: seq<Movement>, b: seq<Movement>, x: seq<Movement>, y: seq<Movement>)
    requires SameIssues(a, b) && (x == y || (NoIssues(x) && NoIssues(y)))
    ensures SameIssues(a + x, b + y)
  {
    forall c, id ensures Filter(a + x, MovedBy(c, FromSale, id)) == Filter(b + y, MovedBy(c, FromSale, id)) {
      FilterAppend(a, x, MovedBy(c, FromSale, id));
      FilterAppend(b, y, MovedBy(c, FromSale, id));
      if x != y {
        FilterNone(x, MovedBy(c, FromSale, id));
        FilterNone(y, MovedBy(c, FromSale, id));
      }
    }
  }

  lemma SameSalesAfter(s: map<EntityId, Sale>, t: map<EntityId, Sale>, reverses: Option<EntityId>, now: int, a: Sale,
                       b: Sale)
    requires SameSales(s, t) && SameSale(a, b) && (a.recordType == SaleRecord ==> a == b)
    requires reverses.Some? ==> reverses.value in s
    ensures SameSales(MarkReversed(s, reverses, now)[a.Key() := a], MarkReversed(t, reverses, now)[b.Key() := b])
  {
    SaleHeads(a, b);
    if reverses.Some? {
      var u, v := s[reverses.value], t[reverses.value];
      SaleHeads(u, v);
      SameMarked(u, v, now);
    }
    hide SameSale;
  }

  lemma SameMarked(u: Sale, v: Sale, now: int)
    requires SameSale(u, v)
    ensures SameSale(u.(status := Reversed, reversedAt := Some(now)), v.(status := Reversed, reversedAt := Some(now)))
  {
    assert u.(lines := []).(status := Reversed, reversedAt := Some(now))
        == v.(lines := []).(status := Reversed, reversedAt := Some(now));
  }

  lemma SameApplied(s: State, t: State, p: Packet, q: Packet)
    requires Agree(s, t) && SamePacket(p, q) && (p.reverses.Some? ==> p.reverses.value in s.sales)
    ensures Agree(Apply(s, p), Apply(t, q))
  {
    SaleHeads(p.books.sale, q.books.sale);
    SameSalesAfter(s.sales, t.sales, p.reverses, p.now, p.books.sale, q.books.sale);
    SameMovesAppend(s.movements, t.movements, p.books.movements, q.books.movements);
    assert p.books.sale.recordType == SaleRecord || p.books.sale.recordType == ReversalRecord;
    SameIssuesAppend(s.movements, t.movements, p.books.movements, q.books.movements);
    hide SameSale, SameMoves, SameIssues, SameSales, MarkReversed, NoIssues;
  }

  // Completing.

  lemma SelfBooks(b: Books)
    ensures SameBooks(b, b)
  {
  }

  lemma SameBuildSale(md: Master, s: State, t: State, cmd: CompleteCommand, now: int, ids: seq<string>)
    requires Agree(s, t)
    ensures SameBuilt(BuildSale(md, s, cmd, now, ids), BuildSale(md, t, cmd, now, ids))
  {
    hide Open, PostLines, Settle, Record, SameBuilt;
    var begun := Open(md, cmd, now, ids);
    if begun.Err? {
      SameFailure(begun.error);
    } else {
      SamePostLines(md, s.movements, t.movements, cmd, now, begun.value, cmd.lines);
      var drafted := PostLines(md, s.movements, cmd, now, begun.value, cmd.lines);
      if drafted.Err? {
        SameFailure(drafted.error);
      } else {
        var books := Settle(s.ledger, s.payments, cmd, now, drafted.value);
        if books.Err? {
          SameFailure(books.error);
        } else {
          SelfBooks(books.value);
          SameRecorded(s, t, books.value, books.value, cmd.actor, "sale.posted", cmd.key, cmd.Claim(), cmd.Hash(), None,
                       now);
        }
      }
    }
  }

  lemma SameFailure(e: Error)
    ensures SameBuilt(Err(e), Err(e))
  {
  }

  // Reversing.

  lemma SameRead(u: Sale, v: Sale)
    requires SameSale(u, v)
    ensures SameSale(ReadSale(Memory, u), ReadSale(Postgres, v))
  {
    var w := ReadSale(Postgres, v);
    assert w.(lines := []) == v.(lines := []);
    MapArranged(v.lines, w.lines, BareLine());
    assert ReadSale(Memory, u) == u;
  }

  lemma SameLength(u: Sale, v: Sale)
    requires SameSale(u, v)
    ensures |u.lines| == |v.lines|
  {
    assert |multiset(Map(u.lines, BareLine()))| == |u.lines| && |multiset(Map(v.lines, BareLine()))| == |v.lines|;
  }

  lemma SameOpened(md: Master, cmd: ReverseCommand, now: int, u: Sale, v: Sale, ids: seq<string>)
    requires SameSale(u, v)
    ensures var x, y := OpenReversal(md, cmd, now, u, ids), OpenReversal(md, cmd, now, v, ids);
      if x.Err? then x == y else
        y.Ok? && x.value.1 == y.value.1 && SameSale(x.value.0, y.value.0) && x.value.0.id == y.value.0.id
        && x.value.0.recordType == ReversalRecord
  {
    SaleHeads(u, v);
    SameLength(u, v);
    var x, y := OpenReversal(md, cmd, now, u, ids), OpenReversal(md, cmd, now, v, ids);
    if x.Ok? {
      assert Map(x.value.0.lines, BareLine()) == Map(u.lines, BareLine());
      assert Map(y.value.0.lines, BareLine()) == Map(v.lines, BareLine());
      SameReversalHead(u, v, cmd, now, ids[0], x.value.0.lines, y.value.0.lines);
    }
  }

  lemma SameReversalHead(u: Sale, v: Sale, cmd: ReverseCommand, now: int, id: string, x: seq<Line>, y: seq<Line>)
    requires u.(lines := []) == v.(lines := [])
    ensures ReversalOf(u, cmd, now, id, x).(lines := []) == ReversalOf(v, cmd, now, id, y).(lines := [])
  {
    assert u.(lines := []) == v.(lines := []);
    assert ReversalOf(u, cmd, now, id, x).(lines := []) == ReversalOf(u.(lines := []), cmd, now, id, []);
    assert ReversalOf(v, cmd, now, id, y).(lines := []) == ReversalOf(v.(lines := []), cmd, now, id, []);
  }

  /** Copying fails or succeeds alike, and uses the same identifiers, whatever the rows. */
  lemma {:induction false} SameMirror<T>(e: seq<T>, e': seq<T>, rows: seq<T>, rows': seq<T>, ids: seq<string>,
                                        id: T -> string, copy: (T, string) -> T)
    requires |e| == |e'| && (forall i :: 0 <= i < |e| ==> id(e[i]) == id(e'[i]))
    requires |rows| == |rows'| && forall x, i :: id(copy(x, i)) == i
    ensures var x, y := Mirror(e, rows, ids, id, copy), Mirror(e', rows', ids, id, copy);
      if x.Err? then x == y else
        && y.Ok? && |x.value.0| == |y.value.0| && x.value.1 == y.value.1
        && forall i :: 0 <= i < |x.value.0| ==> id(x.value.0[i]) == id(y.value.0[i])
  {
    if rows == [] {
    } else {
      var some, some' := rows[..|rows| - 1], rows'[..|rows'| - 1];
      SameMirror(e, e', some, some', ids, id, copy);
      var x, y := Mirror(e, some, ids, id, copy), Mirror(e', some', ids, id, copy);
      if x.Ok? {
        var a, b := e + x.value.0, e' + y.value.0;
        forall k ensures HasId(a, id, k) <==> HasId(b, id, k) {
          SameIds(a, b, [], id, k);
          assert a + [] == a && b + [] == b;
        }
        hide HasId;
      }
    }
  }

  lemma SameMirrored(a: seq<Movement>, b: seq<Movement>, rows: seq<Movement>, rows': seq<Movement>, ids: seq<string>,
                     reversalId: string, now: int)
    requires SameMoves(a, b) && multiset(rows) == multiset(rows')
    ensures var x, y := Mirror(a, rows, ids, MoveId(), ReverseMovement(reversalId, now)),
                        Mirror(b, rows', ids, MoveId(), ReverseMovement(reversalId, now));
      if x.Err? then x == y else
        y.Ok? && x.value.1 == y.value.1 && SameMoves(x.value.0, y.value.0) && NoIssues(x.value.0) && NoIssues(y.value.0)
  {
    assert |rows| == |multiset(rows)| == |multiset(rows')| == |rows'|;
    var copy := ReverseMovement(reversalId, now);
    SameMirror(a, b, rows, rows', ids, MoveId(), copy);
    var x, y := Mirror(a, rows, ids, MoveId(), copy), Mirror(b, rows', ids, MoveId(), copy);
    if x.Ok? {
      MirrorFacts(a, rows, ids, MoveId(), copy);
      MirrorFacts(b, rows', ids, MoveId(), copy);
      hide Mirror;
      var g := (m: Movement) => copy(m, "");
      assert Map(x.value.0, BareMove()) == Map(rows, g);
      assert Map(y.value.0, BareMove()) == Map(rows', g);
      MapArranged(rows, rows', g);
    }
  }

  lemma SortedShort<T>(s: seq<T>, id: T -> string)
    requires |s| <= 1
    ensures SortById(s, id) == s
  {
    if |s| == 1 {
      assert SortById(s[..0], id) == [];
    }
  }

  lemma SameMirrorBooks(s: State, t: State, x: Origin, y: Origin, u: Sale, v: Sale, now: int, ids: seq<string>)
    requires Agree(s, t) && SameSale(u, v) && u.id == v.id && u.recordType == ReversalRecord
    requires multiset(x.movements) == multiset(y.movements) && x.journals == y.journals
    requires x.ledger == y.ledger && x.payments == y.payments
    ensures var a, b := MirrorBooks(s, x, u, now, ids), MirrorBooks(t, y, v, now, ids);
      if a.Err? then a == b else b.Ok? && SameBooks(a.value, b.value)
  {
    assert s.ledger == t.ledger && s.payments == t.payments && SameMoves(s.movements, t.movements);
    assert |x.movements| == |multiset(x.movements)| == |multiset(y.movements)| == |y.movements|;
    hide Agree, SameSale, NoIssues, SameMoves, Mirror, Finance.Validates, Finance.Reverse;
    SameMirrored(s.movements, t.movements, x.movements, y.movements, ids, u.id, now);
  }

  /** What a reversal reads: the same rows, ordered by insertion here and by identifier there. */
  lemma SameOrigins(md: Master, s: State, t: State, scope: Scope, k: EntityId)
    requires Agree(s, t) && Keyed(s) && Linked(md, s)
    requires k in s.sales && k == scope.Entity(k.id) && s.sales[k].recordType == SaleRecord
    ensures multiset(ReadMovements(Memory, s, scope, k.id)) == multiset(ReadMovements(Postgres, t, scope, k.id))
    ensures ReadJournals(s, scope, k.id) == ReadJournals(t, scope, k.id)
    ensures ReadLedger(Memory, s, scope, k.id) == ReadLedger(Postgres, t, scope, k.id)
    ensures ReadPayments(Memory, s, scope, k.id) == ReadPayments(Postgres, t, scope, k.id)
  {
    var sale := s.sales[k];
    assert sale.Key() == k;
    OneRowEach(md, s, sale);
    SortedShort(LedgerOf(s, sale), EntryId());
    SortedShort(PaymentsOf(s, sale), PayId());
    assert scope.Company() == sale.scope.Company() && sale.id == k.id;
    hide Keyed, Linked, Filter, SortById, SameSales, SameMoves;
  }

  lemma OneRowEach(md: Master, s: State, sale: Sale)
    requires Linked(md, s) && Keyed(s) && sale.Key() in s.sales && s.sales[sale.Key()] == sale
      && sale.recordType == SaleRecord
    ensures |LedgerOf(s, sale)| <= 1 && |PaymentsOf(s, sale)| <= 1
  {
    assert SaleLinked(md, s, sale);
    hide LedgerOf, PaymentsOf, Linked;
  }

  lemma SameBuildReversal(md: Master, s: State, t: State, cmd: ReverseCommand, now: int, ids: seq<string>)
    requires Agree(s, t) && Keyed(s) && Linked(md, s)
    ensures SameBuilt(BuildReversal(Memory, md, s, cmd, now, ids), BuildReversal(Postgres, md, t, cmd, now, ids))
  {
    var k := cmd.scope.Entity(cmd.saleId);
    if k !in s.sales {
      SameFailure(NotFound);
    } else {
      var u, v := ReadSale(Memory, s.sales[k]), ReadSale(Postgres, t.sales[k]);
      SameRead(s.sales[k], t.sales[k]);
      SaleHeads(u, v);
      assert u.id == cmd.saleId && u.recordType == s.sales[k].recordType;
      SameOpened(md, cmd, now, u, v, ids);
      hide OpenReversal, MirrorBooks, Record, ReadSale, ReadMovements, ReadJournals, ReadLedger, ReadPayments,
        SameBuilt, Agree, Linked, Keyed, SameSale;
      if OpenReversal(md, cmd, now, u, ids).Err? {
        SameFailure(OpenReversal(md, cmd, now, u, ids).error);
      } else {
        ReversalBuilt(md, s, t, cmd, now, ids, u, v);
      }
    }
  }

  lemma ReversalBuilt(md: Master, s: State, t: State, cmd: ReverseCommand, now: int, ids: seq<string>, u: Sale, v: Sale)
    requires Agree(s, t) && Keyed(s) && Linked(md, s)
    requires FindSale(Memory, s, cmd.scope, cmd.saleId) == Ok(u)
      && FindSale(Postgres, t, cmd.scope, cmd.saleId) == Ok(v)
    requires u.id == v.id == cmd.saleId && s.sales[cmd.scope.Entity(cmd.saleId)].recordType == u.recordType
    requires OpenReversal(md, cmd, now, u, ids).Ok? && OpenReversal(md, cmd, now, v, ids).Ok?
    requires var x, y := OpenReversal(md, cmd, now, u, ids).value, OpenReversal(md, cmd, now, v, ids).value;
      x.1 == y.1 && SameSale(x.0, y.0) && x.0.id == y.0.id && x.0.recordType == ReversalRecord
    ensures SameBuilt(BuildReversal(Memory, md, s, cmd, now, ids), BuildReversal(Postgres, md, t, cmd, now, ids))
  {
    hide FindSale, MirrorBooks, Record, ReadMovements, ReadJournals, ReadLedger, ReadPayments, SameBuilt, Agree, Linked,
      Keyed, SameSale, SameBooks;
    OpenReversalFacts(md, cmd, now, u, ids);
    hide OpenReversal;
    var k := cmd.scope.Entity(cmd.saleId);
    FoundIn(Memory, s, cmd.scope, cmd.saleId);
    SameOrigins(md, s, t, cmd.scope, k);
    var x, y := OpenReversal(md, cmd, now, u, ids).value, OpenReversal(md, cmd, now, v, ids).value;
    var a := Origin(u, ReadMovements(Memory, s, cmd.scope, u.id), ReadJournals(s, cmd.scope, u.id),
                    ReadLedger(Memory, s, cmd.scope, u.id), ReadPayments(Memory, s, cmd.scope, u.id));
    var b := Origin(v, ReadMovements(Postgres, t, cmd.scope, v.id), ReadJournals(t, cmd.scope, v.id),
                    ReadLedger(Postgres, t, cmd.scope, v.id), ReadPayments(Postgres, t, cmd.scope, v.id));
    SameMirrorBooks(s, t, a, b, x.0, y.0, now, x.1);
    if MirrorBooks(s, a, x.0, now, x.1).Err? {
      SameFailure(MirrorBooks(s, a, x.0, now, x.1).error);
    } else {
      SameRecorded(s, t, MirrorBooks(s, a, x.0, now, x.1).value, MirrorBooks(t, b, y.0, now, y.1).value, cmd.actor,
                   "sale.reversed", u.id, cmd.Claim(), cmd.Hash(), Some(cmd.scope.Entity(u.id)), now);
    }
  }

  lemma FoundIn(b: Backend, s: State, scope: Scope, id: string)
    requires FindSale(b, s, scope, id).Ok?
    ensures scope.Entity(id) in s.sales
  {
  }

  // Lookups.

  /** Two presentations of the master data that every lookup answers alike. */
  ghost predicate SameLookups(md: Master, md': Master) {
    && SameAccounts(md, md')
    && (forall c, at :: PeriodOpen(md'.periods, c, at) == PeriodOpen(md.periods, c, at))
    && (forall c, code, at :: SelectedRate(md'.taxRates, c, code, at) == SelectedRate(md.taxRates, c, code, at))
  }

  lemma PresentedLookups(md: Master)
    requires DistinctRates(md.taxRates) && DisjointPeriods(md.periods)
    ensures SameLookups(md, Presented(Postgres, md))
  {
    hide DistinctRates, DisjointPeriods, LatestFirst;
    forall c, at ensures PeriodOpen(Presented(Postgres, md).periods, c, at) == PeriodOpen(md.periods, c, at) {
      LookupsAgree(md.taxRates, md.periods, c, "", at);
    }
    forall c, code, at
      ensures SelectedRate(Presented(Postgres, md).taxRates, c, code, at) == SelectedRate(md.taxRates, c, code, at)
    {
      LookupsAgree(md.taxRates, md.periods, c, code, at);
    }
  }

  lemma AlikePostLine(md: Master, md': Master, a: seq<Movement>, cmd: CompleteCommand, now: int, d: Draft,
                      requested: CommandLine)
    requires SameLookups(md, md')
    ensures PostLine(md', a, cmd, now, d, requested) == PostLine(md, a, cmd, now, d, requested)
  {
    hide Available, HasId, AddTotals, LineEntries, SelectedRate, PeriodOpen, Money.CheckedMultiply, Money.TaxAmount,
      Money.CheckedAdd;
  }

  lemma {:induction false} AlikePostLines(md: Master, md': Master, a: seq<Movement>, cmd: CompleteCommand, now: int,
                                          d: Draft, lines: seq<CommandLine>)
    requires SameLookups(md, md')
    ensures PostLines(md', a, cmd, now, d, lines) == PostLines(md, a, cmd, now, d, lines)
  {
    hide PostLine, SameLookups;
    if lines == [] {
    } else {
      var some := lines[..|lines| - 1];
      AlikePostLines(md, md', a, cmd, now, d, some);
      if PostLines(md, a, cmd, now, d, some).Ok? {
        AlikePostLine(md, md', a, cmd, now, PostLines(md, a, cmd, now, d, some).value, lines[|lines| - 1]);
      }
    }
  }

  lemma AlikeOpen(md: Master, md': Master, cmd: CompleteCommand, now: int, ids: seq<string>)
    requires SameLookups(md, md')
    ensures Open(md', cmd, now, ids) == Open(md, cmd, now, ids)
  {
    hide SelectedRate, PeriodOpen;
  }

  lemma AlikeSale(md: Master, md': Master, t: State, cmd: CompleteCommand, now: int, ids: seq<string>)
    requires SameLookups(md, md')
    ensures BuildSale(md', t, cmd, now, ids) == BuildSale(md, t, cmd, now, ids)
  {
    AlikeOpen(md, md', cmd, now, ids);
    if Open(md, cmd, now, ids).Ok? {
      AlikePostLines(md, md', t.movements, cmd, now, Open(md, cmd, now, ids).value, cmd.lines);
    }
    hide Open, PostLines, Settle, Record, SameLookups;
  }

  lemma AlikeReversal(b: Backend, md: Master, md': Master, t: State, cmd: ReverseCommand, now: int, ids: seq<string>)
    requires SameLookups(md, md')
    ensures BuildReversal(b, md', t, cmd, now, ids) == BuildReversal(b, md, t, cmd, now, ids)
  {
    forall u ensures OpenReversal(md', cmd, now, u, ids) == OpenReversal(md, cmd, now, u, ids) {
      hide SelectedRate, PeriodOpen, RelabelLines;
    }
    hide OpenReversal, MirrorBooks, Record, SameLookups, ReadMovements, ReadJournals, ReadLedger, ReadPayments;
  }

  lemma AlikeServed(b: Backend, md: Master, md': Master, t: State, op: Op)
    requires SameLookups(md, md')
    ensures Serve(b, md', t, op) == Serve(b, md, t, op)
  {
    assert md'.permissions == md.permissions;
    match op
    case CompleteOp(command, now, ids) =>
      AlikeSale(md, md', t, command.Normalized(), now, ids);
      hide SameLookups, BuildSale, Conclude, Admit;
    case ReverseOp(cmd, now, ids) =>
      AlikeReversal(b, md, md', t, cmd, now, ids);
      hide SameLookups, BuildReversal, Conclude, Admit;
  }

  /** Under the two hypotheses an operation does not depend on the order in which rates and periods are examined. */
  lemma PerformedAlways(b: Backend, md: Master, s: State, op: Op)
    requires DistinctRates(md.taxRates) && DisjointPeriods(md.periods)
    ensures Perform(b, md, s, op) == Enforced(b, Serve(b, md, s, op))
  {
    if b == Postgres {
      PresentedLookups(md);
    }
    hide DistinctRates, DisjointPeriods, SameLookups, Presented, Serve, FitsBigint;
    AlikeServed(b, md, Presented(b, md), s, op);
  }

  /** Where the lookup says closed, no operation that reaches it is accepted. */
  lemma ClosedRefuses(b: Backend, md: Master, s: State, op: Op)
    requires !PeriodOpen(Presented(b, md).periods, OpScope(op).Company(), op.now)
    ensures !Perform(b, md, s, op).Accepted?
  {
    hide PeriodOpen, Presented, FitsBigint, PostLines, Settle, Record, MirrorBooks, Admit, RelabelLines;
  }

  // Operations and runs.

  /** The same answer, with the same rows written. */
  ghost predicate SameServed(a: Outcome, b: Outcome) {
    match a
    case Failed(e) => b == a
    case Replayed(sale) => b.Replayed? && SameSale(sale, b.sale)
    case Accepted(p) => b.Accepted? && SamePacket(p, b.packet)
  }

  lemma SameConcluded(s: State, t: State, admission: Admission, scope: Scope, x: Result<Packet>, y: Result<Packet>)
    requires Agree(s, t) && SameBuilt(x, y)
    ensures SameServed(Conclude(Memory, s, admission, scope, x), Conclude(Postgres, t, admission, scope, y))
  {
    if admission.Replay? && scope.Entity(admission.resultId) in s.sales {
      SameRead(s.sales[scope.Entity(admission.resultId)], t.sales[scope.Entity(admission.resultId)]);
    }
    hide ReadSale, SameSale, SamePacket, SameMoves, SameIssues;
  }

  lemma ServedAlike(md: Master, s: State, t: State, op: Op)
    requires Agree(s, t) && Keyed(s) && Linked(md, s)
    ensures SameServed(Serve(Memory, md, s, op), Serve(Postgres, md, t, op))
  {
    assert s.claims == t.claims;
    hide Agree, Keyed, Linked, SameBuilt, SameServed, Conclude, BuildSale, BuildReversal, AdmitComplete, AdmitReverse;
    match op
    case CompleteOp(command, now, ids) =>
      var cmd := command.Normalized();
      SameBuildSale(md, s, t, cmd, now, ids);
      SameConcluded(s, t, AdmitComplete(md, s.claims, cmd), cmd.scope, BuildSale(md, s, cmd, now, ids),
                    BuildSale(md, t, cmd, now, ids));
    case ReverseOp(cmd, now, ids) =>
      SameBuildReversal(md, s, t, cmd, now, ids);
      SameConcluded(s, t, AdmitReverse(md, s.claims, cmd), cmd.scope, BuildReversal(Memory, md, s, cmd, now, ids),
                    BuildReversal(Postgres, md, t, cmd, now, ids));
  }

  /** The amounts a record posts stay within bigint. */
  predicate Fits(outcome: Outcome) {
    outcome.Accepted? ==> outcome.packet.books.sale.total + outcome.packet.books.sale.cogs <= MAX64
  }

  /** The memory store's answer against PostgreSQL's, which refuses amounts beyond bigint and nothing else besides. */
  ghost predicate SameOutcome(a: Outcome, b: Outcome) {
    if !Fits(a) then b == Failed(MoneyOverflow) else SameServed(a, b)
  }

  /** An accepted operation's journal adds up to the amounts of its record. */
  lemma ServedFits(md: Master, s: State, op: Op)
    requires md.Valid() && Keyed(s) && Linked(md, s) && Serve(Memory, md, s, op).Accepted?
    ensures FitsBigint(Serve(Memory, md, s, op).packet.books.journal) <==> Fits(Serve(Memory, md, s, op))
  {
    var p := Serve(Memory, md, s, op).packet;
    hide Serve, Keyed, Linked, Accepts, Finance.Balanced, Sum;
    ServedPacket(Memory, md, s, op, p);
    ServedBalanced(Memory, md, s, op, p);
    EqualSides(p.books.journal);
  }

  lemma SamePerformed(md: Master, s: State, t: State, op: Op)
    requires md.Valid() && DistinctRates(md.taxRates) && DisjointPeriods(md.periods)
    requires Agree(s, t) && Keyed(s) && Linked(md, s)
    ensures SameOutcome(Perform(Memory, md, s, op), Perform(Postgres, md, t, op))
  {
    hide DistinctRates, DisjointPeriods, Agree, Keyed, Linked, Serve, FitsBigint, SameLookups, LatestFirst, SameSale,
      SameAudit, SameEvent, SameMoves;
    PresentedLookups(md);
    AlikeServed(Postgres, md, Presented(Postgres, md), t, op);
    ServedAlike(md, s, t, op);
    if Serve(Memory, md, s, op).Accepted? {
      ServedFits(md, s, op);
    }
  }

  lemma SameStep(md: Master, seeds: seq<Movement>, s: State, t: State, op: Op)
    requires md.Valid() && GoodBooks(md, seeds, s) && Agree(s, t)
    requires DistinctRates(md.taxRates) && DisjointPeriods(md.periods)
    ensures SameOutcome(Perform(Memory, md, s, op), Perform(Postgres, md, t, op))
    ensures Fits(Perform(Memory, md, s, op)) ==>
      Agree(After(s, Perform(Memory, md, s, op)), After(t, Perform(Postgres, md, t, op)))
  {
    BooksParts(md, seeds, s);
    SamePerformed(md, s, t, op);
    hide Agree, Keyed, Linked, GoodBooks, Apply, Perform, FitsBigint, DistinctRates, DisjointPeriods, SamePacket,
      SameOutcome, Fits;
    var a, b := Perform(Memory, md, s, op), Perform(Postgres, md, t, op);
    AcceptedTogether(a, b);
    if a.Accepted? && Fits(a) {
      AcceptedPacket(Memory, md, s, op, a.packet);
      AcceptsFresh(md, s, a.packet);
      SameApplied(s, t, a.packet, b.packet);
    }
  }

  lemma AcceptedTogether(a: Outcome, b: Outcome)
    requires SameOutcome(a, b)
    ensures a.Accepted? && Fits(a) ==> b.Accepted? && SamePacket(a.packet, b.packet)
    ensures !a.Accepted? ==> !b.Accepted?
  {
    hide SamePacket, FitsBigint, SameSale;
  }

  /** No operation of the run stores a journal beyond bigint. */
  ghost predicate RunFits(md: Master, seeds: seq<Movement>, ops: seq<Op>) {
    forall i :: 0 <= i < |ops| ==> Fits(Perform(Memory, md, Run(Memory, md, Initial(seeds), ops[..i]), ops[i]))
  }

  /**
   * On every run within bigint the two stores stay in agreement, and they answer the next operation
   * alike unless its journal leaves bigint.
   */
  lemma {:induction false} StoresAgree(md: Master, seeds: seq<Movement>, ops: seq<Op>)
    requires md.Valid() && SeedsOk(seeds)
    requires DistinctRates(md.taxRates) && DisjointPeriods(md.periods) && RunFits(md, seeds, ops)
    ensures Agree(Run(Memory, md, Initial(seeds), ops), Run(Postgres, md, Initial(seeds), ops))
    ensures forall op :: SameOutcome(Perform(Memory, md, Run(Memory, md, Initial(seeds), ops), op),
                                     Perform(Postgres, md, Run(Postgres, md, Initial(seeds), ops), op))
  {
    hide Perform, Agree, GoodBooks, SameOutcome, Fits, DistinctRates, DisjointPeriods, SeedsOk;
    BooksInitial(md, seeds);
    RunKeepsBooks(Memory, md, seeds, Initial(seeds), ops);
    if ops == [] {
      StartsAgree(seeds);
    } else {
      var before := ops[..|ops| - 1];
      FitsBefore(md, seeds, ops);
      StoresAgree(md, seeds, before);
      RunKeepsBooks(Memory, md, seeds, Initial(seeds), before);
      SameStep(md, seeds, Run(Memory, md, Initial(seeds), before), Run(Postgres, md, Initial(seeds), before),
               ops[|ops| - 1]);
    }
    forall op ensures SameOutcome(Perform(Memory, md, Run(Memory, md, Initial(seeds), ops), op),
                                  Perform(Postgres, md, Run(Postgres, md, Initial(seeds), ops), op)) {
      SameStep(md, seeds, Run(Memory, md, Initial(seeds), ops), Run(Postgres, md, Initial(seeds), ops), op);
    }
  }

  lemma FitsBefore(md: Master, seeds: seq<Movement>, ops: seq<Op>)
    requires RunFits(md, seeds, ops) && ops != []
    ensures RunFits(md, seeds, ops[..|ops| - 1])
    ensures Fits(Perform(Memory, md, Run(Memory, md, Initial(seeds), ops[..|ops| - 1]), ops[|ops| - 1]))
  {
    hide Fits, Perform, Run;
    var before := ops[..|ops| - 1];
    forall i | 0 <= i < |before|
      ensures Fits(Perform(Memory, md, Run(Memory, md, Initial(seeds), before[..i]), before[i]))
    {
      assert before[..i] == ops[..i];
    }
  }

  lemma StartsAgree(seeds: seq<Movement>)
    ensures Agree(Initial(seeds), Initial(seeds))
  {
  }

  /** What PostgreSQL has answered, the memory store answers too. */
  lemma AnsweredAlike(a: Outcome, b: Outcome)
    requires SameOutcome(a, b) && b.Reply().Ok?
    ensures Fits(a) && a.Reply().Ok? && SameSale(a.Reply().value, b.Reply().value)
  {
    hide SameSale, SameMoves, FitsBigint;
  }

  /** The memory store's answers to a log of committed operations. */
  ghost predicate AnswersAgree(md: Master, seeds: seq<Movement>, log: seq<Entry>) {
    forall i :: 0 <= i < |log| ==>
      var r := Perform(Memory, md, Run(Memory, md, Initial(seeds), Ops(log[..i])), log[i].op).Reply();
      r.Ok? && SameSale(r.value, log[i].reply)
  }

  lemma {:induction false} LogAgrees(md: Master, seeds: seq<Movement>, log: seq<Entry>)
    requires md.Valid() && SeedsOk(seeds) && DistinctRates(md.taxRates) && DisjointPeriods(md.periods)
    requires Faithful(md, seeds, log)
    ensures RunFits(md, seeds, Ops(log)) && AnswersAgree(md, seeds, log)
  {
    hide Perform, Run, SameOutcome, Fits, DistinctRates, DisjointPeriods, SeedsOk, SameSale, Agree;
    if log == [] {
      assert RunFits(md, seeds, Ops(log)) && AnswersAgree(md, seeds, log);
    } else {
      var n := |log| - 1;
      var before := log[..n];
      LogPrefixes(log);
      assert Faithful(md, seeds, before);
      LogAgrees(md, seeds, before);
      StoresAgree(md, seeds, Ops(before));
      AnsweredAlike(Perform(Memory, md, Run(Memory, md, Initial(seeds), Ops(before)), log[n].op),
                    Perform(Postgres, md, Run(Postgres, md, Initial(seeds), Ops(before)), log[n].op));
    }
  }

  lemma LogPrefixes(log: seq<Entry>)
    requires log != []
    ensures forall i :: 0 <= i <= |log| - 1 ==> log[..|log| - 1][..i] == log[..i] && Ops(log)[..i] == Ops(log[..i])
    ensures forall i :: 0 <= i < |log| - 1 ==> Ops(log[..|log| - 1])[..i] == Ops(log[..i])
  {
  }

  /**
   * Commit order, on the memory store: every interleaving of PostgreSQL transactions ends in a state that
   * agrees with the memory store after the committed operations, one after another in commit order, and
   * each was answered as the memory store answers it. What committed fits bigint, so no bound is needed.
   */
  lemma {:induction false} CommitOrderOnMemory(md: Master, seeds: seq<Movement>, actions: seq<Action>)
    requires md.Valid() && SeedsOk(seeds) && DistinctRates(md.taxRates) && DisjointPeriods(md.periods)
    ensures var db := Interleave(md, Start(seeds), actions);
      && Agree(Run(Memory, md, Initial(seeds), Ops(db.log)), db.committed)
      && AnswersAgree(md, seeds, db.log)
  {
    hide Interleave, Agree, Run, Perform, RunFits, AnswersAgree, DistinctRates, DisjointPeriods, SeedsOk, Faithful,
      SessionsOk, GoodBooks;
    CommitOrder(md, seeds, actions);
    var log := Interleave(md, Start(seeds), actions).log;
    LogAgrees(md, seeds, log);
    StoresAgree(md, seeds, Ops(log));
  }
}
