/** The outbox table with its leases, and one pass of the processor over it. */
module Outbox {
  import opened Basics
  import opened Sums

  // The table.

  datatype Row = Row(tenant: string, occurredAt: int, availableAt: int, processedAt: Option<int>, attempts: nat,
                     lastError: Option<string>, lockedBy: Option<string>, lockedUntil: Option<int>)

  type Rows = map<string, Row>

  predicate Eligible(row: Row, tenant: string, now: int) {
    row.tenant == tenant && row.processedAt.None? && row.availableAt <= now
    && (row.lockedUntil.None? || row.lockedUntil.value < now)
  }

  /** ORDER BY occurred_at, id. */
  predicate Before(rows: Rows, a: string, b: string)
    requires a in rows && b in rows
  {
    rows[a].occurredAt < rows[b].occurredAt || (rows[a].occurredAt == rows[b].occurredAt && LexLess(a, b))
  }

  /** The rows a claim picks while other transactions hold row locks on `locked`. */
  ghost predicate IsBatch(rows: Rows, tenant: string, now: int, limit: int, locked: set<string>, batch: seq<string>) {
    && |batch| <= limit
    && (forall i, j :: 0 <= i < j < |batch| ==> batch[i] != batch[j])
    && (forall b :: b in batch ==> b in rows && b !in locked && Eligible(rows[b], tenant, now))
    && (forall x :: x in rows && x !in locked && x !in batch && Eligible(rows[x], tenant, now) ==>
      |batch| == limit && forall b :: b in batch ==> !Before(rows, x, b))
  }

  /** The rows a claim leaves behind are no older than those it takes, and it leaves none behind with room to spare. */
  lemma OldestFirst(rows: Rows, tenant: string, now: int, limit: int, locked: set<string>, batch: seq<string>,
                    x: string)
    requires IsBatch(rows, tenant, now, limit, locked, batch)
    requires x in rows && x !in locked && x !in batch
    requires rows[x].tenant == tenant && rows[x].processedAt == None && rows[x].availableAt <= now
    requires rows[x].lockedUntil.Some? ==> rows[x].lockedUntil.value < now
    ensures |batch| == limit
    ensures forall b :: b in batch ==>
      && b in rows && rows[b].occurredAt <= rows[x].occurredAt
      && (rows[b].occurredAt == rows[x].occurredAt ==> !LexLess(x, b))
  {
    assert Eligible(rows[x], tenant, now);
  }

  /** What a claim takes is free, due and of its tenant. */
  lemma TakesDue(rows: Rows, tenant: string, now: int, limit: int, locked: set<string>, batch: seq<string>, b: string)
    requires IsBatch(rows, tenant, now, limit, locked, batch) && b in batch
    ensures b in rows && b !in locked && |batch| <= limit
    ensures rows[b].tenant == tenant && rows[b].processedAt == None && rows[b].availableAt <= now
    ensures rows[b].lockedUntil.Some? ==> rows[b].lockedUntil.value < now
  {
  }

  function Leased(row: Row, worker: string, until: int): Row {
    row.(lockedBy := Some(worker), lockedUntil := Some(until), attempts := row.attempts + 1, lastError := None)
  }

  function Taken(rows: Rows, batch: seq<string>, worker: string, until: int): Rows {
    map x | x in rows :: if x in batch then Leased(rows[x], worker, until) else rows[x]
  }

  predicate Owns(rows: Rows, tenant: string, id: string, worker: string) {
    id in rows && rows[id].tenant == tenant && rows[id].lockedBy == Some(worker) && rows[id].processedAt.None?
  }

  function Released(row: Row): Row {
    row.(lockedBy := None, lockedUntil := None)
  }

  function Published(row: Row, at: int): Row {
    Released(row).(processedAt := Some(at), lastError := None)
  }

  function Failed(row: Row, retryAt: int, reason: string): Row {
    Released(row).(availableAt := retryAt, lastError := Some(reason))
  }

  function Shortened(reason: string): string {
    if |reason| > 2000 then reason[..2000] else reason
  }

  class Table {
    var rows: Rows

    /** The first of some rows in the order of the query. */
    method Earliest(left: set<string>) returns (first: string)
      requires left != {} && left <= rows.Keys
      ensures first in left
      ensures forall x :: x in left ==> !Before(rows, x, first)
    {
      first :| first in left;
      LexIrreflexive(first);
      var rest := left - {first};
      while rest != {}
        invariant rest <= left && first in left
        invariant forall x :: x in left - rest ==> !Before(rows, x, first)
      {
        var next :| next in rest;
        if Before(rows, next, first) {
          forall x | x in left - rest ensures !Before(rows, x, next) {
            if Before(rows, x, next) && LexLess(x, next) && LexLess(next, first) {
              LexTransitive(x, next, first);
            }
          }
          LexIrreflexive(next);
          first := next;
        }
        rest := rest - {next};
      }
    }

    method Claim(tenant: string, worker: string, limit: int, now: int, until: int, locked: set<string>)
      returns (batch: Option<seq<string>>)
      modifies this
      ensures batch.None? <==> tenant == "" || worker == "" || limit < 1 || until <= now
      ensures batch.None? ==> rows == old(rows)
      ensures batch.Some? ==>
        && IsBatch(old(rows), tenant, now, limit, locked, batch.value)
        && rows == Taken(old(rows), batch.value, worker, until)
        && rows.Keys == old(rows).Keys
        && (forall x :: x in rows && x !in batch.value ==> rows[x] == old(rows)[x])
        && (forall x :: x in rows && x in batch.value ==>
            rows[x] == Row(tenant, old(rows)[x].occurredAt, old(rows)[x].availableAt, None, old(rows)[x].attempts + 1,
                           None, Some(worker), Some(until)))
    {
      if tenant == "" || worker == "" || limit < 1 || until <= now {
        return None;
      }
      var left := set x | x in rows && x !in locked && Eligible(rows[x], tenant, now);
      ghost var all := left;
      var picked: seq<string> := [];
      while |picked| < limit && left != {}
        invariant rows == old(rows) && |picked| <= limit && left <= all
        invariant forall x :: x in picked ==> x in rows
        invariant forall x :: x in picked <==> x in all && x !in left
        invariant forall i, j :: 0 <= i < j < |picked| ==> picked[i] != picked[j]
        invariant forall x, b :: x in left && b in picked ==> !Before(rows, x, b)
        decreases left
      {
        var first := Earliest(left);
        picked, left := picked + [first], left - {first};
      }
      rows := Taken(rows, picked, worker, until);
      return Some(picked);
    }

    method UpdateDelivery(tenant: string, id: string, worker: string, written: Row) returns (ok: bool)
      modifies this
      ensures ok <==> Owns(old(rows), tenant, id, worker)
      ensures rows == if ok then old(rows)[id := written] else old(rows)
    {
      if id !in rows || rows[id].tenant != tenant || rows[id].lockedBy != Some(worker) || rows[id].processedAt.Some? {
        return false;
      }
      rows := rows[id := written];
      return true;
    }

    method MarkPublished(tenant: string, id: string, worker: string, at: int) returns (ok: bool)
      modifies this
      ensures ok <==> Owns(old(rows), tenant, id, worker)
      ensures rows == if ok then old(rows)[id := Published(old(rows)[id], at)] else old(rows)
      ensures ok ==>
        && old(rows)[id].lockedBy == Some(worker) && old(rows)[id].processedAt == None
        && rows[id] == Row(tenant, old(rows)[id].occurredAt, old(rows)[id].availableAt, Some(at),
                           old(rows)[id].attempts,
                           None, None, None)
    {
      if id !in rows {
        return false;
      }
      ok := UpdateDelivery(tenant, id, worker, Published(rows[id], at));
    }

    method MarkFailed(tenant: string, id: string, worker: string, retryAt: int, reason: string) returns (ok: bool)
      modifies this
      ensures ok <==> Owns(old(rows), tenant, id, worker)
      ensures rows == if ok then old(rows)[id := Failed(old(rows)[id], retryAt, Shortened(reason))] else old(rows)
      ensures ok ==>
        && old(rows)[id].lockedBy == Some(worker) && old(rows)[id].processedAt == None
        && rows[id] == Row(tenant, old(rows)[id].occurredAt, retryAt, None, old(rows)[id].attempts,
                           Some(if |reason| > 2000 then reason[..2000] else reason), None, None)
    {
      if id !in rows {
        return false;
      }
      ok := UpdateDelivery(tenant, id, worker, Failed(rows[id], retryAt, Shortened(reason)));
    }
  }

  // What a worker asks of the repository and the publisher.

  /** An event in a worker's hands; the attempt says which claim handed it out. */
  datatype Event = Event(id: string, attempt: nat)

  datatype Call =
    | Claim(tenant: string, limit: int, now: int, until: int, batch: Option<seq<Event>>)
    | Publish(event: Event, delivered: bool)
    | MarkPublished(tenant: string, event: Event, at: int, ok: bool)
    | MarkFailed(tenant: string, event: Event, retryAt: int, reason: string, ok: bool)

  datatype Item = Item(tenant: string, event: Event, sent: Option<bool>)

  function Items(tenant: string, events: seq<Event>): seq<Item> {
    seq(|events|, i requires 0 <= i < |events| => Item(tenant, events[i], None))
  }

  /** What is in hand after a call, if the worker may make the call. */
  function Next(hand: seq<Item>, call: Call): Option<seq<Item>> {
    match call
    case Claim(tenant, _, _, _, batch) =>
      if hand != [] then None else Some(if batch.Some? then Items(tenant, batch.value) else [])
    case Publish(event, delivered) =>
      if hand == [] || hand[0].event != event || hand[0].sent.Some? then None
      else Some([hand[0].(sent := Some(delivered))] + hand[1..])
    case MarkPublished(tenant, event, _, _) =>
      if hand == [] || hand[0] != Item(tenant, event, Some(true)) then None else Some(hand[1..])
    case MarkFailed(tenant, event, _, _, _) =>
      if hand == [] || hand[0] != Item(tenant, event, Some(false)) then None else Some(hand[1..])
  }

  function Follow(calls: seq<Call>): Option<seq<Item>> {
    if calls == [] then Some([]) else
    match Follow(calls[..|calls| - 1])
    case None => None
    case Some(hand) => Next(hand, calls[|calls| - 1])
  }

  function ClaimedEvents(calls: seq<Call>): seq<Event> {
    if calls == [] then [] else
    ClaimedEvents(calls[..|calls| - 1])
    + match calls[|calls| - 1] case Claim(_, _, _, _, Some(events)) => events case _ => []
  }

  function SentEvents(calls: seq<Call>): seq<Event> {
    if calls == [] then [] else
    SentEvents(calls[..|calls| - 1]) + match calls[|calls| - 1] case Publish(e, _) => [e] case _ => []
  }

  function AckedEvents(calls: seq<Call>): seq<Event> {
    if calls == [] then [] else
    AckedEvents(calls[..|calls| - 1])
    + match calls[|calls| - 1] case MarkPublished(_, e, _, _) => [e] case MarkFailed(_, e, _, _, _) => [e] case _ => []
  }

  function ClaimedTenants(calls: seq<Call>): seq<string> {
    if calls == [] then [] else
    ClaimedTenants(calls[..|calls| - 1]) + match calls[|calls| - 1] case Claim(t, _, _, _, _) => [t] case _ => []
  }

  function IsPublished(): Call -> int {
    (c: Call) => if c.MarkPublished? && c.ok then 1 else 0
  }

  function IsEventFailure(): Call -> int {
    (c: Call) => if (c.MarkPublished? && !c.ok) || c.MarkFailed? then 1 else 0
  }

  function IsClaimFailure(): Call -> int {
    (c: Call) => if c.Claim? && c.batch.None? then 1 else 0
  }

  function Events(hand: seq<Item>): seq<Event> {
    seq(|hand|, i requires 0 <= i < |hand| => hand[i].event)
  }

  /** What one more call adds to each reading of the calls. */
  lemma Appended(calls: seq<Call>, c: Call)
    ensures Follow(calls + [c]) == (if Follow(calls).None? then None else Next(Follow(calls).value, c))
    ensures ClaimedTenants(calls + [c]) == ClaimedTenants(calls) + (if c.Claim? then [c.tenant] else [])
    ensures ClaimedEvents(calls + [c])
      == ClaimedEvents(calls) + (if c.Claim? && c.batch.Some? then c.batch.value else [])
    ensures SentEvents(calls + [c]) == SentEvents(calls) + (if c.Publish? then [c.event] else [])
    ensures AckedEvents(calls + [c])
      == AckedEvents(calls) + (if c.MarkPublished? || c.MarkFailed? then [c.event] else [])
    ensures forall f: Call -> int :: Sum(calls + [c], f) == Sum(calls, f) + f(c)
    ensures FailuresOf(calls + [c]) == FailuresOf(calls) + FailuresOf([c])
  {
    assert [c][..0] == [];
    assert (calls + [c])[..|calls|] == calls;
  }

  /** Whatever is claimed is acknowledged or still in hand, and whatever is acknowledged was sent once. */
  ghost predicate InHand(hand: seq<Item>, claimed: seq<Event>, sent: seq<Event>, acked: seq<Event>) {
    && claimed == acked + Events(hand)
    && sent == acked + (if hand != [] && hand[0].sent.Some? then [hand[0].event] else [])
    && (forall i :: 0 < i < |hand| ==> hand[i].sent.None?)
  }

  lemma {:induction false} HandKeeps(calls: seq<Call>)
    requires Follow(calls).Some?
    ensures InHand(Follow(calls).value, ClaimedEvents(calls), SentEvents(calls), AckedEvents(calls))
    ensures Sum(calls, IsPublished()) + Sum(calls, IsEventFailure()) == |AckedEvents(calls)|
  {
    if calls == [] {
    } else {
      var before, c := calls[..|calls| - 1], calls[|calls| - 1];
      assert calls == before + [c];
      Appended(before, c);
      HandKeeps(before);
      hide Follow, ClaimedEvents, SentEvents, AckedEvents, Sum;
      HandStep(Follow(before).value, c, ClaimedEvents(before), SentEvents(before), AckedEvents(before));
    }
  }

  lemma HandStep(hand: seq<Item>, c: Call, claimed: seq<Event>, sent: seq<Event>, acked: seq<Event>)
    requires InHand(hand, claimed, sent, acked) && Next(hand, c).Some?
    ensures InHand(Next(hand, c).value,
                   claimed + (if c.Claim? && c.batch.Some? then c.batch.value else []),
                   sent + (if c.Publish? then [c.event] else []),
                   acked + (if c.MarkPublished? || c.MarkFailed? then [c.event] else []))
  {
    var left := Next(hand, c).value;
    match c
    case Claim(tenant, _, _, _, batch) =>
      assert batch.Some? ==> Events(left) == batch.value;
    case Publish(event, delivered) =>
      assert Events(left) == Events(hand);
    case MarkPublished(_, event, _, _) =>
      assert Events(hand) == [event] + Events(left);
    case MarkFailed(_, event, _, _, _) =>
      assert Events(hand) == [event] + Events(left);
  }

  // One pass.

  datatype Processor = Processor(worker: string, batchSize: int, lease: int, retryDelay: int)

  /** What the clock, the repository and the publisher answer to the n-th call. */
  datatype Environment = Environment(tenants: Option<seq<string>>, clock: nat -> int,
                                     claim: nat -> Option<seq<Event>>, publish: nat -> Option<string>,
                                     mark: nat -> bool)

  datatype Failure =
    | Misconfigured
    | NoTenants
    | ClaimFailed(tenant: string)
    | PublishFailed(event: Event, recorded: bool)
    | MarkLost(event: Event)

  predicate Configured(p: Processor) {
    p.worker != "" && p.batchSize >= 1 && p.lease > 0 && p.retryDelay > 0
  }

  /**
   * Every call carries what the clock said and what the repository and the publisher answered to it, and an event is
   * acknowledged by the answer its own publication got.
   */
  ghost predicate Answered(p: Processor, env: Environment, calls: seq<Call>) {
    forall n :: 0 <= n < |calls| ==> CallAnswered(p, env, calls, n)
  }

  ghost predicate CallAnswered(p: Processor, env: Environment, calls: seq<Call>, n: nat)
    requires n < |calls|
  {
    match calls[n]
    case Claim(tenant, limit, now, until, batch) =>
      limit == p.batchSize && now == env.clock(n) && until == env.clock(n) + p.lease && batch == env.claim(n)
    case Publish(e, delivered) => delivered <==> env.publish(n).None?
    case MarkPublished(tenant, e, at, ok) =>
      n > 0 && calls[n - 1] == Publish(e, true) && at == env.clock(n) && ok == env.mark(n)
    case MarkFailed(tenant, e, retryAt, reason, ok) =>
      && n > 0 && calls[n - 1] == Publish(e, false) && env.publish(n - 1) == Some(reason)
      && retryAt == env.clock(n) + p.retryDelay && ok == env.mark(n)
  }

  lemma AnsweredNext(p: Processor, env: Environment, calls: seq<Call>, c: Call)
    requires Answered(p, env, calls) && CallAnswered(p, env, calls + [c], |calls|)
    ensures Answered(p, env, calls + [c])
  {
    forall n | 0 <= n < |calls| ensures CallAnswered(p, env, calls + [c], n) {
      assert CallAnswered(p, env, calls, n);
      assert n > 0 ==> (calls + [c])[n - 1] == calls[n - 1];
    }
  }

  /** The failures a pass reports for its calls, in their order. */
  function FailuresOf(calls: seq<Call>): seq<Failure> {
    if calls == [] then [] else
    FailuresOf(calls[..|calls| - 1])
    + match calls[|calls| - 1]
      case Claim(tenant, _, _, _, None) => [ClaimFailed(tenant)]
      case MarkPublished(_, e, _, false) => [MarkLost(e)]
      case MarkFailed(_, e, _, _, ok) => [PublishFailed(e, ok)]
      case _ => []
  }

  /** The calls that fail: a refused claim, a failed publication, a lost acknowledgement. */
  predicate Fails(c: Call, f: Failure) {
    match f
    case ClaimFailed(tenant) => c.Claim? && c.tenant == tenant && c.batch.None?
    case MarkLost(e) => c.MarkPublished? && c.event == e && !c.ok
    case PublishFailed(e, recorded) => c.MarkFailed? && c.event == e && c.ok == recorded
    case _ => false
  }

  /** Every reported failure is that of a call, and every call that fails is reported. */
  lemma {:induction false} FailuresExplained(calls: seq<Call>)
    ensures forall f :: f in FailuresOf(calls) <==> exists n :: 0 <= n < |calls| && Fails(calls[n], f)
  {
    if calls == [] {
    } else {
      var before, c := calls[..|calls| - 1], calls[|calls| - 1];
      FailuresExplained(before);
      forall f ensures f in FailuresOf(calls) <==> exists n :: 0 <= n < |calls| && Fails(calls[n], f) {
        if f in FailuresOf(before) {
          var n :| 0 <= n < |before| && Fails(before[n], f);
          assert calls[n] == before[n];
        }
        if n :| 0 <= n < |before| && Fails(calls[n], f) {
          assert before[n] == calls[n];
        }
        assert Fails(c, f) ==> Fails(calls[|calls| - 1], f);
      }
    }
  }

  /** Where a pass stands after its calls. */
  ghost predicate Tally(p: Processor, env: Environment, calls: seq<Call>, hand: seq<Item>, tenants: seq<string>,
                        published: int, failures: seq<Failure>)
  {
    && Follow(calls) == Some(hand)
    && ClaimedTenants(calls) == tenants
    && published == Sum(calls, IsPublished())
    && failures == FailuresOf(calls)
    && |failures| == Sum(calls, IsClaimFailure()) + Sum(calls, IsEventFailure())
    && Answered(p, env, calls)
  }

  lemma Called(p: Processor, env: Environment, calls: seq<Call>, hand: seq<Item>, tenants: seq<string>, published: int,
               failures: seq<Failure>, c: Call)
    requires Tally(p, env, calls, hand, tenants, published, failures) && Next(hand, c).Some?
    requires CallAnswered(p, env, calls + [c], |calls|)
    ensures Tally(p, env, calls + [c], Next(hand, c).value, tenants + (if c.Claim? then [c.tenant] else []),
                  published + IsPublished()(c), failures + FailuresOf([c]))
  {
    Appended(calls, c);
    AnsweredNext(p, env, calls, c);
    OneFailure(c);
    hide Follow, ClaimedTenants, Sum, Next, Answered, CallAnswered, FailuresOf;
  }

  lemma OneFailure(c: Call)
    ensures |FailuresOf([c])| == IsClaimFailure()(c) + IsEventFailure()(c)
  {
    assert [c][..0] == [];
  }

  /**
   * Every tenant is claimed once, whatever fails; every event handed out is published exactly once, in
   * order, before the next claim; and it ends either published or among the failures.
   */
  method RunOnce(p: Processor, env: Environment) returns (published: int, failures: seq<Failure>, calls: seq<Call>)
    ensures Follow(calls) == Some([])
    ensures !Configured(p) ==> failures == [Misconfigured] && published == 0 && calls == []
    ensures Configured(p) && env.tenants.None? ==> failures == [NoTenants] && published == 0 && calls == []
    ensures Configured(p) && env.tenants.Some? ==>
      && Tally(p, env, calls, [], env.tenants.value, published, failures)
      && SentEvents(calls) == ClaimedEvents(calls) == AckedEvents(calls)
      && published + Sum(calls, IsEventFailure()) == |ClaimedEvents(calls)|
  {
    published, failures, calls := 0, [], [];
    if p.worker == "" || p.batchSize < 1 || p.lease <= 0 || p.retryDelay <= 0 {
      return 0, [Misconfigured], [];
    }
    if env.tenants.None? {
      return 0, [NoTenants], [];
    }
    var tenants := env.tenants.value;
    assert Tally(p, env, [], [], tenants[..0], 0, []);
    hide Tally, Sum, Follow, ClaimedTenants, FailuresOf;
    for i := 0 to |tenants|
      invariant Tally(p, env, calls, [], tenants[..i], published, failures)
    {
      var tenant := tenants[i];
      assert tenants[..i + 1] == tenants[..i] + [tenant];
      var now := env.clock(|calls|);
      var claimed := env.claim(|calls|);
      var claim := Claim(tenant, p.batchSize, now, now + p.lease, claimed);
      Called(p, env, calls, [], tenants[..i], published, failures, claim);
      calls := calls + [claim];
      if claimed.None? {
        failures := failures + [ClaimFailed(tenant)];
        continue;
      }
      var events := claimed.value;
      for j := 0 to |events|
        invariant Tally(p, env, calls, Items(tenant, events)[j..], tenants[..i + 1], published, failures)
      {
        var event := events[j];
        var problem := env.publish(|calls|);
        ghost var hand := Items(tenant, events)[j..];
        assert hand[1..] == Items(tenant, events)[j + 1..] && hand[0] == Item(tenant, event, None);
        Taking(p, env, calls, hand, tenants[..i + 1], published, failures, Publish(event, problem.None?));
        calls := calls + [Publish(event, problem.None?)];
        var ok := env.mark(|calls|);
        var at := env.clock(|calls|);
        if problem.Some? {
          Acknowledging(p, env, calls, hand, tenants[..i + 1], published, failures,
                        MarkFailed(tenant, event, at + p.retryDelay, problem.value, ok));
          calls := calls + [MarkFailed(tenant, event, at + p.retryDelay, problem.value, ok)];
          failures := failures + [PublishFailed(event, ok)];
          continue;
        }
        Acknowledging(p, env, calls, hand, tenants[..i + 1], published, failures, MarkPublished(tenant, event, at, ok));
        calls := calls + [MarkPublished(tenant, event, at, ok)];
        if !ok {
          failures := failures + [MarkLost(event)];
          continue;
        }
        published := published + 1;
      }
    }
    assert tenants[..|tenants|] == tenants;
    TallyEnds(p, env, calls, tenants, published, failures);
  }

  /** The first item in hand is published. */
  lemma Taking(p: Processor, env: Environment, calls: seq<Call>, hand: seq<Item>, tenants: seq<string>, published: int,
               failures: seq<Failure>, c: Call)
    requires Tally(p, env, calls, hand, tenants, published, failures)
    requires hand != [] && c.Publish? && hand[0] == Item(hand[0].tenant, c.event, None)
    requires c.delivered <==> env.publish(|calls|).None?
    ensures Tally(p, env, calls + [c], [hand[0].(sent := Some(c.delivered))] + hand[1..], tenants, published, failures)
    ensures calls + [c] != [] && (calls + [c])[|calls|] == c
  {
    Called(p, env, calls, hand, tenants, published, failures, c);
    assert [c][..0] == [];
    hide Tally;
  }

  /** The item just published leaves the hand, by the answer its publication got. */
  lemma Acknowledging(p: Processor, env: Environment, calls: seq<Call>, hand: seq<Item>, tenants: seq<string>,
                      published: int, failures: seq<Failure>, c: Call)
    requires hand != [] && (c.MarkPublished? || c.MarkFailed?) && hand[0].tenant == c.tenant && hand[0].event == c.event
    requires Tally(p, env, calls, [hand[0].(sent := Some(c.MarkPublished?))] + hand[1..], tenants, published, failures)
    requires calls != [] && calls[|calls| - 1] == Publish(c.event, c.MarkPublished?) && c.ok == env.mark(|calls|)
    requires c.MarkPublished? ==> c.at == env.clock(|calls|)
    requires c.MarkFailed? ==>
      env.publish(|calls| - 1) == Some(c.reason) && c.retryAt == env.clock(|calls|) + p.retryDelay
    ensures Tally(p, env, calls + [c], hand[1..], tenants, published + (if c.MarkPublished? && c.ok then 1 else 0),
                  failures + if c.MarkFailed? then [PublishFailed(c.event, c.ok)]
                             else if c.ok then [] else [MarkLost(c.event)])
  {
    var sent := [hand[0].(sent := Some(c.MarkPublished?))] + hand[1..];
    assert sent[1..] == hand[1..];
    Called(p, env, calls, sent, tenants, published, failures, c);
    assert [c][..0] == [];
    hide Tally;
  }

  lemma TallyEnds(p: Processor, env: Environment, calls: seq<Call>, tenants: seq<string>, published: int,
                  failures: seq<Failure>)
    requires Tally(p, env, calls, [], tenants, published, failures)
    ensures SentEvents(calls) == ClaimedEvents(calls) == AckedEvents(calls)
    ensures published + Sum(calls, IsEventFailure()) == |ClaimedEvents(calls)|
  {
    HandKeeps(calls);
  }
}
