/**
 * The delivery protocol: any number of workers with their own clocks over one outbox table, with
 * crashes, failed publishes, unreachable databases, lost replies and late acknowledgements.
 */
module Delivery {
  import opened Basics
  import opened Sums
  import opened Outbox

  datatype Sending = Sending(worker: string, event: Event, delivered: bool)

  /** The committed rows, what each worker has in hand, and every Publish call so far. */
  datatype World = World(rows: Rows, hands: map<string, seq<Item>>, sent: seq<Sending>)

  /** A database call answers, commits without its answer arriving, or never gets through. */
  datatype Fate = Served | Lost(batch: seq<string>) | Unreached

  datatype Action =
    | Insert(id: string, row: Row)
    | Crash(worker: string)
    | Make(worker: string, call: Call, fate: Fate, locked: set<string>)

  function HandOf(w: World, worker: string): seq<Item> {
    if worker in w.hands then w.hands[worker] else []
  }

  function Ids(events: seq<Event>): (ids: seq<string>)
    ensures |ids| == |events|
  {
    seq(|events|, i requires 0 <= i < |events| => events[i].id)
  }

  /** A claim that reached the database with these rows. */
  ghost predicate Claims(rows: Rows, worker: string, call: Call, locked: set<string>, batch: seq<string>)
    requires call.Claim?
  {
    call.tenant != "" && worker != "" && call.limit >= 1 && call.now < call.until
    && IsBatch(rows, call.tenant, call.now, call.limit, locked, batch)
  }

  /** Whether the database may treat the call like this. */
  ghost predicate Answers(rows: Rows, worker: string, call: Call, fate: Fate, locked: set<string>) {
    match call
    case Claim(_, _, _, _, Some(events)) =>
      && fate.Served? && Claims(rows, worker, call, locked, Ids(events))
      && forall e :: e in events ==> e.id in rows && e.attempt == rows[e.id].attempts + 1
    case Claim(_, _, _, _, None) => fate.Lost? ==> Claims(rows, worker, call, locked, fate.batch)
    case Publish(_, _) => true
    case MarkPublished(tenant, e, _, ok) => ok <==> fate.Served? && Owns(rows, tenant, e.id, worker)
    case MarkFailed(tenant, e, _, _, ok) => ok <==> fate.Served? && Owns(rows, tenant, e.id, worker)
  }

  function RowsAfter(rows: Rows, worker: string, call: Call, fate: Fate): Rows {
    match call
    case Claim(_, _, _, until, Some(events)) => Taken(rows, Ids(events), worker, until)
    case Claim(_, _, _, until, None) => if fate.Lost? then Taken(rows, fate.batch, worker, until) else rows
    case Publish(_, _) => rows
    case MarkPublished(tenant, e, at, _) =>
      if fate.Unreached? || !Owns(rows, tenant, e.id, worker) then rows else rows[e.id := Published(rows[e.id], at)]
    case MarkFailed(tenant, e, retryAt, reason, _) =>
      if fate.Unreached? || !Owns(rows, tenant, e.id, worker) then rows
      else rows[e.id := Failed(rows[e.id], retryAt, Shortened(reason))]
  }

  ghost predicate Possible(w: World, a: Action) {
    match a
    case Insert(id, row) =>
      id !in w.rows && row.processedAt.None? && row.attempts == 0 && row.lockedBy.None? && row.lockedUntil.None?
    case Crash(_) => true
    case Make(worker, call, fate, locked) =>
      Next(HandOf(w, worker), call).Some? && Answers(w.rows, worker, call, fate, locked)
  }

  /** The world after an action; an impossible action changes nothing. */
  ghost function After(w: World, a: Action): World {
    if !Possible(w, a) then w else
    match a
    case Insert(id, row) => w.(rows := w.rows[id := row])
    case Crash(worker) => w.(hands := w.hands[worker := []])
    case Make(worker, call, fate, _) =>
      World(RowsAfter(w.rows, worker, call, fate),
            w.hands[worker := Next(HandOf(w, worker), call).value],
            w.sent + (if call.Publish? then [Sending(worker, call.event, call.delivered)] else []))
  }

  ghost function Execute(w: World, actions: seq<Action>): World {
    if actions == [] then w else After(Execute(w, actions[..|actions| - 1]), actions[|actions| - 1])
  }

  const EMPTY: World := World(map[], map[], [])

  // The invariant.

  predicate Issued(rows: Rows, e: Event) {
    e.id in rows && 1 <= e.attempt <= rows[e.id].attempts
  }

  /** Events in hand were handed out by a claim, and only the first can have been sent. */
  ghost predicate HandsIssued(w: World) {
    forall worker, i | 0 <= i < |HandOf(w, worker)| ::
      var item := HandOf(w, worker)[i];
      && Issued(w.rows, item.event)
      && w.rows[item.event.id].tenant == item.tenant
      && (i > 0 ==> item.sent.None?)
  }

  /** No claim hands out its events twice. */
  ghost predicate HandsDiffer(w: World) {
    forall a, i, b, j | 0 <= i < |HandOf(w, a)| && 0 <= j < |HandOf(w, b)|
      && HandOf(w, a)[i].event == HandOf(w, b)[j].event ::
      a == b && i == j
  }

  /** An event in hand has been sent exactly when its item says so. */
  ghost predicate HandsKnow(w: World) {
    forall worker, i | 0 <= i < |HandOf(w, worker)| ::
      var item := HandOf(w, worker)[i];
      match item.sent
      case None => forall s :: s in w.sent ==> s.event != item.event
      case Some(delivered) => Sending(worker, item.event, delivered) in w.sent
  }

  /** A worker that still owns the row of an event in hand owns it by that very claim. */
  ghost predicate LeaseIsLatest(w: World) {
    forall worker, i | 0 <= i < |HandOf(w, worker)| ::
      var item := HandOf(w, worker)[i];
      item.event.id in w.rows && w.rows[item.event.id].lockedBy == Some(worker) ==>
        item.event.attempt == w.rows[item.event.id].attempts
  }

  ghost predicate SentIssued(w: World) {
    && (forall s :: s in w.sent ==> Issued(w.rows, s.event))
    && (forall i, j :: 0 <= i < j < |w.sent| ==> w.sent[i].event != w.sent[j].event)
  }

  /** A processed row was delivered under its last claim. */
  ghost predicate ProcessedWasSent(w: World) {
    forall id :: id in w.rows && w.rows[id].processedAt.Some? ==>
      w.rows[id].lockedBy.None? && exists s :: s in w.sent && s.event == Event(id, w.rows[id].attempts) && s.delivered
  }

  ghost predicate Sound(w: World) {
    HandsIssued(w) && HandsDiffer(w) && HandsKnow(w) && LeaseIsLatest(w) && SentIssued(w) && ProcessedWasSent(w)
  }

  // What an action does to a row.

  /** One action on one row: leased by a claim, acknowledged by its owner, or untouched. */
  lemma RowStep(w: World, a: Action, id: string)
    requires id in w.rows
    ensures var w' := After(w, a);
      && id in w'.rows
      && var row, row' := w.rows[id], w'.rows[id];
         || row' == row
         || (a.Make? && a.call.Claim? && row.processedAt.None? && row' == Leased(row, a.worker, a.call.until)
             && Eligible(row, a.call.tenant, a.call.now))
         || (a.Make? && a.call.MarkPublished? && a.call.event.id == id && Possible(w, a)
             && row.lockedBy == Some(a.worker) && row.processedAt.None? && row' == Published(row, a.call.at))
         || (a.Make? && a.call.MarkFailed? && a.call.event.id == id && Possible(w, a)
             && row.lockedBy == Some(a.worker) && row.processedAt.None?
             && row' == Failed(row, a.call.retryAt, Shortened(a.call.reason)))
  {
  }

  lemma RowsGrow(w: World, a: Action)
    ensures forall id :: id in w.rows ==>
      && id in After(w, a).rows
      && After(w, a).rows[id].attempts >= w.rows[id].attempts
      && After(w, a).rows[id].tenant == w.rows[id].tenant
  {
    forall id | id in w.rows
      ensures id in After(w, a).rows && After(w, a).rows[id].attempts >= w.rows[id].attempts
              && After(w, a).rows[id].tenant == w.rows[id].tenant
    {
      RowStep(w, a, id);
      hide After;
    }
  }

  /** The events a claim hands out are newer than any in hand or sent. */
  lemma ClaimedAreNew(w: World, a: Action)
    requires Possible(w, a) && a.Make? && a.call.Claim? && a.call.batch.Some?
    ensures var events, w' := a.call.batch.value, After(w, a);
      && HandOf(w, a.worker) == []
      && HandOf(w', a.worker) == Items(a.call.tenant, events)
      && (forall i :: 0 <= i < |events| ==> events[i].id in w.rows && w.rows[events[i].id].tenant == a.call.tenant
                                            && events[i].attempt == w.rows[events[i].id].attempts + 1
                                            && w'.rows[events[i].id]
                                               == Leased(w.rows[events[i].id], a.worker, a.call.until))
      && (forall i, j :: 0 <= i < j < |events| ==> events[i].id != events[j].id)
  {
    var events := a.call.batch.value;
    var ids := Ids(events);
    forall i | 0 <= i < |events|
      ensures events[i] in events && ids[i] in ids && ids[i] == events[i].id
    {
    }
    forall i, j | 0 <= i < j < |events| ensures events[i].id != events[j].id {
      assert ids[i] != ids[j];
    }
  }

  lemma OtherHands(w: World, a: Action)
    ensures forall b :: (a.Insert? || a.worker != b) ==> HandOf(After(w, a), b) == HandOf(w, b)
    ensures a.Make? && Possible(w, a) ==>
      Next(HandOf(w, a.worker), a.call) == Some(HandOf(After(w, a), a.worker))
    ensures a.Crash? ==> HandOf(After(w, a), a.worker) == []
    ensures After(w, a).sent ==
      w.sent + (if a.Make? && a.call.Publish? && Possible(w, a)
                then [Sending(a.worker, a.call.event, a.call.delivered)] else [])
  {
  }

  /** Outside a claim, a hand keeps its events: the first may be sent or leave. */
  lemma HandShrinks(hand: seq<Item>, call: Call, left: seq<Item>)
    requires Next(hand, call) == Some(left) && !call.Claim?
    ensures |left| <= |hand| <= |left| + 1 && hand != []
    ensures var k := |hand| - |left|; k == (if call.Publish? then 0 else 1)
    ensures forall i :: 0 <= i < |left| ==>
      var o := hand[i + |hand| - |left|];
      left[i] == if i == 0 && call.Publish? then o.(sent := Some(call.delivered)) else o
    ensures call.Publish? ==> hand[0].event == call.event && hand[0].sent.None?
  {
  }

  /** Does the action hand these events out to this worker? */
  ghost predicate Hands(w: World, a: Action, b: string) {
    a.Make? && Possible(w, a) && a.worker == b && a.call.Claim? && a.call.batch.Some?
  }

  ghost predicate Sends(w: World, a: Action, b: string) {
    a.Make? && Possible(w, a) && a.worker == b && a.call.Publish?
  }

  /** How many items leave a worker's hand. */
  ghost function Gone(w: World, a: Action, b: string): int {
    |HandOf(w, b)| - |HandOf(After(w, a), b)|
  }

  /** Where an item in hand comes from: this claim, or the hand before. */
  lemma ItemStep(w: World, a: Action, b: string, i: int)
    requires 0 <= i < |HandOf(After(w, a), b)|
    ensures var item := HandOf(After(w, a), b)[i];
      if Hands(w, a, b) then
        && item == Item(a.call.tenant, a.call.batch.value[i], None)
        && item.event.id in w.rows && item.event.attempt == w.rows[item.event.id].attempts + 1
        && w.rows[item.event.id].tenant == item.tenant
        && item.event.id in After(w, a).rows && After(w, a).rows[item.event.id].attempts == item.event.attempt
      else
        && 0 <= Gone(w, a, b) <= 1
        && (Sends(w, a, b) ==> Gone(w, a, b) == 0)
        && item == (if Sends(w, a, b) && i == 0 then HandOf(w, b)[i].(sent := Some(a.call.delivered))
                    else HandOf(w, b)[i + Gone(w, a, b)])
  {
    OtherHands(w, a);
    if Hands(w, a, b) {
      ClaimedAreNew(w, a);
    } else if a.Make? && Possible(w, a) && a.worker == b && !a.call.Claim? {
      HandShrinks(HandOf(w, b), a.call, HandOf(After(w, a), b));
    }
    hide After, Possible, HandOf;
  }

  lemma IssuedStep(w: World, a: Action)
    requires HandsIssued(w)
    ensures HandsIssued(After(w, a))
  {
    RowsGrow(w, a);
    hide After, HandOf, Hands, Sends, Possible;
    var w' := After(w, a);
    forall b, i | 0 <= i < |HandOf(w', b)|
      ensures var item := HandOf(w', b)[i];
        Issued(w'.rows, item.event) && w'.rows[item.event.id].tenant == item.tenant && (i > 0 ==> item.sent.None?)
    {
      ItemStep(w, a, b, i);
    }
  }

  lemma DifferStep(w: World, a: Action)
    requires HandsIssued(w) && HandsDiffer(w)
    ensures HandsDiffer(After(w, a))
  {
    var w' := After(w, a);
    if a.Make? && Hands(w, a, a.worker) {
      ClaimedAreNew(w, a);
    }
    hide After, HandOf, Sends, Possible;
    forall b, i, c, j | 0 <= i < |HandOf(w', b)| && 0 <= j < |HandOf(w', c)|
      && HandOf(w', b)[i].event == HandOf(w', c)[j].event
      ensures b == c && i == j
    {
      ItemStep(w, a, b, i);
      ItemStep(w, a, c, j);
    }
  }

  lemma KnowStep(w: World, a: Action)
    requires HandsIssued(w) && HandsDiffer(w) && HandsKnow(w) && SentIssued(w)
    ensures HandsKnow(After(w, a)) && SentIssued(After(w, a))
  {
    var w' := After(w, a);
    RowsGrow(w, a);
    OtherHands(w, a);
    if a.Make? && Sends(w, a, a.worker) {
      HandShrinks(HandOf(w, a.worker), a.call, HandOf(w', a.worker));
    }
    hide After, HandOf, Possible;
    forall b, i | 0 <= i < |HandOf(w', b)|
      ensures var item := HandOf(w', b)[i];
        match item.sent
        case None => forall s :: s in w'.sent ==> s.event != item.event
        case Some(delivered) => Sending(b, item.event, delivered) in w'.sent
    {
      ItemStep(w, a, b, i);
    }
  }

  lemma LeaseStep(w: World, a: Action)
    requires HandsIssued(w) && LeaseIsLatest(w)
    ensures LeaseIsLatest(After(w, a))
  {
    var w' := After(w, a);
    OtherHands(w, a);
    forall b, i | 0 <= i < |HandOf(w', b)|
      ensures var item := HandOf(w', b)[i];
        item.event.id in w'.rows && w'.rows[item.event.id].lockedBy == Some(b) ==>
          item.event.attempt == w'.rows[item.event.id].attempts
    {
      ItemStep(w, a, b, i);
      hide After, Possible;
      if !Hands(w, a, b) {
        var id := HandOf(w', b)[i].event.id;
        assert id == HandOf(w, b)[i + Gone(w, a, b)].event.id;
        RowStep(w, a, id);
      }
    }
  }

  lemma ProcessedStep(w: World, a: Action)
    requires Sound(w)
    ensures ProcessedWasSent(After(w, a))
  {
    var w' := After(w, a);
    OtherHands(w, a);
    forall id | id in w'.rows && w'.rows[id].processedAt.Some?
      ensures w'.rows[id].lockedBy.None?
      ensures exists s :: s in w'.sent && s.event == Event(id, w'.rows[id].attempts) && s.delivered
    {
      assert id in w.rows;
      RowStep(w, a, id);
    }
  }

  lemma SoundStep(w: World, a: Action)
    requires Sound(w)
    ensures Sound(After(w, a))
  {
    hide After, HandsIssued, HandsDiffer, HandsKnow, LeaseIsLatest, SentIssued, ProcessedWasSent;
    IssuedStep(w, a);
    DifferStep(w, a);
    KnowStep(w, a);
    LeaseStep(w, a);
    ProcessedStep(w, a);
  }

  lemma {:induction false} SoundRun(w: World, actions: seq<Action>)
    requires Sound(w)
    ensures Sound(Execute(w, actions))
  {
    hide Sound, After;
    if actions == [] {
    } else {
      SoundRun(w, actions[..|actions| - 1]);
      SoundStep(Execute(w, actions[..|actions| - 1]), actions[|actions| - 1]);
    }
  }

  /** The calls a worker has made since it last started. */
  ghost function OwnCalls(actions: seq<Action>, worker: string): seq<Call> {
    if actions == [] then [] else
    var before, a := actions[..|actions| - 1], actions[|actions| - 1];
    if a.Crash? && a.worker == worker then []
    else OwnCalls(before, worker)
         + if a.Make? && a.worker == worker && Possible(Execute(EMPTY, before), a) then [a.call] else []
  }

  /** In every run each worker makes its calls in the order a pass of the processor makes them. */
  lemma {:induction false} CallsInOrder(actions: seq<Action>, worker: string)
    ensures Follow(OwnCalls(actions, worker)) == Some(HandOf(Execute(EMPTY, actions), worker))
  {
    if actions == [] {
    } else {
      var before, a := actions[..|actions| - 1], actions[|actions| - 1];
      CallsInOrder(before, worker);
      OtherHands(Execute(EMPTY, before), a);
      assert !Possible(Execute(EMPTY, before), a) ==> After(Execute(EMPTY, before), a) == Execute(EMPTY, before);
      assert OwnCalls(before, worker) + [] == OwnCalls(before, worker);
      if a.Make? {
        Appended(OwnCalls(before, worker), a.call);
      }
      hide After, Possible, Next;
    }
  }

  /** The calls a worker has attempted since it last started. */
  function Asked(actions: seq<Action>, worker: string): seq<Call> {
    if actions == [] then [] else
    var before, a := actions[..|actions| - 1], actions[|actions| - 1];
    if a.Crash? && a.worker == worker then []
    else Asked(before, worker) + if a.Make? && a.worker == worker then [a.call] else []
  }

  /** What a worker may call next depends on its calls so far; the database answers; new rows are new. */
  ghost predicate Proper(actions: seq<Action>, i: nat)
    requires i < |actions|
  {
    var w := Execute(EMPTY, actions[..i]);
    match actions[i]
    case Insert(id, row) => Possible(w, actions[i])
    case Crash(_) => true
    case Make(worker, call, fate, locked) =>
      Answers(w.rows, worker, call, fate, locked) && Follow(Asked(actions[..i + 1], worker)).Some?
  }

  /**
   * Workers that make their calls in the order of the processor's passes, with the answers of the table,
   * take only steps of the protocol, however they are interleaved and wherever they crash.
   */
  lemma {:induction false} LegalRun(actions: seq<Action>)
    requires forall i :: 0 <= i < |actions| ==> Proper(actions, i)
    ensures forall i :: 0 <= i < |actions| ==> Possible(Execute(EMPTY, actions[..i]), actions[i])
    ensures forall worker :: Follow(Asked(actions, worker)) == Some(HandOf(Execute(EMPTY, actions), worker))
  {
    if actions == [] {
    } else {
      var n := |actions| - 1;
      var before, a := actions[..n], actions[n];
      forall i | 0 <= i < n ensures Proper(before, i) {
        ProperBefore(actions, n, i);
      }
      LegalRun(before);
      forall i | 0 <= i < |actions| ensures Possible(Execute(EMPTY, actions[..i]), actions[i]) {
        if i < n {
          assert before[..i] == actions[..i];
        } else {
          LastPossible(actions);
        }
      }
      forall worker ensures Follow(Asked(actions, worker)) == Some(HandOf(Execute(EMPTY, actions), worker)) {
        LastHand(actions, worker);
      }
    }
  }

  /** What the table's Claim promises is an answer of the protocol, with the rows it leaves. */
  lemma TableAnswers(rows: Rows, worker: string, tenant: string, limit: int, now: int, until: int, locked: set<string>,
                     batch: seq<string>)
    requires tenant != "" && worker != "" && limit >= 1 && until > now
      && IsBatch(rows, tenant, now, limit, locked, batch)
    ensures var call := Call.Claim(tenant, limit, now, until, Some(Handed(rows, batch)));
      && Answers(rows, worker, call, Served, locked)
      && RowsAfter(rows, worker, call, Served) == Taken(rows, batch, worker, until)
  {
    assert Ids(Handed(rows, batch)) == batch;
    forall e | e in Handed(rows, batch) ensures e.id in rows && e.attempt == rows[e.id].attempts + 1 {
      var i :| 0 <= i < |batch| && Handed(rows, batch)[i] == e;
      assert Ids(Handed(rows, batch))[i] == batch[i];
    }
  }

  lemma ProperBefore(actions: seq<Action>, n: nat, i: nat)
    requires i < n <= |actions| && Proper(actions, i)
    ensures Proper(actions[..n], i)
  {
    assert actions[..n][..i] == actions[..i] && actions[..n][..i + 1] == actions[..i + 1];
  }

  lemma LastPossible(actions: seq<Action>)
    requires actions != [] && Proper(actions, |actions| - 1)
    requires
      var before, a := actions[..|actions| - 1], actions[|actions| - 1];
      var worker := if a.Make? then a.worker else "";
      Follow(Asked(before, worker)) == Some(HandOf(Execute(EMPTY, before), worker))
    ensures Possible(Execute(EMPTY, actions[..|actions| - 1]), actions[|actions| - 1])
  {
    var n := |actions| - 1;
    assert actions[..n + 1] == actions;
    if actions[n].Make? {
      Appended(Asked(actions[..n], actions[n].worker), actions[n].call);
    }
    hide Execute, Answers, Next;
  }

  lemma LastHand(actions: seq<Action>, worker: string)
    requires actions != [] && Possible(Execute(EMPTY, actions[..|actions| - 1]), actions[|actions| - 1])
    requires Follow(Asked(actions[..|actions| - 1], worker))
      == Some(HandOf(Execute(EMPTY, actions[..|actions| - 1]), worker))
    ensures Follow(Asked(actions, worker)) == Some(HandOf(Execute(EMPTY, actions), worker))
  {
    var before, a := actions[..|actions| - 1], actions[|actions| - 1];
    OtherHands(Execute(EMPTY, before), a);
    assert Asked(before, worker) + [] == Asked(before, worker);
    if a.Make? {
      Appended(Asked(before, worker), a.call);
    }
    hide After, Possible, Next;
  }

  // Pass after pass.

  function Concat(passes: seq<seq<Call>>): seq<Call> {
    if passes == [] then [] else passes[0] + Concat(passes[1..])
  }

  /** Whole passes of the processor, each ending with nothing in hand, and the start of one more. */
  ghost predicate InPasses(calls: seq<Call>, passes: seq<seq<Call>>, whole: seq<Call>, started: nat) {
    && started <= |whole| && calls == Concat(passes) + whole[..started]
    && Follow(whole) == Some([]) && forall pass :: pass in passes ==> Follow(pass) == Some([])
  }

  ghost predicate RunsPasses(calls: seq<Call>) {
    exists passes, whole, started :: InPasses(calls, passes, whole, started)
  }

  /** A pass starts and ends with nothing in hand, so what follows it is judged by itself. */
  lemma {:induction false} PassAfterPass(first: seq<Call>, second: seq<Call>)
    requires Follow(first) == Some([])
    ensures Follow(first + second) == Follow(second)
  {
    if second == [] {
      assert first + second == first;
    } else {
      var n := |second| - 1;
      assert (first + second)[..|first + second| - 1] == first + second[..n];
      PassAfterPass(first, second[..n]);
    }
  }

  lemma {:induction false} AfterPasses(passes: seq<seq<Call>>, rest: seq<Call>)
    requires forall pass :: pass in passes ==> Follow(pass) == Some([])
    ensures Follow(Concat(passes) + rest) == Follow(rest)
  {
    if passes == [] {
      assert Concat(passes) + rest == rest;
    } else {
      assert Concat(passes) + rest == passes[0] + (Concat(passes[1..]) + rest);
      PassAfterPass(passes[0], Concat(passes[1..]) + rest);
      AfterPasses(passes[1..], rest);
    }
  }

  /** What is in order is in order from the start. */
  lemma {:induction false} FollowStart(calls: seq<Call>, n: nat)
    requires n <= |calls| && Follow(calls).Some?
    ensures Follow(calls[..n]).Some?
  {
    if n == |calls| {
      assert calls[..n] == calls;
    } else {
      assert calls[..|calls| - 1][..n] == calls[..n];
      FollowStart(calls[..|calls| - 1], n);
    }
  }

  /** Any calls in order can go on to an end with nothing in hand. */
  lemma {:induction false} FollowEnd(calls: seq<Call>, hand: seq<Item>) returns (rest: seq<Call>)
    requires Follow(calls) == Some(hand)
    ensures Follow(calls + rest) == Some([])
    decreases |hand|, hand != [] && hand[0].sent.None?
  {
    if hand == [] {
      rest := [];
      assert calls + rest == calls;
    } else {
      var item := hand[0];
      var c := match item.sent
        case None => Publish(item.event, true)
        case Some(true) => MarkPublished(item.tenant, item.event, 0, true)
        case Some(false) => MarkFailed(item.tenant, item.event, 0, "", true);
      FollowOne(calls, c);
      hide Follow;
      rest := FollowEnd(calls + [c], Next(hand, c).value);
      assert calls + ([c] + rest) == calls + [c] + rest;
      rest := [c] + rest;
    }
  }

  lemma FollowOne(calls: seq<Call>, c: Call)
    ensures Follow(calls + [c]) == if Follow(calls).None? then None else Next(Follow(calls).value, c)
  {
    Appended(calls, c);
  }

  /** The calls that are in order are those of whole passes and the start of one more. */
  lemma OrderIsPasses(calls: seq<Call>)
    ensures Follow(calls).Some? <==> RunsPasses(calls)
  {
    if Follow(calls).Some? {
      var rest := FollowEnd(calls, Follow(calls).value);
      assert calls == Concat([]) + (calls + rest)[..|calls|];
      assert InPasses(calls, [], calls + rest, |calls|);
    }
    if passes, whole, started :| InPasses(calls, passes, whole, started) {
      AfterPasses(passes, whole[..started]);
      FollowStart(whole, started);
    }
  }

  /** Every worker runs passes, answered by the table; new rows are new. */
  ghost predicate Working(actions: seq<Action>, i: nat)
    requires i < |actions|
  {
    var w := Execute(EMPTY, actions[..i]);
    match actions[i]
    case Insert(id, row) => Possible(w, actions[i])
    case Crash(_) => true
    case Make(worker, call, fate, locked) =>
      && Answers(w.rows, worker, call, fate, locked)
      && RunsPasses(Asked(actions[..i + 1], worker))
  }

  /**
   * Workers that do nothing but run passes, one after another and the last perhaps cut short by a crash, take only
   * steps of the protocol, whatever the table answers and however they are interleaved.
   */
  lemma WorkersRun(actions: seq<Action>)
    requires forall i :: 0 <= i < |actions| ==> Working(actions, i)
    ensures forall i :: 0 <= i < |actions| ==> Possible(Execute(EMPTY, actions[..i]), actions[i])
    ensures forall worker :: Follow(Asked(actions, worker)) == Some(HandOf(Execute(EMPTY, actions), worker))
  {
    hide Possible, Answers, Follow, Asked, RunsPasses;
    forall i | 0 <= i < |actions| ensures Proper(actions, i) {
      assert Working(actions, i);
      if actions[i].Make? {
        OrderIsPasses(Asked(actions[..i + 1], actions[i].worker));
      }
    }
    LegalRun(actions);
  }

  // Counting.

  function SentFor(id: string): Sending -> int {
    (s: Sending) => if s.event.id == id then 1 else 0
  }

  /** The attempts under which an event was published. */
  function Attempts(sent: seq<Sending>, id: string): set<int> {
    if sent == [] then {} else
    var last := sent[|sent| - 1];
    Attempts(sent[..|sent| - 1], id) + if last.event.id == id then {last.event.attempt as int} else {}
  }

  lemma {:induction false} AttemptWasSent(sent: seq<Sending>, id: string, n: int)
    requires n in Attempts(sent, id)
    ensures n >= 0 && exists i :: 0 <= i < |sent| && sent[i].event == Event(id, n)
  {
    var last := sent[|sent| - 1];
    if last.event.id == id && last.event.attempt == n {
      assert sent[|sent| - 1].event == Event(id, n);
    } else {
      AttemptWasSent(sent[..|sent| - 1], id, n);
      var i :| 0 <= i < |sent| - 1 && sent[..|sent| - 1][i].event == Event(id, n);
      assert sent[i].event == Event(id, n);
    }
  }

  lemma {:induction false} AttemptsUsed(sent: seq<Sending>, id: string)
    requires forall i, j :: 0 <= i < j < |sent| ==> sent[i].event != sent[j].event
    ensures |Attempts(sent, id)| == Sum(sent, SentFor(id))
  {
    if sent == [] {
    } else {
      var before, last := sent[..|sent| - 1], sent[|sent| - 1];
      AttemptsUsed(before, id);
      if last.event.id == id && last.event.attempt as int in Attempts(before, id) {
        AttemptWasSent(before, id, last.event.attempt);
      }
    }
  }

  lemma {:induction false} Pigeons(used: set<int>, n: nat)
    requires forall x :: x in used ==> 1 <= x <= n
    ensures |used| <= n
  {
    if n == 0 {
      assert forall x :: x !in used;
      assert used == {};
    } else {
      Pigeons(used - {n as int}, n - 1);
    }
  }

  /** An event is published at most once per claim, so never more often than its attempts. */
  lemma PublishesBounded(actions: seq<Action>, id: string)
    ensures var w := Execute(EMPTY, actions);
      && (forall i, j :: 0 <= i < j < |w.sent| ==> w.sent[i].event != w.sent[j].event)
      && Sum(w.sent, SentFor(id)) <= if id in w.rows then w.rows[id].attempts else 0
  {
    SoundRun(EMPTY, actions);
    hide Execute;
    var w := Execute(EMPTY, actions);
    var most := if id in w.rows then w.rows[id].attempts else 0;
    forall n | n in Attempts(w.sent, id) ensures 1 <= n <= most {
      AttemptWasSent(w.sent, id, n);
    }
    AttemptsUsed(w.sent, id);
    Pigeons(Attempts(w.sent, id), most);
  }

  /** Did the action stamp the row as processed? */
  ghost predicate Processes(w: World, a: Action, id: string) {
    id in After(w, a).rows && After(w, a).rows[id].processedAt.Some?
    && !(id in w.rows && w.rows[id].processedAt.Some?)
  }

  /** Acknowledgements of delivery that the database accepted. */
  ghost function Accepted(w: World, actions: seq<Action>, id: string): nat {
    if actions == [] then 0 else
    var before, a := Execute(w, actions[..|actions| - 1]), actions[|actions| - 1];
    Accepted(w, actions[..|actions| - 1], id)
    + if Possible(before, a) && a.Make? && a.call.MarkPublished? && a.call.event.id == id && !a.fate.Unreached?
         && Owns(before.rows, a.call.tenant, id, a.worker) then 1 else 0
  }

  /** An event is accepted as published at most once, and a processed row never changes again. */
  lemma {:induction false} ProcessedOnce(w: World, actions: seq<Action>, id: string)
    requires id in w.rows
    ensures id in Execute(w, actions).rows
    ensures var row, row' := w.rows[id], Execute(w, actions).rows[id];
      && Accepted(w, actions, id) == (if row.processedAt.None? && row'.processedAt.Some? then 1 else 0)
      && (row.processedAt.Some? ==> row' == row)
  {
    if actions == [] {
    } else {
      var before, a := Execute(w, actions[..|actions| - 1]), actions[|actions| - 1];
      ProcessedOnce(w, actions[..|actions| - 1], id);
      RowStep(before, a, id);
    }
  }

  /** A row becomes processed only by a worker whose own Publish of it succeeded under the current lease. */
  lemma ProcessedByDeliverer(actions: seq<Action>, a: Action, id: string)
    requires Processes(Execute(EMPTY, actions), a, id)
    ensures var w := Execute(EMPTY, actions);
      && a.Make? && a.call.MarkPublished? && a.call.event == Event(id, w.rows[id].attempts)
      && Sending(a.worker, a.call.event, true) in w.sent
      && w.rows[id].lockedBy == Some(a.worker)
  {
    SoundRun(EMPTY, actions);
    hide Execute;
    var w := Execute(EMPTY, actions);
    assert id in w.rows;
    RowStep(w, a, id);
    hide After;
    var item := HandOf(w, a.worker)[0];
    assert item == Item(a.call.tenant, a.call.event, Some(true));
  }

  /** Is the claim that handed out the event still the one the row is leased by? */
  predicate StillLeased(w: World, worker: string, e: Event) {
    e.id in w.rows && w.rows[e.id].lockedBy == Some(worker) && w.rows[e.id].attempts == e.attempt
  }

  /** An acknowledgement is refused exactly when its lease was taken over or released; then it changes nothing. */
  lemma StaleAckRejected(actions: seq<Action>, a: Action, e: Event)
    requires a.Make? && (a.call.MarkPublished? || a.call.MarkFailed?) && a.call.event == e
    requires Possible(Execute(EMPTY, actions), a)
    ensures var w := Execute(EMPTY, actions);
      && (a.call.ok <==> a.fate.Served? && StillLeased(w, a.worker, e))
      && (!StillLeased(w, a.worker, e) ==> After(w, a).rows == w.rows)
  {
    SoundRun(EMPTY, actions);
    hide Execute;
    var w := Execute(EMPTY, actions);
    assert HandOf(w, a.worker)[0].event == e;
  }

  // Leases.

  /** Does the action acknowledge this event for this worker? */
  predicate Acks(a: Action, worker: string, id: string) {
    a.Make? && a.worker == worker && (a.call.MarkPublished? || a.call.MarkFailed?) && a.call.event.id == id
  }

  /** Inside a live lease nobody but its holder can touch the row, whatever else happens. */
  lemma {:induction false} LeaseHolds(w: World, actions: seq<Action>, worker: string, id: string, until: int)
    requires id in w.rows && w.rows[id].lockedBy == Some(worker) && w.rows[id].lockedUntil == Some(until)
    requires forall a :: a in actions ==> !Acks(a, worker, id) && (a.Make? && a.call.Claim? ==> a.call.now <= until)
    ensures id in Execute(w, actions).rows && Execute(w, actions).rows[id] == w.rows[id]
  {
    if actions == [] {
    } else {
      var before := actions[..|actions| - 1];
      LeaseHolds(w, before, worker, id, until);
      RowStep(Execute(w, before), actions[|actions| - 1], id);
    }
  }

  /** A row that is free waits for its time: no claim before it can take it, however often one is made. */
  lemma {:induction false} WaitsForRetry(w: World, actions: seq<Action>, id: string)
    requires id in w.rows && w.rows[id].lockedBy.None?
    requires forall a :: a in actions && a.Make? && a.call.Claim? ==> a.call.now < w.rows[id].availableAt
    ensures id in Execute(w, actions).rows && Execute(w, actions).rows[id] == w.rows[id]
  {
    if actions == [] {
    } else {
      var before := actions[..|actions| - 1];
      WaitsForRetry(w, before, id);
      RowStep(Execute(w, before), actions[|actions| - 1], id);
    }
  }

  /** The calls made for one tenant do not touch the rows of another. */
  lemma {:induction false} TenantsApart(w: World, actions: seq<Action>, id: string)
    requires id in w.rows && forall a :: a in actions ==> OtherTenant(a, w.rows[id].tenant)
    ensures id in Execute(w, actions).rows && Execute(w, actions).rows[id] == w.rows[id]
  {
    if actions == [] {
    } else {
      var before := actions[..|actions| - 1];
      TenantsApart(w, before, id);
      TenantStep(Execute(w, before), actions[|actions| - 1], id);
    }
  }

  predicate OtherTenant(a: Action, tenant: string) {
    a.Make? ==>
      match a.call
      case Claim(t, _, _, _, _) => t != tenant
      case Publish(_, _) => true
      case MarkPublished(t, _, _, _) => t != tenant
      case MarkFailed(t, _, _, _, _) => t != tenant
  }

  lemma TenantStep(w: World, a: Action, id: string)
    requires id in w.rows && OtherTenant(a, w.rows[id].tenant)
    ensures id in After(w, a).rows && After(w, a).rows[id] == w.rows[id]
  {
    RowStep(w, a, id);
  }

  // Nothing is lost.

  lemma {:induction false} ExecuteAppend(w: World, first: seq<Action>, more: seq<Action>)
    ensures Execute(w, first + more) == Execute(Execute(w, first), more)
  {
    if more == [] {
      assert first + more == first;
    } else {
      assert (first + more)[..|first + more| - 1] == first + more[..|more| - 1];
      ExecuteAppend(w, first, more[..|more| - 1]);
    }
  }

  lemma ExecuteTwo(w: World, a: Action, b: Action)
    ensures Execute(w, [a, b]) == After(After(w, a), b)
  {
    hide After;
    assert [a, b][..1] == [a] && [a][..0] == [];
    assert Execute(w, [a]) == After(Execute(w, []), a);
  }

  /** A worker that owns everything in its unsent hand. */
  ghost predicate Ready(w: World, worker: string) {
    var hand := HandOf(w, worker);
    && (forall i :: 0 <= i < |hand| ==> hand[i].sent.None? && Owns(w.rows, hand[i].tenant, hand[i].event.id, worker))
    && (forall i, j :: 0 <= i < j < |hand| ==> hand[i].event.id != hand[j].event.id)
  }

  lemma DeliverFirst(w: World, worker: string) returns (w': World, steps: seq<Action>)
    requires Ready(w, worker) && HandOf(w, worker) != []
    ensures w' == Execute(w, steps) && Ready(w', worker) && HandOf(w', worker) == HandOf(w, worker)[1..]
    ensures var id := HandOf(w, worker)[0].event.id; id in w'.rows && w'.rows[id].processedAt.Some?
  {
    var item := HandOf(w, worker)[0];
    var publish := Make(worker, Call.Publish(item.event, true), Served, {});
    var mark := Make(worker, Call.MarkPublished(item.tenant, item.event, 0, true), Served, {});
    steps := [publish, mark];
    w' := After(After(w, publish), mark);
    ExecuteTwo(w, publish, mark);
    hide Execute;
    assert Possible(w, publish);
    assert HandOf(After(w, publish), worker) == [item.(sent := Some(true))] + HandOf(w, worker)[1..];
    assert Possible(After(w, publish), mark);
  }

  lemma {:induction false} DeliverAll(w: World, worker: string) returns (steps: seq<Action>)
    requires Ready(w, worker)
    ensures var w' := Execute(w, steps);
      forall i :: 0 <= i < |HandOf(w, worker)| ==>
        var id := HandOf(w, worker)[i].event.id;
        id in w'.rows && w'.rows[id].processedAt.Some?
    decreases |HandOf(w, worker)|
  {
    hide Ready, After;
    if HandOf(w, worker) == [] {
      steps := [];
    } else {
      var w1, first := DeliverFirst(w, worker);
      var more := DeliverAll(w1, worker);
      steps := first + more;
      ExecuteAppend(w, first, more);
      ProcessedOnce(w1, more, HandOf(w, worker)[0].event.id);
      hide Execute;
      forall i | 0 < i < |HandOf(w, worker)|
        ensures var id := HandOf(w, worker)[i].event.id;
          id in Execute(w, steps).rows && Execute(w, steps).rows[id].processedAt.Some?
      {
        assert HandOf(w, worker)[i] == HandOf(w1, worker)[i - 1];
      }
    }
  }

  lemma {:induction false} Enumerate(ids: set<string>) returns (s: seq<string>)
    ensures |s| == |ids|
    ensures forall x :: x in s <==> x in ids
    ensures forall i, j :: 0 <= i < j < |s| ==> s[i] != s[j]
  {
    if ids == {} {
      s := [];
    } else {
      var x :| x in ids;
      var rest := Enumerate(ids - {x});
      s := rest + [x];
    }
  }

  function Handed(rows: Rows, ids: seq<string>): (events: seq<Event>)
    requires forall x :: x in ids ==> x in rows
    ensures Ids(events) == ids
    ensures forall i :: 0 <= i < |ids| ==> events[i] == Event(ids[i], rows[ids[i]].attempts + 1)
  {
    seq(|ids|, i requires 0 <= i < |ids| => Event(ids[i], rows[ids[i]].attempts + 1))
  }

  lemma ClaimPossible(w: World, worker: string, tenant: string, now: int, ids: seq<string>)
    requires worker != "" && tenant != "" && HandOf(w, worker) == []
    requires forall x :: x in ids <==> x in w.rows && Eligible(w.rows[x], tenant, now)
    requires forall i, j :: 0 <= i < j < |ids| ==> ids[i] != ids[j]
    ensures var claim :=
      Make(worker, Call.Claim(tenant, |ids| + 1, now, now + 1, Some(Handed(w.rows, ids))), Served, {});
      && Possible(w, claim) && Ready(After(w, claim), worker)
      && HandOf(After(w, claim), worker) == Items(tenant, Handed(w.rows, ids))
  {
    var events := Handed(w.rows, ids);
    var claim := Make(worker, Call.Claim(tenant, |ids| + 1, now, now + 1, Some(events)), Served, {});
    assert IsBatch(w.rows, tenant, now, |ids| + 1, {}, ids);
    assert Possible(w, claim);
    var w' := After(w, claim);
    hide IsBatch, Possible;
    forall i | 0 <= i < |events|
      ensures Owns(w'.rows, tenant, events[i].id, worker)
    {
      assert ids[i] in ids && events[i].id == ids[i];
    }
    forall i, j | 0 <= i < j < |events| ensures events[i].id != events[j].id {
      assert ids[i] != ids[j];
    }
  }

  /** A claim that takes every row eligible at the instant. */
  lemma ClaimAll(w: World, worker: string, tenant: string, now: int) returns (w': World, steps: seq<Action>)
    requires worker != "" && tenant != ""
    ensures w' == Execute(w, steps) && Ready(w', worker)
    ensures forall id :: id in w.rows && Eligible(w.rows[id], tenant, now) ==>
      exists i :: 0 <= i < |HandOf(w', worker)| && HandOf(w', worker)[i].event.id == id
  {
    var ids := Enumerate(set x | x in w.rows && Eligible(w.rows[x], tenant, now));
    var rested := After(w, Crash(worker));
    assert rested.rows == w.rows && HandOf(rested, worker) == [];
    ClaimPossible(rested, worker, tenant, now, ids);
    var claim := Make(worker, Call.Claim(tenant, |ids| + 1, now, now + 1, Some(Handed(w.rows, ids))), Served, {});
    steps := [Crash(worker), claim];
    w' := After(rested, claim);
    ExecuteTwo(w, Crash(worker), claim);
    hide Execute, After, Ready, Possible, Eligible;
    forall id | id in w.rows && Eligible(w.rows[id], tenant, now)
      ensures exists i :: 0 <= i < |HandOf(w', worker)| && HandOf(w', worker)[i].event.id == id
    {
      var i :| 0 <= i < |ids| && ids[i] == id;
      assert HandOf(w', worker)[i].event.id == id;
    }
  }

  /**
   * Whatever failed before, an inserted event is still there, is eligible at every instant past its
   * availability and its lease, and some continuation delivers it.
   */
  lemma NothingLost(w: World, actions: seq<Action>, id: string)
    requires id in w.rows && w.rows[id].tenant != ""
    ensures id in Execute(w, actions).rows
    ensures var w', row := Execute(w, actions), Execute(w, actions).rows[id];
      row.processedAt.None? ==>
        && (forall now :: now >= row.availableAt && (row.lockedUntil.Some? ==> now > row.lockedUntil.value) ==>
          Eligible(row, w.rows[id].tenant, now))
        && exists more :: id in Execute(w', more).rows && Execute(w', more).rows[id].processedAt.Some?
  {
    TenantKept(w, actions, id);
    hide Execute, After;
    var w' := Execute(w, actions);
    var row := w'.rows[id];
    if row.processedAt.None? {
      var now := if row.lockedUntil.Some? && row.lockedUntil.value >= row.availableAt
        then row.lockedUntil.value + 1 else row.availableAt;
      var w1, first := ClaimAll(w', "worker", row.tenant, now);
      var more := DeliverAll(w1, "worker");
      ExecuteAppend(w', first, more);
      assert Eligible(row, row.tenant, now);
      assert Execute(w', first + more).rows[id].processedAt.Some?;
    }
  }

  lemma {:induction false} TenantKept(w: World, actions: seq<Action>, id: string)
    requires id in w.rows
    ensures id in Execute(w, actions).rows && Execute(w, actions).rows[id].tenant == w.rows[id].tenant
  {
    hide After;
    if actions == [] {
    } else {
      TenantKept(w, actions[..|actions| - 1], id);
      RowsGrow(Execute(w, actions[..|actions| - 1]), actions[|actions| - 1]);
    }
  }
}
