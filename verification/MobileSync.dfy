/**
 * Offline sales and their synchronisation: the durable local store, the gateway that posts each
 * idempotency key once, and the controller between them, which may be killed at any await.
 */
module MobileSync {
  import opened Basics
  import opened Mobile
  import Sums

  // The gateway.

  function Digit(d: nat): char
    requires d < 10
  {
    '0' + d as char
  }

  function Decimal(n: nat): (s: string)
    ensures s != "" && (|s| == 1 <==> n < 10)
  {
    if n < 10 then [Digit(n)] else Decimal(n / 10) + [Digit(n % 10)]
  }

  lemma {:induction false} DecimalInjective(m: nat, n: nat)
    requires Decimal(m) == Decimal(n)
    ensures m == n
  {
    var a, b := Decimal(m), Decimal(n);
    if m >= 10 {
      assert a[..|a| - 1] == Decimal(m / 10) && b[..|b| - 1] == Decimal(n / 10);
      DecimalInjective(m / 10, n / 10);
      assert a[|a| - 1] == Digit(m % 10) && b[|b| - 1] == Digit(n % 10);
    } else {
      assert a[0] == Digit(m) && b[0] == Digit(n);
    }
  }

  function PadLeft(s: string, width: nat): string
    decreases width - |s|
  {
    if |s| >= width then s else PadLeft("0" + s, width)
  }

  function Issue(n: nat): SyncResult {
    SyncResult("sale-" + Decimal(n), "ITZ-DAR-" + PadLeft(Decimal(n), 6), false)
  }

  lemma IssueInjective(m: nat, n: nat)
    requires Issue(m).serverSaleId == Issue(n).serverSaleId
    ensures m == n
  {
    assert ("sale-" + Decimal(m))[5..] == Decimal(m) && ("sale-" + Decimal(n))[5..] == Decimal(n);
    DecimalInjective(m, n);
  }

  const FIRST: nat := 2400

  datatype Server = Server(posted: map<string, SyncResult>, sequence: nat)

  function Post(s: Server, key: string): Server {
    if key in s.posted then s else Server(s.posted[key := Issue(s.sequence + 1)], s.sequence + 1)
  }

  function Answer(s: Server, key: string): SyncResult {
    if key in s.posted then s.posted[key].(wasDuplicate := true) else Issue(s.sequence + 1)
  }

  /** One transaction per key, numbered without a gap or a repetition. */
  ghost predicate ServerOk(s: Server) {
    && |s.posted| + FIRST == s.sequence
    && (forall k :: k in s.posted ==> exists n :: FIRST < n <= s.sequence && s.posted[k] == Issue(n))
    && (forall j, k :: j in s.posted && k in s.posted && s.posted[j].serverSaleId == s.posted[k].serverSaleId ==>
        j == k)
  }

  predicate SameAnswer(a: SyncResult, b: SyncResult) {
    a.serverSaleId == b.serverSaleId && a.receiptNumber == b.receiptNumber
  }

  lemma FreshIssue(s: Server, k: string)
    requires ServerOk(s) && k in s.posted
    ensures s.posted[k].serverSaleId != Issue(s.sequence + 1).serverSaleId
  {
    var n :| FIRST < n <= s.sequence && s.posted[k] == Issue(n);
    if s.posted[k].serverSaleId == Issue(s.sequence + 1).serverSaleId {
      IssueInjective(n, s.sequence + 1);
    }
  }

  lemma NumberedAfter(s: Server, key: string, k: string)
    requires ServerOk(s) && key !in s.posted && k in Post(s, key).posted
    ensures exists n :: FIRST < n <= s.sequence + 1 && Post(s, key).posted[k] == Issue(n)
  {
    hide Issue;
    if k in s.posted {
      var n :| FIRST < n <= s.sequence && s.posted[k] == Issue(n);
      assert FIRST < n <= s.sequence + 1 && Post(s, key).posted[k] == Issue(n);
    } else {
      assert Post(s, key).posted[k] == Issue(s.sequence + 1);
    }
  }

  lemma PostKeepsServer(s: Server, key: string)
    requires ServerOk(s)
    ensures ServerOk(Post(s, key))
    ensures forall k :: k in s.posted ==> k in Post(s, key).posted && Post(s, key).posted[k] == s.posted[k]
    ensures key in Post(s, key).posted && SameAnswer(Post(s, key).posted[key], Answer(s, key))
  {
    if key !in s.posted {
      var s' := Post(s, key);
      assert s'.posted.Keys == s.posted.Keys + {key};
      assert |s'.posted| == |s.posted| + 1;
      forall k | k in s.posted ensures s.posted[k].serverSaleId != s'.posted[key].serverSaleId {
        FreshIssue(s, k);
      }
      forall k | k in s'.posted ensures exists n :: FIRST < n <= s'.sequence && s'.posted[k] == Issue(n) {
        NumberedAfter(s, key, k);
      }
      IdsDiffer(s, s', key);
      hide Issue;
    }
  }

  lemma IdsDiffer(s: Server, s': Server, key: string)
    requires forall j, k :: j in s.posted && k in s.posted && s.posted[j].serverSaleId == s.posted[k].serverSaleId ==>
      j == k
    requires key !in s.posted && key in s'.posted && s'.posted == s.posted[key := s'.posted[key]]
    requires forall k :: k in s.posted ==> s.posted[k].serverSaleId != s'.posted[key].serverSaleId
    ensures forall j, k ::
      j in s'.posted && k in s'.posted && s'.posted[j].serverSaleId == s'.posted[k].serverSaleId ==> j == k
  {
  }

  /** A submission reaches the gateway and answers, is lost on the way, or loses its answer. */
  datatype Fate = Delivered | RequestLost | ReplyLost

  class Gateway {
    var posted: map<string, SyncResult>
    var sequence: nat
    var requests: nat
    ghost var received: seq<SyncCommand> // every command submitted, whatever became of it
    const network: seq<Fate> // what happens to each submission; any later one is delivered

    function View(): Server
      reads this
    {
      Server(posted, sequence)
    }

    constructor (network: seq<Fate>)
      ensures View() == Server(map[], FIRST) && requests == 0 && this.network == network && received == []
    {
      this.network, received := network, [];
      posted, sequence, requests := map[], FIRST, 0;
    }

    function FateOf(request: nat): Fate {
      if request < |network| then network[request] else Delivered
    }

    /** None when the caller sees an exception. */
    method Submit(command: SyncCommand) returns (r: Option<SyncResult>)
      modifies this
      ensures var fate := FateOf(old(requests));
        && requests == old(requests) + 1 && received == old(received) + [command]
        && View() == (if fate.RequestLost? then old(View()) else Post(old(View()), command.IdempotencyKey()))
        && r == (if fate.Delivered? then Some(Answer(old(View()), command.IdempotencyKey())) else None)
    {
      var fate := FateOf(requests);
      requests, received := requests + 1, received + [command];
      if fate.RequestLost? {
        return None;
      }
      var key := command.IdempotencyKey();
      if key in posted {
        r := Some(SyncResult(posted[key].serverSaleId, posted[key].receiptNumber, true));
      } else {
        sequence := sequence + 1;
        var result := SyncResult("sale-" + Decimal(sequence), "ITZ-DAR-" + PadLeft(Decimal(sequence), 6), false);
        posted := posted[key := result];
        r := Some(result);
      }
      if fate.ReplyLost? {
        r := None;
      }
    }
  }

  // The local store.

  datatype Local = Local(drafts: map<string, SaleDraft>, sales: map<string, CompletedSale>,
                         queue: map<string, SyncCommand>, results: map<string, SyncResult>)

  class LocalStore {
    var drafts: map<string, SaleDraft>
    var sales: map<string, CompletedSale>
    var queue: map<string, SyncCommand>
    var results: map<string, SyncResult>

    function View(): Local
      reads this
    {
      Local(drafts, sales, queue, results)
    }

    constructor ()
      ensures View() == Local(map[], map[], map[], map[])
    {
      drafts, sales, queue, results := map[], map[], map[], map[];
    }

    method DeleteDraft(id: string)
      modifies this`drafts
      ensures View() == old(View()).(drafts := old(drafts) - {id})
    {
      drafts := drafts - {id};
    }

    method SaveSale(sale: CompletedSale)
      modifies this`sales
      ensures View() == old(View()).(sales := PutIfAbsent(old(sales), sale.clientTransactionId, sale))
    {
      sales := PutIfAbsent(sales, sale.clientTransactionId, sale);
    }

    /** Every stored sale once. */
    method ReadSales() returns (list: seq<CompletedSale>)
      ensures Keyed(View()) ==> Mirrors(list, sales)
    {
      list := [];
      var left := sales.Keys;
      while left != {}
        invariant left <= sales.Keys
        invariant Keyed(View()) ==> Mirrors(list, sales - left)
      {
        var id :| id in left;
        list := list + [sales[id]];
        assert (sales - (left - {id})).Keys == (sales - left).Keys + {id};
        left := left - {id};
      }
      assert sales - left == sales;
    }

    method ReplaceSale(sale: CompletedSale)
      modifies this`sales
      ensures View() == old(View()).(sales := old(sales)[sale.clientTransactionId := sale])
    {
      sales := sales[sale.clientTransactionId := sale];
    }

    method EnqueueSync(command: SyncCommand)
      modifies this`queue
      ensures View() == old(View()).(queue := old(queue)[command.IdempotencyKey() := command])
    {
      queue := queue[command.IdempotencyKey() := command];
    }

    method RemoveSyncCommand(key: string)
      modifies this`queue
      ensures View() == old(View()).(queue := old(queue) - {key})
    {
      queue := queue - {key};
    }

    method SaveSyncResult(key: string, result: SyncResult)
      modifies this`results
      ensures View() == old(View()).(results := PutIfAbsent(old(results), key, result))
    {
      results := PutIfAbsent(results, key, result);
    }
  }

  function PutIfAbsent<V>(m: map<string, V>, key: string, value: V): map<string, V> {
    if key in m then m else m[key := value]
  }

  ghost predicate Keyed(l: Local) {
    forall id :: id in l.sales ==> l.sales[id].clientTransactionId == id
  }

  /** The list in memory shows every stored sale once, as stored. */
  ghost predicate Mirrors(list: seq<CompletedSale>, sales: map<string, CompletedSale>) {
    && (forall i :: 0 <= i < |list| ==>
        list[i].clientTransactionId in sales && sales[list[i].clientTransactionId] == list[i])
    && (forall i, j :: 0 <= i < j < |list| ==> list[i].clientTransactionId != list[j].clientTransactionId)
    && (forall id :: id in sales ==> sales[id].clientTransactionId == id && sales[id] in list)
  }

  // What is durably true at every instant, crashes included.

  /** A synced sale carries the identifiers the gateway issued for it. */
  predicate CarriesAnswer(sale: CompletedSale, r: SyncResult) {
    sale.serverSaleId == r.serverSaleId && sale.receiptNumber == r.receiptNumber
  }

  /** Cached answers are the gateway's, and a sale is synced only with a cached answer. */
  ghost predicate Consistent(l: Local, s: Server, deviceId: string) {
    && ServerOk(s) && Keyed(l)
    && (forall k :: k in l.results ==> k in s.posted && SameAnswer(l.results[k], s.posted[k]))
    && (forall id :: id in l.sales && l.sales[id].syncStatus == Synced ==>
      Key(deviceId, id) in l.results && CarriesAnswer(l.sales[id], l.results[Key(deviceId, id)]))
  }

  /** Nothing posted is ever forgotten or changed. */
  ghost predicate Remembers(s: Server, s': Server) {
    forall k :: k in s.posted ==> k in s'.posted && s'.posted[k] == s.posted[k]
  }

  lemma PostKeeps(l: Local, s: Server, deviceId: string, key: string)
    requires Consistent(l, s, deviceId)
    ensures Consistent(l, Post(s, key), deviceId) && Remembers(s, Post(s, key))
    ensures key in Post(s, key).posted && SameAnswer(Answer(s, key), Post(s, key).posted[key])
  {
    PostKeepsServer(s, key);
    hide ServerOk, Post;
  }

  lemma ResultKeeps(l: Local, s: Server, deviceId: string, key: string, r: SyncResult)
    requires Consistent(l, s, deviceId) && key in s.posted && SameAnswer(r, s.posted[key])
    ensures Consistent(l.(results := PutIfAbsent(l.results, key, r)), s, deviceId)
  {
    hide ServerOk;
  }

  lemma ReplaceKeeps(l: Local, s: Server, deviceId: string, sale: CompletedSale)
    requires Consistent(l, s, deviceId)
    requires sale.syncStatus == Synced ==>
      var key := Key(deviceId, sale.clientTransactionId); key in l.results && CarriesAnswer(sale, l.results[key])
    ensures Consistent(l.(sales := l.sales[sale.clientTransactionId := sale]), s, deviceId)
  {
    hide ServerOk;
  }

  lemma RemembersSelf(s: Server)
    ensures Remembers(s, s)
  {
  }

  lemma QueueKeeps(l: Local, s: Server, deviceId: string, queue: map<string, SyncCommand>)
    requires Consistent(l, s, deviceId)
    ensures Consistent(l.(queue := queue), s, deviceId)
  {
  }

  // One synchronisation, undisturbed.

  function AsSynced(sale: CompletedSale, r: SyncResult): CompletedSale {
    sale.(serverSaleId := r.serverSaleId, receiptNumber := r.receiptNumber, syncStatus := Synced,
          syncMessage := Some(if r.wasDuplicate then "Original server result restored safely."
                              else "Accepted by server."))
  }

  function AsReview(sale: CompletedSale): CompletedSale {
    sale.(syncStatus := RequiresReview, syncMessage := Some("Synchronization failed. Retry or review."))
  }

  datatype Effect = Effect(local: Local, server: Server, sale: CompletedSale)

  /** What one synchronisation leaves: the cache answers, or the gateway does, or the sale needs review. */
  function Synchronized(l: Local, s: Server, command: SyncCommand, fate: Fate): Effect {
    var key, sale := command.IdempotencyKey(), command.sale;
    var id := sale.clientTransactionId;
    if key in l.results then
      var synced := AsSynced(sale, l.results[key].(wasDuplicate := true));
      Effect(l.(sales := l.sales[id := synced], queue := l.queue - {key}), s, synced)
    else if fate.Delivered? then
      var synced := AsSynced(sale, Answer(s, key));
      Effect(l.(sales := l.sales[id := synced], queue := l.queue - {key}, results := l.results[key := Answer(s, key)]),
             Post(s, key), synced)
    else
      Effect(l.(sales := l.sales[id := AsReview(sale)], queue := l.queue[key := command]),
             if fate.ReplyLost? then Post(s, key) else s, AsReview(sale))
  }

  /** The same, as the operations leave it: queue, ask, replace, and take off the queue again. */
  lemma SynchronizedInSteps(l: Local, s: Server, command: SyncCommand, fate: Fate)
    ensures var e, key, sale := Synchronized(l, s, command, fate), command.IdempotencyKey(), command.sale;
      var sales, queue := l.sales[sale.clientTransactionId := e.sale], l.queue[key := command];
      if key in l.results then
        && e.server == s
        && e.sale == AsSynced(sale, l.results[key].(wasDuplicate := true))
        && e.local == Local(l.drafts, sales, queue - {key}, l.results)
      else if fate.Delivered? then
        && e.server == Post(s, key)
        && e.sale == AsSynced(sale, Answer(s, key))
        && e.local == Local(l.drafts, sales, queue - {key}, l.results[key := Answer(s, key)])
      else
        && e.server == (if fate.RequestLost? then s else Post(s, key))
        && e.sale == AsReview(sale)
        && e.local == Local(l.drafts, sales, queue, l.results)
  {
    assert l.queue[command.IdempotencyKey() := command] - {command.IdempotencyKey()}
        == l.queue - {command.IdempotencyKey()};
    hide Post, Answer, AsSynced, AsReview, Key;
  }

  // The invariant of undisturbed runs that complete each draft once.

  /** Synced, carrying the gateway's answer and off the queue; or waiting, and on the queue. */
  ghost predicate SaleSettled(l: Local, s: Server, deviceId: string, sale: CompletedSale) {
    var key := Key(deviceId, sale.clientTransactionId);
    if sale.syncStatus == Synced then key in s.posted && CarriesAnswer(sale, s.posted[key]) && key !in l.queue
    else (sale.syncStatus == PendingSync || sale.syncStatus == RequiresReview) && key in l.queue
  }

  ghost predicate Settled(l: Local, s: Server, deviceId: string) {
    forall id :: id in l.sales ==> SaleSettled(l, s, deviceId, l.sales[id])
  }

  lemma SynchronizedFrame(l: Local, s: Server, command: SyncCommand, fate: Fate, id: string, key: string)
    requires id in l.sales && id != command.sale.clientTransactionId && key != command.IdempotencyKey()
    ensures var e := Synchronized(l, s, command, fate);
      && id in e.local.sales && e.local.sales[id] == l.sales[id]
      && (key in e.local.queue <==> key in l.queue)
      && (e.server == s || e.server == Post(s, command.IdempotencyKey()))
  {
    hide Key, Post, Answer;
  }

  lemma SettledKept(l: Local, s: Server, l': Local, s': Server, deviceId: string, sale: CompletedSale)
    requires SaleSettled(l, s, deviceId, sale) && Remembers(s, s')
    requires var key := Key(deviceId, sale.clientTransactionId); key in l.queue <==> key in l'.queue
    ensures SaleSettled(l', s', deviceId, sale)
  {
  }

  lemma SynchronizedOther(l: Local, s: Server, deviceId: string, command: SyncCommand, fate: Fate, id: string)
    requires Consistent(l, s, deviceId) && command.deviceId == deviceId && id != command.clientTransactionId
    requires id in l.sales && SaleSettled(l, s, deviceId, l.sales[id])
    requires command.clientTransactionId == command.sale.clientTransactionId
    ensures var e := Synchronized(l, s, command, fate);
      id in e.local.sales && e.local.sales[id] == l.sales[id] && SaleSettled(e.local, e.server, deviceId, l.sales[id])
  {
    PostKeeps(l, s, deviceId, command.IdempotencyKey());
    assert l.sales[id].clientTransactionId == id;
    if Key(deviceId, id) == command.IdempotencyKey() {
      KeyInjective(deviceId, id, command.clientTransactionId);
    }
    hide ServerOk, Post, Answer, Key, Synchronized, SaleSettled, Consistent;
    SynchronizedFrame(l, s, command, fate, id, Key(deviceId, id));
    var e := Synchronized(l, s, command, fate);
    SettledKept(l, s, e.local, e.server, deviceId, l.sales[id]);
  }

  lemma SynchronizedSelf(l: Local, s: Server, command: SyncCommand, fate: Fate)
    requires command.clientTransactionId == command.sale.clientTransactionId
    requires var key := command.IdempotencyKey();
      && (key in l.results ==> key in s.posted && SameAnswer(l.results[key], s.posted[key]))
      && key in Post(s, key).posted && SameAnswer(Answer(s, key), Post(s, key).posted[key])
    ensures var e, id := Synchronized(l, s, command, fate), command.clientTransactionId;
      && id in e.local.sales && e.local.sales[id] == e.sale && e.sale.clientTransactionId == id
      && SaleSettled(e.local, e.server, command.deviceId, e.sale)
      && e.local.sales.Keys == l.sales.Keys + {id}
  {
    hide Post, Answer, Key;
  }

  /** Synchronising one sale settles it and leaves the others settled. */
  lemma SynchronizedSettles(l: Local, s: Server, deviceId: string, command: SyncCommand, fate: Fate)
    requires Consistent(l, s, deviceId)
    requires command.deviceId == deviceId && command.clientTransactionId == command.sale.clientTransactionId
    requires forall id :: id in l.sales && id != command.clientTransactionId ==>
      SaleSettled(l, s, deviceId, l.sales[id])
    ensures var e := Synchronized(l, s, command, fate);
      Settled(e.local, e.server, deviceId)
  {
    PostKeeps(l, s, deviceId, command.IdempotencyKey());
    SynchronizedSelf(l, s, command, fate);
    hide ServerOk, Synchronized, Consistent, SaleSettled;
    var e := Synchronized(l, s, command, fate);
    forall id | id in e.local.sales ensures SaleSettled(e.local, e.server, deviceId, e.local.sales[id]) {
      if id != command.clientTransactionId {
        SynchronizedOther(l, s, deviceId, command, fate, id);
      }
    }
  }

  // Await by await: what is durable once `n` awaits have completed.

  datatype Disk = Disk(local: Local, server: Server)

  /** Asking for the answer: the cache is read, the command is submitted, the answer is cached. */
  function AskedAfter(l: Local, s: Server, key: string, fate: Fate, n: nat): Disk {
    if key in l.results || n < 2 then Disk(l, s)
    else if fate.RequestLost? then Disk(l, s)
    else if fate.Delivered? && n >= 3 then Disk(l.(results := l.results[key := Answer(s, key)]), Post(s, key))
    else Disk(l, Post(s, key))
  }

  function AskAwaits(l: Local, key: string, fate: Fate): nat {
    if key in l.results then 1 else if fate.Delivered? then 3 else 2
  }

  function AskResult(l: Local, s: Server, key: string, fate: Fate): Option<SyncResult> {
    if key in l.results then Some(l.results[key].(wasDuplicate := true))
    else if fate.Delivered? then Some(Answer(s, key)) else None
  }

  /** What has been submitted: nothing when the answer is cached or the process dies before. */
  function SentAfter(l: Local, command: SyncCommand, n: nat): seq<SyncCommand> {
    if command.IdempotencyKey() in l.results || n < 2 then [] else [command]
  }

  function SyncSends(l: Local, command: SyncCommand, n: nat): seq<SyncCommand> {
    if n == 0 then [] else SentAfter(l, command, n - 1)
  }

  /** What completing a draft submits. */
  function Sent(l: Local, device: DeviceContext, draft: SaleDraft, online: bool, still: bool, n: nat): seq<SyncCommand>
  {
    if still && n > 0 then SyncSends(l, CommandFor(device, NewSale(device, draft, online), 1), n - 1) else []
  }

  /** A synced sale is stored, then its command leaves the queue. */
  function AcceptedAfter(l: Local, synced: CompletedSale, key: string, n: nat): Local {
    if n == 0 then l else
    var stored := l.(sales := l.sales[synced.clientTransactionId := synced]);
    if n == 1 then stored else stored.(queue := l.queue - {key})
  }

  function RejectedAfter(l: Local, rejected: CompletedSale, n: nat): Local {
    if n == 0 then l else l.(sales := l.sales[rejected.clientTransactionId := rejected])
  }

  /** An answered sale is accepted, any other kept for review. */
  function FinishedAfter(l: Local, sale: CompletedSale, key: string, r: Option<SyncResult>, n: nat): Local {
    if r.Some? then AcceptedAfter(l, AsSynced(sale, r.value), key, n) else RejectedAfter(l, AsReview(sale), n)
  }

  function FinishAwaits(r: Option<SyncResult>): nat {
    if r.Some? then 2 else 1
  }

  /** The command is queued before the answer is asked for. */
  function QueuedAfter(l: Local, s: Server, command: SyncCommand, fate: Fate, n: nat): Disk {
    if n == 0 then Disk(l, s)
    else AskedAfter(l.(queue := l.queue[command.IdempotencyKey() := command]), s, command.IdempotencyKey(), fate, n - 1)
  }

  function QueueAwaits(l: Local, key: string, fate: Fate): nat {
    1 + AskAwaits(l, key, fate)
  }

  /** One synchronisation: the command is queued, the answer asked for, the sale stored. */
  function SyncedAfter(l: Local, s: Server, command: SyncCommand, fate: Fate, n: nat): Disk {
    var key := command.IdempotencyKey();
    var d, asked := QueuedAfter(l, s, command, fate, n), QueueAwaits(l, key, fate);
    if n < asked then d
    else Disk(FinishedAfter(d.local, command.sale, key, AskResult(l, s, key, fate), n - asked), d.server)
  }

  function SyncAwaits(l: Local, s: Server, key: string, fate: Fate): nat {
    QueueAwaits(l, key, fate) + FinishAwaits(AskResult(l, s, key, fate))
  }

  /** A new sale goes to the gateway, or to the queue while offline. */
  function DispatchedAfter(l: Local, s: Server, device: DeviceContext, sale: CompletedSale, online: bool, fate: Fate,
                           n: nat): Disk
  {
    var command := CommandFor(device, sale, 1);
    if online then SyncedAfter(l, s, command, fate, n)
    else Disk(if n == 0 then l else l.(queue := l.queue[command.IdempotencyKey() := command]), s)
  }

  function DispatchAwaits(l: Local, s: Server, device: DeviceContext, sale: CompletedSale, online: bool,
                          fate: Fate): nat
  {
    if online then SyncAwaits(l, s, Key(device.deviceId, sale.clientTransactionId), fate) else 1
  }

  /**
   * Completing a draft: the sale is saved, dispatched, and its draft deleted. The connection is read when the sale
   * is made (`online`) and again when it has been saved (`still`).
   */
  function CompletedAfter(l: Local, s: Server, device: DeviceContext, draft: SaleDraft, online: bool, still: bool,
                          fate: Fate, n: nat): Disk
  {
    var sale := NewSale(device, draft, online);
    if n == 0 then Disk(l, s) else
    var saved := l.(sales := PutIfAbsent(l.sales, sale.clientTransactionId, sale));
    var d := DispatchedAfter(saved, s, device, sale, still, fate, n - 1);
    if n - 1 <= DispatchAwaits(saved, s, device, sale, still, fate) then d
    else d.(local := WithoutDraft(d.local, draft.clientTransactionId))
  }

  function CompleteAwaits(l: Local, s: Server, device: DeviceContext, draft: SaleDraft, online: bool, still: bool,
                          fate: Fate): nat
  {
    2 + DispatchAwaits(l, s, device, NewSale(device, draft, online), still, fate)
  }

  // The controller.

  /** The process may be killed; the sale rules may refuse. */
  datatype Progress<+T> = Died | Refused | Lived(value: T) {
    predicate IsFailure() {
      !Lived?
    }
    function PropagateFailure<U>(): Progress<U>
      requires !Lived?
    {
      if Died? then Died else Refused
    }
    function Extract(): T
      requires Lived?
    {
      value
    }
  }

  datatype Pulse = Alive | Killed {
    predicate IsFailure() {
      Killed?
    }
    function PropagateFailure<U>(): Progress<U>
      requires Killed?
    {
      Died
    }
  }

  function NewSale(device: DeviceContext, draft: SaleDraft, online: bool): CompletedSale {
    CompletedSale("", if online then "Pending" else "Offline pending", draft.clientTransactionId, device.deviceId,
                  draft.customer, draft.saleType, draft.paymentMethod, draft.lines, Total(draft.lines), draft.createdAt,
                  if draft.saleType == CashSale then "Paid" else "Receivable",
                  if online then Syncing else PendingSync, None)
  }

  function CommandFor(device: DeviceContext, sale: CompletedSale, attempt: int64): SyncCommand {
    SyncCommand(device.deviceId, device.userId, sale.clientTransactionId, sale.createdAt, device.companyId,
                device.branchId, device.warehouseId, device.appVersion, device.masterDataVersion, device.priceVersion,
                attempt, sale)
  }

  /** A new sale is synchronised at once, or queued while offline. */
  function Dispatched(l: Local, s: Server, device: DeviceContext, sale: CompletedSale, online: bool, fate: Fate): Effect
  {
    var command := CommandFor(device, sale, 1);
    if online then Synchronized(l, s, command, fate)
    else Effect(l.(queue := l.queue[command.IdempotencyKey() := command]), s, sale)
  }

  function WithoutDraft(l: Local, id: string): Local {
    l.(drafts := l.drafts - {id})
  }

  /** What completing a draft leaves when nothing interrupts it. */
  function Completed(l: Local, s: Server, device: DeviceContext, draft: SaleDraft, online: bool, still: bool,
                     fate: Fate): Effect
  {
    var sale := NewSale(device, draft, online);
    var saved := l.(sales := PutIfAbsent(l.sales, draft.clientTransactionId, sale));
    var e := Dispatched(saved, s, device, sale, still, fate);
    e.(local := WithoutDraft(e.local, draft.clientTransactionId))
  }

  predicate Waiting(sale: CompletedSale) {
    sale.syncStatus == PendingSync || sale.syncStatus == RequiresReview
  }

  predicate Finished(sale: CompletedSale) {
    sale.syncStatus == Synced || sale.syncStatus == RequiresReview
  }

  /** With all its awaits, a synchronisation is the undisturbed one. */
  lemma SynchronizedAtLast(l: Local, s: Server, command: SyncCommand, fate: Fate, n: nat)
    ensures n >= SyncAwaits(l, s, command.IdempotencyKey(), fate) ==>
      var e := Synchronized(l, s, command, fate);
      SyncedAfter(l, s, command, fate, n) == Disk(e.local, e.server)
  {
    SynchronizedInSteps(l, s, command, fate);
    hide Synchronized, Post, Answer, Key;
  }

  lemma QueuedSales(l: Local, s: Server, command: SyncCommand, fate: Fate, n: nat)
    ensures QueuedAfter(l, s, command, fate, n).local.sales == l.sales
  {
    hide Answer, Post, Key;
  }

  lemma SyncStopped(l: Local, s: Server, command: SyncCommand, fate: Fate, n: nat)
    requires n < QueueAwaits(l, command.IdempotencyKey(), fate)
    ensures SyncedAfter(l, s, command, fate, n) == QueuedAfter(l, s, command, fate, n)
    ensures n < SyncAwaits(l, s, command.IdempotencyKey(), fate)
  {
    hide QueuedAfter, QueueAwaits, AskResult, Key;
  }

  lemma SyncFinished(l: Local, s: Server, command: SyncCommand, fate: Fate, n: nat, l': Local,
                     p: Progress<CompletedSale>)
    requires var key, asked := command.IdempotencyKey(), QueueAwaits(l, command.IdempotencyKey(), fate);
      var r := AskResult(l, s, key, fate);
      && n >= asked
      && l' == FinishedAfter(QueuedAfter(l, s, command, fate, n).local, command.sale, key, r, n - asked)
      && (p.Died? <==> n - asked < FinishAwaits(r))
      && (p.Lived? ==> p.value == if r.Some? then AsSynced(command.sale, r.value) else AsReview(command.sale))
    ensures Disk(l', QueuedAfter(l, s, command, fate, n).server) == SyncedAfter(l, s, command, fate, n)
    ensures var key := command.IdempotencyKey();
      SyncAwaits(l, s, key, fate) == QueueAwaits(l, key, fate) + FinishAwaits(AskResult(l, s, key, fate))
    ensures p.Died? <==> n < SyncAwaits(l, s, command.IdempotencyKey(), fate)
    ensures p.Lived? ==>
      Effect(l', QueuedAfter(l, s, command, fate, n).server, p.value) == Synchronized(l, s, command, fate)
  {
    SynchronizedAtLast(l, s, command, fate, n);
    SynchronizedSale(l, s, command, fate);
    hide QueuedAfter, QueueAwaits, AskResult, Key, Synchronized, FinishedAfter, AsSynced, AsReview;
  }

  /** What completing a draft leaves behind when the process had `n` awaits left. */
  ghost predicate Completes(l: Local, s: Server, device: DeviceContext, draft: SaleDraft, online: bool, still: bool,
                            fate: Fate, n: nat, d: Disk, p: Progress<CompletedSale>)
  {
    && d == CompletedAfter(l, s, device, draft, online, still, fate, n)
    && (p.Died? <==> n < CompleteAwaits(l, s, device, draft, online, still, fate)) && !p.Refused?
    && (p.Lived? ==> Effect(d.local, d.server, p.value) == Completed(l, s, device, draft, online, still, fate))
  }

  /** What saving and dispatching a new sale leaves behind, with how many awaits left. */
  ghost predicate Submits(l: Local, s: Server, device: DeviceContext, sale: CompletedSale, online: bool, fate: Fate,
                          n: nat, d: Disk, p: Progress<CompletedSale>, left: nat)
  {
    var saved := l.(sales := PutIfAbsent(l.sales, sale.clientTransactionId, sale));
    var awaits := 1 + DispatchAwaits(saved, s, device, sale, online, fate);
    && d == (if n == 0 then Disk(l, s) else DispatchedAfter(saved, s, device, sale, online, fate, n - 1))
    && (p.Died? <==> n < awaits) && !p.Refused?
    && (p.Lived? ==>
        && left == n - awaits
        && Effect(d.local, d.server, p.value) == Dispatched(saved, s, device, sale, online, fate))
  }

  /** What closing the draft leaves behind. */
  ghost predicate Closes(d: Disk, sale: CompletedSale, id: string, n: nat, d': Disk, p: Progress<CompletedSale>) {
    && p == (if n == 0 then Died else Lived(sale))
    && d' == (if n == 0 then d else d.(local := WithoutDraft(d.local, id)))
  }

  lemma CompletionStopped(l: Local, s: Server, device: DeviceContext, draft: SaleDraft, online: bool, still: bool,
                          fate: Fate, n: nat, d: Disk, p: Progress<CompletedSale>, left: nat)
    requires Submits(l, s, device, NewSale(device, draft, online), still, fate, n, d, p, left) && !p.Lived?
    ensures p.Died? && Completes(l, s, device, draft, online, still, fate, n, d, p)
  {
    var sale := NewSale(device, draft, online);
    SameAwaits(l, l.(sales := PutIfAbsent(l.sales, sale.clientTransactionId, sale)), s, device, sale, still, fate);
    hide NewSale, DispatchAwaits, DispatchedAfter;
  }

  lemma CompletionEnds(l: Local, s: Server, device: DeviceContext, draft: SaleDraft, online: bool, still: bool,
                       fate: Fate, n: nat, d: Disk, p: Progress<CompletedSale>, left: nat, d': Disk,
                       p': Progress<CompletedSale>)
    requires Submits(l, s, device, NewSale(device, draft, online), still, fate, n, d, p, left) && p.Lived?
    requires Closes(d, p.value, draft.clientTransactionId, left, d', p')
    ensures Completes(l, s, device, draft, online, still, fate, n, d', p')
    ensures p'.Lived? ==> p' == p
  {
    var sale := NewSale(device, draft, online);
    NewSaleShape(device, draft, online);
    SameAwaits(l, l.(sales := PutIfAbsent(l.sales, sale.clientTransactionId, sale)), s, device, sale, still, fate);
    hide NewSale, DispatchAwaits, DispatchedAfter, Dispatched;
  }

  /** Saving the sale does not change how many awaits follow. */
  lemma SameAwaits(l: Local, saved: Local, s: Server, device: DeviceContext, sale: CompletedSale, online: bool,
                   fate: Fate)
    requires saved.results == l.results
    ensures DispatchAwaits(saved, s, device, sale, online, fate) == DispatchAwaits(l, s, device, sale, online, fate)
  {
  }

  /** The sale a synchronisation ends with is made from the answer. */
  lemma SynchronizedSale(l: Local, s: Server, command: SyncCommand, fate: Fate)
    ensures var r := AskResult(l, s, command.IdempotencyKey(), fate);
      Synchronized(l, s, command, fate).sale
        == if r.Some? then AsSynced(command.sale, r.value) else AsReview(command.sale)
  {
    hide Post, Answer, Key;
  }

  /** What one round of synchronisation may do to a listed sale. */
  predicate Advanced(before: CompletedSale, after: CompletedSale) {
    after.clientTransactionId == before.clientTransactionId
      && if Waiting(before) then Finished(after) else after == before
  }

  /** The durable sales when the process dies: untouched, or with this sale finished. */
  ghost predicate AtMostFinished(before: map<string, CompletedSale>, after: map<string, CompletedSale>, id: string) {
    after == before || (id in after && Finished(after[id]) && after == before[id := after[id]])
  }

  lemma UnchangedSales(sales: map<string, CompletedSale>, id: string)
    ensures AtMostFinished(sales, sales, id)
  {
  }

  lemma MirrorsReplace(list: seq<CompletedSale>, sales: map<string, CompletedSale>, i: nat, sale: CompletedSale)
    requires Mirrors(list, sales) && i < |list| && sale.clientTransactionId == list[i].clientTransactionId
    ensures Mirrors(list[i := sale], sales[sale.clientTransactionId := sale])
  {
    var list' := list[i := sale];
    forall id | id in sales && id != sale.clientTransactionId ensures sales[id] in list' {
      var j :| 0 <= j < |list| && list[j] == sales[id];
      assert list'[j] == list[j];
    }
    assert list'[i] == sale;
  }

  lemma MirrorsInsert(list: seq<CompletedSale>, sales: map<string, CompletedSale>, sale: CompletedSale)
    requires Mirrors(list, sales) && sale.clientTransactionId !in sales
    ensures Mirrors([sale] + list, sales[sale.clientTransactionId := sale])
  {
    var list' := [sale] + list;
    forall id | id in sales ensures sales[id] in list' {
      var j :| 0 <= j < |list| && list[j] == sales[id];
      assert list'[j + 1] == list[j];
    }
    assert list'[0] == sale;
  }

  class SalesController {
    const device: DeviceContext
    const store: LocalStore
    const gateway: Gateway
    var sales: seq<CompletedSale>
    var drafts: seq<SaleDraft>
    var isOnline: bool
    var isSyncing: bool
    var life: nat // awaits left before the process is killed

    constructor (device: DeviceContext, store: LocalStore, gateway: Gateway, life: nat)
      ensures this.device == device && this.store == store && this.gateway == gateway && this.life == life
      ensures sales == [] && drafts == [] && isOnline && !isSyncing
    {
      this.device, this.store, this.gateway, this.life := device, store, gateway, life;
      sales, drafts, isOnline, isSyncing := [], [], true, false;
    }

    ghost predicate Sound()
      reads store, gateway
    {
      Consistent(store.View(), gateway.View(), device.deviceId)
    }

    function Durable(): Disk
      reads store, gateway
    {
      Disk(store.View(), gateway.View())
    }

    ghost predicate AllSettled()
      reads store, gateway
    {
      Settled(store.View(), gateway.View(), device.deviceId)
    }

    method Await() returns (p: Pulse)
      modifies this`life
      ensures if old(life) == 0 then p == Killed && life == 0 else p == Alive && life == old(life) - 1
    {
      if life == 0 {
        return Killed;
      }
      life := life - 1;
      return Alive;
    }

    /** The sales of the store, after a start or a restart. */
    method InitializeLocalData() returns (p: Progress<()>)
      requires Sound()
      modifies this`life, this`sales
      ensures p.Lived? ==> Mirrors(sales, store.sales)
      ensures p.Died? <==> old(life) == 0
    {
      var pulse := Await();
      if pulse.Killed? {
        return Died;
      }
      sales := store.ReadSales();
      return Lived(());
    }

    /** The cached answer, or the gateway's; None when the submission throws. */
    method Synchronize(command: SyncCommand) returns (p: Progress<Option<SyncResult>>)
      requires Sound()
      modifies this`life, store, gateway
      ensures Sound() && !p.Refused? && Remembers(old(gateway.View()), gateway.View())
      ensures var l, s, key, fate := old(store.View()), old(gateway.View()), command.IdempotencyKey(),
        gateway.FateOf(old(gateway.requests));
        && Durable() == AskedAfter(l, s, key, fate, old(life))
        && (p.Died? <==> old(life) < AskAwaits(l, key, fate))
        && (p.Lived? ==> life == old(life) - AskAwaits(l, key, fate) && p.value == AskResult(l, s, key, fate))
      ensures gateway.received == old(gateway.received) + SentAfter(old(store.View()), command, old(life))
    {
      hide ServerOk, Post, Answer, command.IdempotencyKey;
      var key := command.IdempotencyKey();
      :- Await();
      if key in store.results {
        return Lived(Some(SyncResult(store.results[key].serverSaleId, store.results[key].receiptNumber, true)));
      }
      :- Await();
      PostKeeps(store.View(), gateway.View(), device.deviceId, key);
      var result := gateway.Submit(command);
      if result.None? {
        return Lived(None);
      }
      :- Await();
      ResultKeeps(store.View(), gateway.View(), device.deviceId, key, result.value);
      store.SaveSyncResult(key, result.value);
      return Lived(result);
    }

    /** A synced sale replaces the stored one and its command leaves the queue. */
    method Accept(synced: CompletedSale, key: string) returns (p: Progress<CompletedSale>)
      requires Sound() && synced.syncStatus == Synced && key == Key(device.deviceId, synced.clientTransactionId)
      requires key in store.results && CarriesAnswer(synced, store.results[key])
      modifies this`life, store
      ensures Sound() && !p.Refused?
      ensures store.View() == AcceptedAfter(old(store.View()), synced, key, old(life))
      ensures p.Died? <==> old(life) < 2
      ensures p.Lived? ==> p.value == synced && life == old(life) - 2
      ensures AtMostFinished(old(store.sales), store.sales, synced.clientTransactionId)
    {
      hide Consistent, Key;
      :- Await();
      ReplaceKeeps(store.View(), gateway.View(), device.deviceId, synced);
      store.ReplaceSale(synced);
      :- Await();
      QueueKeeps(store.View(), gateway.View(), device.deviceId, store.queue - {key});
      store.RemoveSyncCommand(key);
      return Lived(synced);
    }

    method Reject(rejected: CompletedSale) returns (p: Progress<CompletedSale>)
      requires Sound() && rejected.syncStatus == RequiresReview
      modifies this`life, store
      ensures Sound() && !p.Refused?
      ensures store.View() == RejectedAfter(old(store.View()), rejected, old(life))
      ensures p.Died? <==> old(life) < 1
      ensures p.Lived? ==> p.value == rejected && life == old(life) - 1
      ensures AtMostFinished(old(store.sales), store.sales, rejected.clientTransactionId)
    {
      hide Consistent;
      :- Await();
      ReplaceKeeps(store.View(), gateway.View(), device.deviceId, rejected);
      store.ReplaceSale(rejected);
      return Lived(rejected);
    }

    /** The answered sale is accepted; without an answer it awaits review. */
    method Finish(sale: CompletedSale, key: string, result: Option<SyncResult>) returns (p: Progress<CompletedSale>)
      requires Sound() && key == Key(device.deviceId, sale.clientTransactionId)
      requires result.Some? ==> key in store.results && SameAnswer(result.value, store.results[key])
      modifies this`life, store
      ensures Sound() && !p.Refused?
      ensures AtMostFinished(old(store.sales), store.sales, sale.clientTransactionId)
      ensures store.View() == FinishedAfter(old(store.View()), sale, key, result, old(life))
      ensures p.Died? <==> old(life) < FinishAwaits(result)
      ensures p.Lived? ==>
        && p.value == (if result.Some? then AsSynced(sale, result.value) else AsReview(sale))
        && life == old(life) - FinishAwaits(result)
    {
      hide Consistent, AtMostFinished, AcceptedAfter, RejectedAfter;
      if result.Some? {
        p := Accept(AsSynced(sale, result.value), key);
      } else {
        p := Reject(AsReview(sale));
      }
    }

    /** The command is queued and its answer asked for. */
    method QueueAndAsk(command: SyncCommand) returns (p: Progress<Option<SyncResult>>)
      requires Sound()
      modifies this`life, store, gateway
      ensures Sound() && !p.Refused? && Remembers(old(gateway.View()), gateway.View())
      ensures var l, s, key, fate := old(store.View()), old(gateway.View()), command.IdempotencyKey(),
        gateway.FateOf(old(gateway.requests));
        && Durable() == QueuedAfter(l, s, command, fate, old(life))
        && (p.Died? <==> old(life) < QueueAwaits(l, key, fate))
        && (p.Lived? ==> life == old(life) - QueueAwaits(l, key, fate) && p.value == AskResult(l, s, key, fate))
        && (p.Lived? && p.value.Some? ==> key in store.results && SameAnswer(p.value.value, store.results[key]))
      ensures gateway.received
        == old(gateway.received) + SyncSends(old(store.View()), command, old(life))
    {
      RemembersSelf(gateway.View());
      hide Consistent, Post, Answer, Key, Remembers;
      :- Await();
      QueueKeeps(store.View(), gateway.View(), device.deviceId, store.queue[command.IdempotencyKey() := command]);
      store.EnqueueSync(command);
      p := Synchronize(command);
    }

    method SyncOne(sale: CompletedSale, attempt: int64) returns (p: Progress<CompletedSale>)
      requires Sound()
      modifies this`life, store, gateway
      ensures Sound() && !p.Refused? && Remembers(old(gateway.View()), gateway.View())
      ensures AtMostFinished(old(store.sales), store.sales, sale.clientTransactionId)
      ensures var l, s, command, fate := old(store.View()), old(gateway.View()), CommandFor(device, sale, attempt),
                                         gateway.FateOf(old(gateway.requests));
        && Durable() == SyncedAfter(l, s, command, fate, old(life))
        && (p.Died? <==> old(life) < SyncAwaits(l, s, command.IdempotencyKey(), fate))
        && (p.Lived? ==>
          && life == old(life) - SyncAwaits(l, s, command.IdempotencyKey(), fate)
          && Effect(store.View(), gateway.View(), p.value) == Synchronized(l, s, command, fate))
      ensures gateway.received
        == old(gateway.received) + SyncSends(old(store.View()), CommandFor(device, sale, attempt), old(life))
    {
      var command := CommandFor(device, sale, attempt);
      ghost var l, s, fate, n := store.View(), gateway.View(), gateway.FateOf(gateway.requests), life;
      UnchangedSales(store.sales, sale.clientTransactionId);
      QueuedSales(l, s, command, fate, n);
      hide Synchronized, Consistent, Remembers, AtMostFinished, FinishedAfter, QueuedAfter, QueueAwaits, AskResult,
        SyncedAfter, SyncAwaits, FinishAwaits, SameAnswer;
      var asked := QueueAndAsk(command);
      if asked.Died? {
        SyncStopped(l, s, command, fate, n);
        return Died;
      }
      p := Finish(sale, command.IdempotencyKey(), asked.value);
      SyncFinished(l, s, command, fate, n, store.View(), p);
    }

    method Dispatch(sale: CompletedSale) returns (p: Progress<CompletedSale>)
      requires Sound()
      modifies this`life, store, gateway
      ensures Sound() && !p.Refused? && Remembers(old(gateway.View()), gateway.View())
      ensures var l, s, fate := old(store.View()), old(gateway.View()), gateway.FateOf(old(gateway.requests));
        && Durable() == DispatchedAfter(l, s, device, sale, isOnline, fate, old(life))
        && (p.Died? <==> old(life) < DispatchAwaits(l, s, device, sale, isOnline, fate))
        && (p.Lived? ==>
          && life == old(life) - DispatchAwaits(l, s, device, sale, isOnline, fate)
          && Effect(store.View(), gateway.View(), p.value) == Dispatched(l, s, device, sale, isOnline, fate))
      ensures gateway.received == old(gateway.received)
        + if isOnline then SyncSends(old(store.View()), CommandFor(device, sale, 1), old(life)) else []
    {
      hide Consistent, Post, Answer, Key, Remembers, Synchronized, AtMostFinished, SyncedAfter, SyncAwaits;
      if isOnline {
        p := SyncOne(sale, 1);
        return;
      }
      RemembersSelf(gateway.View());
      :- Await();
      var command := CommandFor(device, sale, 1);
      QueueKeeps(store.View(), gateway.View(), device.deviceId, store.queue[command.IdempotencyKey() := command]);
      store.EnqueueSync(command);
      return Lived(sale);
    }

    method SetConnectivity(online: bool)
      modifies this`isOnline
      ensures isOnline == online
    {
      if isOnline != online {
        isOnline := online;
      }
    }

    /** The new sale is saved, while the connection may be switched; then it is synchronised or queued. */
    method Submit(sale: CompletedSale, still: bool) returns (p: Progress<CompletedSale>)
      requires Sound() && sale.syncStatus != Synced
      modifies this`life, this`isOnline, store, gateway
      ensures Sound() && Remembers(old(gateway.View()), gateway.View())
      ensures Submits(old(store.View()), old(gateway.View()), device, sale, still,
                      gateway.FateOf(old(gateway.requests)), old(life), Durable(), p, life)
      ensures p.Lived? ==> isOnline == still
      ensures gateway.received == old(gateway.received)
        + if still && old(life) > 0 then SyncSends(old(store.View()), CommandFor(device, sale, 1), old(life) - 1)
          else []
    {
      RemembersSelf(gateway.View());
      hide Consistent, Remembers, Dispatched, DispatchedAfter, DispatchAwaits, AtMostFinished;
      :- Await();
      SaveKeeps(store.View(), gateway.View(), device.deviceId, sale);
      store.SaveSale(sale);
      SetConnectivity(still);
      p := Dispatch(sale);
    }

    /** The sale is shown and its draft deleted. */
    method CloseDraft(sale: CompletedSale, id: string) returns (p: Progress<CompletedSale>)
      requires Sound()
      modifies this`life, this`sales, this`drafts, store
      ensures Sound() && sales == [sale] + old(sales)
      ensures Closes(old(Durable()), sale, id, old(life), Durable(), p)
    {
      hide Consistent;
      sales := [sale] + sales;
      :- Await();
      DraftsKeep(store.View(), gateway.View(), device.deviceId, store.drafts - {id});
      store.DeleteDraft(id);
      drafts := Sums.Filter(drafts, OtherDraft(id));
      return Lived(sale);
    }

    /**
     * A permitted draft. Whatever the number of awaits the process has left, the durable state is the one
     * after that many awaits, and the process dies exactly when they do not suffice.
     */
    method PostDraft(draft: SaleDraft, still: bool) returns (p: Progress<CompletedSale>)
      requires Sound()
      modifies this`life, this`isOnline, this`sales, this`drafts, store, gateway
      ensures Sound() && Remembers(old(gateway.View()), gateway.View())
      ensures Completes(old(store.View()), old(gateway.View()), device, draft, old(isOnline), still,
                        gateway.FateOf(old(gateway.requests)), old(life), Durable(), p)
      ensures p.Lived? ==> sales == [p.value] + old(sales) && isOnline == still
      ensures gateway.received
        == old(gateway.received) + Sent(old(store.View()), device, draft, old(isOnline), still, old(life))
    {
      ghost var l, s, fate, n, online := store.View(), gateway.View(), gateway.FateOf(gateway.requests), life, isOnline;
      NewSaleShape(device, draft, isOnline);
      hide Consistent, Remembers, NewSale, Submits, Closes, Completes, gateway.FateOf;
      var submitted := Submit(NewSale(device, draft, isOnline), still);
      ghost var d, left := Durable(), life;
      if !submitted.Lived? {
        CompletionStopped(l, s, device, draft, online, still, fate, n, d, submitted, left);
        return Died;
      }
      p := CloseDraft(submitted.value, draft.clientTransactionId);
      CompletionEnds(l, s, device, draft, online, still, fate, n, d, submitted, left, Durable(), p);
    }

    /** `still` is whether the connection is on when the sale has been saved. */
    method CompleteSale(draft: SaleDraft, permitted: bool, still: bool) returns (p: Progress<CompletedSale>)
      requires Sound()
      modifies this`life, this`isOnline, this`sales, this`drafts, store, gateway
      ensures Sound() && Remembers(old(gateway.View()), gateway.View())
      ensures p.Refused? <==> !permitted
      ensures p.Refused? ==> Durable() == old(Durable()) && sales == old(sales) && isOnline == old(isOnline)
      ensures permitted ==>
        Completes(old(store.View()), old(gateway.View()), device, draft, old(isOnline), still,
                  gateway.FateOf(old(gateway.requests)), old(life), Durable(), p)
      ensures p.Lived? ==> sales == [p.value] + old(sales) && isOnline == still
      ensures gateway.received == old(gateway.received)
        + if permitted then Sent(old(store.View()), device, draft, old(isOnline), still, old(life)) else []
    {
      if !permitted {
        RemembersSelf(gateway.View());
        return Refused;
      }
      hide Consistent, Remembers, CompletedAfter, CompleteAwaits, Completed;
      p := PostDraft(draft, still);
    }

    /** One waiting sale of the list, shown as syncing meanwhile. */
    method SyncListed(index: nat) returns (p: Progress<()>)
      requires Sound() && index < |sales| && Waiting(sales[index])
      modifies this`life, this`sales, store, gateway
      ensures Sound() && !p.Refused? && Remembers(old(gateway.View()), gateway.View())
      ensures p.Lived? ==>
        && |sales| == |old(sales)| && sales == old(sales)[index := sales[index]]
           && Advanced(old(sales)[index], sales[index])
        && (AllDelivered() ==> !Waiting(sales[index]))
        && (old(AllSettled()) ==> AllSettled())
        && (Mirrors(old(sales), old(store.sales)) ==> Mirrors(sales, store.sales))
      ensures AtMostFinished(old(store.sales), store.sales, old(sales)[index].clientTransactionId)
    {
      hide Consistent, Remembers, Settled, Mirrors, Synchronized, Key, AtMostFinished;
      ghost var l, s, fate, listed := store.View(), gateway.View(), gateway.FateOf(gateway.requests), sales;
      var sale := sales[index];
      sales := sales[index := sale.(syncStatus := Syncing)];
      var synced :- SyncOne(sale, 2);
      RoundKeeps(l, s, device, sale, fate);
      sales := sales[index := synced];
      assert sales == listed[index := synced];
      if Mirrors(listed, l.sales) {
        MirrorsReplace(listed, l.sales, index, synced);
      }
      return Lived(());
    }

    ghost predicate AllDelivered()
      reads gateway
    {
      forall n: nat :: gateway.FateOf(n) == Delivered
    }

    ghost predicate Standing(l: Local, s: Server, before: seq<CompletedSale>, n: nat)
      reads this, store, gateway
    {
      Rounds(device.deviceId, l, s, before, AllDelivered(), store.View(), gateway.View(), sales, n)
    }

    /** One round of the loop, on any listed sale. */
    method SyncRound(index: nat, ghost l: Local, ghost s: Server, ghost before: seq<CompletedSale>)
      returns (p: Progress<()>)
      requires index < |sales| && Standing(l, s, before, index)
      modifies this`life, this`sales, store, gateway
      ensures Sound() && !p.Refused? && Remembers(s, gateway.View())
      ensures p.Lived? ==> |sales| == |old(sales)| && Standing(l, s, before, index + 1)
      ensures Mirrors(before, l.sales) ==> Untouched(l.sales, store.sales)
    {
      ghost var l1, s1, listed := store.View(), gateway.View(), sales;
      LastRound(device.deviceId, l, s, before, AllDelivered(), l1, s1, listed, index);
      hide Rounds, Consistent, Remembers, Settled, Mirrors, AllAdvanced, NoneWaits;
      RemembersSelf(s1);
      if sales[index].syncStatus == PendingSync || sales[index].syncStatus == RequiresReview {
        p := SyncListed(index);
        RemembersMore(s, s1, gateway.View());
        if p.Died? {
          if Mirrors(before, l.sales) {
            RoundTouches(l, before, l1, listed, index, store.sales);
          }
          return;
        }
      }
      NextRound(device.deviceId, l, s, before, AllDelivered(), l1, s1, listed, store.View(), gateway.View(), sales,
                index);
      return Lived(());
    }

    method SyncRounds(ghost l: Local, ghost s: Server, ghost before: seq<CompletedSale>) returns (p: Progress<()>)
      requires Standing(l, s, before, 0) && Sound() && Remembers(s, gateway.View())
      modifies this`life, this`sales, store, gateway
      ensures Sound() && !p.Refused? && Remembers(s, gateway.View())
      ensures p.Lived? ==> |sales| == |old(sales)| && Standing(l, s, before, |sales|)
      ensures Mirrors(before, l.sales) ==> Untouched(l.sales, store.sales)
    {
      for index := 0 to |sales|
        invariant |sales| == |old(sales)| && Standing(l, s, before, index) && Sound() && Remembers(s, gateway.View())
        invariant Mirrors(before, l.sales) ==> Untouched(l.sales, store.sales)
      {
        var round := SyncRound(index, l, s, before);
        if round.Died? {
          return Died;
        }
      }
      return Lived(());
    }

    /** Every listed sale that waits is synchronised again, whatever became of the others. */
    method SynchronizePending() returns (p: Progress<()>)
      requires Sound()
      modifies this`life, this`sales, this`isSyncing, store, gateway
      ensures Sound() && Remembers(old(gateway.View()), gateway.View())
      ensures !isOnline || old(isSyncing) ==>
        p.Lived? && sales == old(sales) && store.View() == old(store.View()) && gateway.View() == old(gateway.View())
      ensures p.Lived? && isOnline && !old(isSyncing) ==>
        !isSyncing && |sales| == |old(sales)| && Standing(old(store.View()), old(gateway.View()), old(sales), |sales|)
      ensures Mirrors(old(sales), old(store.sales)) ==> Untouched(old(store.sales), store.sales)
    {
      ghost var l, s, before := store.View(), gateway.View(), sales;
      FirstRound(device.deviceId, l, s, before, AllDelivered());
      RemembersSelf(s);
      hide Rounds, Consistent, Remembers;
      if !isOnline || isSyncing {
        return Lived(());
      }
      isSyncing := true;
      p := SyncRounds(l, s, before);
      isSyncing := p.Died?;
    }
  }

  /** The list after the rounds before `n`; the rest still stands. */
  ghost predicate AllAdvanced(before: seq<CompletedSale>, after: seq<CompletedSale>, n: nat) {
    && |after| == |before|
    && (forall i :: 0 <= i < n <= |after| ==> Advanced(before[i], after[i]))
    && (forall i :: n <= i < |after| ==> after[i] == before[i])
  }

  predicate NoneWaits(list: seq<CompletedSale>, n: nat) {
    forall i :: 0 <= i < n <= |list| ==> !Waiting(list[i])
  }

  /** Stored sales that were not waiting are as they were. */
  ghost predicate Untouched(before: map<string, CompletedSale>, after: map<string, CompletedSale>) {
    forall id :: id in before && !Waiting(before[id]) ==> id in after && after[id] == before[id]
  }

  /** Where a synchronisation stands after `n` rounds, from what it found. */
  ghost predicate Rounds(deviceId: string, l0: Local, s0: Server, before: seq<CompletedSale>, delivered: bool,
                         l: Local, s: Server, list: seq<CompletedSale>, n: nat)
  {
    && Consistent(l, s, deviceId) && Remembers(s0, s)
    && AllAdvanced(before, list, n)
    && (delivered ==> NoneWaits(list, n))
    && (Settled(l0, s0, deviceId) ==> Settled(l, s, deviceId))
    && (Mirrors(before, l0.sales) ==> Mirrors(list, l.sales) && Untouched(l0.sales, l.sales))
  }

  /** A round, finished or cut short, touches only a sale that was waiting. */
  lemma RoundTouches(l0: Local, before: seq<CompletedSale>, l: Local, list: seq<CompletedSale>, n: nat,
                     sales: map<string, CompletedSale>)
    requires Mirrors(before, l0.sales) && Untouched(l0.sales, l.sales) && AllAdvanced(before, list, n)
    requires n < |list| && Waiting(list[n])
    requires AtMostFinished(l.sales, sales, list[n].clientTransactionId)
    ensures Untouched(l0.sales, sales)
  {
    assert list[n] == before[n];
  }

  lemma FirstRound(deviceId: string, l: Local, s: Server, before: seq<CompletedSale>, delivered: bool)
    requires Consistent(l, s, deviceId)
    ensures Rounds(deviceId, l, s, before, delivered, l, s, before, 0)
  {
  }

  lemma LastRound(deviceId: string, l0: Local, s0: Server, before: seq<CompletedSale>, delivered: bool,
                  l: Local, s: Server, list: seq<CompletedSale>, n: nat)
    requires Rounds(deviceId, l0, s0, before, delivered, l, s, list, n)
    ensures Consistent(l, s, deviceId) && Remembers(s0, s)
    ensures |list| == |before| && AllAdvanced(before, list, n) && (delivered ==> NoneWaits(list, n))
    ensures Settled(l0, s0, deviceId) ==> Settled(l, s, deviceId)
    ensures Mirrors(before, l0.sales) ==> Mirrors(list, l.sales) && Untouched(l0.sales, l.sales)
  {
  }

  lemma NextRound(deviceId: string, l0: Local, s0: Server, before: seq<CompletedSale>, delivered: bool,
                  l: Local, s: Server, list: seq<CompletedSale>, l': Local, s': Server, list': seq<CompletedSale>,
                  n: nat)
    requires Rounds(deviceId, l0, s0, before, delivered, l, s, list, n)
    requires n < |list| && |list| == |list'| && list' == list[n := list'[n]]
    requires if Waiting(list[n]) then Advanced(list[n], list'[n]) else list'[n] == list[n]
    requires delivered ==> !Waiting(list'[n])
    requires Consistent(l', s', deviceId) && Remembers(s, s')
    requires Settled(l, s, deviceId) ==> Settled(l', s', deviceId)
    requires Mirrors(list, l.sales) ==> Mirrors(list', l'.sales)
    requires if Waiting(list[n]) then AtMostFinished(l.sales, l'.sales, list[n].clientTransactionId) else l' == l
    ensures Rounds(deviceId, l0, s0, before, delivered, l', s', list', n + 1)
  {
    if Mirrors(before, l0.sales) && Waiting(list[n]) {
      RoundTouches(l0, before, l, list, n, l'.sales);
    }
    hide Consistent, Settled, Mirrors, Untouched, AtMostFinished;
  }

  lemma SynchronizedShape(l: Local, s: Server, command: SyncCommand, fate: Fate)
    ensures var e, sale := Synchronized(l, s, command, fate), command.sale;
      && e.sale.clientTransactionId == sale.clientTransactionId && Finished(e.sale)
      && (e.sale.syncStatus == Synced <==> command.IdempotencyKey() in l.results || fate.Delivered?)
      && e.local.sales == l.sales[sale.clientTransactionId := e.sale]
  {
    hide Post, Answer, Key;
  }

  /** One round on a listed sale. */
  lemma RoundKeeps(l: Local, s: Server, device: DeviceContext, sale: CompletedSale, fate: Fate)
    requires Consistent(l, s, device.deviceId)
    ensures var e := Synchronized(l, s, CommandFor(device, sale, 2), fate);
      && e.sale.clientTransactionId == sale.clientTransactionId && Finished(e.sale)
      && (fate.Delivered? ==> e.sale.syncStatus == Synced)
      && e.local.sales == l.sales[sale.clientTransactionId := e.sale]
      && (Settled(l, s, device.deviceId) ==> Settled(e.local, e.server, device.deviceId))
  {
    var command := CommandFor(device, sale, 2);
    SynchronizedShape(l, s, command, fate);
    hide Synchronized, Consistent;
    if Settled(l, s, device.deviceId) {
      SynchronizedSettles(l, s, device.deviceId, command, fate);
    }
  }

  lemma RemembersMore(a: Server, b: Server, c: Server)
    requires Remembers(a, b) && Remembers(b, c)
    ensures Remembers(a, c)
  {
  }

  lemma DispatchedShape(l: Local, s: Server, device: DeviceContext, sale: CompletedSale, online: bool, fate: Fate)
    requires sale.clientTransactionId in l.sales && l.sales[sale.clientTransactionId] == sale
    ensures var e := Dispatched(l, s, device, sale, online, fate);
      && e.sale.clientTransactionId == sale.clientTransactionId
      && e.local.sales == l.sales[sale.clientTransactionId := e.sale]
      && (online ==> Finished(e.sale) && (e.sale.syncStatus == Synced <==>
        Key(device.deviceId, sale.clientTransactionId) in l.results || fate.Delivered?))
      && (!online ==> e.sale == sale)
  {
    SynchronizedShape(l, s, CommandFor(device, sale, 1), fate);
    hide Synchronized;
  }

  /** A new sale is settled by its dispatch, unless it was made online and dispatched offline. */
  lemma DispatchedSettles(l: Local, s: Server, device: DeviceContext, sale: CompletedSale, still: bool, fate: Fate)
    requires Consistent(l, s, device.deviceId) && Settled(l, s, device.deviceId)
    requires sale.clientTransactionId !in l.sales && (sale.syncStatus == Syncing || sale.syncStatus == PendingSync)
    ensures var e := Dispatched(l.(sales := l.sales[sale.clientTransactionId := sale]), s, device, sale, still, fate);
      Settled(e.local, e.server, device.deviceId) <==> still || sale.syncStatus == PendingSync
  {
    var command, saved := CommandFor(device, sale, 1), l.(sales := l.sales[sale.clientTransactionId := sale]);
    if still {
      SaveKeeps(l, s, device.deviceId, sale);
      SettledSaved(l, s, device.deviceId, sale);
      SynchronizedSettles(saved, s, device.deviceId, command, fate);
    } else if sale.syncStatus == PendingSync {
      QueuedSettles(l, s, device.deviceId, command);
    } else {
      var e := Dispatched(saved, s, device, sale, still, fate);
      assert !SaleSettled(e.local, e.server, device.deviceId, e.local.sales[sale.clientTransactionId]);
    }
  }

  lemma SettledSaved(l: Local, s: Server, deviceId: string, sale: CompletedSale)
    requires Settled(l, s, deviceId)
    ensures forall id :: id in l.sales && id != sale.clientTransactionId ==>
      SaleSettled(l.(sales := l.sales[sale.clientTransactionId := sale]), s, deviceId, l.sales[id])
  {
  }

  /**
   * A draft completed once, without interruption, is shown, and settled with everything else unless the connection
   * is lost while the sale is saved.
   */
  lemma CompletedSettles(l: Local, s: Server, device: DeviceContext, draft: SaleDraft, online: bool, still: bool,
                         fate: Fate, list: seq<CompletedSale>)
    requires Consistent(l, s, device.deviceId) && Settled(l, s, device.deviceId)
    requires draft.clientTransactionId !in l.sales && Mirrors(list, l.sales)
    ensures var e := Completed(l, s, device, draft, online, still, fate);
      && (Settled(e.local, e.server, device.deviceId) <==> still || !online)
      && Mirrors([e.sale] + list, e.local.sales)
      && (e.sale.syncStatus == Synced <==>
          still && (Key(device.deviceId, draft.clientTransactionId) in l.results || fate.Delivered?))
      && (e.sale.syncStatus == Syncing <==> online && !still)
  {
    hide Consistent, Settled, Mirrors, Dispatched, Key;
    var id, sale := draft.clientTransactionId, NewSale(device, draft, online);
    var saved := l.(sales := l.sales[id := sale]);
    DispatchedSettles(l, s, device, sale, still, fate);
    CompletedShows(l, s, device, draft, online, still, fate, list);
    DispatchedShape(saved, s, device, sale, still, fate);
    var e := Dispatched(saved, s, device, sale, still, fate);
    DraftsIrrelevant(e.local, e.server, device.deviceId, e.local.drafts - {id});
  }

  /** The list shows the new sale as stored. */
  lemma CompletedShows(l: Local, s: Server, device: DeviceContext, draft: SaleDraft, online: bool, still: bool,
                       fate: Fate, list: seq<CompletedSale>)
    requires draft.clientTransactionId !in l.sales && Mirrors(list, l.sales)
    ensures var e := Completed(l, s, device, draft, online, still, fate);
      Mirrors([e.sale] + list, e.local.sales)
  {
    hide Mirrors, Dispatched, Key;
    var id, sale := draft.clientTransactionId, NewSale(device, draft, online);
    var saved := l.(sales := l.sales[id := sale]);
    DispatchedShape(saved, s, device, sale, still, fate);
    var e := Dispatched(saved, s, device, sale, still, fate);
    MirrorsInsert(list, l.sales, e.sale);
    assert e.local.sales == l.sales[id := e.sale];
  }

  lemma QueuedSettles(l: Local, s: Server, deviceId: string, command: SyncCommand)
    requires Consistent(l, s, deviceId) && Settled(l, s, deviceId)
    requires command.deviceId == deviceId && command.sale.syncStatus == PendingSync
    requires command.clientTransactionId == command.sale.clientTransactionId && command.clientTransactionId !in l.sales
    ensures Settled(l.(sales := l.sales[command.clientTransactionId := command.sale],
                       queue := l.queue[command.IdempotencyKey() := command]), s, deviceId)
  {
    hide ServerOk;
    forall id | id in l.sales && Key(deviceId, id) == command.IdempotencyKey() ensures false {
      KeyInjective(deviceId, id, command.clientTransactionId);
    }
    hide Key;
  }

  lemma DraftsIrrelevant(l: Local, s: Server, deviceId: string, drafts: map<string, SaleDraft>)
    ensures Settled(l.(drafts := drafts), s, deviceId) <==> Settled(l, s, deviceId)
  {
  }

  lemma NewSaleShape(device: DeviceContext, draft: SaleDraft, online: bool)
    ensures var sale := NewSale(device, draft, online);
      sale.clientTransactionId == draft.clientTransactionId
        && sale.syncStatus == if online then Syncing else PendingSync
  {
  }

  function OtherDraft(id: string): SaleDraft -> bool {
    (d: SaleDraft) => d.clientTransactionId != id
  }

  lemma SaveKeeps(l: Local, s: Server, deviceId: string, sale: CompletedSale)
    requires Consistent(l, s, deviceId) && sale.syncStatus != Synced
    ensures Consistent(l.(sales := PutIfAbsent(l.sales, sale.clientTransactionId, sale)), s, deviceId)
  {
    hide ServerOk;
  }

  lemma DraftsKeep(l: Local, s: Server, deviceId: string, drafts: map<string, SaleDraft>)
    requires Consistent(l, s, deviceId)
    ensures Consistent(l.(drafts := drafts), s, deviceId)
  {
  }

  // After a crash.

  lemma StoredLate(l: Local, s: Server, command: SyncCommand, fate: Fate, n: nat)
    ensures var key, id := command.IdempotencyKey(), command.sale.clientTransactionId;
      var d := SyncedAfter(l, s, command, fate, n).local;
      if n <= QueueAwaits(l, key, fate) then d.sales == l.sales
      else id in d.sales && Finished(d.sales[id]) && d.sales == l.sales[id := d.sales[id]]
  {
    QueuedSales(l, s, command, fate, n);
    hide QueuedAfter, AskResult, QueueAwaits, Key, AsSynced, AsReview;
    FinishedStatus(command.sale, AskResult(l, s, command.IdempotencyKey(), fate));
  }

  lemma FinishedStatus(sale: CompletedSale, r: Option<SyncResult>)
    ensures var done := if r.Some? then AsSynced(sale, r.value) else AsReview(sale);
      Finished(done) && done.clientTransactionId == sale.clientTransactionId
  {
  }

  /** The awaits before the result is stored: 2, 4 or 3 after the sale is saved. */
  lemma StrandedWindow(l: Local, s: Server, device: DeviceContext, draft: SaleDraft, online: bool, fate: Fate)
    ensures var key := Key(device.deviceId, draft.clientTransactionId);
      && QueueAwaits(l, key, fate) == (if key in l.results then 2 else if fate.Delivered? then 4 else 3)
      && 1 + QueueAwaits(l, key, fate) < CompleteAwaits(l, s, device, draft, online, true, fate)
  {
    NewSaleShape(device, draft, online);
    hide NewSale, Key;
  }

  /**
   * Whether `n` awaits leave a new draft syncing: it was made online, saved, and either the connection was gone by
   * then, or the process dies before the result is stored.
   */
  predicate Stranded(l: Local, device: DeviceContext, draft: SaleDraft, online: bool, still: bool, fate: Fate, n: nat) {
    online && n >= 1 && (still ==> n <= 1 + QueueAwaits(l, Key(device.deviceId, draft.clientTransactionId), fate))
  }

  /**
   * A draft that is new to the store is left syncing exactly when it is made online and either the connection is lost
   * while the sale is saved, or the process dies after saving the sale and before storing the result: with a delivered
   * and uncached request, at 1 to 5 awaits.
   */
  lemma StrandedExactly(l: Local, s: Server, device: DeviceContext, draft: SaleDraft, online: bool, still: bool,
                        fate: Fate, n: nat)
    requires draft.clientTransactionId !in l.sales
    ensures
      var d := CompletedAfter(l, s, device, draft, online, still, fate, n).local;
      var id, key := draft.clientTransactionId, Key(device.deviceId, draft.clientTransactionId);
      && (id in d.sales && d.sales[id].syncStatus == Syncing <==> Stranded(l, device, draft, online, still, fate, n))
      && (id !in d.sales <==> n == 0)
      && 1 + QueueAwaits(l, key, fate) == (if key in l.results then 3 else if fate.Delivered? then 5 else 4)
      && 1 + QueueAwaits(l, key, fate) < CompleteAwaits(l, s, device, draft, online, true, fate)
  {
    StrandedWindow(l, s, device, draft, online, fate);
    NewSaleShape(device, draft, online);
    if n > 0 {
      CompletedSales(l, s, device, draft, online, still, fate, n);
      hide CompletedAfter, CompleteAwaits, NewSale, QueueAwaits, PutIfAbsent, Key;
    }
  }

  lemma DispatchedSales(l: Local, s: Server, device: DeviceContext, sale: CompletedSale, still: bool, fate: Fate,
                        n: nat)
    ensures var id, sales := sale.clientTransactionId, DispatchedAfter(l, s, device, sale, still, fate, n).local.sales;
      if still && n > QueueAwaits(l, Key(device.deviceId, id), fate) then id in sales && Finished(sales[id])
      else sales == l.sales
  {
    if still {
      StoredLate(l, s, CommandFor(device, sale, 1), fate, n);
    }
    hide SyncedAfter, Key, QueueAwaits, Finished;
  }

  /** Closing the draft changes no sale. */
  lemma SalesAsDispatched(l: Local, s: Server, device: DeviceContext, draft: SaleDraft, online: bool, still: bool,
                          fate: Fate, n: nat)
    requires n > 0
    ensures var sale := NewSale(device, draft, online);
      var saved := l.(sales := PutIfAbsent(l.sales, sale.clientTransactionId, sale));
      var d, d' := CompletedAfter(l, s, device, draft, online, still, fate, n).local,
                   DispatchedAfter(saved, s, device, sale, still, fate, n - 1).local;
      d.sales == d'.sales && d.queue == d'.queue
  {
    hide DispatchedAfter, DispatchAwaits, NewSale, PutIfAbsent;
  }

  lemma CompletedSales(l: Local, s: Server, device: DeviceContext, draft: SaleDraft, online: bool, still: bool,
                       fate: Fate, n: nat)
    requires draft.clientTransactionId !in l.sales && n > 0
    ensures var id, sales := draft.clientTransactionId,
      CompletedAfter(l, s, device, draft, online, still, fate, n).local.sales;
      id in sales
      && if still && n > 1 + QueueAwaits(l, Key(device.deviceId, id), fate) then Finished(sales[id])
         else sales[id] == NewSale(device, draft, online)
  {
    SalesAsDispatched(l, s, device, draft, online, still, fate, n);
    NewSaleShape(device, draft, online);
    var sale := NewSale(device, draft, online);
    DispatchedSales(l.(sales := l.sales[draft.clientTransactionId := sale]), s, device, sale, still, fate, n - 1);
    hide CompletedAfter, DispatchedAfter, Key, NewSale, Finished;
  }

  /** What is queued, posted and cached for a sale left syncing. */
  lemma StrandedStages(l: Local, s: Server, device: DeviceContext, draft: SaleDraft, online: bool, still: bool,
                       fate: Fate, n: nat)
    requires Stranded(l, device, draft, online, still, fate, n)
    ensures var d, key := CompletedAfter(l, s, device, draft, online, still, fate, n),
      Key(device.deviceId, draft.clientTransactionId);
      && (key in d.local.queue <==> key in l.queue || n >= 2)
      && (key in d.local.results <==> key in l.results || (still && fate.Delivered? && n >= 5))
      && (key in d.server.posted <==> key in s.posted || (still && key !in l.results && !fate.RequestLost? && n >= 4))
      && d.local.drafts == if !still && n >= 3 then l.drafts - {draft.clientTransactionId} else l.drafts
  {
    NewSaleShape(device, draft, online);
    var sale := NewSale(device, draft, online);
    hide NewSale, Key, Answer, Issue;
    var saved := l.(sales := PutIfAbsent(l.sales, sale.clientTransactionId, sale));
    var command := CommandFor(device, sale, 1);
    assert command.IdempotencyKey() == Key(device.deviceId, draft.clientTransactionId);
    if still {
      SyncedEarly(saved, s, command, fate, n - 1);
    }
    hide SyncedAfter, QueuedAfter, PutIfAbsent;
  }

  /** Before the answer is stored, a synchronisation has only queued, asked and cached. */
  lemma SyncedEarly(l: Local, s: Server, command: SyncCommand, fate: Fate, n: nat)
    requires n <= QueueAwaits(l, command.IdempotencyKey(), fate)
    ensures var d, key := SyncedAfter(l, s, command, fate, n), command.IdempotencyKey();
      && (key in d.local.queue <==> key in l.queue || n >= 1)
      && (key in d.local.results <==> key in l.results || (fate.Delivered? && n >= 4))
      && (key in d.server.posted <==> key in s.posted || (key !in l.results && !fate.RequestLost? && n >= 3))
      && d.local.drafts == l.drafts
  {
    hide Key, Answer, Issue;
  }

  /** Completing the draft again does synchronise it, whatever was left of the first time. */
  lemma CompletedAgain(l: Local, s: Server, device: DeviceContext, draft: SaleDraft, online: bool, fate: Fate)
    requires fate.Delivered? || Key(device.deviceId, draft.clientTransactionId) in l.results
    ensures var e := Completed(l, s, device, draft, online, true, fate);
      && draft.clientTransactionId in e.local.sales && e.local.sales[draft.clientTransactionId].syncStatus == Synced
      && Key(device.deviceId, draft.clientTransactionId) !in e.local.queue
  {
    NewSaleShape(device, draft, online);
    hide NewSale, Post, Answer, Key;
  }

  // What is sold is what was drafted.

  /** Running totals of price times quantity. */
  ghost predicate RunningTotals(lines: seq<CartLine>, sums: seq<int>) {
    && |sums| == |lines| + 1 && sums[0] == 0
    && forall i :: 0 <= i < |lines| ==> sums[i + 1] == sums[i] + lines[i].unitPrice * lines[i].quantity
  }

  /** The sale of a draft, whatever has become of its synchronisation. Its total is the 64-bit sum over the lines. */
  ghost predicate FromDraft(device: DeviceContext, draft: SaleDraft, sale: CompletedSale) {
    && sale.clientTransactionId == draft.clientTransactionId && sale.deviceId == device.deviceId
    && sale.customer == draft.customer && sale.saleType == draft.saleType && sale.paymentMethod == draft.paymentMethod
    && sale.lines == draft.lines && sale.createdAt == draft.createdAt
    && sale.paymentStatus == (if draft.saleType == CashSale then "Paid" else "Receivable")
    && exists sums :: RunningTotals(draft.lines, sums) && (sale.total - sums[|draft.lines|]) % TWO64 == 0
  }

  /** The command for a draft: the device's identity, and the sale. */
  ghost predicate ForDraft(device: DeviceContext, draft: SaleDraft, attempt: int, c: SyncCommand) {
    && c.deviceId == device.deviceId && c.userId == device.userId && c.companyId == device.companyId
    && c.branchId == device.branchId && c.warehouseId == device.warehouseId && c.appVersion == device.appVersion
    && c.masterDataVersion == device.masterDataVersion && c.priceVersion == device.priceVersion
    && c.clientTransactionId == draft.clientTransactionId && c.clientTimestamp == draft.createdAt
    && c.syncAttemptNumber == attempt && FromDraft(device, draft, c.sale)
  }

  lemma {:induction false} TotalsRun(lines: seq<CartLine>) returns (sums: seq<int>)
    ensures RunningTotals(lines, sums) && sums[|lines|] == Sums.Sum(lines, Subtotal())
  {
    if lines == [] {
      sums := [0];
    } else {
      var n := |lines| - 1;
      sums := TotalsRun(lines[..n]);
      sums := sums + [sums[n] + lines[n].unitPrice * lines[n].quantity];
    }
  }

  lemma NewSaleFromDraft(device: DeviceContext, draft: SaleDraft, online: bool)
    ensures FromDraft(device, draft, NewSale(device, draft, online))
    ensures ForDraft(device, draft, 1, CommandFor(device, NewSale(device, draft, online), 1))
  {
    var sums := TotalsRun(draft.lines);
    var total := Sums.Sum(draft.lines, Subtotal());
    var k: int :| Wrap(total) == total + k * TWO64;
    ModShift(0, k);
    assert RunningTotals(draft.lines, sums)
        && (NewSale(device, draft, online).total - sums[|draft.lines|]) % TWO64 == 0;
  }

  /** Synchronising changes only the server's identifiers and the status. */
  lemma ResultFromDraft(device: DeviceContext, draft: SaleDraft, sale: CompletedSale, r: SyncResult)
    requires FromDraft(device, draft, sale)
    ensures FromDraft(device, draft, AsSynced(sale, r)) && FromDraft(device, draft, AsReview(sale))
  {
  }

  /** What a synchronisation stores, queues and leaves alone, after any number of awaits. */
  lemma SyncedContents(l: Local, s: Server, command: SyncCommand, fate: Fate, n: nat)
    requires command.sale.clientTransactionId in l.sales && l.sales[command.sale.clientTransactionId] == command.sale
    ensures var d, id, key := SyncedAfter(l, s, command, fate, n).local, command.sale.clientTransactionId,
                              command.IdempotencyKey();
      && id in d.sales
      && (d.sales[id] == command.sale || d.sales[id] == AsReview(command.sale)
          || exists r :: d.sales[id] == AsSynced(command.sale, r))
      && (n >= 1 && key in d.queue ==> d.queue[key] == command)
  {
    hide Answer, Post, Key, AsReview, AsSynced;
  }

  /**
   * Whenever the process dies, the stored sale, the queued command and the submitted command are those of the draft,
   * with its customer, type, payment method, lines and date.
   */
  lemma SoldAsDrafted(l: Local, s: Server, device: DeviceContext, draft: SaleDraft, online: bool, still: bool,
                      fate: Fate, n: nat)
    requires draft.clientTransactionId !in l.sales && n > 0
    ensures var d, id, key := CompletedAfter(l, s, device, draft, online, still, fate, n).local,
                              draft.clientTransactionId, Key(device.deviceId, draft.clientTransactionId);
      && id in d.sales && FromDraft(device, draft, d.sales[id])
      && (n >= 2 && key in d.queue ==> ForDraft(device, draft, 1, d.queue[key]))
      && (forall c :: c in Sent(l, device, draft, online, still, n) ==> ForDraft(device, draft, 1, c))
  {
    NewSaleFromDraft(device, draft, online);
    NewSaleShape(device, draft, online);
    SalesAsDispatched(l, s, device, draft, online, still, fate, n);
    var sale, id := NewSale(device, draft, online), draft.clientTransactionId;
    hide NewSale, FromDraft, Key, DispatchedAfter, CompletedAfter, ForDraft;
    DispatchedContents(l.(sales := l.sales[id := sale]), s, device, draft, sale, still, fate, n - 1);
    assert Key(device.deviceId, id) == CommandFor(device, sale, 1).IdempotencyKey();
  }

  lemma DispatchedContents(l: Local, s: Server, device: DeviceContext, draft: SaleDraft, sale: CompletedSale,
                           still: bool, fate: Fate, n: nat)
    requires FromDraft(device, draft, sale) && sale.clientTransactionId in l.sales
      && l.sales[sale.clientTransactionId] == sale
    ensures var d, id, command := DispatchedAfter(l, s, device, sale, still, fate, n).local, sale.clientTransactionId,
                                  CommandFor(device, sale, 1);
      && id in d.sales && FromDraft(device, draft, d.sales[id])
      && (n >= 1 && command.IdempotencyKey() in d.queue ==> d.queue[command.IdempotencyKey()] == command)
  {
    hide FromDraft, SyncedAfter, Key, AsSynced, AsReview;
    if still {
      SyncedContents(l, s, CommandFor(device, sale, 1), fate, n);
      var stored := SyncedAfter(l, s, CommandFor(device, sale, 1), fate, n).local.sales[sale.clientTransactionId];
      if r :| stored == AsSynced(sale, r) {
        ResultFromDraft(device, draft, sale, r);
      }
      ResultFromDraft(device, draft, sale, SyncResult("", "", false));
    }
  }

  /** The sale that completing a draft returns and shows, and what it says about itself. */
  lemma CompletedSays(l: Local, s: Server, device: DeviceContext, draft: SaleDraft, online: bool, still: bool,
                      fate: Fate)
    requires draft.clientTransactionId !in l.sales && Consistent(l, s, device.deviceId)
    ensures var e, key := Completed(l, s, device, draft, online, still, fate).sale,
                          Key(device.deviceId, draft.clientTransactionId);
      && FromDraft(device, draft, e)
      && (e.syncStatus == Synced ==>
          e.syncMessage == Some(if key in s.posted then "Original server result restored safely."
                                else "Accepted by server."))
      && (e.syncStatus == RequiresReview ==> e.syncMessage == Some("Synchronization failed. Retry or review."))
      && (e.syncStatus != Synced ==>
          e.serverSaleId == "" && e.receiptNumber == if online then "Pending" else "Offline pending")
      && (e.syncStatus == Syncing || e.syncStatus == PendingSync ==> e.syncMessage == None)
  {
    NewSaleFromDraft(device, draft, online);
    NewSaleShape(device, draft, online);
    NewSaleBlank(device, draft, online);
    hide NewSale, FromDraft, Dispatched, Consistent, Key;
    var sale := NewSale(device, draft, online);
    DispatchedSays(l.(sales := PutIfAbsent(l.sales, draft.clientTransactionId, sale)), s, device, draft, sale, still,
                   fate);
    if Key(device.deviceId, draft.clientTransactionId) in l.results {
      CachedPosted(l, s, device.deviceId, draft.clientTransactionId);
    }
  }

  lemma NewSaleBlank(device: DeviceContext, draft: SaleDraft, online: bool)
    ensures var sale := NewSale(device, draft, online);
      sale.serverSaleId == "" && sale.syncMessage == None
      && sale.receiptNumber == if online then "Pending" else "Offline pending"
  {
  }

  lemma CachedPosted(l: Local, s: Server, deviceId: string, id: string)
    requires Consistent(l, s, deviceId) && Key(deviceId, id) in l.results
    ensures Key(deviceId, id) in s.posted
  {
  }

  lemma DispatchedSays(l: Local, s: Server, device: DeviceContext, draft: SaleDraft, sale: CompletedSale, still: bool,
                       fate: Fate)
    requires FromDraft(device, draft, sale) && sale.clientTransactionId == draft.clientTransactionId
    ensures var e, key := Dispatched(l, s, device, sale, still, fate).sale,
      Key(device.deviceId, draft.clientTransactionId);
      && FromDraft(device, draft, e)
      && (if still && (key in l.results || fate.Delivered?)
          then e.syncStatus == Synced
               && e.syncMessage == Some(if key in l.results || key in s.posted
                                        then "Original server result restored safely." else "Accepted by server.")
          else e.serverSaleId == sale.serverSaleId && e.receiptNumber == sale.receiptNumber
               && (if still then e.syncStatus == RequiresReview
                                 && e.syncMessage == Some("Synchronization failed. Retry or review.")
                   else e == sale))
  {
    var command := CommandFor(device, sale, 1);
    assert command.IdempotencyKey() == Key(device.deviceId, draft.clientTransactionId);
    SynchronizedSale(l, s, command, fate);
    hide FromDraft, Synchronized, Issue, Key;
    forall r ensures FromDraft(device, draft, AsSynced(sale, r)) {
      ResultFromDraft(device, draft, sale, r);
    }
    ResultFromDraft(device, draft, sale, SyncResult("", "", false));
  }

  lemma RecoveredExactly(list: seq<CompletedSale>, sales: map<string, CompletedSale>, list': seq<CompletedSale>,
                         sales': map<string, CompletedSale>, delivered: bool)
    requires Mirrors(list, sales) && Mirrors(list', sales') && AllAdvanced(list, list', |list|)
    requires delivered ==> NoneWaits(list', |list'|)
    ensures forall id :: id in sales ==>
      && id in sales'
      && (Waiting(sales[id]) ==> Finished(sales'[id]) && (delivered ==> sales'[id].syncStatus == Synced))
      && (!Waiting(sales[id]) ==> sales'[id] == sales[id])
  {
    forall id | id in sales
      ensures id in sales'
      ensures Waiting(sales[id]) ==> Finished(sales'[id]) && (delivered ==> sales'[id].syncStatus == Synced)
      ensures !Waiting(sales[id]) ==> sales'[id] == sales[id]
    {
      var i :| 0 <= i < |list| && list[i] == sales[id];
      assert Advanced(list[i], list'[i]);
      assert list'[i].clientTransactionId == id;
      assert delivered ==> !Waiting(list'[i]);
    }
  }

  /**
   * Starting the app again and synchronising. Stored sales that were not waiting stay as they are even if
   * the process dies again; with every submission delivered, a stored sale ends up synced exactly when it
   * was waiting or synced.
   */
  method Restart(device: DeviceContext, store: LocalStore, gateway: Gateway, life: nat) returns (p: Progress<()>)
    requires Consistent(store.View(), gateway.View(), device.deviceId)
    modifies store, gateway
    ensures Consistent(store.View(), gateway.View(), device.deviceId) && Remembers(old(gateway.View()), gateway.View())
    ensures Untouched(old(store.sales), store.sales)
    ensures p.Lived? && (forall n: nat :: gateway.FateOf(n) == Delivered) ==> forall id :: id in old(store.sales) ==>
      id in store.sales
      && (store.sales[id].syncStatus == Synced <==>
          var status := old(store.sales)[id].syncStatus;
          status == PendingSync || status == RequiresReview || status == Synced)
  {
    hide Consistent, Remembers, Mirrors, AllAdvanced, NoneWaits, Rounds, Settled;
    ghost var l, s := store.View(), gateway.View();
    RemembersSelf(s);
    var c := new SalesController(device, store, gateway, life);
    var _ :- c.InitializeLocalData();
    ghost var list := c.sales;
    var _ :- c.SynchronizePending();
    LastRound(device.deviceId, l, s, list, c.AllDelivered(), store.View(), gateway.View(), c.sales, |c.sales|);
    RecoveredExactly(list, l.sales, c.sales, store.sales, c.AllDelivered());
    return Lived(());
  }

  /** Any number of restarts, each of which may die at any await. */
  method Restarts(device: DeviceContext, store: LocalStore, gateway: Gateway, lives: seq<nat>)
    requires Consistent(store.View(), gateway.View(), device.deviceId)
    modifies store, gateway
    ensures Consistent(store.View(), gateway.View(), device.deviceId) && Remembers(old(gateway.View()), gateway.View())
    ensures Untouched(old(store.sales), store.sales)
  {
    hide Consistent, Remembers;
    RemembersSelf(gateway.View());
    for i := 0 to |lives|
      invariant Consistent(store.View(), gateway.View(), device.deviceId)
        && Remembers(old(gateway.View()), gateway.View())
      invariant Untouched(old(store.sales), store.sales)
    {
      ghost var s := gateway.View();
      var _ := Restart(device, store, gateway, lives[i]);
      RemembersMore(old(gateway.View()), s, gateway.View());
    }
  }

  /** Synchronising once more, with the connection on; the list still shows the store. */
  method SynchronizeOnce(c: SalesController) returns (p: Progress<()>)
    requires c.Sound() && c.isOnline && Mirrors(c.sales, c.store.sales)
    modifies c`life, c`sales, c`isSyncing, c.store, c.gateway
    ensures c.Sound() && Untouched(old(c.store.sales), c.store.sales)
    ensures p.Lived? ==> Mirrors(c.sales, c.store.sales)
  {
    hide Consistent, Remembers, Mirrors, Untouched, Rounds;
    ghost var l, s, list, idle := c.store.View(), c.gateway.View(), c.sales, !c.isSyncing;
    p := c.SynchronizePending();
    if p.Lived? && idle {
      LastRound(c.device.deviceId, l, s, list, c.AllDelivered(), c.store.View(), c.gateway.View(), c.sales, |c.sales|);
    }
  }

  /** Any number of times, until the process dies. */
  method SynchronizeAgain(c: SalesController, times: nat)
    requires c.Sound() && Mirrors(c.sales, c.store.sales)
    modifies c, c.store, c.gateway
    ensures c.Sound() && Untouched(old(c.store.sales), c.store.sales)
  {
    hide Consistent, Remembers, Mirrors;
    for i := 0 to times
      invariant c.Sound() && Mirrors(c.sales, c.store.sales)
      invariant Untouched(old(c.store.sales), c.store.sales)
    {
      c.SetConnectivity(true);
      var p := SynchronizeOnce(c);
      if !p.Lived? {
        return;
      }
    }
  }

  /** A new draft left syncing, with the list still showing the store when the process lives. */
  method LeaveSyncing(c: SalesController, draft: SaleDraft, still: bool) returns (p: Progress<CompletedSale>)
    requires c.Sound() && draft.clientTransactionId !in c.store.sales && (still || Mirrors(c.sales, c.store.sales))
    requires Stranded(c.store.View(), c.device, draft, c.isOnline, still, c.gateway.FateOf(c.gateway.requests), c.life)
    modifies c, c.store, c.gateway
    ensures c.Sound() && draft.clientTransactionId in c.store.sales
    ensures c.store.sales[draft.clientTransactionId].syncStatus == Syncing
    ensures p.Lived? ==> Mirrors(c.sales, c.store.sales)
  {
    ghost var l, s, fate, online, n := c.store.View(), c.gateway.View(), c.gateway.FateOf(c.gateway.requests),
      c.isOnline, c.life;
    StrandedExactly(l, s, c.device, draft, online, still, fate, n);
    if !still {
      CompletedShows(l, s, c.device, draft, online, still, fate, c.sales);
    }
    hide Consistent, Remembers, Mirrors, CompletedAfter, CompleteAwaits, QueueAwaits, Completed, Stranded;
    p := c.CompleteSale(draft, true, still);
  }

  /**
   * A draft that is new to the store and left syncing is still syncing after any number of synchronisations, if the
   * process lives, and after any number of restarts.
   */
  method StaysSyncing(c: SalesController, draft: SaleDraft, still: bool, times: nat, lives: seq<nat>)
    requires c.Sound() && draft.clientTransactionId !in c.store.sales && (still || Mirrors(c.sales, c.store.sales))
    requires Stranded(c.store.View(), c.device, draft, c.isOnline, still, c.gateway.FateOf(c.gateway.requests), c.life)
    modifies c, c.store, c.gateway
    ensures draft.clientTransactionId in c.store.sales
    ensures c.store.sales[draft.clientTransactionId].syncStatus == Syncing
  {
    hide Consistent, Mirrors, Stranded;
    var p := LeaveSyncing(c, draft, still);
    if p.Lived? {
      SynchronizeAgain(c, times);
    }
    Restarts(c.device, c.store, c.gateway, lives);
  }

  /** The first receipt of a gateway that has posted nothing. */
  lemma FirstReceipt(key: string)
    ensures Answer(Server(map[], FIRST), key) == SyncResult("sale-2401", "ITZ-DAR-002401", false)
  {
    assert Decimal(2401) == "2401";
    assert PadLeft("2401", 6) == "002401";
  }
}
