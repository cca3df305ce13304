/** Claimed keys, and the events written with every record. */
module Idempotency {
  import opened Sums
  import opened Model
  import opened Posting
  import opened Packets
  import opened Ledgers

  /** The record a committed key answers with. */
  function Answer(c: ClaimId, claim: Claim): EntityId {
    EntityId(c.tenant, c.company, claim.resultId)
  }

  ghost predicate ClaimsNameRecords(s: State) {
    forall c :: c in s.claims ==>
      && s.claims[c].resultId != ""
      && Answer(c, s.claims[c]) in s.sales
      && c.operation == (if s.sales[Answer(c, s.claims[c])].recordType == SaleRecord then COMPLETE else REVERSE)
  }

  /** Every record was created under exactly one key. */
  ghost predicate OneClaimEach(s: State) {
    && (forall c, d :: c in s.claims && d in s.claims && Answer(c, s.claims[c]) == Answer(d, s.claims[d]) ==> c == d)
    && (forall k :: k in s.sales ==> exists c :: c in s.claims && Answer(c, s.claims[c]) == k)
  }

  lemma ClaimsStep(s: State, p: Packet)
    requires Keyed(s) && ClaimsNameRecords(s)
    requires Fresh(s, p) && (p.reverses.Some? ==> p.reverses.value in s.sales)
    ensures ClaimsNameRecords(Apply(s, p))
    ensures Answer(p.claim, Apply(s, p).claims[p.claim]) == p.books.sale.Key()
  {
    hide OwnRows;
    SalesAfter(s, p);
    hide Keyed, Fresh;
  }

  lemma OneClaimStep(s: State, p: Packet)
    requires Keyed(s) && ClaimsNameRecords(s) && OneClaimEach(s)
    requires Fresh(s, p) && (p.reverses.Some? ==> p.reverses.value in s.sales)
    ensures OneClaimEach(Apply(s, p))
  {
    hide OwnRows;
    SalesAfter(s, p);
    ClaimsStep(s, p);
    ClaimAdded(s, p, Apply(s, p));
  }

  lemma ClaimAdded(s: State, p: Packet, s': State)
    requires ClaimsNameRecords(s) && OneClaimEach(s)
    requires p.claim !in s.claims && s'.claims == s.claims[p.claim := Claim(p.hash, p.books.sale.id)]
    requires p.books.sale.Key() !in s.sales && s'.sales.Keys == s.sales.Keys + {p.books.sale.Key()}
    requires Answer(p.claim, s'.claims[p.claim]) == p.books.sale.Key()
    ensures OneClaimEach(s')
  {
    forall c, d | c in s'.claims && d in s'.claims && Answer(c, s'.claims[c]) == Answer(d, s'.claims[d]) ensures c == d
    {
      hide Answer;
    }
    forall k | k in s'.sales ensures exists c :: c in s'.claims && Answer(c, s'.claims[c]) == k {
      Claimed(s, s', p.claim, k);
    }
  }

  lemma Claimed(s: State, s': State, added: ClaimId, k: EntityId)
    requires OneClaimEach(s) && added !in s.claims && added in s'.claims
    requires forall c :: c in s.claims ==> c in s'.claims && s'.claims[c] == s.claims[c]
    requires k in s.sales || Answer(added, s'.claims[added]) == k
    ensures exists c :: c in s'.claims && Answer(c, s'.claims[c]) == k
  {
    hide Answer;
    if k in s.sales {
      var c :| c in s.claims && Answer(c, s.claims[c]) == k;
      assert c in s'.claims && Answer(c, s'.claims[c]) == k;
    }
  }

  /** One audit event, one outbox event and one journal tell of a record, under its correlation id. */
  ghost predicate Told(s: State, sale: Sale) {
    var audits, events := Filter(s.audits, AuditOf(sale.Key())), Filter(s.outbox, EventOf(sale.Key()));
    && |audits| == 1 && |events| == 1 && |JournalsOf(s, sale)| == 1
    && audits[0].action == events[0].eventType
       == (if sale.recordType == SaleRecord then "sale.posted" else "sale.reversed")
    && audits[0].correlationId == events[0].correlationId == sale.correlationId
    && SameRecord(audits[0].data, sale) && audits[0].data == events[0].payload
  }

  ghost predicate AllTold(s: State) {
    forall k :: k in s.sales ==> Told(s, s.sales[k])
  }

  lemma EventsKept(s: State, p: Packet, k: EntityId)
    requires OwnEvents(p) && k != p.books.sale.Key()
    ensures Filter(Apply(s, p).audits, AuditOf(k)) == Filter(s.audits, AuditOf(k))
    ensures Filter(Apply(s, p).outbox, EventOf(k)) == Filter(s.outbox, EventOf(k))
  {
    FilterAppend(s.audits, [p.audit], AuditOf(k));
    FilterNone([p.audit], AuditOf(k));
    FilterAppend(s.outbox, [p.event], EventOf(k));
    FilterNone([p.event], EventOf(k));
  }

  lemma EventsNew(s: State, p: Packet)
    requires Closed(s) && OwnEvents(p) && p.books.sale.Key() !in s.sales
    ensures Filter(Apply(s, p).audits, AuditOf(p.books.sale.Key())) == [p.audit]
    ensures Filter(Apply(s, p).outbox, EventOf(p.books.sale.Key())) == [p.event]
  {
    var k := p.books.sale.Key();
    assert (forall a :: a in s.audits ==> !AuditOf(k)(a)) && (forall e :: e in s.outbox ==> !EventOf(k)(e));
    assert AuditOf(k)(p.audit) && EventOf(k)(p.event);
    hide Closed, Owned, OwnEvents, Filter;
    FilterFresh(s.audits, [p.audit], AuditOf(k));
    FilterFresh(s.outbox, [p.event], EventOf(k));
  }

  lemma ToldOld(s: State, p: Packet, sale: Sale, sale': Sale)
    requires Fresh(s, p) && sale.Key() in s.sales && Told(s, sale) && SameRecord(sale, sale')
    ensures Told(Apply(s, p), sale')
  {
    hide Apply, Filter, OwnEvents;
    RowsKept(s, p, sale);
    EventsKept(s, p, sale.Key());
    assert JournalsOf(Apply(s, p), sale') == JournalsOf(Apply(s, p), sale);
  }

  lemma ToldNew(s: State, p: Packet)
    requires Closed(s) && Fresh(s, p)
    ensures Told(Apply(s, p), p.books.sale)
  {
    hide Apply, Filter, Closed;
    RowsNew(s, p);
    EventsNew(s, p);
  }

  lemma ToldStep(s: State, p: Packet)
    requires Keyed(s) && Closed(s) && AllTold(s) && Fresh(s, p) && (p.reverses.Some? ==> p.reverses.value in s.sales)
    ensures AllTold(Apply(s, p))
  {
    hide Told, Closed, OwnRows, Apply;
    SalesAfter(s, p);
    var s' := Apply(s, p);
    forall k | k in s'.sales ensures Told(s', s'.sales[k]) {
      if k == p.books.sale.Key() {
        ToldNew(s, p);
      } else {
        ToldOld(s, p, s.sales[k], s'.sales[k]);
      }
    }
  }
}
