/**
 * The invariants of the store: what every accepted packet keeps, whatever ran before it.
 */
module Ledgers {
  import opened Basics
  import opened Sums
  import opened Model
  import opened Posting
  import opened Packets

  // Which record a row belongs to.

  predicate Owned(s: State, company: CompanyId, source: Source, id: string) {
    var k := EntityId(company.tenant, company.company, id);
    k in s.sales && s.sales[k].Source() == source
  }

  /** Every row but the seeded receipts names an existing record of its kind. */
  ghost predicate Closed(s: State) {
    && (forall m :: m in s.movements && !m.source.FromOther? ==> Owned(s, m.scope.Company(), m.source, m.sourceId))
    && (forall e :: e in s.ledger ==> Owned(s, e.company, e.source, e.sourceId))
    && (forall q :: q in s.payments ==> EntityId(q.company.tenant, q.company.company, q.saleId) in s.sales)
    && (forall j :: j in s.journals ==> Owned(s, j.company, j.source, j.sourceId))
    && (forall a :: a in s.audits ==> EntityId(a.company.tenant, a.company.company, a.entityId) in s.sales)
    && (forall e :: e in s.outbox ==> EntityId(e.company.tenant, e.company.company, e.aggregateId) in s.sales)
  }

  ghost predicate Keyed(s: State) {
    forall k :: k in s.sales ==> s.sales[k].Key() == k
  }

  function AuditOf(k: EntityId): AuditEvent -> bool {
    (a: AuditEvent) => EntityId(a.company.tenant, a.company.company, a.entityId) == k
  }

  function EventOf(k: EntityId): OutboxEvent -> bool {
    (e: OutboxEvent) => EntityId(e.company.tenant, e.company.company, e.aggregateId) == k
  }

  /** Two versions of a record that differ at most in having been reversed. */
  predicate SameRecord(a: Sale, b: Sale) {
    a.(status := b.status, reversedAt := b.reversedAt) == b
  }

  lemma SalesAfter(s: State, p: Packet)
    requires Keyed(s) && Fresh(s, p) && (p.reverses.Some? ==> p.reverses.value in s.sales)
    ensures var s' := Apply(s, p);
      && Keyed(s')
      && s'.sales.Keys == s.sales.Keys + {p.books.sale.Key()}
      && s'.sales[p.books.sale.Key()] == p.books.sale
      && (forall k :: k in s.sales ==> SameRecord(s.sales[k], s'.sales[k]))
      && (forall k :: k in s.sales && p.reverses != Some(k) ==> s'.sales[k] == s.sales[k])
      && (p.reverses.Some? ==> s'.sales[p.reverses.value].status == Reversed
                               && s'.sales[p.reverses.value].reversedAt == Some(p.now))
  {
  }

  lemma OwnersStay(s: State, p: Packet, company: CompanyId, source: Source, id: string)
    requires Keyed(s) && Fresh(s, p) && (p.reverses.Some? ==> p.reverses.value in s.sales)
    ensures Owned(s, company, source, id) ==> Owned(Apply(s, p), company, source, id)
    ensures Owned(Apply(s, p), p.books.sale.scope.Company(), p.books.sale.Source(), p.books.sale.id)
  {
    SalesAfter(s, p);
    hide Keyed, Fresh;
  }

  lemma ClosedStep(s: State, p: Packet)
    requires Keyed(s) && Closed(s) && Fresh(s, p) && (p.reverses.Some? ==> p.reverses.value in s.sales)
    ensures Closed(Apply(s, p))
  {
    SalesAfter(s, p);
    forall company, source, id | Owned(s, company, source, id) ensures Owned(Apply(s, p), company, source, id) {
      OwnersStay(s, p, company, source, id);
    }
    OwnersStay(s, p, CompanyId("", ""), FromSale, "");
    ClosedRows(s, p, Apply(s, p));
  }

  lemma ClosedRows(s: State, p: Packet, s': State)
    requires Closed(s) && OwnRows(p) && OwnEvents(p)
    requires s'.movements == s.movements + p.books.movements && s'.ledger == s.ledger + p.books.ledger
    requires s'.payments == s.payments + p.books.payments && s'.journals == s.journals + [p.books.journal]
    requires s'.audits == s.audits + [p.audit] && s'.outbox == s.outbox + [p.event]
    requires s'.sales.Keys == s.sales.Keys + {p.books.sale.Key()}
    requires forall company, source, id :: Owned(s, company, source, id) ==> Owned(s', company, source, id)
    requires Owned(s', p.books.sale.scope.Company(), p.books.sale.Source(), p.books.sale.id)
    ensures Closed(s')
  {
    hide Owned, OwnEvents;
    forall m | m in s'.movements && !m.source.FromOther? ensures Owned(s', m.scope.Company(), m.source, m.sourceId) {
      assert m in s.movements || m in p.books.movements;
    }
    forall e | e in s'.ledger ensures Owned(s', e.company, e.source, e.sourceId) {
      assert e in s.ledger || e in p.books.ledger;
    }
    forall q | q in s'.payments ensures EntityId(q.company.tenant, q.company.company, q.saleId) in s'.sales {
      assert q in s.payments || q in p.books.payments;
    }
    EventsClosed(p);
  }

  lemma EventsClosed(p: Packet)
    requires OwnEvents(p)
    ensures EntityId(p.audit.company.tenant, p.audit.company.company, p.audit.entityId) == p.books.sale.Key()
    ensures EntityId(p.event.company.tenant, p.event.company.company, p.event.aggregateId) == p.books.sale.Key()
  {
  }

  /** Rows of other records are not touched by a packet. */
  lemma RowsKept(s: State, p: Packet, sale: Sale)
    requires Fresh(s, p) && sale.Key() in s.sales
    ensures var s' := Apply(s, p);
      && MovementsOf(s', sale) == MovementsOf(s, sale)
      && LedgerOf(s', sale) == LedgerOf(s, sale)
      && PaymentsOf(s', sale) == PaymentsOf(s, sale)
      && JournalsOf(s', sale) == JournalsOf(s, sale)
  {
    var company, id := sale.scope.Company(), sale.id;
    assert sale.Key() != p.books.sale.Key();
    FilterAppend(s.movements, p.books.movements, MovedBy(company, sale.Source(), id));
    FilterNone(p.books.movements, MovedBy(company, sale.Source(), id));
    FilterAppend(s.ledger, p.books.ledger, EnteredBy(company, sale.Source(), id));
    FilterNone(p.books.ledger, EnteredBy(company, sale.Source(), id));
    FilterAppend(s.payments, p.books.payments, PaidFor(company, id));
    FilterNone(p.books.payments, PaidFor(company, id));
    FilterAppend(s.journals, [p.books.journal], JournaledBy(company, sale.Source(), id));
    FilterNone([p.books.journal], JournaledBy(company, sale.Source(), id));
  }

  /** The rows stored under the new record are those of the packet. */
  lemma RowsNew(s: State, p: Packet)
    requires Closed(s) && Fresh(s, p)
    ensures var s', sale := Apply(s, p), p.books.sale;
      && MovementsOf(s', sale) == p.books.movements
      && LedgerOf(s', sale) == p.books.ledger
      && PaymentsOf(s', sale) == p.books.payments
      && JournalsOf(s', sale) == [p.books.journal]
  {
    var sale := p.books.sale;
    var company, id := sale.scope.Company(), sale.id;
    FilterFresh(s.movements, p.books.movements, MovedBy(company, sale.Source(), id));
    FilterFresh(s.ledger, p.books.ledger, EnteredBy(company, sale.Source(), id));
    RowsNewMoney(s, p);
  }

  lemma RowsNewMoney(s: State, p: Packet)
    requires Closed(s) && Fresh(s, p)
    ensures PaymentsOf(Apply(s, p), p.books.sale) == p.books.payments
    ensures JournalsOf(Apply(s, p), p.books.sale) == [p.books.journal]
  {
    var sale := p.books.sale;
    var company, id := sale.scope.Company(), sale.id;
    FilterFresh(s.payments, p.books.payments, PaidFor(company, id));
    FilterFresh(s.journals, [p.books.journal], JournaledBy(company, sale.Source(), id));
  }

  /** A packet of either kind, with what a reversal must know about its original. */
  ghost predicate Accepts(md: Master, s: State, p: Packet) {
    if p.books.sale.recordType == SaleRecord then SalePacket(md, s, p) else ReversalPacket(s, p)
  }

  // Sales keep their rows.

  ghost predicate Linked(md: Master, s: State) {
    forall k :: k in s.sales && s.sales[k].recordType == SaleRecord ==> SaleLinked(md, s, s.sales[k])
  }

  lemma LinkedNew(md: Master, s: State, p: Packet)
    requires Closed(s) && SalePacket(md, s, p)
    ensures SaleLinked(md, Apply(s, p), p.books.sale)
  {
    hide Closed, Apply, GoodTotals, Configured, SaleEntries, Settled, IssuesLines;
    RowsNew(s, p);
  }

  lemma LinkedOld(md: Master, s: State, p: Packet, sale: Sale)
    requires Fresh(s, p) && sale.Key() in s.sales && SaleLinked(md, s, sale)
    ensures SaleLinked(md, Apply(s, p), sale)
  {
    hide Apply, GoodTotals, Configured, SaleEntries, Settled, IssuesLines;
    RowsKept(s, p, sale);
  }

  lemma LinkedStep(md: Master, s: State, p: Packet)
    requires Keyed(s) && Closed(s) && Linked(md, s) && Accepts(md, s, p)
    ensures Linked(md, Apply(s, p))
  {
    hide SaleLinked, Closed, OwnRows, Apply;
    SalesAfter(s, p);
    var s' := Apply(s, p);
    forall k | k in s'.sales && s'.sales[k].recordType == SaleRecord ensures SaleLinked(md, s', s'.sales[k]) {
      if k == p.books.sale.Key() {
        LinkedNew(md, s, p);
      } else {
        LinkedOld(md, s, p, s.sales[k]);
        LinkedStatus(md, s', s.sales[k], s'.sales[k]);
      }
    }
  }

  /** What is stored under a record does not depend on its status. */
  lemma LinkedStatus(md: Master, s: State, a: Sale, b: Sale)
    requires SameRecord(a, b) && SaleLinked(md, s, a)
    ensures SaleLinked(md, s, b)
  {
    assert MovementsOf(s, b) == MovementsOf(s, a) && LedgerOf(s, b) == LedgerOf(s, a);
    assert PaymentsOf(s, b) == PaymentsOf(s, a) && JournalsOf(s, b) == JournalsOf(s, a);
    assert PaidInto(md, b) == PaidInto(md, a);
  }
}
