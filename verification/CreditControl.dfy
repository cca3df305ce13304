/** Customer exposure: what a customer owes, and the credit limit. */
module CreditControl {
  import opened Basics
  import opened Sums
  import opened Model
  import opened Posting
  import opened Packets
  import opened Ledgers
  import opened Stock

  /** What a sale record still charges to a customer. */
  function Owing(company: CompanyId, customerId: string): Sale -> int {
    (sale: Sale) =>
      if sale.recordType == SaleRecord && sale.status == Posted && sale.kind == Credit
         && sale.scope.Company() == company && sale.customerId == customerId
      then sale.total else 0
  }

  ghost predicate ExposureIsOwed(s: State) {
    forall c, id :: Sum(s.ledger, OwedBy(c, id)) == SumMap(s.sales, Owing(c, id))
  }

  /** Whoever owes anything is a credit customer within the limit. */
  predicate MayOwe(md: Master, company: CompanyId, customerId: string, amount: int) {
    var k := EntityId(company.tenant, company.company, customerId);
    0 <= amount <= MAX64
    && (amount > 0 ==> k in md.customers && !md.customers[k].general && md.customers[k].creditEnabled
                       && amount <= md.customers[k].creditLimit)
  }

  ghost predicate WithinLimits(md: Master, s: State) {
    forall c, id :: MayOwe(md, c, id, Sum(s.ledger, OwedBy(c, id)))
  }

  lemma SettledOwes(md: Master, sale: Sale, ledger: seq<LedgerEntry>, payments: seq<Payment>, c: CompanyId, id: string)
    requires Settled(md, sale, ledger, payments)
    requires forall e :: e in ledger ==> e.company == sale.scope.Company()
    ensures Sum(ledger, OwedBy(c, id)) ==
      if sale.kind == Credit && sale.scope.Company() == c && sale.customerId == id then sale.total else 0
  {
    if sale.kind == Credit {
      assert ledger == [ledger[0]];
      SumOne(ledger[0], OwedBy(c, id));
    }
  }

  lemma OwedSale(md: Master, s: State, p: Packet)
    requires ExposureIsOwed(s) && SalePacket(md, s, p)
    ensures ExposureIsOwed(Apply(s, p))
  {
    hide GoodTotals, Configured, IssuesLines, SaleEntries, SumMap;
    var sale := p.books.sale;
    forall c, id ensures Sum(Apply(s, p).ledger, OwedBy(c, id)) == SumMap(Apply(s, p).sales, Owing(c, id)) {
      SumAppend(s.ledger, p.books.ledger, OwedBy(c, id));
      SettledOwes(md, sale, p.books.ledger, p.books.payments, c, id);
      SumMapWrite(s.sales, sale.Key(), sale, Owing(c, id));
    }
  }

  lemma OwedReversal(md: Master, s: State, p: Packet)
    requires Linked(md, s) && ExposureIsOwed(s) && ReversalPacket(s, p)
    ensures ExposureIsOwed(Apply(s, p))
  {
    hide OwnRows, GoodTotals, Configured, SaleEntries, LedgerOf, Sum, SumMap, Settled;
    var original := s.sales[p.reverses.value];
    assert SaleLinked(md, s, original);
    LedgerCompany(s, original);
    forall c, id ensures Sum(Apply(s, p).ledger, OwedBy(c, id)) == SumMap(Apply(s, p).sales, Owing(c, id)) {
      SumAppend(s.ledger, p.books.ledger, OwedBy(c, id));
      SettledOwes(md, original, LedgerOf(s, original), PaymentsOf(s, original), c, id);
      ReversalWrites(s, p, Owing(c, id));
    }
  }

  lemma LedgerCompany(s: State, sale: Sale)
    ensures forall e :: e in LedgerOf(s, sale) ==> e.company == sale.scope.Company()
  {
    forall e | e in LedgerOf(s, sale) ensures e.company == sale.scope.Company() {
      FilterMember(s.ledger, EnteredBy(sale.scope.Company(), sale.Source(), sale.id), e);
    }
  }

  lemma OwedNonNegative(md: Master, s: State, c: CompanyId, id: string)
    requires Linked(md, s)
    ensures SumMap(s.sales, Owing(c, id)) >= 0
  {
    forall k | k in s.sales ensures Owing(c, id)(s.sales[k]) >= 0 {
      if s.sales[k].recordType == SaleRecord {
        assert SaleLinked(md, s, s.sales[k]);
        PositiveTotal(s.sales[k]);
      }
    }
    SumMapNonNegative(s.sales, Owing(c, id));
  }

  lemma LimitsSale(md: Master, s: State, p: Packet)
    requires WithinLimits(md, s) && SalePacket(md, s, p) && WithinCredit(md, s.ledger, p.books.sale)
    ensures WithinLimits(md, Apply(s, p))
  {
    hide Configured, IssuesLines, SaleEntries, SumMap, Sum;
    var sale := p.books.sale;
    forall c, id ensures MayOwe(md, c, id, Sum(Apply(s, p).ledger, OwedBy(c, id))) {
      SumAppend(s.ledger, p.books.ledger, OwedBy(c, id));
      SettledOwes(md, sale, p.books.ledger, p.books.payments, c, id);
      assert MayOwe(md, c, id, Sum(s.ledger, OwedBy(c, id)));
      PositiveTotal(sale);
    }
  }

  lemma LimitsReversal(md: Master, s: State, p: Packet)
    requires WithinLimits(md, s) && ReversalPacket(s, p)
    requires Linked(md, Apply(s, p)) && ExposureIsOwed(Apply(s, p))
    ensures WithinLimits(md, Apply(s, p))
  {
    hide Cancels, OwnRows, Sum, SumMap;
    forall c, id ensures MayOwe(md, c, id, Sum(Apply(s, p).ledger, OwedBy(c, id))) {
      SumAppend(s.ledger, p.books.ledger, OwedBy(c, id));
      assert MayOwe(md, c, id, Sum(s.ledger, OwedBy(c, id)));
      SumNonPositive(p.books.ledger, OwedBy(c, id));
      OwedNonNegative(md, Apply(s, p), c, id);
    }
  }
}
