/** Subledgers against the general ledger. */
module Reconciliation {
  import opened Basics
  import opened Sums
  import opened Model
  import opened Finance
  import opened Posting
  import opened Packets
  import opened Ledgers
  import opened Stock

  /** Net debit of one account over the journals of one company. */
  function Posts(company: CompanyId, account: string): Journal -> int {
    (j: Journal) => if j.company == company then Sum(j.entries, Net(account)) else 0
  }

  function Imbalance(): Journal -> int {
    (j: Journal) => Sum(j.entries, Debits()) - Sum(j.entries, Credits())
  }

  function TaxDue(company: CompanyId): Sale -> int {
    (sale: Sale) =>
      if sale.recordType == SaleRecord && sale.status == Posted && sale.scope.Company() == company then sale.tax else 0
  }

  predicate ControlAccount(md: Master, c: CompanyId, a: string) {
    var posting := PostingOf(md, c);
    a == posting.receivable || a == posting.taxPayable || a in posting.cash.Values
  }

  /** No account plays two of the roles receivable, tax payable, cash, product. */
  ghost predicate DisjointRoles(md: Master, c: CompanyId) {
    var posting := PostingOf(md, c);
    && c in md.posting
    && posting.receivable != posting.taxPayable
    && posting.receivable !in posting.cash.Values && posting.taxPayable !in posting.cash.Values
    && forall k :: k in md.products && k.tenant == c.tenant && k.company == c.company ==>
      && !ControlAccount(md, c, md.products[k].revenueAccount)
      && !ControlAccount(md, c, md.products[k].cogsAccount)
      && !ControlAccount(md, c, md.products[k].inventoryAccount)
  }

  ghost predicate Reconciled(md: Master, s: State, c: CompanyId) {
    var posting := PostingOf(md, c);
    && Sum(s.ledger, OwedTo(c)) == Sum(s.journals, Posts(c, posting.receivable))
    && (forall a :: a in posting.cash.Values ==> Sum(s.payments, PaidTo(c, a)) == Sum(s.journals, Posts(c, a)))
    && SumMap(s.sales, TaxDue(c)) == -Sum(s.journals, Posts(c, posting.taxPayable))
  }

  ghost predicate AllReconciled(md: Master, s: State) {
    forall c :: DisjointRoles(md, c) ==> Reconciled(md, s, c)
  }

  ghost predicate TrialBalance(s: State) {
    (forall j :: j in s.journals ==> Balanced(j)) && Sum(s.journals, Imbalance()) == 0
  }

  lemma {:induction false} ProductsOffControl(md: Master, scope: Scope, lines: seq<Line>, a: string)
    requires DisjointRoles(md, scope.Company()) && ControlAccount(md, scope.Company(), a)
    ensures Sum(ProductEntries(md, scope, lines), Net(a)) == 0
  {
    if lines == [] {
    } else {
      ProductsOffControl(md, scope, lines[..|lines| - 1], a);
      var line := lines[|lines| - 1];
      var before := ProductEntries(md, scope, lines[..|lines| - 1]);
      var k := scope.Entity(line.productId);
      if k in md.products {
        var added := LineEntries(md.products[k], line.subtotal, line.cogs);
        SumAppend(before, added, Net(a));
        SumZero(added, Net(a));
      } else {
        assert before + [] == before;
      }
    }
  }

  /** What one sale posts to each control account. */
  lemma SaleNet(md: Master, sale: Sale, a: string)
    requires Configured(md, sale) && GoodTotals(sale)
    requires DisjointRoles(md, sale.scope.Company()) && ControlAccount(md, sale.scope.Company(), a)
    ensures var posting := PostingOf(md, sale.scope.Company());
      Sum(SaleEntries(md, sale), Net(a)) ==
        (if sale.kind == Credit then (if a == posting.receivable then sale.total else 0)
         else (if a == PaidInto(md, sale) then sale.total else 0))
        - (if a == posting.taxPayable then sale.tax else 0)
  {
    hide ProductEntries, GoodLine;
    var entries := SaleEntries(md, sale);
    var settle := entries[0];
    var products := ProductEntries(md, sale.scope, sale.lines);
    var taxes := TaxEntries(PostingOf(md, sale.scope.Company()).taxPayable, sale.tax);
    assert entries == ([settle] + products) + taxes;
    SumAppend([settle] + products, taxes, Net(a));
    SumAppend([settle], products, Net(a));
    SumOne(settle, Net(a));
    ProductsOffControl(md, sale.scope, sale.lines, a);
    if sale.tax > 0 {
      SumOne(taxes[0], Net(a));
    }
  }

  lemma SettledSums(md: Master, sale: Sale, ledger: seq<LedgerEntry>, payments: seq<Payment>, c: CompanyId, a: string)
    requires Settled(md, sale, ledger, payments) && sale.kind in {Cash, Credit}
    requires forall e :: e in ledger ==> e.company == sale.scope.Company()
    requires forall q :: q in payments ==> q.company == sale.scope.Company()
    ensures Sum(ledger, OwedTo(c)) == if sale.kind == Credit && sale.scope.Company() == c then sale.total else 0
    ensures Sum(payments, PaidTo(c, a)) ==
      if sale.kind == Cash && sale.scope.Company() == c && PaidInto(md, sale) == a then sale.total else 0
  {
    if sale.kind == Credit {
      assert ledger == [ledger[0]];
      SumOne(ledger[0], OwedTo(c));
    } else {
      assert payments == [payments[0]];
      SumOne(payments[0], PaidTo(c, a));
    }
  }

  lemma ReconciledSale(md: Master, s: State, p: Packet, c: CompanyId)
    requires Reconciled(md, s, c) && DisjointRoles(md, c) && SalePacket(md, s, p)
    ensures Reconciled(md, Apply(s, p), c)
  {
    hide IssuesLines, DisjointRoles, Sum, SumMap, SaleEntries, GoodTotals, Configured;
    var sale, j, posting := p.books.sale, p.books.journal, PostingOf(md, c);
    SumMapWrite(s.sales, sale.Key(), sale, TaxDue(c));
    SumAppend(s.ledger, p.books.ledger, OwedTo(c));
    KindOf(md, sale);
    SettledSums(md, sale, p.books.ledger, p.books.payments, c, "");
    forall a | ControlAccount(md, c, a)
      ensures Sum(Apply(s, p).journals, Posts(c, a)) == Sum(s.journals, Posts(c, a))
        + (if sale.scope.Company() == c then Sum(SaleEntries(md, sale), Net(a)) else 0)
    {
      SumAppend(s.journals, [j], Posts(c, a));
      SumOne(j, Posts(c, a));
    }
    if sale.scope.Company() == c {
      forall a | ControlAccount(md, c, a) { SaleNet(md, sale, a); }
      TaxPayableNotPaid(md, sale);
    }
    forall a | a in posting.cash.Values
      ensures Sum(Apply(s, p).payments, PaidTo(c, a)) == Sum(Apply(s, p).journals, Posts(c, a))
    {
      SumAppend(s.payments, p.books.payments, PaidTo(c, a));
      SettledSums(md, sale, p.books.ledger, p.books.payments, c, a);
      if sale.scope.Company() == c { CashNotControl(md, c, a); }
    }
  }

  lemma KindOf(md: Master, sale: Sale)
    requires Configured(md, sale)
    ensures sale.kind in {Cash, Credit}
    ensures sale.kind == Cash ==> PaidInto(md, sale) in PostingOf(md, sale.scope.Company()).cash.Values
  {
  }

  lemma CashNotControl(md: Master, c: CompanyId, a: string)
    requires DisjointRoles(md, c) && a in PostingOf(md, c).cash.Values
    ensures a != PostingOf(md, c).receivable && a != PostingOf(md, c).taxPayable
  {
  }

  lemma TaxPayableNotPaid(md: Master, sale: Sale)
    requires Configured(md, sale) && DisjointRoles(md, sale.scope.Company())
    ensures var posting := PostingOf(md, sale.scope.Company());
      && posting.receivable != posting.taxPayable
      && (sale.kind == Cash ==> PaidInto(md, sale) != posting.taxPayable && PaidInto(md, sale) != posting.receivable)
  {
    KindOf(md, sale);
  }

  lemma ReconciledReversal(md: Master, s: State, p: Packet, c: CompanyId)
    requires Linked(md, s) && Reconciled(md, s, c) && DisjointRoles(md, c) && ReversalPacket(s, p)
    ensures Reconciled(md, Apply(s, p), c)
  {
    hide IssuesLines, DisjointRoles, Sum, SumMap, SaleEntries, GoodTotals, Configured, LedgerOf, PaymentsOf, JournalsOf,
      MovementsOf, Settled;
    var original, j, posting := s.sales[p.reverses.value], p.books.journal, PostingOf(md, c);
    assert SaleLinked(md, s, original);
    RowCompanies(s, original);
    ReversalWrites(s, p, TaxDue(c));
    SumAppend(s.ledger, p.books.ledger, OwedTo(c));
    KindOf(md, original);
    SettledSums(md, original, LedgerOf(s, original), PaymentsOf(s, original), c, "");
    forall a | ControlAccount(md, c, a)
      ensures Sum(Apply(s, p).journals, Posts(c, a)) == Sum(s.journals, Posts(c, a))
        - (if original.scope.Company() == c then Sum(SaleEntries(md, original), Net(a)) else 0)
    {
      SumAppend(s.journals, [j], Posts(c, a));
      SumOne(j, Posts(c, a));
    }
    if original.scope.Company() == c {
      forall a | ControlAccount(md, c, a) { SaleNet(md, original, a); }
      TaxPayableNotPaid(md, original);
    }
    forall a | a in posting.cash.Values
      ensures Sum(Apply(s, p).payments, PaidTo(c, a)) == Sum(Apply(s, p).journals, Posts(c, a))
    {
      SumAppend(s.payments, p.books.payments, PaidTo(c, a));
      SettledSums(md, original, LedgerOf(s, original), PaymentsOf(s, original), c, a);
      if original.scope.Company() == c { CashNotControl(md, c, a); }
    }
  }

  lemma RowCompanies(s: State, sale: Sale)
    ensures forall e :: e in LedgerOf(s, sale) ==> e.company == sale.scope.Company()
    ensures forall q :: q in PaymentsOf(s, sale) ==> q.company == sale.scope.Company()
  {
    forall e | e in LedgerOf(s, sale) ensures e.company == sale.scope.Company() {
      FilterMember(s.ledger, EnteredBy(sale.scope.Company(), sale.Source(), sale.id), e);
    }
    forall q | q in PaymentsOf(s, sale) ensures q.company == sale.scope.Company() {
      FilterMember(s.payments, PaidFor(sale.scope.Company(), sale.id), q);
    }
  }

  lemma TrialBalanceStep(s: State, p: Packet)
    requires TrialBalance(s) && Balanced(p.books.journal)
    ensures TrialBalance(Apply(s, p))
  {
    SumAppend(s.journals, [p.books.journal], Imbalance());
    SumOne(p.books.journal, Imbalance());
  }

  /** Every journal Complete builds is balanced, and the unchecked sums cannot wrap to zero. */
  lemma SaleBalances(md: Master, j: Journal, sale: Sale)
    requires Configured(md, sale) && GoodTotals(sale) && sale.lines != []
    requires j.entries == SaleEntries(md, sale)
    ensures Sum(j.entries, Debits()) == Sum(j.entries, Credits()) == sale.total + sale.cogs
    ensures 1 <= Sum(j.entries, Debits()) <= TWO64 - 2
    ensures (forall e :: e in j.entries ==> OneSided(e)) && |j.entries| >= 2
  {
    hide ProductEntries;
    var settle := j.entries[0];
    var products := ProductEntries(md, sale.scope, sale.lines);
    var taxes := TaxEntries(PostingOf(md, sale.scope.Company()).taxPayable, sale.tax);
    assert j.entries == ([settle] + products) + taxes;
    SumAppend([settle] + products, taxes, Debits());
    SumAppend([settle], products, Debits());
    SumOne(settle, Debits());
    SumAppend([settle] + products, taxes, Credits());
    SumAppend([settle], products, Credits());
    SumOne(settle, Credits());
    if sale.tax > 0 {
      SumOne(taxes[0], Debits());
      SumOne(taxes[0], Credits());
    }
    ProductSides(md, sale.scope, sale.lines);
    PositiveTotal(sale);
  }

  lemma {:induction false} ProductSides(md: Master, scope: Scope, lines: seq<Line>)
    requires forall line :: line in lines ==> GoodLine(line)
    requires forall line :: line in lines ==>
      scope.Entity(line.productId) in md.products && Postable(md.products[scope.Entity(line.productId)])
    ensures Sum(ProductEntries(md, scope, lines), Debits()) == Sum(lines, LineCogs())
    ensures Sum(ProductEntries(md, scope, lines), Credits()) == Sum(lines, LineSubtotal()) + Sum(lines, LineCogs())
    ensures forall e :: e in ProductEntries(md, scope, lines) ==> OneSided(e)
    ensures lines != [] ==> ProductEntries(md, scope, lines) != []
  {
    if lines == [] {
    } else {
      ProductSides(md, scope, lines[..|lines| - 1]);
      var line := lines[|lines| - 1];
      assert GoodLine(line);
      var product := md.products[scope.Entity(line.productId)];
      var before := ProductEntries(md, scope, lines[..|lines| - 1]);
      var added := LineEntries(product, line.subtotal, line.cogs);
      SumAppend(before, added, Debits());
      SumAppend(before, added, Credits());
      LineSides(product, line);
    }
  }

  lemma LineSides(product: Product, line: Line)
    requires GoodLine(line) && Postable(product)
    ensures var added := LineEntries(product, line.subtotal, line.cogs);
      && Sum(added, Debits()) == line.cogs && Sum(added, Credits()) == line.subtotal + line.cogs
      && forall e :: e in added ==> OneSided(e)
  {
    var added := LineEntries(product, line.subtotal, line.cogs);
    SumOne(added[0], Debits());
    SumOne(added[0], Credits());
    if line.cogs > 0 {
      assert added == [added[0]] + ([added[1]] + [added[2]]);
      SumAppend([added[0]], [added[1]] + [added[2]], Debits());
      SumAppend([added[0]], [added[1]] + [added[2]], Credits());
      SumAppend([added[1]], [added[2]], Debits());
      SumAppend([added[1]], [added[2]], Credits());
      SumOne(added[1], Debits());
      SumOne(added[1], Credits());
      SumOne(added[2], Debits());
      SumOne(added[2], Credits());
    }
  }
}
