/** What an accepted sale is made of, stated from the command, the master data and the identifiers. */
module Sold {
  import opened Basics
  import opened Sums
  import opened Model
  import opened Posting
  import opened Packets
  import Finance
  import Lookups
  import Money

  /** A latest rate of a tax code in force now. */
  ghost predicate Current(md: Master, company: CompanyId, code: string, now: int, r: TaxRate) {
    && r in md.taxRates && r.company == company && r.code == code
    && r.effectiveFrom <= now && (r.effectiveTo.Some? ==> now < r.effectiveTo.value)
    && (forall v :: v in md.taxRates && v.company == company && v.code == code && r.effectiveFrom < v.effectiveFrom ==>
        now < v.effectiveFrom || (v.effectiveTo.Some? && v.effectiveTo.value <= now))
  }

  /** It is within 0 and 100 per cent. */
  ghost predicate InForce(md: Master, company: CompanyId, code: string, now: int, r: TaxRate) {
    Current(md, company, code, now, r) && 0 <= r.basisPoints <= 10000
  }

  /** The tax is the exact tax at a rate in force, rounded half up to a minor unit. */
  ghost predicate Taxed(md: Master, company: CompanyId, code: string, now: int, subtotal: int, tax: int) {
    exists r :: InForce(md, company, code, now, r) && RoundedAt(r, subtotal, tax)
  }

  /** The weighted amount must stay within int64. */
  predicate RoundedAt(r: TaxRate, subtotal: int, tax: int) {
    -5000 < 10000 * tax - subtotal * r.basisPoints <= 5000 && subtotal * r.basisPoints + 5000 <= MAX64
  }

  /** A line sells what was requested, at the list price and standard cost of the product. */
  ghost predicate LineSold(md: Master, cmd: CompleteCommand, now: int, requested: CommandLine, id: string, line: Line) {
    && cmd.scope.Entity(requested.productId) in md.products
    && var product := md.products[cmd.scope.Entity(requested.productId)];
    && product.active && product.listPrice > 0 && product.standardCost >= 0
    && line.id == id && line.productId == requested.productId && line.quantity == requested.quantity
    && line.unitPrice == product.listPrice && line.subtotal == product.listPrice * requested.quantity
    && Taxed(md, cmd.scope.Company(), product.taxCode, now, line.subtotal, line.tax)
    && line.total == line.subtotal + line.tax
    && line.unitCost == product.standardCost && line.cogs == product.standardCost * requested.quantity
  }

  /** The journal entries of a line: revenue, and cost against inventory when there is a cost. */
  ghost predicate LineJournaled(md: Master, scope: Scope, line: Line, entries: seq<JournalEntry>) {
    && scope.Entity(line.productId) in md.products
    && var product := md.products[scope.Entity(line.productId)];
    && product.revenueAccount != "" && product.cogsAccount != "" && product.inventoryAccount != ""
    && entries == [JournalEntry(product.revenueAccount, 0, line.subtotal, "Product revenue")]
                  + if line.cogs == 0 then []
                    else [JournalEntry(product.cogsAccount, line.cogs, 0, "Cost of goods sold"),
                          JournalEntry(product.inventoryAccount, 0, line.cogs, "Inventory issued")]
  }

  /** One currency for all products, the last included; one without a currency may only come before any that has it. */
  ghost predicate OneCurrency(md: Master, cmd: CompleteCommand, currency: string, n: nat) {
    && n <= |cmd.lines| && (n > 0 ==> CurrencyOf(md, cmd, n - 1) == currency)
    && forall i :: 0 <= i < n ==>
      || CurrencyOf(md, cmd, i) == currency
      || (forall j :: 0 <= j <= i ==> CurrencyOf(md, cmd, j) == "")
  }

  /** The currency of the product of a line. */
  function CurrencyOf(md: Master, cmd: CompleteCommand, i: nat): string
    requires i < |cmd.lines|
  {
    var k := cmd.scope.Entity(cmd.lines[i].productId);
    if k in md.products then md.products[k].currency else ""
  }

  function Joined(groups: seq<seq<JournalEntry>>): seq<JournalEntry> {
    if groups == [] then [] else Joined(groups[..|groups| - 1]) + groups[|groups| - 1]
  }

  /** The header of a sale is the command's; its amounts are the sums over its lines. */
  ghost predicate Headed(cmd: CompleteCommand, now: int, id: string, sale: Sale) {
    && sale == Sale(id, cmd.scope, SaleRecord, cmd.kind, Posted, cmd.customerId, sale.currency, sale.subtotal, sale.tax,
                    sale.total, sale.cogs, cmd.paymentMethod, "", "", cmd.actor,
                    if cmd.correlationId == "" then id else cmd.correlationId, now, None, sale.lines)
    && sale.subtotal == Sum(sale.lines, (line: Line) => line.subtotal)
    && sale.tax == Sum(sale.lines, (line: Line) => line.tax)
    && sale.total == Sum(sale.lines, (line: Line) => line.total)
    && sale.cogs == Sum(sale.lines, (line: Line) => line.cogs)
  }

  /** After some of the command's lines; line and movement take two identifiers. */
  ghost predicate SoldSoFar(md: Master, cmd: CompleteCommand, now: int, ids: seq<string>, d: Draft, n: nat) {
    && n <= |cmd.lines| && 1 + 2 * n <= |ids| && d.ids == ids[1 + 2 * n..]
    && |d.sale.lines| == |d.movements| == n
    && (forall i :: 0 <= i < n ==> LineSold(md, cmd, now, cmd.lines[i], ids[1 + 2 * i], d.sale.lines[i]))
    && (forall i :: 0 <= i < n ==> Issued(cmd, now, ids[0], cmd.lines[i], ids[2 + 2 * i], d.movements[i]))
    && (exists groups :: Entered(md, cmd.scope, d.sale.lines, groups, d.entries))
    && OneCurrency(md, cmd, d.sale.currency, n)
  }

  /** A movement takes the line's quantity out of the warehouse of the command. */
  predicate Issued(cmd: CompleteCommand, now: int, saleId: string, requested: CommandLine, id: string, m: Movement) {
    && m.id == id && m.scope == cmd.scope && m.productId == requested.productId && m.source == FromSale
    && m.sourceId == saleId && m.quantity + requested.quantity == 0 && m.occurredAt == now
  }

  /** The journal entries of the lines, line after line. */
  ghost predicate Entered(md: Master, scope: Scope, lines: seq<Line>, groups: seq<seq<JournalEntry>>,
                          entries: seq<JournalEntry>)
  {
    && |groups| == |lines| && entries == Joined(groups)
    && forall i :: 0 <= i < |lines| ==> LineJournaled(md, scope, lines[i], groups[i])
  }

  lemma RateFound(md: Master, scope: Scope, code: string, now: int)
    requires FindRate(md, scope, code, now).Ok? && 0 <= FindRate(md, scope, code, now).value <= 10000
    ensures exists r ::
      InForce(md, scope.Company(), code, now, r) && r.basisPoints == FindRate(md, scope, code, now).value
  {
    Lookups.ScanIsLatest(md.taxRates, scope.Company(), code, now);
    var r := Lookups.SelectedRate(md.taxRates, scope.Company(), code, now).value;
    assert InForce(md, scope.Company(), code, now, r);
  }

  lemma Charged(md: Master, cmd: CompleteCommand, now: int, product: Product, quantity: int64)
    requires Postable(product) && quantity > 0 && LineAmounts(md, cmd, now, product, quantity).Ok?
    ensures var a := LineAmounts(md, cmd, now, product, quantity).value;
      && a.subtotal == product.listPrice * quantity && a.cogs == product.standardCost * quantity
      && a.total == a.subtotal + a.tax
      && Taxed(md, cmd.scope.Company(), product.taxCode, now, a.subtotal, a.tax)
  {
    AmountFacts(md, cmd, now, product, quantity);
    var a, rate := LineAmounts(md, cmd, now, product, quantity).value,
        FindRate(md, cmd.scope, product.taxCode, now).value;
    Money.TaxRounding(a.subtotal, rate);
    RateFound(md, cmd.scope, product.taxCode, now);
  }

  /** What one requested line adds to the draft. */
  lemma LineShape(md: Master, committed: seq<Movement>, cmd: CompleteCommand, now: int, d: Draft,
                  requested: CommandLine)
      returns (line: Line, m: Movement, group: seq<JournalEntry>)
    requires md.Valid() && requested.quantity > 0 && PostLine(md, committed, cmd, now, d, requested).Ok?
    ensures var d' := PostLine(md, committed, cmd, now, d, requested).value;
      && |d.ids| >= 2 && d'.ids == d.ids[2..]
      && LineSold(md, cmd, now, requested, d.ids[0], line) && d'.sale.lines == d.sale.lines + [line]
      && Issued(cmd, now, d.sale.id, requested, d.ids[1], m) && d'.movements == d.movements + [m]
      && LineJournaled(md, cmd.scope, line, group) && d'.entries == d.entries + group
      && md.products[cmd.scope.Entity(requested.productId)].currency == d'.sale.currency
      && (d.sale.currency == "" || d.sale.currency == d'.sale.currency)
  {
    var product;
    product, line, m := PostLineShape(md, committed, cmd, now, d, requested);
    Charged(md, cmd, now, product, requested.quantity);
    hide PostLine, LineAmounts, AddTotals, Taxed, Available, HasId;
    var d' := PostLine(md, committed, cmd, now, d, requested).value;
    AddedLine(d.sale.(currency := d'.sale.currency, lines := d.sale.lines + [line]),
              Amounts(line.subtotal, line.tax, line.total, line.cogs));
    group := LineEntries(product, line.subtotal, line.cogs);
  }

  lemma AddedLine(sale: Sale, a: Amounts)
    requires AddTotals(sale, a).Ok?
    ensures AddTotals(sale, a).value.lines == sale.lines && AddTotals(sale, a).value.currency == sale.currency
  {
  }

  lemma SoldPush(md: Master, cmd: CompleteCommand, now: int, ids: seq<string>, d: Draft, n: nat, d': Draft, line: Line,
                 m: Movement, group: seq<JournalEntry>)
    requires SoldSoFar(md, cmd, now, ids, d, n) && n < |cmd.lines| && |d.ids| >= 2 && d'.ids == d.ids[2..]
    requires LineSold(md, cmd, now, cmd.lines[n], d.ids[0], line) && d'.sale.lines == d.sale.lines + [line]
    requires Issued(cmd, now, ids[0], cmd.lines[n], d.ids[1], m) && d'.movements == d.movements + [m]
    requires LineJournaled(md, cmd.scope, line, group) && d'.entries == d.entries + group
    requires md.products[cmd.scope.Entity(cmd.lines[n].productId)].currency == d'.sale.currency
    requires d.sale.currency == "" || d.sale.currency == d'.sale.currency
    ensures SoldSoFar(md, cmd, now, ids, d', n + 1)
  {
    hide LineJournaled, Issued, OneCurrency, Taxed;
    var groups :| Entered(md, cmd.scope, d.sale.lines, groups, d.entries);
    assert (groups + [group])[..n] == groups;
    assert Entered(md, cmd.scope, d'.sale.lines, groups + [group], d'.entries);
    CurrencyPush(md, cmd, d.sale.currency, d'.sale.currency, n);
  }

  lemma CurrencyPush(md: Master, cmd: CompleteCommand, before: string, after: string, n: nat)
    requires n < |cmd.lines| && OneCurrency(md, cmd, before, n)
    requires cmd.scope.Entity(cmd.lines[n].productId) in md.products
    requires md.products[cmd.scope.Entity(cmd.lines[n].productId)].currency == after
    requires before == "" || before == after
    ensures OneCurrency(md, cmd, after, n + 1)
  {
  }

  lemma {:induction false} LinesSold(md: Master, committed: seq<Movement>, cmd: CompleteCommand, now: int,
                                     ids: seq<string>, begun: Draft, n: nat)
    requires md.Valid() && n <= |cmd.lines| && (forall line :: line in cmd.lines ==> line.quantity > 0)
    requires SoldSoFar(md, cmd, now, ids, begun, 0) && begun.sale.id == ids[0]
    requires PostLines(md, committed, cmd, now, begun, cmd.lines[..n]).Ok?
    ensures var d := PostLines(md, committed, cmd, now, begun, cmd.lines[..n]).value;
      && SoldSoFar(md, cmd, now, ids, d, n) && SameHead(d.sale, begun.sale)
  {
    hide SoldSoFar, PostLine;
    if n > 0 {
      assert cmd.lines[..n][..n - 1] == cmd.lines[..n - 1];
      LinesSold(md, committed, cmd, now, ids, begun, n - 1);
      var d := PostLines(md, committed, cmd, now, begun, cmd.lines[..n - 1]).value;
      var d' := PostLines(md, committed, cmd, now, begun, cmd.lines[..n]).value;
      var line, m, group := LineShape(md, committed, cmd, now, d, cmd.lines[n - 1]);
      SoldPush(md, cmd, now, ids, d, n - 1, d', line, m, group);
      HeadKept(md, committed, cmd, now, d, cmd.lines[n - 1]);
    }
  }

  /** The same header, apart from currency, amounts and lines. */
  predicate SameHead(a: Sale, b: Sale) {
    a.(currency := b.currency, subtotal := b.subtotal, tax := b.tax, total := b.total, cogs := b.cogs, lines := b.lines)
      == b
  }

  lemma HeadKept(md: Master, committed: seq<Movement>, cmd: CompleteCommand, now: int, d: Draft, requested: CommandLine)
    requires PostLine(md, committed, cmd, now, d, requested).Ok?
    ensures SameHead(PostLine(md, committed, cmd, now, d, requested).value.sale, d.sale)
    ensures PostLine(md, committed, cmd, now, d, requested).value.customer == d.customer
    ensures PostLine(md, committed, cmd, now, d, requested).value.cashAccount == d.cashAccount
    ensures PostLine(md, committed, cmd, now, d, requested).value.posting == d.posting
  {
    hide LineAmounts, HasId, Available, Postable;
  }

  /** The account a sale is charged to: receivables, or the cash account of its payment method. */
  function Charge(md: Master, cmd: CompleteCommand): Option<string> {
    var company := CompanyId(cmd.scope.tenant, cmd.scope.company);
    if company !in md.posting then None
    else if cmd.kind == Credit then Some(md.posting[company].receivable)
    else if cmd.paymentMethod in md.posting[company].cash then Some(md.posting[company].cash[cmd.paymentMethod])
    else None
  }

  /** The row of the customer or the payment. */
  ghost predicate RowWritten(md: Master, cmd: CompleteCommand, now: int, id: string, books: Books) {
    var sale, company := books.sale, CompanyId(cmd.scope.tenant, cmd.scope.company);
    && Charge(md, cmd).Some? && Charge(md, cmd).value != ""
    && if cmd.kind == Credit then
         && books.payments == []
         && books.ledger
            == [LedgerEntry(id, company, cmd.customerId, FromSale, sale.id, sale.total, sale.currency, now)]
       else
         && books.ledger == []
         && books.payments == [Payment(id, company, sale.id, Charge(md, cmd).value, cmd.paymentMethod, sale.total,
                                       sale.currency, now)]
  }

  /** The journal: the total to its account, the lines, and the tax when there is any. */
  ghost predicate JournalWritten(md: Master, cmd: CompleteCommand, now: int, id: string, sale: Sale, j: Journal) {
    var company := CompanyId(cmd.scope.tenant, cmd.scope.company);
    && company in md.posting && md.posting[company].taxPayable != "" && Charge(md, cmd).Some?
    && j == Journal(id, company, FromSale, sale.id, sale.currency, now, j.entries)
    && exists groups :: EntriesWritten(md, cmd, sale, groups, j.entries)
  }

  ghost predicate EntriesWritten(md: Master, cmd: CompleteCommand, sale: Sale, groups: seq<seq<JournalEntry>>,
                                 entries: seq<JournalEntry>)
    requires CompanyId(cmd.scope.tenant, cmd.scope.company) in md.posting && Charge(md, cmd).Some?
  {
    && Entered(md, cmd.scope, sale.lines, groups, Joined(groups))
    && entries
       == [JournalEntry(Charge(md, cmd).value, sale.total, 0,
                        if cmd.kind == Credit then "Customer receivable" else "Sale payment")]
          + Joined(groups)
          + if sale.tax == 0 then []
            else [JournalEntry(md.posting[CompanyId(cmd.scope.tenant, cmd.scope.company)].taxPayable, 0, sale.tax,
                               "Output tax")]
  }

  /** The audit and outbox events of a record, which carry it as their payload. */
  predicate EventsWritten(actor: string, action: string, causation: string, now: int, auditId: string, eventId: string,
                          p: Packet)
  {
    var sale, company := p.books.sale, CompanyId(p.books.sale.scope.tenant, p.books.sale.scope.company);
    && p.audit == AuditEvent(auditId, company, actor, action, "sale", sale.id, sale.correlationId, causation, sale, now)
    && p.event
       == OutboxEvent(eventId, company, "sale", sale.id, action, 1, sale.correlationId, causation, sale, now)
  }

  /** Everything an accepted sale writes, with the identifiers in the order the generator hands them out. */
  ghost predicate SaleWritten(md: Master, cmd: CompleteCommand, now: int, ids: seq<string>, p: Packet) {
    var n, sale, moves := |cmd.lines|, p.books.sale, p.books.movements;
    && |ids| >= 5 + 2 * n
    && Headed(cmd, now, ids[0], sale) && |sale.currency| == 3 && OneCurrency(md, cmd, sale.currency, n)
    && |sale.lines| == n && |moves| == n
    && (forall i :: 0 <= i < n ==> LineSold(md, cmd, now, cmd.lines[i], ids[1 + 2 * i], sale.lines[i]))
    && (forall i :: 0 <= i < n ==> Issued(cmd, now, ids[0], cmd.lines[i], ids[2 + 2 * i], moves[i]))
    && RowWritten(md, cmd, now, ids[1 + 2 * n], p.books)
    && JournalWritten(md, cmd, now, ids[2 + 2 * n], sale, p.books.journal)
    && EventsWritten(cmd.actor, "sale.posted", cmd.key, now, ids[3 + 2 * n], ids[4 + 2 * n], p)
    && p.claim == ClaimId(cmd.scope.tenant, cmd.scope.company, "sales.complete.v1", cmd.key)
    && p.hash == CompleteHash(cmd.scope, cmd.customerId, cmd.kind, cmd.paymentMethod, cmd.lines, cmd.actor)
  }

  /** The state after an accepted sale: one new record, new rows at the end of every ledger, and the key claimed. */
  ghost predicate SaleInstalled(s: State, p: Packet, s': State) {
    var sale := p.books.sale;
    s' == State(s.sales[EntityId(sale.scope.tenant, sale.scope.company, sale.id) := sale],
                s.movements + p.books.movements, s.ledger + p.books.ledger, s.payments + p.books.payments,
                s.journals + [p.books.journal], s.audits + [p.audit], s.outbox + [p.event],
                s.claims[p.claim := Claim(p.hash, sale.id)])
  }

  lemma TaxNonNegative(sale: Sale)
    requires GoodTotals(sale)
    ensures sale.tax >= 0
  {
  }

  lemma SettlingStated(md: Master, s: State, cmd: CompleteCommand, now: int, ids: seq<string>, begun: Draft, d: Draft)
    requires cmd.kind in {Cash, Credit} && md.Valid() && Open(md, cmd, now, ids) == Ok(begun)
    requires SoldSoFar(md, cmd, now, ids, d, |cmd.lines|) && SameHead(d.sale, begun.sale) && GoodTotals(d.sale)
    requires d.customer == begun.customer && d.posting == begun.posting && d.cashAccount == begun.cashAccount
    requires Settle(s.ledger, s.payments, cmd, now, d).Ok?
    ensures var books, n := Settle(s.ledger, s.payments, cmd, now, d).value, |cmd.lines|;
      && |ids| >= 3 + 2 * n && books.ids == ids[3 + 2 * n..]
      && books.sale == d.sale && books.movements == d.movements && |d.sale.currency| == 3
      && RowWritten(md, cmd, now, ids[1 + 2 * n], books)
      && JournalWritten(md, cmd, now, ids[2 + 2 * n], d.sale, books.journal)
  {
    hide HasId, Exposure, Finance.Validates, OneCurrency, GoodTotals, LineSold, LineJournaled;
    var groups :| Entered(md, cmd.scope, d.sale.lines, groups, d.entries);
    var books := Settle(s.ledger, s.payments, cmd, now, d).value;
    TaxNonNegative(d.sale);
    assert EntriesWritten(md, cmd, d.sale, groups, books.journal.entries);
  }

  lemma OpenStated(md: Master, cmd: CompleteCommand, now: int, ids: seq<string>)
    requires md.Valid() && cmd.kind in {Cash, Credit} && Open(md, cmd, now, ids).Ok?
    ensures var d := Open(md, cmd, now, ids).value;
      && ids != [] && d.ids == ids[1..] && d.sale.id == ids[0] && d.customer.id == cmd.customerId
      && SoldSoFar(md, cmd, now, ids, d, 0) && Headed(cmd, now, ids[0], d.sale)
  {
    OpenFacts(md, cmd, now, ids);
    var d := Open(md, cmd, now, ids).value;
    hide Lookups.PeriodOpen, PaidInto;
    assert Entered(md, cmd.scope, d.sale.lines, [], d.entries);
  }

  lemma RecordStated(s: State, p: Packet, ids: seq<string>, actor: string, action: string, causation: string,
                     claim: ClaimId, hash: Hash, reverses: Option<EntityId>, now: int)
    requires Record(s, p.books, actor, action, causation, claim, hash, reverses, now) == Ok(p) && p.books.ids == ids
    ensures |ids| >= 2 && EventsWritten(actor, action, causation, now, ids[0], ids[1], p)
    ensures p.claim == claim && p.hash == hash && p.reverses == reverses && p.now == now
  {
    hide HasId, Finance.Validates, Filter;
  }

  lemma Summed(cmd: CompleteCommand, now: int, id: string, begun: Sale, sale: Sale)
    requires Headed(cmd, now, id, begun) && SameHead(sale, begun) && GoodTotals(sale)
    ensures Headed(cmd, now, id, sale)
  {
    SumSame(sale.lines, LineSubtotal(), sale.lines, (line: Line) => line.subtotal);
    SumSame(sale.lines, LineTax(), sale.lines, (line: Line) => line.tax);
    SumSame(sale.lines, LineTotal(), sale.lines, (line: Line) => line.total);
    SumSame(sale.lines, LineCogs(), sale.lines, (line: Line) => line.cogs);
  }

  lemma ServedAsOrdered(b: Backend, md: Master, s: State, command: CompleteCommand, now: int, ids: seq<string>,
                        p: Packet)
    requires md.Valid() && Complete(b, md, s, command, now, ids) == Accepted(p)
    ensures SaleWritten(md, command.Normalized(), now, ids, p) && p.reverses == None
  {
    hide Complete, Open, PostLines, Settle, Record, SoldSoFar, CompleteCommand.Validate, AdmitComplete, GoodDraft,
      Headed, RowWritten, JournalWritten, EventsWritten, CompleteCommand.Normalized, SameHead;
    var cmd := command.Normalized();
    var begun, d := CompleteStages(b, md, s, command, now, ids, p);
    PositiveLines(cmd);
    OpenStated(md, cmd, now, ids);
    DraftFacts(md, s.movements, cmd, now, ids, begun, d);
    assert cmd.lines[..|cmd.lines|] == cmd.lines;
    LinesSold(md, s.movements, cmd, now, ids, begun, |cmd.lines|);
    AccountsKept(md, s.movements, cmd, now, begun, cmd.lines);
    DraftGood(md, cmd, d);
    SettlingStated(md, s, cmd, now, ids, begun, d);
    Summed(cmd, now, ids[0], begun.sale, d.sale);
    RecordStated(s, p, p.books.ids, cmd.actor, "sale.posted", cmd.key, cmd.Claim(), cmd.Hash(), None, now);
    Assembled(md, cmd, now, ids, p, d);
  }

  lemma DraftGood(md: Master, cmd: CompleteCommand, d: Draft)
    requires GoodDraft(md, cmd, d)
    ensures GoodTotals(d.sale)
  {
  }

  lemma Assembled(md: Master, cmd: CompleteCommand, now: int, ids: seq<string>, p: Packet, d: Draft)
    requires SoldSoFar(md, cmd, now, ids, d, |cmd.lines|) && Headed(cmd, now, ids[0], d.sale)
    requires p.books.sale == d.sale && p.books.movements == d.movements && |d.sale.currency| == 3
    requires |ids| >= 3 + 2 * |cmd.lines| && p.books.ids == ids[3 + 2 * |cmd.lines|..]
    requires RowWritten(md, cmd, now, ids[1 + 2 * |cmd.lines|], p.books)
    requires JournalWritten(md, cmd, now, ids[2 + 2 * |cmd.lines|], d.sale, p.books.journal)
    requires |p.books.ids| >= 2
    requires EventsWritten(cmd.actor, "sale.posted", cmd.key, now, p.books.ids[0], p.books.ids[1], p)
    requires p.claim == cmd.Claim() && p.hash == cmd.Hash()
    ensures SaleWritten(md, cmd, now, ids, p)
  {
    hide RowWritten, JournalWritten, EventsWritten, LineSold, Issued, OneCurrency, Headed;
  }

  lemma {:induction false} AccountsKept(md: Master, committed: seq<Movement>, cmd: CompleteCommand, now: int, d: Draft,
                                        lines: seq<CommandLine>)
    requires PostLines(md, committed, cmd, now, d, lines).Ok?
    ensures var d' := PostLines(md, committed, cmd, now, d, lines).value;
      d'.customer == d.customer && d'.posting == d.posting && d'.cashAccount == d.cashAccount
  {
    hide PostLine;
    if lines == [] {
    } else {
      AccountsKept(md, committed, cmd, now, d, lines[..|lines| - 1]);
      HeadKept(md, committed, cmd, now, PostLines(md, committed, cmd, now, d, lines[..|lines| - 1]).value,
               lines[|lines| - 1]);
    }
  }

  /** The same master data with rates and periods in another order. */
  ghost predicate Reordered(md: Master, md': Master) {
    && md' == md.(taxRates := md'.taxRates, periods := md'.periods)
    && forall r :: r in md'.taxRates <==> r in md.taxRates
  }

  lemma SameTax(md: Master, md': Master, company: CompanyId, code: string, now: int, subtotal: int, tax: int)
    requires Reordered(md, md') && Taxed(md', company, code, now, subtotal, tax)
    ensures Taxed(md, company, code, now, subtotal, tax)
  {
    var r :| InForce(md', company, code, now, r) && RoundedAt(r, subtotal, tax);
    assert InForce(md, company, code, now, r);
  }

  lemma SameLine(md: Master, md': Master, cmd: CompleteCommand, now: int, requested: CommandLine, id: string,
                 line: Line)
    requires Reordered(md, md') && LineSold(md', cmd, now, requested, id, line)
    ensures LineSold(md, cmd, now, requested, id, line)
  {
    SameTax(md, md', cmd.scope.Company(), md.products[cmd.scope.Entity(requested.productId)].taxCode, now,
            line.subtotal, line.tax);
    hide Taxed;
  }

  lemma SameJournal(md: Master, md': Master, cmd: CompleteCommand, now: int, id: string, sale: Sale, j: Journal)
    requires Reordered(md, md') && JournalWritten(md', cmd, now, id, sale, j)
    ensures JournalWritten(md, cmd, now, id, sale, j)
  {
    var groups :| EntriesWritten(md', cmd, sale, groups, j.entries);
    assert EntriesWritten(md, cmd, sale, groups, j.entries);
  }

  lemma SameCurrency(md: Master, md': Master, cmd: CompleteCommand, currency: string, n: nat)
    requires Reordered(md, md') && OneCurrency(md', cmd, currency, n)
    ensures OneCurrency(md, cmd, currency, n)
  {
    assert forall i :: 0 <= i < n ==> CurrencyOf(md, cmd, i) == CurrencyOf(md', cmd, i);
    hide CurrencyOf;
  }

  /** Rates in another order charge the same taxes. */
  lemma SameCharges(md: Master, md': Master, cmd: CompleteCommand, now: int, ids: seq<string>, p: Packet)
    requires Reordered(md, md') && SaleWritten(md', cmd, now, ids, p)
    ensures SaleWritten(md, cmd, now, ids, p)
  {
    hide Headed, Issued, EventsWritten, LineSold, JournalWritten, OneCurrency;
    forall i | 0 <= i < |cmd.lines|
      ensures LineSold(md, cmd, now, cmd.lines[i], ids[1 + 2 * i], p.books.sale.lines[i])
    {
      SameLine(md, md', cmd, now, cmd.lines[i], ids[1 + 2 * i], p.books.sale.lines[i]);
    }
    SameJournal(md, md', cmd, now, ids[2 + 2 * |cmd.lines|], p.books.sale, p.books.journal);
    SameCurrency(md, md', cmd, p.books.sale.currency, |cmd.lines|);
    assert Charge(md, cmd) == Charge(md', cmd);
    hide Reordered;
  }

  /**
   * An accepted Complete writes the sale that was ordered, at list prices, taxed at a rate in force, with its stock
   * movements, its receivable or payment, its journal and its two events, and nothing else.
   */
  lemma SaleAsOrdered(b: Backend, md: Master, s: State, command: CompleteCommand, now: int, ids: seq<string>, p: Packet)
    requires md.Valid() && Perform(b, md, s, CompleteOp(command, now, ids)) == Accepted(p)
    ensures SaleWritten(md, command.(paymentMethod := ToUpper(TrimSpace(command.paymentMethod))), now, ids, p)
    ensures SaleInstalled(s, p, After(s, Perform(b, md, s, CompleteOp(command, now, ids))))
  {
    hide SaleWritten, Complete, FitsBigint, Reordered;
    PresentedReorders(b, md);
    ServedAsOrdered(b, Presented(b, md), s, command, now, ids, p);
    SameCharges(md, Presented(b, md), command.Normalized(), now, ids, p);
  }

  lemma PresentedReorders(b: Backend, md: Master)
    ensures Reordered(md, Presented(b, md)) && (md.Valid() ==> Presented(b, md).Valid())
  {
    Lookups.SameRows(md.taxRates, Lookups.RateDate());
  }
}
