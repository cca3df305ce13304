/** What the rows of an accepted transaction look like, apart from how they were computed. */
module Packets {
  import opened Basics
  import opened Sums
  import opened Model
  import opened Money
  import opened Posting
  import Finance

  function Quantity(productId: string): Line -> int {
    (line: Line) => if line.productId == productId then line.quantity else 0
  }
  function LineSubtotal(): Line -> int { (line: Line) => line.subtotal }
  function LineTax(): Line -> int { (line: Line) => line.tax }
  function LineTotal(): Line -> int { (line: Line) => line.total }
  function LineCogs(): Line -> int { (line: Line) => line.cogs }

  predicate GoodLine(line: Line) {
    line.quantity > 0 && line.subtotal > 0 && 0 <= line.tax <= line.subtotal && line.cogs >= 0
    && line.total == line.subtotal + line.tax
    && line.subtotal == line.unitPrice * line.quantity && line.cogs == line.unitCost * line.quantity
  }

  /** The header of a sale is the sum of its lines. */
  predicate GoodTotals(sale: Sale) {
    && (forall line :: line in sale.lines ==> GoodLine(line))
    && sale.subtotal == Sum(sale.lines, LineSubtotal())
    && sale.tax == Sum(sale.lines, LineTax())
    && sale.total == Sum(sale.lines, LineTotal())
    && sale.cogs == Sum(sale.lines, LineCogs())
    && sale.total == sale.subtotal + sale.tax
    && sale.cogs >= 0 && sale.tax >= 0
  }

  /** One issue of stock for every line, in order. */
  predicate IssuesLines(sale: Sale, movements: seq<Movement>) {
    && |movements| == |sale.lines|
    && forall i :: 0 <= i < |movements| ==>
      && movements[i].scope == sale.scope
      && movements[i].productId == sale.lines[i].productId
      && movements[i].quantity + sale.lines[i].quantity == 0
  }

  function PostingOf(md: Master, company: CompanyId): PostingConfig {
    if company in md.posting then md.posting[company] else PostingConfig("", "", map[])
  }

  /** The account a cash sale is paid into. */
  function PaidInto(md: Master, sale: Sale): string {
    var cash := PostingOf(md, sale.scope.Company()).cash;
    if sale.kind == Cash && sale.paymentMethod in cash then cash[sale.paymentMethod] else ""
  }

  function ProductEntries(md: Master, scope: Scope, lines: seq<Line>): seq<JournalEntry> {
    if lines == [] then [] else
    var line := lines[|lines| - 1];
    ProductEntries(md, scope, lines[..|lines| - 1])
    + if scope.Entity(line.productId) in md.products
      then LineEntries(md.products[scope.Entity(line.productId)], line.subtotal, line.cogs) else []
  }

  /** The journal of a sale is determined by the sale and the posting configuration. */
  function SaleEntries(md: Master, sale: Sale): seq<JournalEntry> {
    [if sale.kind == Credit
     then JournalEntry(PostingOf(md, sale.scope.Company()).receivable, sale.total, 0, "Customer receivable")
     else JournalEntry(PaidInto(md, sale), sale.total, 0, "Sale payment")]
    + ProductEntries(md, sale.scope, sale.lines)
    + TaxEntries(PostingOf(md, sale.scope.Company()).taxPayable, sale.tax)
  }

  /** A credit sale is owed by its customer, a cash sale is paid. */
  predicate Settled(md: Master, sale: Sale, ledger: seq<LedgerEntry>, payments: seq<Payment>) {
    if sale.kind == Credit then
      && payments == []
      && |ledger| == 1 && ledger[0].customerId == sale.customerId && ledger[0].amount == sale.total
    else
      && ledger == []
      && |payments| == 1 && payments[0].accountId == PaidInto(md, sale) && payments[0].amount == sale.total
  }

  /** Products are known, kinds are known, and a cash account has been found. */
  predicate Configured(md: Master, sale: Sale) {
    && sale.kind in {Cash, Credit}
    && sale.scope.Company() in md.posting
    && PostingOf(md, sale.scope.Company()).receivable != ""
    && PostingOf(md, sale.scope.Company()).taxPayable != ""
    && (sale.kind == Cash ==> PaidInto(md, sale) != "")
    && forall line :: line in sale.lines ==>
      sale.scope.Entity(line.productId) in md.products && Postable(md.products[sale.scope.Entity(line.productId)])
  }

  predicate OwnEvents(p: Packet) {
    var sale, company := p.books.sale, p.books.sale.scope.Company();
    && p.audit.company == company && p.audit.entityId == sale.id && p.audit.data == sale
    && p.event.company == company && p.event.aggregateId == sale.id && p.event.payload == sale
    && p.audit.correlationId == p.event.correlationId == sale.correlationId
    && p.audit.action == p.event.eventType
  }

  /** Every row names the sale it belongs to. */
  ghost predicate OwnRows(p: Packet) {
    var sale, company := p.books.sale, p.books.sale.scope.Company();
    && (forall m :: m in p.books.movements ==> MovedBy(company, sale.Source(), sale.id)(m))
    && (forall e :: e in p.books.ledger ==> EnteredBy(company, sale.Source(), sale.id)(e))
    && (forall q :: q in p.books.payments ==> PaidFor(company, sale.id)(q))
    && JournaledBy(company, sale.Source(), sale.id)(p.books.journal)
    && OwnEvents(p)
    && p.audit.action == (if sale.recordType == SaleRecord then "sale.posted" else "sale.reversed")
  }

  /** A packet of either kind creates a new posted record under a new key. */
  ghost predicate Fresh(s: State, p: Packet) {
    && p.books.sale.Key() !in s.sales
    && p.books.sale.id != ""
    && p.books.sale.status == Posted && p.books.sale.reversedAt == None
    && p.claim !in s.claims
    && p.claim.tenant == p.books.sale.scope.tenant && p.claim.company == p.books.sale.scope.company
    && p.claim.operation == (if p.books.sale.recordType == SaleRecord then COMPLETE else REVERSE)
    && OwnRows(p)
  }

  ghost predicate SalePacket(md: Master, s: State, p: Packet) {
    var sale := p.books.sale;
    && Fresh(s, p)
    && p.reverses == None
    && sale.recordType == SaleRecord && sale.reversalOf == ""
    && sale.lines != []
    && Configured(md, sale) && GoodTotals(sale)
    && IssuesLines(sale, p.books.movements)
    && Settled(md, sale, p.books.ledger, p.books.payments)
    && p.books.journal.entries == SaleEntries(md, sale)
    && |sale.currency| == 3
  }

  // The lines of a sale.

  /** The draft after some of the command's lines. */
  ghost predicate GoodDraft(md: Master, cmd: CompleteCommand, d: Draft) {
    var sale := d.sale;
    && sale.scope == cmd.scope && sale.recordType == SaleRecord && sale.kind == cmd.kind
    && sale.status == Posted && sale.reversedAt == None && sale.reversalOf == ""
    && sale.paymentMethod == cmd.paymentMethod && sale.customerId == d.customer.id
    && sale.scope.Company() in md.posting && d.posting == md.posting[sale.scope.Company()]
    && (sale.kind == Cash ==> d.cashAccount == PaidInto(md, sale))
    && Configured(md, sale) && GoodTotals(sale)
    && IssuesLines(sale, d.movements)
    && (forall m :: m in d.movements ==> MovedBy(sale.scope.Company(), FromSale, sale.id)(m))
    && d.entries == ProductEntries(md, sale.scope, sale.lines)
  }

  lemma OpenFacts(md: Master, cmd: CompleteCommand, now: int, ids: seq<string>)
    requires md.Valid() && cmd.kind in {Cash, Credit} && Open(md, cmd, now, ids).Ok?
    ensures var d := Open(md, cmd, now, ids).value;
      && GoodDraft(md, cmd, d) && d.sale.lines == [] && d.movements == []
      && d.customer == md.customers[cmd.scope.Entity(cmd.customerId)]
      && d.customer.id == cmd.customerId
  {
  }

  lemma AmountFacts(md: Master, cmd: CompleteCommand, now: int, product: Product, quantity: int64)
    requires Postable(product) && quantity > 0
    requires LineAmounts(md, cmd, now, product, quantity).Ok?
    ensures var a := LineAmounts(md, cmd, now, product, quantity).value;
      && a.subtotal == product.listPrice * quantity && a.subtotal > 0
      && 0 <= a.tax <= a.subtotal && a.total == a.subtotal + a.tax
      && a.cogs == product.standardCost * quantity && a.cogs >= 0
  {
    var rate := FindRate(md, cmd.scope, product.taxCode, now).value;
    var subtotal := CheckedMultiply(product.listPrice, quantity).value;
    assert subtotal > 0 by { ProductMonotone(1, 1, product.listPrice, quantity); }
    TaxRounding(subtotal, rate);
    ProductMonotone(0, 0, product.standardCost, quantity);
  }

  lemma SumPush(lines: seq<Line>, line: Line, f: Line -> int)
    ensures Sum(lines + [line], f) == Sum(lines, f) + f(line)
  {
    SumAppend(lines, [line], f);
    SumOne(line, f);
  }

  lemma TotalsPush(sale: Sale, line: Line, sale': Sale)
    requires GoodTotals(sale) && GoodLine(line)
    requires AddTotals(sale.(currency := sale'.currency, lines := sale.lines + [line]),
                       Amounts(line.subtotal, line.tax, line.total, line.cogs)) == Ok(sale')
    ensures GoodTotals(sale')
    ensures sale' == sale.(currency := sale'.currency, lines := sale.lines + [line], subtotal := sale'.subtotal,
                           tax := sale'.tax, total := sale'.total, cogs := sale'.cogs)
  {
    SumPush(sale.lines, line, LineSubtotal());
    SumPush(sale.lines, line, LineTax());
    SumPush(sale.lines, line, LineTotal());
    SumPush(sale.lines, line, LineCogs());
  }

  /** The one line, movement and group of journal entries that a requested line adds. */
  lemma PostLineShape(md: Master, committed: seq<Movement>, cmd: CompleteCommand, now: int, d: Draft,
                      requested: CommandLine)
      returns (product: Product, line: Line, m: Movement)
    requires md.Valid() && requested.quantity > 0
    requires PostLine(md, committed, cmd, now, d, requested).Ok?
    ensures var d' := PostLine(md, committed, cmd, now, d, requested).value;
      && cmd.scope.Entity(requested.productId) in md.products
      && product == md.products[cmd.scope.Entity(requested.productId)] && Postable(product)
      && product.id == line.productId == m.productId == requested.productId
      && GoodLine(line) && line.quantity == requested.quantity && m.quantity + line.quantity == 0
      && m.scope == cmd.scope && m.source == FromSale && m.sourceId == d.sale.id
      && d'.movements == d.movements + [m]
      && d'.entries == d.entries + LineEntries(product, line.subtotal, line.cogs)
      && AddTotals(d.sale.(currency := d'.sale.currency, lines := d.sale.lines + [line]),
                   Amounts(line.subtotal, line.tax, line.total, line.cogs)) == Ok(d'.sale)
      && d'.customer == d.customer && d'.posting == d.posting && d'.cashAccount == d.cashAccount
      && Available(committed + d.movements, Loc(cmd.scope, requested.productId)) >= requested.quantity
      && !HasId(committed + d.movements, MoveId(), m.id)
      && |d.ids| >= 2 && line.id == d.ids[0] && m.id == d.ids[1] && d'.ids == d.ids[2..] && m.occurredAt == now
      && product.active && line.unitPrice == product.listPrice && line.unitCost == product.standardCost
      && LineAmounts(md, cmd, now, product, requested.quantity)
         == Ok(Amounts(line.subtotal, line.tax, line.total, line.cogs))
      && d'.sale.currency == product.currency && (d.sale.currency == "" || d.sale.currency == product.currency)
  {
    product := FindProduct(md, cmd.scope, requested.productId).value;
    AmountFacts(md, cmd, now, product, requested.quantity);
    var a := LineAmounts(md, cmd, now, product, requested.quantity).value;
    line := Line(d.ids[0], product.id, requested.quantity, product.listPrice, a.subtotal, a.tax, a.total,
                 product.standardCost, a.cogs);
    m := Movement(d.ids[1], cmd.scope, product.id, FromSale, d.sale.id, Negate(requested.quantity), now);
  }

  lemma PostLineFacts(md: Master, committed: seq<Movement>, cmd: CompleteCommand, now: int, d: Draft,
                      requested: CommandLine)
    requires md.Valid() && requested.quantity > 0 && GoodDraft(md, cmd, d)
    requires PostLine(md, committed, cmd, now, d, requested).Ok?
    ensures var d' := PostLine(md, committed, cmd, now, d, requested).value;
      && GoodDraft(md, cmd, d')
      && d'.sale.id == d.sale.id && d'.customer == d.customer
      && |d'.sale.lines| == |d.sale.lines| + 1
  {
    var product, line, m := PostLineShape(md, committed, cmd, now, d, requested);
    var d' := PostLine(md, committed, cmd, now, d, requested).value;
    TotalsPush(d.sale, line, d'.sale);
    DraftPush(md, cmd, d, d', product, line, m);
  }

  lemma DraftPush(md: Master, cmd: CompleteCommand, d: Draft, d': Draft, product: Product, line: Line, m: Movement)
    requires GoodDraft(md, cmd, d) && GoodTotals(d'.sale)
    requires d'.sale == d.sale.(currency := d'.sale.currency, lines := d.sale.lines + [line],
                                subtotal := d'.sale.subtotal, tax := d'.sale.tax, total := d'.sale.total,
                                cogs := d'.sale.cogs)
    requires cmd.scope.Entity(line.productId) in md.products
    requires product == md.products[cmd.scope.Entity(line.productId)] && Postable(product)
    requires m.productId == line.productId && m.scope == cmd.scope && m.quantity + line.quantity == 0
    requires m.source == FromSale && m.sourceId == d.sale.id
    requires d'.movements == d.movements + [m]
    requires d'.entries == d.entries + LineEntries(product, line.subtotal, line.cogs)
    requires d'.customer == d.customer && d'.posting == d.posting && d'.cashAccount == d.cashAccount
    ensures GoodDraft(md, cmd, d')
  {
    assert d'.sale.lines[..|d.sale.lines|] == d.sale.lines;
    assert IssuesLines(d'.sale, d'.movements);
    assert Configured(md, d'.sale) by {
      assert PaidInto(md, d'.sale) == PaidInto(md, d.sale);
    }
  }

  lemma {:induction false} PostLinesFacts(md: Master, committed: seq<Movement>, cmd: CompleteCommand, now: int,
                                        d: Draft, lines: seq<CommandLine>)
    requires md.Valid() && (forall line :: line in lines ==> line.quantity > 0) && GoodDraft(md, cmd, d)
    requires PostLines(md, committed, cmd, now, d, lines).Ok?
    ensures var d' := PostLines(md, committed, cmd, now, d, lines).value;
      && GoodDraft(md, cmd, d')
      && d'.sale.id == d.sale.id && d'.customer == d.customer
      && |d'.sale.lines| == |d.sale.lines| + |lines|
  {
    if lines == [] {
    } else {
      PostLinesFacts(md, committed, cmd, now, d, lines[..|lines| - 1]);
      var before := PostLines(md, committed, cmd, now, d, lines[..|lines| - 1]).value;
      PostLineFacts(md, committed, cmd, now, before, lines[|lines| - 1]);
    }
  }

  /** A line that cannot be posted ends the sale. */
  lemma {:induction false} FailsOn(md: Master, committed: seq<Movement>, cmd: CompleteCommand, now: int, d: Draft,
                                   lines: seq<CommandLine>, n: nat)
    requires n <= |lines| && PostLines(md, committed, cmd, now, d, lines[..n]).Err?
    ensures PostLines(md, committed, cmd, now, d, lines) == Err(PostLines(md, committed, cmd, now, d, lines[..n]).error)
  {
    hide PostLine;
    if n == |lines| {
      assert lines[..n] == lines;
    } else {
      assert lines[..|lines| - 1][..n] == lines[..n];
      FailsOn(md, committed, cmd, now, d, lines[..|lines| - 1], n);
    }
  }

  lemma StopsAt(md: Master, committed: seq<Movement>, cmd: CompleteCommand, now: int, begun: Draft, n: nat)
    requires n < |cmd.lines| && PostLines(md, committed, cmd, now, begun, cmd.lines[..n]).Ok?
    requires PostLine(md, committed, cmd, now, PostLines(md, committed, cmd, now, begun, cmd.lines[..n]).value,
                      cmd.lines[n]).Err?
    ensures PostLines(md, committed, cmd, now, begun, cmd.lines)
      == Err(PostLine(md, committed, cmd, now, PostLines(md, committed, cmd, now, begun, cmd.lines[..n]).value,
                      cmd.lines[n]).error)
  {
    hide PostLine;
    assert cmd.lines[..n + 1][..n] == cmd.lines[..n];
    FailsOn(md, committed, cmd, now, begun, cmd.lines, n + 1);
  }

  /** No location is oversold, and no balance leaves int64. */
  ghost predicate StockOk(movements: seq<Movement>) {
    forall loc :: 0 <= Sum(movements, AtLoc(loc)) <= MAX64
  }

  /** A line is only posted from stock that is there, also when a product repeats. */
  lemma PostLineStock(md: Master, committed: seq<Movement>, cmd: CompleteCommand, now: int, d: Draft,
                      requested: CommandLine)
    requires md.Valid() && requested.quantity > 0 && GoodDraft(md, cmd, d)
    requires PostLine(md, committed, cmd, now, d, requested).Ok?
    requires StockOk(committed + d.movements)
    ensures StockOk(committed + PostLine(md, committed, cmd, now, d, requested).value.movements)
  {
    var product, line, m := PostLineShape(md, committed, cmd, now, d, requested);
    var d' := PostLine(md, committed, cmd, now, d, requested).value;
    assert committed + d'.movements == (committed + d.movements) + [m];
    var sold := Loc(cmd.scope, requested.productId);
    assert Available(committed + d.movements, sold) == Sum(committed + d.movements, AtLoc(sold));
    forall loc ensures 0 <= Sum(committed + d'.movements, AtLoc(loc)) <= MAX64 {
      SumAppend(committed + d.movements, [m], AtLoc(loc));
      SumOne(m, AtLoc(loc));
      assert loc != sold ==> AtLoc(loc)(m) == 0;
    }
  }

  lemma {:induction false} PostLinesStock(md: Master, committed: seq<Movement>, cmd: CompleteCommand, now: int,
                                        d: Draft, lines: seq<CommandLine>)
    requires md.Valid() && (forall line :: line in lines ==> line.quantity > 0) && GoodDraft(md, cmd, d)
    requires PostLines(md, committed, cmd, now, d, lines).Ok?
    requires StockOk(committed + d.movements)
    ensures StockOk(committed + PostLines(md, committed, cmd, now, d, lines).value.movements)
  {
    if lines == [] {
    } else {
      PostLinesStock(md, committed, cmd, now, d, lines[..|lines| - 1]);
      PostLinesFacts(md, committed, cmd, now, d, lines[..|lines| - 1]);
      var before := PostLines(md, committed, cmd, now, d, lines[..|lines| - 1]).value;
      PostLineStock(md, committed, cmd, now, before, lines[|lines| - 1]);
    }
  }

  /** What the credit check has established about a new credit sale. */
  ghost predicate WithinCredit(md: Master, ledger: seq<LedgerEntry>, sale: Sale) {
    var id := sale.scope.Entity(sale.customerId);
    && id in md.customers
    && (sale.kind == Credit ==>
      && !md.customers[id].general && md.customers[id].creditEnabled
      && 0 <= Exposure(ledger, sale.scope.Company(), sale.customerId)
      && Exposure(ledger, sale.scope.Company(), sale.customerId) + sale.total <= md.customers[id].creditLimit)
  }

  /** The stages of an accepted Complete. */
  lemma CompleteStages(b: Backend, md: Master, s: State, command: CompleteCommand, now: int, ids: seq<string>,
                       p: Packet)
      returns (begun: Draft, d: Draft)
    requires Complete(b, md, s, command, now, ids) == Accepted(p)
    ensures var cmd := command.Normalized();
      && AdmitComplete(md, s.claims, cmd) == Acquired
      && cmd.Validate().Pass? && cmd.Claim() !in s.claims
      && Open(md, cmd, now, ids) == Ok(begun)
      && PostLines(md, s.movements, cmd, now, begun, cmd.lines) == Ok(d)
      && Settle(s.ledger, s.payments, cmd, now, d) == Ok(p.books)
      && Record(s, p.books, cmd.actor, "sale.posted", cmd.key, cmd.Claim(), cmd.Hash(), None, now) == Ok(p)
  {
    hide Open, PostLines, Settle, Finance.Validates, HasId, CompleteCommand.Validate, Filter, FindSale, ToUpper,
      TrimSpace;
    var cmd := command.Normalized();
    begun := Open(md, cmd, now, ids).value;
    d := PostLines(md, s.movements, cmd, now, begun, cmd.lines).value;
    assert Settle(s.ledger, s.payments, cmd, now, d).Ok?;
  }

  lemma PositiveLines(cmd: CompleteCommand)
    requires cmd.Validate().Pass?
    ensures cmd.lines != [] && cmd.kind in {Cash, Credit}
    ensures forall line :: line in cmd.lines ==> line.quantity > 0
  {
  }

  lemma DraftFacts(md: Master, committed: seq<Movement>, cmd: CompleteCommand, now: int, ids: seq<string>, begun: Draft,
                   d: Draft)
    requires md.Valid() && cmd.Validate().Pass? && Open(md, cmd, now, ids) == Ok(begun)
    requires PostLines(md, committed, cmd, now, begun, cmd.lines) == Ok(d)
    ensures GoodDraft(md, cmd, d) && d.sale.lines != []
    ensures cmd.kind in {Cash, Credit}
    ensures cmd.scope.Entity(cmd.customerId) in md.customers
    ensures d.customer == md.customers[cmd.scope.Entity(cmd.customerId)] && d.customer.id == cmd.customerId
    ensures StockOk(committed) ==> StockOk(committed + d.movements)
  {
    hide GoodDraft, CompleteCommand.Validate;
    PositiveLines(cmd);
    OpenFacts(md, cmd, now, ids);
    PostLinesFacts(md, committed, cmd, now, begun, cmd.lines);
    if StockOk(committed) {
      assert committed + begun.movements == committed;
      PostLinesStock(md, committed, cmd, now, begun, cmd.lines);
    }
  }

  /** Complete only ever accepts packets of this shape. */
  lemma CompletePacket(b: Backend, md: Master, s: State, command: CompleteCommand, now: int, ids: seq<string>,
                       p: Packet)
    requires md.Valid() && Complete(b, md, s, command, now, ids) == Accepted(p)
    ensures SalePacket(md, s, p)
    ensures p.claim == command.Claim() && p.hash == command.Normalized().Hash()
  {
    hide Open, PostLines, Settle, Finance.Validates, HasId, Record, Complete, AdmitComplete, ProductEntries,
      SaleEntries, Settled;
    var cmd := command.Normalized();
    var begun, d := CompleteStages(b, md, s, command, now, ids, p);
    DraftFacts(md, s.movements, cmd, now, ids, begun, d);
    SettleRows(md, s, cmd, now, d);
    SettleJournal(md, s, cmd, now, d);
    RecordFacts(s, p, cmd.actor, "sale.posted", cmd.key, cmd.Claim(), cmd.Hash(), None, now);
    SaleShape(md, s, p, cmd, d);
  }

  lemma SaleShape(md: Master, s: State, p: Packet, cmd: CompleteCommand, d: Draft)
    requires GoodDraft(md, cmd, d) && d.sale.lines != []
    requires p.books.sale == d.sale && p.books.movements == d.movements
    requires Settled(md, d.sale, p.books.ledger, p.books.payments)
    requires p.books.journal.entries == SaleEntries(md, d.sale) && |d.sale.currency| == 3
    requires p.reverses == None && p.claim == cmd.Claim()
    requires d.sale.Key() !in s.sales && d.sale.id != "" && p.claim !in s.claims
    requires forall e :: e in p.books.ledger ==> EnteredBy(cmd.scope.Company(), FromSale, d.sale.id)(e)
    requires forall q :: q in p.books.payments ==> PaidFor(cmd.scope.Company(), d.sale.id)(q)
    requires JournaledBy(cmd.scope.Company(), FromSale, d.sale.id)(p.books.journal)
    requires OwnEvents(p) && p.audit.action == "sale.posted"
    ensures SalePacket(md, s, p)
  {
    assert OwnRows(p);
  }

  /** The checks of an accepted Complete, stated about the store it ran on. */
  lemma CompleteGuards(b: Backend, md: Master, s: State, command: CompleteCommand, now: int, ids: seq<string>,
                       p: Packet)
    requires md.Valid() && Complete(b, md, s, command, now, ids) == Accepted(p)
    ensures WithinCredit(md, s.ledger, p.books.sale)
    ensures StockOk(s.movements) ==> StockOk(s.movements + p.books.movements)
  {
    hide Open, PostLines, Settle, Record, Complete, AdmitComplete;
    var cmd := command.Normalized();
    var begun, d := CompleteStages(b, md, s, command, now, ids, p);
    DraftFacts(md, s.movements, cmd, now, ids, begun, d);
    SettleRows(md, s, cmd, now, d);
    CreditGuard(md, s, cmd, now, ids, d);
  }

  lemma CreditGuard(md: Master, s: State, cmd: CompleteCommand, now: int, ids: seq<string>, d: Draft)
    requires Open(md, cmd, now, ids).Ok?
    requires GoodDraft(md, cmd, d) && cmd.scope.Entity(cmd.customerId) in md.customers
    requires d.customer == md.customers[cmd.scope.Entity(cmd.customerId)] && d.customer.id == cmd.customerId
    requires cmd.kind == Credit ==>
      && 0 <= Exposure(s.ledger, cmd.scope.Company(), d.customer.id)
      && Exposure(s.ledger, cmd.scope.Company(), d.customer.id) + d.sale.total <= d.customer.creditLimit
    ensures WithinCredit(md, s.ledger, d.sale)
  {
  }

  lemma SettleRows(md: Master, s: State, cmd: CompleteCommand, now: int, d: Draft)
    requires cmd.kind in {Cash, Credit} && GoodDraft(md, cmd, d) && Settle(s.ledger, s.payments, cmd, now, d).Ok?
    ensures var books := Settle(s.ledger, s.payments, cmd, now, d).value;
      && books.sale == d.sale && books.movements == d.movements
      && Settled(md, d.sale, books.ledger, books.payments)
      && |d.sale.currency| == 3
      && (forall e :: e in books.ledger ==> EnteredBy(cmd.scope.Company(), FromSale, d.sale.id)(e))
      && (forall q :: q in books.payments ==> PaidFor(cmd.scope.Company(), d.sale.id)(q))
      && (cmd.kind == Credit ==>
        && 0 <= Exposure(s.ledger, cmd.scope.Company(), d.customer.id)
        && Exposure(s.ledger, cmd.scope.Company(), d.customer.id) + d.sale.total <= d.customer.creditLimit)
  {
  }

  lemma SettleJournal(md: Master, s: State, cmd: CompleteCommand, now: int, d: Draft)
    requires cmd.kind in {Cash, Credit} && GoodDraft(md, cmd, d) && Settle(s.ledger, s.payments, cmd, now, d).Ok?
    ensures var books := Settle(s.ledger, s.payments, cmd, now, d).value;
      && books.journal.entries == SaleEntries(md, d.sale)
      && JournaledBy(cmd.scope.Company(), FromSale, d.sale.id)(books.journal)
  {
    assert PostingOf(md, d.sale.scope.Company()) == d.posting;
  }

  lemma RecordFacts(s: State, p: Packet, actor: string, eventType: string, causation: string,
                    claim: ClaimId, hash: Hash, reverses: Option<EntityId>, now: int)
    requires Record(s, p.books, actor, eventType, causation, claim, hash, reverses, now) == Ok(p)
    ensures var sale := p.books.sale;
      && sale.Key() !in s.sales && sale.id != ""
      && p.claim == claim && p.hash == hash && p.reverses == reverses && p.now == now
      && OwnEvents(p) && p.audit.action == eventType
      && (reverses.Some? ==> reverses.value in s.sales && s.sales[reverses.value].status == Posted)
  {
  }

  lemma RecordBooks(s: State, books: Books, actor: string, eventType: string, causation: string, claim: ClaimId,
                    hash: Hash, reverses: Option<EntityId>, now: int)
    ensures var r := Record(s, books, actor, eventType, causation, claim, hash, reverses, now);
      r.Ok? ==> r.value.books == books
  {
    hide HasId, Finance.Validates, Filter;
  }

  // Reversals.

  function PaidTo(company: CompanyId, account: string): Payment -> int {
    (p: Payment) => if p.company == company && p.accountId == account then p.amount else 0
  }

  function OwedTo(company: CompanyId): LedgerEntry -> int {
    (e: LedgerEntry) => if e.company == company then e.amount else 0
  }

  function MovementsOf(s: State, sale: Sale): seq<Movement> {
    Filter(s.movements, MovedBy(sale.scope.Company(), sale.Source(), sale.id))
  }

  function LedgerOf(s: State, sale: Sale): seq<LedgerEntry> {
    Filter(s.ledger, EnteredBy(sale.scope.Company(), sale.Source(), sale.id))
  }

  function PaymentsOf(s: State, sale: Sale): seq<Payment> {
    Filter(s.payments, PaidFor(sale.scope.Company(), sale.id))
  }

  function JournalsOf(s: State, sale: Sale): seq<Journal> {
    Filter(s.journals, JournaledBy(sale.scope.Company(), sale.Source(), sale.id))
  }

  /** The rows stored under a sale are exactly the rows that sale makes. */
  ghost predicate SaleLinked(md: Master, s: State, sale: Sale) {
    && sale.lines != []
    && GoodTotals(sale) && Configured(md, sale) && |sale.currency| == 3
    && IssuesLines(sale, MovementsOf(s, sale))
    && Settled(md, sale, LedgerOf(s, sale), PaymentsOf(s, sale))
    && |JournalsOf(s, sale)| == 1
    && JournalsOf(s, sale)[0].entries == SaleEntries(md, sale)
  }

  /** The rows of the packet are the opposite of the rows stored under the original sale. */
  ghost predicate Cancels(s: State, p: Packet, original: Sale) {
    && (forall loc :: Sum(p.books.movements, AtLoc(loc)) == -Sum(MovementsOf(s, original), AtLoc(loc)))
    && (forall c, id :: Sum(p.books.ledger, OwedBy(c, id)) == -Sum(LedgerOf(s, original), OwedBy(c, id)))
    && (forall c :: Sum(p.books.ledger, OwedTo(c)) == -Sum(LedgerOf(s, original), OwedTo(c)))
    && (forall c, a :: Sum(p.books.payments, PaidTo(c, a)) == -Sum(PaymentsOf(s, original), PaidTo(c, a)))
    && JournalsOf(s, original) != []
    && (forall a ::
        Sum(p.books.journal.entries, Finance.Net(a)) == -Sum(JournalsOf(s, original)[0].entries, Finance.Net(a)))
  }

  ghost predicate ReversalPacket(s: State, p: Packet) {
    && Fresh(s, p)
    && p.books.sale.recordType == ReversalRecord
    && p.reverses.Some? && p.reverses.value in s.sales
    && var original := s.sales[p.reverses.value];
    && original.Key() == p.reverses.value
    && original.recordType == SaleRecord && original.status == Posted
    && p.books.sale.scope == original.scope && p.books.sale.reversalOf == original.id
    && p.books.sale.kind == original.kind && p.books.sale.total == original.total && p.books.sale.tax == original.tax
    && (forall m :: m in p.books.movements ==> m.quantity > 0)
    && (forall e :: e in p.books.ledger ==> e.amount < 0)
    && Cancels(s, p, original)
  }

  lemma {:induction false} MirrorFacts<T>(existing: seq<T>, rows: seq<T>, ids: seq<string>, id: T -> string,
                                          copy: (T, string) -> T)
    requires Mirror(existing, rows, ids, id, copy).Ok?
    ensures var (copies, rest) := Mirror(existing, rows, ids, id, copy).value;
      && |copies| == |rows| <= |ids| && rest == ids[|rows|..]
      && forall i :: 0 <= i < |rows| ==> copies[i] == copy(rows[i], ids[i])
  {
    if rows == [] {
    } else {
      MirrorFacts(existing, rows[..|rows| - 1], ids, id, copy);
    }
  }

  /** Mirrored rows are the opposite of the rows they copy, whatever order those were read in. */
  lemma {:induction false} MirrorCancels<T>(existing: seq<T>, stored: seq<T>, rows: seq<T>, ids: seq<string>,
                         id: T -> string, copy: (T, string) -> T, f: T -> int)
    requires Mirror(existing, rows, ids, id, copy).Ok?
    requires multiset(rows) == multiset(stored)
    requires forall x, i :: x in stored ==> f(copy(x, i)) == -f(x)
    ensures Sum(Mirror(existing, rows, ids, id, copy).value.0, f) == -Sum(stored, f)
  {
    MirrorFacts(existing, rows, ids, id, copy);
    var copies := Mirror(existing, rows, ids, id, copy).value.0;
    forall i | 0 <= i < |rows| ensures f(copies[i]) == -f(rows[i]) {
      assert rows[i] in multiset(rows);
    }
    SumNegated(rows, f, copies, f);
    SumArranged(rows, stored, f);
  }

  // Each kind of row of a reversal against the rows of the original.

  lemma MovementsCancel(b: Backend, s: State, original: Sale, reversalId: string, now: int, ids: seq<string>)
    requires original.recordType == SaleRecord && IssuesLines(original, MovementsOf(s, original))
      && GoodTotals(original)
    requires Mirror(s.movements, ReadMovements(b, s, original.scope, original.id), ids, MoveId(),
                    ReverseMovement(reversalId, now)).Ok?
    ensures var copies :=
      Mirror(s.movements, ReadMovements(b, s, original.scope, original.id), ids, MoveId(),
             ReverseMovement(reversalId, now)).value.0;
      && (forall loc :: Sum(copies, AtLoc(loc)) == -Sum(MovementsOf(s, original), AtLoc(loc)))
      && (forall m :: m in copies ==> m.quantity > 0 && MovedBy(original.scope.Company(), FromReversal, reversalId)(m))
  {
    IssuesNegative(original, MovementsOf(s, original));
    SameMovements(b, s, original);
    hide Mirror, Filter, SortById, Sum, IssuesLines, GoodTotals, ReadMovements, MovementsOf;
    MovementsNegated(s.movements, MovementsOf(s, original), ReadMovements(b, s, original.scope, original.id), ids,
                     original.scope, reversalId, now);
  }

  lemma MovementsNegated(existing: seq<Movement>, stored: seq<Movement>, rows: seq<Movement>, ids: seq<string>,
                         scope: Scope, reversalId: string, now: int)
    requires multiset(rows) == multiset(stored)
    requires forall m :: m in stored ==> -MAX64 <= m.quantity < 0 && m.scope == scope
    requires Mirror(existing, rows, ids, MoveId(), ReverseMovement(reversalId, now)).Ok?
    ensures var copies := Mirror(existing, rows, ids, MoveId(), ReverseMovement(reversalId, now)).value.0;
      && (forall loc :: Sum(copies, AtLoc(loc)) == -Sum(stored, AtLoc(loc)))
      && (forall m :: m in copies ==> m.quantity > 0 && MovedBy(scope.Company(), FromReversal, reversalId)(m))
  {
    hide Mirror, Filter, SortById, Sum;
    var copy := ReverseMovement(reversalId, now);
    forall loc ensures Sum(Mirror(existing, rows, ids, MoveId(), copy).value.0, AtLoc(loc)) == -Sum(stored, AtLoc(loc))
    {
      MirrorCancels(existing, stored, rows, ids, MoveId(), copy, AtLoc(loc));
    }
    MirrorFacts(existing, rows, ids, MoveId(), copy);
    forall i | 0 <= i < |rows| ensures rows[i] in stored {
      assert rows[i] in multiset(rows);
    }
  }

  lemma IssuesNegative(original: Sale, stored: seq<Movement>)
    requires IssuesLines(original, stored) && GoodTotals(original)
    ensures forall m :: m in stored ==> -MAX64 <= m.quantity < 0 && m.scope == original.scope
  {
    forall m | m in stored ensures -MAX64 <= m.quantity < 0 && m.scope == original.scope {
      var i :| 0 <= i < |stored| && stored[i] == m;
      assert GoodLine(original.lines[i]);
    }
  }

  lemma SameMovements(b: Backend, s: State, original: Sale)
    requires original.recordType == SaleRecord
    ensures multiset(ReadMovements(b, s, original.scope, original.id)) == multiset(MovementsOf(s, original))
  {
  }

  lemma LedgerCancels(b: Backend, md: Master, s: State, original: Sale, reversalId: string, now: int, ids: seq<string>)
    requires original.recordType == SaleRecord && GoodTotals(original) && original.lines != []
    requires Settled(md, original, LedgerOf(s, original), PaymentsOf(s, original))
    requires Mirror(s.ledger, ReadLedger(b, s, original.scope, original.id), ids, EntryId(),
                    ReverseEntry(reversalId, now)).Ok?
    ensures var copies :=
      Mirror(s.ledger, ReadLedger(b, s, original.scope, original.id), ids, EntryId(),
             ReverseEntry(reversalId, now)).value.0;
      && (forall c, id :: Sum(copies, OwedBy(c, id)) == -Sum(LedgerOf(s, original), OwedBy(c, id)))
      && (forall c :: Sum(copies, OwedTo(c)) == -Sum(LedgerOf(s, original), OwedTo(c)))
      && (forall e :: e in copies ==> e.amount < 0 && EnteredBy(original.scope.Company(), FromReversal, reversalId)(e))
  {
    hide Mirror, Filter, SortById, Sum;
    var stored, rows, copy := LedgerOf(s, original), ReadLedger(b, s, original.scope, original.id),
        ReverseEntry(reversalId, now);
    PositiveTotal(original);
    forall e | e in stored ensures 0 < e.amount <= MAX64 && e.company == original.scope.Company() {
      FilterMember(s.ledger, EnteredBy(original.scope.Company(), FromSale, original.id), e);
    }
    forall c, id
      ensures Sum(Mirror(s.ledger, rows, ids, EntryId(), copy).value.0, OwedBy(c, id)) == -Sum(stored, OwedBy(c, id))
    {
      MirrorCancels(s.ledger, stored, rows, ids, EntryId(), copy, OwedBy(c, id));
    }
    forall c ensures Sum(Mirror(s.ledger, rows, ids, EntryId(), copy).value.0, OwedTo(c)) == -Sum(stored, OwedTo(c)) {
      MirrorCancels(s.ledger, stored, rows, ids, EntryId(), copy, OwedTo(c));
    }
    MirrorFacts(s.ledger, rows, ids, EntryId(), copy);
    forall i | 0 <= i < |rows| ensures rows[i] in stored {
      assert rows[i] in multiset(rows);
    }
  }

  lemma PaymentsCancel(b: Backend, md: Master, s: State, original: Sale, reversalId: string, now: int, ids: seq<string>)
    requires original.recordType == SaleRecord && GoodTotals(original) && original.lines != []
    requires Settled(md, original, LedgerOf(s, original), PaymentsOf(s, original))
    requires Mirror(s.payments, ReadPayments(b, s, original.scope, original.id), ids, PayId(),
                    ReversePayment(reversalId, now)).Ok?
    ensures var copies :=
      Mirror(s.payments, ReadPayments(b, s, original.scope, original.id), ids, PayId(),
             ReversePayment(reversalId, now)).value.0;
      && (forall c, a :: Sum(copies, PaidTo(c, a)) == -Sum(PaymentsOf(s, original), PaidTo(c, a)))
      && (forall q :: q in copies ==> PaidFor(original.scope.Company(), reversalId)(q))
  {
    hide Mirror, Filter, SortById, Sum;
    var stored, rows, copy := PaymentsOf(s, original), ReadPayments(b, s, original.scope, original.id),
        ReversePayment(reversalId, now);
    PositiveTotal(original);
    forall q | q in stored ensures 0 < q.amount <= MAX64 && q.company == original.scope.Company() {
      FilterMember(s.payments, PaidFor(original.scope.Company(), original.id), q);
    }
    forall c, a
      ensures Sum(Mirror(s.payments, rows, ids, PayId(), copy).value.0, PaidTo(c, a)) == -Sum(stored, PaidTo(c, a))
    {
      MirrorCancels(s.payments, stored, rows, ids, PayId(), copy, PaidTo(c, a));
    }
    MirrorFacts(s.payments, rows, ids, PayId(), copy);
    forall i | 0 <= i < |rows| ensures rows[i] in stored {
      assert rows[i] in multiset(rows);
    }
  }

  /** A sale with lines has a positive subtotal and total. */
  lemma {:induction false} PositiveTotal(sale: Sale)
    requires GoodTotals(sale) && sale.lines != []
    ensures sale.subtotal > 0 && sale.total > 0
  {
    var n := |sale.lines| - 1;
    forall line | line in sale.lines[..n] ensures LineSubtotal()(line) >= 0 {
      assert GoodLine(line);
    }
    SumNonNegative(sale.lines[..n], LineSubtotal());
    assert GoodLine(sale.lines[n]);
  }

  /** The stages of an accepted Reverse. */
  lemma ReverseStages(b: Backend, md: Master, s: State, cmd: ReverseCommand, now: int, ids: seq<string>, p: Packet)
      returns (original: Sale, reversal: Sale, rest: seq<string>, origin: Origin)
    requires Reverse(b, md, s, cmd, now, ids) == Accepted(p)
    ensures
      && AdmitReverse(md, s.claims, cmd) == Acquired && cmd.Claim() !in s.claims
      && FindSale(b, s, cmd.scope, cmd.saleId) == Ok(original)
      && OpenReversal(md, cmd, now, original, ids) == Ok((reversal, rest))
      && origin == Origin(original, ReadMovements(b, s, cmd.scope, original.id),
                          ReadJournals(s, cmd.scope, original.id),
                          ReadLedger(b, s, cmd.scope, original.id), ReadPayments(b, s, cmd.scope, original.id))
      && MirrorBooks(s, origin, reversal, now, rest) == Ok(p.books)
      && Record(s, p.books, cmd.actor, "sale.reversed", original.id, cmd.Claim(), cmd.Hash(),
                Some(cmd.scope.Entity(original.id)), now) == Ok(p)
  {
    hide OpenReversal, MirrorBooks, Finance.Validates, HasId, ReadMovements, ReadJournals, ReadLedger, ReadPayments,
      Rows, Filter, ReverseCommand.Validate, TrimSpace;
    original := FindSale(b, s, cmd.scope, cmd.saleId).value;
    var opening := OpenReversal(md, cmd, now, original, ids).value;
    reversal, rest := opening.0, opening.1;
    origin := Origin(original, ReadMovements(b, s, cmd.scope, original.id), ReadJournals(s, cmd.scope, original.id),
                     ReadLedger(b, s, cmd.scope, original.id), ReadPayments(b, s, cmd.scope, original.id));
  }

  /** Rows are read by tenant and company: two scopes of one company read the same rows. */
  lemma SameReads(b: Backend, s: State, scope: Scope, scope': Scope, id: string)
    requires scope.Company() == scope'.Company()
    ensures ReadMovements(b, s, scope, id) == ReadMovements(b, s, scope', id)
    ensures ReadJournals(s, scope, id) == ReadJournals(s, scope', id)
    ensures ReadLedger(b, s, scope, id) == ReadLedger(b, s, scope', id)
    ensures ReadPayments(b, s, scope, id) == ReadPayments(b, s, scope', id)
  {
  }

  /** The identifiers left once the movements and the journal have theirs. */
  function AfterJournal(s: State, origin: Origin, reversal: Sale, now: int, ids: seq<string>): seq<string> {
    var moved := Mirror(s.movements, origin.movements, ids, MoveId(), ReverseMovement(reversal.id, now));
    if moved.Ok? && moved.value.1 != [] then moved.value.1[1..] else []
  }

  /** The identifiers left once the ledger rows have theirs. */
  function AfterLedger(s: State, origin: Origin, reversal: Sale, now: int, ids2: seq<string>): seq<string> {
    var owed := Mirror(s.ledger, origin.ledger, ids2, EntryId(), ReverseEntry(reversal.id, now));
    if owed.Ok? then owed.value.1 else []
  }

  /** The stages of an accepted mirroring. */
  lemma MirrorStages(s: State, origin: Origin, reversal: Sale, now: int, ids: seq<string>)
    requires MirrorBooks(s, origin, reversal, now, ids).Ok?
    ensures var books := MirrorBooks(s, origin, reversal, now, ids).value;
      var ids2 := AfterJournal(s, origin, reversal, now, ids);
      var moved := Mirror(s.movements, origin.movements, ids, MoveId(), ReverseMovement(reversal.id, now));
      var owed := Mirror(s.ledger, origin.ledger, ids2, EntryId(), ReverseEntry(reversal.id, now));
      var paid := Mirror(s.payments, origin.payments, AfterLedger(s, origin, reversal, now, ids2), PayId(),
                         ReversePayment(reversal.id, now));
      && books.sale == reversal
      && moved.Ok? && books.movements == moved.value.0
      && origin.journals != []
         && books.journal == Finance.Reverse(origin.journals[0], books.journal.id, FromReversal, reversal.id, now)
      && owed.Ok? && books.ledger == owed.value.0
      && paid.Ok? && books.payments == paid.value.0
  {
    hide Finance.Validates, Mirror;
  }

  /** Reverse only ever accepts packets that cancel a posted sale. */
  lemma ReversePacket(b: Backend, md: Master, s: State, cmd: ReverseCommand, now: int, ids: seq<string>, p: Packet)
    requires Reverse(b, md, s, cmd, now, ids) == Accepted(p)
    requires forall k :: k in s.sales ==> s.sales[k].Key() == k
    requires forall k :: k in s.sales && s.sales[k].recordType == SaleRecord ==> SaleLinked(md, s, s.sales[k])
    ensures ReversalPacket(s, p)
    ensures p.claim == cmd.Claim() && p.hash == cmd.Hash()
    ensures p.reverses == Some(cmd.scope.Entity(cmd.saleId))
  {
    hide OpenReversal, MirrorBooks, Record, Reverse, AdmitReverse, SaleLinked;
    var read, reversal, rest, origin := ReverseStages(b, md, s, cmd, now, ids, p);
    var k := cmd.scope.Entity(cmd.saleId);
    var original := s.sales[k];
    assert original.Key() == k;
    SameReads(b, s, cmd.scope, original.scope, original.id);
    OpenReversalFacts(md, cmd, now, read, ids);
    MirrorStages(s, origin, reversal, now, rest);
    var ids2 := AfterJournal(s, origin, reversal, now, rest);
    var ids3 := AfterLedger(s, origin, reversal, now, ids2);
    CancelRows(b, md, s, original, origin, p, now, rest, ids2, ids3);
    RecordFacts(s, p, cmd.actor, "sale.reversed", read.id, cmd.Claim(), cmd.Hash(), Some(cmd.scope.Entity(read.id)),
                now);
    ReversalShape(s, p, original, cmd);
  }

  lemma OpenReversalFacts(md: Master, cmd: ReverseCommand, now: int, original: Sale, ids: seq<string>)
    requires OpenReversal(md, cmd, now, original, ids).Ok?
    ensures var reversal := OpenReversal(md, cmd, now, original, ids).value.0;
      && original.recordType == SaleRecord && original.status == Posted
      && reversal.recordType == ReversalRecord && reversal.status == Posted && reversal.reversedAt == None
      && reversal.scope == original.scope && reversal.reversalOf == original.id && reversal.kind == original.kind
      && reversal.total == original.total && reversal.tax == original.tax && reversal.cogs == original.cogs
  {
  }

  lemma CancelRows(b: Backend, md: Master, s: State, original: Sale, origin: Origin, p: Packet, now: int,
                   ids: seq<string>, ids2: seq<string>, ids3: seq<string>)
    requires original.recordType == SaleRecord && SaleLinked(md, s, original)
    requires origin.movements == ReadMovements(b, s, original.scope, original.id)
    requires origin.journals == ReadJournals(s, original.scope, original.id)
    requires origin.ledger == ReadLedger(b, s, original.scope, original.id)
    requires origin.payments == ReadPayments(b, s, original.scope, original.id)
    requires var id := p.books.sale.id;
      && Mirror(s.movements, origin.movements, ids, MoveId(), ReverseMovement(id, now)).Ok?
      && p.books.movements == Mirror(s.movements, origin.movements, ids, MoveId(), ReverseMovement(id, now)).value.0
      && p.books.journal == Finance.Reverse(origin.journals[0], p.books.journal.id, FromReversal, id, now)
      && Mirror(s.ledger, origin.ledger, ids2, EntryId(), ReverseEntry(id, now)).Ok?
      && p.books.ledger == Mirror(s.ledger, origin.ledger, ids2, EntryId(), ReverseEntry(id, now)).value.0
      && Mirror(s.payments, origin.payments, ids3, PayId(), ReversePayment(id, now)).Ok?
      && p.books.payments == Mirror(s.payments, origin.payments, ids3, PayId(), ReversePayment(id, now)).value.0
    ensures Cancels(s, p, original)
    ensures forall m :: m in p.books.movements ==>
      m.quantity > 0 && MovedBy(original.scope.Company(), FromReversal, p.books.sale.id)(m)
    ensures forall e :: e in p.books.ledger ==>
      e.amount < 0 && EnteredBy(original.scope.Company(), FromReversal, p.books.sale.id)(e)
    ensures forall q :: q in p.books.payments ==> PaidFor(original.scope.Company(), p.books.sale.id)(q)
    ensures JournaledBy(original.scope.Company(), FromReversal, p.books.sale.id)(p.books.journal)
  {
    hide Mirror, ReadMovements, ReadLedger, ReadPayments, Filter, Sum, GoodTotals, Configured, SaleEntries;
    MovementsCancel(b, s, original, p.books.sale.id, now, ids);
    LedgerCancels(b, md, s, original, p.books.sale.id, now, ids2);
    PaymentsCancel(b, md, s, original, p.books.sale.id, now, ids3);
    var j := JournalsOf(s, original)[0];
    assert j in JournalsOf(s, original);
    FilterMember(s.journals, JournaledBy(original.scope.Company(), FromSale, original.id), j);
    Finance.ReverseSwaps(j, p.books.journal.id, FromReversal, p.books.sale.id, now);
  }

  lemma ReversalShape(s: State, p: Packet, original: Sale, cmd: ReverseCommand)
    requires original.Key() in s.sales && s.sales[original.Key()] == original
    requires original.recordType == SaleRecord && original.status == Posted
    requires p.reverses == Some(original.Key()) && p.claim == cmd.Claim() && p.claim !in s.claims
    requires cmd.scope.Company() == original.scope.Company()
    requires var r := p.books.sale;
      && r.Key() !in s.sales && r.id != ""
      && r.recordType == ReversalRecord && r.status == Posted && r.reversedAt == None
      && r.scope == original.scope && r.reversalOf == original.id && r.kind == original.kind
      && r.total == original.total && r.tax == original.tax
    requires Cancels(s, p, original) && OwnEvents(p) && p.audit.action == "sale.reversed"
    requires forall m :: m in p.books.movements ==>
      m.quantity > 0 && MovedBy(original.scope.Company(), FromReversal, p.books.sale.id)(m)
    requires forall e :: e in p.books.ledger ==>
      e.amount < 0 && EnteredBy(original.scope.Company(), FromReversal, p.books.sale.id)(e)
    requires forall q :: q in p.books.payments ==> PaidFor(original.scope.Company(), p.books.sale.id)(q)
    requires JournaledBy(original.scope.Company(), FromReversal, p.books.sale.id)(p.books.journal)
    ensures ReversalPacket(s, p)
  {
    hide Cancels;
  }
}
