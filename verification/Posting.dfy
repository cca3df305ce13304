/**
 * What Complete and Reverse write. A transaction either fails, replays the sale of a claimed
 * key, or is accepted with a packet of rows; `Apply` installs the packet.
 */
module Posting {
  import opened Basics
  import opened Sums
  import opened Model
  import opened Money
  import opened Lookups
  import Finance

  /**
   * PostgreSQL reads rows back in identifier order and master data latest first, and adds up journals
   * in bigint; the memory store keeps insertion order.
   */
  datatype Backend = Memory | Postgres

  /** The master data in the order the lookups of the backend examine it. */
  function Presented(b: Backend, md: Master): Master {
    if b == Memory then md
    else md.(taxRates := LatestFirst(md.taxRates, RateDate()), periods := LatestFirst(md.periods, PeriodDate()))
  }

  function Rows<T>(b: Backend, s: seq<T>, id: T -> string): (r: seq<T>)
    ensures multiset(r) == multiset(s)
  {
    if b == Memory then s else SortById(s, id)
  }

  function LineId(): Line -> string { (x: Line) => x.id }
  function MoveId(): Movement -> string { (x: Movement) => x.id }
  function EntryId(): LedgerEntry -> string { (x: LedgerEntry) => x.id }
  function PayId(): Payment -> string { (x: Payment) => x.id }
  function JournalId(): Journal -> string { (x: Journal) => x.id }
  function AuditId(): AuditEvent -> string { (x: AuditEvent) => x.id }
  function EventId(): OutboxEvent -> string { (x: OutboxEvent) => x.id }

  predicate HasId<T>(s: seq<T>, id: T -> string, x: string) {
    exists i :: 0 <= i < |s| && id(s[i]) == x
  }

  /** A stock location: one product in one warehouse of one branch. */
  datatype Loc = Loc(scope: Scope, productId: string)

  function AtLoc(loc: Loc): Movement -> int {
    (m: Movement) => if m.scope == loc.scope && m.productId == loc.productId then m.quantity else 0
  }

  function OwedBy(company: CompanyId, customerId: string): LedgerEntry -> int {
    (e: LedgerEntry) => if e.company == company && e.customerId == customerId then e.amount else 0
  }

  function MovedBy(company: CompanyId, source: Source, id: string): Movement -> bool {
    (m: Movement) => m.scope.Company() == company && m.source == source && m.sourceId == id
  }

  function EnteredBy(company: CompanyId, source: Source, id: string): LedgerEntry -> bool {
    (e: LedgerEntry) => e.company == company && e.source == source && e.sourceId == id
  }

  function PaidFor(company: CompanyId, id: string): Payment -> bool {
    (p: Payment) => p.company == company && p.saleId == id
  }

  function JournaledBy(company: CompanyId, source: Source, id: string): Journal -> bool {
    (j: Journal) => j.company == company && j.source == source && j.sourceId == id
  }

  function ReadSale(b: Backend, sale: Sale): Sale {
    sale.(lines := Rows(b, sale.lines, LineId()))
  }

  function FindSale(b: Backend, s: State, scope: Scope, id: string): Result<Sale> {
    if scope.Entity(id) in s.sales then Ok(ReadSale(b, s.sales[scope.Entity(id)])) else Err(NotFound)
  }

  function FindCustomer(md: Master, scope: Scope, id: string): Result<Account> {
    if scope.Entity(id) in md.customers then Ok(md.customers[scope.Entity(id)]) else Err(NotFound)
  }

  function FindProduct(md: Master, scope: Scope, id: string): Result<Product> {
    if scope.Entity(id) in md.products then Ok(md.products[scope.Entity(id)]) else Err(NotFound)
  }

  function FindRate(md: Master, scope: Scope, code: string, now: int): Result<int64> {
    match SelectedRate(md.taxRates, scope.Company(), code, now)
    case Some(rate) => Ok(rate.basisPoints)
    case None => Err(NotFound)
  }

  function NextId(ids: seq<string>): Result<(string, seq<string>)> {
    if ids == [] then Err(IdsExhausted) else Ok((ids[0], ids[1..]))
  }

  // Validation, authorisation and the idempotency claim.

  datatype Admission = Rejected(error: Error) | Replay(resultId: string) | Acquired

  function Admit(md: Master, claims: map<ClaimId, Claim>, check: Check, permission: Permission,
                 claim: ClaimId, hash: Hash): Admission
  {
    if check.Fail? then Rejected(check.error)
    else if permission !in md.permissions then Rejected(Forbidden)
    else if claim !in claims then Acquired
    else if claims[claim].hash != hash then Rejected(IdempotencyConflict)
    else if claims[claim].resultId == "" then Rejected(NoCommittedResult)
    else Replay(claims[claim].resultId)
  }

  function AdmitComplete(md: Master, claims: map<ClaimId, Claim>, cmd: CompleteCommand): Admission {
    Admit(md, claims, cmd.Validate(), Permission(cmd.scope, cmd.actor, "sales.complete"), cmd.Claim(), cmd.Hash())
  }

  function AdmitReverse(md: Master, claims: map<ClaimId, Claim>, cmd: ReverseCommand): Admission {
    Admit(md, claims, cmd.Validate(), Permission(cmd.scope, cmd.actor, "sales.reverse"), cmd.Claim(), cmd.Hash())
  }

  // Completing a sale.

  /** The sale being built, with the identifiers not yet used. */
  datatype Draft = Draft(ids: seq<string>, sale: Sale, movements: seq<Movement>, entries: seq<JournalEntry>,
                         customer: Account, posting: PostingConfig, cashAccount: string)

  function CashAccount(posting: PostingConfig, cmd: CompleteCommand): string {
    if cmd.kind == Cash && cmd.paymentMethod in posting.cash then posting.cash[cmd.paymentMethod] else ""
  }

  function Open(md: Master, cmd: CompleteCommand, now: int, ids: seq<string>): Result<Draft> {
    var customer :- FindCustomer(md, cmd.scope, cmd.customerId);
    :- Need(customer.active, CustomerInactive);
    :- Need(cmd.kind == Credit ==> !customer.general, GeneralCustomerCredit);
    :- Need(cmd.kind == Credit ==> customer.creditEnabled, CustomerCreditDisabled);
    :- Need(PeriodOpen(md.periods, cmd.scope.Company(), now), FiscalPeriodClosed);
    :- Need(cmd.scope.Company() in md.posting, PostingConfigMissing);
    var posting := md.posting[cmd.scope.Company()];
    :- Need(posting.receivable != "" && posting.taxPayable != "", PostingConfigMissing);
    var cashAccount := CashAccount(posting, cmd);
    :- Need(cmd.kind == Cash ==> cashAccount != "", PostingConfigMissing);
    var (id, rest) :- NextId(ids);
    var sale := Sale(id, cmd.scope, SaleRecord, cmd.kind, Posted, customer.id, "", 0, 0, 0, 0,
                     cmd.paymentMethod, "", "", cmd.actor,
                     if cmd.correlationId != "" then cmd.correlationId else id, now, None, []);
    Ok(Draft(rest, sale, [], [], customer, posting, cashAccount))
  }

  predicate Postable(p: Product) {
    p.listPrice > 0 && p.standardCost >= 0 && p.revenueAccount != "" && p.cogsAccount != "" && p.inventoryAccount != ""
  }

  datatype Amounts = Amounts(subtotal: int64, tax: int64, total: int64, cogs: int64)

  function LineAmounts(md: Master, cmd: CompleteCommand, now: int, product: Product, quantity: int64): Result<Amounts> {
    var rate :- FindRate(md, cmd.scope, product.taxCode, now);
    var subtotal :- CheckedMultiply(product.listPrice, quantity);
    var tax :- TaxAmount(subtotal, rate);
    var total :- CheckedAdd(subtotal, tax);
    var cogs :- CheckedMultiply(product.standardCost, quantity);
    Ok(Amounts(subtotal, tax, total, cogs))
  }

  function AddTotals(sale: Sale, a: Amounts): Result<Sale> {
    var subtotal :- CheckedAdd(sale.subtotal, a.subtotal);
    var tax :- CheckedAdd(sale.tax, a.tax);
    var total :- CheckedAdd(sale.total, a.total);
    var cogs :- CheckedAdd(sale.cogs, a.cogs);
    Ok(sale.(subtotal := subtotal, tax := tax, total := total, cogs := cogs))
  }

  function LineEntries(p: Product, subtotal: int64, cogs: int64): seq<JournalEntry> {
    [JournalEntry(p.revenueAccount, 0, subtotal, "Product revenue")]
    + if cogs > 0 then [JournalEntry(p.cogsAccount, cogs, 0, "Cost of goods sold"),
                        JournalEntry(p.inventoryAccount, 0, cogs, "Inventory issued")] else []
  }

  /** The int64 sum the stores compute. */
  function Available(movements: seq<Movement>, loc: Loc): int64 {
    Wrap(Sum(movements, AtLoc(loc)))
  }

  /** One requested line, given the movements committed so far. */
  function PostLine(md: Master, committed: seq<Movement>, cmd: CompleteCommand, now: int, d: Draft,
                    requested: CommandLine): Result<Draft>
  {
    var product :- FindProduct(md, cmd.scope, requested.productId);
    :- Need(product.active, ProductInactive);
    :- Need(Postable(product), PostingConfigMissing);
    var currency := if d.sale.currency == "" then product.currency else d.sale.currency;
    :- Need(currency == product.currency, InvalidCommand);
    var available := Available(committed + d.movements, Loc(cmd.scope, product.id));
    :- Need(available >= requested.quantity, InsufficientStock);
    var a :- LineAmounts(md, cmd, now, product, requested.quantity);
    var (lineId, ids) :- NextId(d.ids);
    var line := Line(lineId, product.id, requested.quantity, product.listPrice, a.subtotal, a.tax, a.total,
                     product.standardCost, a.cogs);
    var sale :- AddTotals(d.sale.(currency := currency, lines := d.sale.lines + [line]), a);
    var (moveId, rest) :- NextId(ids);
    :- Need(!HasId(committed + d.movements, MoveId(), moveId), Duplicate);
    var movement := Movement(moveId, cmd.scope, product.id, FromSale, sale.id, Negate(requested.quantity), now);
    Ok(d.(ids := rest, sale := sale, movements := d.movements + [movement],
          entries := d.entries + LineEntries(product, a.subtotal, a.cogs)))
  }

  function PostLines(md: Master, committed: seq<Movement>, cmd: CompleteCommand, now: int, d: Draft,
                     lines: seq<CommandLine>): Result<Draft>
  {
    if lines == [] then Ok(d) else
    var posted :- PostLines(md, committed, cmd, now, d, lines[..|lines| - 1]);
    PostLine(md, committed, cmd, now, posted, lines[|lines| - 1])
  }

  /** Everything but the events: what Complete or Reverse is about to store. */
  datatype Books = Books(ids: seq<string>, sale: Sale, movements: seq<Movement>, ledger: seq<LedgerEntry>,
                         payments: seq<Payment>, journal: Journal)

  function Exposure(ledger: seq<LedgerEntry>, company: CompanyId, customerId: string): int64 {
    Wrap(Sum(ledger, OwedBy(company, customerId)))
  }

  function TaxEntries(taxPayable: string, tax: int64): seq<JournalEntry> {
    if tax > 0 then [JournalEntry(taxPayable, 0, tax, "Output tax")] else []
  }

  function SettleEntry(d: Draft): JournalEntry {
    if d.sale.kind == Credit
    then JournalEntry(d.posting.receivable, d.sale.total, 0, "Customer receivable")
    else JournalEntry(d.cashAccount, d.sale.total, 0, "Sale payment")
  }

  function Settle(ledger: seq<LedgerEntry>, payments: seq<Payment>, cmd: CompleteCommand, now: int,
                  d: Draft): Result<Books>
  {
    var company := cmd.scope.Company();
    :- Need(|d.sale.currency| == 3, InvalidCommand);
    var newExposure :- if cmd.kind == Credit
      then CheckedAdd(Exposure(ledger, company, d.customer.id), d.sale.total) else Ok(0);
    :- Need(cmd.kind == Credit ==> newExposure <= d.customer.creditLimit, CreditLimitExceeded);
    var (rowId, ids) :- NextId(d.ids);
    :- Need(if cmd.kind == Credit then !HasId(ledger, EntryId(), rowId) else !HasId(payments, PayId(), rowId),
            Duplicate);
    var owed := if cmd.kind == Credit
      then [LedgerEntry(rowId, company, d.customer.id, FromSale, d.sale.id, d.sale.total, d.sale.currency, now)]
      else [];
    var paid := if cmd.kind == Credit then []
      else [Payment(rowId, company, d.sale.id, d.cashAccount, cmd.paymentMethod, d.sale.total, d.sale.currency, now)];
    var (journalId, rest) :- NextId(ids);
    var journal := Journal(journalId, company, FromSale, d.sale.id, d.sale.currency, now,
                           [SettleEntry(d)] + d.entries + TaxEntries(d.posting.taxPayable, d.sale.tax));
    :- Need(Finance.Validates(journal), UnbalancedJournal);
    Ok(Books(rest, d.sale, d.movements, owed, paid, journal))
  }

  // Storing.

  /** All the rows of one accepted transaction. */
  datatype Packet = Packet(books: Books, audit: AuditEvent, event: OutboxEvent, claim: ClaimId, hash: Hash,
                           reverses: Option<EntityId>, now: int)

  function Record(s: State, books: Books, actor: string, eventType: string, causation: string,
                  claim: ClaimId, hash: Hash, reverses: Option<EntityId>, now: int): Result<Packet>
  {
    var sale, journal := books.sale, books.journal;
    :- Need(sale.Key() !in s.sales, Duplicate);
    :- Need(Finance.Validates(journal), UnbalancedJournal);
    :- Need(!HasId(s.journals, JournalId(), journal.id)
            && Filter(s.journals, JournaledBy(journal.company, journal.source, journal.sourceId)) == [], Duplicate);
    :- Need(reverses.Some? ==> reverses.value in s.sales, NotFound);
    :- Need(reverses.Some? ==> s.sales[reverses.value].status == Posted, AlreadyReversed);
    var (auditId, ids) :- NextId(books.ids);
    :- Need(!HasId(s.audits, AuditId(), auditId), Duplicate);
    var (eventId, rest) :- NextId(ids);
    :- Need(!HasId(s.outbox, EventId(), eventId), Duplicate);
    :- Need(sale.id != "", InvalidCompletion);
    Ok(Packet(books,
              AuditEvent(auditId, sale.scope.Company(), actor, eventType, "sale", sale.id,
                         sale.correlationId, causation, sale, now),
              OutboxEvent(eventId, sale.scope.Company(), "sale", sale.id, eventType, 1,
                          sale.correlationId, causation, sale, now),
              claim, hash, reverses, now))
  }

  function MarkReversed(sales: map<EntityId, Sale>, reverses: Option<EntityId>, now: int): map<EntityId, Sale> {
    if reverses.Some? && reverses.value in sales
    then sales[reverses.value := sales[reverses.value].(status := Reversed, reversedAt := Some(now))]
    else sales
  }

  function Apply(s: State, p: Packet): State {
    State(MarkReversed(s.sales, p.reverses, p.now)[p.books.sale.Key() := p.books.sale],
          s.movements + p.books.movements, s.ledger + p.books.ledger, s.payments + p.books.payments,
          s.journals + [p.books.journal], s.audits + [p.audit], s.outbox + [p.event],
          s.claims[p.claim := Claim(p.hash, p.books.sale.id)])
  }

  function BuildSale(md: Master, s: State, cmd: CompleteCommand, now: int, ids: seq<string>): Result<Packet> {
    var begun :- Open(md, cmd, now, ids);
    var drafted :- PostLines(md, s.movements, cmd, now, begun, cmd.lines);
    var books :- Settle(s.ledger, s.payments, cmd, now, drafted);
    Record(s, books, cmd.actor, "sale.posted", cmd.key, cmd.Claim(), cmd.Hash(), None, now)
  }

  // Reversing a sale.

  /** Copies of rows under fresh identifiers; a taken identifier fails. */
  function Mirror<T>(existing: seq<T>, rows: seq<T>, ids: seq<string>, id: T -> string,
                     copy: (T, string) -> T): Result<(seq<T>, seq<string>)>
  {
    if rows == [] then Ok(([], ids)) else
    var (copies, rest) :- Mirror(existing, rows[..|rows| - 1], ids, id, copy);
    var (rowId, left) :- NextId(rest);
    :- Need(!HasId(existing + copies, id, rowId), Duplicate);
    Ok((copies + [copy(rows[|rows| - 1], rowId)], left))
  }

  function RelabelLines(lines: seq<Line>, ids: seq<string>): Result<(seq<Line>, seq<string>)> {
    if |ids| < |lines| then Err(IdsExhausted)
    else Ok((seq(|lines|, i requires 0 <= i < |lines| => lines[i].(id := ids[i])), ids[|lines|..]))
  }

  function ReverseMovement(reversalId: string, now: int): (Movement, string) -> Movement {
    (m: Movement, id: string) =>
      m.(id := id, source := FromReversal, sourceId := reversalId, quantity := Negate(m.quantity), occurredAt := now)
  }

  function ReverseEntry(reversalId: string, now: int): (LedgerEntry, string) -> LedgerEntry {
    (e: LedgerEntry, id: string) =>
      e.(id := id, source := FromReversal, sourceId := reversalId, amount := Negate(e.amount), occurredAt := now)
  }

  function ReversePayment(reversalId: string, now: int): (Payment, string) -> Payment {
    (p: Payment, id: string) => p.(id := id, saleId := reversalId, amount := Negate(p.amount), occurredAt := now)
  }

  /** The rows a reversal reads about the original sale. */
  datatype Origin = Origin(sale: Sale, movements: seq<Movement>, journals: seq<Journal>,
                           ledger: seq<LedgerEntry>, payments: seq<Payment>)

  function ReadMovements(b: Backend, s: State, scope: Scope, id: string): seq<Movement> {
    Rows(b, Filter(s.movements, MovedBy(scope.Company(), FromSale, id)), MoveId())
  }

  function ReadJournals(s: State, scope: Scope, id: string): seq<Journal> {
    Filter(s.journals, JournaledBy(scope.Company(), FromSale, id))
  }

  function ReadLedger(b: Backend, s: State, scope: Scope, id: string): seq<LedgerEntry> {
    Rows(b, Filter(s.ledger, EnteredBy(scope.Company(), FromSale, id)), EntryId())
  }

  function ReadPayments(b: Backend, s: State, scope: Scope, id: string): seq<Payment> {
    Rows(b, Filter(s.payments, PaidFor(scope.Company(), id)), PayId())
  }

  function ReversalOf(original: Sale, cmd: ReverseCommand, now: int, id: string, lines: seq<Line>): Sale {
    original.(id := id, recordType := ReversalRecord, status := Posted, reversalOf := original.id,
              reversalReason := TrimSpace(cmd.reason), createdBy := cmd.actor,
              correlationId := if cmd.correlationId != "" then cmd.correlationId else id,
              createdAt := now, reversedAt := None, lines := lines)
  }

  /** The checks on the sale itself, and the reversal record with its lines. */
  function OpenReversal(md: Master, cmd: ReverseCommand, now: int, original: Sale,
                        ids: seq<string>): Result<(Sale, seq<string>)>
  {
    var open := PeriodOpen(md.periods, cmd.scope.Company(), now);
    :- Need(open, FiscalPeriodClosed);
    :- Need(original.recordType == SaleRecord && original.status == Posted, AlreadyReversed);
    var (id, rest) :- NextId(ids);
    var (lines, left) :- RelabelLines(original.lines, rest);
    Ok((ReversalOf(original, cmd, now, id, lines), left))
  }

  function MirrorBooks(s: State, origin: Origin, reversal: Sale, now: int, ids: seq<string>): Result<Books> {
    if origin.movements == [] then Err(NotFound) else
    var (movements, ids1) :- Mirror(s.movements, origin.movements, ids, MoveId(), ReverseMovement(reversal.id, now));
    :- Need(origin.journals != [], NotFound);
    var (journalId, ids2) :- NextId(ids1);
    var journal := Finance.Reverse(origin.journals[0], journalId, FromReversal, reversal.id, now);
    :- Need(Finance.Validates(journal), UnbalancedJournal);
    var (ledger, ids3) :- Mirror(s.ledger, origin.ledger, ids2, EntryId(), ReverseEntry(reversal.id, now));
    var (payments, ids4) :- Mirror(s.payments, origin.payments, ids3, PayId(), ReversePayment(reversal.id, now));
    Ok(Books(ids4, reversal, movements, ledger, payments, journal))
  }

  function BuildReversal(b: Backend, md: Master, s: State, cmd: ReverseCommand, now: int,
                         ids: seq<string>): Result<Packet>
  {
    var original :- FindSale(b, s, cmd.scope, cmd.saleId);
    var (reversal, rest) :- OpenReversal(md, cmd, now, original, ids);
    var origin := Origin(original, ReadMovements(b, s, cmd.scope, original.id), ReadJournals(s, cmd.scope, original.id),
                         ReadLedger(b, s, cmd.scope, original.id), ReadPayments(b, s, cmd.scope, original.id));
    var books :- MirrorBooks(s, origin, reversal, now, rest);
    Record(s, books, cmd.actor, "sale.reversed", original.id, cmd.Claim(), cmd.Hash(),
           Some(cmd.scope.Entity(original.id)), now)
  }

  // Transactions and runs.

  datatype Outcome = Failed(error: Error) | Replayed(sale: Sale) | Accepted(packet: Packet) {
    function Reply(): Result<Sale> {
      match this
      case Failed(e) => Err(e)
      case Replayed(sale) => Ok(sale)
      case Accepted(p) => Ok(p.books.sale)
    }
  }

  function Conclude(b: Backend, s: State, admission: Admission, scope: Scope, built: Result<Packet>): Outcome {
    match admission
    case Rejected(e) => Failed(e)
    case Replay(id) => (match FindSale(b, s, scope, id) case Ok(sale) => Replayed(sale) case Err(e) => Failed(e))
    case Acquired => (match built case Ok(p) => Accepted(p) case Err(e) => Failed(e))
  }

  function Complete(b: Backend, md: Master, s: State, command: CompleteCommand, now: int, ids: seq<string>): Outcome {
    var cmd := command.Normalized();
    Conclude(b, s, AdmitComplete(md, s.claims, cmd), cmd.scope, BuildSale(md, s, cmd, now, ids))
  }

  function Reverse(b: Backend, md: Master, s: State, cmd: ReverseCommand, now: int, ids: seq<string>): Outcome {
    Conclude(b, s, AdmitReverse(md, s.claims, cmd), cmd.scope, BuildReversal(b, md, s, cmd, now, ids))
  }

  datatype Op =
    | CompleteOp(complete: CompleteCommand, now: int, ids: seq<string>)
    | ReverseOp(reverse: ReverseCommand, now: int, ids: seq<string>)
  {
    /** The idempotency key the operation is submitted under. */
    function Claim(): ClaimId {
      match this
      case CompleteOp(cmd, _, _) => cmd.Claim()
      case ReverseOp(cmd, _, _) => cmd.Claim()
    }
    function Hash(): Hash {
      match this
      case CompleteOp(cmd, _, _) => cmd.Normalized().Hash()
      case ReverseOp(cmd, _, _) => cmd.Hash()
    }
  }

  /** enforce_balanced_journal adds up in bigint. */
  predicate FitsBigint(j: Journal) {
    Sum(j.entries, Finance.Debits()) <= MAX64 && Sum(j.entries, Finance.Credits()) <= MAX64
  }

  /** PostgreSQL refuses a journal whose sums leave bigint. */
  function Enforced(b: Backend, outcome: Outcome): Outcome {
    if b == Postgres && outcome.Accepted? && !FitsBigint(outcome.packet.books.journal) then Failed(MoneyOverflow)
    else outcome
  }

  /** One operation, served with the master data of the backend. */
  function Perform(b: Backend, md: Master, s: State, op: Op): Outcome {
    Enforced(b, Serve(b, Presented(b, md), s, op))
  }

  /** One operation on master data as the lookups examine it. */
  function Serve(b: Backend, md: Master, s: State, op: Op): Outcome {
    match op
    case CompleteOp(cmd, now, ids) => Complete(b, md, s, cmd, now, ids)
    case ReverseOp(cmd, now, ids) => Reverse(b, md, s, cmd, now, ids)
  }

  function After(s: State, outcome: Outcome): State {
    if outcome.Accepted? then Apply(s, outcome.packet) else s
  }

  function Run(b: Backend, md: Master, s: State, ops: seq<Op>): State {
    if ops == [] then s else
    var before := Run(b, md, s, ops[..|ops| - 1]);
    After(before, Perform(b, md, before, ops[|ops| - 1]))
  }

  function Initial(seeds: seq<Movement>): State {
    State(map[], seeds, [], [], [], [], [], map[])
  }
}
