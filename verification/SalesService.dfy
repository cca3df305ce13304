/** Complete and Reverse as they run over the in-memory store. */
module SalesService {
  import opened Basics
  import opened Model
  import opened Money
  import opened Posting
  import opened FlatKeys
  import opened MemoryStore
  import opened Ledgers
  import opened Runs
  import Finance
  import Sums

  // A failing step fails the rest of the loop.

  lemma {:induction false} LinesFail(md: Master, committed: seq<Movement>, cmd: CompleteCommand, now: int, d: Draft,
                                     lines: seq<CommandLine>, n: nat)
    requires n <= |lines| && PostLines(md, committed, cmd, now, d, lines[..n]).Err?
    ensures PostLines(md, committed, cmd, now, d, lines) == PostLines(md, committed, cmd, now, d, lines[..n])
    decreases |lines|
  {
    if n < |lines| {
      assert lines[..|lines| - 1][..n] == lines[..n];
      LinesFail(md, committed, cmd, now, d, lines[..|lines| - 1], n);
    } else {
      assert lines[..n] == lines;
    }
  }

  lemma {:induction false} MirrorFails<T>(existing: seq<T>, rows: seq<T>, ids: seq<string>, id: T -> string,
                                          copy: (T, string) -> T, n: nat)
    requires n <= |rows| && Mirror(existing, rows[..n], ids, id, copy).Err?
    ensures Mirror(existing, rows, ids, id, copy) == Mirror(existing, rows[..n], ids, id, copy)
    decreases |rows|
  {
    if n < |rows| {
      assert rows[..|rows| - 1][..n] == rows[..n];
      MirrorFails(existing, rows[..|rows| - 1], ids, id, copy, n);
    } else {
      assert rows[..n] == rows;
    }
  }

  // Completing.

  method BeginSale(tx: MemState, cmd: CompleteCommand, now: int, ids: seq<string>) returns (r: Result<Draft>)
    requires tx.Valid() && CleanScope(cmd.scope)
    ensures r == Open(tx.master, cmd, now, ids)
  {
    var customer :- tx.Customer(cmd.scope, cmd.customerId);
    if !customer.active {
      return Err(CustomerInactive);
    }
    if cmd.kind == Credit {
      if customer.general {
        return Err(GeneralCustomerCredit);
      }
      if !customer.creditEnabled {
        return Err(CustomerCreditDisabled);
      }
    }
    var open := tx.FiscalPeriodOpen(cmd.scope, now);
    if !open {
      return Err(FiscalPeriodClosed);
    }
    var posting :- tx.SalesPostingConfig(cmd.scope);
    if posting.receivable == "" || posting.taxPayable == "" {
      return Err(PostingConfigMissing);
    }
    var cashAccount := "";
    if cmd.kind == Cash {
      cashAccount := if cmd.paymentMethod in posting.cash then posting.cash[cmd.paymentMethod] else "";
      if cashAccount == "" {
        return Err(PostingConfigMissing);
      }
    }
    if ids == [] {
      return Err(IdsExhausted);
    }
    var sale := Sale(ids[0], cmd.scope, SaleRecord, cmd.kind, Posted, customer.id, "", 0, 0, 0, 0,
                     cmd.paymentMethod, "", "", cmd.actor,
                     if cmd.correlationId != "" then cmd.correlationId else ids[0], now, None, []);
    return Ok(Draft(ids[1..], sale, [], [], customer, posting, cashAccount));
  }

  /** Price, tax and cost of one line. */
  method PriceLine(tx: MemState, cmd: CompleteCommand, now: int, product: Product, quantity: int64)
    returns (r: Result<Amounts>)
    requires tx.Valid()
    ensures r == LineAmounts(tx.master, cmd, now, product, quantity)
  {
    var rate :- tx.TaxRateBasisPoints(cmd.scope, product.taxCode, now);
    var subtotal :- CheckedMultiply(product.listPrice, quantity);
    var tax :- TaxAmount(subtotal, rate);
    var total :- CheckedAdd(subtotal, tax);
    var cogs :- CheckedMultiply(product.standardCost, quantity);
    return Ok(Amounts(subtotal, tax, total, cogs));
  }

  /** One round of the loop over the requested lines. */
  method AddLine(tx: MemState, cmd: CompleteCommand, now: int, d: Draft, requested: CommandLine,
                 ghost committed: seq<Movement>) returns (r: Result<Draft>)
    requires tx.Valid() && CleanScope(cmd.scope) && tx.view.movements == committed + d.movements
    modifies tx
    ensures tx.Valid() && tx.master == old(tx.master)
    ensures r == PostLine(tx.master, committed, cmd, now, d, requested)
    ensures r.Ok? ==> tx.view == old(tx.view).(movements := committed + r.value.movements)
    ensures r.Ok? ==> r.value.sale.kind == d.sale.kind && r.value.sale.scope == d.sale.scope
  {
    hide tx.Valid, HasId, Available, LineAmounts;
    var product :- tx.Product(cmd.scope, requested.productId);
    if !product.active {
      return Err(ProductInactive);
    }
    if product.listPrice <= 0 || product.standardCost < 0 || product.revenueAccount == ""
       || product.cogsAccount == "" || product.inventoryAccount == "" {
      return Err(PostingConfigMissing);
    }
    var sale, ids, entries := d.sale, d.ids, d.entries;
    if sale.currency == "" {
      sale := sale.(currency := product.currency);
    } else if sale.currency != product.currency {
      return Err(InvalidCommand);
    }
    var available := tx.AvailableStock(cmd.scope, product.id);
    if available < requested.quantity {
      return Err(InsufficientStock);
    }
    var a :- PriceLine(tx, cmd, now, product, requested.quantity);
    if ids == [] {
      return Err(IdsExhausted);
    }
    var line := Line(ids[0], product.id, requested.quantity, product.listPrice, a.subtotal, a.tax, a.total,
                     product.standardCost, a.cogs);
    ids := ids[1..];
    sale :- AddTotals(sale.(lines := sale.lines + [line]), a);
    if ids == [] {
      return Err(IdsExhausted);
    }
    var movement := Movement(ids[0], cmd.scope, product.id, FromSale, sale.id, Negate(requested.quantity), now);
    ids := ids[1..];
    :- tx.AppendStockMovement(movement);
    entries := entries + [JournalEntry(product.revenueAccount, 0, a.subtotal, "Product revenue")];
    if a.cogs > 0 {
      entries := entries + [JournalEntry(product.cogsAccount, a.cogs, 0, "Cost of goods sold"),
                            JournalEntry(product.inventoryAccount, 0, a.cogs, "Inventory issued")];
    }
    assert entries == d.entries + LineEntries(product, a.subtotal, a.cogs);
    return Ok(d.(ids := ids, sale := sale, movements := d.movements + [movement], entries := entries));
  }

  method AddLines(tx: MemState, cmd: CompleteCommand, now: int, begun: Draft) returns (r: Result<Draft>)
    requires tx.Valid() && CleanScope(cmd.scope) && begun.movements == []
    modifies tx
    ensures tx.Valid() && tx.master == old(tx.master)
    ensures r == PostLines(tx.master, old(tx.view).movements, cmd, now, begun, cmd.lines)
    ensures r.Ok? ==> tx.view == old(tx.view).(movements := old(tx.view).movements + r.value.movements)
    ensures r.Ok? ==> r.value.sale.kind == begun.sale.kind && r.value.sale.scope == begun.sale.scope
  {
    hide PostLine, tx.Valid;
    ghost var md, before := tx.master, tx.view;
    var d := begun;
    for i := 0 to |cmd.lines|
      invariant tx.Valid() && tx.master == md
      invariant PostLines(md, before.movements, cmd, now, begun, cmd.lines[..i]) == Ok(d)
      invariant tx.view == before.(movements := before.movements + d.movements)
      invariant d.sale.kind == begun.sale.kind && d.sale.scope == begun.sale.scope
    {
      assert cmd.lines[..i + 1][..i] == cmd.lines[..i];
      var added := AddLine(tx, cmd, now, d, cmd.lines[i], before.movements);
      if added.Err? {
        LinesFail(md, before.movements, cmd, now, begun, cmd.lines, i + 1);
        return Err(added.error);
      }
      d := added.value;
    }
    assert cmd.lines[..|cmd.lines|] == cmd.lines;
    return Ok(d);
  }

  /** The credit check, the customer's row and the journal. */
  method SettleSale(tx: MemState, cmd: CompleteCommand, now: int, d: Draft) returns (r: Result<Books>)
    requires tx.Valid() && d.sale.kind == cmd.kind
    modifies tx
    ensures tx.Valid() && tx.master == old(tx.master)
    ensures r == Settle(old(tx.view).ledger, old(tx.view).payments, cmd, now, d)
    ensures r.Ok? ==> tx.view == old(tx.view).(ledger := old(tx.view).ledger + r.value.ledger,
                                               payments := old(tx.view).payments + r.value.payments)
  {
    hide tx.Valid, HasId, Exposure, Finance.Validates;
    if |d.sale.currency| != 3 {
      return Err(InvalidCommand);
    }
    var company, sale, entries, ids := cmd.scope.Company(), d.sale, d.entries, d.ids;
    var owed: seq<LedgerEntry>, paid: seq<Payment> := [], [];
    if cmd.kind == Credit {
      var exposure := tx.CreditExposure(cmd.scope, d.customer.id);
      var newExposure :- CheckedAdd(exposure, sale.total);
      if newExposure > d.customer.creditLimit {
        return Err(CreditLimitExceeded);
      }
      entries := [JournalEntry(d.posting.receivable, sale.total, 0, "Customer receivable")] + entries;
      if ids == [] {
        return Err(IdsExhausted);
      }
      owed := [LedgerEntry(ids[0], company, d.customer.id, FromSale, sale.id, sale.total, sale.currency, now)];
      :- tx.AppendCustomerLedgerEntry(owed[0]);
    } else {
      entries := [JournalEntry(d.cashAccount, sale.total, 0, "Sale payment")] + entries;
      if ids == [] {
        return Err(IdsExhausted);
      }
      paid := [Payment(ids[0], company, sale.id, d.cashAccount, cmd.paymentMethod, sale.total, sale.currency, now)];
      :- tx.CreatePayment(paid[0]);
    }
    if sale.tax > 0 {
      entries := entries + [JournalEntry(d.posting.taxPayable, 0, sale.tax, "Output tax")];
    }
    assert entries == [SettleEntry(d)] + d.entries + TaxEntries(d.posting.taxPayable, sale.tax);
    if |ids| == 1 {
      return Err(IdsExhausted);
    }
    var journal := Journal(ids[1], company, FromSale, sale.id, sale.currency, now, entries);
    :- Finance.Validate(journal);
    return Ok(Books(ids[2..], sale, d.movements, owed, paid, journal));
  }

  // Storing.

  method RecordEvents(tx: MemState, sale: Sale, actor: string, eventType: string, causation: string, now: int,
                      ids: seq<string>) returns (check: Check)
    requires tx.Valid()
    modifies tx
    ensures tx.Valid() && tx.master == old(tx.master)
    ensures check == if ids == [] then Fail(IdsExhausted)
                     else if HasId(old(tx.view).audits, AuditId(), ids[0]) then Fail(Duplicate)
                     else if |ids| == 1 then Fail(IdsExhausted)
                     else Need(!HasId(old(tx.view).outbox, EventId(), ids[1]), Duplicate)
    ensures check.Pass? ==>
      var s := old(tx.view);
      tx.view == s.(
        audits := s.audits + [AuditEvent(ids[0], sale.scope.Company(), actor, eventType, "sale", sale.id,
                                         sale.correlationId, causation, sale, now)],
        outbox := s.outbox + [OutboxEvent(ids[1], sale.scope.Company(), "sale", sale.id, eventType, 1,
                                          sale.correlationId, causation, sale, now)])
  {
    hide tx.Valid, HasId;
    if ids == [] {
      return Fail(IdsExhausted);
    }
    check := tx.AppendAuditEvent(AuditEvent(ids[0], sale.scope.Company(), actor, eventType, "sale", sale.id,
                                            sale.correlationId, causation, sale, now));
    if check.Fail? {
      return;
    }
    if |ids| == 1 {
      return Fail(IdsExhausted);
    }
    check := tx.AppendOutboxEvent(OutboxEvent(ids[1], sale.scope.Company(), "sale", sale.id, eventType, 1,
                                              sale.correlationId, causation, sale, now));
  }

  /** The record, its journal and the mark on the sale it reverses. */
  method StoreSale(tx: MemState, books: Books, scope: Scope, reversed: Option<string>, now: int) returns (check: Check)
    requires tx.Valid() && Clean(books.sale.Key()) && CleanScope(scope)
    requires reversed.Some? ==> scope.Entity(reversed.value) in tx.view.sales
    modifies tx
    ensures tx.Valid() && tx.master == old(tx.master)
    ensures var s, reverses := old(tx.view), Target(scope, reversed);
      && check == Storable(s, books, reverses)
      && (check.Pass? ==>
        tx.view == s.(sales := MarkReversed(s.sales, reverses, now)[books.sale.Key() := books.sale],
                      journals := s.journals + [books.journal]))
  {
    hide tx.Valid, HasId, Finance.Validates, Sums.Filter;
    check := tx.CreateSale(books.sale);
    if check.Fail? {
      return;
    }
    check := tx.CreateJournal(books.journal);
    if check.Fail? || reversed.None? {
      return;
    }
    check := tx.MarkSaleReversed(scope, reversed.value, now);
  }

  function Target(scope: Scope, reversed: Option<string>): Option<EntityId> {
    if reversed.Some? then Some(scope.Entity(reversed.value)) else None
  }

  function Storable(s: State, books: Books, reverses: Option<EntityId>): Check {
    var j := books.journal;
    if books.sale.Key() in s.sales then Fail(Duplicate)
    else if !Finance.Validates(j) then Fail(UnbalancedJournal)
    else if HasId(s.journals, JournalId(), j.id)
      || Sums.Filter(s.journals, JournaledBy(j.company, j.source, j.sourceId)) != [] then Fail(Duplicate)
    else if reverses.Some? && reverses.value !in s.sales then Fail(NotFound)
    else Need(reverses.Some? ==> s.sales[reverses.value].status == Posted, AlreadyReversed)
  }

  /** What a transaction has written when only the record itself is missing. */
  ghost function Staged(s: State, books: Books, claim: ClaimId, hash: Hash): State {
    s.(movements := s.movements + books.movements, ledger := s.ledger + books.ledger,
       payments := s.payments + books.payments, claims := s.claims[claim := Claim(hash, "")])
  }

  /** The record with its events, and the answer kept under the idempotency key. */
  method RecordSale(tx: MemState, books: Books, actor: string, eventType: string, causation: string, claim: ClaimId,
                    scope: Scope, reversed: Option<string>, now: int, ghost hash: Hash, ghost before: State)
      returns (check: Check)
    requires tx.Valid() && Clean(books.sale.Key()) && CleanScope(scope) && CleanClaim(claim)
    requires tx.view == Staged(before, books, claim, hash)
    requires reversed.Some? ==> scope.Entity(reversed.value) in tx.view.sales
    modifies tx
    ensures tx.Valid() && tx.master == old(tx.master)
    ensures match Record(before, books, actor, eventType, causation, claim, hash, Target(scope, reversed), now)
      case Ok(p) => check == Pass && tx.view == Apply(before, p)
      case Err(e) => check == Fail(e)
  {
    hide tx.Valid, HasId, Finance.Validates, Sums.Filter, MarkReversed;
    check := StoreSale(tx, books, scope, reversed, now);
    if check.Fail? {
      return;
    }
    check := RecordEvents(tx, books.sale, actor, eventType, causation, now, books.ids);
    if check.Fail? {
      return;
    }
    check := tx.CompleteIdempotency(claim, books.sale.id);
  }

  /** Authorisation and the idempotency claim, which both transactions start with. */
  method Enter(tx: MemState, p: Permission, claim: ClaimId, hash: Hash, ghost check: Check) returns (r: Admission)
    requires tx.Valid() && CleanPermission(p) && CleanClaim(claim) && check.Pass?
    modifies tx
    ensures tx.Valid() && tx.master == old(tx.master)
    ensures r == Admit(tx.master, old(tx.view).claims, check, p, claim, hash)
    ensures if r.Acquired? then Claiming(tx, old(tx.view), claim, hash) else tx.view == old(tx.view)
  {
    hide tx.Valid;
    var authorized := tx.Authorize(p.scope, p.actor, p.code);
    if !authorized {
      return Rejected(Forbidden);
    }
    r := tx.ClaimIdempotency(claim, hash);
  }

  /** A transaction that has just claimed its key. */
  ghost predicate Claiming(tx: MemState, s: State, claim: ClaimId, hash: Hash)
    reads tx
  {
    tx.view == s.(claims := s.claims[claim := Claim(hash, "")])
  }

  /** What the transaction leaves when the posting succeeds or fails. */
  ghost predicate Posts(tx: MemState, s: State, built: Result<Packet>, r: Result<Sale>)
    reads tx
  {
    match built
    case Ok(p) => r == Ok(p.books.sale) && tx.view == Apply(s, p)
    case Err(e) => r == Err(e)
  }

  /** The body of the transaction of Complete once the key is claimed. */
  method PostSale(tx: MemState, cmd: CompleteCommand, now: int, ids: seq<string>, ghost s: State)
    returns (r: Result<Sale>)
    requires tx.Valid() && CleanScope(cmd.scope) && Claiming(tx, s, cmd.Claim(), cmd.Hash())
    modifies tx
    ensures tx.Valid() && tx.master == old(tx.master)
    ensures Posts(tx, s, BuildSale(tx.master, s, cmd, now, ids), r)
  {
    hide tx.Valid, Open, PostLines, Settle, Record, Apply;
    var begun :- BeginSale(tx, cmd, now, ids);
    OpenShape(tx.master, cmd, now, ids);
    var drafted :- AddLines(tx, cmd, now, begun);
    var books :- SettleSale(tx, cmd, now, drafted);
    SettleShape(s, cmd, now, drafted);
    RecordKeeps(s, books, cmd.actor, "sale.posted", cmd.key, cmd.Claim(), cmd.Hash(), None, now);
    :- RecordSale(tx, books, cmd.actor, "sale.posted", cmd.key, cmd.Claim(), cmd.scope, None, now, cmd.Hash(), s);
    return Ok(books.sale);
  }

  /** The body of the transaction of Complete. */
  method CompleteIn(tx: MemState, cmd: CompleteCommand, now: int, ids: seq<string>) returns (r: Result<Sale>)
    requires tx.Valid() && CleanScope(cmd.scope) && NulFree(cmd.actor) && cmd.Validate().Pass?
    modifies tx
    ensures tx.Valid() && tx.master == old(tx.master)
    ensures var s, md := old(tx.view), tx.master;
      var outcome := Conclude(Memory, s, AdmitComplete(md, s.claims, cmd), cmd.scope, BuildSale(md, s, cmd, now, ids));
      r == outcome.Reply() && (r.Ok? ==> tx.view == After(s, outcome))
  {
    hide tx.Valid, BuildSale, Apply, cmd.Validate, Admit, FindSale;
    ghost var s := tx.view;
    var admission := Enter(tx, Permission(cmd.scope, cmd.actor, "sales.complete"), cmd.Claim(), cmd.Hash(),
                           cmd.Validate());
    match admission {
      case Rejected(e) => return Err(e);
      case Replay(id) => r := tx.Sale(cmd.scope, id);
      case Acquired => r := PostSale(tx, cmd, now, ids, s);
    }
  }

  lemma RecordKeeps(s: State, books: Books, actor: string, eventType: string, causation: string, claim: ClaimId,
                    hash: Hash, reverses: Option<EntityId>, now: int)
    ensures var r := Record(s, books, actor, eventType, causation, claim, hash, reverses, now);
      r.Ok? ==> r.value.books == books
  {
    hide HasId, Finance.Validates, Sums.Filter;
  }

  lemma OpenShape(md: Master, cmd: CompleteCommand, now: int, ids: seq<string>)
    requires Open(md, cmd, now, ids).Ok?
    ensures var d := Open(md, cmd, now, ids).value;
      d.movements == [] && d.sale.kind == cmd.kind && d.sale.scope == cmd.scope
  {
  }

  lemma SettleShape(s: State, cmd: CompleteCommand, now: int, d: Draft)
    requires Settle(s.ledger, s.payments, cmd, now, d).Ok?
    ensures var b := Settle(s.ledger, s.payments, cmd, now, d).value;
      b.sale == d.sale && b.movements == d.movements
  {
  }

  // Reversing.

  method BeginReversal(tx: MemState, cmd: ReverseCommand, now: int, original: Sale, ids: seq<string>)
    returns (r: Result<(Sale, seq<string>)>)
    requires tx.Valid()
    ensures r == OpenReversal(tx.master, cmd, now, original, ids)
  {
    hide tx.Valid;
    var open := tx.FiscalPeriodOpen(cmd.scope, now);
    if !open {
      return Err(FiscalPeriodClosed);
    }
    if original.recordType != SaleRecord || original.status == Reversed {
      return Err(AlreadyReversed);
    }
    if ids == [] {
      return Err(IdsExhausted);
    }
    var left := ids[1..];
    var lines: seq<Line> := [];
    for i := 0 to |original.lines|
      invariant i <= |ids| - 1 && left == ids[1..][i..]
      invariant lines == seq(i, k requires 0 <= k < i => original.lines[k].(id := ids[1..][k]))
    {
      if left == [] {
        return Err(IdsExhausted);
      }
      lines := lines + [original.lines[i].(id := left[0])];
      left := left[1..];
    }
    return Ok((ReversalOf(original, cmd, now, ids[0], lines), left));
  }

  method MirrorMovements(tx: MemState, rows: seq<Movement>, ids: seq<string>, reversalId: string, now: int)
    returns (r: Result<(seq<Movement>, seq<string>)>)
    requires tx.Valid()
    modifies tx
    ensures tx.Valid() && tx.master == old(tx.master)
    ensures r == Mirror(old(tx.view).movements, rows, ids, MoveId(), ReverseMovement(reversalId, now))
    ensures r.Ok? ==> tx.view == old(tx.view).(movements := old(tx.view).movements + r.value.0)
  {
    hide tx.Valid, HasId;
    ghost var s, md := tx.view, tx.master;
    var copies: seq<Movement>, left := [], ids;
    for i := 0 to |rows|
      invariant tx.Valid() && tx.master == md
      invariant Mirror(s.movements, rows[..i], ids, MoveId(), ReverseMovement(reversalId, now)) == Ok((copies, left))
      invariant tx.view == s.(movements := s.movements + copies)
    {
      assert rows[..i + 1][..i] == rows[..i];
      MirrorStops(s.movements, rows, ids, MoveId(), ReverseMovement(reversalId, now), i + 1);
      if left == [] {
        return Err(IdsExhausted);
      }
      var copy := rows[i].(id := left[0], source := FromReversal, sourceId := reversalId,
                           quantity := Negate(rows[i].quantity), occurredAt := now);
      :- tx.AppendStockMovement(copy);
      copies, left := copies + [copy], left[1..];
    }
    assert rows[..|rows|] == rows;
    return Ok((copies, left));
  }

  method MirrorLedger(tx: MemState, rows: seq<LedgerEntry>, ids: seq<string>, reversalId: string, now: int)
    returns (r: Result<(seq<LedgerEntry>, seq<string>)>)
    requires tx.Valid()
    modifies tx
    ensures tx.Valid() && tx.master == old(tx.master)
    ensures r == Mirror(old(tx.view).ledger, rows, ids, EntryId(), ReverseEntry(reversalId, now))
    ensures r.Ok? ==> tx.view == old(tx.view).(ledger := old(tx.view).ledger + r.value.0)
  {
    hide tx.Valid, HasId;
    ghost var s, md := tx.view, tx.master;
    var copies: seq<LedgerEntry>, left := [], ids;
    for i := 0 to |rows|
      invariant tx.Valid() && tx.master == md
      invariant Mirror(s.ledger, rows[..i], ids, EntryId(), ReverseEntry(reversalId, now)) == Ok((copies, left))
      invariant tx.view == s.(ledger := s.ledger + copies)
    {
      assert rows[..i + 1][..i] == rows[..i];
      MirrorStops(s.ledger, rows, ids, EntryId(), ReverseEntry(reversalId, now), i + 1);
      if left == [] {
        return Err(IdsExhausted);
      }
      var copy := rows[i].(id := left[0], source := FromReversal, sourceId := reversalId,
                           amount := Negate(rows[i].amount), occurredAt := now);
      :- tx.AppendCustomerLedgerEntry(copy);
      copies, left := copies + [copy], left[1..];
    }
    assert rows[..|rows|] == rows;
    return Ok((copies, left));
  }

  method MirrorPayments(tx: MemState, rows: seq<Payment>, ids: seq<string>, reversalId: string, now: int)
    returns (r: Result<(seq<Payment>, seq<string>)>)
    requires tx.Valid()
    modifies tx
    ensures tx.Valid() && tx.master == old(tx.master)
    ensures r == Mirror(old(tx.view).payments, rows, ids, PayId(), ReversePayment(reversalId, now))
    ensures r.Ok? ==> tx.view == old(tx.view).(payments := old(tx.view).payments + r.value.0)
  {
    hide tx.Valid, HasId;
    ghost var s, md := tx.view, tx.master;
    var copies: seq<Payment>, left := [], ids;
    for i := 0 to |rows|
      invariant tx.Valid() && tx.master == md
      invariant Mirror(s.payments, rows[..i], ids, PayId(), ReversePayment(reversalId, now)) == Ok((copies, left))
      invariant tx.view == s.(payments := s.payments + copies)
    {
      assert rows[..i + 1][..i] == rows[..i];
      MirrorStops(s.payments, rows, ids, PayId(), ReversePayment(reversalId, now), i + 1);
      if left == [] {
        return Err(IdsExhausted);
      }
      var copy := rows[i].(id := left[0], saleId := reversalId, amount := Negate(rows[i].amount), occurredAt := now);
      :- tx.CreatePayment(copy);
      copies, left := copies + [copy], left[1..];
    }
    assert rows[..|rows|] == rows;
    return Ok((copies, left));
  }

  lemma MirrorStops<T>(existing: seq<T>, rows: seq<T>, ids: seq<string>, id: T -> string, copy: (T, string) -> T,
                       n: nat)
    requires n <= |rows|
    ensures Mirror(existing, rows[..n], ids, id, copy).Err? ==>
      Mirror(existing, rows, ids, id, copy) == Mirror(existing, rows[..n], ids, id, copy)
  {
    if Mirror(existing, rows[..n], ids, id, copy).Err? {
      MirrorFails(existing, rows, ids, id, copy, n);
    }
  }

  /** What the store holds about the sale being reversed. */
  ghost function Origins(s: State, scope: Scope, original: Sale): Origin {
    Origin(original, ReadMovements(Memory, s, scope, original.id), ReadJournals(s, scope, original.id),
           ReadLedger(Memory, s, scope, original.id), ReadPayments(Memory, s, scope, original.id))
  }

  /** The rows that cancel the original, table by table. */
  method MirrorSale(tx: MemState, scope: Scope, original: Sale, reversal: Sale, now: int, ids: seq<string>,
                    ghost s: State, ghost claim: ClaimId, ghost hash: Hash) returns (r: Result<Books>)
    requires tx.Valid() && Claiming(tx, s, claim, hash)
    modifies tx
    ensures tx.Valid() && tx.master == old(tx.master)
    ensures r == MirrorBooks(s, Origins(s, scope, original), reversal, now, ids)
    ensures r.Ok? ==> r.value.sale == reversal && tx.view == Staged(s, r.value, claim, hash)
  {
    hide tx.Valid, HasId, Finance.Validates, Finance.Reverse, Mirror, Sums.Filter;
    var movements := tx.StockMovementsBySource(scope, original.id);
    if movements == [] {
      return Err(NotFound);
    }
    var moved :- MirrorMovements(tx, movements, ids, reversal.id, now);
    var origin :- tx.JournalBySource(scope, original.id);
    if moved.1 == [] {
      return Err(IdsExhausted);
    }
    var journal := Finance.ReverseJournal(origin, moved.1[0], FromReversal, reversal.id, now);
    :- Finance.Validate(journal);
    var entries := tx.CustomerLedgerBySource(scope, original.id);
    var owed :- MirrorLedger(tx, entries, moved.1[1..], reversal.id, now);
    var payments := tx.PaymentsBySale(scope, original.id);
    var paid :- MirrorPayments(tx, payments, owed.1, reversal.id, now);
    return Ok(Books(paid.1, reversal, moved.0, owed.0, paid.0, journal));
  }

  /** The body of the transaction of Reverse once the key is claimed. */
  method PostReversal(tx: MemState, cmd: ReverseCommand, now: int, ids: seq<string>, ghost s: State)
    returns (r: Result<Sale>)
    requires tx.Valid() && CleanScope(cmd.scope) && Claiming(tx, s, cmd.Claim(), cmd.Hash()) && Keyed(s)
    modifies tx
    ensures tx.Valid() && tx.master == old(tx.master)
    ensures Posts(tx, s, BuildReversal(Memory, tx.master, s, cmd, now, ids), r)
  {
    hide tx.Valid, OpenReversal, MirrorBooks, Record, Apply, ReadMovements, ReadJournals, ReadLedger, ReadPayments;
    var original :- tx.Sale(cmd.scope, cmd.saleId);
    assert original.Key() == cmd.scope.Entity(cmd.saleId);
    hide Keyed;
    var begun :- BeginReversal(tx, cmd, now, original, ids);
    var (reversal, rest) := begun;
    ReversalShape(tx.master, cmd, now, original, ids);
    var books :- MirrorSale(tx, cmd.scope, original, reversal, now, rest, s, cmd.Claim(), cmd.Hash());
    RecordKeeps(s, books, cmd.actor, "sale.reversed", original.id, cmd.Claim(), cmd.Hash(),
                Some(cmd.scope.Entity(original.id)), now);
    :- RecordSale(tx, books, cmd.actor, "sale.reversed", original.id, cmd.Claim(), cmd.scope, Some(original.id), now,
                  cmd.Hash(), s);
    return Ok(books.sale);
  }

  lemma ReversalShape(md: Master, cmd: ReverseCommand, now: int, original: Sale, ids: seq<string>)
    requires OpenReversal(md, cmd, now, original, ids).Ok?
    ensures OpenReversal(md, cmd, now, original, ids).value.0.scope == original.scope
  {
  }

  /** The body of the transaction of Reverse. */
  method ReverseIn(tx: MemState, cmd: ReverseCommand, now: int, ids: seq<string>) returns (r: Result<Sale>)
    requires tx.Valid() && CleanScope(cmd.scope) && NulFree(cmd.actor) && cmd.Validate().Pass? && Keyed(tx.view)
    modifies tx
    ensures tx.Valid() && tx.master == old(tx.master)
    ensures var s, md := old(tx.view), tx.master;
      var outcome := Conclude(Memory, s, AdmitReverse(md, s.claims, cmd), cmd.scope,
                              BuildReversal(Memory, md, s, cmd, now, ids));
      r == outcome.Reply() && (r.Ok? ==> tx.view == After(s, outcome))
  {
    hide tx.Valid, BuildReversal, Apply, cmd.Validate, Admit, FindSale, Keyed;
    ghost var s := tx.view;
    var admission := Enter(tx, Permission(cmd.scope, cmd.actor, "sales.reverse"), cmd.Claim(), cmd.Hash(),
                           cmd.Validate());
    match admission {
      case Rejected(e) => return Err(e);
      case Replay(id) => r := tx.Sale(cmd.scope, id);
      case Acquired => r := PostReversal(tx, cmd, now, ids, s);
    }
  }

  // The service.

  lemma KeyedAfter(s: State, outcome: Outcome)
    requires Keyed(s)
    ensures Keyed(After(s, outcome))
  {
  }

  /** What a call answers: its context may be cancelled before the work or before the commit. */
  function Answered(check: Check, cancelledBefore: bool, outcome: Outcome, cancelledAfter: bool): Result<Sale> {
    if check.Fail? then Err(check.error)
    else if cancelledBefore then Err(Cancelled)
    else if outcome.Failed? then Err(outcome.error)
    else if cancelledAfter then Err(Cancelled)
    else outcome.Reply()
  }

  /** The books of a store, whatever receipts it was seeded with. */
  ghost predicate InBooks(md: Master, s: State) {
    exists seeds :: SeedsOk(seeds) && GoodBooks(md, seeds, s)
  }

  lemma CallKeepsBooks(md: Master, s: State, op: Op)
    requires md.Valid() && InBooks(md, s)
    ensures InBooks(md, After(s, Perform(Memory, md, s, op)))
  {
    hide GoodBooks, SeedsOk, Perform, After;
    var seeds :| SeedsOk(seeds) && GoodBooks(md, seeds, s);
    BooksStep(Memory, md, seeds, s, op);
  }

  class Service {
    const repository: Store

    constructor (repository: Store)
      ensures this.repository == repository
    {
      this.repository := repository;
    }

    method Complete(command: CompleteCommand, now: int, ids: seq<string>, cancelledBefore: bool, cancelledAfter: bool)
      returns (r: Result<Sale>)
      requires repository.Valid() && CleanScope(command.scope) && NulFree(command.actor)
      modifies repository
      ensures repository.Valid() && repository.state.master == old(repository.state.master)
      ensures var before := old(repository.state.view);
        var outcome := Posting.Complete(Memory, repository.state.master, before, command, now, ids);
        && r == Answered(command.Normalized().Validate(), cancelledBefore, outcome, cancelledAfter)
        && repository.state.view == (if r.Ok? then After(before, outcome) else before)
      ensures r.Err? ==> repository.state == old(repository.state)
      ensures r.Ok? ==> fresh(repository.state)
      ensures repository.state.master.Valid() && old(InBooks(repository.state.master, repository.state.view)) ==>
        InBooks(repository.state.master, repository.state.view)
    {
      hide InBooks, repository.state.Valid, Keyed, BuildSale, Apply;
      var cmd := command.Normalized();
      var check := cmd.Validate();
      if check.Fail? {
        return Err(check.error);
      }
      if cancelledBefore {
        return Err(Cancelled);
      }
      var next := Clone(repository.state);
      r := CompleteIn(next, cmd, now, ids);
      if r.Err? {
        return;
      }
      if cancelledAfter {
        return Err(Cancelled);
      }
      KeyedAfter(repository.state.view,
                 Posting.Complete(Memory, repository.state.master, repository.state.view, command, now, ids));
      if repository.state.master.Valid() && InBooks(repository.state.master, repository.state.view) {
        CallKeepsBooks(repository.state.master, repository.state.view, CompleteOp(command, now, ids));
      }
      repository.state := next;
    }

    method Reverse(cmd: ReverseCommand, now: int, ids: seq<string>, cancelledBefore: bool, cancelledAfter: bool)
      returns (r: Result<Sale>)
      requires repository.Valid() && CleanScope(cmd.scope) && NulFree(cmd.actor)
      modifies repository
      ensures repository.Valid() && repository.state.master == old(repository.state.master)
      ensures var before := old(repository.state.view);
        var outcome := Posting.Reverse(Memory, repository.state.master, before, cmd, now, ids);
        && r == Answered(cmd.Validate(), cancelledBefore, outcome, cancelledAfter)
        && repository.state.view == (if r.Ok? then After(before, outcome) else before)
      ensures r.Err? ==> repository.state == old(repository.state)
      ensures r.Ok? ==> fresh(repository.state)
      ensures repository.state.master.Valid() && old(InBooks(repository.state.master, repository.state.view)) ==>
        InBooks(repository.state.master, repository.state.view)
    {
      hide InBooks, repository.state.Valid, Keyed, BuildReversal, Apply;
      var check := cmd.Validate();
      if check.Fail? {
        return Err(check.error);
      }
      if cancelledBefore {
        return Err(Cancelled);
      }
      var next := Clone(repository.state);
      r := ReverseIn(next, cmd, now, ids);
      if r.Err? {
        return;
      }
      if cancelledAfter {
        return Err(Cancelled);
      }
      KeyedAfter(repository.state.view,
                 Posting.Reverse(Memory, repository.state.master, repository.state.view, cmd, now, ids));
      if repository.state.master.Valid() && InBooks(repository.state.master, repository.state.view) {
        CallKeepsBooks(repository.state.master, repository.state.view, ReverseOp(cmd, now, ids));
      }
      repository.state := next;
    }
  }
}
