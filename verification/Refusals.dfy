/** Who may do what, and how operations are refused: the first requirement that is not met decides. */
module Refusals {
  import opened Basics
  import opened Sums
  import opened Model
  import opened Posting
  import opened Packets
  import opened Stock
  import opened CreditControl
  import opened Runs
  import opened Backends
  import opened Sold
  import opened Accepting
  import opened Returned
  import Lookups
  import Money

  // Permissions.

  /** The one permission an operation needs. */
  function Needed(op: Op): Permission {
    match op
    case CompleteOp(cmd, _, _) => Permission(cmd.scope, cmd.actor, "sales.complete")
    case ReverseOp(cmd, _, _) => Permission(cmd.scope, cmd.actor, "sales.reverse")
  }

  /** The command of the operation is filled in. */
  predicate Submittable(op: Op) {
    match op
    case CompleteOp(cmd, _, _) => Filled(cmd.(paymentMethod := ToUpper(TrimSpace(cmd.paymentMethod))))
    case ReverseOp(cmd, _, _) => FilledIn(cmd)
  }

  /** Without its permission an operation is forbidden, whatever other permissions the actor has. */
  lemma Unauthorised(b: Backend, md: Master, s: State, op: Op)
    requires Submittable(op) && Needed(op) !in md.permissions
    ensures Perform(b, md, s, op) == Failed(Forbidden) && After(s, Perform(b, md, s, op)) == s
  {
    match op
    case CompleteOp(command, now, ids) =>
      FilledExactly(command.Normalized());
      hide Filled, CompleteCommand.Validate, BuildSale, FindSale, FitsBigint;
    case ReverseOp(cmd, now, ids) =>
      hide Blank, BuildReversal, FindSale, FitsBigint;
  }

  /** With it, no other permission matters. */
  lemma OnlyOwnPermission(b: Backend, md: Master, s: State, op: Op)
    ensures Perform(b, md.(permissions := md.permissions * {Needed(op)}), s, op) == Perform(b, md, s, op)
  {
    hide Serve, FitsBigint, Presented;
    var md' := md.(permissions := md.permissions * {Needed(op)});
    PresentedPermissions(b, md, md');
    OnlyOwnServed(b, Presented(b, md), Presented(b, md'), s, op);
  }

  lemma PresentedPermissions(b: Backend, md: Master, md': Master)
    requires md' == md.(permissions := md'.permissions)
    ensures Presented(b, md') == Presented(b, md).(permissions := md'.permissions)
    ensures Presented(b, md).permissions == md.permissions
  {
  }

  lemma OnlyOwnServed(b: Backend, md: Master, md': Master, s: State, op: Op)
    requires md' == md.(permissions := md.permissions * {Needed(op)})
    ensures Serve(b, md', s, op) == Serve(b, md, s, op)
  {
    hide BuildSale, BuildReversal, CompleteCommand.Validate, ReverseCommand.Validate, FindSale, ToUpper, TrimSpace;
    match op
    case CompleteOp(command, now, ids) =>
      PermissionsUnused(md, md', s, command.Normalized(), now, ids);
    case ReverseOp(cmd, now, ids) =>
      PermissionsUnusedInReverse(b, md, md', s, cmd, now, ids);
  }

  lemma PermissionsUnused(md: Master, md': Master, s: State, cmd: CompleteCommand, now: int, ids: seq<string>)
    requires md' == md.(permissions := md'.permissions)
    ensures BuildSale(md', s, cmd, now, ids) == BuildSale(md, s, cmd, now, ids)
  {
    if Open(md, cmd, now, ids).Ok? {
      SamePosts(md, md', s.movements, cmd, now, Open(md, cmd, now, ids).value, cmd.lines);
    }
    hide PostLines, Settle, Record;
  }

  lemma {:induction false} SamePosts(md: Master, md': Master, committed: seq<Movement>, cmd: CompleteCommand,
                                            now: int, d: Draft, lines: seq<CommandLine>)
    requires md' == md.(permissions := md'.permissions)
    ensures PostLines(md', committed, cmd, now, d, lines) == PostLines(md, committed, cmd, now, d, lines)
  {
    if lines == [] {
    } else {
      SamePosts(md, md', committed, cmd, now, d, lines[..|lines| - 1]);
      hide PostLine;
      if PostLines(md, committed, cmd, now, d, lines[..|lines| - 1]).Ok? {
        SamePost(md, md', committed, cmd, now, PostLines(md, committed, cmd, now, d, lines[..|lines| - 1]).value,
                 lines[|lines| - 1]);
      }
    }
  }

  lemma SamePost(md: Master, md': Master, committed: seq<Movement>, cmd: CompleteCommand, now: int, d: Draft,
                 requested: CommandLine)
    requires md' == md.(permissions := md'.permissions)
    ensures PostLine(md', committed, cmd, now, d, requested) == PostLine(md, committed, cmd, now, d, requested)
  {
    hide HasId, Available, AddTotals, LineEntries, Money.CheckedMultiply, Money.TaxAmount, Money.CheckedAdd,
      Lookups.SelectedRate, NextId, Postable;
  }

  lemma PermissionsUnusedInReverse(b: Backend, md: Master, md': Master, s: State, cmd: ReverseCommand, now: int,
                                   ids: seq<string>)
    requires md' == md.(permissions := md'.permissions)
    ensures BuildReversal(b, md', s, cmd, now, ids) == BuildReversal(b, md, s, cmd, now, ids)
  {
    hide MirrorBooks, Record, ReadMovements, ReadJournals, ReadLedger, ReadPayments, RelabelLines;
  }

  // Refusals, in the order in which the requirements are examined.

  /** Why a sale is refused before its lines are examined, if it is. */
  ghost function SaleRefusal(md: Master, s: State, cmd: CompleteCommand, now: int): Option<Error> {
    var company, claim := CompanyId(cmd.scope.tenant, cmd.scope.company),
                          ClaimId(cmd.scope.tenant, cmd.scope.company, "sales.complete.v1", cmd.key);
    if Blank(cmd.scope.tenant) || Blank(cmd.scope.company) || Blank(cmd.scope.branch) || Blank(cmd.scope.warehouse)
    then Some(InvalidScope)
    else if Blank(cmd.customerId) || Blank(cmd.actor) || Blank(cmd.key) || cmd.lines == [] then Some(InvalidCommand)
    else if cmd.kind != Cash && cmd.kind != Credit then Some(InvalidSaleKind)
    else if cmd.kind == Cash && Blank(cmd.paymentMethod) then Some(PaymentMethodRequired)
    else if cmd.kind == Credit && !Blank(cmd.paymentMethod) then Some(InvalidCommand)
    else if exists line :: line in cmd.lines && (Blank(line.productId) || line.quantity < 1) then Some(InvalidLine)
    else if Permission(cmd.scope, cmd.actor, "sales.complete") !in md.permissions then Some(Forbidden)
    else if claim in s.claims then ClaimRefusal(s, claim, CompleteHash(cmd.scope, cmd.customerId, cmd.kind,
                                                                       cmd.paymentMethod, cmd.lines, cmd.actor))
    else CustomerRefusal(md, cmd, company, now)
  }

  /** Why a claimed key is not answered. */
  function ClaimRefusal(s: State, claim: ClaimId, hash: Hash): Option<Error>
    requires claim in s.claims
  {
    if s.claims[claim].hash != hash then Some(IdempotencyConflict)
    else if s.claims[claim].resultId == "" then Some(NoCommittedResult)
    else if EntityId(claim.tenant, claim.company, s.claims[claim].resultId) !in s.sales then Some(NotFound)
    else None
  }

  /** The customer, the period and the accounts. */
  ghost function CustomerRefusal(md: Master, cmd: CompleteCommand, company: CompanyId, now: int): Option<Error> {
    var k := EntityId(company.tenant, company.company, cmd.customerId);
    if k !in md.customers then Some(NotFound)
    else if !md.customers[k].active then Some(CustomerInactive)
    else if cmd.kind == Credit && md.customers[k].general then Some(GeneralCustomerCredit)
    else if cmd.kind == Credit && !md.customers[k].creditEnabled then Some(CustomerCreditDisabled)
    else if !OpenPeriod(md, company, now) then Some(FiscalPeriodClosed)
    else if company !in md.posting || md.posting[company].receivable == "" || md.posting[company].taxPayable == ""
    then Some(PostingConfigMissing)
    else if Charge(md, cmd).None? || Charge(md, cmd).value == "" then Some(PostingConfigMissing)
    else None
  }

  lemma ValidationRefuses(cmd: CompleteCommand)
    ensures cmd.Validate() ==
      if Blank(cmd.scope.tenant) || Blank(cmd.scope.company) || Blank(cmd.scope.branch) || Blank(cmd.scope.warehouse)
      then Fail(InvalidScope)
      else if Blank(cmd.customerId) || Blank(cmd.actor) || Blank(cmd.key) || cmd.lines == [] then Fail(InvalidCommand)
      else if cmd.kind != Cash && cmd.kind != Credit then Fail(InvalidSaleKind)
      else if cmd.kind == Cash && Blank(cmd.paymentMethod) then Fail(PaymentMethodRequired)
      else if cmd.kind == Credit && !Blank(cmd.paymentMethod) then Fail(InvalidCommand)
      else if exists line :: line in cmd.lines && (Blank(line.productId) || line.quantity < 1) then Fail(InvalidLine)
      else Pass
  {
    hide Blank;
    if line :| line in cmd.lines && (Blank(line.productId) || line.quantity < 1) {
      var i :| 0 <= i < |cmd.lines| && cmd.lines[i] == line;
    }
  }

  lemma CustomerRefuses(md: Master, cmd: CompleteCommand, now: int, ids: seq<string>)
    requires Lookups.DisjointPeriods(md.periods) && cmd.kind in {Cash, Credit}
    requires CustomerRefusal(md, cmd, cmd.scope.Company(), now).Some?
    ensures Open(md, cmd, now, ids) == Err(CustomerRefusal(md, cmd, cmd.scope.Company(), now).value)
  {
    PeriodFound(md, cmd.scope.Company(), now);
    hide Lookups.PeriodOpen, OpenPeriod, Lookups.DisjointPeriods;
  }

  /** The first requirement that is not met is the one the answer names, and nothing is stored. */
  lemma SaleRefused(b: Backend, md: Master, s: State, command: CompleteCommand, now: int, ids: seq<string>)
    requires Lookups.DistinctRates(md.taxRates) && Lookups.DisjointPeriods(md.periods)
    ensures var cmd := command.(paymentMethod := ToUpper(TrimSpace(command.paymentMethod)));
      SaleRefusal(md, s, cmd, now).Some? ==>
        Perform(b, md, s, CompleteOp(command, now, ids)) == Failed(SaleRefusal(md, s, cmd, now).value)
  {
    hide Lookups.DistinctRates, Lookups.DisjointPeriods, Blank, ToUpper, TrimSpace, CompleteCommand.Validate,
      FitsBigint, Perform, OpenPeriod, CustomerRefusal, Open, PostLines, ReadSale;
    PerformedAlways(b, md, s, CompleteOp(command, now, ids));
    var cmd := command.Normalized();
    ValidationRefuses(cmd);
    if CustomerRefusal(md, cmd, cmd.scope.Company(), now).Some? && cmd.kind in {Cash, Credit} {
      CustomerRefuses(md, cmd, now, ids);
    }
  }

  /** Why a reversal is refused before its copies are made, if it is. */
  ghost function ReversalRefusal(md: Master, s: State, cmd: ReverseCommand, now: int): Option<Error> {
    var k, claim := EntityId(cmd.scope.tenant, cmd.scope.company, cmd.saleId),
                    ClaimId(cmd.scope.tenant, cmd.scope.company, "sales.reverse.v1", cmd.key);
    if Blank(cmd.scope.tenant) || Blank(cmd.scope.company) || Blank(cmd.scope.branch) || Blank(cmd.scope.warehouse)
    then Some(InvalidScope)
    else if Blank(cmd.saleId) || Blank(cmd.reason) || Blank(cmd.actor) || Blank(cmd.key) then Some(InvalidCommand)
    else if Permission(cmd.scope, cmd.actor, "sales.reverse") !in md.permissions then Some(Forbidden)
    else if claim in s.claims then ClaimRefusal(s, claim, ReverseHash(cmd.scope, cmd.saleId, cmd.reason, cmd.actor))
    else if k !in s.sales then Some(NotFound)
    else if !OpenPeriod(md, CompanyId(cmd.scope.tenant, cmd.scope.company), now) then Some(FiscalPeriodClosed)
    else if s.sales[k].recordType == ReversalRecord || s.sales[k].status == Reversed then Some(AlreadyReversed)
    else None
  }

  lemma ReverseAdmission(md: Master, s: State, cmd: ReverseCommand, now: int)
    ensures var claim := ClaimId(cmd.scope.tenant, cmd.scope.company, "sales.reverse.v1", cmd.key);
      AdmitReverse(md, s.claims, cmd) ==
        if Blank(cmd.scope.tenant) || Blank(cmd.scope.company) || Blank(cmd.scope.branch) || Blank(cmd.scope.warehouse)
        then Rejected(InvalidScope)
        else if Blank(cmd.saleId) || Blank(cmd.reason) || Blank(cmd.actor) || Blank(cmd.key)
        then Rejected(InvalidCommand)
        else if Permission(cmd.scope, cmd.actor, "sales.reverse") !in md.permissions then Rejected(Forbidden)
        else if claim !in s.claims then Acquired
        else if s.claims[claim].hash != ReverseHash(cmd.scope, cmd.saleId, cmd.reason, cmd.actor)
        then Rejected(IdempotencyConflict)
        else if s.claims[claim].resultId == "" then Rejected(NoCommittedResult)
        else Replay(s.claims[claim].resultId)
  {
    hide Blank;
  }

  lemma OpeningRefuses(b: Backend, md: Master, s: State, cmd: ReverseCommand, now: int, ids: seq<string>)
    requires Lookups.DisjointPeriods(md.periods)
    ensures var k, r := EntityId(cmd.scope.tenant, cmd.scope.company, cmd.saleId),
      BuildReversal(b, md, s, cmd, now, ids);
      if k !in s.sales then r == Err(NotFound)
      else if !OpenPeriod(md, CompanyId(cmd.scope.tenant, cmd.scope.company), now) then r == Err(FiscalPeriodClosed)
      else s.sales[k].recordType == ReversalRecord || s.sales[k].status == Reversed ==> r == Err(AlreadyReversed)
  {
    PeriodFound(md, cmd.scope.Company(), now);
    hide MirrorBooks, Record, OpenPeriod, Lookups.PeriodOpen, RelabelLines, ReadMovements, ReadJournals, ReadLedger,
      ReadPayments, Lookups.DisjointPeriods, Rows;
  }

  lemma ReversalRefused(b: Backend, md: Master, s: State, cmd: ReverseCommand, now: int, ids: seq<string>)
    requires Lookups.DistinctRates(md.taxRates) && Lookups.DisjointPeriods(md.periods)
    ensures ReversalRefusal(md, s, cmd, now).Some? ==>
      Perform(b, md, s, ReverseOp(cmd, now, ids)) == Failed(ReversalRefusal(md, s, cmd, now).value)
  {
    hide Lookups.DistinctRates, Lookups.DisjointPeriods, Blank, BuildReversal, AdmitReverse, FitsBigint, Perform,
      OpenPeriod, ReadSale;
    PerformedAlways(b, md, s, ReverseOp(cmd, now, ids));
    ReverseAdmission(md, s, cmd, now);
    OpeningRefuses(b, md, s, cmd, now, ids);
  }

  /** A request whose key was claimed by an equal request gets the committed record, as the backend reads it. */
  lemma ClaimAnswered(b: Backend, md: Master, s: State, op: Op, claim: ClaimId, hash: Hash)
    requires Submittable(op) && Needed(op) in md.permissions
    requires match op
      case CompleteOp(c, _, _) =>
        && claim == ClaimId(c.scope.tenant, c.scope.company, "sales.complete.v1", c.key)
        && hash == CompleteHash(c.scope, c.customerId, c.kind, ToUpper(TrimSpace(c.paymentMethod)), c.lines, c.actor)
      case ReverseOp(c, _, _) =>
        && claim == ClaimId(c.scope.tenant, c.scope.company, "sales.reverse.v1", c.key)
        && hash == ReverseHash(c.scope, c.saleId, c.reason, c.actor)
    requires claim in s.claims && ClaimRefusal(s, claim, hash).None?
    ensures var stored, o := s.sales[EntityId(claim.tenant, claim.company, s.claims[claim].resultId)],
      Perform(b, md, s, op);
      && o.Replayed? && o.sale == stored.(lines := o.sale.lines) && ReadAs(b, stored.lines, LineId(), o.sale.lines)
  {
    var stored := s.sales[EntityId(claim.tenant, claim.company, s.claims[claim].resultId)];
    hide Rows, Perform, ToUpper, TrimSpace, Filled, FilledIn, Ascending;
    RowsReadAs(b, stored.lines, LineId());
    Recalls(b, md, s, op, claim, hash);
  }

  lemma Recalls(b: Backend, md: Master, s: State, op: Op, claim: ClaimId, hash: Hash)
    requires Submittable(op) && Needed(op) in md.permissions
    requires op.Claim() == claim && op.Hash() == hash && claim in s.claims && ClaimRefusal(s, claim, hash).None?
    ensures Perform(b, md, s, op)
      == Replayed(ReadSale(b, s.sales[EntityId(claim.tenant, claim.company, s.claims[claim].resultId)]))
  {
    hide BuildSale, BuildReversal, FitsBigint, ReadSale, Filled, FilledIn, ToUpper, TrimSpace;
    match op
    case CompleteOp(command, now, ids) =>
      FilledExactly(command.Normalized());
      hide CompleteCommand.Validate;
    case ReverseOp(cmd, now, ids) =>
      FilledInExactly(cmd);
      hide ReverseCommand.Validate;
  }

  lemma FilledInExactly(cmd: ReverseCommand)
    ensures cmd.Validate().Pass? <==> FilledIn(cmd)
  {
    hide Blank;
  }

  // The line that cannot be posted.

  /** Why the next line is refused, after the lines `before` in the currency of the sale so far. */
  ghost function LineRefusal(md: Master, s: State, cmd: CompleteCommand, now: int, before: seq<Line>, currency: string,
                             requested: CommandLine): Option<Error>
  {
    var k := EntityId(cmd.scope.tenant, cmd.scope.company, requested.productId);
    if k !in md.products then Some(NotFound)
    else if !md.products[k].active then Some(ProductInactive)
    else if md.products[k].listPrice <= 0 || md.products[k].standardCost < 0 || md.products[k].revenueAccount == ""
            || md.products[k].cogsAccount == "" || md.products[k].inventoryAccount == ""
    then Some(PostingConfigMissing)
    else if currency != "" && md.products[k].currency != currency then Some(InvalidCommand)
    else if Sum(s.movements, AtLoc(Loc(cmd.scope, requested.productId))) - Sum(before, Quantity(requested.productId))
            < requested.quantity
    then Some(InsufficientStock)
    else AmountRefusal(md, cmd, now, md.products[k], requested.quantity)
  }

  /** Why an amount of a line is refused: no rate, a rate that is no percentage, or an amount beyond int64. */
  ghost function AmountRefusal(md: Master, cmd: CompleteCommand, now: int, product: Product,
                               quantity: int): Option<Error>
  {
    var company, subtotal := CompanyId(cmd.scope.tenant, cmd.scope.company), product.listPrice * quantity;
    if !exists r :: Current(md, company, product.taxCode, now, r) then Some(NotFound)
    else
      var r :| Current(md, company, product.taxCode, now, r);
      if subtotal > MAX64 then Some(MoneyOverflow)
      else if r.basisPoints < 0 || r.basisPoints > 10000 then Some(InvalidCommand)
      else if subtotal * r.basisPoints + 5000 > MAX64 then Some(MoneyOverflow)
      else if subtotal + (subtotal * r.basisPoints + 5000) / 10000 > MAX64 then Some(MoneyOverflow)
      else if product.standardCost * quantity > MAX64 then Some(MoneyOverflow)
      else None
  }

  lemma CurrentSelected(md: Master, cmd: CompleteCommand, code: string, now: int)
    requires Lookups.DistinctRates(md.taxRates)
    ensures match Lookups.SelectedRate(md.taxRates, cmd.scope.Company(), code, now)
      case Some(r) => Current(md, cmd.scope.Company(), code, now, r)
        && forall v :: Current(md, cmd.scope.Company(), code, now, v) ==> v == r
      case None => forall v :: !Current(md, cmd.scope.Company(), code, now, v)
  {
    Lookups.ScanIsLatest(md.taxRates, cmd.scope.Company(), code, now);
    forall v | Current(md, cmd.scope.Company(), code, now, v)
      ensures Lookups.SelectedRate(md.taxRates, cmd.scope.Company(), code, now) == Some(v)
    {
      Lookups.RatesAgree(md.taxRates, cmd.scope.Company(), code, now, v);
    }
  }

  lemma AmountsRefused(md: Master, cmd: CompleteCommand, now: int, product: Product, quantity: int64)
    requires Lookups.DistinctRates(md.taxRates) && Postable(product) && quantity > 0
    ensures AmountRefusal(md, cmd, now, product, quantity).Some? ==>
      LineAmounts(md, cmd, now, product, quantity) == Err(AmountRefusal(md, cmd, now, product, quantity).value)
  {
    CurrentSelected(md, cmd, product.taxCode, now);
    hide Lookups.SelectedRate, Current, Lookups.DistinctRates;
    Money.ProductMonotone(1, 1, product.listPrice, quantity);
    Money.ProductMonotone(0, 0, product.standardCost, quantity);
    var subtotal := product.listPrice * quantity;
    if subtotal <= MAX64 && exists r :: Current(md, cmd.scope.Company(), product.taxCode, now, r) {
      var r :| Current(md, cmd.scope.Company(), product.taxCode, now, r);
      if 0 <= r.basisPoints <= 10000 {
        Money.ProductMonotone(0, 0, subtotal, r.basisPoints);
      }
    }
  }

  /** The draft after the lines that could be posted. */
  lemma LineRefuses(md: Master, s: State, cmd: CompleteCommand, now: int, d: Draft, requested: CommandLine)
    requires md.Valid() && Lookups.DistinctRates(md.taxRates) && requested.quantity > 0 && d.sale.scope == cmd.scope
    requires StockOk(s.movements + d.movements) && IssuesLines(d.sale, d.movements)
    requires LineRefusal(md, s, cmd, now, d.sale.lines, d.sale.currency, requested).Some?
    ensures PostLine(md, s.movements, cmd, now, d, requested)
      == Err(LineRefusal(md, s, cmd, now, d.sale.lines, d.sale.currency, requested).value)
  {
    var loc := Loc(cmd.scope, requested.productId);
    hide IssuesLines, Lookups.DistinctRates, AmountRefusal, Sum, HasId, AddTotals, LineAmounts;
    SumAppend(s.movements, d.movements, AtLoc(loc));
    IssueSum(d.sale, d.movements, loc);
    assert 0 <= Sum(s.movements + d.movements, AtLoc(loc)) <= MAX64;
    var k := cmd.scope.Entity(requested.productId);
    if k in md.products && Postable(md.products[k]) {
      AmountsRefused(md, cmd, now, md.products[k], requested.quantity);
    }
  }

  /** The lines before are billed, in a currency that is empty as long as no product has one. */
  ghost predicate Billed(md: Master, s: State, cmd: CompleteCommand, now: int, ids: seq<string>, n: nat,
                         before: seq<Line>, currency: string)
    requires n <= |cmd.lines|
  {
    Billable(md, s.movements, cmd.(lines := cmd.lines[..n]), now, ids, before, currency) && (n == 0 ==> currency == "")
  }

  /** Posting looks at the lines it is given, not at those of the command. */
  lemma {:induction false} SameCommandPosts(md: Master, committed: seq<Movement>, cmd: CompleteCommand,
                                            cmd': CompleteCommand, now: int, d: Draft, lines: seq<CommandLine>)
    requires cmd' == cmd.(lines := cmd'.lines)
    ensures PostLines(md, committed, cmd', now, d, lines) == PostLines(md, committed, cmd, now, d, lines)
  {
    if lines == [] {
    } else {
      var before := lines[..|lines| - 1];
      SameCommandPosts(md, committed, cmd, cmd', now, d, before);
      hide PostLine;
      if PostLines(md, committed, cmd, now, d, before).Ok? {
        SameCommandPost(md, committed, cmd, cmd', now, PostLines(md, committed, cmd, now, d, before).value,
                        lines[|lines| - 1]);
      }
    }
  }

  lemma SameCommandPost(md: Master, committed: seq<Movement>, cmd: CompleteCommand, cmd': CompleteCommand, now: int,
                        d: Draft, requested: CommandLine)
    requires cmd' == cmd.(lines := cmd'.lines)
    ensures PostLine(md, committed, cmd', now, d, requested) == PostLine(md, committed, cmd, now, d, requested)
  {
    hide HasId, Available, AddTotals, LineEntries, Money.CheckedMultiply, Money.TaxAmount, Money.CheckedAdd,
      Lookups.SelectedRate, NextId, Postable;
  }

  /** The draft of the lines before. */
  lemma BilledDraft(md: Master, s: State, cmd: CompleteCommand, now: int, ids: seq<string>, n: nat, before: seq<Line>,
                    currency: string)
    requires md.Valid() && Lookups.DistinctRates(md.taxRates) && Lookups.DisjointPeriods(md.periods)
    requires StockOk(s.movements) && Filled(cmd) && Admissible(md, cmd, now) && n <= |cmd.lines|
    requires Billed(md, s, cmd, now, ids, n, before, currency)
    ensures Open(md, cmd, now, ids).Ok?
    ensures PostLines(md, s.movements, cmd, now, Open(md, cmd, now, ids).value, cmd.lines[..n]).Ok?
    ensures var d := PostLines(md, s.movements, cmd, now, Open(md, cmd, now, ids).value, cmd.lines[..n]).value;
      && d.sale.lines == before && d.sale.currency == currency && d.sale.scope == cmd.scope
      && StockOk(s.movements + d.movements) && IssuesLines(d.sale, d.movements)
  {
    var cmd' := cmd.(lines := cmd.lines[..n]);
    hide Open, PostLines, Lookups.DistinctRates, Lookups.DisjointPeriods, StockOk, Billable, DraftAt, GoodDraft,
      SoldSoFar, Admissible;
    HasIds(md, s.movements, cmd', now, ids, before, currency);
    OpensExactly(md, cmd, now, ids);
    SameOpening(md, cmd, cmd', now, ids);
    StartsAt(md, s.movements, cmd', now, ids, before);
    OpenFacts(md, cmd', now, ids);
    var begun := Open(md, cmd, now, ids).value;
    assert cmd'.lines[..n] == cmd'.lines && s.movements + begun.movements == s.movements;
    BillPosts(md, s.movements, cmd', now, ids, before, currency, n, begun);
    PostLinesStock(md, s.movements, cmd', now, begun, cmd'.lines);
    SameCommandPosts(md, s.movements, cmd, cmd', now, begun, cmd'.lines);
    DraftBilled(md, s, cmd', now, ids, before, currency,
                PostLines(md, s.movements, cmd', now, begun, cmd'.lines).value);
  }

  lemma SameOpening(md: Master, cmd: CompleteCommand, cmd': CompleteCommand, now: int, ids: seq<string>)
    requires cmd' == cmd.(lines := cmd'.lines)
    ensures Open(md, cmd', now, ids) == Open(md, cmd, now, ids)
  {
    hide Lookups.PeriodOpen;
  }

  lemma DraftBilled(md: Master, s: State, cmd: CompleteCommand, now: int, ids: seq<string>, before: seq<Line>,
                    currency: string, d: Draft)
    requires Billable(md, s.movements, cmd, now, ids, before, currency) && (cmd.lines == [] ==> currency == "")
    requires DraftAt(md, s.movements, cmd, now, ids, before, |cmd.lines|, d)
    ensures d.sale.lines == before && d.sale.currency == currency && d.sale.scope == cmd.scope
    ensures IssuesLines(d.sale, d.movements)
  {
    assert before[..|cmd.lines|] == before;
    hide LineSold, Entered, Sum, Accounted, GoodTotals, Configured, IssuesLines, ProductEntries;
  }

  /** When the lines before can be posted and the next one cannot, the answer names what is wrong with it. */
  lemma LineRefused(b: Backend, md: Master, seeds: seq<Movement>, s: State, command: CompleteCommand, now: int,
                    ids: seq<string>, n: nat, before: seq<Line>, currency: string)
    requires md.Valid() && GoodBooks(md, seeds, s) && n < |command.lines|
    requires Lookups.DistinctRates(md.taxRates) && Lookups.DisjointPeriods(md.periods)
    requires var cmd := command.(paymentMethod := ToUpper(TrimSpace(command.paymentMethod)));
      && Filled(cmd) && Needed(CompleteOp(command, now, ids)) in md.permissions && Admissible(md, cmd, now)
      && ClaimId(cmd.scope.tenant, cmd.scope.company, "sales.complete.v1", cmd.key) !in s.claims
      && Billed(md, s, cmd, now, ids, n, before, currency)
      && LineRefusal(md, s, cmd, now, before, currency, cmd.lines[n]).Some?
    ensures var cmd := command.(paymentMethod := ToUpper(TrimSpace(command.paymentMethod)));
      Perform(b, md, s, CompleteOp(command, now, ids))
      == Failed(LineRefusal(md, s, cmd, now, before, currency, cmd.lines[n]).value)
  {
    var cmd := command.Normalized();
    hide Lookups.DistinctRates, Lookups.DisjointPeriods, GoodBooks, Admissible, Billed, LineRefusal, ToUpper, TrimSpace,
      Open, PostLine, PostLines, StockOk, FitsBigint, Settle, Record, IssuesLines;
    BooksGuarded(md, seeds, s);
    AdmitsExactly(md, s, cmd);
    PerformedAlways(b, md, s, CompleteOp(command, now, ids));
    BilledDraft(md, s, cmd, now, ids, n, before, currency);
    var begun := Open(md, cmd, now, ids).value;
    var d := PostLines(md, s.movements, cmd, now, begun, cmd.lines[..n]).value;
    LineRefuses(md, s, cmd, now, d, cmd.lines[n]);
    StopsAt(md, s.movements, cmd, now, begun, n);
    BuildStops(md, s, cmd, now, ids);
  }

  lemma BuildStops(md: Master, s: State, cmd: CompleteCommand, now: int, ids: seq<string>)
    requires Open(md, cmd, now, ids).Ok?
    requires PostLines(md, s.movements, cmd, now, Open(md, cmd, now, ids).value, cmd.lines).Err?
    ensures BuildSale(md, s, cmd, now, ids)
      == Err(PostLines(md, s.movements, cmd, now, Open(md, cmd, now, ids).value, cmd.lines).error)
  {
    hide Open, PostLines;
  }

  /** Why a sale whose lines can be posted is refused on credit. */
  function CreditRefusal(md: Master, s: State, cmd: CompleteCommand, sale: Sale): Option<Error> {
    var k, owed := EntityId(cmd.scope.tenant, cmd.scope.company, cmd.customerId),
                   Sum(s.ledger, OwedBy(CompanyId(cmd.scope.tenant, cmd.scope.company), cmd.customerId));
    if cmd.kind != Credit || k !in md.customers then None
    else if owed + sale.total > MAX64 then Some(MoneyOverflow)
    else if owed + sale.total > md.customers[k].creditLimit then Some(CreditLimitExceeded)
    else None
  }

  /** A sale whose lines can be posted is refused for its currency, or for the customer's limit. */
  lemma CreditRefused(b: Backend, md: Master, seeds: seq<Movement>, s: State, command: CompleteCommand, now: int,
                      ids: seq<string>, sale: Sale)
    requires md.Valid() && GoodBooks(md, seeds, s)
    requires Lookups.DistinctRates(md.taxRates) && Lookups.DisjointPeriods(md.periods)
    requires var cmd := command.(paymentMethod := ToUpper(TrimSpace(command.paymentMethod)));
      && Filled(cmd) && Needed(CompleteOp(command, now, ids)) in md.permissions && Admissible(md, cmd, now)
      && ClaimId(cmd.scope.tenant, cmd.scope.company, "sales.complete.v1", cmd.key) !in s.claims
      && Billable(md, s.movements, cmd, now, ids, sale.lines, sale.currency)
      && sale.total == Sum(sale.lines, LineTotal()) && sale.cogs == Sum(sale.lines, LineCogs())
    ensures var cmd, o := command.(paymentMethod := ToUpper(TrimSpace(command.paymentMethod))),
                          Perform(b, md, s, CompleteOp(command, now, ids));
      if |sale.currency| != 3 then o == Failed(InvalidCommand)
      else CreditRefusal(md, s, cmd, sale).Some? ==> o == Failed(CreditRefusal(md, s, cmd, sale).value)
  {
    var cmd := command.Normalized();
    hide Lookups.DistinctRates, Lookups.DisjointPeriods, GoodBooks, Admissible, Billable, ToUpper, TrimSpace, Open,
      PostLines, StockOk, FitsBigint, Settle, Record, Drafted, CreditRefusal, Sum;
    BooksGuarded(md, seeds, s);
    AdmitsExactly(md, s, cmd);
    FilledExactly(cmd);
    PerformedAlways(b, md, s, CompleteOp(command, now, ids));
    MayPost(md, s, cmd, now, ids, sale);
    SettleRefuses(md, s, cmd, now, ids, sale,
                  PostLines(md, s.movements, cmd, now, Open(md, cmd, now, ids).value, cmd.lines).value);
  }

  lemma SettleRefuses(md: Master, s: State, cmd: CompleteCommand, now: int, ids: seq<string>, sale: Sale, d: Draft)
    requires cmd.Validate().Pass? && Drafted(md, cmd, ids, sale, d) && WithinLimits(md, s)
    ensures var r := Settle(s.ledger, s.payments, cmd, now, d);
      if |sale.currency| != 3 then r == Err(InvalidCommand)
      else CreditRefusal(md, s, cmd, sale).Some? ==> r == Err(CreditRefusal(md, s, cmd, sale).value)
  {
    OwesWithin(md, s, cmd);
    DraftKind(md, cmd, d);
    hide WithinLimits, GoodDraft, CompleteCommand.Validate, Sum, HasId, SettleEntry, TaxEntries;
  }
}
