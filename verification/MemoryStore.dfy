/**
 * The in-memory store: flat string keys, scanning loops and copy-on-write transactions. Its
 * ghost fields hold the state that Posting speaks of, keyed by tuples of components.
 */
module MemoryStore {
  import opened Basics
  import opened Sums
  import opened Model
  import opened Lookups
  import opened Posting
  import opened FlatKeys
  import opened Ledgers
  import Finance

  // Scans.

  method Contains<T>(rows: seq<T>, id: T -> string, x: string) returns (found: bool)
    ensures found <==> HasId(rows, id, x)
  {
    for i := 0 to |rows|
      invariant forall k :: 0 <= k < i ==> id(rows[k]) != x
    {
      if id(rows[i]) == x {
        return true;
      }
    }
    return false;
  }

  method Select<T>(rows: seq<T>, p: T -> bool) returns (result: seq<T>)
    ensures result == Filter(rows, p)
  {
    result := [];
    for i := 0 to |rows|
      invariant result == Filter(rows[..i], p)
    {
      assert rows[..i + 1][..i] == rows[..i];
      if p(rows[i]) {
        result := result + [rows[i]];
      }
    }
    assert rows[..|rows|] == rows;
  }

  /** An int64 accumulator over the rows. */
  method Accumulate<T>(rows: seq<T>, f: T -> int) returns (total: int64)
    ensures total == Wrap(Sum(rows, f))
  {
    total := 0;
    for i := 0 to |rows|
      invariant total == Wrap(Sum(rows[..i], f))
    {
      assert rows[..i + 1][..i] == rows[..i];
      WrapAdd(Sum(rows[..i], f), f(rows[i]));
      total := Wrap(total + f(rows[i]));
    }
    assert rows[..|rows|] == rows;
  }

  /** The first row with the property, if any. */
  method First<T>(rows: seq<T>, p: T -> bool) returns (r: Result<T>)
    ensures r == if Filter(rows, p) == [] then Err(NotFound) else Ok(Filter(rows, p)[0])
  {
    for i := 0 to |rows|
      invariant Filter(rows[..i], p) == []
    {
      assert rows[..i + 1][..i] == rows[..i];
      if p(rows[i]) {
        assert rows == rows[..i + 1] + rows[i + 1..];
        FilterAppend(rows[..i + 1], rows[i + 1..], p);
        return Ok(rows[i]);
      }
    }
    assert rows[..|rows|] == rows;
    return Err(NotFound);
  }

  method ScanRates(rates: seq<TaxRate>, company: CompanyId, code: string, at: int) returns (selected: Option<TaxRate>)
    ensures selected == SelectedRate(rates, company, code, at)
  {
    selected := None;
    for i := 0 to |rates|
      invariant selected == SelectedRate(rates[..i], company, code, at)
    {
      assert rates[..i + 1][..i] == rates[..i];
      var v := rates[i];
      if v.company != company || v.code != code || at < v.effectiveFrom
         || (v.effectiveTo.Some? && at >= v.effectiveTo.value) {
        continue;
      }
      if selected.None? || v.effectiveFrom > selected.value.effectiveFrom {
        selected := Some(v);
      }
    }
    assert rates[..|rates|] == rates;
  }

  method ScanPeriods(periods: seq<FiscalPeriod>, company: CompanyId, at: int) returns (open: bool)
    ensures open == PeriodOpen(periods, company, at)
  {
    for i := 0 to |periods|
      invariant PeriodOpen(periods, company, at) == PeriodOpen(periods[i..], company, at)
    {
      var v := periods[i];
      if v.company == company && v.startsAt <= at && at < v.endsAt {
        return v.open;
      }
    }
    return false;
  }

  // Flat keys against tuples.

  ghost predicate Clean(k: EntityId) {
    NulFree(k.tenant) && NulFree(k.company)
  }

  function Flat(k: EntityId): string {
    EntityKey(k.tenant, k.company, k.id)
  }

  ghost predicate CleanClaim(c: ClaimId) {
    NulFree(c.tenant) && NulFree(c.company) && NulFree(c.operation)
  }

  function FlatClaim(c: ClaimId): string {
    IdempotencyKey(c.tenant, c.company, c.operation, c.key)
  }

  ghost predicate CleanPermission(p: Permission) {
    CleanScope(p.scope) && NulFree(p.actor)
  }

  function FlatPermission(p: Permission): string {
    PermissionKey(p.scope, p.actor, p.code)
  }

  ghost predicate EntitiesAgree<V>(flat: map<string, V>, tuples: map<EntityId, V>) {
    forall k | Clean(k) ::
      && (Flat(k) in flat <==> k in tuples)
      && (k in tuples ==> flat[Flat(k)] == tuples[k])
  }

  ghost predicate CompaniesAgree<V>(flat: map<string, V>, tuples: map<CompanyId, V>) {
    forall c: CompanyId | NulFree(c.tenant) ::
      && (CompanyKey(c.tenant, c.company) in flat <==> c in tuples)
      && (c in tuples ==> flat[CompanyKey(c.tenant, c.company)] == tuples[c])
  }

  ghost predicate ClaimsAgree(flat: map<string, Claim>, tuples: map<ClaimId, Claim>) {
    forall c | CleanClaim(c) ::
      && (FlatClaim(c) in flat <==> c in tuples)
      && (c in tuples ==> flat[FlatClaim(c)] == tuples[c])
  }

  ghost predicate PermissionsAgree(flat: map<string, bool>, granted: set<Permission>) {
    forall p | CleanPermission(p) :: (FlatPermission(p) in flat && flat[FlatPermission(p)]) <==> p in granted
  }

  /** One write under a flat key is one write under the tuple. */
  lemma EntityWritten<V>(flat: map<string, V>, tuples: map<EntityId, V>, k: EntityId, v: V)
    requires EntitiesAgree(flat, tuples) && Clean(k)
    ensures EntitiesAgree(flat[Flat(k) := v], tuples[k := v])
  {
    forall j | Clean(j) && Flat(j) == Flat(k) ensures j == k {
      EntityKeyInjective(j, k);
    }
  }

  lemma CompanyWritten<V>(flat: map<string, V>, tuples: map<CompanyId, V>, c: CompanyId, v: V)
    requires CompaniesAgree(flat, tuples) && NulFree(c.tenant)
    ensures CompaniesAgree(flat[CompanyKey(c.tenant, c.company) := v], tuples[c := v])
  {
    forall d: CompanyId | NulFree(d.tenant) && CompanyKey(d.tenant, d.company) == CompanyKey(c.tenant, c.company)
      ensures d == c
    {
      CompanyKeyInjective(d, c);
    }
  }

  lemma ClaimWritten(flat: map<string, Claim>, tuples: map<ClaimId, Claim>, c: ClaimId, v: Claim)
    requires ClaimsAgree(flat, tuples) && CleanClaim(c)
    ensures ClaimsAgree(flat[FlatClaim(c) := v], tuples[c := v])
  {
    forall d | CleanClaim(d) && FlatClaim(d) == FlatClaim(c) ensures d == c {
      ClaimKeyInjective(d, c);
    }
  }

  lemma PermissionWritten(flat: map<string, bool>, granted: set<Permission>, p: Permission)
    requires PermissionsAgree(flat, granted) && CleanPermission(p)
    ensures PermissionsAgree(flat[FlatPermission(p) := true], granted + {p})
  {
    forall q | CleanPermission(q) && FlatPermission(q) == FlatPermission(p) ensures q == p {
      PermissionKeyInjective(q, p);
    }
  }

  /** The mutable state of the store, or of one open transaction. */
  class MemState {
    var permissions: map<string, bool>
    var customers: map<string, Account>
    var products: map<string, Product>
    var taxRates: seq<TaxRate>
    var periods: seq<FiscalPeriod>
    var posting: map<string, PostingConfig>
    var sales: map<string, Sale>
    var movements: seq<Movement>
    var ledger: seq<LedgerEntry>
    var payments: seq<Payment>
    var journals: seq<Journal>
    var audits: seq<AuditEvent>
    var outbox: seq<OutboxEvent>
    var idempotencies: map<string, Claim>
    ghost var master: Master
    ghost var view: State

    ghost predicate MasterAgrees()
      reads this
    {
      && PermissionsAgree(permissions, master.permissions)
      && EntitiesAgree(customers, master.customers)
      && EntitiesAgree(products, master.products)
      && taxRates == master.taxRates
      && periods == master.periods
      && CompaniesAgree(posting, master.posting)
    }

    ghost predicate RowsAgree()
      reads this
    {
      && movements == view.movements
      && ledger == view.ledger
      && payments == view.payments
      && journals == view.journals
      && audits == view.audits
      && outbox == view.outbox
    }

    ghost predicate Valid()
      reads this
    {
      MasterAgrees() && RowsAgree()
      && EntitiesAgree(sales, view.sales) && ClaimsAgree(idempotencies, view.claims)
    }

    constructor ()
      ensures Valid() && view == Initial([]) && master == Master({}, map[], map[], [], [], map[])
    {
      permissions, customers, products, taxRates, periods, posting := map[], map[], map[], [], [], map[];
      sales, movements, ledger, payments, journals := map[], [], [], [], [];
      audits, outbox, idempotencies := [], [], map[];
      master := Master({}, map[], map[], [], [], map[]);
      view := Initial([]);
    }

    /** New tables beside the rows of another state. */
    constructor Holding(source: MemState, permissions: map<string, bool>, customers: map<string, Account>,
                        products: map<string, Product>, posting: map<string, PostingConfig>,
                        sales: map<string, Sale>, idempotencies: map<string, Claim>)
      requires source.Valid()
      requires permissions == source.permissions && customers == source.customers && products == source.products
      requires posting == source.posting && sales == source.sales && idempotencies == source.idempotencies
      ensures Valid() && master == source.master && view == source.view
    {
      hide EntitiesAgree, CompaniesAgree, ClaimsAgree, PermissionsAgree;
      this.permissions, this.customers, this.products := permissions, customers, products;
      this.posting, this.sales, this.idempotencies := posting, sales, idempotencies;
      taxRates, periods, movements, ledger := source.taxRates, source.periods, source.movements, source.ledger;
      payments, journals, audits, outbox := source.payments, source.journals, source.audits, source.outbox;
      master, view := source.master, source.view;
    }

    // Seeding.

    method SeedPermission(p: Permission)
      requires Valid() && CleanPermission(p)
      modifies this
      ensures Valid() && view == old(view)
      ensures master == old(master).(permissions := old(master).permissions + {p})
    {
      PermissionWritten(permissions, master.permissions, p);
      permissions := permissions[FlatPermission(p) := true];
      master := master.(permissions := master.permissions + {p});
    }

    method SeedCustomer(value: Account)
      requires Valid() && Clean(EntityId(value.company.tenant, value.company.company, value.id))
      modifies this
      ensures Valid() && view == old(view) && (old(master).Valid() ==> master.Valid())
      ensures var k := EntityId(value.company.tenant, value.company.company, value.id);
        master == old(master).(customers := old(master).customers[k := value])
    {
      ghost var k := EntityId(value.company.tenant, value.company.company, value.id);
      EntityWritten(customers, master.customers, k, value);
      customers := customers[EntityKey(value.company.tenant, value.company.company, value.id) := value];
      master := master.(customers := master.customers[k := value]);
    }

    method SeedProduct(value: Product)
      requires Valid() && Clean(EntityId(value.company.tenant, value.company.company, value.id))
      modifies this
      ensures Valid() && view == old(view) && (old(master).Valid() ==> master.Valid())
      ensures var k := EntityId(value.company.tenant, value.company.company, value.id);
        master == old(master).(products := old(master).products[k := value])
    {
      ghost var k := EntityId(value.company.tenant, value.company.company, value.id);
      EntityWritten(products, master.products, k, value);
      products := products[EntityKey(value.company.tenant, value.company.company, value.id) := value];
      master := master.(products := master.products[k := value]);
    }

    method SeedTaxRate(value: TaxRate)
      requires Valid()
      modifies this
      ensures Valid() && view == old(view)
      ensures master == old(master).(taxRates := old(master).taxRates + [value])
    {
      taxRates := taxRates + [value];
      master := master.(taxRates := taxRates);
    }

    method SeedFiscalPeriod(value: FiscalPeriod)
      requires Valid()
      modifies this
      ensures Valid() && view == old(view)
      ensures master == old(master).(periods := old(master).periods + [value])
    {
      periods := periods + [value];
      master := master.(periods := periods);
    }

    method SeedPostingConfig(c: CompanyId, value: PostingConfig)
      requires Valid() && NulFree(c.tenant)
      modifies this
      ensures Valid() && view == old(view)
      ensures master == old(master).(posting := old(master).posting[c := value])
    {
      CompanyWritten(posting, master.posting, c, value);
      posting := posting[CompanyKey(c.tenant, c.company) := value];
      master := master.(posting := master.posting[c := value]);
    }

    method SeedStock(value: Movement)
      requires Valid()
      modifies this
      ensures Valid() && master == old(master)
      ensures view == old(view).(movements := old(view).movements + [value])
    {
      movements := movements + [value];
      view := view.(movements := movements);
    }

    // Reading.

    method Authorize(scope: Scope, actor: string, code: string) returns (allowed: bool)
      requires Valid() && CleanScope(scope) && NulFree(actor)
      ensures allowed <==> Permission(scope, actor, code) in master.permissions
    {
      ghost var p := Permission(scope, actor, code);
      assert CleanPermission(p) && FlatPermission(p) == PermissionKey(scope, actor, code);
      var key := PermissionKey(scope, actor, code);
      return key in permissions && permissions[key];
    }

    method Customer(scope: Scope, id: string) returns (r: Result<Account>)
      requires Valid() && CleanScope(scope)
      ensures r == FindCustomer(master, scope, id)
    {
      assert Clean(scope.Entity(id)) && Flat(scope.Entity(id)) == EntityKey(scope.tenant, scope.company, id);
      var key := EntityKey(scope.tenant, scope.company, id);
      return if key in customers then Ok(customers[key]) else Err(NotFound);
    }

    method Product(scope: Scope, id: string) returns (r: Result<Product>)
      requires Valid() && CleanScope(scope)
      ensures r == FindProduct(master, scope, id)
    {
      assert Clean(scope.Entity(id)) && Flat(scope.Entity(id)) == EntityKey(scope.tenant, scope.company, id);
      var key := EntityKey(scope.tenant, scope.company, id);
      return if key in products then Ok(products[key]) else Err(NotFound);
    }

    method TaxRateBasisPoints(scope: Scope, code: string, at: int) returns (r: Result<int64>)
      requires Valid()
      ensures r == FindRate(master, scope, code, at)
    {
      var selected := ScanRates(taxRates, scope.Company(), code, at);
      return if selected.Some? then Ok(selected.value.basisPoints) else Err(NotFound);
    }

    method AvailableStock(scope: Scope, productId: string) returns (quantity: int64)
      requires Valid()
      ensures quantity == Available(view.movements, Loc(scope, productId))
    {
      quantity := Accumulate(movements, AtLoc(Loc(scope, productId)));
    }

    method CreditExposure(scope: Scope, customerId: string) returns (amount: int64)
      requires Valid()
      ensures amount == Exposure(view.ledger, scope.Company(), customerId)
    {
      amount := Accumulate(ledger, OwedBy(scope.Company(), customerId));
    }

    method FiscalPeriodOpen(scope: Scope, at: int) returns (open: bool)
      requires Valid()
      ensures open == PeriodOpen(master.periods, scope.Company(), at)
    {
      open := ScanPeriods(periods, scope.Company(), at);
    }

    method SalesPostingConfig(scope: Scope) returns (r: Result<PostingConfig>)
      requires Valid() && CleanScope(scope)
      ensures r == if scope.Company() in master.posting then Ok(master.posting[scope.Company()])
                   else Err(PostingConfigMissing)
    {
      var c := scope.Company();
      assert NulFree(c.tenant) && CompanyKey(c.tenant, c.company) == CompanyKey(scope.tenant, scope.company);
      var key := CompanyKey(scope.tenant, scope.company);
      return if key in posting then Ok(posting[key]) else Err(PostingConfigMissing);
    }

    method Sale(scope: Scope, id: string) returns (r: Result<Sale>)
      requires Valid() && CleanScope(scope)
      ensures r == FindSale(Memory, view, scope, id)
    {
      assert Clean(scope.Entity(id)) && Flat(scope.Entity(id)) == EntityKey(scope.tenant, scope.company, id);
      var key := EntityKey(scope.tenant, scope.company, id);
      return if key in sales then Ok(sales[key]) else Err(NotFound);
    }

    method StockMovementsBySource(scope: Scope, id: string) returns (rows: seq<Movement>)
      requires Valid()
      ensures rows == ReadMovements(Memory, view, scope, id)
    {
      rows := Select(movements, MovedBy(scope.Company(), FromSale, id));
    }

    method CustomerLedgerBySource(scope: Scope, id: string) returns (rows: seq<LedgerEntry>)
      requires Valid()
      ensures rows == ReadLedger(Memory, view, scope, id)
    {
      rows := Select(ledger, EnteredBy(scope.Company(), FromSale, id));
    }

    method PaymentsBySale(scope: Scope, id: string) returns (rows: seq<Payment>)
      requires Valid()
      ensures rows == ReadPayments(Memory, view, scope, id)
    {
      rows := Select(payments, PaidFor(scope.Company(), id));
    }

    method JournalBySource(scope: Scope, id: string) returns (r: Result<Journal>)
      requires Valid()
      ensures var rows := ReadJournals(view, scope, id);
        r == if rows == [] then Err(NotFound) else Ok(rows[0])
    {
      r := First(journals, JournaledBy(scope.Company(), FromSale, id));
    }

    // Writing.

    method ClaimIdempotency(c: ClaimId, hash: Hash) returns (r: Admission)
      requires Valid() && CleanClaim(c)
      modifies this
      ensures Valid() && master == old(master)
      ensures r == if c !in old(view).claims then Acquired
                   else if old(view).claims[c].hash != hash then Rejected(IdempotencyConflict)
                   else if old(view).claims[c].resultId == "" then Rejected(NoCommittedResult)
                   else Replay(old(view).claims[c].resultId)
      ensures view == if r.Acquired? then old(view).(claims := old(view).claims[c := Claim(hash, "")]) else old(view)
    {
      var key := IdempotencyKey(c.tenant, c.company, c.operation, c.key);
      assert key == FlatClaim(c);
      if key in idempotencies {
        var found := idempotencies[key];
        if found.hash != hash {
          return Rejected(IdempotencyConflict);
        }
        if found.resultId == "" {
          return Rejected(NoCommittedResult);
        }
        return Replay(found.resultId);
      }
      ClaimWritten(idempotencies, view.claims, c, Claim(hash, ""));
      idempotencies := idempotencies[key := Claim(hash, "")];
      view := view.(claims := view.claims[c := Claim(hash, "")]);
      return Acquired;
    }

    method CompleteIdempotency(c: ClaimId, resultId: string) returns (check: Check)
      requires Valid() && CleanClaim(c)
      modifies this
      ensures Valid() && master == old(master)
      ensures check == Need(c in old(view).claims && old(view).claims[c].resultId == ""
                            && resultId != "", InvalidCompletion)
      ensures view == if check.Pass?
        then old(view).(claims := old(view).claims[c := Claim(old(view).claims[c].hash, resultId)]) else old(view)
    {
      var key := IdempotencyKey(c.tenant, c.company, c.operation, c.key);
      assert key == FlatClaim(c);
      if key !in idempotencies || idempotencies[key].resultId != "" || resultId == "" {
        return Fail(InvalidCompletion);
      }
      var value := idempotencies[key].(resultId := resultId);
      ClaimWritten(idempotencies, view.claims, c, value);
      idempotencies := idempotencies[key := value];
      view := view.(claims := view.claims[c := value]);
      return Pass;
    }

    method CreateSale(value: Sale) returns (check: Check)
      requires Valid() && Clean(value.Key())
      modifies this
      ensures Valid() && master == old(master)
      ensures check == Need(value.Key() !in old(view).sales, Duplicate)
      ensures view == if check.Pass? then old(view).(sales := old(view).sales[value.Key() := value]) else old(view)
    {
      var key := EntityKey(value.scope.tenant, value.scope.company, value.id);
      assert Clean(value.Key()) && key == Flat(value.Key());
      if key in sales {
        return Fail(Duplicate);
      }
      EntityWritten(sales, view.sales, value.Key(), value);
      sales := sales[key := value];
      view := view.(sales := view.sales[value.Key() := value]);
      return Pass;
    }

    method MarkSaleReversed(scope: Scope, id: string, at: int) returns (check: Check)
      requires Valid() && CleanScope(scope)
      modifies this
      ensures Valid() && master == old(master)
      ensures var k := scope.Entity(id);
        && check == (if k !in old(view).sales then Fail(NotFound)
                     else Need(old(view).sales[k].status == Posted, AlreadyReversed))
        && view == if check.Pass? then old(view).(sales := MarkReversed(old(view).sales, Some(k), at)) else old(view)
    {
      var key := EntityKey(scope.tenant, scope.company, id);
      assert Clean(scope.Entity(id)) && key == Flat(scope.Entity(id));
      if key !in sales {
        return Fail(NotFound);
      }
      var value := sales[key];
      if value.status == Reversed {
        return Fail(AlreadyReversed);
      }
      value := value.(status := Reversed, reversedAt := Some(at));
      EntityWritten(sales, view.sales, scope.Entity(id), value);
      sales := sales[key := value];
      view := view.(sales := view.sales[scope.Entity(id) := value]);
      return Pass;
    }

    method AppendStockMovement(value: Movement) returns (check: Check)
      requires Valid()
      modifies this
      ensures Valid() && master == old(master)
      ensures check == Need(!HasId(old(view).movements, MoveId(), value.id), Duplicate)
      ensures view == if check.Pass? then old(view).(movements := old(view).movements + [value]) else old(view)
    {
      var found := Contains(movements, MoveId(), value.id);
      if found {
        return Fail(Duplicate);
      }
      movements := movements + [value];
      view := view.(movements := movements);
      return Pass;
    }

    method AppendCustomerLedgerEntry(value: LedgerEntry) returns (check: Check)
      requires Valid()
      modifies this
      ensures Valid() && master == old(master)
      ensures check == Need(!HasId(old(view).ledger, EntryId(), value.id), Duplicate)
      ensures view == if check.Pass? then old(view).(ledger := old(view).ledger + [value]) else old(view)
    {
      var found := Contains(ledger, EntryId(), value.id);
      if found {
        return Fail(Duplicate);
      }
      ledger := ledger + [value];
      view := view.(ledger := ledger);
      return Pass;
    }

    method CreatePayment(value: Payment) returns (check: Check)
      requires Valid()
      modifies this
      ensures Valid() && master == old(master)
      ensures check == Need(!HasId(old(view).payments, PayId(), value.id), Duplicate)
      ensures view == if check.Pass? then old(view).(payments := old(view).payments + [value]) else old(view)
    {
      var found := Contains(payments, PayId(), value.id);
      if found {
        return Fail(Duplicate);
      }
      payments := payments + [value];
      view := view.(payments := payments);
      return Pass;
    }

    method CreateJournal(value: Journal) returns (check: Check)
      requires Valid()
      modifies this
      ensures Valid() && master == old(master)
      ensures check == if !Finance.Validates(value) then Fail(UnbalancedJournal)
                       else Need(!HasId(old(view).journals, JournalId(), value.id)
                                 && Filter(old(view).journals,
                                           JournaledBy(value.company, value.source, value.sourceId)) == [],
                                 Duplicate)
      ensures view == if check.Pass? then old(view).(journals := old(view).journals + [value]) else old(view)
    {
      check := Finance.Validate(value);
      if check.Fail? {
        return;
      }
      var sameId := Contains(journals, JournalId(), value.id);
      var sameSource := Select(journals, JournaledBy(value.company, value.source, value.sourceId));
      if sameId || sameSource != [] {
        return Fail(Duplicate);
      }
      journals := journals + [value];
      view := view.(journals := journals);
    }

    method AppendAuditEvent(value: AuditEvent) returns (check: Check)
      requires Valid()
      modifies this
      ensures Valid() && master == old(master)
      ensures check == Need(!HasId(old(view).audits, AuditId(), value.id), Duplicate)
      ensures view == if check.Pass? then old(view).(audits := old(view).audits + [value]) else old(view)
    {
      var found := Contains(audits, AuditId(), value.id);
      if found {
        return Fail(Duplicate);
      }
      audits := audits + [value];
      view := view.(audits := audits);
      return Pass;
    }

    method AppendOutboxEvent(value: OutboxEvent) returns (check: Check)
      requires Valid()
      modifies this
      ensures Valid() && master == old(master)
      ensures check == Need(!HasId(old(view).outbox, EventId(), value.id), Duplicate)
      ensures view == if check.Pass? then old(view).(outbox := old(view).outbox + [value]) else old(view)
    {
      var found := Contains(outbox, EventId(), value.id);
      if found {
        return Fail(Duplicate);
      }
      outbox := outbox + [value];
      view := view.(outbox := outbox);
      return Pass;
    }
  }

  /** Every table entry by entry into new tables, as cloneState does. */
  method CloneTable<V>(source: map<string, V>) returns (result: map<string, V>)
    ensures result == source
  {
    result := map[];
    var left := source.Keys;
    while left != {}
      invariant left <= source.Keys && result.Keys == source.Keys - left
      invariant forall k :: k in result ==> result[k] == source[k]
    {
      var key :| key in left;
      result := result[key := source[key]];
      left := left - {key};
    }
  }

  method Clone(source: MemState) returns (result: MemState)
    requires source.Valid()
    ensures fresh(result) && result.Valid()
    ensures result.master == source.master && result.view == source.view
  {
    var permissions := CloneTable(source.permissions);
    var customers := CloneTable(source.customers);
    var products := CloneTable(source.products);
    var posting := CloneTable(source.posting);
    var sales := CloneTable(source.sales);
    var idempotencies := CloneTable(source.idempotencies);
    result := new MemState.Holding(source, permissions, customers, products, posting, sales, idempotencies);
  }

  /** Transactions work on a clone; committing installs it. */
  class Store {
    var state: MemState

    ghost predicate Valid()
      reads this, state
    {
      state.Valid() && Keyed(state.view)
    }

    constructor ()
      ensures Valid() && fresh(state)
      ensures state.view == Initial([]) && state.master == Master({}, map[], map[], [], [], map[])
    {
      state := new MemState();
    }
  }
}
