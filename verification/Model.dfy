/** The records of the sales core: master data, posted records and append-only ledgers. */
module Model {
  import opened Basics

  datatype CompanyId = CompanyId(tenant: string, company: string)

  /** A customer, product or sale of one company. */
  datatype EntityId = EntityId(tenant: string, company: string, id: string)

  datatype ClaimId = ClaimId(tenant: string, company: string, operation: string, key: string)

  datatype Scope = Scope(tenant: string, company: string, branch: string, warehouse: string) {
    function Company(): CompanyId {
      CompanyId(tenant, company)
    }
    function Entity(id: string): EntityId {
      EntityId(tenant, company, id)
    }
    predicate Valid() {
      !Blank(tenant) && !Blank(company) && !Blank(branch) && !Blank(warehouse)
    }
  }

  // Master data, fixed during a run.

  datatype Account = Account(company: CompanyId, id: string, name: string, active: bool,
                             general: bool, creditEnabled: bool, creditLimit: int64)

  datatype Product = Product(company: CompanyId, id: string, active: bool, currency: string,
                             listPrice: int64, standardCost: int64, taxCode: string,
                             revenueAccount: string, cogsAccount: string, inventoryAccount: string)

  datatype TaxRate = TaxRate(company: CompanyId, code: string, basisPoints: int64,
                             effectiveFrom: int, effectiveTo: Option<int>)

  datatype FiscalPeriod = FiscalPeriod(company: CompanyId, startsAt: int, endsAt: int, open: bool)

  datatype PostingConfig = PostingConfig(receivable: string, taxPayable: string, cash: map<string, string>)

  datatype Permission = Permission(scope: Scope, actor: string, code: string)

  datatype Master = Master(permissions: set<Permission>, customers: map<EntityId, Account>,
                           products: map<EntityId, Product>, taxRates: seq<TaxRate>,
                           periods: seq<FiscalPeriod>, posting: map<CompanyId, PostingConfig>) {
    /** Seeding files every account and product under its own identifier. */
    ghost predicate Valid() {
      && (forall k :: k in customers ==>
        EntityId(customers[k].company.tenant, customers[k].company.company, customers[k].id) == k)
      && (forall k :: k in products ==>
        EntityId(products[k].company.tenant, products[k].company.company, products[k].id) == k)
    }
  }

  // Posted records.

  datatype Kind = Cash | Credit | OtherKind(name: string)
  datatype RecordType = SaleRecord | ReversalRecord
  datatype Status = Posted | Reversed

  /** The source of a ledger row; receipts and opening balances have other sources. */
  datatype Source = FromSale | FromReversal | FromOther(name: string)

  datatype Line = Line(id: string, productId: string, quantity: int64, unitPrice: int64,
                       subtotal: int64, tax: int64, total: int64, unitCost: int64, cogs: int64)

  datatype Sale = Sale(id: string, scope: Scope, recordType: RecordType, kind: Kind, status: Status,
                       customerId: string, currency: string, subtotal: int64, tax: int64,
                       total: int64, cogs: int64, paymentMethod: string, reversalOf: string,
                       reversalReason: string, createdBy: string, correlationId: string,
                       createdAt: int, reversedAt: Option<int>, lines: seq<Line>) {
    function Key(): EntityId {
      scope.Entity(id)
    }
    function Source(): Source {
      if recordType == SaleRecord then FromSale else FromReversal
    }
  }

  datatype Movement = Movement(id: string, scope: Scope, productId: string, source: Source,
                               sourceId: string, quantity: int64, occurredAt: int)

  datatype LedgerEntry = LedgerEntry(id: string, company: CompanyId, customerId: string, source: Source,
                                     sourceId: string, amount: int64, currency: string, occurredAt: int)

  datatype Payment = Payment(id: string, company: CompanyId, saleId: string, accountId: string,
                             payMethod: string, amount: int64, currency: string, occurredAt: int)

  datatype JournalEntry = JournalEntry(accountId: string, debit: int64, credit: int64, memo: string)

  datatype Journal = Journal(id: string, company: CompanyId, source: Source, sourceId: string,
                             currency: string, occurredAt: int, entries: seq<JournalEntry>)

  /** The JSON payload of an event is the sale it was marshalled from. */
  datatype AuditEvent = AuditEvent(id: string, company: CompanyId, actor: string, action: string,
                                   entityType: string, entityId: string, correlationId: string,
                                   causationId: string, data: Sale, occurredAt: int)

  datatype OutboxEvent = OutboxEvent(id: string, company: CompanyId, aggregateType: string,
                                     aggregateId: string, eventType: string, version: int,
                                     correlationId: string, causationId: string, payload: Sale,
                                     occurredAt: int)

  /** The hash of a command determines its hashed fields. */
  datatype Hash =
    | CompleteHash(scope: Scope, customerId: string, kind: Kind, paymentMethod: string,
                   lines: seq<CommandLine>, actor: string)
    | ReverseHash(scope: Scope, saleId: string, reason: string, actor: string)

  datatype Claim = Claim(hash: Hash, resultId: string)

  /** Everything a transaction may change. */
  datatype State = State(sales: map<EntityId, Sale>, movements: seq<Movement>, ledger: seq<LedgerEntry>,
                         payments: seq<Payment>, journals: seq<Journal>, audits: seq<AuditEvent>,
                         outbox: seq<OutboxEvent>, claims: map<ClaimId, Claim>)

  // Commands.

  datatype CommandLine = CommandLine(productId: string, quantity: int64)

  datatype CompleteCommand = CompleteCommand(scope: Scope, customerId: string, kind: Kind,
                                             paymentMethod: string, lines: seq<CommandLine>,
                                             actor: string, correlationId: string, key: string) {
    function Hash(): Hash {
      CompleteHash(scope, customerId, kind, paymentMethod, lines, actor)
    }
    function Claim(): ClaimId {
      ClaimId(scope.tenant, scope.company, COMPLETE, key)
    }
    function Normalized(): CompleteCommand {
      this.(paymentMethod := ToUpper(TrimSpace(paymentMethod)))
    }
    function Validate(): Check {
      if !scope.Valid() then Fail(InvalidScope)
      else if Blank(customerId) || Blank(actor) || Blank(key) || lines == [] then Fail(InvalidCommand)
      else if kind.OtherKind? then Fail(InvalidSaleKind)
      else if kind == Cash && Blank(paymentMethod) then Fail(PaymentMethodRequired)
      else if kind == Credit && !Blank(paymentMethod) then Fail(InvalidCommand)
      else if exists i :: 0 <= i < |lines| && (Blank(lines[i].productId) || lines[i].quantity <= 0)
        then Fail(InvalidLine)
      else Pass
    }
  }

  datatype ReverseCommand = ReverseCommand(scope: Scope, saleId: string, reason: string, actor: string,
                                           correlationId: string, key: string) {
    function Hash(): Hash {
      ReverseHash(scope, saleId, reason, actor)
    }
    function Claim(): ClaimId {
      ClaimId(scope.tenant, scope.company, REVERSE, key)
    }
    function Validate(): Check {
      if !scope.Valid() then Fail(InvalidScope)
      else if Blank(saleId) || Blank(reason) || Blank(actor) || Blank(key) then Fail(InvalidCommand)
      else Pass
    }
  }

  const COMPLETE: string := "sales.complete.v1"
  const REVERSE: string := "sales.reverse.v1"
}
