/** The records of the sales app. Amounts are 64-bit minor units, instants are microseconds. */
module Mobile {
  import opened Basics
  import opened Sums

  /** The microseconds a DateTime can hold. */
  type Instant = x: int | -8_640_000_000_000_000_000 <= x <= 8_640_000_000_000_000_000

  datatype SaleType = CashSale | CreditSale
  datatype PayMethod = PayCash | MobileMoney | Card | BankTransfer
  datatype SyncStatus = Draft | PendingSync | Syncing | Synced | Rejected | RequiresReview

  datatype CreditSnapshot = CreditSnapshot(limit: int64, currentExposure: int64, overdueAmount: int64, dueDate: Instant)

  datatype Customer = Customer(id: string, name: string, code: string, isGeneral: bool, isActive: bool,
                               creditEnabled: bool, inAttendantScope: bool, phone: Option<string>,
                               credit: Option<CreditSnapshot>)

  datatype Product = Product(id: string, code: string, name: string, commonDescription: string, brand: string,
                             category: string, unitName: string, sellingPrice: int64, availableQuantity: int64)

  datatype CartLine = CartLine(product: Product, unitPrice: int64, quantity: int64)

  datatype DeviceContext = DeviceContext(deviceId: string, userId: string, companyId: string, branchId: string,
                                         warehouseId: string, appVersion: string, masterDataVersion: string,
                                         priceVersion: string)

  datatype SaleDraft = SaleDraft(clientTransactionId: string, createdAt: Instant, saleType: SaleType,
                                 customer: Customer, paymentMethod: PayMethod, lines: seq<CartLine>)

  datatype CompletedSale = CompletedSale(serverSaleId: string, receiptNumber: string, clientTransactionId: string,
                                         deviceId: string, customer: Customer, saleType: SaleType,
                                         paymentMethod: PayMethod, lines: seq<CartLine>, total: int64,
                                         createdAt: Instant, paymentStatus: string, syncStatus: SyncStatus,
                                         syncMessage: Option<string>)

  datatype SyncCommand = SyncCommand(deviceId: string, userId: string, clientTransactionId: string,
                                     clientTimestamp: Instant, companyId: string, branchId: string, warehouseId: string,
                                     appVersion: string, masterDataVersion: string, priceVersion: string,
                                     syncAttemptNumber: int64, sale: CompletedSale) {
    function IdempotencyKey(): string {
      Key(deviceId, clientTransactionId)
    }
  }

  datatype SyncResult = SyncResult(serverSaleId: string, receiptNumber: string, wasDuplicate: bool)

  function Key(deviceId: string, clientTransactionId: string): string {
    deviceId + "::" + clientTransactionId
  }

  /** One device never gives two transactions the same key. */
  lemma KeyInjective(deviceId: string, a: string, b: string)
    requires Key(deviceId, a) == Key(deviceId, b)
    ensures a == b
  {
    var k := deviceId + "::";
    assert (k + a)[|k|..] == a && (k + b)[|k|..] == b;
  }

  function Subtotal(): CartLine -> int {
    (line: CartLine) => line.unitPrice * line.quantity
  }

  /** Dart integers wrap at 64 bits. */
  function Total(lines: seq<CartLine>): int64 {
    Wrap(Sum(lines, Subtotal()))
  }
}
