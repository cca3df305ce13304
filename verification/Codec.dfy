/** The JSON form of local records, as trees; the text between encoding and decoding is left out. */
module Codec {
  import opened Basics
  import opened Mobile

  datatype Double = Finite(r: real) | Infinite | NaN

  datatype Json =
    | JNull
    | JBool(b: bool)
    | JInt(i: int64)
    | JDouble(d: Double)
    | JString(s: string)
    | JList(items: seq<Json>)
    | JMap(entries: map<string, Json>)

  /** What decoding yields: a value, or an exception. */
  datatype Read<+T> = Got(value: T) | Throws {
    predicate IsFailure() {
      Throws?
    }
    function PropagateFailure<U>(): Read<U>
      requires Throws?
    {
      Throws
    }
    function Extract(): T
      requires Got?
    {
      value
    }
  }

  function Get(m: map<string, Json>, key: string): Json {
    if key in m then m[key] else JNull
  }

  function AsMap(v: Json): Read<map<string, Json>> {
    if v.JMap? then Got(v.entries) else Throws
  }

  function AsList(v: Json): Read<seq<Json>> {
    if v.JList? then Got(v.items) else Throws
  }

  function Text(m: map<string, Json>, key: string): Read<string> {
    if Get(m, key).JString? then Got(Get(m, key).s) else Throws
  }

  function OptionalText(m: map<string, Json>, key: string): Read<Option<string>> {
    if Get(m, key).JNull? then Got(None) else if Get(m, key).JString? then Got(Some(Get(m, key).s)) else Throws
  }

  function Flag(m: map<string, Json>, key: string): Read<bool> {
    if Get(m, key).JBool? then Got(Get(m, key).b) else Throws
  }

  function Whole(m: map<string, Json>, key: string): Read<int64> {
    if Get(m, key).JInt? then Got(Get(m, key).i) else Throws
  }

  function FromText(t: Option<string>): Json {
    if t.Some? then JString(t.value) else JNull
  }

  // Exact integers.

  /** double.toInt stops at the ends of the 64-bit range. */
  function Clamp(x: int): int64 {
    if x < MIN64 then MIN64 else if x > MAX64 then MAX64 else x
  }

  /** An int, or a double without a fractional part. */
  function ExactInt(v: Json): Read<int64> {
    match v
    case JInt(i) => Got(i)
    case JDouble(Finite(r)) => if r == r.Floor as real then Got(Clamp(r.Floor)) else Throws
    case _ => Throws
  }

  predicate IsNumber(v: Json) {
    v.JInt? || (v.JDouble? && v.d.Finite?)
  }

  /** The number a stored value stands for. */
  function Amount(v: Json): real {
    match v
    case JInt(i) => i as real
    case JDouble(Finite(r)) => r
    case _ => 0.0
  }

  predicate InRange(v: Json) {
    MIN64 as real <= Amount(v) <= MAX64 as real
  }

  /** Reading is exact precisely for whole numbers inside the 64-bit range. */
  lemma ExactIntReads(v: Json)
    ensures ExactInt(v).Got? <==> IsNumber(v) && Amount(v) == Amount(v).Floor as real
    ensures ExactInt(v).Got? ==> (ExactInt(v).value as real == Amount(v) <==> InRange(v))
  {
  }

  // Dates.

  function Millis(t: Instant): (ms: int64)
    ensures -8_640_000_000_000_000 <= ms <= 8_640_000_000_000_000
  {
    if t >= 0 then t / 1000 else -((-t) / 1000)
  }

  function FromMillis(ms: int64): Read<Instant> {
    if -8_640_000_000_000_000 <= ms <= 8_640_000_000_000_000 then Got(ms * 1000) else Throws
  }

  /** The instant with its microseconds dropped. */
  function Coarse(t: Instant): Instant {
    Millis(t) * 1000
  }

  lemma CoarseSame(t: Instant)
    ensures FromMillis(Millis(t)) == Got(Coarse(t))
    ensures Coarse(t) == t <==> t % 1000 == 0
  {
  }

  // Enumerations.

  function SaleTypeName(t: SaleType): string {
    match t case CashSale => "cash" case CreditSale => "credit"
  }

  function SaleTypeByName(s: string): Read<SaleType> {
    if s == "cash" then Got(CashSale) else if s == "credit" then Got(CreditSale) else Throws
  }

  function PayName(p: PayMethod): string {
    match p
    case PayCash => "cash"
    case MobileMoney => "mobileMoney"
    case Card => "card"
    case BankTransfer => "bankTransfer"
  }

  function PayByName(s: string): Read<PayMethod> {
    if s == "cash" then Got(PayCash) else if s == "mobileMoney" then Got(MobileMoney)
    else if s == "card" then Got(Card) else if s == "bankTransfer" then Got(BankTransfer) else Throws
  }

  function StatusName(s: SyncStatus): string {
    match s
    case Draft => "draft"
    case PendingSync => "pendingSync"
    case Syncing => "syncing"
    case Synced => "synced"
    case Rejected => "rejected"
    case RequiresReview => "requiresReview"
  }

  function StatusByName(s: string): Read<SyncStatus> {
    if s == "draft" then Got(Draft) else if s == "pendingSync" then Got(PendingSync)
    else if s == "syncing" then Got(Syncing) else if s == "synced" then Got(Synced)
    else if s == "rejected" then Got(Rejected) else if s == "requiresReview" then Got(RequiresReview) else Throws
  }

  lemma NamesReadBack(t: SaleType, p: PayMethod, s: SyncStatus)
    ensures SaleTypeByName(SaleTypeName(t)) == Got(t) && PayByName(PayName(p)) == Got(p)
      && StatusByName(StatusName(s)) == Got(s)
  {
  }

  // Customers.

  function CreditToMap(c: CreditSnapshot): map<string, Json> {
    map["limit" := JInt(c.limit), "currentExposure" := JInt(c.currentExposure),
        "overdueAmount" := JInt(c.overdueAmount), "dueDate" := JInt(Millis(c.dueDate))]
  }

  function CreditFromMap(m: map<string, Json>): Read<CreditSnapshot> {
    var limit :- ExactInt(Get(m, "limit"));
    var exposure :- ExactInt(Get(m, "currentExposure"));
    var overdue :- ExactInt(Get(m, "overdueAmount"));
    var due :- Whole(m, "dueDate");
    var dueDate :- FromMillis(due);
    Got(CreditSnapshot(limit, exposure, overdue, dueDate))
  }

  function CustomerToMap(c: Customer): map<string, Json> {
    map["id" := JString(c.id), "name" := JString(c.name), "code" := JString(c.code), "isGeneral" := JBool(c.isGeneral),
        "isActive" := JBool(c.isActive), "creditEnabled" := JBool(c.creditEnabled),
        "inAttendantScope" := JBool(c.inAttendantScope), "phone" := FromText(c.phone),
        "credit" := if c.credit.Some? then JMap(CreditToMap(c.credit.value)) else JNull]
  }

  function CreditOf(m: map<string, Json>): Read<Option<CreditSnapshot>> {
    if Get(m, "credit").JNull? then Got(None) else
    var creditMap :- AsMap(Get(m, "credit"));
    var credit :- CreditFromMap(creditMap);
    Got(Some(credit))
  }

  function CustomerFromMap(m: map<string, Json>): Read<Customer> {
    var credit :- CreditOf(m);
    var id :- Text(m, "id");
    var name :- Text(m, "name");
    var code :- Text(m, "code");
    var isGeneral :- Flag(m, "isGeneral");
    var isActive :- Flag(m, "isActive");
    var creditEnabled :- Flag(m, "creditEnabled");
    var inScope :- Flag(m, "inAttendantScope");
    var phone :- OptionalText(m, "phone");
    Got(Customer(id, name, code, isGeneral, isActive, creditEnabled, inScope, phone, credit))
  }

  // Products and lines.

  function ProductToMap(p: Product): map<string, Json> {
    map["id" := JString(p.id), "code" := JString(p.code), "name" := JString(p.name),
        "commonDescription" := JString(p.commonDescription), "brand" := JString(p.brand),
        "category" := JString(p.category), "unit" := JString(p.unitName), "sellingPrice" := JInt(p.sellingPrice),
        "availableQuantity" := JInt(p.availableQuantity)]
  }

  function ProductFromMap(m: map<string, Json>): Read<Product> {
    var id :- Text(m, "id");
    var code :- Text(m, "code");
    var name :- Text(m, "name");
    var description :- Text(m, "commonDescription");
    var brand :- Text(m, "brand");
    var category :- Text(m, "category");
    var unitName :- Text(m, "unit");
    var price :- ExactInt(Get(m, "sellingPrice"));
    var available :- ExactInt(Get(m, "availableQuantity"));
    Got(Product(id, code, name, description, brand, category, unitName, price, available))
  }

  function LineToMap(line: CartLine): Json {
    JMap(map["product" := JMap(ProductToMap(line.product)), "quantity" := JInt(line.quantity),
             "unitPrice" := JInt(line.unitPrice)])
  }

  /** The captured price replaces the product's, as the constructor of a cart line does. */
  function LineFrom(v: Json): Read<CartLine> {
    var m :- AsMap(v);
    var productMap :- AsMap(Get(m, "product"));
    var stored :- ProductFromMap(productMap);
    var price :- ExactInt(Get(m, "unitPrice"));
    var quantity :- ExactInt(Get(m, "quantity"));
    Got(CartLine(stored.(sellingPrice := price), price, quantity))
  }

  function LinesFrom(items: seq<Json>): Read<seq<CartLine>> {
    if items == [] then Got([]) else
    var lines :- LinesFrom(items[..|items| - 1]);
    var line :- LineFrom(items[|items| - 1]);
    Got(lines + [line])
  }

  function LinesToList(lines: seq<CartLine>): seq<Json> {
    seq(|lines|, i requires 0 <= i < |lines| => LineToMap(lines[i]))
  }

  // Sales and commands.

  function EncodeSale(s: CompletedSale): map<string, Json> {
    map["serverSaleId" := JString(s.serverSaleId), "receiptNumber" := JString(s.receiptNumber),
        "clientTransactionId" := JString(s.clientTransactionId), "deviceId" := JString(s.deviceId),
        "customer" := JMap(CustomerToMap(s.customer)), "saleType" := JString(SaleTypeName(s.saleType)),
        "paymentMethod" := JString(PayName(s.paymentMethod)), "lines" := JList(LinesToList(s.lines)),
        "total" := JInt(s.total), "createdAt" := JInt(Millis(s.createdAt)), "paymentStatus" := JString(s.paymentStatus),
        "syncStatus" := JString(StatusName(s.syncStatus)), "syncMessage" := FromText(s.syncMessage)]
  }

  /** The fields that need no exact integer. */
  datatype SaleHead = SaleHead(serverSaleId: string, receiptNumber: string, clientTransactionId: string,
                               deviceId: string, saleType: SaleType, paymentMethod: PayMethod, createdAt: Instant,
                               paymentStatus: string, syncStatus: SyncStatus, syncMessage: Option<string>)

  function HeadFrom(m: map<string, Json>): Read<SaleHead> {
    var serverSaleId :- Text(m, "serverSaleId");
    var receiptNumber :- Text(m, "receiptNumber");
    var clientTransactionId :- Text(m, "clientTransactionId");
    var deviceId :- Text(m, "deviceId");
    var saleTypeName :- Text(m, "saleType");
    var saleType :- SaleTypeByName(saleTypeName);
    var payName :- Text(m, "paymentMethod");
    var paymentMethod :- PayByName(payName);
    var created :- Whole(m, "createdAt");
    var createdAt :- FromMillis(created);
    var paymentStatus :- Text(m, "paymentStatus");
    var statusName :- Text(m, "syncStatus");
    var syncStatus :- StatusByName(statusName);
    var syncMessage :- OptionalText(m, "syncMessage");
    Got(SaleHead(serverSaleId, receiptNumber, clientTransactionId, deviceId, saleType, paymentMethod, createdAt,
                 paymentStatus, syncStatus, syncMessage))
  }

  function DecodeSale(v: Json): Read<CompletedSale> {
    var m :- AsMap(v);
    var items :- AsList(Get(m, "lines"));
    var lines :- LinesFrom(items);
    var customerMap :- AsMap(Get(m, "customer"));
    var customer :- CustomerFromMap(customerMap);
    var total :- ExactInt(Get(m, "total"));
    var h :- HeadFrom(m);
    Got(CompletedSale(h.serverSaleId, h.receiptNumber, h.clientTransactionId, h.deviceId, customer, h.saleType,
                      h.paymentMethod, lines, total, h.createdAt, h.paymentStatus, h.syncStatus, h.syncMessage))
  }

  function EncodeSyncCommand(c: SyncCommand): map<string, Json> {
    map["deviceId" := JString(c.deviceId), "userId" := JString(c.userId),
        "clientTransactionId" := JString(c.clientTransactionId), "clientTimestamp" := JInt(Millis(c.clientTimestamp)),
        "companyId" := JString(c.companyId), "branchId" := JString(c.branchId), "warehouseId" := JString(c.warehouseId),
        "appVersion" := JString(c.appVersion), "masterDataVersion" := JString(c.masterDataVersion),
        "priceVersion" := JString(c.priceVersion), "syncAttemptNumber" := JInt(c.syncAttemptNumber),
        "sale" := JMap(EncodeSale(c.sale))]
  }

  function DecodeSyncCommand(v: Json): Read<SyncCommand> {
    var m :- AsMap(v);
    var deviceId :- Text(m, "deviceId");
    var userId :- Text(m, "userId");
    var clientTransactionId :- Text(m, "clientTransactionId");
    var stamp :- Whole(m, "clientTimestamp");
    var clientTimestamp :- FromMillis(stamp);
    var companyId :- Text(m, "companyId");
    var branchId :- Text(m, "branchId");
    var warehouseId :- Text(m, "warehouseId");
    var appVersion :- Text(m, "appVersion");
    var masterDataVersion :- Text(m, "masterDataVersion");
    var priceVersion :- Text(m, "priceVersion");
    var attempt :- Whole(m, "syncAttemptNumber");
    var sale :- DecodeSale(Get(m, "sale"));
    Got(SyncCommand(deviceId, userId, clientTransactionId, clientTimestamp, companyId, branchId, warehouseId,
                    appVersion, masterDataVersion, priceVersion, attempt, sale))
  }

  // Round trips.

  /** What storage keeps of a record: milliseconds, and one price per line. */
  function Stored(s: CompletedSale): CompletedSale {
    s.(createdAt := Coarse(s.createdAt), customer := StoredCustomer(s.customer), lines := StoredLines(s.lines))
  }

  function StoredCustomer(c: Customer): Customer {
    if c.credit.Some? then c.(credit := Some(c.credit.value.(dueDate := Coarse(c.credit.value.dueDate)))) else c
  }

  function StoredLines(lines: seq<CartLine>): seq<CartLine> {
    seq(|lines|, i requires 0 <= i < |lines| =>
        lines[i].(product := lines[i].product.(sellingPrice := lines[i].unitPrice)))
  }

  predicate OnMillisecond(t: Instant) {
    t % 1000 == 0
  }

  /** Dates on the millisecond, and lines priced as their product is. */
  predicate Storable(s: CompletedSale) {
    && OnMillisecond(s.createdAt)
    && (s.customer.credit.Some? ==> OnMillisecond(s.customer.credit.value.dueDate))
    && (forall i :: 0 <= i < |s.lines| ==> s.lines[i].product.sellingPrice == s.lines[i].unitPrice)
  }

  lemma StoredSame(s: CompletedSale)
    ensures Stored(s) == s <==> Storable(s)
  {
    CoarseSame(s.createdAt);
    if s.customer.credit.Some? {
      CoarseSame(s.customer.credit.value.dueDate);
    }
    if Stored(s) == s {
      forall i | 0 <= i < |s.lines| ensures s.lines[i].product.sellingPrice == s.lines[i].unitPrice {
        assert StoredLines(s.lines)[i] == s.lines[i];
      }
    }
    if Storable(s) {
      assert StoredLines(s.lines) == s.lines;
    }
  }

  lemma CustomerReadsBack(c: Customer)
    ensures CustomerFromMap(CustomerToMap(c)) == Got(StoredCustomer(c))
  {
    if c.credit.Some? {
      CoarseSame(c.credit.value.dueDate);
      assert CreditFromMap(CreditToMap(c.credit.value)) == Got(StoredCustomer(c).credit.value);
    }
  }

  lemma LineReadsBack(line: CartLine)
    ensures LineFrom(LineToMap(line)) == Got(line.(product := line.product.(sellingPrice := line.unitPrice)))
  {
    assert ProductFromMap(ProductToMap(line.product)) == Got(line.product);
  }

  lemma {:induction false} LinesReadBack(lines: seq<CartLine>)
    ensures LinesFrom(LinesToList(lines)) == Got(StoredLines(lines))
  {
    if lines == [] {
      assert LinesToList(lines) == [] && StoredLines(lines) == [];
    } else {
      var n := |lines| - 1;
      var items, stored := LinesToList(lines), StoredLines(lines);
      assert items[..n] == LinesToList(lines[..n]);
      LinesReadBack(lines[..n]);
      LineReadsBack(lines[n]);
      assert items[n] == LineToMap(lines[n]);
      hide LineFrom, LineToMap;
      assert stored == StoredLines(lines[..n]) + [stored[n]];
      assert LinesFrom(items) == Got(StoredLines(lines[..n]) + [stored[n]]);
    }
  }

  lemma HeadReadsBack(s: CompletedSale)
    ensures HeadFrom(EncodeSale(s))
      == Got(SaleHead(s.serverSaleId, s.receiptNumber, s.clientTransactionId, s.deviceId, s.saleType,
                      s.paymentMethod, Coarse(s.createdAt), s.paymentStatus, s.syncStatus, s.syncMessage))
  {
    NamesReadBack(s.saleType, s.paymentMethod, s.syncStatus);
    CoarseSame(s.createdAt);
  }

  lemma SaleFields(s: CompletedSale)
    ensures var m := EncodeSale(s);
      && Get(m, "customer") == JMap(CustomerToMap(s.customer))
      && Get(m, "lines") == JList(LinesToList(s.lines))
      && Get(m, "total") == JInt(s.total)
  {
    hide CustomerToMap, LinesToList;
  }

  /** Decoding an encoded sale gives it back exactly when storage keeps all of it. */
  lemma SaleReadsBack(s: CompletedSale)
    ensures DecodeSale(JMap(EncodeSale(s))) == Got(Stored(s))
    ensures DecodeSale(JMap(EncodeSale(s))) == Got(s) <==> Storable(s)
  {
    CustomerReadsBack(s.customer);
    LinesReadBack(s.lines);
    HeadReadsBack(s);
    StoredSame(s);
    SaleFields(s);
    hide EncodeSale, HeadFrom, LinesFrom, CustomerFromMap, CustomerToMap, LinesToList, Storable, Get;
  }

  lemma CommandReadsBack(c: SyncCommand)
    ensures DecodeSyncCommand(JMap(EncodeSyncCommand(c)))
      == Got(c.(clientTimestamp := Coarse(c.clientTimestamp), sale := Stored(c.sale)))
    ensures DecodeSyncCommand(JMap(EncodeSyncCommand(c))) == Got(c) <==>
      OnMillisecond(c.clientTimestamp) && Storable(c.sale)
  {
    SaleReadsBack(c.sale);
    StoredSame(c.sale);
    CoarseSame(c.clientTimestamp);
    hide DecodeSale, EncodeSale, Stored, Storable, Millis, FromMillis, Coarse;
  }

  // The stored form, field by field, under the names other versions of the app read.

  lemma CustomerOnDisk(c: Customer)
    ensures var m := CustomerToMap(c);
      && m.Keys == {"id", "name", "code", "isGeneral", "isActive", "creditEnabled", "inAttendantScope", "phone",
                    "credit"}
      && m["id"] == JString(c.id) && m["name"] == JString(c.name) && m["code"] == JString(c.code)
      && m["isGeneral"] == JBool(c.isGeneral) && m["isActive"] == JBool(c.isActive)
      && m["creditEnabled"] == JBool(c.creditEnabled) && m["inAttendantScope"] == JBool(c.inAttendantScope)
      && m["phone"] == (if c.phone.Some? then JString(c.phone.value) else JNull)
      && (c.credit.None? ==> m["credit"] == JNull)
      && (c.credit.Some? ==> m["credit"] == JMap(
        map["limit" := JInt(c.credit.value.limit), "currentExposure" := JInt(c.credit.value.currentExposure),
            "overdueAmount" := JInt(c.credit.value.overdueAmount), "dueDate" := JInt(Millis(c.credit.value.dueDate))]))
  {
  }

  lemma LineOnDisk(line: CartLine)
    ensures LineToMap(line).JMap?
    ensures var m, p := LineToMap(line).entries, line.product;
      && m.Keys == {"product", "quantity", "unitPrice"}
      && m["quantity"] == JInt(line.quantity) && m["unitPrice"] == JInt(line.unitPrice)
      && m["product"] == JMap(
        map["id" := JString(p.id), "code" := JString(p.code), "name" := JString(p.name),
            "commonDescription" := JString(p.commonDescription), "brand" := JString(p.brand),
            "category" := JString(p.category), "unit" := JString(p.unitName), "sellingPrice" := JInt(p.sellingPrice),
            "availableQuantity" := JInt(p.availableQuantity)])
  {
  }

  lemma SaleOnDisk(s: CompletedSale)
    ensures var m := EncodeSale(s);
      && m.Keys == {"serverSaleId", "receiptNumber", "clientTransactionId", "deviceId", "customer", "saleType",
                    "paymentMethod", "lines", "total", "createdAt", "paymentStatus", "syncStatus", "syncMessage"}
      && m["serverSaleId"] == JString(s.serverSaleId) && m["receiptNumber"] == JString(s.receiptNumber)
      && m["clientTransactionId"] == JString(s.clientTransactionId) && m["deviceId"] == JString(s.deviceId)
      && m["customer"] == JMap(CustomerToMap(s.customer)) && m["lines"] == JList(LinesToList(s.lines))
      && m["total"] == JInt(s.total) && m["createdAt"] == JInt(Millis(s.createdAt))
      && m["paymentStatus"] == JString(s.paymentStatus)
      && m["syncMessage"] == (if s.syncMessage.Some? then JString(s.syncMessage.value) else JNull)
      && m["saleType"] == JString(if s.saleType == CashSale then "cash" else "credit")
      && m["paymentMethod"] == JString(if s.paymentMethod == PayCash then "cash"
                                       else if s.paymentMethod == MobileMoney then "mobileMoney"
                                       else if s.paymentMethod == Card then "card" else "bankTransfer")
      && m["syncStatus"] == JString(if s.syncStatus == Draft then "draft"
                                    else if s.syncStatus == PendingSync then "pendingSync"
                                    else if s.syncStatus == Syncing then "syncing"
                                    else if s.syncStatus == Synced then "synced"
                                    else if s.syncStatus == Rejected then "rejected" else "requiresReview")
  {
    hide CustomerToMap, LinesToList, Millis;
  }

  lemma CommandOnDisk(c: SyncCommand)
    ensures EncodeSyncCommand(c)
      == map["deviceId" := JString(c.deviceId), "userId" := JString(c.userId),
             "clientTransactionId" := JString(c.clientTransactionId),
             "clientTimestamp" := JInt(Millis(c.clientTimestamp)), "companyId" := JString(c.companyId),
             "branchId" := JString(c.branchId), "warehouseId" := JString(c.warehouseId),
             "appVersion" := JString(c.appVersion), "masterDataVersion" := JString(c.masterDataVersion),
             "priceVersion" := JString(c.priceVersion), "syncAttemptNumber" := JInt(c.syncAttemptNumber),
             "sale" := JMap(EncodeSale(c.sale))]
  {
    hide EncodeSale, Millis;
  }
}
