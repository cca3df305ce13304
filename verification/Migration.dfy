/**
 * The upgrade of the local database to exact integers. Helpers edit copies of nested maps, so only
 * the total of a stored sale and the fields of a draft's product are really rewritten; everything
 * else is checked, and left for the tolerant decoder to read.
 */
module Migration {
  import opened Basics
  import opened Codec
  import opened Mobile

  // The upgrades of decoded maps. A function that edits its argument returns the edited map.

  /** jsonEncode refuses a double that is not finite. */
  predicate Encodable(v: Json)
    decreases v
  {
    match v
    case JDouble(d) => d.Finite?
    case JList(items) => forall i :: 0 <= i < |items| ==> Encodable(items[i])
    case JMap(entries) => forall k :: k in entries ==> Encodable(entries[k])
    case _ => true
  }

  function Reencode(m: map<string, Json>): Read<Json> {
    if Encodable(JMap(m)) then Got(JMap(m)) else Throws
  }

  /** The edits go to a copy of the credit map, so the customer itself stays as it was. */
  function UpgradeCustomer(customer: map<string, Json>): Read<map<string, Json>> {
    if Get(customer, "credit").JNull? then Got(customer) else
    var credit :- AsMap(Get(customer, "credit"));
    var limit :- ExactInt(Get(credit, "limit"));
    var exposure :- ExactInt(Get(credit, "currentExposure"));
    var overdue :- ExactInt(Get(credit, "overdueAmount"));
    Got(customer)
  }

  function UpgradeProduct(product: map<string, Json>): Read<map<string, Json>> {
    var price :- ExactInt(Get(product, "sellingPrice"));
    var available :- ExactInt(Get(product, "availableQuantity"));
    Got(product["sellingPrice" := JInt(price)]["availableQuantity" := JInt(available)])
  }

  /** The checks on one line, whose edits are lost with the copies they are made on. */
  function CheckLine(v: Json): Read<()> {
    var line :- AsMap(v);
    var product :- AsMap(Get(line, "product"));
    var upgraded :- UpgradeProduct(product);
    var price :- ExactInt(Get(line, "unitPrice"));
    var quantity :- ExactInt(Get(line, "quantity"));
    Got(())
  }

  predicate LinesExact(items: seq<Json>) {
    forall i :: 0 <= i < |items| ==> CheckLine(items[i]).Got?
  }

  function UpgradeSale(sale: map<string, Json>): Read<map<string, Json>> {
    var customer :- AsMap(Get(sale, "customer"));
    var checked :- UpgradeCustomer(customer);
    var items :- AsList(Get(sale, "lines"));
    if !LinesExact(items) then Throws else
    var total :- ExactInt(Get(sale, "total"));
    Got(sale["total" := JInt(total)])
  }

  method CheckSale(sale: map<string, Json>) returns (r: Read<map<string, Json>>)
    ensures r == UpgradeSale(sale)
  {
    var customer :- AsMap(Get(sale, "customer"));
    var _ :- UpgradeCustomer(customer);
    var lines :- AsList(Get(sale, "lines"));
    for i := 0 to |lines|
      invariant LinesExact(lines[..i])
    {
      var line :- AsMap(lines[i]);
      var product :- AsMap(Get(line, "product"));
      var _ :- UpgradeProduct(product);
      var price :- ExactInt(Get(line, "unitPrice"));
      line := line["unitPrice" := JInt(price)];
      var quantity :- ExactInt(Get(line, "quantity"));
      line := line["quantity" := JInt(quantity)];
    }
    assert lines[..|lines|] == lines;
    var total :- ExactInt(Get(sale, "total"));
    return Got(sale["total" := JInt(total)]);
  }

  // Columns.

  /** A numeric column; SQLite stores NaN as NULL. */
  datatype Cell = NullCell | IntCell(i: int64) | RealCell(r: real) | InfiniteCell

  function Truncate(r: real): int {
    if r >= 0.0 then r.Floor else -((-r).Floor)
  }

  /** CAST(... AS INTEGER) truncates toward zero and stops at the ends of the 64-bit range. */
  function Cast(c: Cell): Cell {
    match c
    case RealCell(r) => IntCell(Clamp(Truncate(r)))
    case InfiniteCell => IntCell(MAX64)
    case _ => c
  }

  /** IS NOT NULL AND column != CAST(column AS INTEGER), compared as numbers. */
  predicate Fractional(c: Cell) {
    match c
    case RealCell(r) => r != Cast(c).i as real
    case InfiniteCell => true
    case _ => false
  }

  /** What the driver hands to the decoder. */
  function Driver(c: Cell): Json {
    match c
    case NullCell => JNull
    case IntCell(i) => JInt(i)
    case RealCell(r) => JDouble(Finite(r))
    case InfiniteCell => JDouble(Infinite)
  }

  /** A column passes exactly when it is NULL or a whole number inside the 64-bit range, and the cast keeps it. */
  lemma {:induction false} CastExact(c: Cell)
    ensures !Fractional(c) <==>
      c.NullCell? || (IsNumber(Driver(c)) && Amount(Driver(c)) == Amount(Driver(c)).Floor as real && InRange(Driver(c)))
    ensures !Fractional(c) ==> (c.NullCell? <==> Cast(c).NullCell?) && Amount(Driver(Cast(c))) == Amount(Driver(c))
    ensures !Cast(c).RealCell? && !Fractional(Cast(c))
  {
    if c.RealCell? && c.r < 0.0 {
      assert c.r == c.r.Floor as real ==> Truncate(c.r) == c.r.Floor by {
        if c.r == c.r.Floor as real {
          assert (-c.r).Floor == -c.r.Floor;
        }
      }
    }
  }

  // Tables.

  datatype CustomerRow = CustomerRow(id: string, creditLimit: Cell, currentExposure: Cell, overdueAmount: Cell)
  datatype ProductRow = ProductRow(id: string, sellingPrice: Cell, availableQuantity: Cell)
  datatype DraftRow = DraftRow(id: string, customer: Json)
  datatype LineRow = LineRow(draftId: string, number: int, product: Json, unitPrice: Cell, quantity: Cell)
  datatype SaleRow = SaleRow(id: string, sale: Json)
  datatype CommandRow = CommandRow(key: string, command: Json)

  datatype Tables = Tables(version: int, customers: seq<CustomerRow>, products: seq<ProductRow>, drafts: seq<DraftRow>,
                           lines: seq<LineRow>, sales: seq<SaleRow>, commands: seq<CommandRow>)

  function RewriteDraft(): DraftRow -> Read<DraftRow> {
    (row: DraftRow) =>
      var customer :- AsMap(row.customer);
      var upgraded :- UpgradeCustomer(customer);
      var json :- Reencode(upgraded);
      Got(row.(customer := json))
  }

  function RewriteLine(): LineRow -> Read<LineRow> {
    (row: LineRow) =>
      var product :- AsMap(row.product);
      var upgraded :- UpgradeProduct(product);
      var json :- Reencode(upgraded);
      Got(row.(product := json))
  }

  function RewriteSale(): SaleRow -> Read<SaleRow> {
    (row: SaleRow) =>
      var sale :- AsMap(row.sale);
      var upgraded :- UpgradeSale(sale);
      var json :- Reencode(upgraded);
      Got(row.(sale := json))
  }

  /** The upgraded sale is a copy, so the command is written back as it was read. */
  function RewriteCommand(): CommandRow -> Read<CommandRow> {
    (row: CommandRow) =>
      var command :- AsMap(row.command);
      var sale :- AsMap(Get(command, "sale"));
      var upgraded :- UpgradeSale(sale);
      var json :- Reencode(command);
      Got(row.(command := json))
  }

  /** All rows, or nothing. */
  function RewriteAll<T>(rows: seq<T>, f: T -> Read<T>): Read<seq<T>> {
    if rows == [] then Got([]) else
    var before :- RewriteAll(rows[..|rows| - 1], f);
    var row :- f(rows[|rows| - 1]);
    Got(before + [row])
  }

  lemma {:induction false} RewriteAllRows<T>(rows: seq<T>, f: T -> Read<T>)
    ensures RewriteAll(rows, f).Got? <==> forall i :: 0 <= i < |rows| ==> f(rows[i]).Got?
    ensures RewriteAll(rows, f).Got? ==>
      && |RewriteAll(rows, f).value| == |rows|
      && forall i :: 0 <= i < |rows| ==> f(rows[i]) == Got(RewriteAll(rows, f).value[i])
  {
    if rows == [] {
    } else {
      RewriteAllRows(rows[..|rows| - 1], f);
    }
  }

  predicate Integral(t: Tables) {
    && (forall i :: 0 <= i < |t.customers| ==> IntegralCustomer(t.customers[i]))
    && (forall i :: 0 <= i < |t.products| ==> IntegralProduct(t.products[i]))
    && (forall i :: 0 <= i < |t.lines| ==> IntegralLine(t.lines[i]))
  }

  predicate IntegralCustomer(row: CustomerRow) {
    !Fractional(row.creditLimit) && !Fractional(row.currentExposure) && !Fractional(row.overdueAmount)
  }

  predicate IntegralProduct(row: ProductRow) {
    !Fractional(row.sellingPrice) && !Fractional(row.availableQuantity)
  }

  predicate IntegralLine(row: LineRow) {
    !Fractional(row.unitPrice) && !Fractional(row.quantity)
  }

  function CastCustomer(row: CustomerRow): CustomerRow {
    row.(creditLimit := Cast(row.creditLimit), currentExposure := Cast(row.currentExposure),
         overdueAmount := Cast(row.overdueAmount))
  }

  function CastProduct(row: ProductRow): ProductRow {
    row.(sellingPrice := Cast(row.sellingPrice), availableQuantity := Cast(row.availableQuantity))
  }

  function CastLine(row: LineRow): LineRow {
    row.(unitPrice := Cast(row.unitPrice), quantity := Cast(row.quantity))
  }

  /** INSERT INTO ... SELECT, row by row. */
  function Copied<T>(rows: seq<T>, f: T -> T): seq<T> {
    seq(|rows|, i requires 0 <= i < |rows| => f(rows[i]))
  }

  function Casts(t: Tables): Tables {
    t.(customers := Copied(t.customers, CastCustomer), products := Copied(t.products, CastProduct),
       lines := Copied(t.lines, CastLine))
  }

  function Rewritten(t: Tables): Read<Tables> {
    var drafts :- RewriteAll(t.drafts, RewriteDraft());
    var lines :- RewriteAll(t.lines, RewriteLine());
    var sales :- RewriteAll(t.sales, RewriteSale());
    var commands :- RewriteAll(t.commands, RewriteCommand());
    Got(t.(drafts := drafts, lines := lines, sales := sales, commands := commands))
  }

  /** The tables after the upgrade, or an exception. */
  function Migrated(t: Tables): Read<Tables> {
    var rewritten :- Rewritten(t);
    if Integral(rewritten) then Got(Casts(rewritten).(version := 4)) else Throws
  }

  method CountFractional<T>(rows: seq<T>, column: T -> Cell) returns (count: nat)
    ensures count == 0 <==> forall i :: 0 <= i < |rows| ==> !Fractional(column(rows[i]))
  {
    count := 0;
    for i := 0 to |rows|
      invariant count == 0 <==> forall k :: 0 <= k < i ==> !Fractional(column(rows[k]))
    {
      if Fractional(column(rows[i])) {
        count := count + 1;
      }
    }
  }

  class Database {
    var version: int
    var customers: seq<CustomerRow>
    var products: seq<ProductRow>
    var drafts: seq<DraftRow>
    var lines: seq<LineRow>
    var sales: seq<SaleRow>
    var commands: seq<CommandRow>

    function View(): Tables
      reads this
    {
      Tables(version, customers, products, drafts, lines, sales, commands)
    }

    method RewriteSales() returns (ok: bool)
      modifies this`sales
      ensures ok <==> RewriteAll(old(sales), RewriteSale()).Got?
      ensures ok ==> sales == RewriteAll(old(sales), RewriteSale()).value
    {
      ghost var before := sales;
      RewriteAllRows(before, RewriteSale());
      for i := 0 to |sales|
        invariant |sales| == |before|
        invariant forall k :: 0 <= k < i ==> RewriteSale()(before[k]) == Got(sales[k])
        invariant forall k :: i <= k < |sales| ==> sales[k] == before[k]
      {
        if !sales[i].sale.JMap? {
          return false;
        }
        var upgraded := CheckSale(sales[i].sale.entries);
        if upgraded.Throws? || !Encodable(JMap(upgraded.value)) {
          return false;
        }
        sales := sales[i := sales[i].(sale := JMap(upgraded.value))];
      }
      return true;
    }

    method RewriteCommands() returns (ok: bool)
      modifies this`commands
      ensures ok <==> RewriteAll(old(commands), RewriteCommand()).Got?
      ensures ok ==> commands == RewriteAll(old(commands), RewriteCommand()).value
    {
      ghost var before := commands;
      RewriteAllRows(before, RewriteCommand());
      for i := 0 to |commands|
        invariant |commands| == |before|
        invariant forall k :: 0 <= k < i ==> RewriteCommand()(before[k]) == Got(commands[k])
        invariant forall k :: i <= k < |commands| ==> commands[k] == before[k]
      {
        if !commands[i].command.JMap? {
          return false;
        }
        var command := commands[i].command.entries;
        if !Get(command, "sale").JMap? {
          return false;
        }
        var upgraded := CheckSale(Get(command, "sale").entries);
        if upgraded.Throws? || !Encodable(JMap(command)) {
          return false;
        }
        commands := commands[i := commands[i].(command := JMap(command))];
      }
      return true;
    }

    method RewriteDrafts() returns (ok: bool)
      modifies this`drafts
      ensures ok <==> RewriteAll(old(drafts), RewriteDraft()).Got?
      ensures ok ==> drafts == RewriteAll(old(drafts), RewriteDraft()).value
    {
      ghost var before := drafts;
      RewriteAllRows(before, RewriteDraft());
      for i := 0 to |drafts|
        invariant |drafts| == |before|
        invariant forall k :: 0 <= k < i ==> RewriteDraft()(before[k]) == Got(drafts[k])
        invariant forall k :: i <= k < |drafts| ==> drafts[k] == before[k]
      {
        var row := RewriteDraft()(drafts[i]);
        if row.Throws? {
          return false;
        }
        drafts := drafts[i := row.value];
      }
      return true;
    }

    method RewriteLines() returns (ok: bool)
      modifies this`lines
      ensures ok <==> RewriteAll(old(lines), RewriteLine()).Got?
      ensures ok ==> lines == RewriteAll(old(lines), RewriteLine()).value
    {
      ghost var before := lines;
      RewriteAllRows(before, RewriteLine());
      for i := 0 to |lines|
        invariant |lines| == |before|
        invariant forall k :: 0 <= k < i ==> RewriteLine()(before[k]) == Got(lines[k])
        invariant forall k :: i <= k < |lines| ==> lines[k] == before[k]
      {
        var row := RewriteLine()(lines[i]);
        if row.Throws? {
          return false;
        }
        lines := lines[i := row.value];
      }
      return true;
    }

    method AssertIntegralColumns() returns (ok: bool)
      ensures ok <==> Integral(View())
    {
      var a := CountFractional(customers, (row: CustomerRow) => row.creditLimit);
      var b := CountFractional(customers, (row: CustomerRow) => row.currentExposure);
      var c := CountFractional(customers, (row: CustomerRow) => row.overdueAmount);
      var d := CountFractional(products, (row: ProductRow) => row.sellingPrice);
      var e := CountFractional(products, (row: ProductRow) => row.availableQuantity);
      var f := CountFractional(lines, (row: LineRow) => row.unitPrice);
      var g := CountFractional(lines, (row: LineRow) => row.quantity);
      return a == 0 && b == 0 && c == 0 && d == 0 && e == 0 && f == 0 && g == 0;
    }

    method RewriteLegacyJson() returns (ok: bool)
      modifies this
      ensures ok <==> Rewritten(old(View())).Got?
      ensures ok ==> View() == Rewritten(old(View())).value
    {
      ok := RewriteDrafts();
      if ok {
        ok := RewriteLines();
      }
      if ok {
        ok := RewriteSales();
      }
      if ok {
        ok := RewriteCommands();
      }
    }

    method MigrateToExactIntegers() returns (ok: bool)
      modifies this
      ensures ok <==> Migrated(old(View())).Got?
      ensures ok ==> View() == Migrated(old(View())).value.(version := old(version))
    {
      ok := RewriteLegacyJson();
      if !ok {
        return;
      }
      hide Rewritten;
      ok := AssertIntegralColumns();
      if !ok {
        return;
      }
      hide Integral;
      customers := Copied(customers, CastCustomer);
      products := Copied(products, CastProduct);
      lines := Copied(lines, CastLine);
    }

    /** The upgrade runs in the transaction that also moves the version, so a failure restores every table. */
    method Upgrade() returns (ok: bool)
      modifies this
      ensures ok <==> Migrated(old(View())).Got?
      ensures View() == if ok then Migrated(old(View())).value else old(View())
    {
      var before := View();
      ok := MigrateToExactIntegers();
      if ok {
        version := 4;
      } else {
        version, customers, products, drafts := before.version, before.customers, before.products, before.drafts;
        lines, sales, commands := before.lines, before.sales, before.commands;
      }
    }
  }

  // What the decoder reads afterwards.

  function CreditNumbers(customer: map<string, Json>): seq<Json> {
    if Get(customer, "credit").JMap? then
      var credit := Get(customer, "credit").entries;
      [Get(credit, "limit"), Get(credit, "currentExposure"), Get(credit, "overdueAmount")]
    else []
  }

  function LineNumbers(v: Json): seq<Json> {
    if v.JMap? && Get(v.entries, "product").JMap? then
      [Get(Get(v.entries, "product").entries, "availableQuantity"), Get(v.entries, "unitPrice"),
       Get(v.entries, "quantity")]
    else []
  }

  function LinesNumbers(items: seq<Json>): seq<Json> {
    if items == [] then [] else LinesNumbers(items[..|items| - 1]) + LineNumbers(items[|items| - 1])
  }

  /**
   * The legacy numbers of a stored sale: credit amounts, then stock, price and quantity of each line, and the
   * total.
   */
  function SaleNumbers(v: Json): seq<Json> {
    if !v.JMap? || !Get(v.entries, "customer").JMap? || !Get(v.entries, "lines").JList? then [] else
    CreditNumbers(Get(v.entries, "customer").entries) + LinesNumbers(Get(v.entries, "lines").items)
      + [Get(v.entries, "total")]
  }

  function CreditAmounts(c: Customer): seq<int64> {
    if c.credit.Some? then [c.credit.value.limit, c.credit.value.currentExposure, c.credit.value.overdueAmount] else []
  }

  function LinesAmounts(lines: seq<CartLine>): seq<int64> {
    if lines == [] then [] else
    var line := lines[|lines| - 1];
    LinesAmounts(lines[..|lines| - 1]) + [line.product.availableQuantity, line.unitPrice, line.quantity]
  }

  function SaleAmounts(s: CompletedSale): seq<int64> {
    CreditAmounts(s.customer) + LinesAmounts(s.lines) + [s.total]
  }

  ghost predicate ReadsAs(numbers: seq<Json>, amounts: seq<int64>) {
    |numbers| == |amounts| && forall k :: 0 <= k < |numbers| ==> ExactInt(numbers[k]) == Got(amounts[k])
  }

  lemma ReadsAppend(a: seq<Json>, x: seq<int64>, b: seq<Json>, y: seq<int64>)
    requires ReadsAs(a, x) && ReadsAs(b, y)
    ensures ReadsAs(a + b, x + y)
  {
  }

  lemma CreditReads(m: map<string, Json>, c: Customer)
    requires CustomerFromMap(m) == Got(c)
    ensures ReadsAs(CreditNumbers(m), CreditAmounts(c))
  {
    hide ExactInt, FromMillis, Whole, Text, Flag, OptionalText;
    assert CreditOf(m) == Got(c.credit);
  }

  lemma LineReads(v: Json, line: CartLine)
    requires LineFrom(v) == Got(line)
    ensures ReadsAs(LineNumbers(v), [line.product.availableQuantity, line.unitPrice, line.quantity])
  {
    hide ExactInt, Text;
  }

  lemma {:induction false} LinesRead(items: seq<Json>, lines: seq<CartLine>)
    requires LinesFrom(items) == Got(lines)
    ensures |items| == |lines| && ReadsAs(LinesNumbers(items), LinesAmounts(lines))
  {
    if items == [] {
    } else {
      LinesRead(items[..|items| - 1], lines[..|lines| - 1]);
      LineReads(items[|items| - 1], lines[|lines| - 1]);
    }
  }

  lemma TotalReads(v: Json, total: int64)
    requires ExactInt(v) == Got(total)
    ensures ReadsAs([v], [total])
  {
  }

  /** The decoder reads every number of a stored sale as an exact integer. */
  lemma SaleReads(v: Json, s: CompletedSale)
    requires DecodeSale(v) == Got(s)
    ensures ReadsAs(SaleNumbers(v), SaleAmounts(s))
  {
    var m := v.entries;
    hide CustomerFromMap, LinesFrom, HeadFrom, ExactInt, Get;
    var customer, items := Get(m, "customer").entries, Get(m, "lines").items;
    CreditReads(customer, s.customer);
    LinesRead(items, s.lines);
    hide ReadsAs, CreditNumbers, LinesNumbers, CreditAmounts, LinesAmounts;
    TotalReads(Get(m, "total"), s.total);
    ReadsAppend(CreditNumbers(customer), CreditAmounts(s.customer), LinesNumbers(items), LinesAmounts(s.lines));
    ReadsAppend(CreditNumbers(customer) + LinesNumbers(items), CreditAmounts(s.customer) + LinesAmounts(s.lines),
                [Get(m, "total")], [s.total]);
  }

  /** A sale decoded from legacy numbers equals them one by one, exactly as far as they fit 64 bits. */
  lemma AmountsKept(v: Json, s: CompletedSale)
    requires DecodeSale(v) == Got(s)
    ensures |SaleAmounts(s)| == |SaleNumbers(v)|
    ensures forall k :: 0 <= k < |SaleNumbers(v)| ==>
      (SaleAmounts(s)[k] as real == Amount(SaleNumbers(v)[k]) <==> InRange(SaleNumbers(v)[k]))
  {
    SaleReads(v, s);
    hide SaleNumbers, SaleAmounts, DecodeSale;
    forall k | 0 <= k < |SaleNumbers(v)|
      ensures SaleAmounts(s)[k] as real == Amount(SaleNumbers(v)[k]) <==> InRange(SaleNumbers(v)[k])
    {
      ExactIntReads(SaleNumbers(v)[k]);
    }
  }

  /** The same for a draft's customer, whose credit amounts are read from its JSON. */
  lemma CreditKept(m: map<string, Json>, c: Customer)
    requires CustomerFromMap(m) == Got(c)
    ensures |CreditAmounts(c)| == |CreditNumbers(m)|
    ensures forall k :: 0 <= k < |CreditNumbers(m)| ==>
      (CreditAmounts(c)[k] as real == Amount(CreditNumbers(m)[k]) <==> InRange(CreditNumbers(m)[k]))
  {
    CreditReads(m, c);
    hide CreditNumbers, CreditAmounts, CustomerFromMap;
    forall k | 0 <= k < |CreditNumbers(m)|
      ensures CreditAmounts(c)[k] as real == Amount(CreditNumbers(m)[k]) <==> InRange(CreditNumbers(m)[k])
    {
      ExactIntReads(CreditNumbers(m)[k]);
    }
  }

  /** And for the product of a draft line. */
  lemma ProductKept(m: map<string, Json>, p: Product)
    requires ProductFromMap(m) == Got(p)
    ensures p.sellingPrice as real == Amount(Get(m, "sellingPrice")) <==> InRange(Get(m, "sellingPrice"))
    ensures p.availableQuantity as real == Amount(Get(m, "availableQuantity")) <==> InRange(Get(m, "availableQuantity"))
  {
    ExactIntReads(Get(m, "sellingPrice"));
    ExactIntReads(Get(m, "availableQuantity"));
    hide ExactInt, Amount, InRange, Text;
  }

  /** Rewriting the total does not change what is decoded, and the checks still pass. */
  lemma SaleReadsSame(sale: map<string, Json>)
    requires UpgradeSale(sale).Got?
    ensures var upgraded := UpgradeSale(sale).value;
      && DecodeSale(JMap(upgraded)) == DecodeSale(JMap(sale))
      && UpgradeSale(upgraded) == Got(upgraded)
  {
    var upgraded := UpgradeSale(sale).value;
    forall key: string | key != "total" ensures Get(upgraded, key) == Get(sale, key) {
    }
    assert ExactInt(Get(upgraded, "total")) == ExactInt(Get(sale, "total"));
    SameHead(sale, upgraded);
    assert upgraded["total" := Get(upgraded, "total")] == upgraded;
    hide LinesExact, LinesFrom, CustomerFromMap, HeadFrom, UpgradeCustomer, Get;
  }

  lemma SameHead(a: map<string, Json>, b: map<string, Json>)
    requires forall key: string | key != "total" :: Get(a, key) == Get(b, key)
    ensures HeadFrom(a) == HeadFrom(b)
  {
    SameTexts(a, b);
    assert "createdAt" != "total" && "syncMessage" != "total";
    hide Get, Text, FromMillis, SaleTypeByName, PayByName, StatusByName;
  }

  lemma SameTexts(a: map<string, Json>, b: map<string, Json>)
    requires forall key: string | key != "total" :: Get(a, key) == Get(b, key)
    ensures forall key: string | key != "total" :: Text(a, key) == Text(b, key)
  {
  }

  lemma ProductReadsSame(product: map<string, Json>)
    requires UpgradeProduct(product).Got?
    ensures ProductFromMap(UpgradeProduct(product).value) == ProductFromMap(product)
  {
    var upgraded := UpgradeProduct(product).value;
    forall key: string | key != "sellingPrice" && key != "availableQuantity"
      ensures Get(upgraded, key) == Get(product, key)
    {
    }
    assert ExactInt(Get(upgraded, "sellingPrice")) == ExactInt(Get(product, "sellingPrice"));
    assert ExactInt(Get(upgraded, "availableQuantity")) == ExactInt(Get(product, "availableQuantity"));
    hide Get;
  }

  /** The numbers of a line the decoder reads: the stored product's too. */
  function CheckedNumbers(v: Json): seq<Json>
    requires v.JMap? && Get(v.entries, "product").JMap?
  {
    [Get(Get(v.entries, "product").entries, "sellingPrice")] + LineNumbers(v)
  }

  /** Every exactness check the decoder makes on a sale passes. */
  ghost predicate DecoderExact(sale: map<string, Json>)
    requires Get(sale, "customer").JMap? && Get(sale, "lines").JList?
  {
    && (forall n :: n in CreditNumbers(Get(sale, "customer").entries) ==> ExactInt(n).Got?)
    && (forall i :: 0 <= i < |Get(sale, "lines").items| ==> LineExact(Get(sale, "lines").items[i]))
    && ExactInt(Get(sale, "total")).Got?
  }

  ghost predicate LineExact(line: Json) {
    line.JMap? && Get(line.entries, "product").JMap? && forall n :: n in CheckedNumbers(line) ==> ExactInt(n).Got?
  }

  lemma CheckedLine(line: Json)
    requires CheckLine(line).Got?
    ensures LineExact(line)
  {
    hide ExactInt;
  }

  lemma CheckedCredit(customer: map<string, Json>)
    requires UpgradeCustomer(customer).Got?
    ensures forall n :: n in CreditNumbers(customer) ==> ExactInt(n).Got?
  {
    hide ExactInt;
  }

  lemma UpgradedExact(sale: map<string, Json>)
    requires UpgradeSale(sale).Got?
    ensures Get(sale, "customer").JMap? && Get(sale, "lines").JList? && DecoderExact(sale)
  {
    CheckedCredit(Get(sale, "customer").entries);
    forall i | 0 <= i < |Get(sale, "lines").items| ensures LineExact(Get(sale, "lines").items[i]) {
      CheckedLine(Get(sale, "lines").items[i]);
    }
    hide LineExact, CheckLine, CreditNumbers, UpgradeCustomer, ExactInt;
  }

  /** A sale row after the upgrade reads as before it, and every exactness check on it passes. */
  ghost predicate SaleRowKept(before: SaleRow, after: SaleRow) {
    && before.sale.JMap? && after.sale.JMap? && after.id == before.id
    && DecodeSale(after.sale) == DecodeSale(before.sale)
    && Get(after.sale.entries, "customer").JMap? && Get(after.sale.entries, "lines").JList?
       && DecoderExact(after.sale.entries)
    && RewrittenAt(before.sale.entries, after.sale.entries, {"total"})
  }

  /** The named entries are exact integers now, and all others are what they were. */
  predicate RewrittenAt(before: map<string, Json>, after: map<string, Json>, keys: set<string>) {
    && (forall k :: k in keys ==> k in after && after[k].JInt?)
    && (forall k :: k in after && k !in keys ==> k in before && after[k] == before[k])
    && (forall k :: k in before && k !in keys ==> k in after)
  }

  ghost predicate CommandRowKept(before: CommandRow, after: CommandRow) {
    && after == before && after.command.JMap?
    && Get(after.command.entries, "sale").JMap?
    && var sale := Get(after.command.entries, "sale").entries;
       Get(sale, "customer").JMap? && Get(sale, "lines").JList? && DecoderExact(sale)
  }

  ghost predicate DraftRowKept(before: DraftRow, after: DraftRow) {
    after == before && after.customer.JMap? && forall n ::
      n in CreditNumbers(after.customer.entries) ==> ExactInt(n).Got?
  }

  /** A whole number in the column, equal to the legacy one; NULL stays NULL. */
  predicate CellKept(before: Cell, after: Cell) {
    (after.NullCell? <==> before.NullCell?)
      && (!after.NullCell? ==> after.IntCell? && after.i as real == Amount(Driver(before)))
  }

  ghost predicate LineRowKept(before: LineRow, after: LineRow) {
    && before.product.JMap? && after.product.JMap? && after.draftId == before.draftId && after.number == before.number
    && ProductFromMap(after.product.entries) == ProductFromMap(before.product.entries)
    && ExactInt(Get(after.product.entries, "sellingPrice")).Got?
       && ExactInt(Get(after.product.entries, "availableQuantity")).Got?
    && RewrittenAt(before.product.entries, after.product.entries, {"sellingPrice", "availableQuantity"})
    && CellKept(before.unitPrice, after.unitPrice) && CellKept(before.quantity, after.quantity)
  }

  ghost predicate CustomerRowKept(before: CustomerRow, after: CustomerRow) {
    after.id == before.id && CellKept(before.creditLimit, after.creditLimit)
    && CellKept(before.currentExposure, after.currentExposure) && CellKept(before.overdueAmount, after.overdueAmount)
  }

  ghost predicate ProductRowKept(before: ProductRow, after: ProductRow) {
    after.id == before.id && CellKept(before.sellingPrice, after.sellingPrice)
    && CellKept(before.availableQuantity, after.availableQuantity)
  }

  lemma CellCast(c: Cell)
    requires !Fractional(c)
    ensures CellKept(c, Cast(c))
  {
    CastExact(c);
  }

  lemma TotalRewritten(sale: map<string, Json>)
    requires UpgradeSale(sale).Got?
    ensures RewrittenAt(sale, UpgradeSale(sale).value, {"total"})
  {
    hide LinesExact, UpgradeCustomer, ExactInt;
  }

  lemma ProductRewritten(product: map<string, Json>)
    requires UpgradeProduct(product).Got?
    ensures RewrittenAt(product, UpgradeProduct(product).value, {"sellingPrice", "availableQuantity"})
  {
    hide ExactInt;
  }

  lemma SaleRowSteps(row: SaleRow)
    requires RewriteSale()(row).Got?
    ensures SaleRowKept(row, RewriteSale()(row).value)
  {
    SaleReadsSame(row.sale.entries);
    UpgradedExact(UpgradeSale(row.sale.entries).value);
    TotalRewritten(row.sale.entries);
    hide RewrittenAt, DecodeSale, UpgradeSale, Encodable, DecoderExact;
  }

  lemma CommandRowSteps(row: CommandRow)
    requires RewriteCommand()(row).Got?
    ensures CommandRowKept(row, RewriteCommand()(row).value)
  {
    UpgradedExact(Get(row.command.entries, "sale").entries);
    hide UpgradeSale, Encodable, DecoderExact;
  }

  lemma DraftRowSteps(row: DraftRow)
    requires RewriteDraft()(row).Got?
    ensures DraftRowKept(row, RewriteDraft()(row).value)
  {
    CheckedCredit(row.customer.entries);
    hide Encodable, CreditNumbers;
  }

  lemma LineRowSteps(row: LineRow)
    requires RewriteLine()(row).Got? && IntegralLine(RewriteLine()(row).value)
    ensures LineRowKept(row, CastLine(RewriteLine()(row).value))
  {
    var p := row.product.entries;
    ProductReadsSame(p);
    ProductRewritten(p);
    CellCast(row.unitPrice);
    CellCast(row.quantity);
    assert UpgradeProduct(UpgradeProduct(p).value).Got?;
    hide ProductFromMap, UpgradeProduct, Encodable, CellKept, RewrittenAt;
  }

  lemma CustomerRowSteps(row: CustomerRow)
    requires IntegralCustomer(row)
    ensures CustomerRowKept(row, CastCustomer(row))
  {
    CellCast(row.creditLimit);
    CellCast(row.currentExposure);
    CellCast(row.overdueAmount);
  }

  lemma ProductRowSteps(row: ProductRow)
    requires IntegralProduct(row)
    ensures ProductRowKept(row, CastProduct(row))
  {
    CellCast(row.sellingPrice);
    CellCast(row.availableQuantity);
  }

  /**
   * An upgrade that goes through keeps every stored number: JSON reads as it did, columns hold the
   * legacy amounts as integers, and no exactness check can fail on any of it.
   */
  lemma MigrationKeeps(t: Tables)
    requires Migrated(t).Got?
    ensures var t' := Migrated(t).value;
      && t'.version == 4
      && |t'.sales| == |t.sales| && (forall i :: 0 <= i < |t.sales| ==> SaleRowKept(t.sales[i], t'.sales[i]))
      && |t'.commands| == |t.commands|
         && (forall i :: 0 <= i < |t.commands| ==> CommandRowKept(t.commands[i], t'.commands[i]))
      && |t'.drafts| == |t.drafts| && (forall i :: 0 <= i < |t.drafts| ==> DraftRowKept(t.drafts[i], t'.drafts[i]))
      && |t'.lines| == |t.lines| && (forall i :: 0 <= i < |t.lines| ==> LineRowKept(t.lines[i], t'.lines[i]))
      && |t'.customers| == |t.customers|
         && (forall i :: 0 <= i < |t.customers| ==> CustomerRowKept(t.customers[i], t'.customers[i]))
      && |t'.products| == |t.products|
         && (forall i :: 0 <= i < |t.products| ==> ProductRowKept(t.products[i], t'.products[i]))
  {
    RewriteAllRows(t.sales, RewriteSale());
    RewriteAllRows(t.commands, RewriteCommand());
    RewriteAllRows(t.drafts, RewriteDraft());
    RewriteAllRows(t.lines, RewriteLine());
    hide RewriteAll, SaleRowKept, CommandRowKept, DraftRowKept, LineRowKept, CustomerRowKept, ProductRowKept;
    forall i | 0 <= i < |t.sales| ensures SaleRowKept(t.sales[i], Migrated(t).value.sales[i]) {
      SaleRowSteps(t.sales[i]);
    }
    forall i | 0 <= i < |t.commands| ensures CommandRowKept(t.commands[i], Migrated(t).value.commands[i]) {
      CommandRowSteps(t.commands[i]);
    }
    forall i | 0 <= i < |t.drafts| ensures DraftRowKept(t.drafts[i], Migrated(t).value.drafts[i]) {
      DraftRowSteps(t.drafts[i]);
    }
    forall i | 0 <= i < |t.lines| ensures LineRowKept(t.lines[i], Migrated(t).value.lines[i]) {
      LineRowSteps(t.lines[i]);
    }
    forall i | 0 <= i < |t.customers| ensures CustomerRowKept(t.customers[i], Migrated(t).value.customers[i]) {
      CustomerRowSteps(t.customers[i]);
    }
    forall i | 0 <= i < |t.products| ensures ProductRowKept(t.products[i], Migrated(t).value.products[i]) {
      ProductRowSteps(t.products[i]);
    }
  }

  predicate WholeNumber(v: Json) {
    IsNumber(v) && Amount(v) == Amount(v).Floor as real
  }

  /** The credit of a customer is missing, or its three amounts are whole. */
  predicate WholeCredit(customer: map<string, Json>) {
    || Get(customer, "credit").JNull?
    || (Get(customer, "credit").JMap?
        && WholeNumber(Get(Get(customer, "credit").entries, "limit"))
        && WholeNumber(Get(Get(customer, "credit").entries, "currentExposure"))
        && WholeNumber(Get(Get(customer, "credit").entries, "overdueAmount")))
  }

  /** A line has a product, and its price, stock, captured price and quantity are whole. */
  predicate WholeLine(line: Json) {
    && line.JMap? && Get(line.entries, "product").JMap?
    && WholeNumber(Get(Get(line.entries, "product").entries, "sellingPrice"))
    && WholeNumber(Get(Get(line.entries, "product").entries, "availableQuantity"))
    && WholeNumber(Get(line.entries, "unitPrice")) && WholeNumber(Get(line.entries, "quantity"))
  }

  predicate WholeSale(sale: map<string, Json>) {
    && Get(sale, "customer").JMap? && WholeCredit(Get(sale, "customer").entries)
    && Get(sale, "lines").JList? && (forall line :: line in Get(sale, "lines").items ==> WholeLine(line))
    && WholeNumber(Get(sale, "total"))
  }

  /** A sale passes exactly when it has the expected shape and all its numbers are whole. */
  lemma SalePasses(sale: map<string, Json>)
    ensures UpgradeSale(sale).Got? <==> WholeSale(sale)
  {
    forall n: Json ensures WholeNumber(n) <==> ExactInt(n).Got? {
      ExactIntReads(n);
    }
    hide ExactInt, WholeNumber;
    if Get(sale, "lines").JList? {
      forall line ensures WholeLine(line) <==> CheckLine(line).Got? {
      }
      forall line | line in Get(sale, "lines").items && LinesExact(Get(sale, "lines").items) ensures WholeLine(line) {
        var i :| 0 <= i < |Get(sale, "lines").items| && Get(sale, "lines").items[i] == line;
      }
    }
    hide WholeLine, CheckLine;
  }

  /** A column that the upgrade can copy. */
  predicate WholeCell(c: Cell) {
    match c
    case NullCell => true
    case IntCell(_) => true
    case RealCell(r) => r == r.Floor as real && MIN64 as real <= r <= MAX64 as real
    case InfiniteCell => false
  }

  /** Everything that is written back can be encoded: no number in it is infinite or undefined. */
  predicate EncodableBut(m: map<string, Json>, rewritten: set<string>) {
    forall k :: k in m && k !in rewritten ==> Encodable(m[k])
  }

  /** What the upgrade requires of the tables. */
  predicate Upgradable(t: Tables) {
    && (forall row :: row in t.drafts ==>
        row.customer.JMap? && WholeCredit(row.customer.entries) && EncodableBut(row.customer.entries, {}))
    && (forall row :: row in t.lines ==>
        && row.product.JMap?
        && WholeNumber(Get(row.product.entries, "sellingPrice"))
           && WholeNumber(Get(row.product.entries, "availableQuantity"))
        && EncodableBut(row.product.entries, {"sellingPrice", "availableQuantity"})
        && WholeCell(row.unitPrice) && WholeCell(row.quantity))
    && (forall row :: row in t.sales ==>
        row.sale.JMap? && WholeSale(row.sale.entries) && EncodableBut(row.sale.entries, {"total"}))
    && (forall row :: row in t.commands ==>
        && row.command.JMap? && Get(row.command.entries, "sale").JMap?
        && WholeSale(Get(row.command.entries, "sale").entries) && EncodableBut(row.command.entries, {}))
    && (forall row :: row in t.customers ==>
        WholeCell(row.creditLimit) && WholeCell(row.currentExposure) && WholeCell(row.overdueAmount))
    && (forall row :: row in t.products ==> WholeCell(row.sellingPrice) && WholeCell(row.availableQuantity))
  }

  lemma CellPasses(c: Cell)
    ensures !Fractional(c) <==> WholeCell(c)
  {
    CastExact(c);
  }

  lemma ReencodesExactly(m: map<string, Json>, u: map<string, Json>, rewritten: set<string>)
    requires forall k :: k in rewritten ==> k in u && u[k].JInt?
    requires forall k :: k !in rewritten ==> (k in u <==> k in m) && (k in m ==> u[k] == m[k])
    ensures Encodable(JMap(u)) <==> EncodableBut(m, rewritten)
  {
  }

  lemma DraftPasses(row: DraftRow)
    ensures RewriteDraft()(row).Got? <==>
      row.customer.JMap? && WholeCredit(row.customer.entries) && EncodableBut(row.customer.entries, {})
  {
    forall n: Json ensures WholeNumber(n) <==> ExactInt(n).Got? {
      ExactIntReads(n);
    }
    hide ExactInt, WholeNumber;
  }

  lemma LinePasses(row: LineRow)
    ensures RewriteLine()(row).Got? <==>
      && row.product.JMap?
      && WholeNumber(Get(row.product.entries, "sellingPrice"))
         && WholeNumber(Get(row.product.entries, "availableQuantity"))
      && EncodableBut(row.product.entries, {"sellingPrice", "availableQuantity"})
    ensures RewriteLine()(row).Got? ==>
      RewriteLine()(row).value.unitPrice == row.unitPrice && RewriteLine()(row).value.quantity == row.quantity
  {
    if row.product.JMap? {
      var p := row.product.entries;
      ExactIntReads(Get(p, "sellingPrice"));
      ExactIntReads(Get(p, "availableQuantity"));
      hide ExactInt, WholeNumber;
      if UpgradeProduct(p).Got? {
        var u := UpgradeProduct(p).value;
        ReencodesExactly(p, u, {"sellingPrice", "availableQuantity"});
      }
    }
  }

  lemma SaleRowPasses(row: SaleRow)
    ensures RewriteSale()(row).Got? <==>
      row.sale.JMap? && WholeSale(row.sale.entries) && EncodableBut(row.sale.entries, {"total"})
  {
    if row.sale.JMap? {
      var m := row.sale.entries;
      SalePasses(m);
      if UpgradeSale(m).Got? {
        var u := UpgradeSale(m).value;
        ReencodesExactly(m, u, {"total"});
      }
      hide WholeSale, LinesExact, UpgradeCustomer, ExactInt;
    }
  }

  lemma CommandPasses(row: CommandRow)
    ensures RewriteCommand()(row).Got? <==>
      && row.command.JMap? && Get(row.command.entries, "sale").JMap?
      && WholeSale(Get(row.command.entries, "sale").entries) && EncodableBut(row.command.entries, {})
  {
    if row.command.JMap? && Get(row.command.entries, "sale").JMap? {
      SalePasses(Get(row.command.entries, "sale").entries);
    }
    hide WholeSale, UpgradeSale;
  }

  lemma Members<T>(s: seq<T>, p: T -> bool)
    ensures (forall i :: 0 <= i < |s| ==> p(s[i])) <==> (forall x :: x in s ==> p(x))
  {
  }

  lemma ColumnsPass(t: Tables, lines: seq<LineRow>)
    requires |lines| == |t.lines|
    requires forall i :: 0 <= i < |lines| ==>
      lines[i].unitPrice == t.lines[i].unitPrice && lines[i].quantity == t.lines[i].quantity
    ensures (forall i :: 0 <= i < |lines| ==> IntegralLine(lines[i])) <==>
      (forall row :: row in t.lines ==> WholeCell(row.unitPrice) && WholeCell(row.quantity))
    ensures (forall i :: 0 <= i < |t.customers| ==> IntegralCustomer(t.customers[i])) <==>
      (forall row :: row in t.customers ==>
        WholeCell(row.creditLimit) && WholeCell(row.currentExposure) && WholeCell(row.overdueAmount))
    ensures (forall i :: 0 <= i < |t.products| ==> IntegralProduct(t.products[i])) <==>
      (forall row :: row in t.products ==> WholeCell(row.sellingPrice) && WholeCell(row.availableQuantity))
  {
    forall c ensures !Fractional(c) <==> WholeCell(c) {
      CellPasses(c);
    }
    hide Fractional, WholeCell;
    if forall i :: 0 <= i < |lines| ==> IntegralLine(lines[i]) {
      forall row | row in t.lines ensures WholeCell(row.unitPrice) && WholeCell(row.quantity) {
        var i :| 0 <= i < |t.lines| && t.lines[i] == row;
        assert IntegralLine(lines[i]);
      }
    }
    if forall row :: row in t.lines ==> WholeCell(row.unitPrice) && WholeCell(row.quantity) {
      forall i | 0 <= i < |lines| ensures IntegralLine(lines[i]) {
        assert t.lines[i] in t.lines;
      }
    }
    Members(t.customers, IntegralCustomer);
    Members(t.products, IntegralProduct);
  }

  lemma DraftsPass(rows: seq<DraftRow>)
    ensures RewriteAll(rows, RewriteDraft()).Got? <==> forall row :: row in rows ==>
      row.customer.JMap? && WholeCredit(row.customer.entries) && EncodableBut(row.customer.entries, {})
  {
    RewriteAllRows(rows, RewriteDraft());
    forall row { DraftPasses(row); }
    hide RewriteAll, RewriteDraft, WholeCredit, EncodableBut;
  }

  lemma LinesPass(rows: seq<LineRow>)
    ensures RewriteAll(rows, RewriteLine()).Got? <==> forall row :: row in rows ==>
      && row.product.JMap?
      && WholeNumber(Get(row.product.entries, "sellingPrice"))
         && WholeNumber(Get(row.product.entries, "availableQuantity"))
      && EncodableBut(row.product.entries, {"sellingPrice", "availableQuantity"})
    ensures RewriteAll(rows, RewriteLine()).Got? ==>
      var rewritten := RewriteAll(rows, RewriteLine()).value;
      && |rewritten| == |rows|
      && forall i :: 0 <= i < |rows| ==>
        rewritten[i].unitPrice == rows[i].unitPrice && rewritten[i].quantity == rows[i].quantity
  {
    RewriteAllRows(rows, RewriteLine());
    forall row { LinePasses(row); }
    hide RewriteAll, RewriteLine, WholeNumber, EncodableBut;
  }

  lemma SalesPass(rows: seq<SaleRow>)
    ensures RewriteAll(rows, RewriteSale()).Got? <==> forall row :: row in rows ==>
      row.sale.JMap? && WholeSale(row.sale.entries) && EncodableBut(row.sale.entries, {"total"})
  {
    RewriteAllRows(rows, RewriteSale());
    forall row { SaleRowPasses(row); }
    hide RewriteAll, RewriteSale, WholeSale, EncodableBut;
  }

  lemma CommandsPass(rows: seq<CommandRow>)
    ensures RewriteAll(rows, RewriteCommand()).Got? <==> forall row :: row in rows ==>
      && row.command.JMap? && Get(row.command.entries, "sale").JMap?
      && WholeSale(Get(row.command.entries, "sale").entries) && EncodableBut(row.command.entries, {})
  {
    RewriteAllRows(rows, RewriteCommand());
    forall row { CommandPasses(row); }
    hide RewriteAll, RewriteCommand, WholeSale, EncodableBut;
  }

  /** The upgrade goes through exactly when every number it checks is whole, and every column fits 64 bits. */
  lemma UpgradesExactly(t: Tables)
    ensures Migrated(t).Got? <==> Upgradable(t)
  {
    DraftsPass(t.drafts);
    LinesPass(t.lines);
    SalesPass(t.sales);
    CommandsPass(t.commands);
    hide RewriteAll, RewriteDraft, RewriteLine, RewriteSale, RewriteCommand, WholeSale, WholeCredit, WholeNumber,
      EncodableBut, WholeCell, IntegralLine, IntegralCustomer, IntegralProduct;
    if RewriteAll(t.lines, RewriteLine()).Got? {
      ColumnsPass(t, RewriteAll(t.lines, RewriteLine()).value);
    }
  }

  /** Beyond the 64-bit range the JSON checks pass, and the total is rewritten to another number. */
  lemma HugeTotalChanges(sale: map<string, Json>, r: real)
    requires UpgradeSale(sale).Got? && r == r.Floor as real && (r < MIN64 as real || r > MAX64 as real)
    ensures var huge := sale["total" := JDouble(Finite(r))];
      && UpgradeSale(huge).Got?
      && Amount(Get(UpgradeSale(huge).value, "total")) != Amount(Get(huge, "total"))
      && (DecodeSale(JMap(sale)).Got? ==> DecodeSale(JMap(UpgradeSale(huge).value)).Got?)
  {
    var huge := sale["total" := JDouble(Finite(r))];
    ExactIntReads(Get(huge, "total"));
    forall key: string | key != "total" ensures Get(huge, key) == Get(sale, key) {
    }
    assert UpgradeSale(huge).Got?;
    SameHead(sale, huge);
    SaleReadsSame(huge);
    hide LinesExact, LinesFrom, CustomerFromMap, HeadFrom, UpgradeCustomer, UpgradeSale;
  }
}
