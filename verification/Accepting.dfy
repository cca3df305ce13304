/** When a sale is accepted: exactly when every requirement on the command, the books and the identifiers is met. */
module Accepting {
  import opened Basics
  import opened Sums
  import opened Model
  import opened Posting
  import opened Packets
  import opened Ledgers
  import opened Stock
  import opened CreditControl
  import opened Reconciliation
  import opened Runs
  import opened Theorems
  import opened Backends
  import opened Sold
  import Finance
  import Lookups
  import Money

  // The lines.

  /** The lines a sale would have, and the requirements they have to meet. */
  ghost predicate Billable(md: Master, committed: seq<Movement>, cmd: CompleteCommand, now: int, ids: seq<string>,
                           lines: seq<Line>, currency: string)
  {
    var n := |cmd.lines|;
    && |lines| == n && 1 + 2 * n <= |ids|
    && (forall i :: 0 <= i < n ==> LineSold(md, cmd, now, cmd.lines[i], ids[1 + 2 * i], lines[i]))
    && (forall i :: 0 <= i < n ==> Accounted(md, cmd, cmd.lines[i]))
    && OneCurrency(md, cmd, currency, n)
    && (forall id :: Sum(lines, Quantity(id)) <= Sum(committed, AtLoc(Loc(cmd.scope, id))))
    && Sum(lines, LineTotal()) <= MAX64 && Sum(lines, LineCogs()) <= MAX64
    && MovesNew(committed, ids, n)
  }

  /** The movements of the lines get identifiers that are new, and all different. */
  ghost predicate MovesNew(committed: seq<Movement>, ids: seq<string>, n: nat)
    requires 1 + 2 * n <= |ids|
  {
    && (forall i :: 0 <= i < n ==> forall m :: m in committed ==> m.id != ids[2 + 2 * i])
    && (forall i, j :: 0 <= i < j < n ==> ids[2 + 2 * i] != ids[2 + 2 * j])
  }

  /** The accounts of the product are set up. */
  ghost predicate Accounted(md: Master, cmd: CompleteCommand, requested: CommandLine) {
    var k := cmd.scope.Entity(requested.productId);
    k in md.products && md.products[k].revenueAccount != "" && md.products[k].cogsAccount != ""
    && md.products[k].inventoryAccount != ""
  }

  lemma {:induction false} PrefixSum<T>(s: seq<T>, n: nat, f: T -> int)
    requires n <= |s| && forall x :: x in s ==> f(x) >= 0
    ensures 0 <= Sum(s[..n], f) <= Sum(s, f)
  {
    assert s == s[..n] + s[n..];
    SumAppend(s[..n], s[n..], f);
    SumNonNegative(s[..n], f);
    SumNonNegative(s[n..], f);
  }

  /** The rate and its rounding fix the tax. */
  lemma ChargedAs(md: Master, cmd: CompleteCommand, now: int, requested: CommandLine, id: string, line: Line)
    requires Lookups.DistinctRates(md.taxRates) && requested.quantity > 0
    requires LineSold(md, cmd, now, requested, id, line)
    ensures LineAmounts(md, cmd, now, md.products[cmd.scope.Entity(requested.productId)], requested.quantity)
      == Ok(Amounts(line.subtotal, line.tax, line.total, line.cogs))
  {
    var product := md.products[cmd.scope.Entity(requested.productId)];
    var r :| InForce(md, cmd.scope.Company(), product.taxCode, now, r) && RoundedAt(r, line.subtotal, line.tax);
    Lookups.RatesAgree(md.taxRates, cmd.scope.Company(), product.taxCode, now, r);
    Money.ProductMonotone(1, 1, product.listPrice, requested.quantity);
    Money.TaxRounding(line.subtotal, r.basisPoints);
    Money.ProductMonotone(0, 0, product.standardCost, requested.quantity);
    hide Lookups.SelectedRate, InForce, Lookups.DistinctRates;
  }

  lemma SoldPositive(md: Master, cmd: CompleteCommand, now: int, requested: CommandLine, id: string, line: Line)
    requires requested.quantity > 0 && LineSold(md, cmd, now, requested, id, line)
    ensures line.subtotal > 0 && line.tax >= 0 && line.cogs >= 0 && line.total >= 0
  {
    var product := md.products[cmd.scope.Entity(requested.productId)];
    var r :| InForce(md, cmd.scope.Company(), product.taxCode, now, r) && RoundedAt(r, line.subtotal, line.tax);
    Money.ProductMonotone(1, 1, product.listPrice, requested.quantity);
    Money.ProductMonotone(0, 0, product.standardCost, requested.quantity);
    Money.ProductMonotone(0, 0, line.subtotal, r.basisPoints);
  }

  /** What the next line needs of the draft. */
  ghost predicate CanFollow(md: Master, committed: seq<Movement>, cmd: CompleteCommand, now: int, d: Draft,
                        requested: CommandLine, id: string, line: Line)
  {
    && LineSold(md, cmd, now, requested, id, line) && Accounted(md, cmd, requested)
    && (d.sale.currency == "" || d.sale.currency == md.products[cmd.scope.Entity(requested.productId)].currency)
    && Available(committed + d.movements, Loc(cmd.scope, requested.productId)) >= requested.quantity
    && RoomFor(d.sale, line)
    && |d.ids| >= 2 && d.ids[0] == id && !HasId(committed + d.movements, MoveId(), d.ids[1])
  }

  predicate RoomFor(sale: Sale, line: Line) {
    && sale.subtotal >= 0 && sale.tax >= 0 && sale.total >= 0 && sale.cogs >= 0
    && sale.subtotal + line.subtotal <= MAX64 && sale.tax + line.tax <= MAX64
    && sale.total + line.total <= MAX64 && sale.cogs + line.cogs <= MAX64
  }

  /** Then it can be posted. */
  lemma NextPosts(md: Master, committed: seq<Movement>, cmd: CompleteCommand, now: int, d: Draft,
                  requested: CommandLine, id: string, line: Line)
    requires md.Valid() && Lookups.DistinctRates(md.taxRates) && requested.quantity > 0
    requires CanFollow(md, committed, cmd, now, d, requested, id, line)
    ensures PostLine(md, committed, cmd, now, d, requested).Ok? && cmd.scope.Entity(requested.productId) in md.products
    ensures PostLine(md, committed, cmd, now, d, requested).value.sale.lines == d.sale.lines + [line]
    ensures PostLine(md, committed, cmd, now, d, requested).value.sale.currency
      == md.products[cmd.scope.Entity(requested.productId)].currency
  {
    ChargedAs(md, cmd, now, requested, id, line);
    SoldPositive(md, cmd, now, requested, id, line);
    hide LineAmounts, HasId, Available, Taxed, Lookups.DistinctRates;
  }

  /** The draft after `k` lines of a billable command. */
  ghost predicate DraftAt(md: Master, committed: seq<Movement>, cmd: CompleteCommand, now: int, ids: seq<string>,
                          lines: seq<Line>, k: nat, d: Draft)
    requires k <= |cmd.lines| <= |lines|
  {
    && SoldSoFar(md, cmd, now, ids, d, k) && GoodDraft(md, cmd, d) && d.sale.lines == lines[..k] && d.sale.id == ids[0]
    && d.sale.currency == if k == 0 then "" else CurrencyOf(md, cmd, k - 1)
  }

  lemma StockLeft(md: Master, committed: seq<Movement>, cmd: CompleteCommand, now: int, ids: seq<string>,
                  lines: seq<Line>, currency: string, k: nat, d: Draft)
    requires StockOk(committed) && k < |cmd.lines| && Billable(md, committed, cmd, now, ids, lines, currency)
    requires (forall line :: line in cmd.lines ==> line.quantity > 0)
    requires DraftAt(md, committed, cmd, now, ids, lines, k, d)
    ensures Available(committed + d.movements, Loc(cmd.scope, cmd.lines[k].productId)) >= cmd.lines[k].quantity
  {
    var id := cmd.lines[k].productId;
    var loc, q := Loc(cmd.scope, id), Quantity(id);
    assert LineSold(md, cmd, now, cmd.lines[k], ids[1 + 2 * k], lines[k]);
    SoldQuantity(md, cmd, now, cmd.lines[k], ids[1 + 2 * k], lines[k]);
    QuantitiesPositive(md, cmd, now, ids, lines, q, id);
    hide GoodTotals, Configured, OneCurrency, Accounted, Entered, ProductEntries, Sum, Wrap, LineSold, SoldSoFar;
    PrefixPlus(lines, k, q);
    SumAppend(committed, d.movements, AtLoc(loc));
    IssueSum(d.sale, d.movements, loc);
    PrefixSum(lines, k, q);
    InRange(Sum(committed + d.movements, AtLoc(loc)), Sum(committed, AtLoc(loc)));
  }

  lemma SoldQuantity(md: Master, cmd: CompleteCommand, now: int, requested: CommandLine, id: string, line: Line)
    requires LineSold(md, cmd, now, requested, id, line)
    ensures line.productId == requested.productId && line.quantity == requested.quantity
  {
  }

  lemma InRange(x: int, top: int)
    requires 0 <= x <= top <= MAX64
    ensures Wrap(x) == x
  {
  }

  lemma QuantitiesPositive(md: Master, cmd: CompleteCommand, now: int, ids: seq<string>, lines: seq<Line>,
                           q: Line -> int, id: string)
    requires |lines| == |cmd.lines| && 1 + 2 * |lines| <= |ids| && q == Quantity(id)
    requires forall line :: line in cmd.lines ==> line.quantity > 0
    requires forall i :: 0 <= i < |lines| ==> LineSold(md, cmd, now, cmd.lines[i], ids[1 + 2 * i], lines[i])
    ensures forall line :: line in lines ==> q(line) >= 0
  {
    forall line | line in lines ensures q(line) >= 0 {
      var i :| 0 <= i < |lines| && lines[i] == line;
      assert LineSold(md, cmd, now, cmd.lines[i], ids[1 + 2 * i], lines[i]);
    }
  }

  /** No total leaves int64 before the last line when the final ones do not. */
  lemma TotalsLeft(md: Master, cmd: CompleteCommand, now: int, ids: seq<string>, lines: seq<Line>, k: nat, sale: Sale)
    requires |lines| == |cmd.lines| && 1 + 2 * |lines| <= |ids| && k < |lines|
    requires forall line :: line in cmd.lines ==> line.quantity > 0
    requires forall i :: 0 <= i < |lines| ==> LineSold(md, cmd, now, cmd.lines[i], ids[1 + 2 * i], lines[i])
    requires Sum(lines, LineTotal()) <= MAX64 && Sum(lines, LineCogs()) <= MAX64
    requires GoodTotals(sale) && sale.lines == lines[..k]
    ensures RoomFor(sale, lines[k])
  {
    forall i | 0 <= i < |lines|
      ensures lines[i].subtotal > 0 && lines[i].tax >= 0 && lines[i].cogs >= 0 && lines[i].total >= 0
      ensures lines[i].total == lines[i].subtotal + lines[i].tax
    {
      SoldPositive(md, cmd, now, cmd.lines[i], ids[1 + 2 * i], lines[i]);
    }
    hide LineSold;
    forall line | line in lines ensures line.total >= 0 && line.cogs >= 0 {
      var i :| 0 <= i < |lines| && lines[i] == line;
    }
    RoomLeft(lines, k, sale);
  }

  lemma RoomLeft(lines: seq<Line>, k: nat, sale: Sale)
    requires k < |lines| && GoodTotals(sale) && sale.lines == lines[..k]
    requires forall line :: line in lines ==> line.total >= 0 && line.cogs >= 0
    requires lines[k].subtotal > 0 && lines[k].tax >= 0 && lines[k].total == lines[k].subtotal + lines[k].tax
    requires Sum(lines, LineTotal()) <= MAX64 && Sum(lines, LineCogs()) <= MAX64
    ensures RoomFor(sale, lines[k])
  {
    PrefixPlus(lines, k, LineTotal());
    PrefixPlus(lines, k, LineCogs());
    SubtotalPositive(sale);
    hide Sum, GoodLine;
  }

  lemma PrefixPlus(lines: seq<Line>, k: nat, f: Line -> int)
    requires k < |lines| && forall line :: line in lines ==> f(line) >= 0
    ensures Sum(lines[..k], f) + f(lines[k]) <= Sum(lines, f)
  {
    assert lines[..k + 1] == lines[..k] + [lines[k]];
    SumPush(lines[..k], lines[k], f);
    PrefixSum(lines, k + 1, f);
  }

  lemma SubtotalPositive(sale: Sale)
    requires GoodTotals(sale)
    ensures sale.subtotal >= 0
  {
    forall line | line in sale.lines ensures LineSubtotal()(line) >= 0 {
      assert GoodLine(line);
    }
    SumNonNegative(sale.lines, LineSubtotal());
  }

  lemma NewMovement(md: Master, committed: seq<Movement>, cmd: CompleteCommand, now: int, ids: seq<string>,
                    lines: seq<Line>, currency: string, k: nat, d: Draft)
    requires k < |cmd.lines| && Billable(md, committed, cmd, now, ids, lines, currency)
    requires SoldSoFar(md, cmd, now, ids, d, k)
    ensures |d.ids| >= 2 && d.ids[0] == ids[1 + 2 * k] && d.ids[1] == ids[2 + 2 * k]
    ensures !HasId(committed + d.movements, MoveId(), d.ids[1])
  {
    hide LineSold, OneCurrency, Accounted, Entered, Sum;
    forall i | 0 <= i < |committed + d.movements| ensures (committed + d.movements)[i].id != ids[2 + 2 * k] {
      if i < |committed| {
        assert committed[i] in committed;
      } else {
        assert Issued(cmd, now, ids[0], cmd.lines[i - |committed|], ids[2 + 2 * (i - |committed|)],
                      d.movements[i - |committed|]);
      }
    }
  }

  lemma CurrencyAt(md: Master, cmd: CompleteCommand, currency: string, n: nat, k: nat)
    requires k < n <= |cmd.lines| && OneCurrency(md, cmd, currency, n)
    ensures k == 0 || CurrencyOf(md, cmd, k - 1) in {"", CurrencyOf(md, cmd, k)}
  {
  }

  lemma NextFollows(md: Master, committed: seq<Movement>, cmd: CompleteCommand, now: int, ids: seq<string>,
                    lines: seq<Line>, currency: string, k: nat, d: Draft)
    requires StockOk(committed) && k < |cmd.lines|
    requires forall line :: line in cmd.lines ==> line.quantity > 0
    requires Billable(md, committed, cmd, now, ids, lines, currency)
      && DraftAt(md, committed, cmd, now, ids, lines, k, d)
    ensures CanFollow(md, committed, cmd, now, d, cmd.lines[k], ids[1 + 2 * k], lines[k])
  {
    assert LineSold(md, cmd, now, cmd.lines[k], ids[1 + 2 * k], lines[k]) && Accounted(md, cmd, cmd.lines[k]);
    StockLeft(md, committed, cmd, now, ids, lines, currency, k, d);
    NewMovement(md, committed, cmd, now, ids, lines, currency, k, d);
    CurrencyAt(md, cmd, currency, |cmd.lines|, k);
    hide LineSold, OneCurrency, Sum, Available, HasId, GoodTotals, Entered, Issued, RoomFor, Accounted;
    TotalsLeft(md, cmd, now, ids, lines, k, d.sale);
  }

  lemma StepPosts(md: Master, committed: seq<Movement>, cmd: CompleteCommand, now: int, ids: seq<string>,
                  lines: seq<Line>, currency: string, k: nat, d: Draft)
    requires md.Valid() && Lookups.DistinctRates(md.taxRates) && StockOk(committed) && k < |cmd.lines|
    requires forall line :: line in cmd.lines ==> line.quantity > 0
    requires Billable(md, committed, cmd, now, ids, lines, currency)
      && DraftAt(md, committed, cmd, now, ids, lines, k, d)
    ensures PostLine(md, committed, cmd, now, d, cmd.lines[k]).Ok?
    ensures DraftAt(md, committed, cmd, now, ids, lines, k + 1,
                    PostLine(md, committed, cmd, now, d, cmd.lines[k]).value)
  {
    NextFollows(md, committed, cmd, now, ids, lines, currency, k, d);
    NextPosts(md, committed, cmd, now, d, cmd.lines[k], ids[1 + 2 * k], lines[k]);
    SameLength(md, committed, cmd, now, ids, lines, currency);
    DraftOn(md, committed, cmd, now, ids, lines, k, d);
    hide *;
  }

  lemma DraftOn(md: Master, committed: seq<Movement>, cmd: CompleteCommand, now: int, ids: seq<string>,
                lines: seq<Line>, k: nat, d: Draft)
    requires md.Valid() && k < |cmd.lines| <= |lines| && cmd.lines[k].quantity > 0
    requires DraftAt(md, committed, cmd, now, ids, lines, k, d)
    requires PostLine(md, committed, cmd, now, d, cmd.lines[k]).Ok?
    requires var d' := PostLine(md, committed, cmd, now, d, cmd.lines[k]).value;
      && d'.sale.lines == d.sale.lines + [lines[k]]
      && cmd.scope.Entity(cmd.lines[k].productId) in md.products
      && d'.sale.currency == md.products[cmd.scope.Entity(cmd.lines[k].productId)].currency
    ensures DraftAt(md, committed, cmd, now, ids, lines, k + 1,
                    PostLine(md, committed, cmd, now, d, cmd.lines[k]).value)
  {
    hide PostLine, SoldSoFar, GoodDraft, CurrencyOf;
    LineGoesOn(md, committed, cmd, now, ids, lines, k, d);
    PostLineFacts(md, committed, cmd, now, d, cmd.lines[k]);
    hide DraftAt;
    AtNext(md, committed, cmd, now, ids, lines, k, d, PostLine(md, committed, cmd, now, d, cmd.lines[k]).value);
  }

  lemma AtNext(md: Master, committed: seq<Movement>, cmd: CompleteCommand, now: int, ids: seq<string>,
               lines: seq<Line>, k: nat, d: Draft, d': Draft)
    requires k < |cmd.lines| <= |lines| && SoldSoFar(md, cmd, now, ids, d', k + 1) && GoodDraft(md, cmd, d')
    requires d'.sale.id == d.sale.id && DraftAt(md, committed, cmd, now, ids, lines, k, d)
    requires d'.sale.lines == d.sale.lines + [lines[k]]
    requires cmd.scope.Entity(cmd.lines[k].productId) in md.products
    requires d'.sale.currency == md.products[cmd.scope.Entity(cmd.lines[k].productId)].currency
    ensures DraftAt(md, committed, cmd, now, ids, lines, k + 1, d')
  {
    hide SoldSoFar, GoodDraft;
    assert lines[..k + 1] == lines[..k] + [lines[k]];
  }

  lemma LineGoesOn(md: Master, committed: seq<Movement>, cmd: CompleteCommand, now: int, ids: seq<string>,
              lines: seq<Line>, k: nat, d: Draft)
    requires md.Valid() && k < |cmd.lines| <= |lines| && cmd.lines[k].quantity > 0
    requires SoldSoFar(md, cmd, now, ids, d, k) && d.sale.id == ids[0]
    requires PostLine(md, committed, cmd, now, d, cmd.lines[k]).Ok?
    ensures SoldSoFar(md, cmd, now, ids, PostLine(md, committed, cmd, now, d, cmd.lines[k]).value, k + 1)
  {
    hide PostLine, LineSold, Issued, Entered, OneCurrency, LineJournaled;
    var line, m, group := LineShape(md, committed, cmd, now, d, cmd.lines[k]);
    SoldPush(md, cmd, now, ids, d, k, PostLine(md, committed, cmd, now, d, cmd.lines[k]).value, line, m, group);
  }

  /** A billable command has all its lines posted. */
  lemma {:induction false} BillPosts(md: Master, committed: seq<Movement>, cmd: CompleteCommand, now: int,
                                     ids: seq<string>, lines: seq<Line>, currency: string, k: nat, begun: Draft)
    requires md.Valid() && Lookups.DistinctRates(md.taxRates) && StockOk(committed) && k <= |cmd.lines|
    requires forall line :: line in cmd.lines ==> line.quantity > 0
    requires Billable(md, committed, cmd, now, ids, lines, currency)
    requires DraftAt(md, committed, cmd, now, ids, lines, 0, begun)
    ensures PostLines(md, committed, cmd, now, begun, cmd.lines[..k]).Ok?
    ensures DraftAt(md, committed, cmd, now, ids, lines, k,
                    PostLines(md, committed, cmd, now, begun, cmd.lines[..k]).value)
  {
    hide Billable, DraftAt, PostLine, Lookups.DistinctRates;
    if k > 0 {
      assert cmd.lines[..k][..k - 1] == cmd.lines[..k - 1];
      BillPosts(md, committed, cmd, now, ids, lines, currency, k - 1, begun);
      var d := PostLines(md, committed, cmd, now, begun, cmd.lines[..k - 1]).value;
      SameLength(md, committed, cmd, now, ids, lines, currency);
      StepPosts(md, committed, cmd, now, ids, lines, currency, k - 1, d);
    }
  }

  lemma SameLength(md: Master, committed: seq<Movement>, cmd: CompleteCommand, now: int, ids: seq<string>,
                   lines: seq<Line>, currency: string)
    requires Billable(md, committed, cmd, now, ids, lines, currency)
    ensures |lines| == |cmd.lines|
  {
  }

  /** New movements have new identifiers. */
  lemma {:induction false} LinesNew(md: Master, committed: seq<Movement>, cmd: CompleteCommand, now: int,
                                    ids: seq<string>, begun: Draft, n: nat)
    requires md.Valid() && n <= |cmd.lines| && (forall line :: line in cmd.lines ==> line.quantity > 0)
    requires SoldSoFar(md, cmd, now, ids, begun, 0) && begun.sale.id == ids[0]
    requires PostLines(md, committed, cmd, now, begun, cmd.lines[..n]).Ok? && 1 + 2 * n <= |ids|
    ensures MovesNew(committed, ids, n)
  {
    if n > 0 {
      assert cmd.lines[..n][..n - 1] == cmd.lines[..n - 1];
      LinesNew(md, committed, cmd, now, ids, begun, n - 1);
      LinesSold(md, committed, cmd, now, ids, begun, n - 1);
      hide SoldSoFar, SameHead, PostLine, MovesNew;
      LineNew(md, committed, cmd, now, ids, PostLines(md, committed, cmd, now, begun, cmd.lines[..n - 1]).value, n - 1);
    }
  }

  lemma LineNew(md: Master, committed: seq<Movement>, cmd: CompleteCommand, now: int, ids: seq<string>, d: Draft,
                n: nat)
    requires md.Valid() && n < |cmd.lines| && cmd.lines[n].quantity > 0 && 3 + 2 * n <= |ids|
    requires SoldSoFar(md, cmd, now, ids, d, n) && PostLine(md, committed, cmd, now, d, cmd.lines[n]).Ok?
    ensures MovesNew(committed, ids, n) ==> MovesNew(committed, ids, n + 1)
  {
    var _, _, m := PostLineShape(md, committed, cmd, now, d, cmd.lines[n]);
    NewAmong(committed, d.movements, m.id);
    hide LineSold, Entered, OneCurrency, PostLine, HasId;
    forall i | 0 <= i < n ensures ids[2 + 2 * i] != ids[2 + 2 * n] {
      assert Issued(cmd, now, ids[0], cmd.lines[i], ids[2 + 2 * i], d.movements[i]);
    }
  }

  lemma NewAmong(committed: seq<Movement>, moves: seq<Movement>, id: string)
    requires !HasId(committed + moves, MoveId(), id)
    ensures forall m :: m in committed ==> m.id != id
    ensures forall i :: 0 <= i < |moves| ==> moves[i].id != id
  {
    forall m | m in committed ensures m.id != id {
      var i :| 0 <= i < |committed| && committed[i] == m;
      assert (committed + moves)[i] == m;
    }
    forall i | 0 <= i < |moves| ensures moves[i].id != id {
      assert (committed + moves)[|committed| + i] == moves[i];
    }
  }

  /** Posted lines meet the requirements. */
  lemma PostedBillable(md: Master, committed: seq<Movement>, cmd: CompleteCommand, now: int, ids: seq<string>,
                       begun: Draft, d: Draft)
    requires md.Valid() && cmd.Validate().Pass? && StockOk(committed) && Open(md, cmd, now, ids) == Ok(begun)
    requires PostLines(md, committed, cmd, now, begun, cmd.lines) == Ok(d)
    ensures SoldSoFar(md, cmd, now, ids, d, |cmd.lines|) && SameHead(d.sale, begun.sale)
    ensures Billable(md, committed, cmd, now, ids, d.sale.lines, d.sale.currency)
  {
    hide Open, PostLines, CompleteCommand.Validate, SoldSoFar, GoodDraft, StockOk, SameHead;
    PositiveLines(cmd);
    OpenStated(md, cmd, now, ids);
    DraftFacts(md, committed, cmd, now, ids, begun, d);
    assert cmd.lines[..|cmd.lines|] == cmd.lines;
    LinesSold(md, committed, cmd, now, ids, begun, |cmd.lines|);
    EnoughIds(md, cmd, now, ids, d);
    LinesNew(md, committed, cmd, now, ids, begun, |cmd.lines|);
    SoldBillable(md, committed, cmd, now, ids, d);
  }

  lemma EnoughIds(md: Master, cmd: CompleteCommand, now: int, ids: seq<string>, d: Draft)
    requires SoldSoFar(md, cmd, now, ids, d, |cmd.lines|)
    ensures 1 + 2 * |cmd.lines| <= |ids|
  {
  }

  lemma SoldBillable(md: Master, committed: seq<Movement>, cmd: CompleteCommand, now: int, ids: seq<string>, d: Draft)
    requires SoldSoFar(md, cmd, now, ids, d, |cmd.lines|) && GoodDraft(md, cmd, d)
    requires StockOk(committed + d.movements)
    requires MovesNew(committed, ids, |cmd.lines|)
    ensures Billable(md, committed, cmd, now, ids, d.sale.lines, d.sale.currency)
  {
    StockTaken(cmd, committed, d);
    forall i | 0 <= i < |cmd.lines| ensures Accounted(md, cmd, cmd.lines[i]) {
      LineAccounted(md, cmd, now, ids, d, i);
    }
    hide Accounted, StockOk, LineSold, Issued, OneCurrency, IssuesLines, Configured, Entered, MovesNew;
    assert d.sale.total == Sum(d.sale.lines, LineTotal()) && d.sale.cogs == Sum(d.sale.lines, LineCogs());
  }

  lemma LineAccounted(md: Master, cmd: CompleteCommand, now: int, ids: seq<string>, d: Draft, i: nat)
    requires SoldSoFar(md, cmd, now, ids, d, |cmd.lines|) && i < |cmd.lines|
    ensures Accounted(md, cmd, cmd.lines[i])
  {
    var groups :| Entered(md, cmd.scope, d.sale.lines, groups, d.entries);
    assert LineJournaled(md, cmd.scope, d.sale.lines[i], groups[i]);
    assert LineSold(md, cmd, now, cmd.lines[i], ids[1 + 2 * i], d.sale.lines[i]);
  }

  lemma StockTaken(cmd: CompleteCommand, committed: seq<Movement>, d: Draft)
    requires StockOk(committed + d.movements) && IssuesLines(d.sale, d.movements) && d.sale.scope == cmd.scope
    ensures forall id :: Sum(d.sale.lines, Quantity(id)) <= Sum(committed, AtLoc(Loc(cmd.scope, id)))
  {
    hide IssuesLines, Sum;
    forall id ensures Sum(d.sale.lines, Quantity(id)) <= Sum(committed, AtLoc(Loc(cmd.scope, id))) {
      var loc := Loc(cmd.scope, id);
      SumAppend(committed, d.movements, AtLoc(loc));
      IssueSum(d.sale, d.movements, loc);
      assert 0 <= Sum(committed + d.movements, AtLoc(loc));
    }
  }

  // Before the lines, and after them.

  /** The customer may buy, a period is open, and the accounts are set up. */
  ghost predicate Admissible(md: Master, cmd: CompleteCommand, now: int) {
    var company, k := CompanyId(cmd.scope.tenant, cmd.scope.company),
                      EntityId(cmd.scope.tenant, cmd.scope.company, cmd.customerId);
    && k in md.customers && md.customers[k].active
    && (cmd.kind == Credit ==> !md.customers[k].general && md.customers[k].creditEnabled)
    && OpenPeriod(md, company, now)
    && company in md.posting && md.posting[company].receivable != "" && md.posting[company].taxPayable != ""
    && Charge(md, cmd).Some? && Charge(md, cmd).value != ""
  }

  ghost predicate OpenPeriod(md: Master, company: CompanyId, now: int) {
    exists r :: r in md.periods && r.company == company && r.startsAt <= now < r.endsAt && r.open
  }

  lemma PeriodFound(md: Master, company: CompanyId, now: int)
    requires Lookups.DisjointPeriods(md.periods)
    ensures Lookups.PeriodOpen(md.periods, company, now) <==> OpenPeriod(md, company, now)
  {
    Lookups.PeriodsAgree(md.periods, company, now);
    if r :| r in md.periods && r.company == company && r.startsAt <= now < r.endsAt && r.open {
      Lookups.FirstCovers(md.periods, company, now, r);
    }
  }

  lemma OpensExactly(md: Master, cmd: CompleteCommand, now: int, ids: seq<string>)
    requires md.Valid() && cmd.kind in {Cash, Credit} && Lookups.DisjointPeriods(md.periods)
    ensures Open(md, cmd, now, ids).Ok? <==> Admissible(md, cmd, now) && ids != []
  {
    PeriodFound(md, cmd.scope.Company(), now);
    hide Lookups.PeriodOpen, OpenPeriod, Lookups.DisjointPeriods;
  }

  /** No row of the table has the identifier. */
  predicate Unused<T>(rows: seq<T>, id: T -> string, x: string) {
    forall i :: 0 <= i < |rows| ==> id(rows[i]) != x
  }

  /** The credit limit, and the identifiers of the remaining rows. */
  ghost predicate Settleable(md: Master, s: State, cmd: CompleteCommand, ids: seq<string>, sale: Sale) {
    var n, company := |cmd.lines|, CompanyId(cmd.scope.tenant, cmd.scope.company);
    && |ids| >= 3 + 2 * n && |sale.currency| == 3
    && (cmd.kind == Credit ==>
      && cmd.scope.Entity(cmd.customerId) in md.customers
      && Sum(s.ledger, OwedBy(company, cmd.customerId)) + sale.total
         <= md.customers[cmd.scope.Entity(cmd.customerId)].creditLimit)
    && (if cmd.kind == Credit then Unused(s.ledger, (e: LedgerEntry) => e.id, ids[1 + 2 * n])
        else Unused(s.payments, (q: Payment) => q.id, ids[1 + 2 * n]))
    && ids[0] != "" && ids[2 + 2 * n] != ""
  }

  lemma SettlesExactly(md: Master, s: State, cmd: CompleteCommand, now: int, ids: seq<string>, d: Draft)
    requires cmd.Validate().Pass? && GoodDraft(md, cmd, d) && d.sale.lines != [] && WithinLimits(md, s)
    requires cmd.scope.Entity(cmd.customerId) in md.customers
      && d.customer == md.customers[cmd.scope.Entity(cmd.customerId)]
    requires d.customer.id == cmd.customerId && ids != [] && d.sale.id == ids[0]
    requires 1 + 2 * |cmd.lines| <= |ids| && d.ids == ids[1 + 2 * |cmd.lines|..]
    ensures Settle(s.ledger, s.payments, cmd, now, d).Ok? <==> Settleable(md, s, cmd, ids, d.sale)
  {
    hide HasId, Unused, GoodDraft, CompleteCommand.Validate, Sum, WithinLimits, SettleEntry, TaxEntries;
    DraftKind(md, cmd, d);
    OwesWithin(md, s, cmd);
    UnusedIds(s, if |ids| >= 2 + 2 * |cmd.lines| then ids[1 + 2 * |cmd.lines|] else "");
    if |d.ids| >= 2 && |d.sale.currency| == 3 {
      JournalFilled(md, cmd, now, d);
    }
    hide Finance.Validates;
  }

  lemma DraftKind(md: Master, cmd: CompleteCommand, d: Draft)
    requires cmd.Validate().Pass? && GoodDraft(md, cmd, d) && d.sale.lines != []
    ensures d.sale.total > 0 && d.sale.kind == cmd.kind && d.sale.scope == cmd.scope && cmd.kind in {Cash, Credit}
  {
    TotalPositive(d.sale);
    PositiveLines(cmd);
    hide CompleteCommand.Validate, GoodTotals;
  }

  lemma UnusedIds(s: State, x: string)
    ensures HasId(s.ledger, EntryId(), x) <==> !Unused(s.ledger, (e: LedgerEntry) => e.id, x)
    ensures HasId(s.payments, PayId(), x) <==> !Unused(s.payments, (q: Payment) => q.id, x)
  {
  }

  lemma OwesWithin(md: Master, s: State, cmd: CompleteCommand)
    requires WithinLimits(md, s)
    ensures var owed := Sum(s.ledger, OwedBy(cmd.scope.Company(), cmd.customerId));
      0 <= owed <= MAX64 && Exposure(s.ledger, cmd.scope.Company(), cmd.customerId) == owed
  {
    assert MayOwe(md, cmd.scope.Company(), cmd.customerId, Sum(s.ledger, OwedBy(cmd.scope.Company(), cmd.customerId)));
  }

  lemma TotalPositive(sale: Sale)
    requires GoodTotals(sale) && sale.lines != []
    ensures sale.total > 0
  {
    PositiveTotal(sale);
  }

  lemma JournalFilled(md: Master, cmd: CompleteCommand, now: int, d: Draft)
    requires cmd.Validate().Pass? && GoodDraft(md, cmd, d) && d.sale.lines != []
    requires |d.ids| >= 2 && |d.sale.currency| == 3
    ensures Finance.Validates(Journal(d.ids[1], cmd.scope.Company(), FromSale, d.sale.id, d.sale.currency, now,
                                      [SettleEntry(d)] + d.entries + TaxEntries(d.posting.taxPayable, d.sale.tax)))
      <==> d.ids[1] != "" && d.sale.id != ""
  {
    var j := Journal(d.ids[1], cmd.scope.Company(), FromSale, d.sale.id, d.sale.currency, now,
                     [SettleEntry(d)] + d.entries + TaxEntries(d.posting.taxPayable, d.sale.tax));
    PositiveLines(cmd);
    ScopeFilled(cmd);
    DraftEntries(md, cmd, d);
    SaleBalances(md, j, d.sale);
    Finance.ValidateExact(j);
    hide SaleEntries, GoodDraft, CompleteCommand.Validate, Sum, Finance.OneSided;
  }

  /** The record, its journal and its events are new. */
  ghost predicate Recordable(s: State, scope: Scope, saleId: string, journalId: string, ids: seq<string>) {
    && EntityId(scope.tenant, scope.company, saleId) !in s.sales
    && Unused(s.journals, (j: Journal) => j.id, journalId)
    && |ids| >= 2 && Unused(s.audits, (a: AuditEvent) => a.id, ids[0])
       && Unused(s.outbox, (e: OutboxEvent) => e.id, ids[1])
  }

  lemma RecordsExactly(s: State, books: Books, actor: string, action: string, causation: string, claim: ClaimId,
                       hash: Hash, reverses: Option<EntityId>, now: int)
    requires Closed(s) && Finance.Validates(books.journal) && books.sale.id != ""
    requires books.journal.company == books.sale.scope.Company() && books.journal.sourceId == books.sale.id
    requires !books.journal.source.FromOther?
    requires reverses.Some? ==> reverses.value in s.sales && s.sales[reverses.value].status == Posted
    ensures Record(s, books, actor, action, causation, claim, hash, reverses, now).Ok? <==>
      Recordable(s, books.sale.scope, books.sale.id, books.journal.id, books.ids)
  {
    if books.sale.Key() !in s.sales {
      forall j | j in s.journals ensures !JournaledBy(books.journal.company, books.journal.source, books.sale.id)(j) {
        assert Owned(s, j.company, j.source, j.sourceId);
      }
      FilterNone(s.journals, JournaledBy(books.journal.company, books.journal.source, books.sale.id));
    }
    hide Finance.Validates, Filter, Closed;
  }

  // The whole sale.

  /** The fields a command must fill in. */
  predicate Filled(cmd: CompleteCommand) {
    && !Blank(cmd.scope.tenant) && !Blank(cmd.scope.company) && !Blank(cmd.scope.branch) && !Blank(cmd.scope.warehouse)
    && !Blank(cmd.customerId) && !Blank(cmd.actor) && !Blank(cmd.key) && cmd.lines != []
    && (cmd.kind == Cash || cmd.kind == Credit) && (cmd.kind == Cash <==> !Blank(cmd.paymentMethod))
    && forall line :: line in cmd.lines ==> !Blank(line.productId) && line.quantity > 0
  }

  lemma FilledExactly(cmd: CompleteCommand)
    ensures cmd.Validate().Pass? <==> Filled(cmd)
  {
    hide Blank;
    if cmd.Validate().Pass? {
      forall line | line in cmd.lines ensures !Blank(line.productId) && line.quantity > 0 {
        var i :| 0 <= i < |cmd.lines| && cmd.lines[i] == line;
      }
    }
  }

  /** Everything an accepted sale requires, with the lines it will have. */
  ghost predicate MaySell(b: Backend, md: Master, s: State, cmd: CompleteCommand, now: int, ids: seq<string>,
                          sale: Sale)
  {
    var n := |cmd.lines|;
    && Filled(cmd) && Permission(cmd.scope, cmd.actor, "sales.complete") in md.permissions
    && ClaimId(cmd.scope.tenant, cmd.scope.company, "sales.complete.v1", cmd.key) !in s.claims
    && Admissible(md, cmd, now)
    && Billable(md, s.movements, cmd, now, ids, sale.lines, sale.currency)
    && sale.total == Sum(sale.lines, LineTotal()) && sale.cogs == Sum(sale.lines, LineCogs())
    && Settleable(md, s, cmd, ids, sale)
    && Recordable(s, cmd.scope, ids[0], ids[2 + 2 * n], ids[3 + 2 * n..])
    && (b == Postgres ==> sale.total + sale.cogs <= MAX64)
  }

  lemma AdmitsExactly(md: Master, s: State, cmd: CompleteCommand)
    ensures AdmitComplete(md, s.claims, cmd) == Acquired <==>
      && Filled(cmd) && Permission(cmd.scope, cmd.actor, "sales.complete") in md.permissions
      && ClaimId(cmd.scope.tenant, cmd.scope.company, "sales.complete.v1", cmd.key) !in s.claims
  {
    FilledExactly(cmd);
    hide Filled, CompleteCommand.Validate;
  }

  /** What may be sold is drafted, with the amounts that were billed. */
  lemma MayPost(md: Master, s: State, cmd: CompleteCommand, now: int, ids: seq<string>, sale: Sale)
    requires md.Valid() && Lookups.DistinctRates(md.taxRates) && Lookups.DisjointPeriods(md.periods)
    requires StockOk(s.movements) && cmd.Validate().Pass? && Admissible(md, cmd, now)
    requires Billable(md, s.movements, cmd, now, ids, sale.lines, sale.currency)
    requires sale.total == Sum(sale.lines, LineTotal()) && sale.cogs == Sum(sale.lines, LineCogs())
    ensures Open(md, cmd, now, ids).Ok?
    ensures PostLines(md, s.movements, cmd, now, Open(md, cmd, now, ids).value, cmd.lines).Ok?
    ensures Drafted(md, cmd, ids, sale,
                    PostLines(md, s.movements, cmd, now, Open(md, cmd, now, ids).value, cmd.lines).value)
  {
    hide Open, PostLines, CompleteCommand.Validate, Admissible, Billable, DraftAt, Lookups.DistinctRates,
      Lookups.DisjointPeriods, StockOk, Sum, GoodDraft, SoldSoFar;
    PositiveLines(cmd);
    HasIds(md, s.movements, cmd, now, ids, sale.lines, sale.currency);
    OpensExactly(md, cmd, now, ids);
    StartsAt(md, s.movements, cmd, now, ids, sale.lines);
    assert cmd.lines[..|cmd.lines|] == cmd.lines;
    var begun := Open(md, cmd, now, ids).value;
    BillPosts(md, s.movements, cmd, now, ids, sale.lines, sale.currency, |cmd.lines|, begun);
    var d := PostLines(md, s.movements, cmd, now, begun, cmd.lines).value;
    BilledTotals(md, s.movements, cmd, now, ids, sale, d);
    DraftFacts(md, s.movements, cmd, now, ids, begun, d);
  }

  lemma HasIds(md: Master, committed: seq<Movement>, cmd: CompleteCommand, now: int, ids: seq<string>, lines: seq<Line>,
               currency: string)
    requires Billable(md, committed, cmd, now, ids, lines, currency)
    ensures 1 + 2 * |cmd.lines| <= |ids| && |lines| == |cmd.lines|
  {
  }

  lemma StartsAt(md: Master, committed: seq<Movement>, cmd: CompleteCommand, now: int, ids: seq<string>,
                 lines: seq<Line>)
    requires md.Valid() && cmd.kind in {Cash, Credit} && Open(md, cmd, now, ids).Ok? && |cmd.lines| <= |lines|
    ensures DraftAt(md, committed, cmd, now, ids, lines, 0, Open(md, cmd, now, ids).value)
  {
    OpenStated(md, cmd, now, ids);
    OpenFacts(md, cmd, now, ids);
    hide SoldSoFar, GoodDraft, Lookups.PeriodOpen;
  }

  /** The draft a sale is settled from. */
  ghost predicate Drafted(md: Master, cmd: CompleteCommand, ids: seq<string>, sale: Sale, d: Draft) {
    && GoodDraft(md, cmd, d) && d.sale.lines != [] && ids != [] && d.sale.id == ids[0]
    && cmd.scope.Entity(cmd.customerId) in md.customers
    && d.customer == md.customers[cmd.scope.Entity(cmd.customerId)] && d.customer.id == cmd.customerId
    && 1 + 2 * |cmd.lines| <= |ids| && d.ids == ids[1 + 2 * |cmd.lines|..]
    && d.sale.total == sale.total && d.sale.cogs == sale.cogs && d.sale.currency == sale.currency
  }

  /** A settled draft is stored exactly when its identifiers are new. */
  lemma StoresExactly(md: Master, s: State, cmd: CompleteCommand, now: int, ids: seq<string>, sale: Sale, d: Draft)
    requires Closed(s) && cmd.Validate().Pass? && Drafted(md, cmd, ids, sale, d)
    requires Settle(s.ledger, s.payments, cmd, now, d).Ok?
    ensures |ids| >= 3 + 2 * |cmd.lines|
    ensures var books := Settle(s.ledger, s.payments, cmd, now, d).value;
      && books.sale == d.sale
      && (Record(s, books, cmd.actor, "sale.posted", cmd.key, cmd.Claim(), cmd.Hash(), None, now).Ok? <==>
          Recordable(s, cmd.scope, ids[0], ids[2 + 2 * |cmd.lines|], ids[3 + 2 * |cmd.lines|..]))
  {
    SettledBooks(md, s, cmd, now, d);
    hide Settle, Record, Recordable, Closed, Finance.Validates, CompleteCommand.Validate, GoodDraft;
    RecordsExactly(s, Settle(s.ledger, s.payments, cmd, now, d).value, cmd.actor, "sale.posted", cmd.key, cmd.Claim(),
                   cmd.Hash(), None, now);
  }

  lemma SettledBooks(md: Master, s: State, cmd: CompleteCommand, now: int, d: Draft)
    requires Settle(s.ledger, s.payments, cmd, now, d).Ok? && GoodDraft(md, cmd, d)
    ensures var books := Settle(s.ledger, s.payments, cmd, now, d).value;
      && |d.ids| >= 2 && books.ids == d.ids[2..] && books.sale == d.sale && books.sale.scope == cmd.scope
      && books.sale.id != "" && books.journal.id == d.ids[1] && Finance.Validates(books.journal)
      && books.journal.company == cmd.scope.Company() && books.journal.sourceId == d.sale.id
      && books.journal.source == FromSale
  {
    hide HasId, Exposure, SettleEntry, TaxEntries, GoodTotals, Configured, IssuesLines, ProductEntries;
    SourceNamed(Settle(s.ledger, s.payments, cmd, now, d).value.journal);
    hide Finance.Validates;
  }

  lemma SourceNamed(j: Journal)
    ensures Finance.Validates(j) ==> j.sourceId != ""
  {
  }

  lemma MaySells(b: Backend, md: Master, s: State, cmd: CompleteCommand, now: int, ids: seq<string>, sale: Sale)
    requires md.Valid() && Lookups.DistinctRates(md.taxRates) && Lookups.DisjointPeriods(md.periods)
    requires StockOk(s.movements) && WithinLimits(md, s) && Closed(s)
    requires MaySell(b, md, s, cmd, now, ids, sale)
    ensures AdmitComplete(md, s.claims, cmd) == Acquired && BuildSale(md, s, cmd, now, ids).Ok?
    ensures BuildSale(md, s, cmd, now, ids).value.books.sale.total == sale.total
    ensures BuildSale(md, s, cmd, now, ids).value.books.sale.cogs == sale.cogs
  {
    AdmitsExactly(md, s, cmd);
    FilledExactly(cmd);
    hide Filled, CompleteCommand.Validate, Admissible, Billable, Sum, AdmitComplete, Lookups.DistinctRates,
      Lookups.DisjointPeriods, StockOk, Open, PostLines, Record, Recordable, WithinLimits, Closed, Drafted;
    MayPost(md, s, cmd, now, ids, sale);
    var d := PostLines(md, s.movements, cmd, now, Open(md, cmd, now, ids).value, cmd.lines).value;
    MaySettle(md, s, cmd, now, ids, sale, d);
    hide Settle, Settleable;
    StoresExactly(md, s, cmd, now, ids, sale, d);
    RecordBooks(s, Settle(s.ledger, s.payments, cmd, now, d).value, cmd.actor, "sale.posted", cmd.key, cmd.Claim(),
                cmd.Hash(), None, now);
  }

  lemma MaySettle(md: Master, s: State, cmd: CompleteCommand, now: int, ids: seq<string>, sale: Sale, d: Draft)
    requires cmd.Validate().Pass? && WithinLimits(md, s) && Drafted(md, cmd, ids, sale, d)
    ensures Settle(s.ledger, s.payments, cmd, now, d).Ok? <==> Settleable(md, s, cmd, ids, sale)
    ensures d.sale.total == sale.total && d.sale.cogs == sale.cogs
  {
    hide Settle, WithinLimits, GoodDraft, CompleteCommand.Validate;
    SettlesExactly(md, s, cmd, now, ids, d);
  }

  lemma BooksGuarded(md: Master, seeds: seq<Movement>, s: State)
    requires GoodBooks(md, seeds, s)
    ensures StockOk(s.movements) && WithinLimits(md, s) && Closed(s) && Keyed(s) && Linked(md, s)
  {
  }

  /** The draft has the amounts and the currency of the bill. */
  lemma BilledTotals(md: Master, committed: seq<Movement>, cmd: CompleteCommand, now: int, ids: seq<string>, sale: Sale,
                     d: Draft)
    requires cmd.lines != [] && Billable(md, committed, cmd, now, ids, sale.lines, sale.currency)
    requires sale.total == Sum(sale.lines, LineTotal()) && sale.cogs == Sum(sale.lines, LineCogs())
    requires DraftAt(md, committed, cmd, now, ids, sale.lines, |cmd.lines|, d)
    ensures d.sale.total == sale.total && d.sale.cogs == sale.cogs && d.sale.currency == sale.currency
    ensures d.sale.lines != [] && d.sale.id == ids[0] && d.ids == ids[1 + 2 * |cmd.lines|..]
  {
    assert sale.lines[..|cmd.lines|] == sale.lines;
    hide LineSold, Entered, Sum, Accounted;
  }

  /** Whatever is built met the requirements. */
  lemma MustHaveMet(md: Master, s: State, cmd: CompleteCommand, now: int, ids: seq<string>)
    requires md.Valid() && Lookups.DisjointPeriods(md.periods)
    requires StockOk(s.movements) && WithinLimits(md, s) && Closed(s)
    requires AdmitComplete(md, s.claims, cmd) == Acquired && BuildSale(md, s, cmd, now, ids).Ok?
    ensures MaySell(Memory, md, s, cmd, now, ids, BuildSale(md, s, cmd, now, ids).value.books.sale)
  {
    AdmitsExactly(md, s, cmd);
    FilledExactly(cmd);
    hide Filled, CompleteCommand.Validate, Admissible, Billable, Sum, AdmitComplete, Lookups.DisjointPeriods, StockOk,
      Open, PostLines, Record, Recordable, WithinLimits, Closed, Drafted, Settle, Settleable, SoldSoFar, SameHead;
    PositiveLines(cmd);
    OpensExactly(md, cmd, now, ids);
    var begun := Open(md, cmd, now, ids).value;
    var d := PostLines(md, s.movements, cmd, now, begun, cmd.lines).value;
    PostedBillable(md, s.movements, cmd, now, ids, begun, d);
    PostedDrafted(md, s, cmd, now, ids, begun, d);
    MaySettle(md, s, cmd, now, ids, d.sale, d);
    StoresExactly(md, s, cmd, now, ids, d.sale, d);
    RecordBooks(s, Settle(s.ledger, s.payments, cmd, now, d).value, cmd.actor, "sale.posted", cmd.key, cmd.Claim(),
                cmd.Hash(), None, now);
    DraftTotals(md, cmd, ids, d);
  }

  lemma DraftTotals(md: Master, cmd: CompleteCommand, ids: seq<string>, d: Draft)
    requires Drafted(md, cmd, ids, d.sale, d)
    ensures d.sale.total == Sum(d.sale.lines, LineTotal()) && d.sale.cogs == Sum(d.sale.lines, LineCogs())
  {
  }

  lemma PostedDrafted(md: Master, s: State, cmd: CompleteCommand, now: int, ids: seq<string>, begun: Draft, d: Draft)
    requires md.Valid() && cmd.Validate().Pass? && Open(md, cmd, now, ids) == Ok(begun)
    requires PostLines(md, s.movements, cmd, now, begun, cmd.lines) == Ok(d)
    requires SoldSoFar(md, cmd, now, ids, d, |cmd.lines|) && SameHead(d.sale, begun.sale)
    ensures Drafted(md, cmd, ids, d.sale, d)
  {
    hide Open, PostLines, GoodDraft, CompleteCommand.Validate, SoldSoFar;
    DraftFacts(md, s.movements, cmd, now, ids, begun, d);
    PositiveLines(cmd);
    OpenStated(md, cmd, now, ids);
    IdsLeft(md, cmd, now, ids, d);
  }

  lemma IdsLeft(md: Master, cmd: CompleteCommand, now: int, ids: seq<string>, d: Draft)
    requires SoldSoFar(md, cmd, now, ids, d, |cmd.lines|)
    ensures 1 + 2 * |cmd.lines| <= |ids| && d.ids == ids[1 + 2 * |cmd.lines|..]
  {
  }

  /** Below the bound of the database a sale's journal fits, and beyond it does not. */
  lemma SaleFits(md: Master, s: State, command: CompleteCommand, now: int, ids: seq<string>)
    requires md.Valid() && Keyed(s) && Linked(md, s)
    requires var cmd := command.Normalized();
      AdmitComplete(md, s.claims, cmd) == Acquired && BuildSale(md, s, cmd, now, ids).Ok?
    ensures var p := BuildSale(md, s, command.Normalized(), now, ids).value;
      FitsBigint(p.books.journal) <==> p.books.sale.total + p.books.sale.cogs <= MAX64
  {
    hide BuildSale, AdmitComplete, Keyed, Linked, FitsBigint, CompleteCommand.Normalized;
    ServedFits(md, s, CompleteOp(command, now, ids));
  }

  /**
   * In a state that keeps the books, with rates of distinct dates and periods that do not overlap, a sale is accepted
   * exactly when everything it requires is met. On PostgreSQL the journal must also fit bigint.
   */
  lemma SaleAcceptedExactly(b: Backend, md: Master, seeds: seq<Movement>, s: State, command: CompleteCommand, now: int,
                            ids: seq<string>)
    requires md.Valid() && GoodBooks(md, seeds, s)
    requires Lookups.DistinctRates(md.taxRates) && Lookups.DisjointPeriods(md.periods)
    ensures var cmd := command.(paymentMethod := ToUpper(TrimSpace(command.paymentMethod)));
      Perform(b, md, s, CompleteOp(command, now, ids)).Accepted? <==>
        exists sale :: MaySell(b, md, s, cmd, now, ids, sale)
  {
    BooksGuarded(md, seeds, s);
    var cmd := command.Normalized();
    ServedAlways(b, md, s, command, now, ids);
    hide GoodBooks, MaySell, Perform, BuildSale, AdmitComplete, StockOk, WithinLimits, Closed, Keyed,
      Linked, FitsBigint, Lookups.DistinctRates, Lookups.DisjointPeriods, CompleteCommand.Normalized;
    if AdmitComplete(md, s.claims, cmd) == Acquired && BuildSale(md, s, cmd, now, ids).Ok? {
      MustHaveMet(md, s, cmd, now, ids);
      SaleFits(md, s, command, now, ids);
      OnBackend(b, md, s, cmd, now, ids, BuildSale(md, s, cmd, now, ids).value.books.sale);
    }
    forall sale | MaySell(b, md, s, cmd, now, ids, sale)
      ensures Perform(b, md, s, CompleteOp(command, now, ids)).Accepted?
    {
      MaySells(b, md, s, cmd, now, ids, sale);
      OnBackend(b, md, s, cmd, now, ids, sale);
      SaleFits(md, s, command, now, ids);
    }
  }

  lemma OnBackend(b: Backend, md: Master, s: State, cmd: CompleteCommand, now: int, ids: seq<string>, sale: Sale)
    ensures MaySell(b, md, s, cmd, now, ids, sale) <==>
      MaySell(Memory, md, s, cmd, now, ids, sale) && (b == Postgres ==> sale.total + sale.cogs <= MAX64)
  {
    hide Filled, Admissible, Billable, Settleable, Recordable, Sum;
  }

  /** What the operation answers, without the order in which rates and periods are examined. */
  lemma ServedAlways(b: Backend, md: Master, s: State, command: CompleteCommand, now: int, ids: seq<string>)
    requires Lookups.DistinctRates(md.taxRates) && Lookups.DisjointPeriods(md.periods)
    ensures var cmd := command.Normalized();
      Perform(b, md, s, CompleteOp(command, now, ids)).Accepted? <==>
        && AdmitComplete(md, s.claims, cmd) == Acquired && BuildSale(md, s, cmd, now, ids).Ok?
        && (b == Postgres ==> FitsBigint(BuildSale(md, s, cmd, now, ids).value.books.journal))
  {
    hide Lookups.DistinctRates, Lookups.DisjointPeriods;
    PerformedAlways(b, md, s, CompleteOp(command, now, ids));
    hide BuildSale, BuildReversal, AdmitComplete, AdmitReverse, FitsBigint, FindSale, CompleteCommand.Normalized,
      Perform;
  }
}
