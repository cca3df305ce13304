/**
 * cloneState over a heap: Go maps and slices are references, some nested in the values of others. The
 * clone holds the same values in maps and slices that are all new. What it shares with the original are
 * the targets of copied references: the instants behind optional times and the payload bytes of events,
 * which no step of a transaction writes. A transaction then works on the clone, and fails without a trace.
 */
module Isolation {
  import opened Basics
  import opened Model

  /** A Go map. */
  class Table<V> {
    var rows: map<string, V>

    constructor (rows: map<string, V>)
      ensures this.rows == rows
    {
      this.rows := rows;
    }
  }

  /** What a copied reference points to: an instant, or the bytes of a payload. */
  class Shared<T> {
    const value: T

    constructor (value: T)
      ensures this.value == value
    {
      this.value := value;
    }
  }

  /** A sale as read: the time of its reversal stays a reference. */
  datatype SaleCopy = SaleCopy(head: Sale, reversedAt: Option<Shared<int>>, lines: seq<Line>)

  /** A sale as stored: its lines are a slice. */
  datatype StoredSale = StoredSale(head: Sale, reversedAt: Option<Shared<int>>, lines: array<Line>) {
    function Value(): SaleCopy
      reads lines
    {
      SaleCopy(head, reversedAt, lines[..])
    }
  }

  datatype StoredRate = StoredRate(head: TaxRate, effectiveTo: Option<Shared<int>>)
  datatype StoredAudit = StoredAudit(head: AuditEvent, data: Shared<Sale>)
  datatype StoredEvent = StoredEvent(head: OutboxEvent, payload: Shared<Sale>)

  datatype StoredPosting = StoredPosting(receivable: string, taxPayable: string, cash: Table<string>) {
    function Value(): PostingConfig
      reads cash
    {
      PostingConfig(receivable, taxPayable, cash.rows)
    }
  }

  datatype StoredJournal = StoredJournal(head: Journal, entries: array<JournalEntry>) {
    function Value(): Journal
      reads entries
    {
      head.(entries := entries[..])
    }
  }

  /** All that a store holds, as values and references to what is shared. */
  datatype Contents = Contents(permissions: map<string, bool>, customers: map<string, Account>,
                               products: map<string, Product>, taxRates: seq<StoredRate>, periods: seq<FiscalPeriod>,
                               posting: map<string, PostingConfig>, sales: map<string, SaleCopy>,
                               movements: seq<Movement>, ledger: seq<LedgerEntry>, payments: seq<Payment>,
                               journals: seq<Journal>, audits: seq<StoredAudit>, outbox: seq<StoredEvent>,
                               idempotencies: map<string, Claim>)

  function SaleLines(sales: map<string, StoredSale>): set<object> {
    set k | k in sales :: sales[k].lines as object
  }

  function CashTables(posting: map<string, StoredPosting>): set<object> {
    set k | k in posting :: posting[k].cash as object
  }

  function EntrySlices(journals: seq<StoredJournal>): set<object> {
    set i | 0 <= i < |journals| :: journals[i].entries as object
  }

  function SaleValues(sales: map<string, StoredSale>): map<string, SaleCopy>
    reads SaleLines(sales)
  {
    map k | k in sales :: sales[k].Value()
  }

  function PostingValues(posting: map<string, StoredPosting>): map<string, PostingConfig>
    reads CashTables(posting)
  {
    map k | k in posting :: posting[k].Value()
  }

  function JournalValues(journals: seq<StoredJournal>): seq<Journal>
    reads EntrySlices(journals)
  {
    seq(|journals|, i requires 0 <= i < |journals| reads EntrySlices(journals) => journals[i].Value())
  }

  /** The state struct: references to maps and slices. */
  datatype HeapState = HeapState(permissions: Table<bool>, customers: Table<Account>, products: Table<Product>,
                                 taxRates: array<StoredRate>, periods: array<FiscalPeriod>,
                                 posting: Table<StoredPosting>, sales: Table<StoredSale>, movements: array<Movement>,
                                 ledger: array<LedgerEntry>, payments: array<Payment>, journals: array<StoredJournal>,
                                 audits: array<StoredAudit>, outbox: array<StoredEvent>, idempotencies: Table<Claim>) {
    /** The maps and slices of the state itself. */
    function Outer(): set<object> {
      Flat() + {posting as object, sales, journals}
    }

    function Flat(): set<object> {
      {permissions, customers, products, taxRates, periods, movements, ledger, payments, audits, outbox, idempotencies}
    }

    /** With the storage nested in sales, posting configurations and journals. */
    function Footprint(): set<object>
      reads Outer()
    {
      Outer() + SaleLines(sales.rows) + CashTables(posting.rows) + EntrySlices(journals[..])
    }

    function Value(): Contents
      reads Footprint()
    {
      Contents(permissions.rows, customers.rows, products.rows, taxRates[..], periods[..], PostingValues(posting.rows),
               SaleValues(sales.rows), movements[..], ledger[..], payments[..], JournalValues(journals[..]), audits[..],
               outbox[..], idempotencies.rows)
    }
  }

  // Copies.

  /** append to a nil slice. */
  method CopySlice<T>(source: array<T>) returns (copy: array<T>)
    ensures fresh(copy) && copy[..] == source[..]
  {
    copy := new T[source.Length](i requires 0 <= i < source.Length reads source => source[i]);
  }

  method CopyTable<V>(source: Table<V>) returns (copy: Table<V>)
    ensures fresh(copy) && copy.rows == source.rows
  {
    var rows: map<string, V> := map[];
    var left := source.rows.Keys;
    while left != {}
      invariant left <= source.rows.Keys && rows == source.rows - left
    {
      var key :| key in left;
      rows, left := rows[key := source.rows[key]], left - {key};
    }
    copy := new Table(rows);
  }

  method CopySales(source: Table<StoredSale>) returns (copy: Table<StoredSale>)
    ensures fresh(copy) && fresh(SaleLines(copy.rows)) && SaleValues(copy.rows) == SaleValues(source.rows)
  {
    var rows: map<string, StoredSale> := map[];
    var left := source.rows.Keys;
    while left != {}
      invariant left <= source.rows.Keys && rows.Keys == source.rows.Keys - left
      invariant forall k :: k in rows ==> fresh(rows[k].lines)
      invariant forall k :: k in rows ==> rows[k].Value() == source.rows[k].Value()
    {
      var key :| key in left;
      var lines := CopySlice(source.rows[key].lines);
      rows, left := rows[key := source.rows[key].(lines := lines)], left - {key};
    }
    copy := new Table(rows);
  }

  method CopyPosting(source: Table<StoredPosting>) returns (copy: Table<StoredPosting>)
    ensures fresh(copy) && fresh(CashTables(copy.rows)) && PostingValues(copy.rows) == PostingValues(source.rows)
  {
    var rows: map<string, StoredPosting> := map[];
    var left := source.rows.Keys;
    while left != {}
      invariant left <= source.rows.Keys && rows.Keys == source.rows.Keys - left
      invariant forall k :: k in rows ==> fresh(rows[k].cash)
      invariant forall k :: k in rows ==> rows[k].Value() == source.rows[k].Value()
    {
      var key :| key in left;
      var cash := CopyTable(source.rows[key].cash);
      rows, left := rows[key := source.rows[key].(cash := cash)], left - {key};
    }
    copy := new Table(rows);
  }

  method CopyJournals(source: array<StoredJournal>) returns (copy: array<StoredJournal>)
    ensures fresh(copy) && fresh(EntrySlices(copy[..])) && JournalValues(copy[..]) == JournalValues(source[..])
  {
    var rows: seq<StoredJournal> := [];
    for i := 0 to source.Length
      invariant |rows| == i && forall k :: 0 <= k < i ==> fresh(rows[k].entries)
      invariant forall k :: 0 <= k < i ==> rows[k].Value() == source[k].Value()
    {
      var entries := CopySlice(source[i].entries);
      rows := rows + [StoredJournal(source[i].head, entries)];
    }
    copy := new StoredJournal[|rows|](i requires 0 <= i < |rows| => rows[i]);
    assert copy[..] == rows;
    assert JournalValues(copy[..]) == JournalValues(source[..]);
  }

  ghost predicate SameTables(a: HeapState, b: HeapState)
    reads a.Flat(), b.Flat()
  {
    && a.permissions.rows == b.permissions.rows && a.customers.rows == b.customers.rows
    && a.products.rows == b.products.rows && a.idempotencies.rows == b.idempotencies.rows
  }

  ghost predicate SameFacts(a: HeapState, b: HeapState)
    reads a.Flat(), b.Flat()
  {
    && a.taxRates[..] == b.taxRates[..] && a.periods[..] == b.periods[..] && a.movements[..] == b.movements[..]
    && a.ledger[..] == b.ledger[..] && a.payments[..] == b.payments[..] && a.audits[..] == b.audits[..]
    && a.outbox[..] == b.outbox[..]
  }

  method CopyTables(source: HeapState) returns (r: HeapState)
    ensures fresh({r.permissions as object, r.customers, r.products, r.idempotencies}) && SameTables(r, source)
    ensures r == source.(permissions := r.permissions, customers := r.customers, products := r.products,
                         idempotencies := r.idempotencies)
  {
    var permissions := CopyTable(source.permissions);
    var customers := CopyTable(source.customers);
    var products := CopyTable(source.products);
    var idempotencies := CopyTable(source.idempotencies);
    r := source.(permissions := permissions, customers := customers, products := products,
                 idempotencies := idempotencies);
  }

  method CopyFacts(source: HeapState) returns (r: HeapState)
    ensures fresh({r.taxRates as object, r.periods, r.movements, r.ledger, r.payments, r.audits, r.outbox})
    ensures SameFacts(r, source)
    ensures r == source.(taxRates := r.taxRates, periods := r.periods, movements := r.movements, ledger := r.ledger,
                         payments := r.payments, audits := r.audits, outbox := r.outbox)
  {
    var taxRates := CopySlice(source.taxRates);
    var periods := CopySlice(source.periods);
    var movements := CopySlice(source.movements);
    var ledger := CopySlice(source.ledger);
    var payments := CopySlice(source.payments);
    var audits := CopySlice(source.audits);
    var outbox := CopySlice(source.outbox);
    r := source.(taxRates := taxRates, periods := periods, movements := movements, ledger := ledger,
                 payments := payments, audits := audits, outbox := outbox);
  }

  ghost predicate SameNested(a: HeapState, b: HeapState)
    reads a.Footprint(), b.Footprint()
  {
    && PostingValues(a.posting.rows) == PostingValues(b.posting.rows)
    && SaleValues(a.sales.rows) == SaleValues(b.sales.rows)
    && JournalValues(a.journals[..]) == JournalValues(b.journals[..])
  }

  method CopyNested(source: HeapState) returns (r: HeapState)
    ensures fresh({r.posting as object, r.sales, r.journals})
    ensures fresh(CashTables(r.posting.rows)) && fresh(SaleLines(r.sales.rows)) && fresh(EntrySlices(r.journals[..]))
    ensures SameNested(r, source) && r == source.(posting := r.posting, sales := r.sales, journals := r.journals)
  {
    var posting := CopyPosting(source.posting);
    var sales := CopySales(source.sales);
    var journals := CopyJournals(source.journals);
    r := source.(posting := posting, sales := sales, journals := journals);
  }

  lemma SameValue(a: HeapState, b: HeapState)
    requires SameTables(a, b) && SameFacts(a, b) && SameNested(a, b)
    ensures a.Value() == b.Value()
  {
  }

  method CopyFlat(source: HeapState) returns (r: HeapState)
    ensures fresh(r.Flat()) && SameTables(r, source) && SameFacts(r, source)
    ensures r.posting == source.posting && r.sales == source.sales && r.journals == source.journals
  {
    var tables := CopyTables(source);
    r := CopyFacts(tables);
  }

  method CopyParts(source: HeapState) returns (r: HeapState)
    ensures SameTables(r, source) && SameFacts(r, source) && SameNested(r, source)
    ensures fresh(r.Outer()) && fresh(CashTables(r.posting.rows)) && fresh(SaleLines(r.sales.rows))
    ensures fresh(EntrySlices(r.journals[..]))
  {
    hide PostingValues, SaleValues, JournalValues, CashTables, SaleLines, EntrySlices;
    var flat := CopyFlat(source);
    r := CopyNested(flat);
    assert r.Flat() == flat.Flat();
  }

  /** An equal state with the same shared targets, whose maps and slices, nested or not, are all new. */
  method CloneState(source: HeapState) returns (result: HeapState)
    ensures fresh(result.Footprint()) && result.Value() == source.Value()
  {
    hide SameTables, SameFacts, SameNested, JournalValues, SaleValues, PostingValues, HeapState.Value, HeapState.Outer,
      CashTables, SaleLines, EntrySlices;
    result := CopyParts(source);
    SameValue(result, source);
  }

  // Transactions.

  /** All the writes a transaction offers its callback: a table entry, or a row at the end of a slice. */
  datatype Edit =
    | PutSale(key: string, sale: SaleCopy)
    | PutClaim(key: string, claim: Claim)
    | AddMovement(movement: Movement)
    | AddEntry(entry: LedgerEntry)
    | AddPayment(payment: Payment)
    | AddJournal(journal: Journal)
    | AddAudit(audit: StoredAudit)
    | AddEvent(event: StoredEvent)

  function Edited(c: Contents, edit: Edit): Contents {
    match edit
    case PutSale(key, sale) => c.(sales := c.sales[key := sale])
    case PutClaim(key, claim) => c.(idempotencies := c.idempotencies[key := claim])
    case AddMovement(movement) => c.(movements := c.movements + [movement])
    case AddEntry(entry) => c.(ledger := c.ledger + [entry])
    case AddPayment(payment) => c.(payments := c.payments + [payment])
    case AddJournal(journal) => c.(journals := c.journals + [journal])
    case AddAudit(audit) => c.(audits := c.audits + [audit])
    case AddEvent(event) => c.(outbox := c.outbox + [event])
  }

  function AllEdited(c: Contents, edits: seq<Edit>): Contents {
    if edits == [] then c else Edited(AllEdited(c, edits[..|edits| - 1]), edits[|edits| - 1])
  }

  /** The rows that some edits add, in their order. */
  function Added<T>(edits: seq<Edit>, row: Edit -> Option<T>): seq<T> {
    if edits == [] then [] else
    Added(edits[..|edits| - 1], row) + Row(row, edits[|edits| - 1])
  }

  function MovementOf(): Edit -> Option<Movement> { (e: Edit) => if e.AddMovement? then Some(e.movement) else None }
  function EntryOf(): Edit -> Option<LedgerEntry> { (e: Edit) => if e.AddEntry? then Some(e.entry) else None }
  function PaymentOf(): Edit -> Option<Payment> { (e: Edit) => if e.AddPayment? then Some(e.payment) else None }
  function JournalOf(): Edit -> Option<Journal> { (e: Edit) => if e.AddJournal? then Some(e.journal) else None }
  function AuditOf(): Edit -> Option<StoredAudit> { (e: Edit) => if e.AddAudit? then Some(e.audit) else None }
  function EventOf(): Edit -> Option<StoredEvent> { (e: Edit) => if e.AddEvent? then Some(e.event) else None }

  /** The last edit of an entry of a table. */
  ghost predicate LastPut(edits: seq<Edit>, i: int, puts: Edit -> bool) {
    0 <= i < |edits| && puts(edits[i]) && forall j :: i < j < |edits| ==> !puts(edits[j])
  }

  function PutsSale(key: string): Edit -> bool { (e: Edit) => e.PutSale? && e.key == key }
  function PutsClaim(key: string): Edit -> bool { (e: Edit) => e.PutClaim? && e.key == key }

  /** Rows go to the end of their own table, in order, and what no edit names stays. */
  lemma RowsAdded(c: Contents, edits: seq<Edit>)
    ensures var d := AllEdited(c, edits);
      && d.movements == c.movements + Added(edits, MovementOf()) && d.ledger == c.ledger + Added(edits, EntryOf())
      && d.payments == c.payments + Added(edits, PaymentOf()) && d.journals == c.journals + Added(edits, JournalOf())
      && d.audits == c.audits + Added(edits, AuditOf()) && d.outbox == c.outbox + Added(edits, EventOf())
      && d == c.(sales := d.sales, idempotencies := d.idempotencies, movements := d.movements, ledger := d.ledger,
                 payments := d.payments, journals := d.journals, audits := d.audits, outbox := d.outbox)
  {
    LedgersAdded(c, edits);
    EventsAdded(c, edits);
    hide AllEdited, Added;
  }

  lemma {:induction false} LedgersAdded(c: Contents, edits: seq<Edit>)
    ensures var d := AllEdited(c, edits);
      && d.movements == c.movements + Added(edits, MovementOf()) && d.ledger == c.ledger + Added(edits, EntryOf())
      && d.payments == c.payments + Added(edits, PaymentOf())
  {
    if edits == [] {
    } else {
      var before, e := edits[..|edits| - 1], edits[|edits| - 1];
      LedgersAdded(c, before);
      OneAdded(AllEdited(c, before), e);
      hide Edited, Row, MovementOf, EntryOf, PaymentOf, JournalOf, AuditOf, EventOf;
    }
  }

  lemma {:induction false} EventsAdded(c: Contents, edits: seq<Edit>)
    ensures var d := AllEdited(c, edits);
      && d.journals == c.journals + Added(edits, JournalOf())
      && d.audits == c.audits + Added(edits, AuditOf()) && d.outbox == c.outbox + Added(edits, EventOf())
      && d == c.(sales := d.sales, idempotencies := d.idempotencies, movements := d.movements, ledger := d.ledger,
                 payments := d.payments, journals := d.journals, audits := d.audits, outbox := d.outbox)
  {
    if edits == [] {
    } else {
      var before, e := edits[..|edits| - 1], edits[|edits| - 1];
      EventsAdded(c, before);
      OneAdded(AllEdited(c, before), e);
      hide Edited, Row, MovementOf, EntryOf, PaymentOf, JournalOf, AuditOf, EventOf;
    }
  }

  lemma OneAdded(c: Contents, e: Edit)
    ensures var d := Edited(c, e);
      && d.movements == c.movements + Row(MovementOf(), e) && d.ledger == c.ledger + Row(EntryOf(), e)
      && d.payments == c.payments + Row(PaymentOf(), e) && d.journals == c.journals + Row(JournalOf(), e)
      && d.audits == c.audits + Row(AuditOf(), e) && d.outbox == c.outbox + Row(EventOf(), e)
      && d == c.(sales := d.sales, idempotencies := d.idempotencies, movements := d.movements, ledger := d.ledger,
                 payments := d.payments, journals := d.journals, audits := d.audits, outbox := d.outbox)
  {
  }

  function Row<T>(f: Edit -> Option<T>, e: Edit): seq<T> {
    if f(e).Some? then [f(e).value] else []
  }

  /** A sale holds what was put last under its key, and otherwise what it held. */
  lemma {:induction false} SalesPut(c: Contents, edits: seq<Edit>, key: string)
    ensures var d := AllEdited(c, edits).sales;
      && (forall i :: LastPut(edits, i, PutsSale(key)) ==> key in d && d[key] == edits[i].sale)
      && ((forall e :: e in edits ==> !PutsSale(key)(e)) ==>
          (key in d <==> key in c.sales) && (key in c.sales ==> d[key] == c.sales[key]))
  {
    if edits == [] {
    } else {
      var before, e := edits[..|edits| - 1], edits[|edits| - 1];
      SalesPut(c, before, key);
      PutBefore(edits, PutsSale(key));
      StepSalesPut(AllEdited(c, before), e, key);
      hide Edited, LastPut, PutsSale;
      OnlyLast(edits, PutsSale(key));
    }
  }

  lemma StepSalesPut(c: Contents, e: Edit, key: string)
    ensures var d := Edited(c, e).sales;
      if PutsSale(key)(e) then key in d && d[key] == e.sale
      else (key in d <==> key in c.sales) && (key in c.sales ==> d[key] == c.sales[key])
  {
  }

  lemma {:induction false} ClaimsPut(c: Contents, edits: seq<Edit>, key: string)
    ensures var d := AllEdited(c, edits).idempotencies;
      && (forall i :: LastPut(edits, i, PutsClaim(key)) ==> key in d && d[key] == edits[i].claim)
      && ((forall e :: e in edits ==> !PutsClaim(key)(e)) ==>
          (key in d <==> key in c.idempotencies) && (key in c.idempotencies ==> d[key] == c.idempotencies[key]))
  {
    if edits == [] {
    } else {
      var before, e := edits[..|edits| - 1], edits[|edits| - 1];
      ClaimsPut(c, before, key);
      PutBefore(edits, PutsClaim(key));
      StepClaimsPut(AllEdited(c, before), e, key);
      hide Edited, LastPut, PutsClaim;
      OnlyLast(edits, PutsClaim(key));
    }
  }

  lemma StepClaimsPut(c: Contents, e: Edit, key: string)
    ensures var d := Edited(c, e).idempotencies;
      if PutsClaim(key)(e) then key in d && d[key] == e.claim
      else (key in d <==> key in c.idempotencies) && (key in c.idempotencies ==> d[key] == c.idempotencies[key])
  {
  }

  lemma OnlyLast(edits: seq<Edit>, puts: Edit -> bool)
    requires edits != []
    ensures forall i :: LastPut(edits, i, puts) ==> 0 <= i < |edits| && (puts(edits[|edits| - 1]) ==> i == |edits| - 1)
    ensures forall i :: LastPut(edits, i, puts) && i == |edits| - 1 ==> puts(edits[|edits| - 1])
  {
  }

  lemma PutBefore(edits: seq<Edit>, puts: Edit -> bool)
    requires edits != []
    ensures forall i :: LastPut(edits, i, puts) && i < |edits| - 1 ==>
      LastPut(edits[..|edits| - 1], i, puts) && edits[..|edits| - 1][i] == edits[i] && !puts(edits[|edits| - 1])
    ensures forall e :: e in edits[..|edits| - 1] ==> e in edits
  {
    forall i | LastPut(edits, i, puts) && i < |edits| - 1
      ensures LastPut(edits[..|edits| - 1], i, puts) && !puts(edits[|edits| - 1])
    {
      assert forall j :: 0 <= j < |edits| - 1 ==> edits[..|edits| - 1][j] == edits[j];
    }
  }

  lemma SaleWritten(sales: map<string, StoredSale>, key: string, stored: StoredSale)
    ensures SaleValues(sales[key := stored]) == SaleValues(sales)[key := stored.Value()]
    ensures SaleLines(sales[key := stored]) <= SaleLines(sales) + {stored.lines}
  {
  }

  /** A table of sales is not a table of accounts, so writing one leaves the other. */
  lemma OtherTables(sales: Table<StoredSale>, posting: map<string, StoredPosting>, claims: Table<Claim>)
    ensures sales as object !in CashTables(posting) && claims as object !in CashTables(posting)
    ensures sales as object != claims as object
  {
  }

  method PutSaleIn(state: HeapState, key: string, sale: SaleCopy)
    modifies state.sales
    ensures state.Value() == old(state.Value()).(sales := old(state.Value()).sales[key := sale])
    ensures forall o :: o in state.Footprint() ==> o in old(state.Footprint()) || fresh(o)
  {
    OtherTables(state.sales, state.posting.rows, state.idempotencies);
    var lines := new Line[|sale.lines|](i requires 0 <= i < |sale.lines| => sale.lines[i]);
    assert lines[..] == sale.lines;
    var stored := StoredSale(sale.head, sale.reversedAt, lines);
    SaleWritten(state.sales.rows, key, stored);
    ghost var values := SaleValues(state.sales.rows[key := stored]);
    state.sales.rows := state.sales.rows[key := stored];
    assert SaleValues(state.sales.rows) == values;
    assert PostingValues(state.posting.rows) == old(PostingValues(state.posting.rows));
    assert state.journals[..] == old(state.journals[..]);
    assert JournalValues(state.journals[..]) == old(JournalValues(state.journals[..]));
  }

  method PutClaimIn(state: HeapState, key: string, claim: Claim)
    modifies state.idempotencies
    ensures state.Value() == old(state.Value()).(idempotencies := old(state.Value()).idempotencies[key := claim])
    ensures state.Footprint() == old(state.Footprint())
  {
    OtherTables(state.sales, state.posting.rows, state.idempotencies);
    state.idempotencies.rows := state.idempotencies.rows[key := claim];
    assert PostingValues(state.posting.rows) == old(PostingValues(state.posting.rows));
    assert state.journals[..] == old(state.journals[..]);
    assert JournalValues(state.journals[..]) == old(JournalValues(state.journals[..]));
  }

  /** append may move the rows to a new slice. */
  method Append<T>(source: array<T>, row: T) returns (copy: array<T>)
    ensures fresh(copy) && copy[..] == source[..] + [row]
  {
    var rows := source[..] + [row];
    copy := new T[|rows|](i requires 0 <= i < |rows| => rows[i]);
    assert copy[..] == rows;
  }

  /** A slice without nested storage grows, and the others stay. */
  method AddRow(state: HeapState, edit: Edit) returns (left: HeapState)
    requires !edit.PutSale? && !edit.PutClaim? && !edit.AddJournal?
    ensures left.Value() == Edited(state.Value(), edit)
    ensures left.sales == state.sales && left.idempotencies == state.idempotencies
    ensures forall o :: o in left.Footprint() ==> o in state.Footprint() || fresh(o)
  {
    left := state;
    match edit {
      case AddMovement(movement) =>
        var movements := Append(state.movements, movement);
        left := state.(movements := movements);
      case AddEntry(entry) =>
        var ledger := Append(state.ledger, entry);
        left := state.(ledger := ledger);
      case AddPayment(payment) =>
        var payments := Append(state.payments, payment);
        left := state.(payments := payments);
      case AddAudit(audit) =>
        var audits := Append(state.audits, audit);
        left := state.(audits := audits);
      case AddEvent(event) =>
        var outbox := Append(state.outbox, event);
        left := state.(outbox := outbox);
    }
  }

  lemma JournalWritten(journals: seq<StoredJournal>, stored: StoredJournal)
    ensures JournalValues(journals + [stored]) == JournalValues(journals) + [stored.Value()]
    ensures EntrySlices(journals + [stored]) <= EntrySlices(journals) + {stored.entries}
  {
  }

  /** A journal is stored with a slice of its own. */
  method AddJournalIn(state: HeapState, journal: Journal) returns (left: HeapState)
    ensures left.Value() == Edited(state.Value(), AddJournal(journal))
    ensures left.sales == state.sales && left.idempotencies == state.idempotencies
    ensures forall o :: o in left.Footprint() ==> o in state.Footprint() || fresh(o)
  {
    var entries := new JournalEntry[|journal.entries|](i requires 0 <= i < |journal.entries| => journal.entries[i]);
    assert entries[..] == journal.entries;
    var stored := StoredJournal(journal, entries);
    JournalWritten(state.journals[..], stored);
    var journals := Append(state.journals, stored);
    left := state.(journals := journals);
  }

  /** Either way, the state given is as it was. */
  method AddIn(state: HeapState, edit: Edit) returns (left: HeapState)
    requires !edit.PutSale? && !edit.PutClaim?
    ensures left.Value() == Edited(old(state.Value()), edit)
    ensures left.sales == state.sales && left.idempotencies == state.idempotencies
    ensures forall o :: o in left.Footprint() ==> o in old(state.Footprint()) || fresh(o)
  {
    hide Edited;
    if edit.AddJournal? {
      left := AddJournalIn(state, edit.journal);
    } else {
      left := AddRow(state, edit);
    }
    assert state.Value() == old(state.Value());
    assert state.Footprint() == old(state.Footprint());
  }

  method MakeEdit(state: HeapState, edit: Edit) returns (left: HeapState)
    modifies state.sales, state.idempotencies
    ensures left.Value() == Edited(old(state.Value()), edit)
    ensures left.sales == state.sales && left.idempotencies == state.idempotencies
    ensures forall o :: o in left.Footprint() ==> o in old(state.Footprint()) || fresh(o)
  {
    hide HeapState.Footprint, HeapState.Value;
    left := state;
    match edit {
      case PutSale(key, sale) => PutSaleIn(state, key, sale);
      case PutClaim(key, claim) => PutClaimIn(state, key, claim);
      case _ => left := AddIn(state, edit);
    }
  }

  /**
   * A callback makes its edits in order, and may fail before any of them. Its caller relies only on its
   * writing nothing outside the state it is given.
   */
  method Callback(state: HeapState, edits: seq<Edit>, failsAt: Option<nat>) returns (ok: bool, left: HeapState)
    modifies state.Footprint()
    ensures ok <==> failsAt.None? || failsAt.value >= |edits|
    ensures ok ==> left.Value() == AllEdited(old(state.Value()), edits)
    ensures forall o :: o in left.Footprint() ==> o in old(state.Footprint()) || fresh(o)
  {
    hide HeapState.Value, HeapState.Footprint, Edited;
    left := state;
    FootprintHolds(state);
    for i := 0 to |edits|
      invariant left.sales == state.sales && left.idempotencies == state.idempotencies
      invariant failsAt.None? || failsAt.value >= i
      invariant left.Value() == AllEdited(old(state.Value()), edits[..i])
      invariant forall o :: o in left.Footprint() ==> o in old(state.Footprint()) || fresh(o)
    {
      if failsAt == Some(i) {
        return false, left;
      }
      assert edits[..i + 1][..i] == edits[..i];
      left := MakeEdit(left, edits[i]);
    }
    assert edits[..|edits|] == edits;
    ok := true;
  }

  /** A clone of the state the caller saw: making it has changed nothing. */
  method CloneOf(source: HeapState, ghost value: Contents) returns (result: HeapState)
    requires source.Value() == value
    ensures fresh(result.Footprint()) && result.Value() == value
  {
    result := CloneState(source);
    assert source.Value() == old(source.Value());
  }

  /** The callback on a clone: it writes nothing that was there before. */
  method RunOnClone(source: HeapState, edits: seq<Edit>, failsAt: Option<nat>, ghost value: Contents)
    returns (ok: bool, left: HeapState)
    requires source.Value() == value
    ensures ok <==> failsAt.None? || failsAt.value >= |edits|
    ensures ok ==> left.Value() == AllEdited(value, edits)
    ensures fresh(left.Footprint())
  {
    hide HeapState.Value, HeapState.Footprint, AllEdited;
    var next := CloneOf(source, value);
    ok, left := Callback(next, edits, failsAt);
  }

  /** The callback on a clone, after which the original still has its value. */
  method TryOnClone(source: HeapState, edits: seq<Edit>, failsAt: Option<nat>, ghost value: Contents)
    returns (ok: bool, left: HeapState)
    requires source.Value() == value
    ensures ok <==> failsAt.None? || failsAt.value >= |edits|
    ensures ok ==> left.Value() == AllEdited(value, edits)
    ensures fresh(left.Footprint()) && source.Value() == value
  {
    hide AllEdited;
    ok, left := RunOnClone(source, edits, failsAt, value);
  }

  lemma FootprintHolds(state: HeapState)
    ensures state.sales in state.Footprint() && state.idempotencies in state.Footprint()
  {
  }

  class HeapStore {
    var state: HeapState

    constructor (state: HeapState)
      ensures this.state == state
    {
      this.state := state;
    }

    /** The state is replaced by a state whose storage is all new. */
    method Install(left: HeapState, ghost value: Contents)
      requires left.Value() == value && this !in left.Footprint()
      modifies this
      ensures state == left && state.Value() == value && state.Footprint() == old(left.Footprint())
    {
      state := left;
    }

    /**
     * A failing callback, or a context cancelled before or after it, leaves the state and everything it
     * refers to as they were; a successful one leaves exactly its edits, in storage that is all new.
     */
    method WithTransaction(edits: seq<Edit>, failsAt: Option<nat>, cancelledBefore: bool, cancelledAfter: bool)
      returns (ok: bool)
      modifies this
      ensures ok <==> !cancelledBefore && !cancelledAfter && (failsAt.None? || failsAt.value >= |edits|)
      ensures !ok ==> state == old(state)
      ensures state.Value() == if ok then AllEdited(old(state.Value()), edits) else old(state.Value())
      ensures ok ==> fresh(state.Footprint())
    {
      hide HeapState.Value, HeapState.Footprint, AllEdited;
      if cancelledBefore {
        return false;
      }
      ghost var value := state.Value();
      var done, left := TryOnClone(state, edits, failsAt, value);
      if !done || cancelledAfter {
        return false;
      }
      Install(left, AllEdited(value, edits));
      return true;
    }
  }
}
