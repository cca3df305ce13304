/** Stock on hand: conservation and no overselling. */
module Stock {
  import opened Basics
  import opened Sums
  import opened Model
  import opened Posting
  import opened Packets
  import opened Ledgers

  /** What a sale record has taken from a location and not given back. */
  function Held(loc: Loc): Sale -> int {
    (sale: Sale) =>
      if sale.recordType == SaleRecord && sale.status == Posted && sale.scope == loc.scope
      then Sum(sale.lines, Quantity(loc.productId)) else 0
  }

  ghost predicate Conserved(seeds: seq<Movement>, s: State) {
    forall loc :: Sum(s.movements, AtLoc(loc)) == Sum(seeds, AtLoc(loc)) - SumMap(s.sales, Held(loc))
  }

  lemma IssueSum(sale: Sale, movements: seq<Movement>, loc: Loc)
    requires IssuesLines(sale, movements)
    ensures Sum(movements, AtLoc(loc))
      == if sale.scope == loc.scope then -Sum(sale.lines, Quantity(loc.productId)) else 0
  {
    if sale.scope == loc.scope {
      SumNegated(sale.lines, Quantity(loc.productId), movements, AtLoc(loc));
    } else {
      SumZero(movements, AtLoc(loc));
    }
  }

  lemma ConservedSale(md: Master, seeds: seq<Movement>, s: State, p: Packet)
    requires Conserved(seeds, s) && SalePacket(md, s, p)
    ensures Conserved(seeds, Apply(s, p))
  {
    hide GoodTotals, Configured, Settled, SaleEntries, OwnRows;
    var sale := p.books.sale;
    forall loc
      ensures Sum(Apply(s, p).movements, AtLoc(loc)) == Sum(seeds, AtLoc(loc)) - SumMap(Apply(s, p).sales, Held(loc))
    {
      SumAppend(s.movements, p.books.movements, AtLoc(loc));
      IssueSum(sale, p.books.movements, loc);
      SumMapWrite(s.sales, sale.Key(), sale, Held(loc));
    }
  }

  /** The sales table after a reversal: the original is marked, the reversal is added. */
  lemma ReversalWrites(s: State, p: Packet, f: Sale -> int)
    requires ReversalPacket(s, p)
    ensures var original := s.sales[p.reverses.value];
      SumMap(Apply(s, p).sales, f) == SumMap(s.sales, f) - f(original)
        + f(original.(status := Reversed, reversedAt := Some(p.now))) + f(p.books.sale)
  {
    hide Cancels, OwnRows, SumMap;
    var k := p.reverses.value;
    var marked := s.sales[k].(status := Reversed, reversedAt := Some(p.now));
    SumMapWrite(s.sales, k, marked, f);
    SumMapWrite(s.sales[k := marked], p.books.sale.Key(), p.books.sale, f);
  }

  lemma ConservedReversal(md: Master, seeds: seq<Movement>, s: State, p: Packet)
    requires Linked(md, s) && Conserved(seeds, s) && ReversalPacket(s, p)
    ensures Conserved(seeds, Apply(s, p))
  {
    hide OwnRows, GoodTotals, Configured, Settled, SaleEntries, MovementsOf, Sum, SumMap;
    var original := s.sales[p.reverses.value];
    assert SaleLinked(md, s, original);
    forall loc
      ensures Sum(Apply(s, p).movements, AtLoc(loc)) == Sum(seeds, AtLoc(loc)) - SumMap(Apply(s, p).sales, Held(loc))
    {
      SumAppend(s.movements, p.books.movements, AtLoc(loc));
      IssueSum(original, MovementsOf(s, original), loc);
      ReversalWrites(s, p, Held(loc));
    }
  }

  /** Nothing is held twice: what is on hand never exceeds what was seeded. */
  lemma HeldNonNegative(md: Master, s: State, loc: Loc)
    requires Linked(md, s)
    ensures SumMap(s.sales, Held(loc)) >= 0
  {
    forall k | k in s.sales ensures Held(loc)(s.sales[k]) >= 0 {
      if s.sales[k].recordType == SaleRecord {
        assert SaleLinked(md, s, s.sales[k]);
        forall line | line in s.sales[k].lines ensures Quantity(loc.productId)(line) >= 0 {
          assert GoodLine(line);
        }
        SumNonNegative(s.sales[k].lines, Quantity(loc.productId));
      }
    }
    SumMapNonNegative(s.sales, Held(loc));
  }

  lemma StockOkReversal(md: Master, seeds: seq<Movement>, s: State, p: Packet)
    requires StockOk(seeds) && StockOk(s.movements) && ReversalPacket(s, p)
    requires Linked(md, Apply(s, p)) && Conserved(seeds, Apply(s, p))
    ensures StockOk(Apply(s, p).movements)
  {
    hide Cancels, OwnRows, Sum, SumMap;
    forall loc ensures 0 <= Sum(Apply(s, p).movements, AtLoc(loc)) <= MAX64 {
      SumAppend(s.movements, p.books.movements, AtLoc(loc));
      SumNonNegative(p.books.movements, AtLoc(loc));
      HeldNonNegative(md, Apply(s, p), loc);
    }
  }
}
