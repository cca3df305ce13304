/** Reversed sales and their reversal records. */
module Cancellation {
  import opened Basics
  import opened Sums
  import opened Model
  import opened Posting
  import opened Packets
  import opened Ledgers
  import Finance

  /** The sale a reversal record names. */
  function Target(sale: Sale): EntityId {
    sale.scope.Entity(sale.reversalOf)
  }

  /** The rows of a sale and of its reversal add up to nothing, account by account and place by place. */
  ghost predicate Nets(s: State, original: Sale, reversal: Sale) {
    && (forall loc :: Sum(MovementsOf(s, original), AtLoc(loc)) + Sum(MovementsOf(s, reversal), AtLoc(loc)) == 0)
    && (forall c, id :: Sum(LedgerOf(s, original), OwedBy(c, id)) + Sum(LedgerOf(s, reversal), OwedBy(c, id)) == 0)
    && (forall c, a :: Sum(PaymentsOf(s, original), PaidTo(c, a)) + Sum(PaymentsOf(s, reversal), PaidTo(c, a)) == 0)
    && |JournalsOf(s, original)| == |JournalsOf(s, reversal)| == 1
    && (forall a ::
        Sum(JournalsOf(s, original)[0].entries, Finance.Net(a))
        + Sum(JournalsOf(s, reversal)[0].entries, Finance.Net(a)) == 0)
  }

  ghost predicate Reverses(s: State, r: EntityId, k: EntityId) {
    r in s.sales && s.sales[r].recordType == ReversalRecord && Target(s.sales[r]) == k
  }

  /** Every reversal record stays posted and names a reversed sale that it cancels. */
  ghost predicate ReversalsCancel(s: State) {
    forall r :: r in s.sales && s.sales[r].recordType == ReversalRecord ==>
      && s.sales[r].status == Posted
      && Target(s.sales[r]) in s.sales
      && s.sales[Target(s.sales[r])].recordType == SaleRecord
      && s.sales[Target(s.sales[r])].status == Reversed
      && s.sales[Target(s.sales[r])].reversedAt.Some?
      && Nets(s, s.sales[Target(s.sales[r])], s.sales[r])
  }

  /** A sale is reversed exactly when one reversal record names it, and never more than one does. */
  ghost predicate ReversedOnce(s: State) {
    && (forall k :: k in s.sales && s.sales[k].recordType == SaleRecord ==>
      (s.sales[k].status == Reversed <==> exists r :: Reverses(s, r, k)))
    && (forall q, r, k :: Reverses(s, q, k) && Reverses(s, r, k) ==> q == r)
  }

  lemma NetsKept(s: State, p: Packet, a: Sale, b: Sale, a': Sale, b': Sale)
    requires Fresh(s, p) && a.Key() in s.sales && b.Key() in s.sales && Nets(s, a, b)
    requires SameRecord(a, a') && SameRecord(b, b')
    ensures Nets(Apply(s, p), a', b')
  {
    hide Apply, Fresh, Sum;
    RowsKept(s, p, a);
    RowsKept(s, p, b);
    var s' := Apply(s, p);
    SameRows(s', a, a');
    SameRows(s', b, b');
    hide MovementsOf, LedgerOf, PaymentsOf, JournalsOf;
  }

  lemma SameRows(s: State, a: Sale, b: Sale)
    requires SameRecord(a, b)
    ensures MovementsOf(s, a) == MovementsOf(s, b) && LedgerOf(s, a) == LedgerOf(s, b)
    ensures PaymentsOf(s, a) == PaymentsOf(s, b) && JournalsOf(s, a) == JournalsOf(s, b)
  {
  }

  lemma NetsNew(s: State, p: Packet, marked: Sale)
    requires Closed(s) && ReversalPacket(s, p) && SameRecord(s.sales[p.reverses.value], marked)
    requires |JournalsOf(s, s.sales[p.reverses.value])| == 1
    ensures Nets(Apply(s, p), marked, p.books.sale)
  {
    hide Apply, Closed, OwnRows, Sum, Filter;
    var original := s.sales[p.reverses.value];
    RowsNew(s, p);
    RowsKept(s, p, original);
    SameRows(Apply(s, p), original, marked);
    hide MovementsOf, LedgerOf, PaymentsOf, JournalsOf;
  }

  lemma CancelStep(md: Master, s: State, p: Packet)
    requires Keyed(s) && Closed(s) && Linked(md, s) && ReversalsCancel(s) && Accepts(md, s, p)
    ensures ReversalsCancel(Apply(s, p))
  {
    hide Nets, Closed, Apply, OwnRows, Cancels, SaleLinked, Configured, GoodTotals, Settled, IssuesLines, SaleEntries;
    SalesAfter(s, p);
    var s', n := Apply(s, p), p.books.sale.Key();
    forall r | r in s'.sales && s'.sales[r].recordType == ReversalRecord
      ensures s'.sales[r].status == Posted && Target(s'.sales[r]) in s'.sales
      ensures var k := Target(s'.sales[r]);
        && s'.sales[k].recordType == SaleRecord && s'.sales[k].status == Reversed && s'.sales[k].reversedAt.Some?
        && Nets(s', s'.sales[k], s'.sales[r])
    {
      if r == n {
        CancelNew(md, s, p);
      } else {
        CancelOld(s, p, r);
      }
    }
  }

  lemma CancelNew(md: Master, s: State, p: Packet)
    requires Keyed(s) && Closed(s) && Linked(md, s) && Accepts(md, s, p) && p.books.sale.recordType == ReversalRecord
    ensures var s', k := Apply(s, p), Target(p.books.sale);
      && p.books.sale.status == Posted && k in s'.sales
      && s'.sales[k].recordType == SaleRecord && s'.sales[k].status == Reversed && s'.sales[k].reversedAt.Some?
      && Nets(s', s'.sales[k], p.books.sale)
  {
    hide Nets, Closed, Apply, OwnRows, Cancels, SaleLinked, Configured, GoodTotals, Settled, IssuesLines, SaleEntries;
    SalesAfter(s, p);
    SaleHasJournal(md, s, s.sales[Target(p.books.sale)]);
    NetsNew(s, p, Apply(s, p).sales[Target(p.books.sale)]);
  }

  lemma CancelOld(s: State, p: Packet, r: EntityId)
    requires Keyed(s) && ReversalsCancel(s) && Fresh(s, p) && (p.reverses.Some? ==> p.reverses.value in s.sales)
    requires p.reverses.Some? ==>
      s.sales[p.reverses.value].recordType == SaleRecord && s.sales[p.reverses.value].status == Posted
    requires r in s.sales && s.sales[r].recordType == ReversalRecord
    ensures var s' := Apply(s, p);
      && r in s'.sales && Target(s'.sales[r]) in s'.sales && s'.sales[r].status == Posted
      && var k := Target(s'.sales[r]);
         && s'.sales[k].recordType == SaleRecord && s'.sales[k].status == Reversed && s'.sales[k].reversedAt.Some?
         && Nets(s', s'.sales[k], s'.sales[r])
  {
    hide Nets, Closed, Apply, OwnRows;
    SalesAfter(s, p);
    var s', k := Apply(s, p), Target(s.sales[r]);
    NetsKept(s, p, s.sales[k], s.sales[r], s'.sales[k], s'.sales[r]);
  }

  lemma SaleHasJournal(md: Master, s: State, sale: Sale)
    requires SaleLinked(md, s, sale)
    ensures |JournalsOf(s, sale)| == 1
  {
  }

  /** The reversal records after a packet. */
  lemma ReversesAfter(md: Master, s: State, p: Packet)
    requires Keyed(s) && Accepts(md, s, p)
    ensures var s', n := Apply(s, p), p.books.sale.Key();
      && (forall r, k :: r != n ==> (Reverses(s', r, k) <==> Reverses(s, r, k)))
      && (forall k :: Reverses(s', n, k) <==> p.reverses == Some(k))
  {
    hide Apply, OwnRows, Cancels, Configured, GoodTotals, Settled, IssuesLines, SaleEntries;
    SalesAfter(s, p);
    hide Keyed;
  }

  lemma OnceStep(md: Master, s: State, p: Packet)
    requires Keyed(s) && ReversalsCancel(s) && ReversedOnce(s) && Accepts(md, s, p)
    ensures ReversedOnce(Apply(s, p))
  {
    hide Nets, Apply, OwnRows, Cancels, Configured, GoodTotals, Settled, IssuesLines, SaleEntries;
    SalesAfter(s, p);
    ReversesAfter(md, s, p);
    NeverPostedTarget(s, p);
    OnceAdded(s, p, Apply(s, p));
  }

  lemma OnceAdded(s: State, p: Packet, s': State)
    requires ReversedOnce(s)
    requires forall r, k :: Reverses(s, r, k) ==> r in s.sales && k in s.sales && s.sales[k].status == Reversed
    requires p.books.sale.Key() !in s.sales && s'.sales.Keys == s.sales.Keys + {p.books.sale.Key()}
    requires s'.sales[p.books.sale.Key()].status == Posted
    requires p.reverses.Some? ==> p.reverses.value in s.sales && s.sales[p.reverses.value].status == Posted
    requires p.reverses.Some? ==> s'.sales[p.reverses.value].status == Reversed
    requires forall k :: k in s.sales ==> s.sales[k].recordType == s'.sales[k].recordType
    requires forall k :: k in s.sales && p.reverses != Some(k) ==> s'.sales[k] == s.sales[k]
    requires forall r, k :: r != p.books.sale.Key() ==> (Reverses(s', r, k) <==> Reverses(s, r, k))
    requires forall k :: Reverses(s', p.books.sale.Key(), k) <==> p.reverses == Some(k)
    ensures ReversedOnce(s')
  {
    hide Reverses;
    var n := p.books.sale.Key();
    forall k | k in s'.sales && s'.sales[k].recordType == SaleRecord
      ensures s'.sales[k].status == Reversed <==> exists r :: Reverses(s', r, k)
    {
      if p.reverses == Some(k) {
        assert Reverses(s', n, k);
      } else if k == n {
        assert forall r :: !Reverses(s', r, n);
      } else if r :| Reverses(s, r, k) {
        assert Reverses(s', r, k);
      }
    }
  }

  /** No reversal names a posted sale, nor a record that does not exist yet. */
  lemma NeverPostedTarget(s: State, p: Packet)
    requires ReversalsCancel(s)
    ensures forall r, k :: Reverses(s, r, k) ==> r in s.sales && k in s.sales && s.sales[k].status == Reversed
  {
    hide Nets;
  }
}
