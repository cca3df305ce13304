/** Journals: validation with wrapping sums, and reversal. */
module Finance {
  import opened Basics
  import opened Sums
  import opened Model

  function Debits(): JournalEntry -> int {
    (e: JournalEntry) => e.debit
  }

  function Credits(): JournalEntry -> int {
    (e: JournalEntry) => e.credit
  }

  /** Debits less credits of one account. */
  function Net(account: string): JournalEntry -> int {
    (e: JournalEntry) => if e.accountId == account then e.debit - e.credit else 0
  }

  predicate OneSided(e: JournalEntry) {
    e.accountId != "" && e.debit >= 0 && e.credit >= 0 && (e.debit == 0) != (e.credit == 0)
  }

  predicate Filled(j: Journal) {
    && j.id != "" && j.company.tenant != "" && j.company.company != ""
    && j.source != FromOther("") && j.sourceId != "" && |j.currency| == 3 && |j.entries| >= 2
  }

  /** What Journal.Validate accepts: the sums are int64 sums. */
  predicate Validates(j: Journal) {
    && Filled(j)
    && (forall e :: e in j.entries ==> OneSided(e))
    && Wrap(Sum(j.entries, Debits())) != 0
    && Wrap(Sum(j.entries, Debits())) == Wrap(Sum(j.entries, Credits()))
  }

  /** What the documentation means by balanced. */
  predicate Balanced(j: Journal) {
    && Filled(j)
    && (forall e :: e in j.entries ==> OneSided(e))
    && Sum(j.entries, Debits()) == Sum(j.entries, Credits()) > 0
  }

  /** The state of the loop after `i` entries. */
  ghost predicate Summed(entries: seq<JournalEntry>, i: nat, debits: int, credits: int) {
    && i <= |entries|
    && (forall k :: 0 <= k < i ==> OneSided(entries[k]))
    && debits == Wrap(Sum(entries[..i], Debits()))
    && credits == Wrap(Sum(entries[..i], Credits()))
  }

  lemma SummedStart(entries: seq<JournalEntry>)
    ensures Summed(entries, 0, 0, 0)
  {
  }

  lemma SummedNext(entries: seq<JournalEntry>, i: nat, debits: int, credits: int)
    requires Summed(entries, i, debits, credits) && i < |entries| && OneSided(entries[i])
    ensures Summed(entries, i + 1, Wrap(debits + entries[i].debit), Wrap(credits + entries[i].credit))
  {
    assert entries[..i + 1][..i] == entries[..i];
    WrapAdd(Sum(entries[..i], Debits()), entries[i].debit);
    WrapAdd(Sum(entries[..i], Credits()), entries[i].credit);
    hide Wrap, OneSided;
  }

  lemma SummedEnd(j: Journal, debits: int, credits: int)
    requires Filled(j) && Summed(j.entries, |j.entries|, debits, credits)
    ensures Validates(j) <==> debits != 0 && debits == credits
  {
    assert j.entries[..|j.entries|] == j.entries;
    hide Wrap, Sum, OneSided;
  }

  method Validate(j: Journal) returns (check: Check)
    ensures check == if Validates(j) then Pass else Fail(UnbalancedJournal)
  {
    if !Filled(j) {
      return Fail(UnbalancedJournal);
    }
    var debits: int64, credits: int64 := 0, 0;
    SummedStart(j.entries);
    for i := 0 to |j.entries|
      invariant Summed(j.entries, i, debits, credits)
    {
      var e := j.entries[i];
      if e.accountId == "" || e.debit < 0 || e.credit < 0 || (e.debit == 0) == (e.credit == 0) {
        assert !OneSided(j.entries[i]);
        return Fail(UnbalancedJournal);
      }
      SummedNext(j.entries, i, debits, credits);
      debits := Wrap(debits + e.debit);
      credits := Wrap(credits + e.credit);
    }
    SummedEnd(j, debits, credits);
    if debits == 0 || debits != credits {
      return Fail(UnbalancedJournal);
    }
    return Pass;
  }

  function ReversedEntry(e: JournalEntry): JournalEntry {
    JournalEntry(e.accountId, e.credit, e.debit, "Reversal: " + e.memo)
  }

  function Reverse(j: Journal, id: string, source: Source, sourceId: string, at: int): Journal {
    Journal(id, j.company, source, sourceId, j.currency, at,
            seq(|j.entries|, i requires 0 <= i < |j.entries| => ReversedEntry(j.entries[i])))
  }

  method ReverseJournal(j: Journal, id: string, source: Source, sourceId: string, at: int) returns (r: Journal)
    ensures r == Reverse(j, id, source, sourceId, at)
  {
    var entries: seq<JournalEntry> := [];
    for i := 0 to |j.entries|
      invariant entries == Reverse(j, id, source, sourceId, at).entries[..i]
    {
      var e := j.entries[i];
      entries := entries + [JournalEntry(e.accountId, e.credit, e.debit, "Reversal: " + e.memo)];
    }
    return Journal(id, j.company, source, sourceId, j.currency, at, entries);
  }

  /** Two int64 sums agree exactly when the true sums agree modulo 2^64. */
  lemma WrapsAgree(x: int, y: int)
    ensures Wrap(x) == Wrap(y) <==> x % TWO64 == y % TWO64
    ensures Wrap(x) == 0 <==> x % TWO64 == 0
  {
    WrapModulo(x, y);
    WrapModulo(x, 0);
  }

  lemma WrapModulo(x: int, y: int)
    ensures Wrap(x) == Wrap(y) <==> x % TWO64 == y % TWO64
  {
    var j: int :| Wrap(x) == x + j * TWO64;
    var k: int :| Wrap(y) == y + k * TWO64;
    ModShift(x, j);
    ModShift(y, k);
    if x % TWO64 == y % TWO64 {
      var d := x / TWO64 - y / TWO64;
      assert x == y + d * TWO64;
      assert Wrap(x) - Wrap(y) == (d + j - k) * TWO64;
      assert d + j - k == 0;
    }
  }

  /** Two sums below 2^64 that agree after wrapping agree. */
  lemma WrapExact(x: int, y: int)
    requires 0 <= x < TWO64 && 0 <= y < TWO64
    ensures Wrap(x) == Wrap(y) <==> x == y
    ensures Wrap(x) == 0 <==> x == 0
  {
    WrapsAgree(x, y);
  }

  ghost predicate WellFormed(j: Journal) {
    Filled(j) && forall e :: e in j.entries ==> OneSided(e)
  }

  /** What the unchecked sums really test: both totals agree, and are not zero, modulo 2^64. */
  lemma {:induction false} ValidatesModulo(j: Journal)
    ensures
      var debits := Sum(j.entries, (e: JournalEntry) => e.debit);
      var credits := Sum(j.entries, (e: JournalEntry) => e.credit);
      Validates(j) <==>
        && j.id != "" && j.company.tenant != "" && j.company.company != "" && j.source != FromOther("")
           && j.sourceId != ""
        && |j.currency| == 3 && |j.entries| >= 2
        && (forall e :: e in j.entries ==>
            e.accountId != "" && ((e.debit > 0 && e.credit == 0) || (e.debit == 0 && e.credit > 0)))
        && debits % TWO64 != 0 && debits % TWO64 == credits % TWO64
  {
    SumSame(j.entries, Debits(), j.entries, (e: JournalEntry) => e.debit);
    SumSame(j.entries, Credits(), j.entries, (e: JournalEntry) => e.credit);
    WrapsAgree(Sum(j.entries, Debits()), Sum(j.entries, Credits()));
    hide Sum, Wrap;
  }

  /** A journal that is not balanced, with totals that agree modulo 2^64, is accepted. */
  predicate WronglyAccepted(debits: int, credits: int) {
    debits != credits && debits % TWO64 == credits % TWO64 && debits % TWO64 != 0
  }

  /** A balanced journal whose total is a multiple of 2^64 is refused. */
  predicate WronglyRefused(debits: int, credits: int) {
    debits == credits && debits > 0 && debits % TWO64 == 0
  }

  /** Validate is right about a well-formed journal exactly outside these two families. */
  lemma {:induction false} ValidateRight(j: Journal)
    requires WellFormed(j)
    ensures var debits, credits := Sum(j.entries, Debits()), Sum(j.entries, Credits());
      && (Validates(j) && !Balanced(j) <==> WronglyAccepted(debits, credits))
      && (Balanced(j) && !Validates(j) <==> WronglyRefused(debits, credits))
      && ((Validates(j) <==> Balanced(j)) <==> !WronglyAccepted(debits, credits) && !WronglyRefused(debits, credits))
  {
    WrapsAgree(Sum(j.entries, Debits()), Sum(j.entries, Credits()));
    SumNonNegative(j.entries, Debits());
    SumNonNegative(j.entries, Credits());
    hide Sum, Wrap;
  }

  /** The unchecked sums are exact as long as both true totals are below 2^64. */
  lemma {:induction false} ValidateExact(j: Journal)
    requires Sum(j.entries, Debits()) < TWO64 && Sum(j.entries, Credits()) < TWO64
    ensures Validates(j) <==> Balanced(j)
  {
    if forall e :: e in j.entries ==> OneSided(e) {
      SumNonNegative(j.entries, Debits());
      SumNonNegative(j.entries, Credits());
      WrapExact(Sum(j.entries, Debits()), Sum(j.entries, Credits()));
    }
  }

  /** Reversal swaps the two sides, account by account, and keeps validity both ways. */
  lemma {:induction false} ReverseSwaps(j: Journal, id: string, source: Source, sourceId: string, at: int)
    ensures var r := Reverse(j, id, source, sourceId, at);
      && Sum(r.entries, Debits()) == Sum(j.entries, Credits())
      && Sum(r.entries, Credits()) == Sum(j.entries, Debits())
      && (forall a :: Sum(r.entries, Net(a)) == -Sum(j.entries, Net(a)))
      && ((id != "" && source != FromOther("") && sourceId != "" && j.id != ""
          && j.source != FromOther("") && j.sourceId != "") ==> (Validates(r) <==> Validates(j)))
  {
    var r := Reverse(j, id, source, sourceId, at);
    SumSame(r.entries, Debits(), j.entries, Credits());
    SumSame(r.entries, Credits(), j.entries, Debits());
    forall a ensures Sum(r.entries, Net(a)) == -Sum(j.entries, Net(a)) {
      SumNegated(j.entries, Net(a), r.entries, Net(a));
    }
    SidesReversed(j, r);
  }

  lemma SidesReversed(j: Journal, r: Journal)
    requires |r.entries| == |j.entries|
    requires forall i :: 0 <= i < |j.entries| ==> r.entries[i] == ReversedEntry(j.entries[i])
    ensures (forall e :: e in r.entries ==> OneSided(e)) <==> (forall e :: e in j.entries ==> OneSided(e))
  {
    if forall e :: e in r.entries ==> OneSided(e) {
      forall i | 0 <= i < |j.entries| ensures OneSided(j.entries[i]) {
        assert OneSided(r.entries[i]);
      }
    }
    if forall e :: e in j.entries ==> OneSided(e) {
      forall i | 0 <= i < |j.entries| ensures OneSided(r.entries[i]) {
        assert OneSided(j.entries[i]);
      }
    }
  }

  /** Debits of 2^64 + 1 against a credit of 1: accepted, and not balanced. */
  lemma UnbalancedAccepted()
    ensures exists j: Journal :: Validates(j) && !Balanced(j)
  {
    var big := JournalEntry("cash", MAX64, 0, "");
    var entries := [big, big, JournalEntry("cash", 3, 0, ""), JournalEntry("revenue", 0, 1, "")];
    var j := Journal("j", CompanyId("t", "c"), FromSale, "s", "TZS", 0, entries);
    SumFour(entries, Debits());
    SumFour(entries, Credits());
    assert WellFormed(j);
    assert (TWO64 + 1) % TWO64 == 1;
    ValidateRight(j);
    assert Validates(j) && !Balanced(j);
  }

  /** Debits and credits of 2^64 each: balanced, and refused. */
  lemma BalancedRefused()
    ensures exists j: Journal :: Balanced(j) && !Validates(j)
  {
    var debits := [JournalEntry("cash", MAX64, 0, ""), JournalEntry("cash", MAX64, 0, ""),
                   JournalEntry("cash", 2, 0, "")];
    var credits := [JournalEntry("revenue", 0, MAX64, ""), JournalEntry("revenue", 0, MAX64, ""),
                    JournalEntry("revenue", 0, 2, "")];
    var j := Journal("j", CompanyId("t", "c"), FromSale, "s", "TZS", 0, debits + credits);
    forall f: JournalEntry -> int
      ensures Sum(j.entries, f)
        == f(debits[0]) + f(debits[1]) + f(debits[2]) + f(credits[0]) + f(credits[1]) + f(credits[2])
    {
      SumAppend(debits, credits, f);
      SumThree(debits, f);
      SumThree(credits, f);
    }
    assert WellFormed(j);
    assert Sum(j.entries, Debits()) == TWO64 == Sum(j.entries, Credits());
    assert TWO64 % TWO64 == 0;
    ValidateRight(j);
    assert Balanced(j) && !Validates(j);
  }

  lemma {:induction false} SumThree(s: seq<JournalEntry>, f: JournalEntry -> int)
    requires |s| == 3
    ensures Sum(s, f) == f(s[0]) + f(s[1]) + f(s[2])
  {
    assert s == [s[0]] + [s[1]] + [s[2]];
    SumAppend([s[0]] + [s[1]], [s[2]], f);
    SumAppend([s[0]], [s[1]], f);
    SumOne(s[0], f);
    SumOne(s[1], f);
    SumOne(s[2], f);
  }

  lemma {:induction false} SumFour(s: seq<JournalEntry>, f: JournalEntry -> int)
    requires |s| == 4
    ensures Sum(s, f) == f(s[0]) + f(s[1]) + f(s[2]) + f(s[3])
  {
    assert s == [s[0]] + [s[1]] + [s[2]] + [s[3]];
    SumAppend([s[0]] + [s[1]] + [s[2]], [s[3]], f);
    SumAppend([s[0]] + [s[1]], [s[2]], f);
    SumAppend([s[0]], [s[1]], f);
    SumOne(s[0], f);
    SumOne(s[1], f);
    SumOne(s[2], f);
    SumOne(s[3], f);
  }
}
