/** What a caller may rely on, for every run from seeded stock. */
module Theorems {
  import opened Basics
  import opened Sums
  import opened Model
  import opened Posting
  import opened Packets
  import opened Ledgers
  import opened Stock
  import opened CreditControl
  import opened Reconciliation
  import opened Cancellation
  import opened Idempotency
  import opened Runs
  import Finance

  // Balances derived from the ledgers.

  /** Stock on hand is what was received less what posted sales hold, and is never oversold. */
  lemma {:induction false} StockConserved(b: Backend, md: Master, seeds: seq<Movement>, ops: seq<Op>, loc: Loc)
    requires md.Valid() && SeedsOk(seeds)
    ensures var s := Run(b, md, Initial(seeds), ops);
      && Sum(s.movements, AtLoc(loc)) == Sum(seeds, AtLoc(loc)) - SumMap(s.sales, Held(loc))
      && 0 <= Sum(s.movements, AtLoc(loc)) <= Sum(seeds, AtLoc(loc))
      && Available(s.movements, loc) == Sum(s.movements, AtLoc(loc))
  {
    hide Run, Perform, Sum, SumMap;
    BooksInitial(md, seeds);
    RunKeepsBooks(b, md, seeds, Initial(seeds), ops);
    HeldNonNegative(md, Run(b, md, Initial(seeds), ops), loc);
  }

  /** Exposure is the total of the posted credit sales and respects the limit. */
  lemma {:induction false} CreditRespected(b: Backend, md: Master, seeds: seq<Movement>, ops: seq<Op>, c: CompanyId,
                                           id: string)
    requires md.Valid() && SeedsOk(seeds)
    ensures var s, k := Run(b, md, Initial(seeds), ops), EntityId(c.tenant, c.company, id);
      && Exposure(s.ledger, c, id) == SumMap(s.sales, Owing(c, id))
      && 0 <= Exposure(s.ledger, c, id)
      && (k !in md.customers || md.customers[k].general || !md.customers[k].creditEnabled ==>
          Exposure(s.ledger, c, id) == 0)
      && (k in md.customers && md.customers[k].creditLimit >= 0 ==>
          Exposure(s.ledger, c, id) <= md.customers[k].creditLimit)
  {
    hide Run, Perform, Sum, SumMap;
    BooksInitial(md, seeds);
    RunKeepsBooks(b, md, seeds, Initial(seeds), ops);
    assert MayOwe(md, c, id, Sum(Run(b, md, Initial(seeds), ops).ledger, OwedBy(c, id)));
  }

  /** Control accounts equal their subledgers, and the trial balance is zero. */
  lemma {:induction false} BooksReconcile(b: Backend, md: Master, seeds: seq<Movement>, ops: seq<Op>, c: CompanyId)
    requires md.Valid() && SeedsOk(seeds) && DisjointRoles(md, c)
    ensures var s, posting := Run(b, md, Initial(seeds), ops), md.posting[c];
      && Sum(s.ledger, OwedTo(c)) == Sum(s.journals, Posts(c, posting.receivable))
      && (forall a :: a in posting.cash.Values ==> Sum(s.payments, PaidTo(c, a)) == Sum(s.journals, Posts(c, a)))
      && SumMap(s.sales, TaxDue(c)) == -Sum(s.journals, Posts(c, posting.taxPayable))
      && (forall j :: j in s.journals ==> Finance.Balanced(j))
      && Sum(s.journals, Imbalance()) == 0
  {
    hide Run, Perform, Sum, SumMap, Finance.Balanced;
    BooksInitial(md, seeds);
    RunKeepsBooks(b, md, seeds, Initial(seeds), ops);
    assert Reconciled(md, Run(b, md, Initial(seeds), ops), c);
  }

  /** Reversed sales and reversal records are paired one to one, and each pair nets to nothing. */
  lemma {:induction false} ReversalsPair(b: Backend, md: Master, seeds: seq<Movement>, ops: seq<Op>)
    requires md.Valid() && SeedsOk(seeds)
    ensures var s := Run(b, md, Initial(seeds), ops);
      && (forall k :: k in s.sales && s.sales[k].recordType == SaleRecord ==>
        (s.sales[k].status == Reversed <==> exists r :: Reverses(s, r, k)))
      && (forall r, q, k :: Reverses(s, r, k) && Reverses(s, q, k) ==> q == r)
      && (forall r, k :: Reverses(s, r, k) ==>
        && k in s.sales && s.sales[k].recordType == SaleRecord && s.sales[r].status == Posted
        && Nets(s, s.sales[k], s.sales[r]))
  {
    hide Run, Perform, Nets;
    BooksInitial(md, seeds);
    RunKeepsBooks(b, md, seeds, Initial(seeds), ops);
  }

  /** Records, keys, journals, audit events and outbox events match one to one. */
  lemma {:induction false} EventsComplete(b: Backend, md: Master, seeds: seq<Movement>, ops: seq<Op>)
    requires md.Valid() && SeedsOk(seeds)
    ensures var s := Run(b, md, Initial(seeds), ops);
      && (forall k :: k in s.sales ==> Told(s, s.sales[k]))
      && (forall j :: j in s.journals ==> Owned(s, j.company, j.source, j.sourceId))
      && (forall a :: a in s.audits ==> EntityId(a.company.tenant, a.company.company, a.entityId) in s.sales)
      && (forall e :: e in s.outbox ==> EntityId(e.company.tenant, e.company.company, e.aggregateId) in s.sales)
      && (forall k :: k in s.sales ==> exists c :: c in s.claims && Answer(c, s.claims[c]) == k)
      && (forall c, d :: c in s.claims && d in s.claims && Answer(c, s.claims[c]) == Answer(d, s.claims[d]) ==> c == d)
  {
    hide Run, Perform, Told, Owned;
    BooksInitial(md, seeds);
    RunKeepsBooks(b, md, seeds, Initial(seeds), ops);
  }

  // History is never rewritten.

  /** The sales_immutable trigger: an update may only reverse a posted sale. */
  predicate TriggerAllows(before: Sale, after: Sale) {
    SameRecord(before, after) && before.status == Posted && after.status == Reversed && after.reversedAt.Some?
  }

  predicate Preserved(before: Sale, after: Sale) {
    after == before || (before.recordType == SaleRecord && TriggerAllows(before, after))
  }

  ghost predicate Extends(s: State, s': State) {
    && s.movements <= s'.movements && s.ledger <= s'.ledger && s.payments <= s'.payments
    && s.journals <= s'.journals && s.audits <= s'.audits && s.outbox <= s'.outbox
    && (forall c :: c in s.claims ==> c in s'.claims && s'.claims[c] == s.claims[c])
    && (forall k :: k in s.sales ==> k in s'.sales && Preserved(s.sales[k], s'.sales[k]))
  }

  lemma ExtendsStep(b: Backend, md: Master, seeds: seq<Movement>, s: State, op: Op)
    requires md.Valid() && GoodBooks(md, seeds, s)
    ensures Extends(s, After(s, Perform(b, md, s, op)))
  {
    hide Perform, GoodBooks, Accepts, Fresh, WithinCredit, StockOk, Linked, Keyed, Extends;
    if Perform(b, md, s, op).Accepted? {
      var p := Perform(b, md, s, op).packet;
      BooksParts(md, seeds, s);
      AcceptedPacket(b, md, s, op, p);
      AcceptsFresh(md, s, p);
      AcceptsTarget(md, s, p);
      ExtendsApply(s, p);
    } else {
      ExtendsSelf(s);
    }
  }

  lemma AcceptsTarget(md: Master, s: State, p: Packet)
    requires Accepts(md, s, p)
    ensures p.reverses.Some? ==>
      && p.reverses.value in s.sales
      && s.sales[p.reverses.value].recordType == SaleRecord && s.sales[p.reverses.value].status == Posted
  {
  }

  lemma ExtendsApply(s: State, p: Packet)
    requires Keyed(s) && Fresh(s, p)
    requires p.reverses.Some? ==>
      && p.reverses.value in s.sales
      && s.sales[p.reverses.value].recordType == SaleRecord && s.sales[p.reverses.value].status == Posted
    ensures Extends(s, Apply(s, p))
  {
    hide OwnRows, Keyed;
    SalesAfter(s, p);
  }

  lemma ExtendsTransitive(a: State, b: State, c: State)
    requires Extends(a, b) && Extends(b, c)
    ensures Extends(a, c)
  {
    assert a.movements <= c.movements by { PrefixTransitive(a.movements, b.movements, c.movements); }
    PrefixTransitive(a.ledger, b.ledger, c.ledger);
    PrefixTransitive(a.payments, b.payments, c.payments);
    PrefixTransitive(a.journals, b.journals, c.journals);
    PrefixTransitive(a.audits, b.audits, c.audits);
    PrefixTransitive(a.outbox, b.outbox, c.outbox);
  }

  lemma PrefixTransitive<T>(a: seq<T>, b: seq<T>, c: seq<T>)
    requires a <= b <= c
    ensures a <= c
  {
  }

  /** Ledgers only grow, keys keep their answer, and a record changes at most once, by being reversed. */
  lemma {:induction false} HistoryGrows(b: Backend, md: Master, seeds: seq<Movement>, s: State, ops: seq<Op>)
    requires md.Valid() && SeedsOk(seeds) && GoodBooks(md, seeds, s)
    ensures Extends(s, Run(b, md, s, ops))
  {
    hide Perform, GoodBooks, Extends;
    if ops == [] {
      ExtendsSelf(s);
    } else {
      HistoryGrows(b, md, seeds, s, ops[..|ops| - 1]);
      var before := Run(b, md, s, ops[..|ops| - 1]);
      RunKeepsBooks(b, md, seeds, s, ops[..|ops| - 1]);
      ExtendsStep(b, md, seeds, before, ops[|ops| - 1]);
      ExtendsTransitive(s, before, Run(b, md, s, ops));
    }
  }

  lemma ExtendsSelf(s: State)
    ensures Extends(s, s)
  {
  }

  // Exactly once.

  /** Two operations under one key with one hash pass or fail admission together. */
  function AdmissionOf(md: Master, s: State, op: Op): Admission {
    match op
    case CompleteOp(cmd, _, _) => AdmitComplete(md, s.claims, cmd.Normalized())
    case ReverseOp(cmd, _, _) => AdmitReverse(md, s.claims, cmd)
  }

  function OpScope(op: Op): Scope {
    match op
    case CompleteOp(cmd, _, _) => cmd.scope
    case ReverseOp(cmd, _, _) => cmd.scope
  }

  lemma SameAdmission(md: Master, s: State, op: Op, retry: Op)
    requires op.Claim() == retry.Claim() && op.Hash() == retry.Hash()
    ensures AdmissionOf(md, s, op) == AdmissionOf(md, s, retry) && OpScope(op) == OpScope(retry)
  {
    hide Admit, ToUpper, TrimSpace;
  }

  lemma AcceptedAdmission(b: Backend, md: Master, s: State, op: Op)
    requires Perform(b, md, s, op).Accepted?
    ensures AdmissionOf(md, s, op) == Acquired && op.Claim() !in s.claims
  {
    hide BuildSale, BuildReversal, AdmitComplete, AdmitReverse, FitsBigint, ToUpper, TrimSpace;
    SameAdmissions(b, md, s, op);
    AdmissionClaims(md, s, op);
  }

  /** Admission does not look at rates and periods. */
  lemma SameAdmissions(b: Backend, md: Master, s: State, op: Op)
    ensures AdmissionOf(Presented(b, md), s, op) == AdmissionOf(md, s, op)
  {
    hide ToUpper, TrimSpace, CompleteCommand.Validate, ReverseCommand.Validate;
  }

  lemma AdmissionClaims(md: Master, s: State, op: Op)
    ensures AdmissionOf(md, s, op) == Acquired ==> op.Claim() !in s.claims
  {
    hide ToUpper, TrimSpace, CompleteCommand.Validate, ReverseCommand.Validate;
  }

  /** After the commit the same request is answered with the committed record and changes nothing. */
  lemma RetryReplays(b: Backend, md: Master, seeds: seq<Movement>, s: State, op: Op, ops: seq<Op>, retry: Op)
    requires md.Valid() && SeedsOk(seeds) && GoodBooks(md, seeds, s)
    requires Perform(b, md, s, op).Accepted? && retry.Claim() == op.Claim()
    ensures var p := Perform(b, md, s, op).packet;
      var s' := Run(b, md, Apply(s, p), ops);
      && After(s', Perform(b, md, s', retry)) == s'
      && (retry.Hash() == op.Hash() ==>
        && p.books.sale.Key() in s'.sales && SameRecord(p.books.sale, s'.sales[p.books.sale.Key()])
        && Perform(b, md, s', retry) == Replayed(ReadSale(b, s'.sales[p.books.sale.Key()])))
      && (retry.Hash() != op.Hash() ==>
        Perform(b, md, s', retry)
          == Failed(if AdmissionOf(md, s, retry).Rejected? then AdmissionOf(md, s, retry).error
                    else IdempotencyConflict))
  {
    hide Perform, GoodBooks, Run, Accepts, WithinCredit, StockOk;
    var p := Perform(b, md, s, op).packet;
    BooksStep(b, md, seeds, s, op);
    BooksParts(md, seeds, s);
    AcceptedPacket(b, md, s, op, p);
    AcceptsFresh(md, s, p);
    AcceptedAdmission(b, md, s, op);
    HistoryGrows(b, md, seeds, Apply(s, p), ops);
    var s' := Run(b, md, Apply(s, p), ops);
    hide Fresh;
    ClaimedOutcome(b, md, s, s', op, retry, p);
  }

  lemma BooksParts(md: Master, seeds: seq<Movement>, s: State)
    requires GoodBooks(md, seeds, s)
    ensures Keyed(s) && Linked(md, s)
  {
  }

  /** How the claimed key admits a later command. */
  lemma ClaimedAdmission(md: Master, s: State, s': State, op: Op, retry: Op, id: string)
    requires retry.Claim() == op.Claim() && AdmissionOf(md, s, op) == Acquired && op.Claim() !in s.claims
    requires op.Claim() in s'.claims && s'.claims[op.Claim()] == Claim(op.Hash(), id) && id != ""
    ensures if retry.Hash() == op.Hash() then AdmissionOf(md, s', retry) == Replay(id) && OpScope(op) == OpScope(retry)
      else
        AdmissionOf(md, s', retry)
        == Rejected(if AdmissionOf(md, s, retry).Rejected? then AdmissionOf(md, s, retry).error
                    else IdempotencyConflict)
  {
    hide CompleteCommand.Validate, ReverseCommand.Validate, ToUpper, TrimSpace;
    if retry.Hash() == op.Hash() {
      SameAdmission(md, s, op, retry);
      SameAdmission(md, s', op, retry);
    }
  }

  lemma AdmittedOutcome(b: Backend, md: Master, s: State, op: Op)
    ensures AdmissionOf(md, s, op).Rejected? ==> Perform(b, md, s, op) == Failed(AdmissionOf(md, s, op).error)
    ensures AdmissionOf(md, s, op).Replay? ==>
      var k := OpScope(op).Entity(AdmissionOf(md, s, op).resultId);
      Perform(b, md, s, op) == if k in s.sales then Replayed(ReadSale(b, s.sales[k])) else Failed(NotFound)
  {
    SameAdmissions(b, md, s, op);
    hide BuildSale, BuildReversal, AdmitComplete, AdmitReverse, ReadSale, ToUpper, TrimSpace, FitsBigint, Presented;
  }

  lemma ClaimedOutcome(b: Backend, md: Master, s: State, s': State, op: Op, retry: Op, p: Packet)
    requires retry.Claim() == op.Claim() == p.claim && p.hash == op.Hash()
    requires AdmissionOf(md, s, op) == Acquired && p.claim !in s.claims
    requires Extends(Apply(s, p), s') && p.books.sale.id != ""
    requires p.claim.tenant == p.books.sale.scope.tenant && p.claim.company == p.books.sale.scope.company
    ensures var k := p.books.sale.Key();
      && After(s', Perform(b, md, s', retry)) == s'
      && (retry.Hash() == op.Hash() ==>
        && k in s'.sales && SameRecord(p.books.sale, s'.sales[k])
        && Perform(b, md, s', retry) == Replayed(ReadSale(b, s'.sales[k])))
      && (retry.Hash() != op.Hash() ==>
        Perform(b, md, s', retry)
          == Failed(if AdmissionOf(md, s, retry).Rejected? then AdmissionOf(md, s, retry).error
                    else IdempotencyConflict))
  {
    var k := p.books.sale.Key();
    assert k in Apply(s, p).sales && Apply(s, p).sales[k] == p.books.sale;
    assert s'.claims[p.claim] == Claim(p.hash, p.books.sale.id);
    ClaimedAdmission(md, s, s', op, retry, p.books.sale.id);
    AdmittedOutcome(b, md, s', retry);
    ScopeOfClaim(op);
    hide Perform, AdmissionOf, ReadSale, Apply, OpScope;
  }

  lemma ScopeOfClaim(op: Op)
    ensures OpScope(op).tenant == op.Claim().tenant && OpScope(op).company == op.Claim().company
  {
  }

  /** How many operations of a run create a record under a key. */
  function Creations(b: Backend, md: Master, s: State, ops: seq<Op>, c: ClaimId): nat {
    if ops == [] then 0 else
    var before := Run(b, md, s, ops[..|ops| - 1]);
    var op := ops[|ops| - 1];
    Creations(b, md, s, ops[..|ops| - 1], c)
    + if op.Claim() == c && Perform(b, md, before, op).Accepted? then 1 else 0
  }

  /** A key creates at most one record in any run, and exactly one when it ends up claimed. */
  lemma {:induction false} AtMostOnce(b: Backend, md: Master, seeds: seq<Movement>, s: State, ops: seq<Op>, c: ClaimId)
    requires md.Valid() && SeedsOk(seeds) && GoodBooks(md, seeds, s)
    ensures Creations(b, md, s, ops, c) == if c in Run(b, md, s, ops).claims && c !in s.claims then 1 else 0
  {
    hide Perform, GoodBooks, Accepts, WithinCredit, StockOk;
    if ops == [] {
    } else {
      var before, op := Run(b, md, s, ops[..|ops| - 1]), ops[|ops| - 1];
      AtMostOnce(b, md, seeds, s, ops[..|ops| - 1], c);
      RunKeepsBooks(b, md, seeds, s, ops[..|ops| - 1]);
      HistoryGrows(b, md, seeds, s, ops[..|ops| - 1]);
      BooksParts(md, seeds, before);
      if Perform(b, md, before, op).Accepted? {
        AcceptedPacket(b, md, before, op, Perform(b, md, before, op).packet);
        AcceptedAdmission(b, md, before, op);
      }
    }
  }

  /** In a reachable state a replay always finds its record: neither lookup error can occur. */
  lemma ReplayFinds(b: Backend, md: Master, seeds: seq<Movement>, s: State, op: Op)
    requires GoodBooks(md, seeds, s) && op.Claim() in s.claims
    ensures Perform(b, md, s, op) != Failed(NoCommittedResult)
    ensures !AdmissionOf(md, s, op).Rejected? ==> Perform(b, md, s, op).Replayed?
  {
    AdmittedOutcome(b, md, s, op);
    assert ClaimsNameRecords(s);
    ClaimedAnswer(md, s, op);
    hide Perform, AdmissionOf, ReadSale, GoodBooks;
  }

  lemma ClaimedAnswer(md: Master, s: State, op: Op)
    requires ClaimsNameRecords(s) && op.Claim() in s.claims
    ensures AdmissionOf(md, s, op) != Acquired && AdmissionOf(md, s, op) != Rejected(NoCommittedResult)
    ensures AdmissionOf(md, s, op).Replay? ==> OpScope(op).Entity(AdmissionOf(md, s, op).resultId) in s.sales
  {
    ScopeOfClaim(op);
    hide ToUpper, TrimSpace;
  }

  // Journals are never refused.

  /** Validate never refuses the journal that Complete has built, whatever the amounts. */
  lemma CompleteNeverUnbalanced(md: Master, s: State, cmd: CompleteCommand, now: int, ids: seq<string>)
    requires md.Valid() && cmd.Validate().Pass? && "" !in ids
    ensures BuildSale(md, s, cmd, now, ids) != Err(UnbalancedJournal)
  {
    hide Open, PostLines, Settle, Record, Finance.Validates, CompleteCommand.Validate;
    OpenErrors(md, cmd, now, ids);
    if Open(md, cmd, now, ids).Ok? {
      var begun := Open(md, cmd, now, ids).value;
      PostLinesErrors(md, s.movements, cmd, now, begun, cmd.lines);
      if PostLines(md, s.movements, cmd, now, begun, cmd.lines).Ok? {
        var d := PostLines(md, s.movements, cmd, now, begun, cmd.lines).value;
        DraftFacts(md, s.movements, cmd, now, ids, begun, d);
        ScopeFilled(cmd);
        SettleErrors(md, s, cmd, now, d);
        if Settle(s.ledger, s.payments, cmd, now, d).Ok? {
          RecordErrors(s, Settle(s.ledger, s.payments, cmd, now, d).value, cmd, now);
        }
      }
    }
  }

  lemma ScopeFilled(cmd: CompleteCommand)
    requires cmd.Validate().Pass?
    ensures cmd.scope.tenant != "" && cmd.scope.company != ""
  {
  }

  lemma OpenErrors(md: Master, cmd: CompleteCommand, now: int, ids: seq<string>)
    requires "" !in ids
    ensures Open(md, cmd, now, ids) != Err(UnbalancedJournal)
    ensures Open(md, cmd, now, ids).Ok? ==>
      Open(md, cmd, now, ids).value.sale.id != "" && "" !in Open(md, cmd, now, ids).value.ids
  {
  }

  lemma PostLineErrors(md: Master, committed: seq<Movement>, cmd: CompleteCommand, now: int, d: Draft,
                       requested: CommandLine)
    requires "" !in d.ids
    ensures PostLine(md, committed, cmd, now, d, requested) != Err(UnbalancedJournal)
    ensures PostLine(md, committed, cmd, now, d, requested).Ok? ==>
      var d' := PostLine(md, committed, cmd, now, d, requested).value;
      "" !in d'.ids && d'.sale.id == d.sale.id
  {
    hide HasId, Available;
  }

  lemma {:induction false} PostLinesErrors(md: Master, committed: seq<Movement>, cmd: CompleteCommand, now: int,
                                        d: Draft, lines: seq<CommandLine>)
    requires "" !in d.ids
    ensures PostLines(md, committed, cmd, now, d, lines) != Err(UnbalancedJournal)
    ensures PostLines(md, committed, cmd, now, d, lines).Ok? ==>
      var d' := PostLines(md, committed, cmd, now, d, lines).value;
      "" !in d'.ids && d'.sale.id == d.sale.id
  {
    hide PostLine;
    if lines == [] {
    } else {
      PostLinesErrors(md, committed, cmd, now, d, lines[..|lines| - 1]);
      if PostLines(md, committed, cmd, now, d, lines[..|lines| - 1]).Ok? {
        PostLineErrors(md, committed, cmd, now, PostLines(md, committed, cmd, now, d, lines[..|lines| - 1]).value,
                       lines[|lines| - 1]);
      }
    }
  }

  lemma SettleErrors(md: Master, s: State, cmd: CompleteCommand, now: int, d: Draft)
    requires cmd.kind in {Cash, Credit} && GoodDraft(md, cmd, d) && d.sale.lines != [] && d.sale.id != ""
      && "" !in d.ids
    requires cmd.scope.tenant != "" && cmd.scope.company != ""
    ensures Settle(s.ledger, s.payments, cmd, now, d) != Err(UnbalancedJournal)
    ensures Settle(s.ledger, s.payments, cmd, now, d).Ok? ==>
      Finance.Validates(Settle(s.ledger, s.payments, cmd, now, d).value.journal)
  {
    hide Finance.Validates, HasId, GoodTotals, Configured, IssuesLines;
    if |d.ids| >= 2 && |d.sale.currency| == 3 {
      var journal := Journal(d.ids[1], cmd.scope.Company(), FromSale, d.sale.id, d.sale.currency, now,
                             [SettleEntry(d)] + d.entries + TaxEntries(d.posting.taxPayable, d.sale.tax));
      DraftEntries(md, cmd, d);
      SaleBalances(md, journal, d.sale);
      Finance.ValidateExact(journal);
    }
  }

  lemma RecordErrors(s: State, books: Books, cmd: CompleteCommand, now: int)
    requires Finance.Validates(books.journal)
    ensures Record(s, books, cmd.actor, "sale.posted", cmd.key, cmd.Claim(), cmd.Hash(), None, now)
      != Err(UnbalancedJournal)
  {
    hide Finance.Validates, HasId, Filter;
  }

  lemma DraftEntries(md: Master, cmd: CompleteCommand, d: Draft)
    requires cmd.kind in {Cash, Credit} && GoodDraft(md, cmd, d)
    ensures [SettleEntry(d)] + d.entries + TaxEntries(d.posting.taxPayable, d.sale.tax) == SaleEntries(md, d.sale)
    ensures Configured(md, d.sale) && GoodTotals(d.sale)
  {
    hide GoodTotals, IssuesLines;
  }
}
