# A model of the ITEMBA-Z sales core

This project models the parts of the repository that move money and goods, and proves what they keep:

- **Posting** (`Model`, `Money`, `Finance`, `Lookups`, `Posting`). `sales.Service.Complete` and `Reverse` as functions
  from a command, a clock reading, the identifiers the generator hands out and the current state to an `Outcome`: an
  error, the sale of an earlier identical request, or a `Packet` of rows that `Apply` installs. `Perform` runs one
  operation for a `Backend`: PostgreSQL reads rows back by identifier, looks rates and periods up latest first and refuses a
  journal that leaves bigint; the memory store reads in insertion order and scans. `Run` folds operations over a state.
- **Invariants over every run** (`Packets`, `Ledgers`, `Stock`, `CreditControl`, `Reconciliation`, `Cancellation`,
  `Idempotency`, `Runs`, `Theorems`). `Runs.GoodBooks` is the inductive invariant: stock, credit, control accounts, trial
  balance, reversal pairs, events and idempotency claims line up in every reachable state. `Theorems` states its
  consequences in the words of the documentation.
- **Single operations** (`Sold`, `Accepting`, `Returned`, `Refusals`). What an accepted sale and an accepted reversal write,
  field by field, stated from the command, the master data and the identifiers; when each is accepted, as an exact condition; and
  what a refusal names. These speak of `Perform` and of nothing it is built from.
- **The memory store** (`FlatKeys`, `MemoryStore`, `SalesService`, `Isolation`). Classes with the source's flat string
  keys, scanning loops and copy-on-write transactions. Ghost fields hold the tuple-keyed state, and the methods are proved
  to compute exactly `Posting.Complete` and `Posting.Reverse`. `Isolation` models `cloneState` over references.
- **PostgreSQL concurrency** (`Concurrency`, `Serial`, `Undisturbed`, `Interleaving`, `Uncontended`, `Backends`). Transactions are
  program counters with private writes and held locks, interleaved statement by statement over the committed state. The
  invariant of an open transaction says that running the serial code again *on the state committed now* would give what the
  transaction holds. The main theorem is commit-order refinement, first to the serial run that reads rows as PostgreSQL
  does, then to the memory store, for fiscal periods that do not overlap and tax rates with distinct dates. A transaction that
  meets none of its own company can always finish.
- **Outbox delivery** (`Outbox`, `Delivery`). The table with its leases and one pass of the processor as code; the protocol
  of several workers with crashes, lost replies and late acknowledgements as a transition system.
- **The sales app** (`Mobile`, `MobileSync`, `Codec`, `Migration`). The controller, its durable store and the gateway as
  classes, with a budget of awaits after which the process dies; the JSON codec over trees; the upgrade of the local
  database to exact integers.

Files are named after their modules. `dafny verify dfyconfig.toml` checks everything.

## Assumptions

- The hash of a command is injective on the hashed fields; correlation id and idempotency key are not hashed.
- Customers, products, tax rates, periods, permissions and posting configuration do not change during a run.
- Identifiers are UUIDs, unique across companies as the primary keys of `sales` and `sale_lines` require.
- Seeded stock has a source other than SALE and REVERSAL, and no seeded location is negative or leaves int64 (`SeedsOk`).
- Clock readings, generated identifiers, context cancellation, network fates and broker answers are parameters.
- The memory store is proved for scopes and actors free of NUL characters; `FlatKeys.NulCollides` shows that two different
  customers share a key without this. Identifiers and idempotency keys, which come last in their keys, are arbitrary.
- Workers that run at the same time have different worker ids; a restarted worker may keep its id.
- Methods of the mobile controller do not overlap, except that the connection may be switched while `completeSale` saves the sale,
  the one await after which it is read again.

## What does not hold

- `Journal.Validate` adds up in int64 without a check, so it compares totals modulo 2^64. It accepts a journal that is not
  balanced exactly when the totals differ and agree modulo 2^64 without being 0 there, and refuses a balanced one exactly when
  the total is a multiple of 2^64 (`Finance.ValidateRight`, with a journal for each in `Finance.UnbalancedAccepted` and
  `Finance.BalancedRefused`). Below 2^64, which covers every journal the service builds, it is exact (`Finance.ValidateExact`).
- The two stores look fiscal periods up differently: the scan of the memory store takes the first covering row, the query of
  PostgreSQL the latest. They differ exactly when those two rows differ in being open (`Lookups.PeriodLookupsDiffer`; an open
  period with a closed one starting inside it in `Lookups.OverlapDisagrees`), and then one store refuses what the other may accept
  (`Backends.ClosedRefuses`).
- A draft completed online is left `syncing` exactly in two cases (`MobileSync.StrandedExactly`): the connection is switched off
  while the sale is saved, for `completeSale` reads it again after that await; or the process dies after saving the sale and
  before storing the result, with a delivered and uncached request after 1 to 5 awaits. Its command may then be queued, posted
  and cached (`MobileSync.StrandedStages`), but no synchronisation picks the sale up, neither in a process that lives on nor after
  any number of restarts (`MobileSync.StaysSyncing`); completing the draft again does (`MobileSync.CompletedAgain`). The queue is
  written and never read by the controller.
- Composed keys of the memory store collide exactly when they have several components and one of them holds a NUL
  (`FlatKeys.CollidesExactly`).
- The upgrade rewrites only the total of a stored sale and the fields of a draft's product; the other JSON edits are made on
  copies and lost. Numbers still read back exactly, because the decoder is tolerant, as long as they fit 64 bits
  (`Migration.AmountsKept`); a larger total passes the JSON check and changes (`Migration.HugeTotalChanges`), while a larger
  column value stops the upgrade (`Migration.CastExact`).

## Model

| member | source | states |
|---|---|---|
| Money.CheckedMultiply | services/core-api/internal/sales/service.go:508-513 | on non-negative inputs it fails exactly when the true product exceeds MaxInt64, and otherwise is that product |
| Money.CheckedAdd | services/core-api/internal/sales/service.go:515-520 | on non-negative inputs it fails exactly when the true sum exceeds MaxInt64, and otherwise is that sum |
| Money.TaxRounding | services/core-api/internal/sales/service.go:522-535 | tax is the exact tax rounded half up, lies between 0 and the subtotal, and fails exactly for a rate out of range or an overflowing weighted amount |
| Money.TaxMonotone | services/core-api/internal/sales/service.go:522-535 | tax grows with the subtotal and with the rate, and a smaller one never fails where a larger one does not |
| Money.TaxDrift | services/core-api/internal/sales/service.go:151-188 | over n lines at one rate the rounded taxes differ from the exact tax by more than -5000n and at most 5000n ten-thousandths |
| Finance.Validate | services/core-api/internal/finance/model.go:36-54 | the loop with wrapping sums accepts exactly the journals `Validates` describes |
| Finance.ValidateExact | services/core-api/internal/finance/model.go:36-54 | with both true totals below 2^64, a journal validates if and only if it is truly balanced |
| Finance.ValidatesModulo | services/core-api/internal/finance/model.go:36-54 | a journal validates if and only if its fields are filled, every entry is one-sided, and its true totals agree, and are not 0, modulo 2^64 |
| Finance.ValidateRight | services/core-api/internal/finance/model.go:36-54 | for every well-formed journal, which ones are wrongly accepted and which wrongly refused, and that validation is right exactly outside these two families |
| Finance.UnbalancedAccepted | services/core-api/internal/finance/model.go:47-52 | debits of 2^64+1 against a credit of 1 are accepted |
| Finance.BalancedRefused | services/core-api/internal/finance/model.go:47-52 | balanced totals of 2^64 are refused |
| Finance.ReverseJournal | services/core-api/internal/finance/model.go:56-71 | the loop builds the journal with every entry's sides swapped and its memo marked |
| Finance.ReverseSwaps | services/core-api/internal/finance/model.go:56-71 | reversal swaps total debits and credits, negates the net of every account, and keeps validity in both directions |
| Lookups.ScanIsLatest | services/core-api/internal/platform/store/memory/store.go:222-237 | the tax-rate scan returns a latest applicable rate, and nothing only when none applies |
| Lookups.RatesAgree | services/core-api/internal/platform/store/postgres/transaction.go:122-133 | with distinct effective dates the scan and the "latest first" query select the same rate, both ways |
| Lookups.PeriodsAgree | services/core-api/internal/platform/store/postgres/transaction.go:163-176 | with disjoint periods the first-match scan says open if and only if the latest covering period is open |
| Lookups.PeriodQuery | services/core-api/internal/platform/store/postgres/transaction.go:168-175 | the query latest first answers open if and only if the latest covering period is open, also when periods overlap |
| Lookups.RateQuery | services/core-api/internal/platform/store/postgres/transaction.go:127-131 | the query latest first returns a latest applicable rate, and nothing only when none applies |
| Lookups.PeriodLookupsDiffer | services/core-api/internal/platform/store/memory/store.go:259-266 | the scan and the query differ if and only if the first and the latest covering rows differ in being open |
| Lookups.OverlapDisagrees | services/core-api/internal/platform/store/memory/store.go:259-266 | an open period and a closed one starting inside it: the scan says open and the query closed |
| Lookups.LookupsAgree | services/core-api/internal/platform/store/postgres/transaction.go:122-176 | with distinct rate dates and disjoint periods, scans and queries answer alike at every instant |
| Packets.CompletePacket | services/core-api/internal/sales/service.go:203-283 | an accepted sale writes good lines and totals, one issue per line, one ledger or payment row, the journal of exactly those amounts, and rows that all belong to it |
| Packets.CompleteGuards | services/core-api/internal/sales/service.go:140-239 | an accepted sale leaves no location negative, repeated products included, and its customer within the limit |
| Packets.ReversePacket | services/core-api/internal/sales/service.go:316-438 | an accepted reversal writes rows that cancel, location by location and account by account, whatever order they were read in and whatever branch the command carried |
| Packets.MirrorCancels | services/core-api/internal/sales/service.go:362-375 | copies of rows under new identifiers sum to the opposite of the stored rows |
| Sold.SaleAsOrdered | services/core-api/internal/sales/service.go:42-288 | an accepted Complete writes exactly the sale that was ordered: line i has the product and quantity of line i of the command, list price, standard cost and the tax of a rate in force now, rounded half up; header, movements, receivable or payment, journal with its accounts, audit and outbox event and the claim carry the command and the clock reading, under the identifiers in the order they are handed out |
| Accepting.SaleAcceptedExactly | services/core-api/internal/sales/service.go:42-288 | in every state that keeps the books, with distinct rate dates and disjoint periods, Complete is accepted if and only if the command is filled in and permitted, its key is free, customer, period and accounts admit it, every line can be sold from stock at a rate in force without overflow, the limit holds, and the identifiers are new |
| Accepting.FilledExactly | services/core-api/internal/sales/model.go:96-118 | a command validates if and only if its fields are filled in, its kind is known, a payment method is given exactly for cash, and every line has a product and a positive quantity |
| Basics.TrimsExactly | services/core-api/internal/sales/service.go:43 | trimming removes white space at both ends and nothing else |
| Basics.RaisesExactly | services/core-api/internal/sales/service.go:43 | the ASCII letters of a payment method are raised one by one and nothing else changes |
| Returned.ReversalAsStored | services/core-api/internal/sales/service.go:316-438 | an accepted reversal copies lines, movements, ledger rows, payments and journal of the sale with opposite signs, as the backend reads them, and sets everything else of every row; the sale is marked reversed now, and nothing else changes |
| Returned.ReversalAcceptedExactly | services/core-api/internal/sales/service.go:290-446 | in every state that keeps the books, a reversal is accepted if and only if the command is filled in and permitted, its key is free, the sale is posted and not reversed, a period is open and the identifiers are new |
| Refusals.Unauthorised | services/core-api/internal/sales/service.go:54-60 | a filled-in command without the one permission it needs, "sales.complete" or "sales.reverse" for its scope and actor, is forbidden and changes nothing |
| Refusals.OnlyOwnPermission | services/core-api/internal/sales/service.go:301-307 | no other permission changes any outcome |
| Refusals.SaleRefused | services/core-api/internal/sales/service.go:42-118 | before the lines, the first requirement of the source that is not met is the error Complete answers |
| Refusals.LineRefused | services/core-api/internal/sales/service.go:136-187 | when the lines before can be posted and the next cannot, the error names what is wrong with it, in the order of the source |
| Refusals.CreditRefused | services/core-api/internal/sales/service.go:213-226 | a sale whose lines can be posted is refused for its currency, or for the overflow or the limit of the customer |
| Refusals.ReversalRefused | services/core-api/internal/sales/service.go:290-333 | the first requirement of a reversal that is not met is the error it answers |
| Refusals.ClaimAnswered | services/core-api/internal/sales/service.go:61-68 | a key claimed with the same scope, customer or sale, kind, payment method, lines or reason, and actor is answered with the committed record as the backend reads it |
| Reconciliation.SaleBalances | services/core-api/internal/sales/service.go:203-268 | the journal of a sale has true debits equal to true credits, total plus cost, between 1 and 2^64-2, each line one-sided |
| Theorems.StockConserved | services/core-api/internal/sales/service.go:140-201 | in every reachable state, stock on hand is the seeded receipts less what posted sales hold, is never negative, and the int64 sum does not wrap |
| Theorems.CreditRespected | services/core-api/internal/sales/service.go:216-239 | in every reachable state, exposure is the total of the customer's posted credit sales, is never negative, is 0 for general or credit-disabled customers, and respects a non-negative limit |
| Theorems.BooksReconcile | docs/implementation/migration-runbook.md:17-19 | in every reachable state with disjoint account roles, customer ledger, payments and tax due equal their control accounts, every journal is balanced and the trial balance is zero |
| Theorems.ReversalsPair | services/core-api/internal/sales/service.go:316-438 | reversed sales and reversal records are in one-to-one correspondence, and each pair nets to zero in stock, ledger, payments and journal |
| Theorems.EventsComplete | services/core-api/internal/sales/service.go:470-497 | every record has exactly one journal, audit event and outbox event with its id, type and correlation, every such row names a record, and claims and records match one to one |
| Theorems.ExtendsStep | services/core-api/migrations/000001_core.up.sql:334-360 | every operation only appends to the ledgers and changes a sale only as the immutability trigger allows |
| Theorems.HistoryGrows | services/core-api/migrations/000001_core.up.sql:334-360 | along every run ledgers grow as prefixes, claims stay, sales change only by one reversal, and reversal records not at all |
| Theorems.RetryReplays | services/core-api/internal/sales/service.go:61-68 | whatever ran since, a retry with the same hashed fields returns the same sale, up to its status, and changes nothing; another payload conflicts and changes nothing |
| Theorems.AtMostOnce | services/core-api/internal/sales/service.go:61-68 | over any run one key creates at most one sale, exactly one if and only if the run claims it |
| Theorems.ReplayFinds | services/core-api/internal/platform/store/memory/store.go:180-204 | a claimed key always holds a result naming an existing sale, so "no committed result" never occurs |
| Theorems.CompleteNeverUnbalanced | services/core-api/internal/sales/service.go:266-268 | building a sale from a valid command and non-empty identifiers never fails journal validation |
| Runs.PacketBalanced | services/core-api/internal/sales/service.go:203-268 | every journal an accepted operation stores is truly balanced, at the total plus the cost of its record |
| Runs.BigintDecides | services/core-api/migrations/000001_core.up.sql:362-373 | on PostgreSQL what is served is accepted if total plus cost is at most MaxInt64 and refused otherwise, for reversals by the amounts of the reversed sale |
| Runs.BooksStep | services/core-api/internal/sales/service.go:42-446 | one operation, on either backend, keeps the whole invariant of the books |
| Runs.RunKeepsBooks | services/core-api/internal/sales/service.go:42-446 | every state a run reaches satisfies the invariant of the books |
| FlatKeys.JoinedInjective | services/core-api/internal/platform/store/memory/store.go:410-419 | NUL-separated keys of one arity determine their components when all but the last are free of NUL |
| FlatKeys.PermissionKeyInjective | services/core-api/internal/platform/store/memory/store.go:417-419 | the permission key, with its order of parts, determines the permission |
| FlatKeys.ClaimKeyInjective | services/core-api/internal/platform/store/memory/store.go:414-416 | the idempotency key determines tenant, company, operation and key |
| FlatKeys.NulCollides | services/core-api/internal/platform/store/memory/store.go:410-413 | with NUL inside a component two different customers share one key |
| FlatKeys.CollidesExactly | services/core-api/internal/platform/store/memory/store.go:410-419 | a composed key collides with another of its arity if and only if it has several components and one holds a NUL |
| MemoryStore.EntityWritten | services/core-api/internal/platform/store/memory/store.go:285-306 | a write under the flat key is a write of that tuple and of no other |
| MemoryStore.Accumulate | services/core-api/internal/platform/store/memory/store.go:239-257 | the wrapping int64 accumulator returns the true sum of the matching rows, wrapped once |
| MemoryStore.Select | services/core-api/internal/platform/store/memory/store.go:318-366 | the filter loops return exactly the matching rows in insertion order |
| MemoryStore.ScanRates | services/core-api/internal/platform/store/memory/store.go:222-237 | the scanning loop selects the rate of the scan specification |
| MemoryStore.ScanPeriods | services/core-api/internal/platform/store/memory/store.go:259-266 | the first covering period decides |
| MemoryStore.MemState.ClaimIdempotency | services/core-api/internal/platform/store/memory/store.go:180-193 | a new key is claimed with an empty result; a known one conflicts, has no result, or replays, and changes nothing |
| MemoryStore.MemState.CompleteIdempotency | services/core-api/internal/platform/store/memory/store.go:195-204 | only a claimed key without a result takes a non-empty result |
| MemoryStore.MemState.MarkSaleReversed | services/core-api/internal/platform/store/memory/store.go:294-306 | an existing posted sale gets the reversed status and time, and nothing else changes |
| MemoryStore.MemState.CreateJournal | services/core-api/internal/platform/store/memory/store.go:368-379 | a journal is appended exactly when it validates and neither its id nor its source is taken |
| MemoryStore.MemState.AvailableStock | services/core-api/internal/platform/store/memory/store.go:239-247 | the stock the store reports is the wrapped sum over the location in the tuple-keyed state |
| MemoryStore.Clone | services/core-api/internal/platform/store/memory/store.go:421-453 | a new state object with the same contents, table by table |
| Isolation.CloneState | services/core-api/internal/platform/store/memory/store.go:421-469 | the clone has equal contents over maps and slices, nested lines, entries and accounts included, that are all new; only the targets of copied time pointers and the payload bytes of events are shared, and no member writes those |
| Isolation.Callback | services/core-api/internal/platform/store/memory/store.go:180-408 | a callback that gets through leaves exactly its edits, any of the writes a transaction offers, and its storage comes from the state it was given or is new |
| Isolation.HeapStore.WithTransaction | services/core-api/internal/platform/store/memory/store.go:78-93 | whatever the callback writes in its clone, a failing or cancelled transaction leaves the state and all it refers to as they were, and a successful one installs exactly the callback's edits in storage that is all new |
| Isolation.CopySales | services/core-api/internal/platform/store/memory/store.go:438-440 | copied sales have equal values over line slices that are all new |
| Isolation.RowsAdded | services/core-api/internal/platform/store/memory/store.go:308-408 | the edits of a transaction put rows at the end of their own table in order, and nothing else changes but sales and claims |
| Isolation.SalesPut | services/core-api/internal/platform/store/memory/store.go:285-306 | after the edits a sale is the one put last under its key, or what it was |
| SalesService.AddLine | services/core-api/internal/sales/service.go:123-212 | one round of the loop computes the specified draft or error and appends exactly its movement |
| SalesService.SettleSale | services/core-api/internal/sales/service.go:213-268 | the credit check, the customer's row and the journal are those specified |
| SalesService.MirrorSale | services/core-api/internal/sales/service.go:355-423 | the four reads and copying loops produce the specified cancelling rows, in order, and append exactly those |
| SalesService.CompleteIn | services/core-api/internal/sales/service.go:53-283 | on the cloned state, the body of the transaction returns and leaves what `Posting.Complete` says |
| SalesService.ReverseIn | services/core-api/internal/sales/service.go:300-441 | on the cloned state, the body of the transaction returns and leaves what `Posting.Reverse` says |
| SalesService.Service.Complete | services/core-api/internal/sales/service.go:42-288 | a failed or cancelled call leaves the very same state object, a successful one installs a new one that differs by exactly the specified rows, and the books are kept |
| SalesService.Service.Reverse | services/core-api/internal/sales/service.go:290-446 | the same for reversal |
| Serial.StatementKeeps | services/core-api/internal/platform/store/postgres/transaction.go:41-251 | each statement keeps the invariant of its transaction: what it holds is what the serial code gives on the state committed now |
| Undisturbed.LockedStockGrows | services/core-api/internal/platform/store/postgres/transaction.go:135-149 | while a transaction holds a stock lock, commits of others can only raise the stock it has read |
| Undisturbed.LockedExposureFalls | services/core-api/internal/platform/store/postgres/transaction.go:92-161 | while a transaction holds a customer lock, commits of others can only lower the exposure it has read |
| Undisturbed.PostLinesStable | services/core-api/internal/sales/service.go:123-212 | more stock never changes what an accepted draft holds |
| Undisturbed.SessionKept | services/core-api/internal/platform/store/postgres/transaction.go:41-251 | the invariant of every open transaction survives the commit of any other |
| Serial.CommitMatches | services/core-api/internal/sales/service.go:269-283 | what a transaction commits is what the serial operation writes on the state it commits onto |
| Interleaving.CommitOrder | services/core-api/internal/platform/store/postgres/transaction.go:41-251 | every interleaving, with blocking, errors and rollbacks, ends in the state of the serial run of the committed operations in commit order, answers each as that run does, and keeps the books |
| Uncontended.AloneCommits | services/core-api/internal/platform/store/postgres/transaction.go:41-470 | an operation that begins while the open transactions hold nothing of its company and none of its identifiers can finish, with exactly the effect and answer of the serial operation, and leaves the others where they were |
| Backends.StoresAgree | services/core-api/internal/platform/store/memory/store.go:222-366 | with disjoint periods, distinct rate dates and records whose total plus cost stays within bigint, the memory store and the serial PostgreSQL store hold the same books on every run, up to the arrangement of a reversal's copied rows and lines; they accept and refuse alike, except that PostgreSQL answers MoneyOverflow exactly where total plus cost is beyond bigint |
| Backends.ClosedRefuses | services/core-api/internal/sales/service.go:85-91 | an operation is never accepted by a store whose lookup says the period is closed |
| Backends.CommitOrderOnMemory | services/core-api/internal/platform/store/postgres/transaction.go:41-470 | with disjoint periods and distinct rate dates, every interleaving agrees with the memory store run on the committed operations in commit order, and each was answered as the memory store answers it |
| Outbox.Table.Claim | services/core-api/internal/platform/store/postgres/outbox.go:46-92 | the rows taken are distinct, unlocked, eligible, within the limit and first in the order of the query; they are leased with one more attempt and no error, field by field, and no other row changes |
| Outbox.OldestFirst | services/core-api/internal/platform/store/postgres/outbox.go:61-70 | what a claim leaves behind although it is due is no older than what it takes, with ties in lexical order of identifiers, and the batch is full |
| Outbox.TakesDue | services/core-api/internal/platform/store/postgres/outbox.go:61-70 | what a claim takes is unlocked, unprocessed, due, free of a live lease and of its tenant |
| Outbox.Table.MarkPublished | services/core-api/internal/platform/store/postgres/outbox.go:94-126 | it succeeds exactly for the lease holder of an unprocessed row, stamps and releases it, and otherwise changes nothing |
| Outbox.Table.MarkFailed | services/core-api/internal/platform/store/postgres/outbox.go:98-126 | it succeeds exactly for the lease holder, releases the row until the retry time with the reason cut to 2000, and otherwise changes nothing |
| Outbox.HandKeeps | services/core-api/internal/outbox/worker.go:50-66 | in every legal sequence of calls, events claimed are those acknowledged and those in hand, and each acknowledged event was published once |
| Outbox.RunOnce | services/core-api/internal/outbox/worker.go:33-68 | every tenant is claimed once and every event handed out is published once and acknowledged once by the answer its own publication got; every call carries what clock, repository and publisher said; and the failures are those of its calls |
| Outbox.FailuresExplained | services/core-api/internal/outbox/worker.go:43-66 | a failure is reported if and only if it is a refused claim, a failed publication or a lost acknowledgement of the pass |
| Delivery.SoundRun | services/core-api/internal/platform/store/postgres/outbox.go:46-126 | the protocol invariant holds after any sequence of actions of any workers |
| Delivery.CallsInOrder | services/core-api/internal/outbox/worker.go:43-66 | the hand of a worker in the protocol is the one its own calls since its start produce |
| Delivery.LegalRun | services/core-api/internal/outbox/worker.go:43-66 | workers whose calls follow the order of passes, answered by the table, take only protocol steps, however interleaved and wherever they crash |
| Delivery.OrderIsPasses | services/core-api/internal/outbox/worker.go:33-68 | the calls of a worker are in order if and only if they are whole passes one after another and the start of one more |
| Delivery.WorkersRun | services/core-api/internal/outbox/worker.go:33-68 | workers that only run passes, the last perhaps cut short by a crash, take only protocol steps, whatever the table answers and however they are interleaved |
| Delivery.TableAnswers | services/core-api/internal/platform/store/postgres/outbox.go:61-70 | a batch the table's claim may pick is an answer of the protocol, with the rows it leaves |
| Delivery.PublishesBounded | services/core-api/internal/outbox/worker.go:51-60 | an event is published at most once per claim, so never more often than its attempts |
| Delivery.ProcessedByDeliverer | services/core-api/internal/platform/store/postgres/outbox.go:94-126 | a row becomes processed only by the current lease holder, whose own Publish under that lease succeeded |
| Delivery.ProcessedOnce | services/core-api/internal/platform/store/postgres/outbox.go:117-126 | at most one acknowledgement of publication is accepted per row, and a processed row never changes again |
| Delivery.StaleAckRejected | services/core-api/internal/platform/store/postgres/outbox.go:117-126 | an acknowledgement is accepted exactly when the claim that handed the event out still holds the lease; otherwise it changes nothing |
| Delivery.LeaseHolds | services/core-api/internal/platform/store/postgres/outbox.go:61-70 | inside a live lease the row cannot change, whatever other workers do, until its holder acknowledges |
| Delivery.WaitsForRetry | services/core-api/internal/platform/store/postgres/outbox.go:61-70 | a free row is not touched by any claim before its time |
| Delivery.TenantsApart | services/core-api/internal/platform/store/postgres/outbox.go:61-70 | calls for other tenants never touch a row |
| Delivery.NothingLost | services/core-api/internal/platform/store/postgres/outbox.go:61-70 | an inserted row is never lost: it is processed, or eligible from its availability and lease on, and some continuation delivers it |
| MobileSync.Gateway.Submit | apps/sales-mobile/lib/data/sync_service.dart:17-35 | a key is posted at most once, later submissions return the first result marked as duplicate, and a lost request posts nothing |
| MobileSync.PostKeepsServer | apps/sales-mobile/lib/data/sync_service.dart:17-35 | results are numbered without gaps, different keys get different server ids, and posted results never change |
| MobileSync.SynchronizedSettles | apps/sales-mobile/lib/application/sales_controller.dart:192-220 | after an undisturbed synchronisation the sale carries the gateway's answer and is off the queue, or awaits review on it, and all others stay settled |
| MobileSync.SalesController.Synchronize | apps/sales-mobile/lib/data/sync_service.dart:44-56 | the cached answer is used without a request; otherwise the gateway's answer is cached; cached answers are the gateway's at every instant |
| MobileSync.SalesController.SyncOne | apps/sales-mobile/lib/application/sales_controller.dart:192-220 | for every number of awaits the process has left, the exact durable state, whether it dies, and the undisturbed effect when it does not; data stays consistent and nothing posted is forgotten |
| MobileSync.SalesController.CompleteSale | apps/sales-mobile/lib/application/sales_controller.dart:155-190 | for every number of awaits the process has left, and the connection as it is when the sale is made and when it has been saved, the exact durable state, what is submitted, and whether the process dies; a refused draft changes nothing |
| MobileSync.CompletedSettles | apps/sales-mobile/lib/application/sales_controller.dart:155-190 | a draft completed once without interruption is shown, is settled with all others if and only if the connection was not lost while the sale was saved, and is synced exactly when the sale was sent and answered |
| MobileSync.SoldAsDrafted | apps/sales-mobile/lib/application/sales_controller.dart:155-237 | whenever the process dies, the stored sale, the queued and the submitted command carry the draft's customer, type, payment method, lines and date, "Paid" exactly for cash, and as total the 64-bit sum of price times quantity over the lines |
| MobileSync.CompletedSays | apps/sales-mobile/lib/application/sales_controller.dart:161-220 | the sale that is returned carries the draft, and its status, message and receipt say what became of it |
| MobileSync.FirstReceipt | apps/sales-mobile/lib/data/sync_service.dart:11-35 | the first sale posted is sale-2401 with receipt ITZ-DAR-002401 |
| MobileSync.SalesController.SynchronizePending | apps/sales-mobile/lib/application/sales_controller.dart:239-255 | every waiting sale is finished and no other touched, all of them synced if all requests are delivered, with the list mirroring the store |
| MobileSync.Restart | apps/sales-mobile/lib/application/sales_controller.dart:71-101 | a restart, dying or not, leaves every stored sale that was not waiting; after a delivered synchronisation a stored sale is synced exactly when it was waiting or synced |
| MobileSync.StrandedExactly | apps/sales-mobile/lib/application/sales_controller.dart:177-209 | a new draft is left syncing if and only if it is made online and saved, and the connection is gone by then or the process dies at 1 to 5 awaits, or 1 to 4 when the submission throws, or 1 to 3 when the answer is cached |
| MobileSync.StrandedStages | apps/sales-mobile/lib/application/sales_controller.dart:177-209 | for a sale left syncing, after each number of awaits, whether the command is queued, the sale posted, the answer cached and the draft deleted |
| MobileSync.Restarts | apps/sales-mobile/lib/application/sales_controller.dart:239-255 | any number of restarts, each dying anywhere or not, leave every stored sale that was not waiting |
| MobileSync.StaysSyncing | apps/sales-mobile/lib/application/sales_controller.dart:177-255 | from any consistent store, a new draft left syncing is still syncing after any number of restarts and, where the process lives on with its list showing the store, of synchronisations |
| MobileSync.CompletedAgain | apps/sales-mobile/lib/application/sales_controller.dart:155-190 | completing the draft again, with the request delivered or the answer cached, does synchronise it |
| Codec.ExactIntReads | apps/sales-mobile/lib/data/local_data_codec.dart:251-259 | reading succeeds exactly for whole numbers, and equals the stored number exactly inside the 64-bit range |
| Codec.SaleReadsBack | apps/sales-mobile/lib/data/local_data_codec.dart:136-201 | decoding an encoded sale gives it back if and only if its dates are on the millisecond and its lines are priced as their product |
| Codec.CommandReadsBack | apps/sales-mobile/lib/data/local_data_codec.dart:203-236 | the same for synchronisation commands |
| Codec.SaleOnDisk | apps/sales-mobile/lib/data/local_data_codec.dart:136-159 | the stored form of a sale, entry by entry, with the names of its enumerations |
| Codec.CommandOnDisk | apps/sales-mobile/lib/data/local_data_codec.dart:203-217 | the stored form of a command, entry by entry |
| Codec.CustomerOnDisk | apps/sales-mobile/lib/data/local_data_codec.dart:14-32 | the stored form of a customer and its credit, entry by entry |
| Codec.LineOnDisk | apps/sales-mobile/lib/data/local_data_codec.dart:144-152 | the stored form of a sale line and its product, entry by entry |
| Migration.CheckSale | apps/sales-mobile/lib/data/local_database_schema.dart:351-361 | the loop over the lines checks exactly what is specified and rewrites only the total |
| Migration.SalePasses | apps/sales-mobile/lib/data/local_database_schema.dart:325-371 | a stored sale passes if and only if it has the expected shape and all its numbers are whole |
| Migration.CastExact | apps/sales-mobile/lib/data/local_database_schema.dart:244-261 | a column passes exactly when it is NULL or a whole number inside the 64-bit range, and the cast keeps it |
| Migration.Database.Upgrade | apps/sales-mobile/lib/data/local_database_schema.dart:26-47 | the upgrade succeeds exactly when all rows and columns pass, and otherwise leaves every table as it was |
| Migration.UpgradesExactly | apps/sales-mobile/lib/data/local_database_schema.dart:175-323 | the upgrade goes through if and only if every number it checks is whole, every column fits 64 bits and everything written back can be encoded |
| Migration.MigrationKeeps | apps/sales-mobile/lib/data/local_database_schema.dart:175-323 | after a successful upgrade every stored record decodes as before, exactly the named JSON entries are rewritten, as integers, every column holds its legacy amount, and every number the decoder reads passes its exactness check |
| Migration.AmountsKept | apps/sales-mobile/lib/data/local_data_codec.dart:161-201 | each number of a decoded sale equals the legacy one if and only if that one fits 64 bits |
| Migration.CreditKept | apps/sales-mobile/lib/data/local_data_codec.dart:34-63 | the same for the limit, exposure and overdue amount of a draft's customer |
| Migration.ProductKept | apps/sales-mobile/lib/data/local_data_codec.dart:83-96 | the same for the price and stock of a draft line's product |
| Migration.HugeTotalChanges | apps/sales-mobile/lib/data/local_database_schema.dart:360-371 | a whole total beyond the 64-bit range passes the upgrade and is rewritten to another number |

## Left out

- HTTP handlers, authentication, correlation middleware, process mains and the Control Center: input, output and third-party code.
- `Service.Get`: an authorised lookup without effect.
- SQL text, row-level security, pgx and the driver: rows are datatypes, statements are steps.
- PostgreSQL error values: the adapter maps driver errors in its own way (a missing posting configuration reads as not found); `Backends.StoresAgree` speaks of which operations fail, with the errors of the memory store.
- Deadlocks, serialization failures and lost connections are rollbacks that may happen at any point; that transactions of one company which compete for locks make progress is not claimed.
- The inserts of a PostgreSQL transaction after its last read happen at its commit, where it waits for uncommitted unique keys; the key-share locks of foreign keys are not modelled, which allows more interleavings.
- Constraints of the SQL schema other than those on keys, reversals, journals and immutability: foreign keys to users, warehouses and accounts, the length of a currency, and identifier formats.
- Order of identifiers: `ORDER BY id` is lexical order of identifier strings.
- JSON payloads of events are the sale they were marshalled from.
- Non-ASCII letters in `ToUpper`, and the byte length of a currency: strings are sequences of characters.
- MemoryStore.Clone: shares no nested storage by construction, because nested maps and slices are values there; `Isolation.CloneState` covers references.
- `Snapshot`, which copies the rows for tests, and the order in which Go iterates over maps.
- Two workers running at once under one worker id, or an acknowledgement still on its way from a crashed worker when another with its id has claimed the row again: the owner test of the table would accept it.
- Ordering of outbox delivery: `UPDATE ... RETURNING` promises none.
- `SaleRules`, cart editing, money formatting, languages and widgets; `CompleteSale` takes their verdict as a parameter. `remainingDailyValue` is never decremented, so no daily limit is claimed.
- Overlapping controller calls, cached customers and products, the key vault and the SQLCipher store's own statements.
- MobileSync.SalesController.SyncOne: only the submission throws. An error of the local store inside the `try` reaches the same catch; one in `enqueueSync`, outside the `try`, leaves the store as a death at that await does, a new online sale `syncing`, in a process that lives on, with `isSyncing` still set if it was synchronising. Neither is modelled.
- MobileSync.SalesController.InitializeLocalData: reading sales is its one await; initialising the store and caching customers and products are left out.
- MobileSync.LocalStore.ReadSales: the newest-first order is not modelled; nothing depends on it.
- The text of JSON: encoding and parsing are taken to be inverse on trees, except that a double that is not finite cannot be encoded.
- Migration.Database.Upgrade: the database engine's rollback is modelled as restoring the tables saved when the transaction began.
- Columns the upgrade copies unchanged, its CHECK constraints, which hold before it and are kept by equal amounts, and upgrades from versions before 3.
