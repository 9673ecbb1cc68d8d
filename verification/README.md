# Distributed betting ledger: a verified model

The system keeps players' wallets for betting providers. Bets, wins, losses,
refunds and rollbacks arrive over HTTP and over a queue, possibly several times
and concurrently; each must move money at most once, leave a ledger that explains
every balance, and announce itself through an outbox that publishers deliver in
order. Its guarantees rest on row locks, advisory locks, unique indexes, an inbox
and an outbox. This project models that logic in Dafny and proves the guarantees.

Run `dafny verify dfyconfig.toml` in this directory.

## How the model is built

* **Values and domain objects**: `Prelude`, `Money` (module `Monetary`), `Backoff`,
  `Tables` (all rows and one database state), `Domain` (wallet, transaction,
  ledger entry).
* **Decisions and commits**: `Engine` holds what each transaction decides from what
  it reads and what a commit changes. `TxFacts`, `Conservation` and `Invariants` say
  what every database state satisfies; `Commits`, `CommitEvents` and `Openings` prove
  that every sound commit keeps it, and `Decisions` that what the service decides is
  sound and stays sound while others commit.
* **Whole operations**: `Operations` specifies OpenWallet, Process, ProcessMessage and
  ProcessPendingReference as transactions; `Service` is the service as a class whose
  methods change the tables in place and are proved against them; `OperationProofs`
  and `AtomicRuns` reason about sequences of them, `Scenarios` about two reversals of
  one reference; `Consumer` is the queue consumer on top of the class. `Outcomes` and
  `WorkerOutcomes` state the exact answer of each operation in the columns of the tables
  alone, with definitions of their own: which command is processed, waits, is rejected
  under which code or fails, and every row, entry and event it leaves.
* **Single statements**: `Statements` is the same service with a program counter per
  open transaction. A statement reads what is committed, takes the locks PostgreSQL
  takes for it and is invisible to others until the commit; sessions interleave
  freely, may be cut off anywhere, and a commit may happen although its caller sees
  an error. `SessionInv`, `Stability`, `OwnSteps`, `CommitSteps` and `Interleavings`
  prove the invariant of this machine; `RunTheorems`, `Rulings`, `Guarantees`, `Idempotency`,
  `WorkerProgress` and `Deadlock` state the results over every run, `Overlaps` shows
  that sessions really run side by side and race, and `Solo` ties this level to the
  whole operations.
* **Outbox publishers**: `Outbox` (workers, leases, claim tokens, a network that may
  deliver late and repeatedly), `OutboxProofs`, `OutboxProgress` (which rows can still
  be claimed and published), `OutboxTable` (the statements in place) and `Feed` (the service, the publishers and the network as one machine).
* **Ledger reads**: `Reconstruct` (module `Reconstruction`), `WalletTheorems`, `Paging`.

Amounts are unbounded integers with the int64 limits written out; wrapping
arithmetic is explicit (`Wrap64`). Identifiers are numbers, zero being the nil UUID.
Clocks, new identifiers, claim tokens and the outcome of a send are parameters or
free choices of the machines. The payload digest and the hash behind the advisory
locks are functions of which nothing is known but their range: for two different
inputs neither equality nor inequality of the results can be derived, so every result
covers colliding and non-colliding hashes, and where the difference matters it is a
condition (`OverlapExactly`, `RedeliveryDecided`).

Where a promised property is false of the code, the code is kept: the exact
condition is proved and a concrete input is given (`RepeatedBalanceRefused` with
`ChainReconstructs`, `WrappedDelayShrinks` with `WorkerDelayMonotoneIff`,
`RetryDelayShrinks` with `RetryDelayMonotoneIff`, `TwoRefundsOfOneBet` with
`WorkerFailsExactly`). That every outbox row is published in the end is false too: an
aggregate can be emptied exactly when none of its rows is FAILED (`EmptiesExactly`,
`FailedForever`). The code rejects a WIN that would overflow the balance under
the code REVERSAL_INSUFFICIENT_BALANCE; the model does the same.

## Model

| member | source | states |
|---|---|---|
| OutboxProofs.BrokerOrder | internal/application/outbox/worker.go:137-163 | in every run with crashes, expired leases, late, repeated and falsely failed sends, the broker's log of an aggregate without repeats is a prefix of its rows in ordering order, and repeats carry the same body |
| OutboxProofs.AggregateShape | internal/infrastructure/postgres/repositories.go:363-400 | of two rows of an aggregate the earlier one is published or the later one was never claimed: published rows, at most one active row, untouched rows |
| OutboxProofs.RowLifecycle | internal/infrastructure/postgres/repositories.go:439-457 | PENDING means attempts below the maximum, FAILED at or above it, a token and a claim time exactly while CLAIMED, PUBLISHED only once the broker has it |
| OutboxProofs.StaleHolderHarmless | internal/infrastructure/postgres/repositories.go:439-457 | a worker whose claim token was replaced or retired changes no row, at any later time |
| OutboxProgress.ClaimExactly | internal/infrastructure/postgres/repositories.go:363-385 | in every reachable state a row can be claimed exactly when it is PENDING and due or CLAIMED under a lease that ran out, and everything before it in its aggregate is PUBLISHED |
| OutboxProgress.RowRecovers | internal/application/outbox/worker.go:137-163 | in every reachable state a leading row that is neither FAILED nor PUBLISHED, left by whichever crashed worker, is claimed at any time from which it is ready, and an undisturbed round publishes it and touches no other row |
| OutboxProgress.EmptiesExactly | internal/infrastructure/postgres/repositories.go:363-400 | from a reachable state all rows of an aggregate can still be published exactly when none of them is FAILED |
| OutboxProgress.FailedForever | internal/infrastructure/postgres/repositories.go:374-380 | whatever runs afterwards, a FAILED row stays as it is and no row behind it is ever claimed |
| OutboxProofs.RunKeeps | internal/application/outbox/worker.go:104-163 | every state of every publisher run satisfies the protocol's invariant |
| OutboxTable.OutboxRepository.ClaimOneRecord | internal/infrastructure/postgres/repositories.go:363-400 | claims, under the new token and with one attempt more, the unlocked row with the earliest due time and then the smallest event id among those due or abandoned past their lease and behind published rows only; or there is none |
| OutboxTable.OutboxRepository.MarkPublished | internal/infrastructure/postgres/repositories.go:439-445 | publishes exactly the row of the event that is CLAIMED under the token and reports a lost claim otherwise |
| OutboxTable.OutboxRepository.MarkRetry | internal/infrastructure/postgres/repositories.go:447-457 | reschedules, or fails once the attempts reach the maximum, exactly the row of the event that is CLAIMED under the token and reports a lost claim otherwise |
| OutboxTable.OutboxRepository.ProcessOne | internal/application/outbox/worker.go:137-201 | one undisturbed round: what reaches the broker, and the row published, rescheduled with its backoff or failed; nothing else changes |
| Feed.CommittedEventsAreFresh | internal/infrastructure/postgres/repositories.go:279-282 | however the service's transactions interleave, each committed event is a new row behind all its aggregate already shows, which is what the publishers rely on |
| Feed.BrokerShowsCommitted | internal/application/outbox/worker.go:137-163 | in every run of service, publishers and network together, what the broker shows of a wallet or transaction, repeats dropped, are the first of its committed events in order, each with its own content |
| Feed.BrokerFollowsBalance | internal/application/financial/service.go:429-445 | in every such run the balance events the broker shows of a wallet carry consecutive versions and chain before to after |
| Interleavings.RunKeeps | internal/application/financial/service.go:281-341 | every state of every interleaving satisfies the database invariant, no lock is held twice, and every open session's facts still hold |
| Interleavings.StepKeeps | internal/infrastructure/postgres/repository.go:34-45 | every statement, commit, unseen commit, interruption and deletion keeps that invariant |
| Overlaps.OverlapExactly | internal/infrastructure/postgres/repositories.go:91-94 | two calls can be past their identity locks at the same time exactly when their identities have different locks |
| Overlaps.RaceOnOneKey | internal/application/financial/service.go:281-311 | from any quiet state two calls of one key but different identities can both pass their lookups; one commits, the other loses at the unique index |
| Overlaps.RaceHappens | internal/application/financial/service.go:674-709 | that race from empty tables, unless the two identities share a lock: the path through the unique violation is taken in some run |
| Stability.SessionStable | internal/application/financial/service.go:281-341 | what a session has read or decided under its locks survives whatever any other session commits |
| RunTheorems.RunGrows | internal/infrastructure/postgres/repositories.go:128-131 | over any run no row is lost, terminal rows never change, ledger and outbox only grow, inbox hashes stay |
| RunTheorems.OnlyWritesHaveEffect | internal/application/financial/service.go:245-251 | every step but the commit of a decided write leaves wallets, rows, ledger and outbox alone: replays, losers of a race and interrupted transactions have no financial effect |
| RunTheorems.ReadsStayCurrent | internal/application/financial/service.go:296-311 | from the wallet lock to the end of the session, the wallet as read is the committed one |
| RunTheorems.NoLostUpdate | internal/application/financial/service.go:405-428 | each commit moves its wallet from its committed balance by exactly the row's amount and one version, or not at all, touches no other wallet, and a processed reversal's reference is processed and valid in that state |
| Rulings.CallRuled | internal/application/financial/service.go:281-341 | however sessions interleave, every committed row of a call has the state, code, balance, entry and events its columns dictate, for its wallet's balance at the commit and the references at some moment of the run |
| Rulings.StepRuled | internal/application/financial/service.go:492-577 | the same for every committed worker step: postponed or ended as the row it names dictated, for the balance at the commit |
| Rulings.OpeningRuled | internal/application/financial/service.go:105-148 | every committed opening: id unused, no wallet of this player in this currency, and exactly this wallet, row, entry and events are added |
| RunTheorems.NotFoundMeansAbsent | internal/application/financial/service.go:498-547 | a reversal committed as REFERENCE_NOT_FOUND has no created reference in the state before and after that commit |
| Guarantees.WalletInEveryState | internal/application/financial/service.go:343-445 | entries chain from zero to the stored balance, every balance lies in 0 to MaxInt64, the version is the entry count plus one if opened at zero |
| Guarantees.ConservedInEveryState | internal/application/financial/service.go:353-371 | the balance is the opening amount plus wins not rolled back minus bets still standing, a refunded bet standing again once its refund is rolled back |
| Conservation.PutTotal | internal/application/financial/service.go:353-371 | every admissible write changes that sum by its movement on its own wallet and on no other |
| Guarantees.OneEntryPerMovement | internal/application/financial/service.go:405-428 | every processed row except LOSS has exactly one ledger entry, with its amount and direction |
| Guarantees.OneMovementPerEntry | internal/application/financial/service.go:405-428 | every ledger entry belongs to exactly one processed row |
| Guarantees.EventsOfRow | internal/application/financial/service.go:729-808 | a terminal row has one Processed or Rejected event carrying its persisted result, after one waiting event if it waited; a waiting row has only that one, and it carries what the row replays |
| Guarantees.NoStrayEvents | internal/application/financial/service.go:769-808 | every event belongs to a committed row or to an existing wallet; nothing else is announced |
| Guarantees.BalanceEventsInEveryState | internal/application/financial/service.go:429-445 | a wallet's balance events match its entries, carry consecutive versions, chain before to after and end at the stored balance and version |
| Guarantees.ReconcilesInEveryState | internal/application/financial/service.go:447-461 | read in one state, a wallet's ledger rows in any order rebuild its balance exactly when no two movements started from the same balance |
| Idempotency.RepliesForever | internal/application/financial/service.go:281-311 | after a terminal answer every later call of the same request, whatever ran in between, ends with that answer or a named error and commits nothing but its inbox row |
| Idempotency.AlwaysReplayable | internal/application/financial/service.go:715-727 | no row the service wrote ever fails to replay |
| Idempotency.NeverUnavailable | internal/application/financial/service.go:629-672 | in no run does a session end with ErrReplayUnavailable: a row with a command's key and business fields always has its hash and a readable result |
| Idempotency.OneRowPerRequest | internal/application/financial/service.go:150-188 | answered calls sharing a provider and a key or external id are the same request with one row; both results name it and its amount, are equal when both are terminal or both waiting, and while it waits are what it replays |
| Idempotency.OneWriter | internal/application/financial/service.go:674-709 | of all transactions racing for an id, a key or an external id, at most one ever commits a row |
| Idempotency.LosersConflict | internal/application/financial/service.go:674-690 | a call that lost its insert at a unique index lost it to another request: the lookup that follows never replays, and it ends with ErrIdempotencyConflict and no effect |
| Idempotency.DeletedWasProcessed | internal/transport/messaging/consumer.go:179-233 | a deleted message has a completed inbox row and a transaction row under the same hash, and its command has at most one ledger entry |
| Idempotency.InboxAlwaysCompleted | internal/application/financial/service.go:204-244 | every committed inbox row is completed and a transaction row carries its hash |
| Idempotency.ForeignPayloadRefused | internal/application/financial/service.go:204-230 | a committed message delivered again ends with the payload mismatch exactly when its payload hashes differently, and then no table changes |
| Idempotency.OneHashPerMessage | internal/transport/messaging/consumer.go:179-233 | everything ever deleted under one message id had one hash |
| TxFacts.RecordIsFound | internal/application/financial/service.go:629-672 | the lookup finds a command's row, and conflicts exactly when its id belongs to another row |
| WorkerProgress.CommittedStepAdvances | internal/application/financial/service.go:492-577 | a committed worker step makes its row terminal or raises its attempts by one below the maximum, and changes no other row |
| WorkerProgress.StepsAreBounded | internal/application/financial/service.go:534-547 | over a whole run a row takes at most maxAttempts committed worker steps |
| WorkerProgress.AbortsExactly | internal/application/financial/service.go:401-403 | apart from interruptions a worker's statement fails exactly when the reversal's slot is taken |
| WorkerProgress.AbortChangesNothing | internal/infrastructure/postgres/repository.go:39-42 | that failure leaves every table as it was and releases every lock |
| WorkerProgress.NeverProcessed | migrations/000004_financial_processing.up.sql:25-27 | once another reversal of its reference is processed, a waiting row is never processed in any later state |
| WorkerProgress.AbortsForever | internal/application/financial/service.go:401-403 | and every later worker step that would process it rolls back at the reversal index, changing no table |
| Deadlock.NoDeadlock | internal/infrastructure/postgres/repositories.go:91-94 | in no state of no run is there a cycle of waiting sessions, and no chain of waits is longer than twelve |
| Deadlock.SomebodyCanGoOn | internal/application/financial/service.go:281-304 | while a session is unfinished, some session can run its next statement or commit |
| Solo.SoloProcess | internal/application/financial/service.go:150-188 | run alone, the statements of Process commit exactly what the operation specifies, or end with its error |
| Solo.SoloMessage | internal/application/financial/service.go:194-251 | the same for ProcessMessage, its inbox row included |
| Solo.SoloWorker | internal/application/financial/service.go:492-577 | the same for a claimed waiting row |
| Solo.SoloOpen | internal/application/financial/service.go:105-148 | the same for OpenWallet |
| Solo.PathIsRun | internal/application/financial/service.go:281-341 | the solo paths of the four results above are steps of the statement-level machine |
| AtomicRuns.AtomicRunSound | internal/infrastructure/postgres/repository.go:34-45 | every sequence of whole operations from empty tables satisfies the database invariant |
| AtomicRuns.ReplayExact | internal/application/financial/service.go:629-727 | after a terminal answer and any operations, the same request under the same or an unused id returns that answer with every table unchanged, and conflicts under the id of another row |
| AtomicRuns.RedeliveryDecided | internal/application/financial/service.go:204-230 | a message answered for one command and delivered again with another, after any operations, is refused exactly when the two payloads hash differently |
| Scenarios.MessageIdReused | internal/application/financial/service.go:204-230 | from empty tables: a second bet under an answered message id |
| Outcomes.FreshCall | internal/application/financial/service.go:281-445 | the whole answer of a call not seen before: each error exactly when its condition holds, otherwise the ruling of the columns with the complete row, wallet, entry and events |
| Outcomes.ProcessedExactly | internal/application/financial/service.go:353-386 | BET is PROCESSED iff the balance covers it, WIN iff the sum fits int64, LOSS always, REFUND and ROLLBACK iff the row they name may be reversed and the balance allows it; a reversal waits iff no row has its reference |
| Outcomes.SeenCall | internal/application/financial/service.go:629-727 | a call whose id, key or external id exists is answered from the row of the same request, unless another row has its id, and conflicts otherwise; no table changes |
| Outcomes.MessageIsCall | internal/application/financial/service.go:194-251 | a message is a call plus its completed inbox row: same answer, same errors, mismatch exactly for a different hash, and the flag says the inbox already had it |
| WorkerOutcomes.StepExactly | internal/application/financial/service.go:492-577 | the whole step on a claimed row by the state and columns of the row it names: next attempt at now plus the backoff, REFERENCE_NOT_FOUND or NOT_RESOLVED once attempts are used up, NOT_SUCCESSFUL, INVALID, or the operation with its complete tables, failing exactly on a taken reference |
| WorkerOutcomes.OpenExactly | internal/application/financial/service.go:105-148 | OpenWallet succeeds exactly for a player, valid money, a free id, no wallet of this player in this currency and, if funded, unused opening names; the wallet, row, entry and events are these |
| OperationProofs.CallKeeps | internal/application/financial/service.go:150-188 | an answered call keeps the invariant and every committed row |
| OperationProofs.MessageKeeps | internal/application/financial/service.go:194-251 | an answered message keeps the invariant and leaves its inbox row completed with its hash |
| OperationProofs.WorkerKeeps | internal/application/financial/service.go:466-577 | a committed worker step keeps the invariant and makes its row terminal or counts one attempt |
| OperationProofs.WorkerFailsExactly | internal/application/financial/service.go:492-532 | a worker step fails exactly when its operation would be processed but the reference is already reversed |
| Scenarios.SecondReversalStuck | internal/application/financial/service.go:492-532 | of two reversals waiting for one reference the first step processes one, and after any operations the other is never processed and its steps fail exactly when they would succeed |
| Scenarios.TwoRefundsOfOneBet | internal/application/financial/service.go:395-404 | from empty tables: two refunds wait, their bet arrives, one is processed, the step on the other fails and leaves every table |
| OperationProofs.OpenKeeps | internal/application/financial/service.go:105-148 | an opened wallet keeps the invariant |
| Service.FinancialService.OpenWallet | internal/application/financial/service.go:105-148 | in place: the wallet, its opening row, entry and events, or a refusal that leaves every table |
| Service.FinancialService.Process | internal/application/financial/service.go:150-188 | in place: the answer and tables of the specified call, a lost race answered from the winner's row |
| Service.FinancialService.ProcessMessage | internal/application/financial/service.go:194-251 | in place: inbox row, command and completion together, or nothing |
| Service.FinancialService.ProcessInTx | internal/application/financial/service.go:281-341 | replay, rejection, waiting or operation, with exactly the specified rows, entries and events |
| Service.FinancialService.ApplyOperation | internal/application/financial/service.go:343-445 | the domain wallet's verdict becomes the row, balance, entry and events of the specified change |
| Service.FinancialService.FindNextPending | internal/infrastructure/postgres/repositories.go:124-126 | the first due waiting row, missing times first, then by time and id, or none due |
| Service.FinancialService.ProcessPendingReference | internal/application/financial/service.go:466-490 | claims the waiting row that is due, rows without a time first, then by time and id, and leaves exactly the specified step, or rolls back |
| Service.FinancialService.AdvancePending | internal/application/financial/service.go:534-547 | postpones by the backoff while attempts remain and rejects with the given code otherwise |
| Service.FinancialService.RejectPending | internal/application/financial/service.go:549-577 | the waiting row ends REJECTED with its event, and no balance moves |
| Service.FinancialService.Reconcile | internal/application/financial/service.go:447-461 | compares stored and rebuilt balance; in a sound state it succeeds exactly for distinct starting balances and finds them equal |
| Consumer.MessageConsumer.HandleMessage | internal/transport/messaging/consumer.go:179-233 | a handle leaves the queue only after the commit; a failed message is hidden for the doubled backoff, capped and rounded, or released at a shutdown, unless that call fails too; the tables are those of ProcessMessage |
| Consumer.MessageConsumer.HandleBatch | internal/transport/messaging/consumer.go:160-175 | messages before a shutdown are handled in order, exactly the committed ones whose deletion succeeds leave the queue, the rest are released untouched |
| Consumer.BatchIsARun | internal/transport/messaging/consumer.go:125-177 | handling a batch is a run of whole operations |
| Consumer.RetrySecondsBounded | internal/transport/messaging/consumer.go:235-248 | a retried message is hidden for a non-negative time that ends before its own timeout, and at least a second for a positive delay |
| Consumer.RetryHides | internal/transport/messaging/consumer.go:235-248 | for every base and attempt the visibility retry sets is the doubled backoff in 64 bits, capped a second below the timeout, in whole seconds and at least one |
| Consumer.HiddenExactly | internal/transport/messaging/consumer.go:281-297 | when base times 2^30 fits, it is the smaller of base times 2^min(attempt-1, 30) and the cap |
| Consumer.HiddenGrows | internal/transport/messaging/consumer.go:281-297 | it never shrinks with the attempt as long as no wrapped product falls below the cap |
| CommitEvents.CommitKeeps | internal/application/financial/service.go:395-445 | every commit that meets its conditions keeps rows, ledger, wallets, events, orderings and inbox consistent |
| Openings.OpeningKeeps | internal/application/financial/service.go:105-148 | a funded opening keeps the same invariant |
| Decisions.DecideSound | internal/application/financial/service.go:312-340 | what a call decides fits the tables it read: balanced movement, valid reference, replayable snapshot |
| Decisions.SoundExtends | internal/application/financial/service.go:326-340 | a decision stays sound while others commit: the reference it validated cannot be lost |
| Decisions.ConcludeSound | internal/application/financial/service.go:505-532 | what the worker concludes fits the tables as long as its reference stands |
| Engine.ResultRoundTrip | internal/application/financial/idempotency.go:64-86 | the stored snapshot reads back as the result it was written from |
| Reconstruction.Reconstruct | internal/infrastructure/postgres/repositories.go:150-218 | answers exactly when the rows are valid and form a chain from zero with distinct starting balances; the answer is credits minus debits in any order |
| Reconstruction.FindLink | internal/infrastructure/postgres/repositories.go:202-213 | the only entry that starts at the balance, or none or several |
| Reconstruction.ChainReconstructs | internal/infrastructure/postgres/repositories.go:203-210 | a correct ledger is refused exactly when a starting balance repeats |
| Reconstruction.RepeatedBalanceRefused | internal/infrastructure/postgres/repositories.go:203-210 | open 100, bet 80, refund 80, bet 80 is a correct ledger and is refused |
| WalletTheorems.OwnChain | internal/application/financial/service.go:405-428 | cut down to one wallet, the shared ledger is one continuous chain of valid entries from zero |
| Paging.ListByWallet | internal/infrastructure/postgres/query.go:34-59 | the first rows whose (timestamp, id) is greater than the cursor's, in that order, as many as there are up to the limit |
| Paging.Ledger | internal/application/query/service.go:141-181 | one page and a cursor exactly when more rows remain; a bad limit, a garbled cursor or an unknown wallet is refused, in this order |
| Paging.ParseLimit | internal/application/query/service.go:267-276 | texts that read as a number from 1 to 100 are accepted, others refused, none means 50 |
| Paging.LimitExactly | internal/application/query/service.go:267-276 | exactly the texts of an optional sign and digits that denote 1 to 100 are accepted, with that value |
| Paging.PrintedLimit | internal/application/query/service.go:267-276 | a printed number is accepted exactly when it lies in that range |
| Paging.WalkReturnsAll | internal/application/query/service.go:141-181 | following cursors while entries are inserted returns every entry present at the start exactly once, in order |
| Paging.WalkOfUnchanged | internal/application/query/service.go:141-181 | on an unchanged ledger the pages concatenate to it |
| Paging.WalkEnds | internal/application/query/service.go:141-181 | such a walk ends after a number of fetches bounded by the rows left |
| Monetary.Parse | internal/domain/money/money.go:26-53 | with int64 arithmetic and no intermediate overflow, accepts exactly the canonical two-decimal strings that fit and denotes their value |
| Monetary.NewExactly | internal/domain/money/money.go:26-53 | character by character: three capitals, digits without a leading zero, a point, two digits, and the number the digits denote fits |
| Monetary.PrintParse | internal/domain/money/money.go:105-114 | printing then parsing is the identity from 0 to MaxInt64 and is refused for negative amounts |
| Monetary.ParsePrint | internal/domain/money/money.go:105-114 | parsing then printing gives the same string |
| Monetary.FromMinor | internal/application/financial/service.go:824-826 | a stored amount is rebuilt exactly when it is non-negative, fits and has a valid currency |
| Monetary.Add | internal/domain/money/money.go:60-69 | succeeds exactly when currencies agree and the sum fits, with wrapping arithmetic that never wraps |
| Monetary.Sub | internal/domain/money/money.go:71-80 | succeeds exactly when currencies agree and the difference fits |
| Monetary.AddSub | internal/domain/money/money.go:60-80 | subtraction undoes addition |
| Monetary.IndexByte | internal/domain/money/money.go:148-155 | the first position of a byte, or that there is none |
| Domain.WalletObject.Debit | internal/domain/wallet/wallet.go:33-53 | in place: takes the amount and bumps the version once, or refuses and changes nothing |
| Domain.WalletObject.Credit | internal/domain/wallet/wallet.go:55-72 | in place: adds the amount and bumps the version once, or refuses and changes nothing |
| Domain.NewWallet | internal/domain/wallet/wallet.go:21-26 | a wallet with player, currency and non-negative opening, at version one, or a refusal |
| Domain.CreditUndoesDebit | internal/domain/wallet/wallet.go:33-72 | crediting what was debited restores the balance |
| Domain.TransactionObject.Transition | internal/domain/wager/wager.go:77-90 | moves exactly along the state machine |
| Domain.TransitionsAreShort | internal/domain/wager/wager.go:77-90 | no path leaves a terminal state or takes more than two moves |
| Domain.NewTransaction | internal/domain/wager/wager.go:41-76 | the external kinds with an amount that suits the kind, in PENDING |
| Domain.NewEntry | internal/domain/ledger/ledger.go:29-53 | an entry exists exactly when its currencies agree and before plus or minus value is after |
| Backoff.WorkerDelayNeverNegative | internal/application/outbox/worker.go:185-201 | with wrapping arithmetic no retry is scheduled before now |
| Backoff.WorkerDelayExact | internal/application/financial/service.go:600-617 | when base times 2^30 fits, the delay is base times 2 to the clamped shift |
| Backoff.WorkerDelayMonotoneIff | internal/application/financial/service.go:600-617 | delays never shrink exactly when base times 2^30 fits or the base is not positive |
| Backoff.WrappedDelayShrinks | internal/application/financial/service.go:600-617 | a base for which a later delay is shorter |
| Backoff.WorkerDelayAlways | internal/application/outbox/worker.go:185-201 | for every base: the low 64 bits of the product, or a day if they read as negative |
| Backoff.RetryDelayMonotoneIff | internal/transport/messaging/consumer.go:281-297 | the consumer's delays never shrink exactly when no product that overflows has low bits below the cap |
| Backoff.RetryDelayShrinks | internal/transport/messaging/consumer.go:281-297 | a base whose thirty-first retry is not delayed at all |
| Backoff.RetryDelayBounded | internal/transport/messaging/consumer.go:281-297 | the queue delay lies between zero and the visibility minus one second |
| Backoff.RetryDelayIsCappedSchedule | internal/transport/messaging/consumer.go:281-297 | when nothing wraps it is the same schedule, capped |

## Left out

- HTTP routes, data transfer objects, authentication, metrics, logging and process wiring: request plumbing and I/O.
- JSON, base64, UUID and RFC 3339 text, and SHA-256: results and cursors are values, the payload hash is an unspecified function of the business fields, the lock hash one of the identity, and new identifiers are parameters.
- Decoding of queue messages and configuration: a received message carries what decoding gave.
- The query service's single-row reads (Wallet, TransactionForProvider, persistedBalance): local checks that would only add easy members.
- Negate and Compare of money as functions of their own: only the currency check of Compare is used by the modelled code.
- created_at and updated_at columns, and ledger timestamps outside `Paging`: the engine writes them and reads none of them back.
- Rows written by earlier versions of the schema ("legacy") and migration backfills: runs start from empty tables.
- An OPENING kind as an external command: the transports refuse it, so a session's command has one of the five external kinds.
- The 64-bit limit of the wallet version and of sequence numbers: both are unbounded here.
- Serializability of whole transactions is not claimed: a reference lookup is not covered by the referenced row's lock; the stability results above are what holds.
- Aggregates: the outbox column holds one identifier; the model keeps wallet and transaction identifiers apart, so a transaction id equal to a wallet id is not covered by the per-aggregate order.
- The order in which the statement-level worker claims due rows: any due, unlocked row may be claimed there; `FindNextPending` has the order.
- Reconstruction.Reconstruct: the sort by timestamp and id before the scan is not modelled, because the result is proved for every order of the rows.
- Reconcile across two states: wallet and ledger are read in one state, as for a wallet nobody is changing.
- Share locks of foreign keys: each falls on a wallet or transaction row its own session has already locked or inserted.
- Database failures other than an interrupted transaction, a refused constraint or an unseen commit.
- WorkerProgress.StepsAreBounded: assumes that all workers of the run use the same maximum, as one configuration gives them.
- OutboxProofs.BrokerOrder: assumes that all publishers use the same maximum and that claim tokens are never reused.
- Paging.Ledger: the text of a cursor and the copied columns of an entry are not modelled; a request carries what its cursor decodes to, and a row is a key with a payload.
- Consumer.MessageConsumer.HandleMessage: an interrupted transaction is not among its outcomes; the statement-level machine covers it. The conversion of the hidden time to 32 bits is not modelled: configured timeouts are at most 43200 seconds.
- Rulings.CallRuled: the sequence numbers of the events are not part of it, because other sessions may draw numbers in between; `Feed` has their order.
