# Ledger pipeline: model and proofs

A Dafny model of a double-entry ledger that posts journal entries through an API, relays them through a
transactional outbox, and projects them into account balances, together with the pure accounting library that the
incremental balances should agree with. `dafny verify dfyconfig.toml` checks the whole project.

## What is modelled

**One concurrent state machine** (`Schema`, `Pipeline`). The state is the database (journal entries with their lines,
idempotency rows, outbox events, projection rows, account balances), every posting transaction in flight, every relay
process with its private backoff map and batch, and a clock. A step is one statement, one commit, one abort, one
publish, one crash or one clock tick, and a run is any finite interleaving of them by any number of requests and
processes. Uncommitted idempotency rows, projection rows and balance rows make other transactions wait; a process can
crash at any step, a commit can succeed without its caller learning of it, two processes can hold the same row, and a
large backoff map is pruned. Several state components are history variables (ids handed out, where an entry came from,
which events were successfully published, how often a process published an event); no step reads them except to pick
a fresh id.

**The invariants and the run theorems** (`PipelineInvariants`, `PostingProof`, `RelayProof`, `BalanceProof`,
`PipelineTheorems`, `ExactlyOnce`, `Idempotency`, `Delivery`, `Conservation`). A theorem about runs holds for every
state of every run, whatever was redelivered, raced, aborted, pruned or lost before, unless it names what it excludes.
`JournalAgreement` joins the machine to the accounting library: its balances against the stored lines and against
balancePerAccount over them. `Witnesses` and `PruneWitness` build the runs in which the code fails its own promises;
`Faults` states which faults every state allows, and builds the runs in which two requests race for a key and in which
an event is delivered twice.

**The services in their own imperative form** (`LedgerService`, `ProjectionService`, `RelayService`, `Reports`,
`FloatDeltas`, `Fusion`): classes and loops proved equal to specification functions. `LedgerService.PostEntryIsARun`,
`ProjectionService.ProjectIsARun` and `RelayRuns.PollIsARun` show that an uninterrupted call of each service is a run
of the state machine with the same result, and `Scripts.PlaysIsARun` turns such a sequence of steps into a run. What a
caller sees of one call on any tables is stated on the rows themselves (`LedgerService.PostingExact`,
`ProjectionService.ProjectExact`, `Claims.ClaimOldestFirst`), next to the equality with the specification function.
`Claims`, `BoundedWaiting`, `Settlement`, `Draining` and `RelayLoop` reason about one relay process poll by poll.

**The accounting library** (`Money`, `Posting`, `Tags`, `Balances`, `TrialBalances`, `Decimal`, `Deltas`), with the
sums of `Legs` as the common reference, a stable sort (`StableSort`), binary64 rounding of integers (`Doubles`) and
the retry delays (`Backoff`).

### Modelling decisions

- Amounts are whole numbers: the posting DTO admits digit strings only. NUMERIC(20,4) holds values below 10^16; a
  statement that would exceed that fails.
- Rounding is the point of one result, so Number arithmetic is explicit. The projection reads each amount with
  parseFloat and adds totals as Numbers; `Doubles.Round` is round-to-nearest, ties-to-even, on non-negative integers
  (section 6.1.6.1 of ECMA-262), and is proved to give a double that no other double beats.
- Account ids are natural numbers in collation order, 0 being the empty string. Ids and creation times are inputs;
  ids are fresh. Relay settings are positive integers and the jitter is any value the random factor allows.
- Publishing succeeds or fails arbitrarily. Events of other kinds can appear at any time.
- The journal starts empty. The seed entry has neither idempotency key nor outbox event and is not part of this model.
- The status column stands for itself and for the two timestamps that every update sets with it.
- An outbox event carries the creation time it was inserted with, and nothing in the machine makes those times
  monotone.

### Where the code does not do what it says

- Conservation of projected balances holds up to amounts of 2^53 and fails above: a debit of 2^53 + 1 against credits
  of 2^53 and 1 is accepted and projects to nets that sum to -1 (`Witnesses.UnevenRun`). `Conservation.CapIsTight`
  gives the exact bound, and `Conservation.NetTotalIsDrift` and `JournalAgreement.RowShowsJournal` the exact error of
  totals and rows in every reachable state.
- The balance sheet's flag compares assets with liabilities plus equity without flipping the credit signs. It holds
  exactly when twice the assets cancel the net of all other account codes (`Reports.BalanceSheetIdentity`), so paid-in
  capital alone turns it off (`Witnesses.CapitalRun`).
- `projectionDeltas` scales amounts with a dot by 10000 and leaves plain integers unscaled
  (`Decimal.FormatsDiffer`: the two texts of an amount agree only at zero).
- `pruneResolved` drops entries that are due, not entries that are resolved, which resets attempt counters
  (`BoundedWaiting.CleanedKeepsCounters`), so a publish that always fails can be retried for ever
  (`PruneWitness.RetriedForEver`). The bounds on attempts and on waiting therefore hold as long as no step prunes,
  which at most 10000 events guarantee; the spacing of retries holds in any case.
- `postEntry` answers an unknown account with a server error: the thrown 404 is caught and replaced. The model answers
  `Failed`.
- The top-level README.md of the repository puts the guard against double projection in
  packages/accounting-core/src/posting.ts; it is in apps/outbox-relay/src/relay/projection.service.ts:122-131, and the
  model follows the code.
- The reports call BigInt on NUMERIC(20,4) text, which has a dot; the nets are modelled as the integers that are meant.

## Model

| member | source | states |
|---|---|---|
| PipelineTheorems.RunInv | apps/outbox-relay/src/relay/projection.service.ts:117-188 | every state of every run satisfies the full invariant: journal, transactions in flight, batches, projection rows and balances belong together |
| PipelineTheorems.StepInv | apps/outbox-relay/src/relay/outbox-relay.service.ts:104-148 | every single step of any component keeps that invariant |
| PipelineTheorems.RunExtends | apps/api/src/ledger/ledger.service.ts:49-86 | over a run the services only ever add entries, lines, keys and projection rows and never change or remove one; an event changes only its status and only while pending, and given replies stay |
| ExactlyOnce.RunRefines | apps/outbox-relay/src/relay/projection.service.ts:117-188 | every run is, step for step, a run of an abstract ledger that can only post an entry or project it once, and every committed state's balances are the fold over exactly the projected entries, amounts as parseFloat reads them, with net = debit - credit |
| ExactlyOnce.ProjectedOnce | apps/outbox-relay/src/relay/projection.service.ts:122-156 | no entry is projected by two commits of a run, whichever processes deliver it however often |
| ExactlyOnce.RowsAreTouchedSlots | apps/outbox-relay/src/relay/projection.service.ts:158-175 | a balance row exists exactly for the accounts a projected line posts to, and carries the currency of such a line |
| ExactlyOnce.ExactLag | apps/outbox-relay/src/relay/projection.service.ts:91-177 | in amounts as parseFloat reads them, journal fold minus balances is the fold over the unprojected entries, each of which has a pending or dead-lettered event |
| ExactlyOnce.QuiescentAgreement | apps/outbox-relay/src/relay/projection.service.ts:91-177 | once every posted event is published every entry is projected and the balances equal the fold over the whole journal, amounts as parseFloat reads them |
| JournalAgreement.RowShowsJournal | apps/outbox-relay/src/relay/projection.service.ts:158-175 | in every reachable state a balance row is the debit, credit and net of the stored lines of the projected entries plus the sum of Round(amount) - amount, hence exactly the stored lines when none on the account exceeds 2^53 |
| JournalAgreement.StoredLag | apps/outbox-relay/src/relay/projection.service.ts:91-177 | the whole stored journal, debit, credit and net, is the balance row plus the stored lines of the unprojected entries, up to the same rounding |
| JournalAgreement.QuiescentJournal | apps/outbox-relay/src/relay/projection.service.ts:91-177 | once every posted event is published a balance row is the whole stored journal, up to the same rounding |
| JournalAgreement.LibraryAgrees | packages/accounting-core/src/balance.ts:32-68 | in every reachable state a balance row is what balancePerAccount computes from the stored lines of the projected entries in any order, up to the same rounding |
| JournalAgreement.QuiescentLibrary | packages/accounting-core/src/balance.ts:32-68 | once every posted event is published and no amount on the account exceeds 2^53, its balance row is what balancePerAccount computes from the whole stored journal |
| Idempotency.RunIsOneToOne | apps/api/src/ledger/ledger.service.ts:49-86 | in every reachable state entries, idempotency rows and posted events correspond one to one within a tenant |
| Idempotency.RepliesAgree | apps/api/src/ledger/ledger.service.ts:36-47 | any two replies that name an entry, at any two moments of a run, name the same journal entry if and only if their requests carry the same tenant and the same key, and that entry is the tenant's |
| Idempotency.CommittedOnce | db/migrations/0001_init.sql:46-52 | two commits of a run differ in tenant or key, so racing posts on one key commit at most one entry |
| Idempotency.ConflictMeansTaken | apps/api/src/ledger/ledger.service.ts:74-94 | in every state of every run, a conflict has only been answered for a key that has a committed entry |
| Idempotency.StoredAsRequested | apps/api/src/ledger/ledger.service.ts:57-86 | what a request commits is what it asked for, line by line, on the tenant's accounts with the requested codes, under its tenant and key, and stays that way for the rest of the run |
| Idempotency.TriggerIsRedundant | db/migrations/0001_init.sql:85-104 | no transaction that reaches its commit through postEntry holds unbalanced lines, so the deferred trigger never rejects one |
| Faults.RaceRun | apps/api/src/ledger/ledger.service.ts:36-94 | from any state two good requests for one unused key have a run in which both pass the key check, one is posted, the other is told that there is a conflict, and the ledger gains one entry |
| Conservation.NetTotalIsDrift | apps/outbox-relay/src/relay/projection.service.ts:158-175 | in every reachable state, mid-catch-up included, the nets of a tenant sum to the rounding drift of its projected entries |
| Conservation.Conserved | apps/outbox-relay/src/relay/projection.service.ts:158-175 | with no amount above 2^53 the nets of every tenant sum to zero in every reachable state |
| Conservation.CapIsTight | apps/outbox-relay/src/relay/projection.service.ts:160-163 | a cap on amounts keeps every balanced entry free of drift if and only if it is at most 2^53 |
| Conservation.UnevenDrifts | apps/outbox-relay/src/relay/projection.service.ts:160-163 | a concrete balanced list of lines whose stored sides are equal and whose parsed sides differ by one |
| Witnesses.UnevenRun | apps/outbox-relay/src/relay/projection.service.ts:77-188 | for any settings a run without crash or database error that posts, publishes and projects those lines and ends with the nets of the tenant summing to -1 |
| Witnesses.AcceptedIsProjected | apps/api/src/ledger/ledger.service.ts:28-100 | every request that an empty ledger accepts and whose figures fit has a run in which its entry is posted, published and projected |
| Delivery.PublishedMeansDone | apps/outbox-relay/src/relay/outbox-relay.service.ts:119-143 | a published event was successfully published at an earlier step, and its entry is projected |
| Delivery.DeliveredBeforeProjected | apps/outbox-relay/src/relay/outbox-relay.service.ts:122-134 | an entry is projected only after its event was successfully published |
| Delivery.SinksAbsorb | apps/outbox-relay/src/relay/outbox-relay.service.ts:201-227 | published and dead_letter are never left, whatever batches crash or race |
| Delivery.RetrySpacing | apps/outbox-relay/src/relay/outbox-relay.service.ts:106-111 | after a failure recorded as attempt k the same process does not claim the event for at least min(base * 2^(k-1), max) ms, pruning included |
| Delivery.RunHoldsBack | apps/outbox-relay/src/relay/outbox-relay.service.ts:237-242 | every step but a restart of the process keeps an event out of its claims until it is due |
| Delivery.PublishBound | apps/outbox-relay/src/relay/outbox-relay.service.ts:211-235 | as long as no step prunes and no statement fails while a failure is recorded or a batch marked, a process publishes an event at most maxAttempts + 1 times, so N events and W processes cause at most W * N * (maxAttempts + 1) publishes |
| Delivery.FewEventsUndisturbed | apps/outbox-relay/src/relay/outbox-relay.service.ts:147 | with at most 10000 events no step of such a run prunes |
| Faults.RedeliveredRun | apps/outbox-relay/src/relay/outbox-relay.service.ts:122-143 | every request that an empty ledger accepts has a run in which its event is published and projected, the process crashes before the mark, and the event is published again without any effect on journal, projection and balances |
| PruneWitness.RetriedForEver | apps/outbox-relay/src/relay/outbox-relay.service.ts:237-242 | with more than 10000 events in one batch, runs without crash or database error in which one process publishes every event any number of times, counts nothing and dead-letters none; past maxAttempts + 1 some step prunes |
| BoundedWaiting.ClaimedInTime | apps/outbox-relay/src/relay/outbox-relay.service.ts:104-179 | as long as no poll prunes, one process claims an eligible event within floor(R / batchSize) + 1 polls, R being the remaining attempts of the events created before it, or with it and with a smaller id; events created later that keep arriving never delay it |
| BoundedWaiting.FewEventsUnpruned | apps/outbox-relay/src/relay/outbox-relay.service.ts:147 | with at most 10000 events no poll prunes |
| BoundedWaiting.PollEffect | apps/outbox-relay/src/relay/outbox-relay.service.ts:119-148 | a poll that does not prune costs every row it claims at least one remaining attempt and leaves every other event and its backoff entry unchanged |
| BoundedWaiting.PollDrops | apps/outbox-relay/src/relay/outbox-relay.service.ts:155-179 | a poll that does not prune and passes an eligible event over takes at least batchSize attempts from R |
| Draining.Drains | apps/outbox-relay/src/relay/outbox-relay.service.ts:104-148 | with nothing arriving and nothing pruned, at most N * (maxAttempts + 1) polls claim anything, and once as many as the remaining attempts have, every event is published or dead-lettered |
| Draining.DrainsWhenDue | apps/outbox-relay/src/relay/outbox-relay.service.ts:104-148 | as many polls as attempts remain, each started after every wait has run out, leave nothing pending |
| BoundedWaiting.CleanedKeepsCounters | apps/outbox-relay/src/relay/outbox-relay.service.ts:237-242 | the end of a batch keeps the attempt counters of unmarked events exactly when the map is at most 10000 entries or nothing counted is due |
| Settlement.RowSettled | apps/outbox-relay/src/relay/outbox-relay.service.ts:119-148 | in a poll that does not prune every claimed row ends published, dead-lettered or waiting with its next attempt counted and timed, as its own publish and projection went and by the attempts counted when the poll started, whatever the other rows did |
| Claims.ClaimUnique | apps/outbox-relay/src/relay/outbox-relay.service.ts:159-170 | the ordered, limited claim query has at most one answer |
| Claims.ClaimExists | apps/outbox-relay/src/relay/outbox-relay.service.ts:159-170 | and at least one |
| Claims.ClaimOldestFirst | apps/outbox-relay/src/relay/outbox-relay.service.ts:159-170 | a claim is exactly a sequence of distinct pending events, not held back and not locked, in ascending order of created_at with ids breaking ties, that leaves an available event out only when it is full of events before it |
| Claims.ClaimRank | apps/outbox-relay/src/relay/outbox-relay.service.ts:159-170 | an available event is claimed if and only if fewer than the limit of available events are older, or as old with a smaller id, and their number is its place in the batch |
| RelayService.OutboxRelay.ProcessOnce | apps/outbox-relay/src/relay/outbox-relay.service.ts:104-148 | one poll leaves exactly the outbox, backoff map and projection tables of the specification `Poll`, and counts itself |
| RelayService.OutboxRelay.DispatchRow | apps/outbox-relay/src/relay/outbox-relay.service.ts:122-139 | publish, project and book-keeping of one row; a failed projection counts as a failed publish |
| RelayService.OutboxRelay.HandleFailure | apps/outbox-relay/src/relay/outbox-relay.service.ts:211-235 | the attempt is counted and scheduled, or the event dead-lettered and forgotten |
| RelayService.OutboxRelay.MarkPublished | apps/outbox-relay/src/relay/outbox-relay.service.ts:201-209 | only pending rows among the ids become published, and exactly the ids leave the backoff map |
| RelayService.OutboxRelay.PruneResolved | apps/outbox-relay/src/relay/outbox-relay.service.ts:237-242 | exactly the entries that are not yet due stay |
| RelayRuns.PollIsARun | apps/outbox-relay/src/relay/outbox-relay.service.ts:104-148 | an undisturbed poll is a run of the state machine that leaves the same tables and backoff map and publishes each claimed row once |
| ProjectionService.Projector.Project | apps/outbox-relay/src/relay/projection.service.ts:77-188 | outcome and tables of one call, on every path, as `Outcomes` states them on the rows |
| ProjectionService.ProjectExact | apps/outbox-relay/src/relay/projection.service.ts:77-188 | on any tables a call projects if and only if the event is journal_entry.posted, its entry is stored and not yet projected, both totals and every running figure fit NUMERIC(20,4); it then adds one projection row and raises exactly the rows of the lines, keeping the currencies of old rows; it skips, recognises or throws exactly in the other cases and changes nothing |
| ProjectionService.Projector.RunningTotals | apps/outbox-relay/src/relay/projection.service.ts:108-115 | both totals with every addition rounded to a double |
| ProjectionService.UpsertsAdd | apps/outbox-relay/src/relay/projection.service.ts:158-175 | the per-line upserts of an entry add to each row exactly what its lines post there, net being debit minus credit |
| ProjectionService.RedeliveryIsIdempotent | apps/outbox-relay/src/relay/projection.service.ts:122-131 | after a projection the same envelope is recognised and changes nothing |
| ProjectionService.FloatTotalExact | apps/outbox-relay/src/relay/projection.service.ts:108-115 | the projection loop's total of a side equals the integer total whenever that is at most 2^53 |
| ProjectionService.ProjectedRowExact | apps/outbox-relay/src/relay/projection.service.ts:133-149 | in every reachable state a projection row counts its entry's lines and, up to 2^53, shows its two equal totals |
| ProjectionService.FloatTotalLoses | apps/outbox-relay/src/relay/projection.service.ts:108-115 | the bound is tight and the rounding per addition: 2^53 and twice 1 total to 2^53 although the true sum is a double |
| ProjectionService.FloatTotalNext | apps/outbox-relay/src/relay/projection.service.ts:108-115 | a further line is rounded itself and then once more in the sum of its side, and leaves the other side |
| ProjectionService.ProjectIsARun | apps/outbox-relay/src/relay/projection.service.ts:77-188 | an uninterrupted call is a run of the state machine with the same outcome and tables |
| FloatDeltas.ComputeDeltas | apps/outbox-relay/src/relay/projection.service.ts:193-203 | per account the double totals of its lines and the currency of its first line |
| FloatDeltas.FloatOnIsFloatTotal | apps/outbox-relay/src/relay/projection.service.ts:193-203 | on each account the helper adds up, rounding for rounding, as the projection loop does on the lines of that account alone |
| FloatDeltas.FloatOnExact | apps/outbox-relay/src/relay/projection.service.ts:193-203 | a double total of an account's side is exact whenever the true sum is at most 2^53 |
| FloatDeltas.HelpersAgree | packages/accounting-core/src/balance.ts:139-175 | computeDeltas and projectionDeltas agree on every such account up to the scale of the text format |
| Doubles.RoundIsDouble | apps/outbox-relay/src/relay/projection.service.ts:112 | rounding yields a significand of at most 53 bits times a power of two |
| Doubles.RoundNearest | apps/outbox-relay/src/relay/projection.service.ts:112 | no double is nearer to the exact value than the rounded one |
| Doubles.RoundTies | apps/outbox-relay/src/relay/projection.service.ts:112 | of two equally near doubles the result is the one with the even significand |
| LedgerService.Ledger.PostEntry | apps/api/src/ledger/ledger.service.ts:28-100 | reply and tables of one call, on every path, as `Replies` states them on the rows |
| LedgerService.PostingExact | apps/api/src/ledger/ledger.service.ts:28-100 | on any tables a request is refused if and only if it is unbalanced; a balanced one is answered with the stored entry if and only if its (tenant, key) has one, and otherwise fails if and only if some line has no account or an amount out of range; else its entry is posted line by line and the key index gains exactly that pair, the outbox exactly one pending event |
| LedgerService.Ledger.ValidateBalance | apps/api/src/ledger/ledger.service.ts:213-224 | true exactly when the debit amounts of the request add up to its credit amounts |
| LedgerService.RepeatIsCached | apps/api/src/ledger/ledger.service.ts:36-47 | a repeated request answers with the first entry's id and changes nothing |
| LedgerService.PostEntryIsARun | apps/api/src/ledger/ledger.service.ts:28-100 | an uninterrupted call is a run of the state machine with the same reply and tables |
| RelayLoop.LoopIsARun | apps/outbox-relay/src/relay/outbox-relay.service.ts:91-102 | the poll loop of one process that nothing interferes with is a run of the state machine: its polls start from and leave the machine's tables and backoff map, and every claim is one publish |
| Backoff.DelayMonotone | apps/outbox-relay/src/relay/outbox-relay.service.ts:228 | the delay never falls with more attempts and never exceeds the cap |
| Backoff.DelayWithJitter | apps/outbox-relay/src/relay/outbox-relay.service.ts:228-230 | each wait lies between the delay and the cap plus jitterRatio * base |
| Backoff.TotalDelayClosedForm | apps/outbox-relay/src/relay/outbox-relay.service.ts:228 | n waits without jitter total base * (2^K - 1) + (n - K) * max, K counting the uncapped terms |
| Backoff.UncappedIsPrefix | apps/outbox-relay/src/relay/outbox-relay.service.ts:228 | the uncapped terms are the first ones |
| Reports.TrialBalance | apps/api/src/ledger/reports.service.ts:74-87 | both totals, their difference as the sum of all nets, and the flag exactly when that sum is zero |
| Reports.TrialBalanceExact | apps/api/src/ledger/reports.service.ts:51-87 | the debit total is the sum of the nets of the tenant's accounts with a net of zero or more, and the credit total minus that of the accounts with a negative one, each over the chart |
| Reports.ReportRowsExact | apps/api/src/ledger/reports.service.ts:51-91 | in every reachable state a report row shows its account's code and the debit, credit and net of the stored lines of the projected entries, rounding included |
| Reports.TrialBalanceShowsDrift | apps/api/src/ledger/reports.service.ts:51-91 | in every reachable state the two totals of a tenant differ by exactly the drift of its projected entries |
| Reports.TrialBalanceBalances | apps/api/src/ledger/reports.service.ts:51-91 | with no amount above 2^53 every reachable state, mid-catch-up included, reports equal totals |
| Reports.BalanceSheetIdentity | apps/api/src/ledger/reports.service.ts:94-108 | assets + liabilities + equity + all other codes sum to the drift and the flag holds exactly when 2 * assets = drift - net of all other codes; without large amounts the drift is zero |
| Reports.BalanceSheetExact | apps/api/src/ledger/reports.service.ts:94-108 | total assets, liabilities and equity are each the sum of the nets of the tenant's accounts whose code starts with 1, 2 and 3, and the flag compares the first with the sum of the others |
| Reports.SheetShowsJournal | apps/api/src/ledger/reports.service.ts:94-108 | in every reachable state each of the three totals is that of the stored lines of the projected entries, rounding included |
| Reports.PaidInCapitalTurnsFlagOff | apps/api/src/ledger/reports.service.ts:107-108 | two report rows that balance and whose flag is false |
| Witnesses.CapitalRun | apps/api/src/ledger/reports.service.ts:94-108 | for any settings and any amount up to 2^53 a run that posts and projects paid-in capital and whose report is those rows: equal totals, flag off |
| Posting.AcceptanceExact | packages/accounting-core/src/posting.ts:23-71 | an entry is accepted if and only if header, lines, sides and balance are right; its totals are then equal, positive and exact and its header fields unchanged |
| Posting.RejectionExact | packages/accounting-core/src/posting.ts:24-71 | for each error code exactly which entries get it, line errors by account, sign and currency of the first faulty line |
| Posting.BookingDateExact | packages/accounting-core/src/posting.ts:5-28 | a booking date is four, two and two digits with hyphens between them and nothing else |
| Posting.SideTotals | packages/accounting-core/src/posting.ts:54-64 | past the side check sumMoney cannot fail, and each total is the positive sum of its side |
| Posting.CanonicalOrder | packages/accounting-core/src/posting.ts:73-78 | the output lines are the input lines by ascending account, on one account debits before credits, on one account and side by ascending amount, lines alike in all three in their input order |
| Posting.CanonicalUnique | packages/accounting-core/src/posting.ts:73-78 | any two orders of the same lines are accepted or rejected together and give the same output sequence once memos are dropped |
| Money.SumMoneyExact | packages/accounting-core/src/money.ts:17-37 | the sum is exact in the first item's currency, or the error is the one for an empty list or a mixed one |
| Money.MakeMoneyExact | packages/accounting-core/src/money.ts:4-15 | money() keeps the amount and accepts exactly three capital letters as a currency |
| Balances.BalancePerAccount | packages/accounting-core/src/balance.ts:32-68 | result or error of the two loops equals the specification `PerAccount` |
| Balances.TotalsExact | packages/accounting-core/src/balance.ts:32-76 | every account with lines has the two exact sums of them and their difference, debit minus credit, as net, and only those accounts are present |
| Balances.CurrencyOfLines | packages/accounting-core/src/balance.ts:36-57 | the balance of an account is in the currency of each of its lines |
| Balances.OrderOfAppearance | packages/accounting-core/src/balance.ts:36-66 | balances stand in the order in which their accounts first appear |
| Balances.BalanceErrors | packages/accounting-core/src/balance.ts:32-66 | two currencies on one account give CURRENCY_MISMATCH; otherwise no lines or an invalid currency give INVALID_INPUT; nothing else fails |
| Balances.ConcatSucceeds | packages/accounting-core/src/balance.ts:32-68 | concatenated lines have balances exactly when each non-empty part has and they agree on currencies |
| Balances.BalancesOfConcat | packages/accounting-core/src/balance.ts:32-68 | balances of concatenated lines are the pointwise sums of the parts |
| TrialBalances.TrialBalanceFromMap | packages/accounting-core/src/balance.ts:87-126 | rows, totals, flag or error equal the specification `Trial` |
| TrialBalances.TrialBalanceFromLines | packages/accounting-core/src/balance.ts:82-85 | the same from raw lines, errors of either step included |
| TrialBalances.TrialExact | packages/accounting-core/src/balance.ts:82-126 | lines have a trial balance if and only if they are in one valid currency; it has one row for every account with lines, ascending, with the two sums of those lines, the two sides as totals, and the flag exactly when these are equal |
| TrialBalances.TrialErrors | packages/accounting-core/src/balance.ts:82-101 | which of the two errors lines without a trial balance give |
| TrialBalances.ColumnIsSide | packages/accounting-core/src/balance.ts:103-115 | a column total over all accounts is that side of all lines |
| TrialBalances.HistoryBalances | packages/accounting-core/src/balance.ts:32-126 | any non-empty history of validated entries in one valid currency has a trial balance that is sorted, balanced and totals the entry totals |
| Decimal.DottedIsFloor | packages/accounting-core/src/balance.ts:152-158 | a dotted amount parses to its value in 1/10000 units, exact up to four fraction digits and rounded down beyond |
| Decimal.SignedDotted | packages/accounting-core/src/balance.ts:152-158 | a sign in front of a dotted amount gives its value that sign, the magnitude rounded down |
| Decimal.DotlessParses | packages/accounting-core/src/balance.ts:145-161 | without a dot exactly digit strings parse, with or without one sign in front, unscaled |
| Decimal.ManyDotsFail | packages/accounting-core/src/balance.ts:152-161 | a text with two dots or more does not parse |
| Decimal.RoundTrip | packages/accounting-core/src/balance.ts:142-162 | printing n units as whole part, dot and four digits and parsing them gives back n |
| Decimal.PlainRoundTrip | packages/accounting-core/src/balance.ts:145-146 | printing n as plain digits and parsing them gives back n, unscaled |
| Decimal.FormatsDiffer | packages/accounting-core/src/balance.ts:145-161 | the plain and the four-decimal text of one amount parse alike only when it is zero |
| Deltas.ProjectionDeltas | packages/accounting-core/src/balance.ts:139-175 | the delta map of the parsed lines, or the error of the first amount that does not parse |
| Deltas.DeltasParse | packages/accounting-core/src/balance.ts:139-162 | the function fails exactly when some amount does not parse |
| Deltas.DeltasExact | packages/accounting-core/src/balance.ts:164-174 | exactly the accounts with lines have a delta: the two sums of their parsed amounts, in the currency of their first line |
| Deltas.UpsertAllExact | packages/accounting-core/src/balance.ts:139-175 | one upsert per line does to any table what applying the delta map once per account does |
| Deltas.FusionInAnyOrder | packages/accounting-core/src/balance.ts:139-175 | the same for the lines in any order: same rows, same figures |
| Fusion.UpsertsAreDeltas | apps/outbox-relay/src/relay/projection.service.ts:158-175 | the upserts that the projection runs, in any order of the lines, add to each balance row of the tenant exactly the delta of projectionDeltas over the scale of the text format, net being debit minus credit, for amounts up to 2^53 |
| Fusion.OtherTenantsStay | apps/outbox-relay/src/relay/projection.service.ts:158-175 | and leave the rows of other tenants alone |
| Deltas.DeltasAreScaledBalances | packages/accounting-core/src/balance.ts:139-175 | for lines in one decimal format the deltas are the balances of balancePerAccount times the format's scale |
| Deltas.FormatScales | packages/accounting-core/src/balance.ts:145-158 | the scale is 10000 for four-decimal texts and 1 for plain digits |

## Left out

- RelayService.OutboxRelay.ProcessOnce: models a poll whose claim, dead-letter and mark statements succeed; their failures, crashes and interference are steps of `Pipeline`.
- ProjectionService.Projector.Project: models one call that nothing interferes with; locks, races and aborts are steps of `Pipeline`.
- LedgerService.Ledger.PostEntry: models one call that nothing interferes with; races, conflicts and lost acknowledgements are steps of `Pipeline`.
- PipelineTheorems.RunExtends: no UPDATE or DELETE of a ledger row is a step of the machine, so the rejection of one by forbid_mutation is not modelled.
- BoundedWaiting.ClaimedInTime: assumes that no poll prunes and the process does not restart, because both reset attempt counters.
- Delivery.PublishBound: assumes that no step prunes and that no statement fails while a failure is recorded or a batch is marked; a process that restarts starts a new count.
- Fusion.UpsertsAreDeltas: assumes that the upserts succeed; whether every figure on the way fits its column can depend on the order.
- Reports.TrialBalance: takes the rows of the query as given; their order does not matter to the totals and is left open.
- FloatDeltas.ComputeDeltas: takes amounts as the stored whole numbers, not as arbitrary text or Number input.
- Decimal: JavaScript BigInt literals with whitespace, 0x, 0o or 0b prefixes are not admitted as amounts.
- Money: the Number overload of money() and its safe-integer check.
- Currencies are not checked by posting or projection; a balance row keeps the currency of its first line, and mixed-currency entries are summed as the code sums them.
- Deadlock detection is not modelled as such: any projection may abort at any statement.
- HTTP delivery, timeouts and headers of the publisher: only success or failure matters.
- Row-level security, roles and grants: tenant is a data field.
- The income statement, the ledger export, the account hierarchy and the list and get endpoints: SQL over a store, with only easy properties.
- GraphQL, Kafka mocks, SMS, notifications, the web interface, install, backup and status scripts: input and output only.
- Nest modules, connection pools, logging, ensureTables, the poll sleep and the running flag: plumbing.
