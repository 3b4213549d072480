# Verified models of the ledger, the idempotency wrapper, one-time codes, the outbox relay and price lists

This project models the logic of the back-office platform whose protocols are the hardest to see
through by reading one function: five protocols between concurrent database sessions, and the decimal
arithmetic they share. Every property is proved for all inputs, all runs and all interleavings of the
model. Nothing was executed.

`dafny verify dfyconfig.toml` checks the whole project.

## How the system is modelled

A protocol is a function `Step` over a committed database and a map of open transactions. Each
transaction holds a private buffer and the locks its statements took; one action is one SQL statement
(or one commit, one rollback, one crash) of one session. A read sees the committed rows of that instant,
as READ COMMITTED does. A statement that would block `Waits`: the state does not change, and the same
action may be taken again later. A refusal rolls the transaction back. `Run` folds a list of actions, so
a theorem about `Run` is about every interleaving, including rollbacks at any point. The invariants are
proved statement by statement and then for every run.

The commands are also written as methods on a class that holds the tables and the open transactions.
Each statement is a method that makes its own checks and writes and is proved to be the machine's
statement; a command is its statements in order, up to the first that is refused or waits (`Call`).
Wherever it stops it has run some of its statements (`CallIsRun`), so what holds of every interleaving
holds of commands. A command's contract takes its outcome, the first refusal included, from the machine,
and says outright under which conditions on the old tables it goes through and what they then hold.

| files | component |
|---|---|
| `Decimal` | `Money`, `Quantity`, `toMilli` and the amount patterns |
| `Journal`, `Periods` | the pure rules of journal entries and of accounting periods |
| `Billing`, `BillingInvariant`, `BillingSafety`, `BillingBalance`, `BillingCommands` | posting, adjusting, reversing, and the period commands as one concurrent system |
| `CanonicalJson`, `RequestHash` | `canonicalize`, `JSON.stringify` and the request hash |
| `Idempotency`, `IdempotencySafety` | `withIdempotentContext` |
| `Otp`, `OtpInvariant`, `OtpSafety`, `OtpStore` | issuing and verifying one-time codes, sessions |
| `Login`, `LoginSafety` | the login flows: one-time codes run inside the idempotent wrapper |
| `Relay`, `RelaySafety`, `RelayLoop` | the outbox relay, its registry and the worker loop |
| `TierLadder`, `PriceList`, `PriceListStore` | tier ladders, and the upsert and import of price list lines |
| `Outcomes` | optional values, results, and how far a command got |

## What the proofs found

* Idempotency: the branches for a missing row and for a null response cannot be reached; an in-flight
  refusal is always the advisory lock. The comment that a second call blocks on the lock is not what the
  code does: `pg_try_advisory_xact_lock` returns at once and the call is refused, which is what is
  modelled. No property needs a clock that only moves forward: a key is run again only after the clock
  has shown, at some time, an instant past the expiry of the first run.
* Reversal: of the refusals of the locked mark that no repository maps to a typed error, none can occur;
  only the scope check and the two races are left, each with its own error. A reverser that loses a
  race leaves no entry behind. The original's lines are read in the order of their random ids; nothing
  depends on it.
* Reopening: a period is closed exactly when its version is even, so the machine never refuses a
  reopening whose version check passed.
* One-time codes: the resend spacing holds for any clock, with a correction term for edits of the
  expiry. If the expiry is only ever lowered, the spacing and the hourly cap hold exactly. If it is
  raised, they need not hold, as the source admits: a concrete run is given, and for each limit the
  exact condition, on the issues so far and the limits now in force, under which its query still
  enforces it at every instant. A raised expiry alone does not break the cap: it does so exactly when
  some stretch of issues uses the cap up by their true instants but not by the derived ones. The cap is
  for half-open hours: an issue exactly one hour old is not counted.
* Price lists: an upsert validates the touched service only, yet the whole list stays valid, so the
  ladder check of an activation never refuses. Duplicate rows of an import need no extra assumption:
  the ladder check refuses them.

## Model

| member | source | states |
|---|---|---|
| Decimal.MatchesUnsignedIsGrammar | packages/domain-kit/money.ts:11-17 | the model's test by splitting at the point is the regular expression, digit groups and lengths included |
| Decimal.PrintedAmountMatches | packages/domain-kit/money.ts:13-48 | a printed amount matches the pattern exactly when it is within the 14-digit bound |
| Decimal.ParsePrinted | packages/domain-kit/money.ts:24-48 | parsing what was printed gives the amount back, for every amount in range |
| Decimal.PrintParsedIsCanonical | packages/domain-kit/quantity.ts:25-49 | every accepted string parses within the bound, and its printed form is stable under parsing again |
| Decimal.SameAmountIffSameCanonical | packages/domain-kit/quantity.ts:25-49 | two accepted strings are one amount exactly when their printed forms are equal |
| Decimal.DivRoundIsNearest | packages/domain-kit/money.ts:66-81 | the quotient is a nearest integer, ties away from zero, in the denominator-1 shortcut too |
| Decimal.NearestIsUnique | packages/domain-kit/money.ts:66-81 | nearest with ties away from zero determines the result |
| Decimal.DivRoundOdd | packages/domain-kit/money.ts:66-81 | negating the numerator negates the rounded quotient |
| Decimal.DivRoundScales | packages/domain-kit/money.ts:66-81 | scaling numerator and denominator together changes nothing |
| Decimal.ScalarDenotes | packages/domain-kit/money.ts:50-64 | `parseScalar` reads the real number that the text denotes by place value |
| Decimal.AmountDenotes | packages/domain-kit/money.ts:24-40 | and `parseAmount` reads it in thousandths |
| Decimal.MultiplyRounds | packages/domain-kit/money.ts:134-143 | the product is the amount times the number the scalar's text denotes, rounded to the nearest thousandth, ties away from zero; refused exactly for a malformed scalar or a product that does not fit |
| Decimal.SameValueSameProduct | packages/domain-kit/money.ts:50-81 | scalars that denote one number, such as "2" and "2.000", give one product, the denominator-1 shortcut included |
| Decimal.MultiplyOdd | packages/domain-kit/quantity.ts:131-140 | negating either operand negates the result, refusals included |
| Decimal.MultiplyIgnoresTrailingZeros | packages/domain-kit/money.ts:50-64 | zeros appended after the point, or after a point where there was none, never change the product |
| Decimal.ToMilliIsQuantity | modules/billing/domain/post-journal/invariants.ts:25-44 | `toMilli` accepts exactly the unsigned amounts `Quantity.of` accepts, with the same value |
| Decimal.PositivePatternIsPositive | packages/contracts/billing/post-journal.ts:35-39 | the positive-amount pattern accepts exactly the amounts above zero |
| Decimal.ToMilliPrinted | modules/billing/domain/post-journal/invariants.ts:36-44 | `toMilli` reads back every printed amount |
| Journal.AssertBalancedIsCommitCheck | modules/billing/domain/post-journal/invariants.ts:50-82 | lines pass the application check exactly when every amount is well formed and the stored rows pass the trigger at COMMIT |
| Journal.TotalsAreColumnSums | modules/billing/domain/post-journal/invariants.ts:46-62 | the totals of the texts are the sums of the stored columns |
| Journal.ContractIsConstraint | packages/contracts/billing/post-journal.ts:55-62 | the contract's one-side-only rule is the stored rows' constraint |
| Journal.ReadBackIsCanonical | modules/billing/infrastructure/post-journal/ledger.ts:18-66 | reading back an appended line gives it in canonical form, zero side omitted, storing to the same columns |
| Journal.MirroredReadBack | modules/billing/infrastructure/post-journal/ledger.ts:40-66 | rows read in whatever order, mirrored and stored again are, row for row, the stored rows with the columns swapped, and fit the constraint |
| Journal.MirrorTwice | modules/billing/domain/post-journal/invariants.ts:84-96 | mirroring twice is the identity, on lines and on rows |
| Journal.MirrorEffect | modules/billing/domain/post-journal/invariants.ts:84-96 | mirrored rows negate every account's effect and swap the column sums |
| Journal.MirrorsEffect | modules/billing/infrastructure/post-journal/ledger.ts:49-56 | and so do they in any order of the rows |
| Journal.LineAccountsAccepted | modules/billing/domain/post-journal/invariants.ts:107-131 | accepted exactly when every line's account is of the entity and postable |
| Periods.AdvancePeriodStatus | modules/billing/domain/accounting-periods/machine.ts:103-120 | the loop of events is the transition function iterated, refused at the first illegal event |
| Periods.AdvanceAppend | modules/billing/domain/accounting-periods/machine.ts:97-120 | advancing by two lists of events is advancing by one after the other |
| Periods.ClosedByParity | modules/billing/domain/accounting-periods/machine.ts:40-72 | along any legal path a period is closed at the end exactly when it was at the start and the number of events is even, or it was not and the number is odd |
| Periods.OpenPeriodIsPostingRule | modules/billing/application/post-journal/post-journal.ts:59-76 | naming a period and checking it accepts exactly what the pure posting rule accepts, for non-overlapping periods |
| Periods.PostingRuleIgnoresOrder | modules/billing/domain/accounting-periods/invariants.ts:28-40 | the covering period and the verdict do not depend on the order of the list |
| BillingInvariant.StepKeeps | modules/billing/infrastructure/post-journal/repository.ts:92-158 | every statement of every session keeps the ledger invariant, whether it moves, waits or is refused |
| BillingInvariant.RunKeeps | modules/billing/application/post-journal/reverse-journal.ts:47-129 | and so does every interleaving |
| BillingSafety.ReversalsAreSound | modules/billing/application/post-journal/reverse-journal.ts:54-89 | an entry has at most one reverser, which mirrors it row for row and reverses nothing else; `reversed_by` is acyclic; every entry balances |
| BillingSafety.NoOrphans | modules/billing/application/post-journal/reverse-journal.ts:47-129 | a reverser that loses its race leaves nothing: every committed entry was announced by a posting or an adjustment, or else is the one reverser of exactly one entry |
| BillingSafety.OutboxTellsReversals | modules/billing/application/post-journal/reverse-journal.ts:86-113 | the outbox holds exactly one reversal event for each committed reversal and none besides |
| BillingSafety.MarkIsRefusedOnlyTyped | database/migrations/0041_2_post-journal.sql:370-440 | the mark refuses only by scope, by a lost race or by a stale version, and goes through exactly otherwise |
| BillingSafety.CommitIsNeverRefused | database/migrations/0041_2_post-journal.sql:110-160 | the deferred balance trigger never refuses a finished command |
| BillingSafety.ReverseInsertRefusedIff | modules/billing/application/post-journal/post-journal.ts:105-133 | a reverser's insert meets a database refusal exactly when its period is not open for the date or an account is refused |
| BillingSafety.PostedEntriesAreImmutable | database/migrations/0041_2_post-journal.sql:230-259 | over any run entries are only added, and of an entry only the mark is written, once |
| BillingSafety.OnlyCommitsPublish | modules/billing/application/post-journal/post-journal.ts:135-176 | no statement but a commit or a verdict changes what others can see |
| BillingSafety.PostingCommitsIntoOpenPeriod | modules/billing/application/post-journal/post-journal.ts:59-76 | at the commit of every posting its period is open and the only one covering its date |
| BillingSafety.ClosedRangeGainsNothing | modules/billing/application/accounting-periods/close-period.ts:40-91 | while a closed period's version stands, its date range gains no entry |
| BillingSafety.LockedRangeIsFinal | modules/billing/application/accounting-periods/lock-period.ts:40-91 | a locked period never changes and its range never gains an entry |
| BillingSafety.DecisionIsSpentOnce | modules/billing/application/accounting-periods/apply-period-reopen-decision.ts:54-102 | a decision reopens at most once in any run, and only its own period |
| BillingSafety.ReopenEdgeIsAlwaysLegal | modules/billing/application/accounting-periods/apply-period-reopen-decision.ts:75-83 | closed means an even version, so the machine refuses no reopening whose version matched |
| BillingBalance.BalanceByChainsAlways | modules/billing/domain/post-journal/invariants.ts:84-96 | in every reachable state each account's balance is the sum over reversal chains of the head's amount for odd lengths and zero for even ones |
| BillingBalance.TrialBalance | database/migrations/0041_2_post-journal.sql:110-160 | after every commit of every interleaving total debit equals total credit |
| BillingBalance.BalanceByChains | modules/billing/domain/post-journal/invariants.ts:84-96 | the same in any state that satisfies the invariant |
| BillingBalance.ReversalUndoes | modules/billing/application/post-journal/reverse-journal.ts:54-89 | committing a reversal takes its original's effect out of every account |
| BillingCommands.PostableIff | modules/billing/application/post-journal/post-journal.ts:79-103 | the checks before any write pass exactly under the listed conditions |
| BillingCommands.Database.AppendLines | modules/billing/infrastructure/post-journal/ledger.ts:18-38 | the insert loop stores one row per line in order, or fails on the first malformed amount |
| BillingCommands.Database.InsertPostedEntry | modules/billing/application/post-journal/post-journal.ts:105-133 | the entry with its rows, exactly when the period is open, covers the date and is not being moved, the accounts are accepted and the rows are storable; it waits exactly for a covering period that is being moved |
| BillingCommands.Database.PostNewEntry | modules/billing/application/post-journal/post-journal.ts:135-176 | the new tables or nothing; done exactly for a postable and insertable entry whose period nobody is moving, waiting exactly when somebody is |
| BillingCommands.Database.PostJournal | modules/billing/application/post-journal/post-journal.ts:178-188 | a posted entry and its event, or nothing |
| BillingCommands.Database.AdjustJournal | modules/billing/application/post-journal/adjust-journal.ts:30-40 | the entry type is replaced by an adjustment and the event says so |
| BillingCommands.Database.ReverseJournal | modules/billing/application/post-journal/reverse-journal.ts:47-129 | the mirrored entry, the mark and the event together, exactly when the original is reversible and neither it nor the period is held; the machine's first refusal otherwise, and no row |
| BillingCommands.Database.MovePeriod | modules/billing/application/accounting-periods/close-period.ts:40-91 | close and lock: the new status, the version raised by one and one event, exactly under version, role, edge and lock; nothing otherwise |
| BillingCommands.Database.RequestReopenPeriod | modules/billing/application/accounting-periods/request-reopen-period.ts:31-70 | files a decision for the current version, exactly of a closed period that nobody holds, and leaves the period alone |
| BillingCommands.Database.ApplyPeriodReopenDecision | modules/billing/application/accounting-periods/apply-period-reopen-decision.ts:46-117 | the period is open again with its version raised exactly for an approved decision of another's request, filed for the current version of a closed period; the row trigger never refuses |
| BillingCommands.Database.OpenNewPeriod | modules/billing/application/accounting-periods/open-period.ts:37-91 | a period is added exactly when it is in its fiscal year, not inverted and overlaps none, committed or in flight |
| CanonicalJson.SameFormIffSameMeaning | packages/api-kit/index.ts:77-87 | two values have one canonical form exactly when they differ by key order only, at any depth |
| CanonicalJson.CanonicalizeKeepsMeaning | packages/api-kit/index.ts:77-87 | canonicalizing changes nothing but key order |
| CanonicalJson.CanonicalizeTwice | packages/api-kit/index.ts:77-87 | canonicalizing is idempotent |
| CanonicalJson.CanonicalizeInOrder | packages/api-kit/index.ts:77-87 | the recursive loop that fills the sorted object computes the canonical form |
| RequestHash.PrintingIsPrefixFree | packages/api-kit/index.ts:89-92 | no printed value is the beginning of another, escapes and lone surrogates included |
| RequestHash.SameHashIffSameMeaning | packages/api-kit/index.ts:89-92 | with an injective digest one hash means one logical body |
| Idempotency.StepKeeps | packages/db/src/idempotency.ts:95-166 | every statement, rollback and purge keeps the invariant of the key table |
| Idempotency.RunKeeps | packages/db/src/idempotency.ts:83-167 | and so does every interleaving |
| IdempotencySafety.AtMostOncePerLiveKey | packages/db/src/idempotency.ts:109-131 | a second run under a key claims it only after the clock, which may step back, has shown an instant past the first run's expiry |
| IdempotencySafety.RowsCarryTheirRun | packages/db/src/idempotency.ts:155-166 | no committed row lacks its response, and the response is that of a committed run |
| IdempotencySafety.InFlightIsTheLock | packages/db/src/idempotency.ts:95-153 | the missing-row and null-response branches are unreachable; in-flight is always the lock |
| IdempotencySafety.ClaimNeverWaits | packages/db/src/idempotency.ts:109-131 | under the advisory lock the upsert never meets a row another claim holds |
| IdempotencySafety.OnlyCommitsPublish | packages/db/src/with-context.ts:54-87 | a rolled-back call leaves no row, no effect and no answer |
| IdempotencySafety.RepliesAreSound | packages/db/src/idempotency.ts:129-155 | every answer is the result of a committed run of that same request, live when a replayed call began |
| IdempotencySafety.LiveRowStays | packages/db/src/idempotency.ts:109-131 | until the clock has shown a key's expiry its row stays as stored, whatever happens meanwhile |
| IdempotencySafety.LiveKeyReplays | packages/db/src/idempotency.ts:129-155 | every call completing under a live key gets the stored result, replayed |
| IdempotencySafety.LiveKeyRunsNothing | packages/db/src/idempotency.ts:109-166 | no run is added under a live key |
| IdempotencySafety.KeyTable.WithIdempotentContext | packages/db/src/idempotency.ts:83-167 | each refusal under its exact condition and without a trace; a live key's stored result; or the run, its row and its answer together; it never waits |
| IdempotencySafety.KeyTable.ClaimOrReplay | packages/db/src/idempotency.ts:95-153 | in flight exactly when the lock is taken, mismatch exactly when the key is live for another request, the stored response exactly when it is live for this one, leave to run otherwise |
| IdempotencySafety.ReplayIsDecidedByMeaning | packages/api-kit/index.ts:94-108 | a live key replays exactly for the same endpoint and a body of the same meaning, else mismatch |
| OtpInvariant.StepKeeps | packages/identity/src/otp.ts:215-286 | every statement keeps the invariant of codes, histories and sessions |
| OtpInvariant.RunKeeps | packages/identity/src/otp.ts:371-425 | and so does every interleaving under every clock |
| OtpSafety.IssuesAreSpaced | packages/identity/src/otp.ts:238-279 | the exact spacing of two issues for one email, with the correction for edits of the expiry |
| OtpSafety.HourlyCapHolds | packages/identity/src/otp.ts:238-272 | no hour, wherever placed, holds more issues than the cap, if the expiry is only ever lowered |
| OtpSafety.ResendHoldsIff | packages/identity/src/otp.ts:201-208 | in any reachable state the resend rule lets nothing through early, at any instant, exactly when every issue is outlasted under the expiry now in force |
| OtpSafety.HourlyCapHoldsIff | packages/identity/src/otp.ts:253-272 | in any reachable state the hourly query lets nothing through above the cap, at any instant, exactly when from no issue on the cap is used up by the true issue instants but not by the derived ones |
| OtpStore.RaisingTheExpiryBreaksBothLimits | packages/identity/src/otp.ts:201-208 | a run in which raising the expiry lets a second code through at once, past resend interval and cap |
| OtpSafety.OneLiveCode | database/migrations/0044_M_identity-write-definers.sql:87-107 | at most one code of an email is unconsumed, and it is the last one issued |
| OtpSafety.ScanIsLastIssued | packages/identity/src/otp.ts:381-422 | the scan over all live rows is the check of the last code issued |
| OtpSafety.AttemptsAreBounded | packages/identity/src/otp.ts:350-360 | no code absorbs more wrong guesses than the largest maximum in force |
| OtpSafety.GuessesAreBounded | packages/identity/src/otp.ts:371-422 | in a stretch with k issues at most (k + 1) times the maximum wrong guesses are recorded |
| OtpSafety.OneSessionPerCode | packages/identity/src/session.ts:99-137 | sessions and the codes that earned them correspond one to one |
| OtpSafety.SessionConsumesItsCode | packages/identity/src/login.ts:176-196 | a session appears only in the commit that consumes a live code presented with its hash |
| OtpStore.GenerateRuns | packages/identity/src/otp.ts:215-286 | the statements of an admitted request that nobody interrupts are a run that commits exactly the new code |
| OtpStore.Store.GenerateOtp | packages/identity/src/otp.ts:215-286 | each refusal under its exact condition, leaving nothing; else earlier live codes consumed at the issue instant, the new one stored, nothing else touched |
| OtpStore.Store.FindMatch | packages/identity/src/otp.ts:404-405 | the linear scan finds the first matching candidate in id order, or none |
| OtpStore.Store.VerifyOtpInTx | packages/identity/src/otp.ts:371-425 | the first live code of an active owner with the hash, or none; what is buffered is the match's consumption, an attempt on every candidate, or nothing |
| OtpStore.Store.VerifyOtp | packages/identity/src/otp.ts:431-440 | valid exactly when a live code of an active owner has the hash: it is consumed and nothing else changes; otherwise every live code of an active owner counts one attempt |
| OtpStore.Store.VerifyAndIssue | packages/identity/src/login.ts:176-196 | the code consumed and its owner's session created together, or an attempt counted and no session |
| Login.RunsAreRuns | packages/identity/src/login.ts:116-202 | seen from either side a run of the flows is a run of that protocol alone |
| Login.StepKeepsCoupled | packages/identity/src/login.ts:171-196 | a session that only replays has touched no code; one with a response has finished its command |
| Login.RunKeeps | packages/identity/src/login.ts:116-202 | every interleaving keeps both protocols, their coupling and their histories |
| LoginSafety.SessionsAreRuns | packages/identity/src/login.ts:158-202 | every session is the result of exactly one committed run |
| LoginSafety.SessionsAreCodes | packages/identity/src/login.ts:158-202 | and of exactly one consumed code |
| LoginSafety.ValidRunsHaveSessions | packages/identity/src/login.ts:176-196 | a run that answered valid created its session |
| LoginSafety.ReplayTouchesNothing | packages/identity/src/login.ts:171-202 | a replay changes no code, no counter and no session, and hands out no secret |
| LoginSafety.LiveKeyHandsNothing | packages/identity/src/login.ts:145-157 | while a key is live every answer is the stored one without a token, whatever code is presented |
| LoginSafety.SecretsAreHandedOnce | packages/identity/src/login.ts:29-37 | no code and no token is handed out twice, and each goes with the answer of the run that made it |
| LoginSafety.HourlyCapHoldsInFlows | packages/identity/src/login.ts:116-143 | the hourly cap holds for issues through the flows and outside them together |
| LoginSafety.Flows.RequestLoginOtp | packages/identity/src/login.ts:116-143 | a code to deliver exactly when the account is active, the key neither in flight nor live, and no limit binds; else nothing is written |
| LoginSafety.Flows.VerifyLoginOtp | packages/identity/src/login.ts:158-202 | absorbed refusals write nothing, a replay has no token, an execution commits code, session and response |
| Relay.StepKeeps | packages/events/src/relay.ts:115-183 | every delivery, update, arrival and crash keeps the relay's invariant |
| RelaySafety.PublishedWasHandled | packages/events/src/relay.ts:150-171 | a published row was handled by every subscriber of the call that published it, and one call did |
| RelaySafety.NothingIsLost | packages/events/src/relay.ts:168-180 | no row is lost, unpublished again or robbed of an attempt, wherever the relay crashes |
| RelaySafety.EachPublishedEventAppliedOnce | packages/events/src/registry.ts:3-7 | a subscriber deduplicating by event id has applied each published event exactly once |
| RelayLoop.CallRuns | packages/events/src/relay.ts:136-183 | an uninterrupted call is the run of its steps, subscribers in order, row after row |
| RelayLoop.Outbox.RelayOnce | packages/events/src/relay.ts:115-183 | no subscriber, no change; else the whole batch published or failed, and processed is published plus failed |
| RelayLoop.Outbox.RelayRows | packages/events/src/relay.ts:147-180 | the nested loops, for any prefix of the batch |
| RelayLoop.Outbox.Deliver | packages/events/src/relay.ts:155-167 | subscribers in registration order up to the first that fails |
| RelayLoop.Outbox.RelayCutShort | packages/events/src/relay.ts:147-180 | an error outside the handlers leaves a prefix of the batch processed |
| RelayLoop.Outbox.RunRelayLoop | apps/worker/src/loop.ts:60-91 | every tick runs although some throw, and an idle relay is warned about at most once |
| RelayLoop.TickDrains | packages/events/src/relay.ts:136-182 | of n deliverable events, late arrivals included, a completed call publishes at least min(L - F, n); a thrown one loses none |
| RelayLoop.LoopDrains | apps/worker/src/loop.ts:72-87 | n deliverable events and m that arrive late with smaller ids are all published at some moment of the first ceil((n + m) / (L - F)) completed ticks |
| RelayLoop.StaysDrained | apps/worker/src/loop.ts:72-87 | and stay so, through any ticks, until another arrives late |
| TierLadder.LadderIsPartition | modules/catalog/domain/maintain-price-list/tier-ladder.ts:27-109 | a group of tiers is valid exactly when it prices the quantities from 0 to a limit by one tier each and no others |
| TierLadder.GroupOkPermutes | modules/catalog/domain/maintain-price-list/tier-ladder.ts:27-109 | validity does not depend on the order of the lines |
| PriceList.LadderOkPermutes | modules/catalog/domain/maintain-price-list/tier-ladder.ts:111-139 | nor does the validity of a whole list |
| PriceList.ValidIsDistinct | modules/catalog/domain/maintain-price-list/tier-ladder.ts:55-70 | a valid list has no two lines of one service and tier start |
| PriceList.RowsAcceptedIff | modules/catalog/application/maintain-price-list/import-price-list-lines.ts:97-154 | the validating loop accepts exactly rows of priceable services, at or above the floor, in one currency |
| PriceList.ImportStoresWhatItValidated | modules/catalog/application/maintain-price-list/import-price-list-lines.ts:156-178 | after a successful import the stored lines are exactly the combined set that was validated |
| PriceList.PutStores | modules/catalog/application/maintain-price-list/upsert-price-list-line.ts:120-138 | an upsert replaces one tier and keeps the whole list valid although it checks one service |
| PriceList.RunKeeps | modules/catalog/application/maintain-price-list/upsert-price-list-line.ts:81-140 | over any run: one currency, valid ladders, every floor met when written |
| PriceList.ActivationFindsValidLadders | modules/catalog/application/maintain-price-list/activate-price-list.ts:59-77 | the ladder check of an activation never refuses, and every quantity has at most one price |
| PriceList.ActiveIsFrozen | modules/catalog/domain/maintain-price-list/invariants.ts:36-57 | once not a draft, a list never changes by these commands |
| PriceListStore.Store.PutLine | modules/catalog/infrastructure/maintain-price-list/repository.ts:245-293 | update where the tier exists, insert where it does not |
| PriceListStore.Store.PutEach | modules/catalog/application/maintain-price-list/import-price-list-lines.ts:165-176 | the write loop puts every line in order |
| PriceListStore.Store.ResolveEach | modules/catalog/application/maintain-price-list/import-price-list-lines.ts:97-154 | the validating loop, with the first offending row deciding the error |
| PriceListStore.Store.ImportPriceListLines | modules/catalog/application/maintain-price-list/import-price-list-lines.ts:76-198 | a refusal writes nothing; success stores the validated set and raises the version once |
| PriceListStore.Store.UpsertPriceListLine | modules/catalog/application/maintain-price-list/upsert-price-list-line.ts:60-155 | a refusal writes nothing; success replaces or adds exactly one line |

## Left out

* PostgreSQL itself, drizzle, the pool and SQL text: statements are functions on an abstract store with
  row locks, advisory locks and READ COMMITTED reads. Deadlocks and how long a session waits are not
  modelled; waiting sessions need not be scheduled.
* Row-level security, roles, scopes and account facts: each statement takes what it happened to read as
  a parameter, so the theorems hold whatever it read.
* The billing and catalog commands and the idempotency wrapper are modelled apart; only the login flows
  are composed with the wrapper, and there the composition is proved to be a run of each side.
* Audit rows, document numbers, correlation ids, request headers, `idem` being absent, a caller without a user id.
* Line memos and event payloads beyond the fields that identify what happened; dimensions are carried
  with their line and not checked.
* Fiscal years: whether a period lies inside its fiscal year is a parameter of opening it.
* Ids are numbers. Billing draws them from a counter, which stands for a generator of fresh ids; code
  and session ids are arbitrary fresh numbers, so that the order of ids says nothing.
* Dates are day numbers; instants are integers in milliseconds. Thresholds in minutes or seconds are
  taken as whole milliseconds; the conversion of a fractional threshold in binary floating point is not
  modelled.
* XState: each machine is its transition function.
* HMAC, SHA-256, random codes and tokens: hashes are opaque values, and only `RequestHash` assumes an
  injective digest. Nothing is claimed about secrecy or timing.
* JavaScript objects with integer-like keys, `__proto__` or undefined members; numbers are finite and
  identified with their printed form.
* `verifySession`, `verifySessionSubject`, `revokeSession`, `expiresInMinutes`: one-branch reads and writes.
* The stored JSON of a response is an opaque value; its own round trip is not modelled.
* Creating and expiring price lists, price exceptions, validity dates: one-branch facts. The price list
  a command names exists; which currency of an unordered `limit 1` read is returned does not matter,
  since a list has one.
* Fastify, routes, OpenAPI, Zod schemas other than the amount patterns, Problem mapping, loggers, user
  interfaces, PDF rendering and generators.
* Money and Quantity addition, subtraction, comparison and currency-free helpers: immediate from the
  integers they hold.
* OtpSafety.HourlyCapHolds: needs the expiry never to be raised between issues for the email; without
  this it is false, as `OtpStore.RaisingTheExpiryBreaksBothLimits` shows. `OtpSafety.HourlyCapHoldsIff`
  says exactly when the query enforces the cap.
* RelaySafety.PublishedWasHandled: one relay call at a time, as the source assumes; two concurrent
  callers are not modelled.
