# The Crossing: a verified model of the money core

The Crossing is a spend-control runtime. Agents hold *mandates* (budgets with limits); a call debits a
mandate, reaches a provider, and is committed, released, or left for an operator to reconcile. Children's
budgets are escrowed from their parents'. Committed calls are billed through an outbox. All of this is
driven by concurrent workers through conditional updates, and any of them may crash or read stale rows.

The project models that core and proves what it promises, for every interleaving.

* **Tables** (`Model.dfy`): each table is the sequence of its rows in insertion order, a row's id is its
  position; claims, the only rows ever deleted, are a map keyed by principal and idempotency key.
* **Units of work.** `Ledger.dfy`, `Identity.dfy`, `Mandates.dfy`, `Billing.dfy`, `RateLimit.dfy` and
  `Invoke.dfy` hold the operations as the code runs them: methods that update a `Session` write by write,
  with loops, and with savepoints taken and rolled back. Each is proved to do exactly what a guarded atomic
  function says (`LedgerSpec.dfy`, and the function parts of the other files).
* **The system** (`Lifecycle.dfy`): any number of `invoke` processes, operators and billing workers. A label
  is one committed step: the unit of work it performs on the tables (`Perform`), and where it takes its
  process (`Advance`). Stale copies, clock readings, provider answers and Stripe's answers are arguments
  of the label, so a run over arbitrary labels is an arbitrary interleaving. A process or job that is never
  scheduled again has crashed there. `Apply` is total: a step whose guard fails changes nothing.
* **What every unit keeps**: rows and logs (`History.dfy`), money (`Money.dfy`), one ending per attempt
  (`Universe.dfy`), claims (`Keys.dfy`), fees (`Fees.dfy`), nonces (`Nonces.dfy`), gathered in
  `Invariants.dfy` and, with the dispatch barrier, policy and the billing desk, in `Story.dfy`.
  `States.dfy` says what these mean for one state.
* **What every operation does**: `Effects.dfy`, `Admission.dfy` and `Delivery.dfy` write out, table by table, when
  exactly each operation succeeds, what it then leaves and what its caller is told. `Progress.dfy` lifts that to every reachable state and draws the conclusions over later
  runs; `Provenance.dfy` traces attempts and mandates back to the steps that authorised them.
* **Main results** over all runs (`Runs.dfy`). `Outbox.dfy` is the billing outbox as a system of its own,
  which the whole system is proved to refine; `Retries.dfy` says what its retries come to, and
  `Revocation.dfy` what revoking an agent stops. `Forest.dfy` and `Sums.dfy` hold the reasoning about parent
  chains and sums; `Policy.dfy` and `SignedState.dfy` the pure checks; `Escape.dfy` and `StaleJobs.dfy` hold
  concrete runs that show where a promise ends.

`dafny verify dfyconfig.toml` checks everything.

## Two promises that hold only under a condition

* **Attenuation.** The repository's README lists child privilege escalation as controlled, but
  `policy.subset` accepts an absent child list under an empty parent list, so a child of a mandate that
  allows nothing may be allowed everything. The code is modelled as it is.
  `Policy.SubsetNarrowsExactlyUnlessItEscapes` and `Mandates.ListsNarrowExactlyWithoutEscape` say exactly
  when lists do narrow, `Runs.SpendIsListedExactlyWithoutEscape` exactly when a spend in a run is listed by
  its mandate and all its ancestors, and `Escape.PurchaseEscapesTheEmptyList` is a run in which a hold is
  opened for a tool the root mandate does not list.
* **Retries.** The repository's README and runbook say that a row is dead after 8 attempts, and that a
  requeue lets it drain again. A worker that outlived its lease completes from its old copy of `attempts`,
  and the attempt is not counted (`StaleJobs.StaleCompletionIsNotCounted`); after a requeue such a copy can
  be ahead, and one failure ends the row again (`StaleJobs.OneFailureEndsARequeuedRow`, a run from an empty
  outbox). `Retries.RetriesEndFromEveryStart` is the exact condition, for every charge and every requeue: the
  count is the number of completed attempts throughout the run if and only if each completion was made from
  a copy no older than the last one, and then the row is dead at no other than the eighth. From a charge the
  count at the end tells as much (`Retries.RetriesEndExactlyWithCurrentCopies`).
  `Runs.RetriesEndInTheSystem` and `Runs.RequeuedRowsStartOver` say the same of every row of the whole
  system, and `Retries.TimelyStartsHaveCurrentCopies` that workers which complete within one common lease
  meet the condition.

## Model

| member | source | states |
|---|---|---|
| Runs.MoneyIsConserved | crossing/ledger.py:73-130 | In every state any interleaving reaches, helpers included: each mandate's limit is its remaining + live holds + children's limits; the limit is all the money in its delegation subtree, bounding what is committed there; calls_used counts the live holds and stays within max(0, max_calls); the log replays to the balance and each reserve, escrow and release event recorded the balance of its own prefix; the clamp in the refund never fires |
| Money.LimitIsTheMoneyInTheSubtree | crossing/mandate.py:212-247 | Summed over the whole subtree, remaining plus live holds is exactly the mandate's spend limit, and what is committed anywhere below never exceeds it |
| Money.EscrowTelescopes | crossing/mandate.py:216-229 | Over any prefix of the mandates, limits less children's limits add up over a subtree to the limit of its top |
| Money.DebitConserves | crossing/ledger.py:73-130 | A winning debit with its hold and event keeps every mandate's books and log balanced |
| Money.ReleaseConserves | crossing/ledger.py:437-450 | A refund undoes exactly its hold's debit, in the balance, the counter and the log |
| Money.IssueConserves | crossing/mandate.py:186-248 | Issuing a root or a child keeps all books balanced, whether or not the escrow wins and however stale the parent copy |
| Money.ReleaseUndoesReserve | crossing/ledger.py:571-594 | Reserving and then releasing gives back the mandate row and the claim table exactly as they were, leaving one released hold and two log entries |
| Money.RefundNeverClamps | crossing/ledger.py:441-444 | While a hold is held its mandate's calls_used is positive |
| Runs.OneUniverseAlways | crossing/ledger.py:481-604 | Under any interleaving of invokes, crashes, recovery and reconciliation, the hold's status is the one the attempt's status tells, with exactly one commit event, receipt and charge if committed, exactly one release event if released, and none of these otherwise |
| Universe.SettleKeepsUniverse | crossing/ledger.py:716-757 | Committing an open attempt, by success or by evidence, moves it to the committed universe once and keeps all others |
| Universe.UnwindKeepsUniverse | crossing/ledger.py:571-594 | Releasing an open attempt moves it to the released universe once and keeps all others |
| Universe.FinalizeSuccessKeepsUniverse | crossing/ledger.py:481-551 | finalize_success keeps one universe and never meets a duplicate receipt |
| Universe.ReconcileCommitKeepsUniverse | crossing/ledger.py:760-834 | reconcile_commit keeps one universe whatever copy of the hold the operator had, billing at most once |
| Universe.ReconcileReleaseKeepsUniverse | crossing/ledger.py:837-907 | reconcile_release keeps one universe, refunding at most once and only with evidence recorded |
| Runs.AtMostThreeChanges | crossing/ledger.py:316-434 | Status changes follow an acyclic graph; an attempt changes status at most three times in any run |
| Runs.AtMostOneChargePerKey | crossing/ledger.py:163-203 | Once an attempt is committed under a key it stays committed, every other attempt ever made with the key is released, and completed claims are never deleted, reopened or rewritten |
| Runs.ClaimsFollowAttempts | crossing/ledger.py:276-286 | A claim exists exactly while one attempt with its key is not released, and is completed exactly when that attempt is committed |
| Runs.CompletionFindsItsClaim | crossing/ledger.py:453-478 | In every reachable state completing an attempt finds its own in-progress claim, with its own hash: the branch that inserts a missing claim is never reached |
| Keys.UnwindKeepsKeys | crossing/ledger.py:594 | Releasing an attempt frees exactly its own key, and never a completed one |
| Runs.ClaimWithoutResultIsNeverReplayed | crossing/lifecycle.py:89-94 | A key whose operation completed without a result is closed in every later state of every run: both claim checks answer in-progress, or conflict if the hash differs, and no call with it is replayed or reserved |
| Runs.RouteCommitIsNeverReplayed | crossing/api.py:591-600 | The HTTP reconcile route stores no result, so a keyed attempt it commits closes its key in that way |
| Runs.NoNonceIsUsedTwice | crossing/lifecycle.py:189-222 | Over any run a principal's nonce is used at most once, by a mandate or by an attempt, and one that is recorded, even by a call that was then denied, is used by nothing later |
| Runs.DispatchIsAtMostOnceAndNeverRefundedBlindly | crossing/lifecycle.py:256-281 | Each attempt reaches the provider at most once and only after its own committed reserved-to-executing update; a refunded dispatched attempt has a recorded did_not_execute reference; of two dispatched attempts with one key the earlier was so reconciled |
| Story.MarkKeepsBarrier | crossing/ledger.py:316-341 | However many workers hold the same reserved row, one wins the dispatch |
| Runs.BillingAgreesEndToEnd | crossing/ledger.py:503-536 | Committed holds, receipts and outbox amounts are the same money; Stripe meters at most that however often rows are reposted, and exactly that once every row is sent |
| Runs.SystemRefinesOutbox | crossing/billing.py:323-358 | Every run of the whole system is, seen from the outbox, a run of the outbox system |
| Runs.OutboxRowsAreAlwaysSound | crossing/billing.py:220-239 | pending has 0 attempts, sending fewer than 8 and a claim time, failed 1 to 7, dead exactly 8, in every reachable state |
| Runs.RetriesEndInTheSystem | crossing/billing.py:220-261 | Every row of the system was last charged or requeued at one point of the outbox's run, and from there its count is its completed attempts throughout if and only if every completion was from a current copy, so that it ends by the eighth; a timely run has only current copies |
| Runs.RequeuedRowsStartOver | crossing/billing.py:361-376 | From any point of a system run at which a row is requeued, until it is requeued again, it is retried from zero in just that way |
| Runs.FeesAccumulateOncePerReceipt | crossing/billing.py:88-177 | In every state, helpers included: every receipt has one charge, on the account of the principal that paid, and an account's fee microcents are exactly the sum of its charges' fees at their rates |
| Outbox.StepKeepsSound | crossing/billing.py:242-261 | The row invariant and the meter survive every step, with attempts written from copies however stale |
| Outbox.SettledRowsStay | crossing/billing.py:279-290 | sent and noop rows are never changed again |
| Outbox.LeasesDoNotOverlap | crossing/billing.py:293-312 | Of two claims of one row with no completion or requeue between them the second comes at least its own lease after the first, whatever leases the workers use |
| Outbox.OneCompletionPerStay | crossing/billing.py:251-259 | A stay in sending is ended by one completion; every other worker loses until a new claim |
| Outbox.BackoffIsRespected | crossing/billing.py:232-239 | From a failed attempt to the next claim of the row at least the backoff of that attempt number goes by, whatever other workers and the administrator do meanwhile |
| Outbox.MeterNeverExceedsCharges | crossing/billing.py:180-202 | With repeats of a key deduplicated, Stripe's total is at most the charges, and equal once all are sent |
| Retries.RetriesEndFromEveryStart | crossing/billing.py:361-376 | For every charge and every requeue and every run until the next requeue: the count is the completed attempts at every point of the run if and only if every completion was from a current copy; then the row is dead only at the eighth, has ended by then, and was told to wait at most 123 minutes in all |
| Retries.CountsThroughoutWithCurrentCopies | crossing/billing.py:247-256 | The same equivalence from any state, whatever jobs are open on the row |
| Retries.RetriesEndExactlyWithCurrentCopies | crossing/billing.py:232-261 | From a charge also at the end of any run without a requeue: attempts never exceeds the completed attempts, equals them if and only if every completion was from a current copy, and a dead row had at least 8, exactly 8 under the same condition |
| Retries.CountIsExactWithCurrentCopies | crossing/billing.py:247-256 | From any state and any bound c that the row's count and the open jobs' copies are behind, c plus the completed attempts bounds the count, and is reached if and only if the row was at c and every completion was from a current copy |
| Retries.TimelyStartsHaveCurrentCopies | crossing/billing.py:211-217 | When all workers use one lease and complete within it, every completion after any charge or requeue is from a current copy |
| StaleJobs.OneFailureEndsARequeuedRow | crossing/billing.py:361-376 | A run from an empty outbox, seven failures and then two jobs on the eighth attempt, after which a requeued row is dead again at its first completed attempt |
| StaleJobs.StaleCompletionIsNotCounted | crossing/billing.py:247-256 | A run from a fresh charge in which two completed attempts leave attempts at 1 |
| Billing.ClaimOutboxRows | crossing/billing.py:293-312 | Exactly the selected rows that are claimable become sending, each claimed once, nothing else moves |
| Billing.BatchIsClaimSteps | crossing/billing.py:300-310 | A batch of claims is that many claim steps of the outbox system |
| Billing.CasTerminalFromSending | crossing/billing.py:242-261 | Only the update's own condition decides who completes; the loser changes nothing; the winner writes the copy's count plus one, and leaves the row sent exactly on an ok answer, noop exactly on a no-op, and on an error failed with a retry time, or dead from the eighth attempt on |
| Billing.CompleteJob | crossing/billing.py:341-351 | With a copy that has the job's count, the end of a job is the outbox system's Finish step, won or lost, and the winner's row tells the job's answer in that way |
| Billing.RequeueDeadRows | crossing/billing.py:361-376 | Dead rows, or the one named, return to pending with no attempts, and no other row changes |
| Billing.Enqueue | crossing/billing.py:127-177 | One pending row per receipt, its platform fee added to the principal's account with it; an existing row is kept and adds no fee |
| Identity.CreatePrincipal | crossing/identity.py:10-25 | A principal is added with the key it registers, and an account of its own, or under the one named if that exists |
| Ledger.Reserve | crossing/ledger.py:47-131 | Debit, hold and event happen together exactly when the conditional update matches the current row; otherwise only the deny event is written, its reason and balance read from the caller's copy |
| Ledger.ReserveAndCommit | crossing/ledger.py:206-273 | Claim, debit and attempt are one unit; a denial leaves mandates, claims, holds and attempts as they were and logs at most one deny event |
| Ledger.ClaimIdempotency | crossing/ledger.py:163-203 | The key is claimed exactly when it was free; otherwise conflict, replay or in-progress as the stored claim says |
| Ledger.MarkExecuting | crossing/ledger.py:316-341 | Exactly a reserved attempt becomes executing; the loser is told to wait if it is executing and that it lost if it has ended |
| Ledger.FinalizeSuccess | crossing/ledger.py:481-551 | Wins exactly on a held hold of an executing attempt without a receipt, and then hold and attempt are committed and the key is completed with the result; losing either compare and set, or meeting a duplicate receipt, leaves every table as before |
| Ledger.FinalizeRelease | crossing/ledger.py:554-604 | Refund, event, status and claim together; losing the second compare and set undoes the refund already written |
| Ledger.RecoverReserved | crossing/ledger.py:364-406 | Whatever status the caller read before, recovery refunds only an attempt that is still reserved, and changes nothing about one that has ended |
| Ledger.ReconcileCommit | crossing/ledger.py:760-834 | Wins exactly on a did_execute reference, an ambiguous or executed_fail attempt, and a hold that neither the copy nor the row shows released; bills once; a loser changes nothing |
| Ledger.ReconcileRelease | crossing/ledger.py:837-907 | Wins exactly on a did_not_execute reference, an ambiguous or executed_fail attempt, and a held hold that the copy does not show committed; refunds once; a loser changes nothing |
| Ledger.ApplySuccessEconomics | crossing/ledger.py:716-757 | A held hold is committed and billed, a committed one is billed only if it was not, a released one is refused |
| Ledger.Commit | crossing/ledger.py:607-628 | Only the winner of held to committed logs, and nothing else changes |
| Ledger.Release | crossing/ledger.py:631-651 | Only the winner of held to released refunds and logs |
| History.RunKeeps | crossing/ledger.py:17-44 | Over any run rows keep their immutable columns, events, evidence, receipts and nonces are only added, a hold leaves held at most once, revocations stay, and nothing is newly held, debited or escrowed on what was revoked |
| Mandates.IssueAndEscrow | crossing/mandate.py:88-248 | The child row and its nonce are written before the escrow; any denial leaves no row, no nonce and no debit |
| Mandates.IssueKeepsWellDelegated | crossing/policy.py:190-229 | However stale the copy of the parent's balance, an issued child is within its parent's terms, principal and agent subtree |
| Mandates.LimitsNarrowDownTheTree | crossing/policy.py:200-229 | Along the whole ancestor chain spend limit, call limit and sub-budget only decrease, expiry only tightens, the principal is one and agents descend |
| Mandates.ListsNarrowExactlyWithoutEscape | crossing/policy.py:67-75 | What a mandate's tool or server list allows every ancestor allows, exactly when no unrestricted child sits under an empty list on the chain, or the mandate allows nothing |
| Policy.SubsetNarrowsExactlyUnlessItEscapes | crossing/policy.py:67-75 | subset accepts a child list and the pair is not the escape case exactly when everything the child allows the parent allows |
| Policy.UnrestrictedChildUnderEmptyParent | crossing/policy.py:71-72 | An absent child list passes under an empty parent list although it allows more |
| Escape.PurchaseEscapesTheEmptyList | crossing/policy.py:71-72 | A run in which a call to a tool the root does not allow holds money escrowed from the root |
| Runs.EverySpendIsWithinTheWholeChain | crossing/policy.py:174-187 | Every hold was for a price at most max_call and debited before the expiry of its mandate and every ancestor, for a tool and server listed as far up as no escape sits between |
| Runs.SpendIsListedExactlyWithoutEscape | crossing/policy.py:67-75 | In every reachable state a spend's tool is listed by its mandate and all its ancestors if and only if no unrestricted child was issued under an empty list on the chain to the root; the same for servers |
| Runs.RevokedMandateNeverSpends | crossing/ledger.py:74-84 | From the moment a mandate is revoked no run opens a hold on it, issues a child under it or takes money from it, and its balance never falls |
| Runs.DelegationStaysInsideOnePrincipal | crossing/mandate.py:112-134 | Every mandate's agent is its principal's, and every ancestor mandate has the same principal and an agent at or above |
| Policy.LimitPassesTheSubBudgetExactly | crossing/policy.py:219-229 | The parent's sub-budget caps the child's sub-budget and not its limit: with a given sub-budget there are accepted limits beyond the cap exactly when it is within the cap and the parent's balance and limit are beyond it |
| Mandates.IssuedWithinSubBudget | crossing/policy.py:219-229 | A child whose sub-budget is left out, or at least its limit, is issued with its limit within the parent's sub-budget, whatever the copy |
| Runs.SubBudgetsBoundLimits | crossing/policy.py:219-229 | In every reachable state a mandate whose limit is within its own sub-budget has it within that of every ancestor |
| Escape.LimitEscapesTheSubBudget | crossing/policy.py:219-229 | A run in which a child with limit 600 and sub-budget 0 is issued under a parent with sub-budget 100 |
| Runs.RevocationReachesEveryDescendant | crossing/identity.py:62-68 | A revoked agent has only revoked descendants, so require_live_agent's one-level look answers as the whole chain would |
| Runs.RevokedAgentSpendsOnlyWhatWasAuthorized | crossing/identity.py:40-68 | Once an agent is revoked no run issues a mandate to it or to an agent below it, and on their mandates opens at most as many holds as there were processes past authorisation and not yet reserved, so none if there were none |
| Escape.AuthorizedPurchaseOutlivesItsAgent | crossing/ledger.py:73-88 | A run in which a hold is opened after its agent was revoked: the debit's condition does not look at the agent |
| Identity.Revoke | crossing/identity.py:40-52 | The stack loop ends on the forest and revokes exactly the subtree |
| Identity.SweepStep | crossing/identity.py:46-50 | Popping a row and pushing its children meets no row twice |
| Identity.IsSelfOrDescendant | crossing/identity.py:71-83 | The walk ends on any parent column, cyclic or not, and decides exactly reachability |
| Identity.LiveAgentSeesWholeChain | crossing/identity.py:62-68 | The one-level parent check passes exactly when no ancestor is revoked |
| Identity.Create | crossing/identity.py:28-37 | An agent is created exactly for an existing principal under a live parent of the same principal, or under none; it then hangs under that parent; otherwise nothing changes |
| Forest.ReachesIsUnder | crossing/identity.py:71-83 | On a forest, walking up the parent column reaches exactly the ancestors |
| SignedState.CheckAcceptsIffSameTerms | crossing/policy.py:99-145 | Under the signature of a verifying row, other columns verify exactly when they state the same terms, up to order of names and time zone of the expiry |
| SignedState.SortedAlikeIffReordering | crossing/policy.py:93-96 | Two name lists sort to the same list exactly when one is a reordering of the other |
| Runs.SignedStateSurvivesEveryRun | crossing/mandate.py:153-207 | A stored mandate verifies after any run, and altered columns verify exactly when the terms are the same |
| Runs.MandatesAlwaysVerify | crossing/policy.py:148-162 | A mandate's key never changes and is the issuer's or the one its principal registered, so in every later state the row passes verification exactly if its signature does, and is forged otherwise |
| Invoke.InvokeAlone | crossing/lifecycle.py:137-369 | The call as written, its checks, nonce and task in order, is undisturbed its five commits in the system; it is refused if the signature does not verify, replayed or refused as the checks say, and reaches the provider exactly if they allow it and its hold can be opened; a refusal or replay moves no money and uses up at most the call's own nonce, success ends committed, a provider error leaves the attempt unrefunded |
| RateLimit.Limiter.CheckRateLimit | crossing/abuse.py:41-52 | A call prunes and extends its own key's window as the limit says and leaves other keys alone |
| RateLimit.WindowIsRecentHistory | crossing/abuse.py:46-49 | After any calls on a non-decreasing clock the pruned list is the accepted history of the last 60 seconds |
| RateLimit.NoWindowOverflows | crossing/abuse.py:50-52 | Every half-open 60-second window, wherever it starts, holds at most `limit` accepted calls |
| Progress.CommitByEvidenceExactly | crossing/ledger.py:760-834 | In every reachable state: a did_execute reference with something in it commits exactly an ambiguous or executed_fail attempt, unless the operator's copy shows its hold released, with every table written out: one receipt, one pending charge, its fee, the key completed; otherwise nothing changes |
| Progress.ReleaseByEvidenceExactly | crossing/ledger.py:837-907 | In every reachable state: a did_not_execute reference releases exactly an ambiguous or executed_fail attempt, unless the copy shows its hold committed: hold released, the amount back on the balance, one call fewer, the key free, the evidence recorded; otherwise nothing changes |
| Effects.StripExactly | crossing/ledger.py:679-683 | Stripping cuts white space off both ends and nothing else, and leaves nothing exactly of a blank reference |
| Progress.CommittedCallIsReplayed | crossing/ledger.py:453-478 | A keyed attempt committed with a result, by its call or on evidence, answers both claim checks with that result in every later state of every run, and with a conflict if the hash differs |
| Progress.CallAgainIsCached | crossing/lifecycle.py:77-98 | So whoever makes the same call again, on a live mandate of the principal, at any later time, is answered from the cache |
| Progress.OpenCallIsInProgress | crossing/ledger.py:163-203 | While an attempt is not settled, a call with its key is told to wait, or that it conflicts |
| Progress.UndisturbedCallSucceeds | crossing/lifecycle.py:137-369 | From every reachable state, a call that is in order and that no step comes between debits the price, reaches the provider once, and ends committed, billed and with its result stored, or failed with its money held; the whole state is written out |
| Progress.BegunExactly | crossing/lifecycle.py:152-219 | In every reachable state: a call is authorised exactly if its mandate is live and signed, its key and nonce free, and every term, argument and billing check passes; otherwise it ends, with a deny event where the code logs one |
| Progress.ReservedExactly | crossing/ledger.py:206-273 | An authorised call opens its hold exactly if key and nonce are free and the current row affords it, a price equal to the balance included, with every table written out; otherwise only nonce, task and deny event are |
| Progress.MarkedExactly | crossing/ledger.py:316-341 | Exactly the process that finds its attempt reserved goes on to the provider, with the attempt executing |
| Progress.CompletedExactly | crossing/ledger.py:481-551 | In every reachable state: an ok answer commits exactly an executing attempt, an error marks exactly an executing attempt failed, with every table written out |
| Progress.RecoveredExactly | crossing/ledger.py:364-406 | In every reachable state: release mode releases exactly a reserved attempt that was not seen executing or ended; the default mode makes exactly what was seen and still is reserved, or executing, ambiguous |
| Admission.LoadLiveExactly | crossing/mandate.py:251-267 | A mandate loads exactly if it exists, its signature verifies, the copy is not revoked and not past its expiry, and no agent up the whole chain is revoked; otherwise for the first of these reasons |
| Admission.VerifiesExactly | crossing/mandate.py:251-256 | Any row passes verification exactly if its key is the issuer's or its principal's own, its signature verifies and its columns are as signed |
| Admission.AuthorizeExactly | crossing/lifecycle.py:152-219 | The answer to a call, check by check in the code's order, on lists, prices and balances as they read |
| Admission.ReserveAnswersExactly | crossing/ledger.py:135-153 | What a caller of a reservation is told, key, amount and debit in that order |
| Admission.DenialReason | crossing/ledger.py:135-153 | A failed debit is put down to expiry exactly if the copy is not revoked and the mandate past it, to calls exactly if the copy's money is enough and its calls used up, and otherwise to the budget |
| Admission.IssueChecksExactly | crossing/mandate.py:100-207 | Why a mandate is not issued, check by check in the code's order: the amounts, the agent's chain, the parent's signature, life and terms, the nonce, the caller's own signature |
| Progress.IssuedExactly | crossing/mandate.py:88-248 | In every reachable state: a mandate is issued exactly if every check passes, its nonce is new and the current parent can pay, and then as asked, with its limit out of the parent's balance; otherwise nothing changes |
| Admission.IssueAnswersExactly | crossing/mandate.py:200-248 | What the issuer is told, and that an escrow that loses is told like a limit too high |
| Provenance.EveryAttemptWasAuthorized | crossing/lifecycle.py:152-219 | Over every run, each attempt is for a call that an earlier step began with a signature that verified and every check passed in the state of that time |
| Provenance.EveryMandateWasIssued | crossing/mandate.py:88-248 | Over every run, each mandate was added by an issue step whose every check passed in the state of that time, and keeps the columns it was asked with |
| Provenance.IssuedMandateWasProved | crossing/mandate.py:67-85 | So no child was ever issued under a parent whose signature did not verify, nor a mandate on a caller's signature that did not |
| Progress.SubAgentStaysUnderItsParent | crossing/identity.py:28-37 | From every reachable state: a sub-agent is created exactly under a live parent of its own existing principal, and in every later state it hangs there, and is revoked as soon as that parent or any agent above it is |
| Progress.RevokedParentStopsItsSubAgent | crossing/identity.py:40-68 | From then on its mandates open no more holds than were authorised by then |
| Admission.RevokeExactly | crossing/identity.py:40-52 | Revoking revokes the agent and what is below it, and changes nothing else of any agent |
| Admission.CreateAnswersExactly | crossing/identity.py:28-37 | A missing or revoked parent, a parent of another principal and a missing principal are told apart in that order |
| Delivery.FinishExactly | crossing/billing.py:220-261 | A completing job ends its own row by its own answer: sent, noop, failed with the backoff of its attempt, or dead from the eighth; nothing else changes |
| Delivery.BackoffExactly | crossing/billing.py:205-208 | The backoff is 1, 2, 4, 8, 16, 32 minutes and then an hour |
| Delivery.ClaimExactly | crossing/billing.py:279-312 | A row is taken exactly if it is pending or failed, due and tried less than eight times, or sending for a lease |
| Delivery.PostExactly | crossing/billing.py:180-202 | Stripe records a key once, at its amount, exactly on an ok answer, or on an error after which it did |
| Delivery.RequeueExactly | crossing/billing.py:361-376 | Exactly the dead rows, or the one named, go back to pending with no attempts, due now |
| Progress.SentExactlyIfAnsweredOk | crossing/billing.py:220-261 | Over every run of the system, a charge is sent exactly if the job that last completed it was answered ok, a noop exactly if it was that, and failed or dead only after an error |
| Progress.AllAnsweredOkIsAllMetered | crossing/billing.py:180-239 | So when every charge was last answered ok, Stripe has metered exactly the committed holds |
| Progress.UndisturbedChargeIsSent | crossing/billing.py:323-358 | From every reachable state a charge that can be taken, answered ok and completed with no step between is sent and metered at its amount |
| Effects.FeeIsTheRate | crossing/billing.py:88-95 | The fee is amount times basis points over ten thousand, in millionths of a cent, and nothing for a negative amount or rate |
| Effects.EconomicsOnce | crossing/ledger.py:716-757 | Applying a success's economics a second time changes nothing, whatever state a helper left the hold in |
| Effects.CommittedByHelperIsBilled | crossing/ledger.py:716-757 | A hold a helper committed unbilled gets its receipt, charge and fee, and no second commit or event |
| Effects.HelpersExactly | crossing/ledger.py:607-651 | commit and release act on exactly a held hold, release giving back amount and call |
| RateLimit.AcceptedExactlyWithRoom | crossing/abuse.py:41-52 | On a non-decreasing clock a call is accepted exactly if fewer than `limit` calls were accepted in the sixty seconds before it |
| RateLimit.NoLimitAcceptsAll | crossing/abuse.py:42-44 | A limit of nothing or less accepts every call |

## Left out

- HTTP routes, API keys, dashboard, proxy, SDK, CLI, logging and metrics: plumbing around the core.
- Signatures, hashing and JSON: which key a signature must verify under, and whether that key is bound, is modelled; whether it does verify is an argument. Payloads and receipts are records, fingerprints are compared as given. A signed payload that names mutable accounting fields cannot be written in the model.
- Issuing or loading a mandate with verification switched off, which only the demo and tests do.
- The provider and Stripe HTTP calls: their answers are arguments of the step. An ok answer from Stripe is taken to mean the key is recorded, an error may or may not be, and repeats of a key are deduplicated.
- In `invoke`, what the price list, argument validation and the tenant's billing status say is an argument of the step, as are the price (any integer) and the fee rate in force.
- Stripe customer ids, `last_error`, task names, states and ids on other rows, event notes and `from_status`: columns that no modelled guard reads. `fee_invoiced_cents` is never written.
- The HTTP reconcile route's billing check: a call it refuses is no step.
- `drain_outbox` as one method: its claim, post, re-read and completion are separate steps of the outbox system, since other workers act between them. The order and limit of its SELECT are arbitrary.
- `report_after_commit` and `flush_row`, which nothing calls, and calls to finalize or reconcile without receipt and billing functions, which only tests make.
- The balance on a commit event, and on a deny event written before the reservation: the caller's possibly stale copy, an argument, so no more is claimed of it.
- Isolation levels and SQL dialects: each transaction is one atomic step, a savepoint restores every table. `issue_mandate` runs with its checks in the same step as its writes, but against a stale copy of the parent's balance and revocation.
- `ledger.commit` and `ledger.release`: included in the results about conservation, delegation, claims, fees, nonces and revocation, excluded from those about one universe, dispatch, policy and billing, because they settle a hold without its attempt.
- Identity.Revoke: requires that agents form a forest, which every reachable state does; on a cycle the code's loop would not end.
- Mandates.IssueAndEscrow: requires the same of the agents, to read the walk's answer as descent.
- A hold's `at` is the clock reading its debit compared with the expiry; the stored creation time is a later reading of the same clock.
- Runs.EverySpendIsWithinTheWholeChain: for tools and servers it stops at an escape on the chain, because the code lets one through there.
- Liveness: nothing says a worker is ever scheduled; the retry result bounds attempts, not time.
