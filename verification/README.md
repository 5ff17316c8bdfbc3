# A verified model of the treasury broker

This project models the treasury broker of the repository, the serialized state machine that decides, reserves,
submits, settles and reconciles the purchases of software agents, and proves what the broker promises over every run
of requests, executions, failed saves, crashes and restarts. Four smaller parts of the repository stand beside it: the
admission limiter of the daemon, the SPDX expression evaluator, the IPv6 reader with the public-address filter of the
checkout adapter, and the one-shot executor of an approved owner handoff.

## How the broker is modelled

The broker appears twice. `Records` to `Requests` give every operation as a function of a state value: same branches,
same order of checks, same constants, one `Result` or `Attempt` per error path. `Broker.dfy` holds the broker in its
own form: a class `Treasury` whose fields are reassigned in place, with the loops of `usage`, `ledger_snapshot`,
`verify_audit_chain` and the others, each method proved to compute exactly the function of its name, errors and partial
writes included, and a class `Disk` for the saved images. What is proved about the functions therefore holds of the
class.

The argument for whole runs is a refinement in three layers.

1. `Steps` defines the *elementary steps*: one intent moves along the transition table and writes exactly the ledger
   events of its new state, a deposit is booked, the card is configured, agents and policies change, each with at most
   one audit entry. `Safety`, `Invariant`, `Limits`, `Reserve` and `History` prove what one elementary step keeps.
2. `Operations`, `Reconciliation` and `RequestSteps` prove that every operation of the broker is a short chain of
   elementary steps; `Loads` proves which of the resulting states the validation of a save accepts.
3. `Daemon` puts the broker into a world with a disk, a clock, a supply of identifiers and a count of external
   submissions per intent. `Serving` and `Runs` prove that whatever event happens, every state left in memory or on disk
   comes from an earlier one by elementary steps, `Effects` which events may begin an intent or record a deposit.
   `Guarantees` and `ReserveRuns` state what follows for every run.

| module | part of the broker |
|---|---|
| `Results`, `Sums`, `MoneyMath` | results, sums over maps and sequences, checked 64-bit money |
| `Records`, `AuditLog`, `Budget` | state, transition table, audit chain and quotas, usage, snapshot, decisions |
| `Execution`, `Requests`, `Storage`, `Daemon` | reservation to reconciliation, every mutating request, saves, events and runs |
| `LedgerInvariant`, `MoneyInvariant`, `Solvency` | ledger agreement, provider books, what they imply |
| `Steps`, `Safety`, `Invariant`, `Limits`, `Reserve`, `History` | elementary steps and what they keep |
| `Operations`, `Reconciliation`, `RequestSteps`, `Loads` | every operation is a chain of elementary steps |
| `Serving`, `Runs`, `Effects`, `Guarantees`, `ReserveRuns` | events, runs, and the guarantees over them |
| `Corners` | where the code does less than one of its own guards suggests, and exactly when |
| `Witness` | sound states and worlds that meet the hypotheses of the guarantees, or in which a claimed failure happens |
| `WitnessRuns` | runs from a fresh broker to such failures |
| `Folds`, `Broker` | the loops and the methods of the broker, in place |
| `Handoff`, `Paging`, `Admission`, `Spdx`, `Addresses` | handoff executor, paging, limiter, evaluator, address filter |

## Conventions

- Amounts are 64-bit integers with checked addition and subtraction; sums in invariants are mathematical integers, and
  every overflow is an explicit error case.
- Identifiers, sessions and references come from one supply that never repeats. Time never runs backwards. A request
  reads the clock once; where the order of two readings matters (creating an agent, rotating a capability, the second
  phase of an execution) the second reading is any number of seconds later.
- The keyed hash of the audit chain is a free constructor, hence injective. Reading a saved image gives back the state.
- The disk is the set of images a later load may find. A save that fails before the rename leaves the old ones; one that
  fails after it leaves old and new; only a successful save leaves the new image alone.
- The checks of `Policy::evaluate` and `PurchaseRequest::validate` that look at boolean checkout facts, categories,
  merchants and texts are answered by an arbitrary `Verdict` at each decision. All numeric checks are exact.
- A request names its caller after the token has been looked up; revocation and expiry are modelled.

## Where code and intention part

The model follows the code. `Corners`, `Guarantees`, `ReserveRuns` and `Solvency` give the exact condition of each difference,
and `Corners` and `Witness` a sound, loadable state in which it shows. `WitnessRuns` reaches the refused cancellation,
both reservations kept without an entry or a save, the unsaveable rotation and the overflow from a fresh broker. For
the refund and the impossible restart, which need hundreds of purchases first, a sound, loadable state is all that is
shown.

- `cancel_intent` accepts `PolicyValidated` in its guard, but the transition table has no such edge, so that
  cancellation is refused (`crates/domain/src/lib.rs:3080-3085` against `737-764`).
- `owner_checkout_handoff` is not in the list of money-safety entries although funds are reserved before it, and
  neither checkout restores memory when the handoff entry or the save behind it fails (`141-153`, `1685-1693`,
  `1752-1760`). The intent is still never submitted.
- Refunding a settled purchase takes an audit slot nobody reserved: a full log refuses it, and one slot earlier it takes
  the slot another purchase was owed (`3842-3850`).
- Ordinary entries stop 1024 slots early, but nothing limits how many slots are owed. Beyond that margin they may use up
  what was reserved; if an interrupted execution then finds no slot for its recovery, the broker cannot start again
  (`1925-1951`, `155-168`).
- `owner_rotate_agent_capability` reads the clock twice. When it ticks in between and the requested lifetime does not
  exceed the session lifetime, the session outlives the agent and the save refuses the state (`3498-3502`, `1986`).
- Unverified deposits have no upper bound, so the totals of `ledger_snapshot` can overflow; that is the only way it
  fails (`4405-4408`).

## Model

| member | source | states |
|---|---|---|
| `Guarantees.AtMostOnce` | crates/domain/src/lib.rs:2246-2316 | over any run of requests, executions, checkouts, failed saves, crashes and restarts, each intent reaches the provider or an executor at most once, and from then on neither memory nor any disk image holds it in a state from which it could execute |
| `Guarantees.NextKeepsOnceSubmitted` | crates/domain/src/lib.rs:2266-2287 | one event keeps the at-most-once invariant: only an executable intent is submitted, and afterwards every surviving state shows it as begun |
| `Guarantees.StopIsFinal` | crates/domain/src/lib.rs:3406-3437 | an intent that has not started when the emergency stop trips never starts in any continuation, whatever is resumed, approved, armed or rotated later, and no preparation of it ever succeeds |
| `Guarantees.StoppedStartsNothing` | crates/domain/src/lib.rs:449-451 | while the switch is on, no preparation of any intent succeeds |
| `Guarantees.StopIsAvailable` | crates/domain/src/lib.rs:155-158 | turning the stop on is never refused: neither by the audit quota nor by the self-validation of the save |
| `Guarantees.SpendingStaysWithinLimits` | crates/domain/src/lib.rs:465-479 | in every state of every run, open and settled purchases of each session and of the agent stay within any session, lifetime and exposure limits that bound the policy in force whenever an event reserved funds for the agent, and every 24-hour window holds at most such a rolling limit of settled spend |
| `Guarantees.TopupsStayWithinRatio` | crates/domain/src/lib.rs:3904-3933 | over a whole run the spendable top-ups are at most the largest ratio that an accepted verified deposit used, that of its target agent, times the verified income |
| `Guarantees.ReplayedDepositChangesNothing` | crates/domain/src/lib.rs:3882-3893 | once a deposit was acknowledged, replaying it at any later point, after any crash, changes nothing, and other details under its reference are refused |
| `Guarantees.AcknowledgedForever` | crates/domain/src/lib.rs:2289-2298 | whatever was answered with success is part of every later state in memory and on disk: log, ledger, deposits, receipts and progress |
| `Guarantees.RunExtends` | crates/domain/src/lib.rs:2289-2313 | every later state extends an earlier one: log and ledger only grow, deposits and receipts never change, no intent moves backwards, and the treasury currency is fixed |
| `Guarantees.SuccessIsDurable` | crates/domain/src/lib.rs:2276-2298 | a successful request, execution or checkout leaves exactly the state in memory on disk |
| `Guarantees.EveryLogVerifies` | crates/domain/src/lib.rs:1886-1923 | the log of every reachable state verifies, counts its own entries, stays within both quotas, and the switch is on exactly after an odd number of switch entries, at most 257 of them |
| `Guarantees.EveryStateIsSolvent` | crates/domain/src/lib.rs:4380-4451 | in every reachable state authority is not negative, holds reserved less released equal the reserved sum, each intent has exactly the ledger events and the receipt of its state, the simulated provider covers authority plus idle income plus every untouched reservation, the card balance covers all reservations, and deposits are counted once |
| `Guarantees.RequestsAreAllOrNothing` | crates/domain/src/lib.rs:2288-2314 | a refused request leaves memory as it was, or with one coalesced rate-limit entry that is then also what is on disk; success leaves disk equal to memory |
| `Guarantees.ExecutionsAreAllOrNothing` | crates/domain/src/lib.rs:2259-2287 | an execution either submits nothing and leaves memory untouched, or submits from a durable prepared state and keeps the outcome in memory whatever the last save does; it reports success exactly when that save was durable |
| `Guarantees.CompletedLoads` | crates/domain/src/lib.rs:2276-2286 | in simulated mode nothing fails after the submission: the quarantine branch is never taken and the outcome passes the validation of the save |
| `Guarantees.CheckoutsKeepTheirReservation` | crates/domain/src/lib.rs:1685-1693 | a checkout that submits nothing and survives leaves memory as it was exactly when its preparation was refused; it keeps the reservation exactly when the handoff entry is refused or the save behind it is not durable |
| `Guarantees.FailedCheckoutLeaves` | crates/domain/src/lib.rs:1685-1693 | what such a checkout leaves: nothing new on disk after a refused entry or a save lost before the rename, the handed-over state beside the old images after a save torn behind it |
| `Runs.NextStems` | apps/daemon/src/main.rs:2004-2006 | every state an event leaves was on disk and loads, or the state the event started from leads to it by elementary steps, and it loads |
| `Effects.ServeChanges` | crates/domain/src/lib.rs:2246-2316 | the only events that begin an intent are executions, checkouts and handoffs whose preparation succeeds, for the agent they name, and the only event that records a deposit is an accepted deposit under a new reference |
| `Runs.RunKeepsWorldSound` | crates/domain/src/lib.rs:2246-2316 | no event of any run leads out of the invariant of states |
| `Runs.InitialIsSound` | crates/domain/src/lib.rs:1783-1836 | the bootstrapped treasury satisfies the invariant and loads |
| `Serving.SubmissionServes` | crates/domain/src/lib.rs:2267-2287 | the submission protocol: if anything was submitted, the prepared state was saved and alone on disk before, and everything left shows the intent as begun |
| `Serving.ExecuteServes` | crates/domain/src/lib.rs:2259-2287 | an execution leaves only states that come by elementary steps and load, and submits at most the executable intent it names |
| `Serving.CheckoutServes` | crates/domain/src/lib.rs:1639-1781 | the same for controlled and owner-approved checkouts, whatever the executor answers |
| `Serving.CheckoutLands` | crates/domain/src/lib.rs:1694-1711 | every answer of an executor, an error included, brings the intent to rest by one move, with one entry in the log |
| `Serving.CallServes` | crates/domain/src/lib.rs:2288-2314 | every other request leaves only states that come by elementary steps and load |
| `Serving.RestartServes` | apps/daemon/src/main.rs:2004-2006 | a restart serves the image it loads, or, if executions were interrupted, their recovery once that alone is on disk |
| `Loads.RefusedSavesAreRotations` | crates/domain/src/lib.rs:1953-2079 | from a loadable state every accepted request writes a loadable state, except exactly the rotation whose later clock reading lets the session outlive the agent |
| `Loads.SoundLoads` | crates/domain/src/lib.rs:1953-2079 | of everything the load validation checks only agents and policies can ever fail |
| `RequestSteps.HandleLeads` | crates/domain/src/lib.rs:2318-2428 | whatever a request changes, it changes through elementary steps: two for a manual handoff, otherwise one, or none |
| `RequestSteps.DraftCloses` | crates/domain/src/lib.rs:2318-2428 | each single request, closed by its audit entry, is one step of the kind it asks for: an introduction, a move to the state it names, a deposit, a reconfiguration, or an administrative change |
| `RequestSteps.HandoffLeads` | crates/domain/src/lib.rs:3581-3615 | a manual handoff is a preparation followed by its own log entry |
| `RequestSteps.CreateIntentCloses` | crates/domain/src/lib.rs:2819-2865 | the created intent is the requested one, new, well formed, bound to the current session and to a key its agent has not used |
| `RequestSteps.DepositCloses` | crates/domain/src/lib.rs:3854-3983 | a recorded deposit uses a new reference, credits the balance of the mode in use only if verified, and makes spendable exactly the share of the target agent’s ratio |
| `RequestSteps.UnverifiedDepositMovesNothing` | crates/domain/src/lib.rs:3894-3970 | an accepted unverified deposit leaves the provider, the card balance and the authority of every currency as they were |
| `Invariant.ElementaryKeepsSound` | crates/domain/src/lib.rs:2318-2428 | every elementary step keeps the whole invariant: money, log, receipts, records, identifiers, keys and deposits |
| `Invariant.ReachesKeepsSound` | crates/domain/src/lib.rs:2318-2428 | so does every chain of steps |
| `Invariant.ElementaryKeepsDeposits` | crates/domain/src/lib.rs:3956-3971 | income in the ledger stays the sum of the recorded deposits, verified and unverified, in every currency |
| `Invariant.ElementaryKeepsIntents` | crates/domain/src/lib.rs:2723-2732 | receipts, stored records and the uniqueness of idempotency keys per agent are kept |
| `Invariant.ElementaryKeepsLog` | crates/domain/src/lib.rs:4541-4582 | the chain, the generation, the quotas and the parity of the stop switch are kept, and the log only grows by at most one entry a step |
| `Safety.ElementaryKeepsMoney` | crates/domain/src/lib.rs:4380-4451 | every elementary step keeps ledger agreement, non-negative authority, provider books and card coverage |
| `Safety.MovedKeepsMoney` | crates/domain/src/lib.rs:2957-3051 | a move of one intent keeps the money invariant |
| `Safety.CreditedKeepsMoney` | crates/domain/src/lib.rs:3854-3983 | a deposit keeps the money invariant |
| `Safety.CreditedTotals` | crates/domain/src/lib.rs:3934-3970 | exactly which totals a deposit changes, and by how much |
| `Safety.ReconfiguredKeepsMoney` | crates/domain/src/lib.rs:4022-4123 | configuring the card while nothing is in flight keeps it |
| `Safety.PrepareShape` | crates/domain/src/lib.rs:2888-2977 | what a successful preparation has checked and written: executable intent, current session, a decision that is no denial, four free audit slots, one hold, one entry |
| `Safety.StartIsCovered` | crates/domain/src/lib.rs:2936-2956 | funds are reserved only in the treasury currency and only while authority and the card balance cover them |
| `MoneyInvariant.MoveKeepsMoney` | crates/domain/src/lib.rs:2957-3051 | one intent moves along the table and the matching events are written: the money invariant survives if the provider follows |
| `MoneyInvariant.MoveKeepsLedger` | crates/domain/src/lib.rs:4331-4378 | every stored move writes exactly the events that its new state implies |
| `MoneyInvariant.ChargedProviderFollows` | crates/domain/src/lib.rs:1050-1060 | a charge taken once moves the balance by the total and clears the hold |
| `MoneyInvariant.DeclinedProviderFollows` | crates/domain/src/lib.rs:3781-3800 | releasing the hold of a declined purchase gives its reservation back and nothing else |
| `MoneyInvariant.RefundedProviderFollows` | crates/domain/src/lib.rs:1091-1104 | a refund returns the total of one settled purchase once |
| `LedgerInvariant.HoldsMatchReservations` | crates/domain/src/lib.rs:4423-4437 | holds reserved less holds released, read from the ledger, equal the reserved sum the snapshot derives from states |
| `LedgerInvariant.SettlementWritesBoth` | crates/domain/src/lib.rs:4351-4378 | on an open intent settlement writes its release and its settlement, both, once |
| `LedgerInvariant.LedgerStep` | crates/domain/src/lib.rs:4331-4349 | appending the events of one intent changes no other intent’s footprint |
| `Solvency.ProviderCoversAuthority` | crates/domain/src/lib.rs:1015-1021 | available provider balance less authority is verified income not made spendable plus every open reservation neither charged nor held |
| `Solvency.ReservationsSplit` | crates/domain/src/lib.rs:1004-1069 | open reservations split into charged, held and untouched ones |
| `Solvency.ReservedIsNeverDeclinedForBalance` | crates/domain/src/lib.rs:1023-1069 | a reserved purchase is declined by the simulator exactly when its scenario says so, and authorizing it never errs |
| `Solvency.ForeignAuthorityIsEmpty` | crates/domain/src/lib.rs:4438-4450 | no currency but the treasury’s ever has anything to spend |
| `Solvency.DecisionIsCovered` | crates/domain/src/lib.rs:4268-4319 | whatever passes a decision is in the treasury currency and covered by ledger and card |
| `Solvency.DecisionChecks` | crates/domain/src/lib.rs:435-575 | a decision that is no denial has checked every numeric limit, the switch, authority and balance against this usage |
| `Solvency.SnapshotFailsOnlyByOverflow` | crates/domain/src/lib.rs:4393-4449 | a snapshot in the treasury currency fails only by 64-bit overflow, never because authority would be negative |
| `Solvency.ReservationsNeverExceedReportedBalance` | crates/domain/src/lib.rs:2093-2115 | in manual mode the reservations never exceed the reported balance: the query fails exactly when the balance is stale, unconfirmed or a total overflows |
| `MoneyMath.ShareBounds` | crates/domain/src/lib.rs:221-234 | a reinvested share is never negative, never above the amount, and never above the exact share |
| `MoneyMath.SplitNeverGainsShare` | crates/domain/src/lib.rs:221-234 | splitting a deposit never yields a larger top-up |
| `Operations.PrepareIsElementary` | crates/domain/src/lib.rs:2888-2977 | reservation is one elementary step |
| `Operations.OutcomeShape` | crates/domain/src/lib.rs:2991-3051 | an executing intent takes any outcome: while one safety slot is left, applying it cannot fail |
| `Operations.CompleteIsElementary` | crates/domain/src/lib.rs:2979-3051 | in simulated mode completion never fails and moves provider, ledger and intent together |
| `Operations.AnswerFollows` | crates/domain/src/lib.rs:1023-1069 | whatever the scenario, the simulator’s answer and its books agree |
| `Operations.ManualOutcomeIsElementary` | crates/domain/src/lib.rs:1694-1711 | an executor’s outcome moves no balance the broker keeps |
| `Operations.QuarantineIsElementary` | crates/domain/src/lib.rs:3053-3075 | a quarantined execution becomes unknown and keeps its reservation |
| `Operations.RecoverLeads` | crates/domain/src/lib.rs:1925-1951 | recovery is a chain of elementary steps |
| `Operations.RecoverEffect` | crates/domain/src/lib.rs:1925-1951 | after recovery nothing executes, and exactly the interrupted intents became unknown |
| `Reconciliation.ReconcileSucceedsExactly` | crates/domain/src/lib.rs:3704-3852 | which reconciliations are accepted, exactly: settling an uncertain intent is never refused for balance |
| `Reconciliation.ReconcileIsElementary` | crates/domain/src/lib.rs:3704-3852 | an accepted reconciliation is one elementary step to the outcome the owner named |
| `Reconciliation.ProviderReconciles` | crates/domain/src/lib.rs:1110-1136 | the simulator can always settle an uncertain purchase, from its hold, its charge or afresh, and charges it once |
| `Reconciliation.SettledManual` | crates/domain/src/lib.rs:3749-3774 | the card balance covers every uncertain intent, so only a missing reference is refused |
| `Reconciliation.DeclinedShape` | crates/domain/src/lib.rs:3781-3800 | declining is refused exactly when the simulator has charged the purchase |
| `Reconciliation.RefundedUncertain` | crates/domain/src/lib.rs:3801-3840 | refunding an uncertain purchase settles and refunds it at once, exactly when there is a reference and a charge to give back |
| `Reconciliation.RefundedSettled` | crates/domain/src/lib.rs:3813-3840 | a settled purchase can be refunded exactly when the balance stays in range |
| `Reserve.PrepareKeepsReserve` | crates/domain/src/lib.rs:4518-4539 | a preparation leaves room for every entry it will still owe and one handoff entry |
| `Reserve.DischargeKeepsReserve` | crates/domain/src/lib.rs:4541-4582 | a move that lowers what an intent owes, with at most one entry, keeps the reserve |
| `Reserve.OrdinaryEntryKeepsReserve` | crates/domain/src/lib.rs:155-172 | an ordinary entry keeps the reserve while at most 1024 slots are owed |
| `Reserve.OtherEntryKeepsReserve` | crates/domain/src/lib.rs:155-172 | an entry that discharges no debt keeps the reserve exactly while a slot is left over |
| `Reserve.RecoverSucceeds` | crates/domain/src/lib.rs:1925-1951 | with the reserve in place recovery is never refused for quota |
| `Reserve.RecoverSucceedsExactly` | crates/domain/src/lib.rs:1925-1951 | recovery succeeds exactly if nothing was interrupted or the log has one slot for every interrupted execution |
| `Reserve.ReconcileIsLogged` | crates/domain/src/lib.rs:3842-3850 | nor is the reconciliation of an uncertain intent |
| `Reserve.HandoffQuota` | crates/domain/src/lib.rs:141-168 | after funds are reserved an agent’s checkout handoff is always logged, the owner’s exactly while the ordinary quota lasts |
| `Reserve.MovedSlots` | crates/domain/src/lib.rs:4518-4539 | the exact account of one step: entries written plus entries owed |
| `Reserve.SwitchKeepsReserve` | crates/domain/src/lib.rs:155-161 | turning the stop on or off never takes a slot |
| `ReserveRuns.HandleReserveExactly` | crates/domain/src/lib.rs:4518-4582 | the exact account of a request: after an accepted one the reserve holds exactly unless the request takes a slot nobody reserved when none is left over |
| `ReserveRuns.RestKeepsReserve` | crates/domain/src/lib.rs:2991-3075 | outcomes and quarantines of executions and checkouts stay within what was reserved for them |
| `ReserveRuns.ReserveHolds` | crates/domain/src/lib.rs:4518-4582 | in every state of every run the slots owed stay reserved, if each request about to write an entry nobody reserved finds a spare slot, or is ordinary while at most 1024 slots are owed |
| `ReserveRuns.MoneyStepsAreNeverRefused` | crates/domain/src/lib.rs:4518-4582 | along such a run every image restarts, and neither the completion of a manual handoff nor an allowed reconciliation of an uncertain intent is refused |
| `ReserveRuns.RestartsExactly` | crates/domain/src/lib.rs:1925-1951 | a sound image comes up again exactly if the log has a slot for each interrupted execution |
| `ReserveRuns.StaysDown` | apps/daemon/src/main.rs:2004-2006 | if no image on disk has, the broker never comes up again, whatever is tried |
| `Limits.StartFits` | crates/domain/src/lib.rs:2936-2956 | approved or not, an intent starts only if it fits under every limit together with all that is committed |
| `Limits.ElementaryKeepsTotals` | crates/domain/src/lib.rs:4205-4266 | every step keeps each session and the agent within limits that bound the agent’s policy in case the step begins one of its intents |
| `Limits.ElementaryKeepsRolling` | crates/domain/src/lib.rs:4205-4266 | every step keeps the rolling limit over all windows of 24 hours, on the same terms and however late a payment settles |
| `Limits.ReachesKeepsLimits` | crates/domain/src/lib.rs:4205-4266 | so does every chain of steps |
| `Limits.CommitmentIsIntents` | crates/domain/src/lib.rs:4205-4266 | what the usage recomputes from two histories is the total of the open and the settled intents |
| `Limits.MovedCommits` | crates/domain/src/lib.rs:4205-4266 | exactly how a move changes what is committed in any scope and span |
| `History.ElementaryExtends` | crates/domain/src/lib.rs:4331-4349 | no step takes anything back |
| `History.RetiredNeverPrepares` | crates/domain/src/lib.rs:2920-2928 | an intent of a session nobody holds can never be prepared |
| `History.ElementaryKeepsRetired` | crates/domain/src/lib.rs:3335-3376 | arming, rotating, resuming and approving never bring an old session back |
| `History.ElementaryKeepsTopups` | crates/domain/src/lib.rs:3904-3970 | each deposit adds at most the ratio it uses to what is spendable |
| `Records.StoredMovesFollowTable` | crates/domain/src/lib.rs:734-766 | every state change the broker stores is a chain of edges of the transition table and goes forward |
| `Records.TableExecutesOnce` | crates/domain/src/lib.rs:734-766 | no chain of transitions enters Executing twice |
| `AuditLog.LastHashPinsLog` | crates/domain/src/lib.rs:1886-1923 | two verifying logs with the same last hash are equal entry by entry |
| `AuditLog.AppendKeepsChain` | crates/domain/src/lib.rs:4559-4580 | an appended entry keeps the chain verifying |
| `Corners.AuthorizedIntentCannotBeCancelled` | crates/domain/src/lib.rs:3077-3101 | a concrete authorized intent whose cancellation the guard admits and the table refuses |
| `Corners.CancelSucceedsExactly` | crates/domain/src/lib.rs:3077-3101 | a cancellation succeeds exactly for the agent’s own intents awaiting approval or proposed, while ordinary entries are allowed |
| `Corners.RotationCanBeUnsaveable` | crates/domain/src/lib.rs:3498-3502 | a concrete rotation across a clock tick whose state cannot be loaded, hence not saved |
| `Corners.RefundOfSettledTakesASlot` | crates/domain/src/lib.rs:3842-3850 | refunding a settled purchase keeps the slot reserve exactly while a slot is left over |
| `Corners.RefundOfSettledNeedsASlot` | crates/domain/src/lib.rs:3842-3850 | the entry of a reconciliation is refused exactly when the log is full |
| `Witness.ExampleIsSound` | crates/domain/src/lib.rs:1953-2079 | the treasury of the corner cases is inside the invariant and loads, so what fails there fails in a lawful state |
| `Witness.BrokerStarts` | crates/domain/src/lib.rs:1783-1836 | a bootstrapped world exists, so the theorems about runs are not empty |
| `Witness.StopCanTrip` | crates/domain/src/lib.rs:3406-3437 | the stop can trip in a sound world while an authorized intent waits, as `StopIsFinal` supposes |
| `Witness.ExampleExecutes` | crates/domain/src/lib.rs:2259-2287 | an authorized intent in a sound world is submitted, once, and the broker reports success |
| `Witness.CheckoutSubmits` | crates/domain/src/lib.rs:1639-1712 | a controlled checkout in a sound world on the card submits, and the broker reports success |
| `Witness.FullLogRefusesOwner` | crates/domain/src/lib.rs:1752-1759 | with the ordinary quota used up, the owner’s checkout reserves the funds, is refused its entry and keeps the reservation, whatever else the log holds |
| `Witness.LostSaveKeepsReservation` | crates/domain/src/lib.rs:1685-1693 | a controlled checkout whose save is lost before the rename keeps a reservation the disk does not have |
| `Witness.RefundCanBeRefused` | crates/domain/src/lib.rs:3842-3850 | a sound, loadable treasury whose full log refuses the refund of a settled purchase |
| `Witness.RefundCanBreakReserve` | crates/domain/src/lib.rs:3842-3850 | one in which that refund is accepted and takes the slot an unknown purchase was owed |
| `Witness.RecoveryCanBeImpossible` | crates/domain/src/lib.rs:1925-1951 | a world of sound, loadable images in which no restart can ever succeed |
| `WitnessRuns.WaitingIsReached` | crates/domain/src/lib.rs:1783-1836 | a run from a bootstrapped broker, of accepted and saved requests, to an intent that waits, in either mode of settlement |
| `WitnessRuns.FillingIsReached` | crates/domain/src/lib.rs:155-168 | such a run can fill the log to any length up to the ordinary quota |
| `WitnessRuns.CancellationCanBeRefused` | crates/domain/src/lib.rs:3077-3101 | a run ends with an authorized intent whose cancellation the guard admits and the table refuses, whatever the clock reads |
| `WitnessRuns.RotationCanBeRolledBack` | crates/domain/src/lib.rs:3498-3502 | after a run from the start, a rotation across a clock tick is accepted, cannot be saved although nothing fails, and is rolled back |
| `WitnessRuns.LostCheckoutKeepsReservation` | crates/domain/src/lib.rs:1685-1693 | after a run from the start, a controlled checkout whose save is lost leaves an executing intent in memory that the disk does not have, and submits nothing |
| `WitnessRuns.OwnersHandoffCanBeRefused` | crates/domain/src/lib.rs:1752-1759 | a run from the start fills the ordinary quota; the owner’s checkout then reserves the funds, is refused its entry and leaves the intent executing in memory |
| `WitnessRuns.DepositsCanOverflowSnapshot` | crates/domain/src/lib.rs:4405-4408 | a run from the start records two unverified deposits within range, after which the snapshot fails and no decision in the treasury currency can be taken |
| `Broker.Treasury.Audit` | crates/domain/src/lib.rs:4541-4582 | extends the chain by one sealed entry and raises the generation, or refuses on quota and changes nothing |
| `Broker.Treasury.EmergencyEntries` | crates/domain/src/lib.rs:4550-4552 | counts the switch entries of the log |
| `Broker.Treasury.VerifyAuditChain` | crates/domain/src/lib.rs:1886-1923 | one pass accepts exactly the contiguous chains |
| `Broker.Treasury.ValidateState` | crates/domain/src/lib.rs:1953-2079 | the validation in place, with loops over policies, agents, intents and ledger, accepts exactly the valid states |
| `Broker.Treasury.IntentsValid` | crates/domain/src/lib.rs:2003-2041 | the loop over the intents |
| `Broker.Treasury.AgentsValid` | crates/domain/src/lib.rs:1981-2002 | the loop over the agents |
| `Broker.Treasury.SaveTo` | crates/domain/src/lib.rs:1859-1884 | validates, verifies the log, and only then replaces the image: the disk holds what a save under that fault leaves |
| `Broker.Treasury.RequireWorkflowCapacity` | crates/domain/src/lib.rs:4518-4539 | succeeds exactly while used, owed and new slots fit |
| `Broker.Treasury.AppendLedger` | crates/domain/src/lib.rs:4331-4349 | appends one event and changes nothing else |
| `Broker.Treasury.RecordSettled` | crates/domain/src/lib.rs:4351-4378 | at most one release and one settlement per intent |
| `Broker.Treasury.SettledUsage` | crates/domain/src/lib.rs:4217-4243 | the first loop: checked totals equal the sums over the ledger, and fail exactly when the lifetime sum overflows |
| `Broker.Treasury.AddReservations` | crates/domain/src/lib.rs:4244-4264 | the second loop: every open reservation is added to each total it counts in; another currency or an overflow fails |
| `Broker.Treasury.Usage` | crates/domain/src/lib.rs:4205-4266 | equals the specification’s usage, errors included, on every ledger without negative amounts |
| `Broker.Treasury.CountIntents` | crates/domain/src/lib.rs:4209-4216 | counts an agent’s intents, or its recent ones |
| `Broker.Treasury.LedgerSums` | crates/domain/src/lib.rs:4393-4422 | the first loop of the snapshot: six checked totals |
| `Broker.Treasury.ReservedSum` | crates/domain/src/lib.rs:4423-4437 | the second loop: the open reservations of a currency, or an overflow |
| `Broker.Treasury.Snapshot` | crates/domain/src/lib.rs:4380-4451 | equals the specification’s snapshot, errors included |
| `Broker.Treasury.SimulatedAvailable` | crates/domain/src/lib.rs:1015-1021 | the balance less the sum of all holds |
| `Broker.Treasury.Available` | crates/domain/src/lib.rs:2093-2115 | what a new reservation may draw on, by mode |
| `Broker.Treasury.Reported` | crates/domain/src/lib.rs:2117-2130 | the reported balance, by mode |
| `Broker.Treasury.Enforce` | crates/domain/src/lib.rs:4268-4319 | turns into a denial whatever ledger, provider, treasury size or ceiling does not cover |
| `Broker.Treasury.Judge` | crates/domain/src/lib.rs:2936-2948 | usage, policy and authority in the order the broker asks them |
| `Broker.Treasury.PrepareExecution` | crates/domain/src/lib.rs:2888-2977 | re-decides, reserves, logs and enters Executing |
| `Broker.Treasury.AuthorizeSimulated` | crates/domain/src/lib.rs:1023-1069 | answers by scenario and balance and moves hold, charge and balance accordingly |
| `Broker.Treasury.ApplyOutcome` | crates/domain/src/lib.rs:2991-3051 | stores outcome, ledger events, entry and intent in that order, keeping what was written when a later part fails |
| `Broker.Treasury.CompleteExecution` | crates/domain/src/lib.rs:2979-2989 | submits once and applies the answer |
| `Broker.Treasury.QuarantineExecution` | crates/domain/src/lib.rs:3053-3075 | marks the intent unknown before the entry is attempted |
| `Broker.Treasury.RecoverInterrupted` | crates/domain/src/lib.rs:1925-1951 | one entry per interrupted execution, in key order |
| `Broker.Treasury.SettlePendingHold` | crates/domain/src/lib.rs:1071-1089 | turns a hold into a settled charge |
| `Broker.Treasury.SettleAtProvider` | crates/domain/src/lib.rs:1110-1136 | settles from hold, charge or balance |
| `Broker.Treasury.RefundAtProvider` | crates/domain/src/lib.rs:1091-1104 | gives a charge back once |
| `Broker.Treasury.ReconcileSettledIntent` | crates/domain/src/lib.rs:3740-3780 | the settled branch |
| `Broker.Treasury.ReconcileDeclinedIntent` | crates/domain/src/lib.rs:3781-3800 | the declined branch |
| `Broker.Treasury.ReconcileRefundedIntent` | crates/domain/src/lib.rs:3801-3840 | the refunded branch |
| `Broker.Treasury.ReconcileIntent` | crates/domain/src/lib.rs:3704-3842 | reopens an uncertain intent, settles, declines or refunds it, and stores it |
| `Broker.Treasury.FindByKey` | crates/domain/src/lib.rs:2723-2732 | finds the agent’s intent under an idempotency key, if there is one |
| `Broker.Treasury.HasDuplicate` | crates/domain/src/lib.rs:2784-2796 | finds a likely duplicate of the last fifteen minutes |
| `Broker.Treasury.RecentlyLimited` | crates/domain/src/lib.rs:2754-2759 | finds a rate-limit entry of the last minute |
| `Broker.Treasury.CreateIntent` | crates/domain/src/lib.rs:2714-2865 | replays, refuses, throttles or stores exactly as specified; a refusal that is already logged changes nothing |
| `Broker.Treasury.AdmitPurchase` | crates/domain/src/lib.rs:2772-2865 | decides, asks for approval where a duplicate or the card requires it, logs and stores |
| `Broker.Treasury.CancelIntentRequest` | crates/domain/src/lib.rs:3077-3101 | as specified, with the guard that admits more than the table |
| `Broker.Treasury.CreateAgent` | crates/domain/src/lib.rs:3251-3333 | one policy and one agent under fresh identifiers |
| `Broker.Treasury.ArmSession` | crates/domain/src/lib.rs:3335-3376 | a fresh session, never beyond the agent’s expiry |
| `Broker.Treasury.UpdatePolicy` | crates/domain/src/lib.rs:3378-3404 | the next version of the agent’s policy, if its ceiling covers the authority |
| `Broker.Treasury.StopAgents` | crates/domain/src/lib.rs:3415-3422 | every agent gets a session nobody holds |
| `Broker.Treasury.EmergencyStop` | crates/domain/src/lib.rs:3406-3437 | unchanged when already so, otherwise the switch, the sessions and the entry |
| `Broker.Treasury.SetAgentMode` | crates/domain/src/lib.rs:3439-3461 | sets the mode of one agent |
| `Broker.Treasury.RevokeAgent` | crates/domain/src/lib.rs:3463-3481 | revokes and disables one agent |
| `Broker.Treasury.RotateCapability` | crates/domain/src/lib.rs:3483-3530 | new expiry, session and mode, with the two clock readings kept apart |
| `Broker.Treasury.ApproveMerchant` | crates/domain/src/lib.rs:3651-3684 | at most eight approved merchants, repeated approvals unchanged |
| `Broker.Treasury.Answer` | crates/domain/src/lib.rs:3532-3579 | approves or denies an intent that waits for it |
| `Broker.Treasury.BeginManualHandoff` | crates/domain/src/lib.rs:3581-3615 | prepares an approved intent and logs the handoff |
| `Broker.Treasury.CompleteManualHandoff` | crates/domain/src/lib.rs:3617-3649 | an executing manual purchase becomes unknown |
| `Broker.Treasury.OwnerReconcile` | crates/domain/src/lib.rs:3686-3702 | reconciles and logs |
| `Broker.Treasury.ShareOf` | crates/domain/src/lib.rs:3894-3933 | how much of a verified deposit becomes spendable, or why it may not be recorded |
| `Broker.Treasury.BookIncome` | crates/domain/src/lib.rs:3934-3970 | verified income reaches the balance of the mode in use |
| `Broker.Treasury.OwnerRecordDeposit` | crates/domain/src/lib.rs:3854-3983 | records a deposit once |
| `Broker.Treasury.ConfigureManualProvider` | crates/domain/src/lib.rs:4022-4123 | switches to the card while nothing is in flight |
| `Broker.Treasury.ConfigureReceiving` | crates/domain/src/lib.rs:3985-4020 | stores the receive instructions |
| `Broker.Treasury.Dispatch` | crates/domain/src/lib.rs:2318-2428 | every request does what its specification says |
| `Broker.Treasury.HandlePersisted` | crates/domain/src/lib.rs:2288-2314 | memory, disk and reply after snapshot, handling, save and rollback; in memory and on disk everything stays sound and loadable for the next call |
| `Broker.Treasury.ExecutePersisted` | crates/domain/src/lib.rs:2259-2287 | memory, disk and reply of an execution, with the same invariant |
| `Broker.Treasury.CheckoutPersisted` | crates/domain/src/lib.rs:1639-1781 | memory, disk and reply of a checkout, with the same invariant; the executor hands nothing over unless the event counts as a submission |
| `Broker.Start` | apps/daemon/src/main.rs:2004-2006 | load, recover, save, and only then serve; whatever is served is sound and loadable |
| `Broker.Disk.Replace` | crates/domain/src/lib.rs:4659-4676 | before the rename nothing has changed, after it the new image may be found beside the old ones, and after the sync it is alone |
| `Broker.LoadFrom` | crates/domain/src/lib.rs:1838-1857 | an image is served only if it validates and its log verifies |
| `Handoff.OwnerHandoffExecutor.SubmitOnce` | crates/domain/src/lib.rs:5486-5511 | consumed before the secret is fetched, so the transport sees at most one submission, of the bound intent, whatever fails |
| `Handoff.OwnerHandoffExecutor.ValidateOriginAndTotal` | crates/domain/src/lib.rs:5477-5484 | accepts exactly the approved request |
| `Paging.ListTransactions` | crates/domain/src/lib.rs:3127-3224 | a page holds the first keys below its cursor in descending order, and says whether more remain |
| `Paging.ListingIsComplete` | crates/domain/src/lib.rs:3127-3224 | whoever follows the returned cursors, with any limits from 1 to 50 and on states of the broker that extend each other, is never refused, reads every intent present at the start exactly once, newest first, and ends after finitely many pages |
| `Paging.FollowingListsEverything` | crates/domain/src/lib.rs:3127-3224 | pages that each start below the last entry of the one before list a growing set completely, once and in order |
| `Paging.FollowingTerminates` | crates/domain/src/lib.rs:3127-3224 | there are at most as many such pages as entries listed, plus one |
| `Paging.ListingGrows` | crates/domain/src/lib.rs:3145-3153 | between two pages the listing only grows |
| `Paging.ListAudit` | crates/domain/src/lib.rs:4147-4177 | a page holds the newest entries below its cursor |
| `Paging.FollowingListsTheLog` | crates/domain/src/lib.rs:4147-4177 | audit paging lists sequences n down to 1 exactly once, while the log may grow |
| `Paging.AuditListingIsComplete` | crates/domain/src/lib.rs:4147-4177 | whoever follows the audit cursors, with any limits from 1 to 50 and on states of the broker that extend each other, is never refused, reads the entries present at the start exactly once, newest first, and ends after at most as many pages as there were entries |
| `Admission.AgentAdmission.Bounds` | apps/daemon/src/main.rs:32-36 | at most four requests in flight, one live guard per capability with its entry kept, 128 entries, and any 401 channel requests, 201 requests of one capability or 41 unauthenticated ones take at least a second |
| `Admission.AgentAdmission.AdmitChannel` | apps/daemon/src/main.rs:135-150 | admits exactly below both limits and hands out one guard |
| `Admission.AgentAdmission.AdmitCapability` | apps/daemon/src/main.rs:152-179 | admits exactly if there is room for the entry, the capability is not in flight and its window has room; one guard per capability, and idle entries go while entries in flight never do |
| `Admission.AgentAdmission.AdmitAuthenticated` | apps/daemon/src/main.rs:181-188 | admits exactly if both do; a refused capability gives the channel guard back, though the channel request stays counted |
| `Admission.AgentAdmission.AdmitUnauthenticated` | apps/daemon/src/main.rs:119-133 | admits exactly while the window has room |
| `Admission.AgentAdmission.DropChannelGuard` | apps/daemon/src/main.rs:191-197 | the counter follows the live guards |
| `Admission.AgentAdmission.DropCapabilityGuard` | apps/daemon/src/main.rs:199-207 | frees the capability and keeps its entry |
| `Admission.AgentAdmission.ReplaceKnown` | apps/daemon/src/main.rs:105-117 | entries of unknown capabilities go unless in flight, and their request history with them |
| `Admission.WindowAdmits` | apps/daemon/src/main.rs:135-150 | an admission keeps any two windows’ worth of requests at least a second apart |
| `Spdx.EvaluatesToMeaning` | scripts/license-check.py:29-89 | evaluating the printed tokens of any expression, with minimal or extra parentheses, gives its meaning with WITH above AND above OR and consumes every token |
| `Spdx.EveryExpressionEvaluates` | scripts/license-check.py:29-89 | every expression tree has such a printing |
| `Spdx.IsPermissive` | scripts/license-check.py:29-89 | the evaluator, from its tokens on |
| `Spdx.PermissiveExpression.ReadFactor` | scripts/license-check.py:44-68 | reads one license, exception or parenthesis and leaves the shared position behind it |
| `Spdx.PermissiveExpression.ReadConjunction` | scripts/license-check.py:70-76 | the loop over AND |
| `Spdx.PermissiveExpression.ReadDisjunction` | scripts/license-check.py:78-84 | the loop over OR |
| `Spdx.AcceptsALoneOperator` | scripts/license-check.py:44-68 | the reader is no strict recognizer: malformed streams it accepts |
| `Addresses.EverySpellingReads` | packages/checkout-playwright/src/index.ts:69-92 | every spelling of an address under section 2.2 of RFC 4291 is read as its sixteen bytes |
| `Addresses.SpellingDoesNotMatter` | packages/checkout-playwright/src/index.ts:69-92 | two spellings of one address are never told apart |
| `Addresses.NormalizeDotted` | packages/checkout-playwright/src/index.ts:73-80 | a dotted tail is rewritten to two hexadecimal groups |
| `Addresses.FilterIsStricter` | crates/domain/src/lib.rs:4736-4768 | on sixteen bytes, the adapter’s filter refuses every IPv6 address the broker’s refuses |
| `Addresses.EverySpellingIsFiltered` | packages/checkout-playwright/src/index.ts:94-114 | from the text on: whatever the spelling, the adapter’s answer is that of the bytes, and it refuses every IPv6 address the broker’s filter refuses |
| `Addresses.V4FilterIsStricter` | packages/checkout-playwright/src/index.ts:94-103 | the IPv4 half, from the text on |
| `Addresses.MappedIsAskedAgain` | packages/checkout-playwright/src/index.ts:106-107 | for a mapped address the answer is that of its printed IPv4 text, the recursive call |
| `Addresses.MasksAreQuotients` | packages/checkout-playwright/src/index.ts:108-112 | the octet masks of the adapter are the quotients of the model |
| `Addresses.UniqueLocalMask` | crates/domain/src/lib.rs:4762-4762 | the broker’s mask for unique local addresses is the quotient of the model |
| `Addresses.LinkLocalMask` | crates/domain/src/lib.rs:4763-4763 | the same for link-local addresses |
| `Addresses.SiteLocalMask` | crates/domain/src/lib.rs:4764-4764 | the same for site-local addresses |
| `Addresses.FilterAdmitsOnlyGlobalUnicast` | packages/checkout-playwright/src/index.ts:108-113 | an admitted IPv6 address lies in global unicast space |

## Left out

- Sockets, peer credentials, file permissions, process groups and child processes: operating-system plumbing; only the order of load, recover, save, submit and crash is kept.
- SHA-256, HMAC, random values, JSON and serialization: a free constructor, a supply of identifiers and a lossless image stand for them.
- Token lookup and capability scopes: a request carries its caller, and an unknown token is a caller that nothing authenticates.
- Texts that no decision reads: audit details, the decision text and policy version of an audit entry, `last_error`, ledger sources, receipt hashes, the observation time of the card balance and the list of incoming deposits.
- Overflow of the 64-bit generation counter and of clock arithmetic.
- Boolean checkout facts, categories, merchant lists, tips, redirects and texts in `Policy::evaluate` and the request validation: answered by an arbitrary verdict at each decision.
- `canonicalize_domain`, `Url::parse`, `redact_sensitive` and the reference checks: libraries for URLs, IDNA and regular expressions; a request is malformed or not, by verdict.
- Read-only requests other than paging (status, capabilities, budget and `remaining_money`, dashboard, single intents, receipts): they change nothing.
- Execution through the in-memory `handle` and the demonstration command: the daemon uses the persisted path.
- `SimulatedProvider` as an object of its own: it is a value in the field `provider` of the class `Treasury`, and its methods are methods of that class, so aliasing of the provider is not modelled.
- Iteration over a `BTreeMap`: loops take any remaining key where the order does not matter, and the least key in the recovery loop.
- `Handoff.OwnerHandoffExecutor.SubmitOnce`: the secret provider and the transport are answers given in advance, so the secret itself, its erasure and the helper protocol are not modelled.
- `Admission.AgentAdmission.ReplaceKnown`: a capability that is no longer known loses its request history with its entry, so the bound for one capability counts from there.
- The mutex of the limiter: a poisoned lock is not modelled, and admissions happen one after another as under the lock.
- The tokenizer of `scripts/license-check.py` and malformed token streams: evaluation starts from tokens, and nothing is claimed about streams that no expression prints, beyond one example that is accepted.
- Node's `isIP` and the prefix rule of `parseInt`: reading starts from the grammar of valid address text; bit masks are quotients, as `Addresses.MasksAreQuotients` and its companions justify.
- `Witness.RefundCanBeRefused`, `Witness.RefundCanBreakReserve`, `Witness.RecoveryCanBeImpossible`: their states are sound and can be loaded, but no run from a fresh broker to them is given.
- Sorting in the listing requests: `sort_by_key` is modelled by repeated selection of the next key.
- Secret stores and the owner helper, the MCP server, both SDKs, the browser run, the dashboard page, the container files and the release scripts: input, output or thin wrappers.
