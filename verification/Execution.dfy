/** Reservation, submission outcome, quarantine, recovery and reconciliation, as functions of the state. */
module Execution {
  import opened Results
  import opened Sums
  import opened MoneyMath
  import opened Records
  import opened AuditLog
  import opened Budget

  const PREPARE_SLOTS: nat := 4

  /** Audit slots an intent still needs before its money is settled. */
  ghost function OwedW(): (Id, Intent) -> int {
    (i: Id, x: Intent) => if x.state.Executing? then 2 else if x.state.Uncertain() then 1 else 0
  }

  ghost function Owed(intents: map<Id, Intent>): nat {
    SumNonNegative(intents, OwedW());
    Sum(intents, OwedW())
  }

  /** The effect of a step whose error does not undo what was already written. */
  datatype Attempt = Attempt(state: TreasuryState, error: Option<Error>)

  function Append(s: TreasuryState, kind: LedgerEventKind, amount: Money, intentId: Option<Id>, at: int): TreasuryState {
    s.(ledger := s.ledger + [LedgerEvent(at, kind, amount, intentId)])
  }

  predicate HasEvent(ledger: seq<LedgerEvent>, id: Id, kind: LedgerEventKind) {
    exists e :: e in ledger && e.intentId == Some(id) && e.kind == kind
  }

  /** `record_settled`: at most one release and one settlement per intent. */
  function RecordSettled(s: TreasuryState, id: Id, amount: Money, at: int): TreasuryState {
    var released := if HasEvent(s.ledger, id, HoldReleased) then s else Append(s, HoldReleased, amount, Some(id), at);
    if HasEvent(released.ledger, id, SpendingSettled) then released
    else Append(released, SpendingSettled, amount, Some(id), at)
  }

  function IssueReceipt(id: Id, x: Intent, at: int): Result<Intent> {
    if x.receipt.Some? then Err(Conflict)
    else Ok(x.(receipt := Some(Receipt(id, x.request.merchant, x.request.finalTotal, x.state, x.reference, at))))
  }

  // ----- reservation -----

  /** Whether the owner-armed session and the intent are both current. */
  function SessionCurrent(x: Intent, agent: Agent, policy: Policy, at: int): Result<()> {
    if agent.sessionExpiresAt <= at || x.session != agent.session then Err(Forbidden)
    else if at > x.createdAt + policy.intentTtl || at > x.createdAt + policy.sessionTtl then Err(Conflict)
    else Ok(())
  }

  function ExecutableIntent(s: TreasuryState, agent: Id, id: Id): Result<Intent> {
    if agent !in s.agents || id !in s.intents then Err(NotFound)
    else
      var x := s.intents[id];
      if x.agentId != agent then Err(Forbidden)
      else if x.state.Unknown? || x.state.ProviderPending? then Err(Conflict)
      else if x.state.ApprovalRequired? then Err(Forbidden)
      else if !x.state.Executable() then Err(Conflict)
      else Ok(x)
  }

  function PolicyOf(s: TreasuryState, agent: Id): Result<Policy> {
    if agent !in s.agents || s.agents[agent].policyId !in s.policies then Err(NotFound)
    else Ok(s.policies[s.agents[agent].policyId])
  }

  /** `prepare_intent_execution`: re-decide, reserve the funds, and enter `Executing`. */
  ghost function Prepare(s: TreasuryState, agent: Id, id: Id, at: int, verdict: Verdict): Result<TreasuryState> {
    if !WorkflowCapacityAllows(Used(s.audit), Owed(s.intents), PREPARE_SLOTS) then Err(Conflict)
    else
      var x :- ExecutableIntent(s, agent, id);
      var policy :- PolicyOf(s, agent);
      var _ :- SessionCurrent(x, s.agents[agent], policy, at);
      var decision :- Decide(s, agent, x.request, policy, at, verdict);
      if !(decision.Allow? || (x.state.Approved? && decision.NeedApproval?)) then Err(Forbidden)
      else
        var held := Append(s, HoldReserved, x.request.finalTotal, Some(id), at);
        var logged :- Record(held, AgentActor(agent), ReserveFunds, Some(id), at);
        Ok(logged.(intents := s.intents[id := x.(state := Executing, updatedAt := at)]))
  }

  // ----- the simulated provider -----

  /** `SimulatedProvider::authorize`. */
  ghost function Authorize(p: SimulatedProvider, id: Id, r: PurchaseRequest, nextId: Id)
    : Result<(SimulatedProvider, ProviderOutcome)>
  {
    if id in p.charges then Ok((p, ProviderApproved(p.charges[id].reference)))
    else if r.scenario.Decline? then Ok((p, ProviderDeclined))
    else if r.scenario.TimeoutBeforeSubmit? then Ok((p, ProviderUnknown))
    else
      var available :- ProviderAvailable(p);
      if available.minor < r.finalTotal.minor then Ok((p, ProviderDeclined))
      else if r.scenario.DelayedSettlement? then
        Ok((p.(holds := p.holds[id := r.finalTotal]), ProviderDelayed(nextId)))
      else
        var balance :- p.balance.CheckedSub(r.finalTotal);
        var charge := Charge(r.finalTotal, nextId, !r.scenario.TimeoutAfterSubmit?, false);
        var charged := p.(balance := balance, charges := p.charges[id := charge]);
        Ok((charged, if r.scenario.TimeoutAfterSubmit? || r.scenario.BrowserCrash? then ProviderUnknown
                     else ProviderApproved(nextId)))
  }

  /** `SimulatedProvider::settle_pending`. */
  function SettlePending(p: SimulatedProvider, id: Id, nextId: Id): Result<(SimulatedProvider, Id)> {
    if id !in p.holds then Err(NotFound)
    else
      var balance :- p.balance.CheckedSub(p.holds[id]);
      Ok((p.(balance := balance, holds := p.holds - {id},
             charges := p.charges[id := Charge(p.holds[id], nextId, true, false)]), nextId))
  }

  /** `SimulatedProvider::reconcile_settled`. */
  ghost function ReconcileSettled(p: SimulatedProvider, id: Id, total: Money, reference: Id, nextId: Id)
    : Result<(SimulatedProvider, Id)>
  {
    if id in p.holds then SettlePending(p, id, nextId)
    else if id in p.charges then
      Ok((p.(charges := p.charges[id := p.charges[id].(settled := true)]), p.charges[id].reference))
    else
      var available :- ProviderAvailable(p);
      if available.minor < total.minor then Err(MoneyError)
      else
        var balance :- p.balance.CheckedSub(total);
        Ok((p.(balance := balance, charges := p.charges[id := Charge(total, reference, true, false)]), reference))
  }

  /** `SimulatedProvider::refund`. */
  function RefundCharge(p: SimulatedProvider, id: Id): Result<(SimulatedProvider, Money)> {
    if id !in p.charges then Err(NotFound)
    else if p.charges[id].refunded then Err(Conflict)
    else
      var balance :- p.balance.CheckedAdd(p.charges[id].amount);
      Ok((p.(balance := balance, charges := p.charges[id := p.charges[id].(refunded := true)]), p.charges[id].amount))
  }

  // ----- outcomes -----

  function IntentOf(s: TreasuryState, agent: Id, id: Id): Result<Intent> {
    if id !in s.intents then Err(NotFound)
    else if s.intents[id].agentId != agent then Err(Forbidden)
    else Ok(s.intents[id])
  }

  /** The settled intent with its receipt, and its ledger events. */
  function Settle(s: TreasuryState, id: Id, x: Intent, reference: Id, at: int): Result<(TreasuryState, Intent)> {
    var settled :- x.(reference := Some(reference)).Transition(Settled, at);
    var receipted :- IssueReceipt(id, settled, at);
    Ok((RecordSettled(s, id, x.request.finalTotal, at), receipted))
  }

  /** Ledger events and the new intent that an outcome asks for, before the audit entry is written. */
  function OutcomeEffect(s: TreasuryState, id: Id, x: Intent, outcome: ProviderOutcome, at: int)
    : Result<(TreasuryState, Intent)>
  {
    match outcome
    case ProviderApproved(reference) =>
      Settle(s, id, x, reference, at)
    case ProviderDeclined =>
      var declined :- x.Transition(Declined, at);
      Ok((Append(s, HoldReleased, x.request.finalTotal, Some(id), at), declined))
    case ProviderDelayed(reference) =>
      var pending :- x.(reference := Some(reference)).Transition(ProviderPending, at);
      Ok((s, pending))
    case ProviderUnknown =>
      var unknown :- x.Transition(Unknown, at);
      Ok((s, unknown))
  }

  /** `apply_provider_outcome`. */
  function ApplyOutcome(s: TreasuryState, agent: Id, id: Id, outcome: ProviderOutcome, at: int): Attempt {
    match IntentOf(s, agent, id)
    case Err(e) => Attempt(s, Some(e))
    case Ok(x) =>
      if !x.state.Executing? then Attempt(s, Some(Conflict))
      else
        match OutcomeEffect(s, id, x, outcome, at)
        case Err(e) => Attempt(s, Some(e))
        case Ok((paid, next)) =>
          match Record(paid, AgentActor(agent), ProviderOutcomeSeen, Some(id), at)
          case Err(e) => Attempt(paid, Some(e))
          case Ok(logged) => Attempt(logged.(intents := logged.intents[id := next]), None)
  }

  /** `provider_authorize`: the simulator answers itself, the manual card never does. */
  ghost function ProviderAuthorize(s: TreasuryState, id: Id, x: Intent, nextId: Id)
    : Result<(TreasuryState, ProviderOutcome)>
  {
    match s.mode
    case Simulated =>
      var answer :- Authorize(s.provider, id, x.request, nextId);
      Ok((s.(provider := answer.0), answer.1))
    case ManualPrepaidCard =>
      if s.manual.None? then Err(Conflict) else Ok((s, ProviderUnknown))
  }

  /** `complete_intent_execution`. */
  ghost function Complete(s: TreasuryState, agent: Id, id: Id, at: int, nextId: Id): Attempt {
    if agent !in s.agents then Attempt(s, Some(NotFound))
    else
      match IntentOf(s, agent, id)
      case Err(e) => Attempt(s, Some(e))
      case Ok(x) =>
        if !x.state.Executing? then Attempt(s, Some(Conflict))
        else
          match ProviderAuthorize(s, id, x, nextId)
          case Err(e) => Attempt(s, Some(e))
          case Ok((submitted, outcome)) => ApplyOutcome(submitted, agent, id, outcome, at)
  }

  /** `quarantine_execution`: the intent is stored as `Unknown` before the audit entry is attempted. */
  function Quarantine(s: TreasuryState, id: Id, at: int): Attempt {
    if id !in s.intents then Attempt(s, Some(NotFound))
    else
      var x := s.intents[id];
      if !x.state.Executing? && !x.state.Unknown? then Attempt(s, None)
      else
        var next := if x.state.Executing? then x.(state := Unknown, updatedAt := at) else x;
        var marked := s.(intents := s.intents[id := next]);
        match Record(marked, BrokerActor, QuarantineProviderError, Some(id), at)
        case Err(e) => Attempt(marked, Some(e))
        case Ok(logged) => Attempt(logged, None)
  }

  // ----- recovery -----

  ghost predicate IsLeast(ids: set<Id>, least: Id) {
    least in ids && forall j :: j in ids ==> least <= j
  }

  /** The elements of a finite set in rising order, as a `BTreeMap` iterates its keys. */
  ghost function Ascending(ids: set<Id>): (r: seq<Id>)
    ensures forall i :: i in r <==> i in ids
  {
    if ids == {} then []
    else
      HasLeast(ids);
      var least :| IsLeast(ids, least);
      [least] + Ascending(ids - {least})
  }

  /** What `Ascending` chooses, and what is left. */
  lemma AscendingUnfolds(ids: set<Id>) returns (least: Id)
    requires ids != {}
    ensures IsLeast(ids, least) && Ascending(ids) == [least] + Ascending(ids - {least})
  {
    HasLeast(ids);
    least := Ascending(ids)[0];
  }

  lemma {:induction false} AscendingRises(ids: set<Id>, i: nat, j: nat)
    requires i < j < |Ascending(ids)|
    ensures Ascending(ids)[i] < Ascending(ids)[j]
  {
    var least := AscendingUnfolds(ids);
    var rest := Ascending(ids - {least});
    if i == 0 {
      assert rest[j - 1] in ids - {least};
    } else {
      AscendingRises(ids - {least}, i - 1, j - 1);
    }
  }

  lemma {:induction false} AscendingCounts(ids: set<Id>)
    ensures |Ascending(ids)| == |ids|
  {
    if ids != {} {
      var least := AscendingUnfolds(ids);
      AscendingCounts(ids - {least});
    }
  }

  /** The least of a set is its least element without `x`, or `x`. */
  lemma LeastOfMore(ids: set<Id>, x: Id, y: Id)
    requires IsLeast(ids, y)
    ensures IsLeast(ids + {x}, if x < y then x else y)
  {
  }

  lemma {:induction false} LeastExists(ids: set<Id>) returns (least: Id)
    requires ids != {}
    ensures IsLeast(ids, least)
  {
    var x :| x in ids;
    var rest := ids - {x};
    assert ids == rest + {x};
    if rest == {} {
      least := x;
    } else {
      var y := LeastExists(rest);
      LeastOfMore(rest, x, y);
      least := if x < y then x else y;
    }
  }

  lemma HasLeast(ids: set<Id>)
    requires ids != {}
    ensures exists least :: IsLeast(ids, least)
  {
    var least := LeastExists(ids);
  }

  ghost function Interrupted(intents: map<Id, Intent>): set<Id> {
    set i | i in intents && intents[i].state.Executing?
  }

  function RecoverOne(s: TreasuryState, id: Id, at: int): Result<TreasuryState>
    requires id in s.intents
  {
    var unknown :- s.intents[id].Transition(Unknown, at);
    Record(s.(intents := s.intents[id := unknown]), BrokerActor, RecoverInterruptedExecution, Some(id), at)
  }

  function RecoverAll(s: TreasuryState, ids: seq<Id>, at: int): Result<TreasuryState>
    requires forall i :: i in ids ==> i in s.intents
    decreases |ids|
  {
    if |ids| == 0 then Ok(s)
    else
      var next :- RecoverOne(s, ids[0], at);
      RecoverAll(next, ids[1..], at)
  }

  /** `recover_interrupted_executions`. */
  ghost function Recover(s: TreasuryState, at: int): Result<TreasuryState> {
    RecoverAll(s, Ascending(Interrupted(s.intents)), at)
  }

  // ----- reconciliation -----

  datatype ReconciliationOutcome = ReconcileAsSettled | ReconcileAsDeclined | ReconcileAsRefunded

  predicate Reconcilable(state: TransactionState, outcome: ReconciliationOutcome) {
    state.Uncertain() || (outcome.ReconcileAsRefunded? && state.Settled?)
  }

  /** Move an uncertain intent to `ReconciliationRequired` first. */
  function Reopen(x: Intent, at: int): Result<Intent> {
    if x.state.Unknown? || x.state.ProviderPending? then x.Transition(ReconciliationRequired, at) else Ok(x)
  }

  function DebitManual(s: TreasuryState, total: Money): Result<TreasuryState> {
    if s.manual.None? then Err(Conflict)
    else if s.manual.value.amount.minor < total.minor then Err(Conflict)
    else
      var left :- s.manual.value.amount.CheckedSub(total);
      Ok(s.(manual := Some(s.manual.value.(amount := left))))
  }

  ghost function ReconcileAsSettledEffect(s: TreasuryState, id: Id, x: Intent, reference: Option<Id>, at: int, nextId: Id)
    : Result<(TreasuryState, Intent)>
  {
    match s.mode
    case Simulated =>
      var preferred := if reference.Some? then reference.value else if x.reference.Some? then x.reference.value else nextId;
      var answer :- ReconcileSettled(s.provider, id, x.request.finalTotal, preferred, nextId + 1);
      Settle(s.(provider := answer.0), id, x, answer.1, at)
    case ManualPrepaidCard =>
      if reference.None? then Err(Invalid)
      else
        var debited :- DebitManual(s, x.request.finalTotal);
        Settle(debited, id, x, reference.value, at)
  }

  function ReconcileAsDeclinedEffect(s: TreasuryState, id: Id, x: Intent, at: int): Result<(TreasuryState, Intent)> {
    if s.mode.Simulated? && id in s.provider.charges then Err(Conflict)
    else
      var released := if s.mode.Simulated? then s.(provider := s.provider.(holds := s.provider.holds - {id})) else s;
      var declined :- x.Transition(Declined, at);
      Ok((Append(released, HoldReleased, x.request.finalTotal, Some(id), at), declined))
  }

  function CreditRefund(s: TreasuryState, id: Id, x: Intent, wasSettled: bool): Result<(TreasuryState, Money)> {
    match s.mode
    case Simulated =>
      var answer :- RefundCharge(s.provider, id);
      Ok((s.(provider := answer.0), answer.1))
    case ManualPrepaidCard =>
      if s.manual.None? then Err(Conflict)
      else if wasSettled then
        var credited :- s.manual.value.amount.CheckedAdd(x.request.finalTotal);
        Ok((s.(manual := Some(s.manual.value.(amount := credited))), x.request.finalTotal))
      else Ok((s, x.request.finalTotal))
  }

  function ReconcileAsRefundedEffect(s: TreasuryState, id: Id, x: Intent, reference: Option<Id>, at: int)
    : Result<(TreasuryState, Intent)>
  {
    if x.state.Settled? then
      var refund :- CreditRefund(s, id, x, true);
      var refunded :- x.Transition(Refunded, at);
      Ok((Append(refund.0, Refund, refund.1, Some(id), at), refunded))
    else if reference.None? then Err(Invalid)
    else
      var settled :- Settle(s, id, x, reference.value, at);
      var refund :- CreditRefund(settled.0, id, settled.1, false);
      var refunded :- settled.1.Transition(Refunded, at);
      Ok((Append(refund.0, Refund, refund.1, Some(id), at), refunded))
  }

  ghost function ReconcileEffect(s: TreasuryState, id: Id, x: Intent, outcome: ReconciliationOutcome,
                                 reference: Option<Id>, at: int, nextId: Id)
    : Result<(TreasuryState, Intent)>
  {
    match outcome
    case ReconcileAsSettled => ReconcileAsSettledEffect(s, id, x, reference, at, nextId)
    case ReconcileAsDeclined => ReconcileAsDeclinedEffect(s, id, x, at)
    case ReconcileAsRefunded => ReconcileAsRefundedEffect(s, id, x, reference, at)
  }

  /** `owner_reconcile_inner` before its audit entry; a reference that looks like payment data is `malformed`. */
  ghost function Reconcile(s: TreasuryState, id: Id, outcome: ReconciliationOutcome, reference: Option<Id>,
                           malformed: bool, at: int, nextId: Id)
    : Result<TreasuryState>
  {
    if reference.Some? && malformed then Err(Invalid)
    else if id !in s.intents then Err(NotFound)
    else if !Reconcilable(s.intents[id].state, outcome) then Err(Conflict)
    else
      var x :- Reopen(s.intents[id], at);
      var effect :- ReconcileEffect(s, id, x, outcome, reference, at, nextId);
      Ok(effect.0.(intents := s.intents[id := effect.1]))
  }
}
