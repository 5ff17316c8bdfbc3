/** Reservation, outcomes, quarantine, recovery and reconciliation are elementary, and when they cannot fail. */
module Operations {
  import opened Results
  import opened MoneyMath
  import opened Records
  import opened AuditLog
  import opened Budget
  import opened Execution
  import opened LedgerInvariant
  import opened MoneyInvariant
  import opened Solvency
  import opened Steps
  import opened Safety
  import opened Invariant

  /** The money-safety quota has room for one more entry. */
  predicate SafetySlot(s: TreasuryState) {
    Used(s.audit) < MAX_AUDIT_ENTRIES
  }

  /** What the arguments below need of a state; `Sound` gives it. */
  ghost predicate Booked(s: TreasuryState) {
    MoneySound(s) && ReceiptsSound(s.intents)
  }

  lemma MovedIsElementary(s: TreasuryState, s': TreasuryState, supply: Id, id: Id, at: int)
    requires Moved(s, s', id, at) && LogFollows(s, s', at)
    ensures Elementary(s, s', supply, at)
  {
    hide Moved, LogFollows;
  }

  /** The move of `id` to `next`, closed by one audit entry. */
  lemma LoggedMove(s: TreasuryState, w: TreasuryState, id: Id, next: Intent, actor: Actor, action: AuditAction, at: int, supply: Id)
    requires id in s.intents && SameIdentity(s.intents[id], next) && StoredMove(s.intents[id].state, next.state)
    requires ReceiptSound(id, next) && StartsLawfully(s, id, next, at) && BalancesFollow(s, w, id, next)
    requires w == s.(intents := s.intents[id := next], ledger := s.ledger + MoveEvents(s.intents[id].state, next, id, at),
                     provider := w.provider, manual := w.manual)
    requires TreasuryCurrency(w) == TreasuryCurrency(s)
    requires !IsEmergency(action) && Record(w, actor, action, Some(id), at).Ok?
    ensures var s' := Record(w, actor, action, Some(id), at).value;
            Moved(s, s', id, at) && LogFollows(s, s', at) && Elementary(s, s', supply, at)
  {
    hide StoredMove, ReceiptSound, StartsLawfully, MoveEvents, ProviderFollows, SameIdentity;
    var s' := Record(w, actor, action, Some(id), at).value;
    RecordFollows(s, w, actor, action, Some(id), at);
    assert s'.intents[id] == next;
    assert Moved(s, s', id, at);
    MovedIsElementary(s, s', supply, id, at);
  }

  // ----- reservation -----

  /** Nothing moves at the provider. */
  lemma IdleBalances(s: TreasuryState, w: TreasuryState, id: Id, next: Intent)
    requires MoneySound(s) && id in s.intents && next.request == s.intents[id].request
    requires w.provider == s.provider && w.manual == s.manual
    requires s.intents[id].state.NeverReserved() || s.intents[id].state.Executing?
    requires next.state.NeverReserved() || next.state.Executing? || next.state.Unknown?
    ensures BalancesFollow(s, w, id, next)
  {
    if s.mode.Simulated? {
      IdleProviderFollows(s.intents, s.provider, id, next);
    }
    hide LedgerSound, AuthoritySound, ProviderSound, ManualSound, ProviderFollows;
  }

  lemma UnspentReceipt(s: TreasuryState, id: Id)
    requires ReceiptsSound(s.intents) && id in s.intents && !s.intents[id].state.Spent()
    ensures s.intents[id].receipt.None? && ReceiptSound(id, s.intents[id])
  {
  }

  lemma PrepareIsElementary(s: TreasuryState, agent: Id, id: Id, at: int, verdict: Verdict, supply: Id)
    requires Booked(s) && Prepare(s, agent, id, at, verdict).Ok?
    ensures var s' := Prepare(s, agent, id, at, verdict).value;
            Moved(s, s', id, at) && LogFollows(s, s', at) && Elementary(s, s', supply, at)
  {
    hide Prepare, MoneySound, ReceiptsSound, BalancesFollow, Decide, Owed, Used, CapacityAllows, Seal, EmergencyCount, LogFollows, Moved, Elementary,
         WorkflowCapacityAllows;
    PrepareShape(s, agent, id, at, verdict);
    var x := s.intents[id];
    var next := x.(state := Executing, updatedAt := at);
    var w := s.(intents := s.intents[id := next], ledger := s.ledger + [Hold(x, id, at)]);
    IdleBalances(s, w, id, next);
    UnspentReceipt(s, id);
    LoggedMove(s, w, id, next, AgentActor(agent), ReserveFunds, at, supply);
  }

  // ----- outcomes -----

  function OutcomeState(outcome: ProviderOutcome): TransactionState {
    match outcome
    case ProviderApproved(_) => TransactionState.Settled
    case ProviderDeclined => Declined
    case ProviderDelayed(_) => ProviderPending
    case ProviderUnknown => Unknown
  }

  /** Settling an open intent always works: it writes both events and the one receipt. */
  lemma SettleShape(s: TreasuryState, id: Id, x: Intent, reference: Id, at: int)
    requires LedgerSound(s.intents, s.ledger, TreasuryCurrency(s)) && id in s.intents && s.intents[id].state.Open()
    requires SameIdentity(s.intents[id], x) && x.state.CanTransition(TransactionState.Settled) && x.receipt.None?
    ensures var effect := Settle(s, id, x, reference, at);
            && effect.Ok? && effect.value.1.state.Settled?
            && SameIdentity(s.intents[id], effect.value.1) && ReceiptSound(id, effect.value.1)
            && effect.value.0 == s.(ledger := s.ledger + [Released(x, id, at), Spending(x, id, at)])
  {
    SettlementWritesBoth(s, TreasuryCurrency(s), id, x.request.finalTotal, at);
    hide LedgerSound, RecordSettled;
  }

  /** What an outcome writes for an executing intent, before the audit entry. */
  lemma EffectShape(s: TreasuryState, id: Id, outcome: ProviderOutcome, at: int)
    requires LedgerSound(s.intents, s.ledger, TreasuryCurrency(s))
    requires id in s.intents && s.intents[id].state.Executing? && s.intents[id].receipt.None?
    ensures var x, effect := s.intents[id], OutcomeEffect(s, id, s.intents[id], outcome, at);
            && effect.Ok? && effect.value.1.state == OutcomeState(outcome)
            && SameIdentity(x, effect.value.1) && ReceiptSound(id, effect.value.1)
            && effect.value.0 == s.(ledger := s.ledger + MoveEvents(x.state, effect.value.1, id, at))
  {
    hide LedgerSound, Settle;
    if outcome.ProviderApproved? {
      SettleShape(s, id, s.intents[id], outcome.reference, at);
    }
    assert s.ledger + [] == s.ledger;
  }

  /** What `apply_provider_outcome` does to an executing intent. */
  ghost predicate OutcomeApplied(s: TreasuryState, attempt: Attempt, agent: Id, id: Id, outcome: ProviderOutcome, at: int)
    requires id in s.intents
  {
    && attempt.error.None? && id in attempt.state.intents
    && var next := attempt.state.intents[id];
       var w := s.(intents := s.intents[id := next], ledger := s.ledger + MoveEvents(s.intents[id].state, next, id, at));
       && next.state == OutcomeState(outcome) && ReceiptSound(id, next) && SameIdentity(s.intents[id], next)
       && Record(w, AgentActor(agent), ProviderOutcomeSeen, Some(id), at) == Ok(attempt.state)
  }

  /** An executing intent takes any outcome: the step cannot fail while a safety slot is left. */
  lemma OutcomeShape(s: TreasuryState, agent: Id, id: Id, outcome: ProviderOutcome, at: int)
    requires LedgerSound(s.intents, s.ledger, TreasuryCurrency(s)) && ReceiptsSound(s.intents) && SafetySlot(s)
    requires id in s.intents && s.intents[id].agentId == agent && s.intents[id].state.Executing?
    ensures OutcomeApplied(s, ApplyOutcome(s, agent, id, outcome, at), agent, id, outcome, at)
  {
    assert ReceiptSound(id, s.intents[id]);
    assert s.intents[id].receipt.None?;
    EffectShape(s, id, outcome, at);
    hide LedgerSound, OutcomeEffect, MoveEvents, Used, EmergencyCount, Seal, ReceiptsSound, ReceiptSound, SameIdentity;
  }

  /** Once the provider follows, an applied outcome is one elementary step. */
  lemma OutcomeIsElementary(s: TreasuryState, submitted: TreasuryState, attempt: Attempt, agent: Id, id: Id,
                            outcome: ProviderOutcome, at: int, supply: Id)
    requires submitted == s.(provider := submitted.provider) && TreasuryCurrency(submitted) == TreasuryCurrency(s)
    requires id in s.intents && s.intents[id].state.Executing?
    requires OutcomeApplied(submitted, attempt, agent, id, outcome, at)
    requires BalancesFollow(s, submitted, id, attempt.state.intents[id])
    ensures Moved(s, attempt.state, id, at) && LogFollows(s, attempt.state, at) && Elementary(s, attempt.state, supply, at)
  {
    var next := attempt.state.intents[id];
    var w := submitted.(intents := s.intents[id := next], ledger := s.ledger + MoveEvents(s.intents[id].state, next, id, at));
    hide MoveEvents, ReceiptSound, SameIdentity, ProviderFollows, Record;
    LoggedMove(s, w, id, next, AgentActor(agent), ProviderOutcomeSeen, at, supply);
  }

  /** Outside the simulator the executor's answer moves no balance the broker keeps. */
  lemma ManualOutcomeIsElementary(s: TreasuryState, agent: Id, id: Id, outcome: ProviderOutcome, at: int, supply: Id)
    requires Booked(s) && SafetySlot(s) && s.mode.ManualPrepaidCard?
    requires id in s.intents && s.intents[id].agentId == agent && s.intents[id].state.Executing?
    ensures var attempt := ApplyOutcome(s, agent, id, outcome, at);
            && OutcomeApplied(s, attempt, agent, id, outcome, at)
            && Moved(s, attempt.state, id, at) && LogFollows(s, attempt.state, at) && Elementary(s, attempt.state, supply, at)
  {
    OutcomeShape(s, agent, id, outcome, at);
    var attempt := ApplyOutcome(s, agent, id, outcome, at);
    assert BalancesFollow(s, s, id, attempt.state.intents[id]) by {
      IntentFacts(s, id);
      hide ApplyOutcome, OutcomeApplied;
    }
    hide ApplyOutcome, OutcomeApplied, Booked, SafetySlot, BalancesFollow;
    OutcomeIsElementary(s, s, attempt, agent, id, outcome, at, supply);
  }

  /** What an answer of the simulator says about its books. */
  ghost predicate AnswerBooked(p: SimulatedProvider, p': SimulatedProvider, outcome: ProviderOutcome, id: Id, total: Money) {
    && p'.balance.currency == p.balance.currency
    && (outcome.ProviderApproved? ==> ChargedOnce(p, p', id, total))
    && (outcome.ProviderDelayed? ==> p' == p.(holds := p.holds[id := total]))
    && (outcome.ProviderDeclined? ==> p' == p)
    && (outcome.ProviderUnknown? ==> p' == p || ChargedOnce(p, p', id, total))
  }

  lemma AuthorizeBooks(p: SimulatedProvider, id: Id, r: PurchaseRequest, nextId: Id)
    requires id !in p.charges && id !in p.holds && Authorize(p, id, r, nextId).Ok?
    ensures AnswerBooked(p, Authorize(p, id, r, nextId).value.0, Authorize(p, id, r, nextId).value.1, id, r.finalTotal)
  {
    assert p.holds - {id} == p.holds;
    hide ProviderAvailable;
  }

  /** The simulator's answer and its books agree, whatever the scenario. */
  lemma AnswerFollows(intents: map<Id, Intent>, p: SimulatedProvider, p': SimulatedProvider, outcome: ProviderOutcome, id: Id, next: Intent)
    requires HoldsSound(intents, p) && ChargesSound(intents, p) && id in intents && intents[id].state.Executing?
    requires next.request == intents[id].request && next.state == OutcomeState(outcome)
    requires AnswerBooked(p, p', outcome, id, next.request.finalTotal)
    ensures ProviderFollows(intents, p, p', id, next)
  {
    ExecutingIsUntouched(intents, p, id);
    hide HoldsSound, ChargesSound, ProviderFollows, ChargedOnce;
    match outcome
    case ProviderApproved(_) => ChargedProviderFollows(intents, p, p', id, next);
    case ProviderDelayed(_) => HoldingProviderFollows(intents, p, id, next);
    case ProviderDeclined => IdleProviderFollows(intents, p, id, next);
    case ProviderUnknown =>
      if p' == p {
        IdleProviderFollows(intents, p, id, next);
      } else {
        ChargedProviderFollows(intents, p, p', id, next);
      }
  }

  /** `complete_intent_execution` in simulated mode submits, and then applies what the simulator answered. */
  lemma CompleteShape(s: TreasuryState, agent: Id, id: Id, at: int, nextId: Id)
    requires MoneySound(s) && s.mode.Simulated?
    requires agent in s.agents && id in s.intents && s.intents[id].agentId == agent && s.intents[id].state.Executing?
    ensures var answer := Authorize(s.provider, id, s.intents[id].request, nextId);
            && answer.Ok? && AnswerBooked(s.provider, answer.value.0, answer.value.1, id, s.intents[id].request.finalTotal)
            && Complete(s, agent, id, at, nextId) == ApplyOutcome(s.(provider := answer.value.0), agent, id, answer.value.1, at)
  {
    ReservedIsNeverDeclinedForBalance(s, id, nextId);
    ExecutingIsUntouched(s.intents, s.provider, id);
    AuthorizeBooks(s.provider, id, s.intents[id].request, nextId);
    hide Authorize, AnswerBooked, ApplyOutcome, LedgerSound, HoldsSound, ChargesSound, BalanceSound, AuthoritySound;
  }

  /** Execution in simulated mode never fails after the submission. */
  lemma CompleteIsElementary(s: TreasuryState, agent: Id, id: Id, at: int, nextId: Id, supply: Id)
    requires Booked(s) && SafetySlot(s) && s.mode.Simulated?
    requires agent in s.agents && id in s.intents && s.intents[id].agentId == agent && s.intents[id].state.Executing?
    ensures var attempt := Complete(s, agent, id, at, nextId);
            && attempt.error.None?
            && Moved(s, attempt.state, id, at) && LogFollows(s, attempt.state, at) && Elementary(s, attempt.state, supply, at)
  {
    hide Complete, ApplyOutcome, Authorize, LedgerSound, ReceiptsSound, HoldsSound, ChargesSound, BalanceSound,
         AuthoritySound, ManualSound, MoveEvents, SafetySlot, ProviderFollows, ReceiptSound, AnswerBooked, SameIdentity, Record;
    CompleteShape(s, agent, id, at, nextId);
    var answer := Authorize(s.provider, id, s.intents[id].request, nextId).value;
    var submitted := s.(provider := answer.0);
    SlotOfLog(s, submitted);
    assert TreasuryCurrency(submitted) == TreasuryCurrency(s) by {
      BookedCurrency(s.provider, answer.0, answer.1, id, s.intents[id].request.finalTotal);
    }
    OutcomeShape(submitted, agent, id, answer.1, at);
    var attempt := ApplyOutcome(submitted, agent, id, answer.1, at);
    var next := attempt.state.intents[id];
    assert next.request == s.intents[id].request by {
      SameRequest(s.intents[id], next);
    }
    AnswerFollows(s.intents, s.provider, answer.0, answer.1, id, next);
    hide Booked, MoneySound, OutcomeApplied;
    OutcomeIsElementary(s, submitted, attempt, agent, id, answer.1, at, supply);
  }

  lemma SameRequest(x: Intent, next: Intent)
    requires SameIdentity(x, next)
    ensures next.request == x.request && next.agentId == x.agentId
  {
  }

  lemma BookedCurrency(p: SimulatedProvider, p': SimulatedProvider, outcome: ProviderOutcome, id: Id, total: Money)
    requires AnswerBooked(p, p', outcome, id, total)
    ensures p'.balance.currency == p.balance.currency
  {
  }

  lemma SlotOfLog(s: TreasuryState, s': TreasuryState)
    requires s'.audit == s.audit
    ensures SafetySlot(s') == SafetySlot(s)
  {
  }

  // ----- losing track of an execution -----

  /** Marking an executing intent unknown loses nothing: its reservation stays. */
  lemma UnknownIsElementary(s: TreasuryState, id: Id, next: Intent, actor: Actor, action: AuditAction, at: int, supply: Id)
    requires Booked(s) && SafetySlot(s) && id in s.intents
    requires s.intents[id].state.Executing? && next == s.intents[id].(state := Unknown, updatedAt := next.updatedAt)
    requires IsMoneySafety(action)
    ensures var s' := Record(s.(intents := s.intents[id := next]), actor, action, Some(id), at);
            s'.Ok? && Moved(s, s'.value, id, at) && LogFollows(s, s'.value, at) && Elementary(s, s'.value, supply, at)
  {
    hide MoneySound, ReceiptsSound, BalancesFollow, Used, EmergencyCount, Seal, LogFollows, Moved, Elementary;
    assert s.ledger + [] == s.ledger;
    var w := s.(intents := s.intents[id := next]);
    IdleBalances(s, w, id, next);
    UnspentReceipt(s, id);
    LoggedMove(s, w, id, next, actor, action, at, supply);
  }

  lemma QuarantineIsElementary(s: TreasuryState, id: Id, at: int, supply: Id)
    requires Booked(s) && SafetySlot(s) && id in s.intents && s.intents[id].state.Executing?
    ensures var attempt := Quarantine(s, id, at);
            && attempt.error.None? && id in attempt.state.intents && attempt.state.intents[id].state.Unknown?
            && Moved(s, attempt.state, id, at) && LogFollows(s, attempt.state, at) && Elementary(s, attempt.state, supply, at)
  {
    hide Booked, SafetySlot, Record, Elementary, Moved, LogFollows;
    var next := s.intents[id].(state := Unknown, updatedAt := at);
    UnknownIsElementary(s, id, next, BrokerActor, QuarantineProviderError, at, supply);
    assert Quarantine(s, id, at).state.intents[id] == next by {
      RecordKeepsIntents(s.(intents := s.intents[id := next]), BrokerActor, QuarantineProviderError, Some(id), at);
    }
  }

  lemma RecordKeepsIntents(s: TreasuryState, actor: Actor, action: AuditAction, intentId: Option<Id>, at: int)
    requires Record(s, actor, action, intentId, at).Ok?
    ensures Record(s, actor, action, intentId, at).value.intents == s.intents
    ensures Record(s, actor, action, intentId, at).value.mode == s.mode
  {
  }

  // ----- recovery -----

  lemma RecoverOneIsElementary(s: TreasuryState, id: Id, at: int, supply: Id)
    requires Booked(s) && id in s.intents && s.intents[id].state.Executing? && RecoverOne(s, id, at).Ok?
    ensures var s' := RecoverOne(s, id, at).value;
            && s'.intents == s.intents[id := s.intents[id].(state := Unknown, updatedAt := at)] && SameOffice(s, s')
            && Moved(s, s', id, at) && Elementary(s, s', supply, at)
  {
    hide Booked, Elementary, Moved, LogFollows, Used, EmergencyCount, Seal;
    var next := s.intents[id].(state := Unknown, updatedAt := at);
    UnknownIsElementary(s, id, next, BrokerActor, RecoverInterruptedExecution, at, supply);
  }

  predicate AllExecuting(s: TreasuryState, ids: seq<Id>) {
    && (forall i :: i in ids ==> i in s.intents && s.intents[i].state.Executing?)
    && (forall i, j :: 0 <= i < j < |ids| ==> ids[i] < ids[j])
  }

  lemma RisingTail(s: TreasuryState, next: TreasuryState, ids: seq<Id>)
    requires |ids| > 0 && AllExecuting(s, ids)
    requires forall i :: i in s.intents && i != ids[0] ==> i in next.intents && next.intents[i] == s.intents[i]
    ensures AllExecuting(next, ids[1..]) && ids[0] !in ids[1..]
  {
    forall i | i in ids[1..]
      ensures i in next.intents && next.intents[i].state.Executing? && i != ids[0]
    {
      var k :| 0 <= k < |ids[1..]| && ids[1..][k] == i;
      assert ids[k + 1] == i;
    }
  }

  lemma RecoverAllUnfolds(s: TreasuryState, ids: seq<Id>, at: int)
    requires |ids| > 0 && AllExecuting(s, ids) && RecoverAll(s, ids, at).Ok?
    ensures ids[0] in s.intents && s.intents[ids[0]].state.Executing? && RecoverOne(s, ids[0], at).Ok?
    ensures var next := RecoverOne(s, ids[0], at).value;
            AllExecuting(next, ids[1..]) && RecoverAll(s, ids, at) == RecoverAll(next, ids[1..], at)
  {
    hide RecoverOne;
    RecoverOneEffect(s, ids[0], at);
    RisingTail(s, RecoverOne(s, ids[0], at).value, ids);
  }

  /** Recovery is one elementary step per interrupted execution. */
  lemma {:induction false} RecoverAllReaches(start: TreasuryState, s: TreasuryState, ids: seq<Id>, at: int, supply: Id, done: nat)
    requires Sound(s, NextId(supply) + 1) && AllExecuting(s, ids) && RecoverAll(s, ids, at).Ok? && 0 <= at
    requires Reaches(start, s, supply, at, at, done) && SameOffice(start, s)
    ensures Reaches(start, RecoverAll(s, ids, at).value, supply, at, at, done + |ids|)
    decreases |ids|
  {
    hide Sound, Reaches, RecoverOne, Elementary, Moved, Booked;
    if |ids| > 0 {
      RecoverAllUnfolds(s, ids, at);
      var next := RecoverOne(s, ids[0], at).value;
      SoundIsBooked(s, NextId(supply) + 1);
      RecoverOneIsElementary(s, ids[0], at, supply);
      ElementaryKeepsSound(s, next, supply, at);
      ReachesNext(start, s, next, supply, at, at, done);
      RecoverAllReaches(start, next, ids[1..], at, supply, done + 1);
    }
  }

  lemma FirstExecuting(s: TreasuryState, ids: seq<Id>)
    requires |ids| > 0 && AllExecuting(s, ids)
    ensures ids[0] in s.intents && s.intents[ids[0]].state.Executing?
  {
  }

  lemma RecoverOneEffect(s: TreasuryState, id: Id, at: int)
    requires id in s.intents && s.intents[id].state.Executing? && RecoverOne(s, id, at).Ok?
    ensures RecoverOne(s, id, at).value.intents == s.intents[id := s.intents[id].(state := Unknown, updatedAt := at)]
    ensures RecoverOne(s, id, at).value.mode == s.mode
  {
  }

  /** Each interrupted execution becomes unknown and no other intent moves. */
  lemma {:induction false} RecoverAllEffect(s: TreasuryState, ids: seq<Id>, at: int)
    requires AllExecuting(s, ids) && RecoverAll(s, ids, at).Ok?
    ensures var s' := RecoverAll(s, ids, at).value;
            && s'.intents.Keys == s.intents.Keys
            && (forall i :: i in s.intents ==>
                  s'.intents[i] == if i in ids then s.intents[i].(state := Unknown, updatedAt := at) else s.intents[i])
    decreases |ids|
  {
    hide RecoverOne, AllExecuting;
    if |ids| > 0 {
      FirstExecuting(s, ids);
      RecoverOneEffect(s, ids[0], at);
      var next := RecoverOne(s, ids[0], at).value;
      RisingTail(s, next, ids);
      RecoverAllEffect(next, ids[1..], at);
      assert ids == [ids[0]] + ids[1..];
    }
  }

  lemma InterruptedRise(s: TreasuryState)
    ensures AllExecuting(s, Ascending(Interrupted(s.intents)))
  {
    var ids := Ascending(Interrupted(s.intents));
    forall i, j | 0 <= i < j < |ids|
      ensures ids[i] < ids[j]
    {
      AscendingRises(Interrupted(s.intents), i, j);
    }
  }

  /** `recover_interrupted_executions` is a chain of elementary steps. */
  lemma RecoverLeads(s: TreasuryState, at: int, supply: Id)
    requires Sound(s, NextId(supply) + 1) && Recover(s, at).Ok? && 0 <= at
    ensures Leads(s, Recover(s, at).value, supply, at, at)
  {
    var ids := Ascending(Interrupted(s.intents));
    InterruptedRise(s);
    assert Reaches(s, s, supply, at, at, 0);
    hide Sound, RecoverAll, Reaches, AllExecuting, Interrupted;
    RecoverAllReaches(s, s, ids, at, supply, 0);
  }

  /** Afterwards nothing executes, and only the interrupted intents changed. */
  lemma RecoverEffect(s: TreasuryState, at: int)
    requires Recover(s, at).Ok?
    ensures var s' := Recover(s, at).value;
            && Interrupted(s'.intents) == {} && s'.intents.Keys == s.intents.Keys
            && (forall i :: i in s.intents ==>
                  s'.intents[i] == if s.intents[i].state.Executing? then s.intents[i].(state := Unknown, updatedAt := at)
                                   else s.intents[i])
  {
    hide RecoverAll, AllExecuting;
    InterruptedRise(s);
    RecoverAllEffect(s, Ascending(Interrupted(s.intents)), at);
  }

  lemma SoundIsBooked(s: TreasuryState, supply: Id)
    requires Sound(s, supply)
    ensures Booked(s)
  {
  }
}
