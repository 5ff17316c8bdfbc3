/**
 Audit slots reserved ahead of time: an execution is only begun while the log has room for every entry
 that the money in flight may still need, so no later money step can be refused for quota.
 */
module Reserve {
  import opened Results
  import opened Sums
  import opened Records
  import opened AuditLog
  import opened Budget
  import opened Execution
  import opened MoneyInvariant
  import opened Steps
  import opened Safety
  import opened Invariant
  import opened Operations
  import opened Reconciliation

  /** Entries written and entries owed fit into the log. */
  ghost predicate SlotsReserved(s: TreasuryState) {
    Used(s.audit) + Owed(s.intents) <= MAX_AUDIT_ENTRIES
  }

  /** Slots one intent still needs. */
  function Debt(state: TransactionState): nat {
    if state.Executing? then 2 else if state.Uncertain() then 1 else 0
  }

  lemma OwedMoves(intents: map<Id, Intent>, id: Id, next: Intent)
    requires id in intents
    ensures Owed(intents[id := next]) == Owed(intents) - Debt(intents[id].state) + Debt(next.state)
  {
    SumSwap(intents, id, next, OwedW(), OwedW());
  }

  lemma DebtIsOwed(intents: map<Id, Intent>, id: Id)
    requires id in intents
    ensures Debt(intents[id].state) <= Owed(intents)
  {
    SumMember(intents, id, OwedW());
  }

  /** The exact account of a step: one entry more, and what the moved intent now owes less or more. */
  lemma MovedSlots(s: TreasuryState, s': TreasuryState, id: Id, at: int)
    requires Moved(s, s', id, at) && LogFollows(s, s', at) && s'.audit != s.audit
    ensures id in s.intents && id in s'.intents
    ensures Used(s'.audit) + Owed(s'.intents)
         == Used(s.audit) + Owed(s.intents) + 1 - Debt(s.intents[id].state) + Debt(s'.intents[id].state)
  {
    hide Moved, ReceiptSound, StoredMove, StartsLawfully, MoveEvents, SameIdentity, Debt;
    MovedFrame(s, s', id, at);
    OwedMoves(s.intents, id, s'.intents[id]);
    EntryCounts(s, s', at);
  }

  lemma EntryCounts(s: TreasuryState, s': TreasuryState, at: int)
    requires LogFollows(s, s', at) && s'.audit != s.audit
    ensures Used(s'.audit) == Used(s.audit) + if IsEmergency(s'.audit[|s.audit|].body.action) then 0 else 1
    ensures s'.emergencyStop == s.emergencyStop ==> !IsEmergency(s'.audit[|s.audit|].body.action)
  {
    var body := s'.audit[|s.audit|].body;
    CountsAfterAppend(s.audit, Seal(s.audit, at, body.actor, body.action, body.intentId));
  }

  // ----- keeping the reserve -----

  /** A preparation leaves room for what it now owes and for one handoff entry more. */
  lemma PrepareKeepsReserve(s: TreasuryState, agent: Id, id: Id, at: int, verdict: Verdict)
    requires Booked(s) && Prepare(s, agent, id, at, verdict).Ok?
    ensures var s' := Prepare(s, agent, id, at, verdict).value;
            && Used(s'.audit) + Owed(s'.intents) + 1 <= MAX_AUDIT_ENTRIES && SlotsReserved(s')
            && SafetySlot(s')
  {
    PrepareShape(s, agent, id, at, verdict);
    hide Prepare, Booked, Decide;
    var x := s.intents[id];
    OwedMoves(s.intents, id, x.(state := Executing, updatedAt := at));
    CountsAfterAppend(s.audit, Seal(s.audit, at, AgentActor(agent), ReserveFunds, Some(id)));
    hide Used, Owed;
  }

  /** Outcomes, quarantine, recovery, a completed handoff, and the reconciliation of an uncertain intent spend only their own slots. */
  lemma DischargeKeepsReserve(s: TreasuryState, s': TreasuryState, id: Id, at: int)
    requires SlotsReserved(s) && Moved(s, s', id, at) && LogFollows(s, s', at)
    requires id in s.intents && id in s'.intents && Debt(s'.intents[id].state) < Debt(s.intents[id].state)
    ensures SlotsReserved(s')
  {
    hide Moved, LogFollows, Debt, Used, Owed;
    if s'.audit == s.audit {
      MovedIntents(s, s', id, at);
      OwedMoves(s.intents, id, s'.intents[id]);
    } else {
      MovedSlots(s, s', id, at);
    }
  }

  lemma MovedIntents(s: TreasuryState, s': TreasuryState, id: Id, at: int)
    requires Moved(s, s', id, at)
    ensures id in s.intents && id in s'.intents && s'.intents == s.intents[id := s'.intents[id]]
  {
    hide ReceiptSound, StoredMove, StartsLawfully, MoveEvents, SameIdentity, BalancesFollow;
  }

  /** Any other entry takes a slot nobody reserved: the reserve survives exactly while one is left over. */
  lemma OtherEntryKeepsReserve(s: TreasuryState, s': TreasuryState, at: int)
    requires LogFollows(s, s', at) && s'.audit != s.audit && Owed(s'.intents) == Owed(s.intents)
    requires s'.emergencyStop == s.emergencyStop
    ensures SlotsReserved(s') <==> Used(s.audit) + Owed(s.intents) < MAX_AUDIT_ENTRIES
  {
    EntryCounts(s, s', at);
    hide Used, Owed;
  }

  /** In particular an ordinary entry keeps it as long as no more than the safety margin is owed. */
  lemma OrdinaryEntryKeepsReserve(s: TreasuryState, s': TreasuryState, at: int)
    requires LogFollows(s, s', at) && s'.audit != s.audit && Owed(s'.intents) == Owed(s.intents) <= AUDIT_SAFETY_RESERVE
    requires var action := s'.audit[|s.audit|].body.action; !IsMoneySafety(action) && !IsEmergency(action)
    ensures SlotsReserved(s')
  {
    EntryCounts(s, s', at);
    hide Owed;
  }

  /** The stop switch never takes a slot. */
  lemma SwitchKeepsReserve(s: TreasuryState, s': TreasuryState, at: int)
    requires SlotsReserved(s) && LogFollows(s, s', at) && s'.emergencyStop != s.emergencyStop && s'.intents == s.intents
    ensures SlotsReserved(s')
  {
    EntryCounts(s, s', at);
    hide Used, Owed;
  }

  // ----- hence no money step is refused for quota -----

  lemma IndebtedHasSlot(s: TreasuryState, id: Id)
    requires SlotsReserved(s) && id in s.intents && 0 < Debt(s.intents[id].state)
    ensures SafetySlot(s)
  {
    DebtIsOwed(s.intents, id);
  }

  lemma SlotAdmits(s: TreasuryState, actor: Actor, action: AuditAction, intentId: Option<Id>, at: int)
    requires SafetySlot(s) && IsMoneySafety(action)
    ensures Record(s, actor, action, intentId, at).Ok?
  {
    hide Used, EmergencyCount;
  }

  /** A recovery goes through for every interrupted execution. */
  lemma {:induction false} RecoverAllSucceeds(s: TreasuryState, ids: seq<Id>, at: int)
    requires Booked(s) && SlotsReserved(s) && AllExecuting(s, ids)
    ensures RecoverAll(s, ids, at).Ok? && SlotsReserved(RecoverAll(s, ids, at).value)
    decreases |ids|
  {
    hide Booked, SlotsReserved, AllExecuting, RecoverOne;
    if |ids| > 0 {
      FirstExecuting(s, ids);
      RecoverOneSucceeds(s, ids[0], at);
      var next := RecoverOne(s, ids[0], at).value;
      RisingTail(s, next, ids);
      RecoverAllSucceeds(next, ids[1..], at);
    }
  }

  lemma RecoverOneSucceeds(s: TreasuryState, id: Id, at: int)
    requires Booked(s) && SlotsReserved(s) && id in s.intents && s.intents[id].state.Executing?
    ensures RecoverOne(s, id, at).Ok?
    ensures var s' := RecoverOne(s, id, at).value;
            Booked(s') && SlotsReserved(s') && s'.intents == s.intents[id := s.intents[id].(state := Unknown, updatedAt := at)]
  {
    hide Booked, SlotsReserved, Moved, LogFollows, Elementary, Record, SafetySlot;
    IndebtedHasSlot(s, id);
    var next := s.intents[id].(state := Unknown, updatedAt := at);
    UnknownIsElementary(s, id, next, BrokerActor, RecoverInterruptedExecution, at, 0);
    var s' := RecoverOne(s, id, at).value;
    RecordKeepsIntents(s.(intents := s.intents[id := next]), BrokerActor, RecoverInterruptedExecution, Some(id), at);
    DischargeKeepsReserve(s, s', id, at);
    MovedKeepsBooked(s, s', id, at);
  }

  lemma MovedKeepsBooked(s: TreasuryState, s': TreasuryState, id: Id, at: int)
    requires Booked(s) && Moved(s, s', id, at)
    ensures Booked(s')
  {
    hide MoneySound, Moved, ReceiptSound, StoredMove, StartsLawfully, MoveEvents, SameIdentity;
    MovedKeepsMoney(s, s', id, at);
    MovedFrame(s, s', id, at);
  }

  /** With the reserve in place a restart is never stopped by a full log. */
  lemma RecoverSucceeds(s: TreasuryState, at: int)
    requires Booked(s) && SlotsReserved(s)
    ensures Recover(s, at).Ok? && SlotsReserved(Recover(s, at).value)
  {
    hide Booked, SlotsReserved, AllExecuting, RecoverAll;
    InterruptedRise(s);
    RecoverAllSucceeds(s, Ascending(Interrupted(s.intents)), at);
  }

  lemma RecoverOneExactly(s: TreasuryState, id: Id, at: int)
    requires id in s.intents && s.intents[id].state.Executing?
    ensures RecoverOne(s, id, at).Ok? <==> SafetySlot(s)
    ensures RecoverOne(s, id, at).Ok? ==> Used(RecoverOne(s, id, at).value.audit) == Used(s.audit) + 1
  {
    CountsAfterAppend(s.audit, Seal(s.audit, at, BrokerActor, RecoverInterruptedExecution, Some(id)));
    hide EmergencyCount;
  }

  lemma {:induction false} RecoverAllExactly(s: TreasuryState, ids: seq<Id>, at: int)
    requires AllExecuting(s, ids)
    ensures RecoverAll(s, ids, at).Ok? <==> |ids| == 0 || Used(s.audit) + |ids| <= MAX_AUDIT_ENTRIES
    decreases |ids|
  {
    hide RecoverOne, AllExecuting, Used;
    if |ids| > 0 {
      FirstExecuting(s, ids);
      RecoverOneExactly(s, ids[0], at);
      if RecoverOne(s, ids[0], at).Ok? {
        var next := RecoverOne(s, ids[0], at).value;
        RecoverOneEffect(s, ids[0], at);
        RisingTail(s, next, ids);
        RecoverAllExactly(next, ids[1..], at);
      }
    }
  }

  /** Recovery needs one slot for each interrupted execution, and nothing else. */
  lemma RecoverSucceedsExactly(s: TreasuryState, at: int)
    ensures Recover(s, at).Ok? <==>
              Interrupted(s.intents) == {} || Used(s.audit) + |Interrupted(s.intents)| <= MAX_AUDIT_ENTRIES
  {
    hide RecoverAll, AllExecuting, Used;
    InterruptedRise(s);
    AscendingCounts(Interrupted(s.intents));
    RecoverAllExactly(s, Ascending(Interrupted(s.intents)), at);
  }

  /** Nor is a reconciliation of an uncertain intent: if its outcome is allowed, it is logged and stored. */
  lemma ReconcileIsLogged(s: TreasuryState, id: Id, outcome: ReconciliationOutcome, reference: Option<Id>, at: int, nextId: Id)
    requires Booked(s) && SlotsReserved(s) && id in s.intents && s.intents[id].state.Uncertain()
    requires ReconcileAllowed(s, id, outcome, reference)
    ensures var w := Reconcile(s, id, outcome, reference, false, at, nextId);
            && w.Ok? && Record(w.value, Owner, ReconcileIntent, Some(id), at).Ok?
            && SlotsReserved(Record(w.value, Owner, ReconcileIntent, Some(id), at).value)
  {
    hide Booked, SlotsReserved, Reconcile, ReconcileAllowed, Moved, LogFollows, Elementary, Record, SafetySlot;
    ReconcileSucceedsExactly(s, id, outcome, reference, false, at, nextId);
    IndebtedHasSlot(s, id);
    var w := Reconcile(s, id, outcome, reference, false, at, nextId).value;
    assert SafetySlot(w) by {
      ReconcileKeepsLog(s, id, outcome, reference, at, nextId);
      SlotOfLog(s, w);
    }
    SlotAdmits(w, Owner, ReconcileIntent, Some(id), at);
    ReconcileIsElementary(s, id, outcome, reference, false, at, nextId, Owner, 0);
    var s' := Record(w, Owner, ReconcileIntent, Some(id), at).value;
    MovedIntents(s, s', id, at);
    DischargeKeepsReserve(s, s', id, at);
  }

  lemma ReconcileKeepsLog(s: TreasuryState, id: Id, outcome: ReconciliationOutcome, reference: Option<Id>, at: int, nextId: Id)
    requires Booked(s) && Reconcile(s, id, outcome, reference, false, at, nextId).Ok?
    ensures Reconcile(s, id, outcome, reference, false, at, nextId).value.audit == s.audit
  {
    hide Booked, ReconcileEffect, MoveEvents, ReceiptSound, SameIdentity, BalancesFollow;
    ReopenShape(s.intents[id], at, outcome);
    EffectReconciles(s, id, Reopen(s.intents[id], at).value, outcome, reference, at, nextId);
  }

  /**
   The owner's checkout handoff is the exception: its entry is no money-safety entry, so after the funds
   are reserved it is refused exactly when the ordinary quota is used up, while an agent's is never refused.
   */
  lemma HandoffQuota(s: TreasuryState, agent: Id, id: Id, at: int, verdict: Verdict)
    requires Booked(s) && Prepare(s, agent, id, at, verdict).Ok?
    ensures var s' := Prepare(s, agent, id, at, verdict).value;
            && Record(s', AgentActor(agent), ControlledCheckoutHandoff, Some(id), at).Ok?
            && (Record(s', Owner, OwnerCheckoutHandoff, Some(id), at).Ok? <==>
                  Used(s'.audit) < MAX_AUDIT_ENTRIES - AUDIT_SAFETY_RESERVE)
  {
    hide Prepare, Booked, Used, EmergencyCount, Seal;
    PrepareKeepsReserve(s, agent, id, at, verdict);
  }
}
