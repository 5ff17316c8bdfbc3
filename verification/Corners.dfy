/** Where the broker does not do what one of its own guards or names suggests, and exactly when it does. */
module Corners {
  import opened Results
  import opened MoneyMath
  import opened Records
  import opened AuditLog
  import opened Budget
  import opened Execution
  import opened Requests
  import opened Storage
  import opened Daemon
  import opened Steps
  import opened Operations
  import opened Reserve

  /** A bootstrapped treasury with one agent that holds one intent, ready to execute. */
  function ExampleState(): TreasuryState {
    var cad: Currency := 0;
    var balance := Money(5_000, cad);
    var purchase := PurchaseRequest(1, Money(100, cad), Money(100, cad), 3, Normal, 0);
    var intent := Intent(1, 2, purchase, PolicyValidated, 1, 1_000, 1_000, None, None);
    TreasuryState(0, map[1 := Agent(AgentPolicy(1), {}, 2, 1_500, BoundedAutonomous, 2_000, false)],
                  map[BootstrapPolicy := DemoPolicy(cad), AgentPolicy(1) := DemoPolicy(cad)], map[10 := intent], [LedgerEvent(900, OwnerCapital, balance, None)], [],
                  None, false, SimulatedProvider(balance, map[], map[]), Simulated, None, map[])
  }

  const EXAMPLE_ENV := Env(1_100, 1, 22, Verdict(false, false, false, false))

  // ----- cancelling -----

  /** The guard of `cancel_intent` lets an authorized intent through; the transition table then refuses it. */
  lemma AuthorizedIntentCannotBeCancelled()
    ensures ExampleState().intents[10].state.PolicyValidated?
    ensures Handle(ExampleState(), CancelRequest(1, 10), EXAMPLE_ENV) == Reject(Conflict)
  {
  }

  /** An agent may cancel exactly its intents that wait for approval, or were proposed, while ordinary entries are still allowed. */
  lemma CancelSucceedsExactly(s: TreasuryState, agent: Id, id: Id, env: Env)
    ensures Handle(s, CancelRequest(agent, id), env).Accept? <==>
              && agent in s.agents && id in s.intents && s.intents[id].agentId == agent
              && (s.intents[id].state.Proposed? || s.intents[id].state.ApprovalRequired?)
              && Used(s.audit) < MAX_AUDIT_ENTRIES - AUDIT_SAFETY_RESERVE
  {
    hide Seal, EmergencyCount;
  }

  // ----- rotating a capability -----

  /** The clock ticks between the two readings and the session outlives the agent: the state cannot be saved. */
  lemma RotationCanBeUnsaveable()
    ensures var step := Handle(ExampleState(), RotateRequest(1, 60), EXAMPLE_ENV);
            step.Accept? && !Loadable(step.state)
  {
    var step := Handle(ExampleState(), RotateRequest(1, 60), EXAMPLE_ENV);
    assert EmergencyCount(ExampleState().audit) == 0;
    assert 1 in step.state.agents && !AgentStored(step.state, 1);
  }

  // ----- audit slots -----

  /**
   Refunding a settled purchase takes a slot nobody reserved: the reserve survives exactly while one is left over,
   and when the money-safety quota is used up the refund is refused.
   */
  lemma RefundOfSettledTakesASlot(s: TreasuryState, s': TreasuryState, id: Id, at: int)
    requires Moved(s, s', id, at) && LogFollows(s, s', at) && s'.audit != s.audit
    requires id in s.intents && id in s'.intents && s.intents[id].state.Settled? && s'.intents[id].state.Refunded?
    ensures SlotsReserved(s') <==> Used(s.audit) + Owed(s.intents) < MAX_AUDIT_ENTRIES
  {
    hide Moved, LogFollows, Used, Owed;
    MovedSlots(s, s', id, at);
  }

  lemma RefundOfSettledNeedsASlot(s: TreasuryState, w: TreasuryState, id: Id, at: int)
    requires w.audit == s.audit
    ensures Record(w, Owner, ReconcileIntent, Some(id), at).Ok? <==> SafetySlot(s)
  {
    hide Used, EmergencyCount, Seal;
  }
}
