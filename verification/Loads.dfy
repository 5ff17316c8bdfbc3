/** What the broker writes, it can load again: when the self-validation of a save may refuse, exactly. */
module Loads {
  import opened Results
  import opened MoneyMath
  import opened Records
  import opened AuditLog
  import opened Budget
  import opened Execution
  import opened Requests
  import opened Storage
  import opened MoneyInvariant
  import opened Solvency
  import opened Steps
  import opened Safety
  import opened Invariant
  import opened Operations
  import opened Reconciliation
  import opened RequestSteps

  /** The part of `validate_state` about agents and policies. */
  ghost predicate OfficeLoads(s: TreasuryState) {
    && |s.agents| <= MAX_AGENTS
    && (forall p :: p in s.policies ==> s.policies[p].Valid())
    && (forall a :: a in s.agents ==> AgentStored(s, a))
  }

  lemma SolventLoads(s: TreasuryState)
    requires MoneySound(s)
    ensures s.mode.Simulated? ==> 0 <= s.provider.balance.minor
    ensures s.mode.ManualPrepaidCard? ==> s.manual.Some?
    ensures forall e :: e in s.ledger && e.intentId.Some? ==> e.intentId.value in s.intents
  {
    if s.mode.Simulated? {
      ProviderCoversAuthority(s);
      UntouchedNonNegative(s);
    }
    hide Totals, AuthoritySound, ProviderSound, UntouchedW, ProviderAvailable;
  }

  /** Of everything `validate_state` looks at, only agents and policies can ever fail. */
  lemma SoundLoads(s: TreasuryState, supply: Id)
    requires Sound(s, supply)
    ensures Loadable(s) <==> OfficeLoads(s)
  {
    SolventLoads(s);
    hide MoneySound, ChainVerifies, KeysUnique, DepositsCounted, AgentStored, Policy.Valid, Used, EmergencyCount;
    forall i | i in s.intents
      ensures IntentStored(s, i)
    {
      assert ReceiptSound(i, s.intents[i]);
    }
  }

  lemma SameOfficeLoads(s: TreasuryState, s': TreasuryState)
    requires OfficeLoads(s) && SameOffice(s, s')
    ensures OfficeLoads(s')
  {
    hide Policy.Valid;
    assert forall a :: a in s.agents ==> AgentStored(s, a) ==> AgentStored(s', a);
  }

  lemma ChainKeepsLoadable(s: TreasuryState, s': TreasuryState, supply: Id)
    requires Loadable(s) && Sound(s, supply) && Sound(s', supply) && SameOffice(s, s')
    ensures Loadable(s')
  {
    hide Sound, Loadable, OfficeLoads;
    SoundLoads(s, supply);
    SoundLoads(s', supply);
    SameOfficeLoads(s, s');
  }

  // ----- requests -----

  /** A session that would outlive its agent: the one written state that is refused. */
  predicate SessionOutlivesAgent(s: TreasuryState, request: Request, env: Env) {
    && request.RotateRequest? && !s.emergencyStop
    && PolicyOf(s, request.agent).Ok?
    && request.ttl < env.lag + Min(request.ttl, PolicyOf(s, request.agent).value.sessionTtl)
  }

  lemma ChangedAgentLoads(s: TreasuryState, id: Id, agent: Agent)
    requires OfficeLoads(s) && id in s.agents
    requires agent.policyId in s.policies && |agent.approvedMerchants| <= MAX_AGENT_APPROVED_MERCHANTS
    ensures OfficeLoads(s.(agents := s.agents[id := agent])) <==> agent.sessionExpiresAt <= agent.expiresAt
  {
    hide Policy.Valid;
    var w := s.(agents := s.agents[id := agent]);
    assert w.agents.Keys == s.agents.Keys;
    forall a | a in s.agents && a != id
      ensures AgentStored(w, a)
    {
      assert AgentStored(s, a);
    }
    assert AgentStored(w, id) <==> agent.sessionExpiresAt <= agent.expiresAt;
  }

  lemma AgentLoads(s: TreasuryState, id: Id)
    requires OfficeLoads(s) && id in s.agents
    ensures s.agents[id].policyId in s.policies && |s.agents[id].approvedMerchants| <= MAX_AGENT_APPROVED_MERCHANTS
    ensures s.agents[id].sessionExpiresAt <= s.agents[id].expiresAt
  {
    assert AgentStored(s, id);
  }

  lemma OneAgentLoads(s: TreasuryState, request: Request, env: Env)
    requires OfficeLoads(s) && 0 <= env.at
    requires request.SetAgentModeRequest? || request.RevokeAgentRequest? || request.RotateRequest?
          || request.ApproveMerchantRequest? || request.ArmSessionRequest?
    requires Plan(s, request, env).Ok? && Plan(s, request, env).value.Write?
    ensures OfficeLoads(Plan(s, request, env).value.state) <==> !SessionOutlivesAgent(s, request, env)
  {
    hide OfficeLoads;
    var id := request.agent;
    AgentLoads(s, id);
    ChangedAgentLoads(s, id, Plan(s, request, env).value.state.agents[id]);
  }

  lemma PolicyChangeLoads(s: TreasuryState, id: PolicyId, policy: Policy)
    requires OfficeLoads(s) && policy.Valid()
    ensures OfficeLoads(s.(policies := s.policies[id := policy]))
  {
    hide Policy.Valid;
    assert forall a :: a in s.agents ==> AgentStored(s, a);
  }

  lemma UpdatePolicyLoads(s: TreasuryState, id: Id, policy: Policy, env: Env)
    requires OfficeLoads(s) && UpdatePolicyStep(s, id, policy, env).Ok?
    ensures OfficeLoads(UpdatePolicyStep(s, id, policy, env).value.state)
  {
    hide OfficeLoads, SnapshotOf;
    var current := PolicyOf(s, id).value;
    PolicyChangeLoads(s, s.agents[id].policyId, policy.(version := current.version + 1));
  }

  lemma NewAgentLoads(s: TreasuryState, id: Id, agent: Agent)
    requires OfficeLoads(s) && id !in s.agents && |s.agents| < MAX_AGENTS
    requires agent.policyId in s.policies && agent.approvedMerchants == {} && agent.sessionExpiresAt <= agent.expiresAt
    ensures OfficeLoads(s.(agents := s.agents[id := agent]))
  {
    hide Policy.Valid;
    var w := s.(agents := s.agents[id := agent]);
    assert w.agents.Keys == s.agents.Keys + {id};
    forall a | a in w.agents
      ensures AgentStored(w, a)
    {
      assert a != id ==> AgentStored(s, a);
    }
  }

  lemma CreateAgentLoads(s: TreasuryState, policy: Policy, mode: AutonomyMode, ttl: i64, env: Env)
    requires OfficeLoads(s) && CreateAgentStep(s, policy, mode, ttl, env).Ok? && env.nextId !in s.agents && 0 <= env.at
    ensures OfficeLoads(CreateAgentStep(s, policy, mode, ttl, env).value.state)
  {
    hide OfficeLoads, SnapshotOf;
    var w := CreateAgentStep(s, policy, mode, ttl, env).value.state;
    PolicyChangeLoads(s, AgentPolicy(env.nextId), policy.(version := 1));
    var mid := s.(policies := s.policies[AgentPolicy(env.nextId) := policy.(version := 1)]);
    NewAgentLoads(mid, env.nextId, w.agents[env.nextId]);
  }

  lemma StoppedLoads(s: TreasuryState, nextId: Id)
    requires OfficeLoads(s) && forall a :: a in s.agents ==> 0 <= s.agents[a].expiresAt
    ensures OfficeLoads(s.(agents := StoppedAgents(s.agents, nextId), emergencyStop := true))
  {
    hide Policy.Valid;
    var w := s.(agents := StoppedAgents(s.agents, nextId), emergencyStop := true);
    assert w.agents.Keys == s.agents.Keys;
    forall a | a in w.agents
      ensures AgentStored(w, a)
    {
      assert AgentStored(s, a);
    }
  }

  lemma EmergencyStopLoads(s: TreasuryState, stopped: bool, env: Env)
    requires OfficeLoads(s) && Identified(s, env.nextId) && EmergencyStopStep(s, stopped, env).Ok?
    requires EmergencyStopStep(s, stopped, env).value.Write?
    ensures OfficeLoads(EmergencyStopStep(s, stopped, env).value.state)
  {
    hide OfficeLoads, StoppedAgents;
    if stopped {
      StoppedLoads(s, env.nextId);
    } else {
      SameOfficeLoads(s, s.(emergencyStop := false));
    }
  }

  lemma AdminLoads(s: TreasuryState, request: Request, env: Env)
    requires OfficeLoads(s) && Identified(s, env.nextId) && 0 <= env.at
    requires AboutAgents(request) && Plan(s, request, env).Ok? && Plan(s, request, env).value.Write?
    ensures OfficeLoads(Plan(s, request, env).value.state) <==> !SessionOutlivesAgent(s, request, env)
  {
    hide OfficeLoads, CreateAgentStep, EmergencyStopStep, UpdatePolicyStep, ArmSessionStep, RotateStep, ApproveMerchantStep,
         SetAgentModeStep, RevokeAgentStep;
    match request
    case CreateAgentRequest(policy, mode, ttl) => CreateAgentLoads(s, policy, mode, ttl, env);
    case EmergencyStopRequest(stopped) => EmergencyStopLoads(s, stopped, env);
    case UpdatePolicyRequest(id, policy) => UpdatePolicyLoads(s, id, policy, env);
    case ConfigureReceiveRequest(_) => SameOfficeLoads(s, Plan(s, request, env).value.state);
    case _ => OneAgentLoads(s, request, env);
  }

  lemma ReconcileKeepsOffice(s: TreasuryState, id: Id, outcome: ReconciliationOutcome, reference: Option<Id>, malformed: bool,
                             at: int, nextId: Id)
    requires Booked(s) && Reconcile(s, id, outcome, reference, malformed, at, nextId).Ok?
    ensures SameOffice(s, Reconcile(s, id, outcome, reference, malformed, at, nextId).value)
  {
    hide Booked, ReconcileEffect, MoveEvents, ReceiptSound, SameIdentity, BalancesFollow;
    ReopenShape(s.intents[id], at, outcome);
    EffectReconciles(s, id, Reopen(s.intents[id], at).value, outcome, reference, at, nextId);
  }

  lemma HandoffKeepsOffice(s: TreasuryState, id: Id, env: Env)
    requires BeginHandoff(s, id, env).Ok?
    ensures SameOffice(s, BeginHandoff(s, id, env).value.state)
  {
    hide Prepare;
    PrepareShape(s, s.intents[id].agentId, id, env.at, env.verdict);
  }

  lemma DepositKeepsOffice(s: TreasuryState, reference: nat, d: DepositDetails, env: Env)
    requires RecordDepositStep(s, reference, d, env).Ok? && RecordDepositStep(s, reference, d, env).value.Write?
    ensures SameOffice(s, RecordDepositStep(s, reference, d, env).value.state)
  {
    hide Reinvested, CreditProvider, AppendIncome, IncomeBooked, IncomeEvents;
    CreditProviderBooks(s, d);
    IncomeAppends(CreditProvider(s, d).value, d, Reinvested(s, d).value, env.at);
  }

  /** Requests about intents, deposits and the card leave agents and policies alone. */
  lemma PlanKeepsOffice(s: TreasuryState, request: Request, env: Env)
    requires Booked(s) && !AboutAgents(request) && Plan(s, request, env).Ok? && Plan(s, request, env).value.Write?
    ensures SameOffice(s, Plan(s, request, env).value.state)
  {
    hide Booked, BeginHandoff, Reconcile, RecordDepositStep, Decide, UsageOf;
    match request
    case BeginHandoffRequest(id) => HandoffKeepsOffice(s, id, env);
    case ReconcileRequest(id, outcome, reference) =>
      ReconcileKeepsOffice(s, id, outcome, reference, env.verdict.malformed, env.at, env.nextId);
    case DepositRequest(external, details) => DepositKeepsOffice(s, external, details, env);
    case _ =>
  }

  lemma RecordKeepsOffice(s: TreasuryState, actor: Actor, action: AuditAction, intentId: Option<Id>, at: int)
    requires Record(s, actor, action, intentId, at).Ok?
    ensures SameOffice(s, Record(s, actor, action, intentId, at).value)
  {
    hide CapacityAllows, Seal;
  }

  lemma HandledOffice(s: TreasuryState, request: Request, env: Env)
    requires Sound(s, env.nextId) && OfficeLoads(s) && 0 <= env.at && !Handle(s, request, env).Reject?
    ensures OfficeLoads(Handle(s, request, env).state) <==> !SessionOutlivesAgent(s, request, env)
  {
    hide MoneySound, LogSound, ReceiptsSound, IntentsSound, KeysUnique, DepositsCounted, Identified, OfficeLoads, Plan, Record,
         SessionOutlivesAgent;
    var draft := Plan(s, request, env).value;
    match draft
    case Unchanged => OnlyWritesOutlive(s, request, env);
    case Limit(agent) =>
      RecordKeepsOffice(s, AgentActor(agent), TransactionRateLimited, None, env.at);
      SameOfficeLoads(s, Handle(s, request, env).state);
      OnlyWritesOutlive(s, request, env);
    case Write(w, actor, action, intentId) =>
      RecordKeepsOffice(w, actor, action, intentId, env.at);
      var s' := Handle(s, request, env).state;
      if AboutAgents(request) {
        AdminLoads(s, request, env);
      } else {
        PlanKeepsOffice(s, request, env);
        SameOfficeLoads(s, w);
        OnlyRotationOutlives(s, request, env);
      }
      if OfficeLoads(w) {
        SameOfficeLoads(w, s');
      } else if OfficeLoads(s') {
        SameOfficeLoads(s', w);
      }
  }

  lemma OnlyRotationOutlives(s: TreasuryState, request: Request, env: Env)
    requires !AboutAgents(request)
    ensures !SessionOutlivesAgent(s, request, env)
  {
  }

  lemma OnlyWritesOutlive(s: TreasuryState, request: Request, env: Env)
    requires Plan(s, request, env).Ok? && !Plan(s, request, env).value.Write?
    ensures !SessionOutlivesAgent(s, request, env)
  {
    hide Decide, UsageOf, SnapshotOf, Reconcile, Prepare, Reinvested;
  }

  /**
   From a loadable state, every accepted request writes a loadable state, except the rotation whose second
   clock reading lets the session outlive the agent: that one is refused by the save and rolled back.
   */
  lemma RefusedSavesAreRotations(s: TreasuryState, request: Request, env: Env)
    requires Sound(s, env.nextId) && Loadable(s) && 0 <= env.at && !Handle(s, request, env).Reject?
    requires Sound(Handle(s, request, env).state, NextId(env.nextId) + 1)
    ensures Loadable(Handle(s, request, env).state) <==> !SessionOutlivesAgent(s, request, env)
  {
    hide Sound, Loadable, OfficeLoads, Handle, Plan, SessionOutlivesAgent;
    SoundLoads(s, env.nextId);
    SoundLoads(Handle(s, request, env).state, NextId(env.nextId) + 1);
    HandledOffice(s, request, env);
  }
}
