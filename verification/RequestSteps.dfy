/** Every accepted request is a chain of at most two elementary steps. */
module RequestSteps {
  import opened Results
  import opened MoneyMath
  import opened Records
  import opened AuditLog
  import opened Budget
  import opened Execution
  import opened Requests
  import opened MoneyInvariant
  import opened Steps
  import opened Safety
  import opened Invariant
  import opened Operations
  import opened Reconciliation

  /** The draft with its audit entry, if the quota allows that entry. */
  function Logged(draft: Draft, at: int): Result<TreasuryState>
    requires draft.Write?
  {
    Record(draft.state, draft.actor, draft.action, draft.intentId, at)
  }

  /** The kind of step each single request makes. */
  ghost predicate OfKind(s: TreasuryState, s': TreasuryState, request: Request, env: Env) {
    match request
    case CreateIntentRequest(agent, purchase) =>
      Introduced(s, s', env.nextId) && s'.intents[env.nextId].agentId == agent && s'.intents[env.nextId].request == purchase
    case CancelRequest(_, id) => Moved(s, s', id, env.at) && s'.intents[id].state.Cancelled?
    case ApproveRequest(id) => Moved(s, s', id, env.at) && s'.intents[id].state.Approved?
    case DenyRequest(id) => Moved(s, s', id, env.at) && s'.intents[id].state.Cancelled?
    case CompleteHandoffRequest(id) => Moved(s, s', id, env.at) && s'.intents[id].state.Unknown?
    case DepositRequest(external, details) =>
      Reinvested(s, details).Ok? && Credited(s, s', external, Reinvested(s, details).value, env.at)
      && s'.deposits[external] == details
    case ConfigureManualRequest(balance, _, _, _) => Reconfigured(s, s') && s'.manual.value.amount == balance
    case BeginHandoffRequest(_) => false
    case ReconcileRequest(_, _, _) => false
    case _ => Administered(s, s', env.nextId, env.at)
  }

  /** Closing a draft with its audit entry makes one step, of the request's own kind. */
  ghost predicate Closes(s: TreasuryState, draft: Draft, request: Request, env: Env)
    requires draft.Write?
  {
    Logged(draft, env.at).Ok? ==>
      LogFollows(s, Logged(draft, env.at).value, env.at) && OfKind(s, Logged(draft, env.at).value, request, env)
  }

  lemma KindIsElementary(s: TreasuryState, s': TreasuryState, request: Request, env: Env)
    requires LogFollows(s, s', env.at) && OfKind(s, s', request, env)
    ensures Elementary(s, s', env.nextId, env.at)
  {
    hide LogFollows, Moved, Introduced, Administered, Credited, Reconfigured, Reinvested;
    match request
    case DepositRequest(external, details) => assert Credited(s, s', external, Reinvested(s, details).value, env.at);
    case CancelRequest(_, id) => assert Moved(s, s', id, env.at);
    case ApproveRequest(id) => assert Moved(s, s', id, env.at);
    case DenyRequest(id) => assert Moved(s, s', id, env.at);
    case CompleteHandoffRequest(id) => assert Moved(s, s', id, env.at);
    case _ =>
  }

  // ----- agents, policies and the switch -----

  predicate Administers(s: TreasuryState, w: TreasuryState, supply: Id, at: int) {
    && w == s.(agents := w.agents, policies := w.policies, receiveInstructions := w.receiveInstructions, emergencyStop := w.emergencyStop)
    && AgentsFollow(s.agents, w.agents, supply, at)
    && (w.emergencyStop && !s.emergencyStop ==> forall a :: a in w.agents ==> supply <= w.agents[a].session)
  }

  predicate TellsSwitch(s: TreasuryState, w: TreasuryState, action: AuditAction) {
    if IsEmergency(action) then s.emergencyStop == action.EmergencyStopOff? && w.emergencyStop == action.EmergencyStopOn?
    else w.emergencyStop == s.emergencyStop
  }

  lemma AdministersLogs(s: TreasuryState, w: TreasuryState, actor: Actor, action: AuditAction, supply: Id, at: int)
    requires Administers(s, w, supply, at) && TellsSwitch(s, w, action) && Record(w, actor, action, None, at).Ok?
    ensures var s' := Record(w, actor, action, None, at).value;
            LogFollows(s, s', at) && Administered(s, s', supply, at)
  {
    hide AgentsFollow, LogFollows, Used, EmergencyCount, Seal;
    RecordFollows(s, w, actor, action, None, at);
  }

  lemma AdministersCloses(s: TreasuryState, w: TreasuryState, actor: Actor, action: AuditAction, request: Request, env: Env)
    requires Administers(s, w, env.nextId, env.at) && TellsSwitch(s, w, action) && AboutAgents(request)
    ensures Closes(s, Write(w, actor, action, None), request, env)
  {
    hide Administers, Administered, TellsSwitch, LogFollows, Record;
    if Record(w, actor, action, None, env.at).Ok? {
      AdministersLogs(s, w, actor, action, env.nextId, env.at);
    }
  }

  lemma SameAgentsFollow(agents: map<Id, Agent>, supply: Id, at: int)
    ensures AgentsFollow(agents, agents, supply, at)
  {
  }

  lemma ChangedAgentFollows(agents: map<Id, Agent>, id: Id, agent: Agent, supply: Id, at: int)
    requires id in agents && Renewed(agents[id], agent, supply, at)
    ensures AgentsFollow(agents, agents[id := agent], supply, at)
  {
    assert agents[id := agent].Keys == agents.Keys;
  }

  lemma NewAgentFollows(agents: map<Id, Agent>, agent: Agent, supply: Id, at: int)
    requires supply !in agents && |agents| < MAX_AGENTS && agent.session == supply + 1 && at < agent.expiresAt
    ensures AgentsFollow(agents, agents[supply := agent], supply, at)
  {
    assert agents[supply := agent].Keys == agents.Keys + {supply};
  }

  lemma StoppedAgentsFollow(agents: map<Id, Agent>, supply: Id, at: int)
    requires forall a :: a in agents ==> a < supply
    ensures AgentsFollow(agents, StoppedAgents(agents, supply), supply, at)
    ensures forall a :: a in StoppedAgents(agents, supply) ==> supply <= StoppedAgents(agents, supply)[a].session
  {
    assert StoppedAgents(agents, supply).Keys == agents.Keys;
  }

  /** Requests that rewrite one agent, one policy, or the receive instructions. */
  predicate AboutOneAgent(request: Request) {
    || request.UpdatePolicyRequest? || request.SetAgentModeRequest? || request.RevokeAgentRequest?
    || request.RotateRequest? || request.ApproveMerchantRequest? || request.ArmSessionRequest?
    || request.ConfigureReceiveRequest?
  }

  predicate AboutAgents(request: Request) {
    AboutOneAgent(request) || request.CreateAgentRequest? || request.EmergencyStopRequest?
  }

  /** A draft of the owner about agents, policies or the switch only. */
  predicate AdminDraft(s: TreasuryState, draft: Draft, supply: Id, at: int) {
    draft.Write? ==>
      && Administers(s, draft.state, supply, at) && TellsSwitch(s, draft.state, draft.action) && draft.intentId.None?
  }

  lemma ArmAdministers(s: TreasuryState, id: Id, ttl: i64, env: Env)
    requires ArmSessionStep(s, id, ttl, env).Ok?
    ensures AdminDraft(s, ArmSessionStep(s, id, ttl, env).value, env.nextId, env.at)
  {
    hide AgentsFollow;
    ChangedAgentFollows(s.agents, id, ArmSessionStep(s, id, ttl, env).value.state.agents[id], env.nextId, env.at);
  }

  lemma RotateAdministers(s: TreasuryState, id: Id, ttl: i64, env: Env)
    requires RotateStep(s, id, ttl, env).Ok?
    ensures AdminDraft(s, RotateStep(s, id, ttl, env).value, env.nextId, env.at)
  {
    hide AgentsFollow;
    ChangedAgentFollows(s.agents, id, RotateStep(s, id, ttl, env).value.state.agents[id], env.nextId, env.at);
  }

  lemma MerchantAdministers(s: TreasuryState, id: Id, merchant: nat, env: Env)
    requires ApproveMerchantStep(s, id, merchant, env).Ok?
    ensures AdminDraft(s, ApproveMerchantStep(s, id, merchant, env).value, env.nextId, env.at)
  {
    hide AgentsFollow;
    if ApproveMerchantStep(s, id, merchant, env).value.Write? {
      ChangedAgentFollows(s.agents, id, ApproveMerchantStep(s, id, merchant, env).value.state.agents[id], env.nextId, env.at);
    }
  }

  lemma ModeAdministers(s: TreasuryState, id: Id, mode: AutonomyMode, env: Env)
    ensures SetAgentModeStep(s, id, mode, env).Ok? ==> AdminDraft(s, SetAgentModeStep(s, id, mode, env).value, env.nextId, env.at)
    ensures RevokeAgentStep(s, id, env).Ok? ==> AdminDraft(s, RevokeAgentStep(s, id, env).value, env.nextId, env.at)
  {
    hide AgentsFollow;
    if id in s.agents {
      ChangedAgentFollows(s.agents, id, s.agents[id].(mode := mode), env.nextId, env.at);
      ChangedAgentFollows(s.agents, id, s.agents[id].(revoked := true, mode := Disabled), env.nextId, env.at);
    }
  }

  lemma PolicyAdministers(s: TreasuryState, id: Id, policy: Policy, env: Env)
    requires UpdatePolicyStep(s, id, policy, env).Ok?
    ensures AdminDraft(s, UpdatePolicyStep(s, id, policy, env).value, env.nextId, env.at)
  {
    hide AgentsFollow, SnapshotOf;
    SameAgentsFollow(s.agents, env.nextId, env.at);
  }

  lemma ReceiveAdministers(s: TreasuryState, instructions: nat, env: Env)
    requires ConfigureReceiveStep(s, instructions, env).Ok?
    ensures AdminDraft(s, ConfigureReceiveStep(s, instructions, env).value, env.nextId, env.at)
  {
    hide AgentsFollow;
    SameAgentsFollow(s.agents, env.nextId, env.at);
  }

  lemma OneAgentAdministers(s: TreasuryState, request: Request, env: Env)
    requires AboutOneAgent(request) && Plan(s, request, env).Ok?
    ensures AdminDraft(s, Plan(s, request, env).value, env.nextId, env.at)
  {
    hide AdminDraft, UpdatePolicyStep, ArmSessionStep, RotateStep, ApproveMerchantStep, SetAgentModeStep, RevokeAgentStep, ConfigureReceiveStep;
    match request
    case UpdatePolicyRequest(id, policy) => PolicyAdministers(s, id, policy, env);
    case SetAgentModeRequest(id, mode) => ModeAdministers(s, id, mode, env);
    case RevokeAgentRequest(id) => ModeAdministers(s, id, Disabled, env);
    case RotateRequest(id, ttl) => RotateAdministers(s, id, ttl, env);
    case ApproveMerchantRequest(id, merchant) => MerchantAdministers(s, id, merchant, env);
    case ArmSessionRequest(id, ttl) => ArmAdministers(s, id, ttl, env);
    case ConfigureReceiveRequest(instructions) => ReceiveAdministers(s, instructions, env);
  }

  lemma CreateAgentAdministers(s: TreasuryState, policy: Policy, mode: AutonomyMode, ttl: i64, env: Env)
    requires CreateAgentStep(s, policy, mode, ttl, env).Ok? && Identified(s, env.nextId)
    ensures AdminDraft(s, CreateAgentStep(s, policy, mode, ttl, env).value, env.nextId, env.at)
  {
    hide AgentsFollow, SnapshotOf;
    NewAgentFollows(s.agents, CreateAgentStep(s, policy, mode, ttl, env).value.state.agents[env.nextId], env.nextId, env.at);
  }

  lemma EmergencyStopAdministers(s: TreasuryState, stopped: bool, env: Env)
    requires EmergencyStopStep(s, stopped, env).Ok? && Identified(s, env.nextId)
    ensures AdminDraft(s, EmergencyStopStep(s, stopped, env).value, env.nextId, env.at)
  {
    hide AgentsFollow, StoppedAgents;
    SameAgentsFollow(s.agents, env.nextId, env.at);
    StoppedAgentsFollow(s.agents, env.nextId, env.at);
  }

  lemma AgentRequestAdministers(s: TreasuryState, request: Request, env: Env)
    requires AboutAgents(request) && Plan(s, request, env).Ok? && Identified(s, env.nextId)
    ensures AdminDraft(s, Plan(s, request, env).value, env.nextId, env.at)
  {
    hide CreateAgentStep, EmergencyStopStep, AdminDraft, Identified;
    match request
    case CreateAgentRequest(policy, mode, ttl) => CreateAgentAdministers(s, policy, mode, ttl, env);
    case EmergencyStopRequest(stopped) => EmergencyStopAdministers(s, stopped, env);
    case _ => OneAgentAdministers(s, request, env);
  }

  // ----- intents -----

  lemma IntroducedCloses(s: TreasuryState, w: TreasuryState, next: Intent, actor: Actor, request: Request, env: Env)
    requires request.CreateIntentRequest? && next.agentId == request.agent && next.request == request.purchase
    requires w == s.(intents := s.intents[env.nextId := next]) && env.nextId !in s.intents && |s.intents| < MAX_INTENTS
    requires (next.state.Unstarted() || next.state.Failed?) && next.receipt.None?
    requires next.agentId in s.agents && next.session == s.agents[next.agentId].session
    requires 0 < next.request.amount.minor && 0 < next.request.finalTotal.minor
    requires forall i :: i in s.intents ==> !SameKey(s.intents[i], next.agentId, next.request.key)
    ensures Closes(s, Write(w, actor, CreatePurchaseIntent, Some(env.nextId)), request, env)
  {
    hide LogFollows;
    if Record(w, actor, CreatePurchaseIntent, Some(env.nextId), env.at).Ok? {
      RecordFollows(s, w, actor, CreatePurchaseIntent, Some(env.nextId), env.at);
      assert Introduced(s, Record(w, actor, CreatePurchaseIntent, Some(env.nextId), env.at).value, env.nextId);
    }
  }

  /** A decision is only ever taken about a well-formed request. */
  lemma DecidedIsWellFormed(s: TreasuryState, agent: Id, r: PurchaseRequest, policy: Policy, at: int, verdict: Verdict)
    requires Decide(s, agent, r, policy, at, verdict).Ok?
    ensures agent in s.agents && 0 < r.amount.minor && 0 < r.finalTotal.minor
  {
    assert agent in s.agents;
    hide UsageOf, EnforceAuthority, OverLimit;
  }

  lemma CreateIntentCloses(s: TreasuryState, agent: Id, r: PurchaseRequest, env: Env)
    requires Identified(s, env.nextId) && CreateIntent(s, agent, r, env).Ok? && CreateIntent(s, agent, r, env).value.Write?
    ensures Closes(s, CreateIntent(s, agent, r, env).value, CreateIntentRequest(agent, r), env)
  {
    hide Decide, UsageOf, FinalDecision, Record, Elementary, Closes;
    var policy := AdmitIntent(s, agent, env.at).value;
    DecidedIsWellFormed(s, agent, r, policy, env.at, env.verdict);
    var draft := CreateIntent(s, agent, r, env).value;
    IntroducedCloses(s, draft.state, draft.state.intents[env.nextId], AgentActor(agent), CreateIntentRequest(agent, r), env);
  }

  predicate PlainMove(request: Request, id: Id, next: TransactionState) {
    match request
    case CancelRequest(_, i) => i == id && next.Cancelled?
    case ApproveRequest(i) => i == id && next.Approved?
    case DenyRequest(i) => i == id && next.Cancelled?
    case CompleteHandoffRequest(i) => i == id && next.Unknown?
    case _ => false
  }

  /** A plain move along one edge, with no money behind it. */
  lemma PlainMoveCloses(s: TreasuryState, id: Id, next: TransactionState, actor: Actor, action: AuditAction, request: Request, env: Env)
    requires PlainMove(request, id, next)
    requires Booked(s) && id in s.intents && MoveIntent(s, id, next, actor, action, env.at).Ok? && !IsEmergency(action)
    requires (s.intents[id].state.NeverReserved() && next.NeverReserved()) || (s.intents[id].state.Executing? && next.Unknown?)
    ensures Closes(s, MoveIntent(s, id, next, actor, action, env.at).value, request, env)
  {
    hide MoneySound, ReceiptsSound, BalancesFollow, Record, LogFollows, Moved, Elementary;
    var moved := s.intents[id].(state := next, updatedAt := env.at);
    var w := s.(intents := s.intents[id := moved]);
    assert s.ledger + [] == s.ledger;
    IdleBalances(s, w, id, moved);
    UnspentReceipt(s, id);
    if Record(w, actor, action, Some(id), env.at).Ok? {
      LoggedMove(s, w, id, moved, actor, action, env.at, env.nextId);
      RecordKeepsIntents(w, actor, action, Some(id), env.at);
    }
  }

  // ----- deposits and configuration -----

  lemma CreditProviderBooks(s: TreasuryState, d: DepositDetails)
    requires CreditProvider(s, d).Ok? && 0 < d.amount.minor
    ensures IncomeBooked(s, CreditProvider(s, d).value, d)
    ensures var w := CreditProvider(s, d).value;
            w == s.(provider := w.provider, manual := w.manual)
  {
  }

  lemma ReinvestedShares(s: TreasuryState, d: DepositDetails)
    requires Reinvested(s, d).Ok? && 0 < d.amount.minor
    ensures SharesBy(s, d, Reinvested(s, d).value)
  {
    hide SnapshotOf, ReportedBalance;
    if d.verified {
      ShareBounds(d.amount.minor, PolicyOf(s, d.agentId.value).value.reinvestmentBps);
    }
  }

  lemma DepositCloses(s: TreasuryState, reference: nat, d: DepositDetails, env: Env)
    requires RecordDepositStep(s, reference, d, env).Ok? && RecordDepositStep(s, reference, d, env).value.Write?
    ensures Closes(s, RecordDepositStep(s, reference, d, env).value, DepositRequest(reference, d), env)
  {
    hide Reinvested, CreditProvider, IncomeBooked, SharesBy, LogFollows, IncomeEvents;
    var share, credited := Reinvested(s, d).value, CreditProvider(s, d).value;
    ReinvestedShares(s, d);
    CreditProviderBooks(s, d);
    IncomeAppends(credited, d, share, env.at);
    IncomeAppends(s, d, share, env.at);
    hide AppendIncome;
    var w := RecordDepositStep(s, reference, d, env).value.state;
    if Record(w, Owner, RecordDeposit, None, env.at).Ok? {
      RecordFollows(s, w, Owner, RecordDeposit, None, env.at);
      var s' := Record(w, Owner, RecordDeposit, None, env.at).value;
      assert IncomeBooked(s, s', d) by {
        SameBooking(s, credited, s', d);
      }
      assert Credited(s, s', reference, share, env.at);
    }
  }

  /** Unverified income, as the owner records it, moves no balance and no authority in any currency. */
  lemma UnverifiedDepositMovesNothing(s: TreasuryState, reference: nat, d: DepositDetails, env: Env)
    requires Handle(s, DepositRequest(reference, d), env).Accept? && !d.verified
    ensures var s' := Handle(s, DepositRequest(reference, d), env).state;
            && s'.provider == s.provider && s'.manual == s.manual
            && forall c: Currency :: SnapshotTotals(s', c).Authority() == SnapshotTotals(s, c).Authority()
  {
    hide SnapshotTotals, RecordDepositStep, Credited, LogFollows, Record;
    var s' := Handle(s, DepositRequest(reference, d), env).state;
    if RecordDepositStep(s, reference, d, env).value.Write? {
      DepositCloses(s, reference, d, env);
      forall c: Currency
        ensures SnapshotTotals(s', c).Authority() == SnapshotTotals(s, c).Authority()
      {
        UnverifiedMovesNothing(s, s', reference, Reinvested(s, d).value, env.at, c);
      }
      UnverifiedMovesNothing(s, s', reference, Reinvested(s, d).value, env.at, 0);
    }
  }

  lemma SameBooking(s: TreasuryState, w: TreasuryState, w': TreasuryState, d: DepositDetails)
    requires IncomeBooked(s, w, d) && w'.provider == w.provider && w'.manual == w.manual
    ensures IncomeBooked(s, w', d)
  {
  }

  lemma ConfigureCloses(s: TreasuryState, balance: Money, status: BalanceStatus, ttl: i64, autonomous: bool, env: Env)
    requires ConfigureManualStep(s, balance, status, ttl, autonomous, env).Ok?
    ensures Closes(s, ConfigureManualStep(s, balance, status, ttl, autonomous, env).value,
                   ConfigureManualRequest(balance, status, ttl, autonomous), env)
  {
    hide LogFollows;
    var w := ConfigureManualStep(s, balance, status, ttl, autonomous, env).value.state;
    if Record(w, Owner, ConfigureManual, None, env.at).Ok? {
      RecordFollows(s, w, Owner, ConfigureManual, None, env.at);
      assert Reconfigured(s, Record(w, Owner, ConfigureManual, None, env.at).value);
    }
  }

  // ----- every request -----

  /** Every drafted write but a handoff or a reconciliation closes into one step, of the kind the request asks for. */
  lemma DraftCloses(s: TreasuryState, request: Request, env: Env)
    requires Sound(s, env.nextId) && Plan(s, request, env).Ok? && Plan(s, request, env).value.Write?
    requires !request.BeginHandoffRequest? && !request.ReconcileRequest?
    ensures Closes(s, Plan(s, request, env).value, request, env)
  {
    hide Closes, MoneySound, ReceiptsSound, LogSound, KeysUnique, IntentsSound, DepositsCounted, Identified, AgentsFollow,
         MoveIntent, CreateIntent, RecordDepositStep, ConfigureManualStep, AdminDraft, Administers, TellsSwitch,
         CreateAgentStep, EmergencyStopStep, UpdatePolicyStep, ArmSessionStep, RotateStep, ApproveMerchantStep, SetAgentModeStep,
         RevokeAgentStep, ConfigureReceiveStep;
    var draft := Plan(s, request, env).value;
    if AboutAgents(request) {
      AgentRequestAdministers(s, request, env);
      AdminCloses(s, draft, request, env);
    } else {
      match request
      case CreateIntentRequest(agent, purchase) => CreateIntentCloses(s, agent, purchase, env);
      case CancelRequest(agent, id) => CancelMoves(s, agent, id, env); PlainMoveCloses(s, id, Cancelled, AgentActor(agent), CancelIntent, request, env);
      case ApproveRequest(id) => PlainMoveCloses(s, id, Approved, Owner, ApproveIntent, request, env);
      case DenyRequest(id) => PlainMoveCloses(s, id, Cancelled, Owner, DenyIntent, request, env);
      case CompleteHandoffRequest(id) => PlainMoveCloses(s, id, Unknown, Owner, CompleteManualHandoff, request, env);
      case DepositRequest(external, details) => DepositCloses(s, external, details, env);
      case ConfigureManualRequest(balance, status, ttl, autonomous) => ConfigureCloses(s, balance, status, ttl, autonomous, env);
    }
  }

  lemma AdminCloses(s: TreasuryState, draft: Draft, request: Request, env: Env)
    requires AdminDraft(s, draft, env.nextId, env.at) && draft.Write? && AboutAgents(request)
    ensures Closes(s, draft, request, env)
  {
    hide Administers, TellsSwitch, Closes;
    AdministersCloses(s, draft.state, draft.actor, draft.action, request, env);
  }

  lemma CancelMoves(s: TreasuryState, agent: Id, id: Id, env: Env)
    requires Cancel(s, agent, id, env).Ok?
    ensures id in s.intents && s.intents[id].state.NeverReserved()
    ensures Cancel(s, agent, id, env) == MoveIntent(s, id, Cancelled, AgentActor(agent), CancelIntent, env.at)
  {
  }

  lemma HandoffLeads(s: TreasuryState, id: Id, env: Env)
    requires Sound(s, env.nextId) && BeginHandoff(s, id, env).Ok?
    ensures var draft := BeginHandoff(s, id, env).value;
            && draft.Write? && id in s.intents && Prepare(s, s.intents[id].agentId, id, env.at, env.verdict) == Ok(draft.state)
            && (Logged(draft, env.at).Ok? ==> Reaches(s, Logged(draft, env.at).value, env.nextId, env.at, env.at, 2))
  {
    hide Sound, Prepare, Record, Elementary, Reaches, Moved, LogFollows, Booked;
    SoundIsBooked(s, env.nextId);
    var prepared := Prepare(s, s.intents[id].agentId, id, env.at, env.verdict).value;
    PrepareIsElementary(s, s.intents[id].agentId, id, env.at, env.verdict, env.nextId);
    MovedFrame(s, prepared, id, env.at);
    ReachesOne(s, prepared, env.nextId, env.at);
    if Record(prepared, Owner, BeginManualHandoff, Some(id), env.at).Ok? {
      LogOnlyIsElementary(prepared, Owner, BeginManualHandoff, Some(id), env.at, env.nextId);
      ReachesNext(s, prepared, Record(prepared, Owner, BeginManualHandoff, Some(id), env.at).value, env.nextId, env.at, env.at, 1);
    }
  }

  lemma ReachesNowhere(s: TreasuryState, supply: Id, at: int)
    ensures Reaches(s, s, supply, at, at, 0)
  {
  }

  lemma ReachesOne(s: TreasuryState, s': TreasuryState, supply: Id, at: int)
    requires Elementary(s, s', supply, at)
    ensures Reaches(s, s', supply, at, at, 1)
  {
    hide Elementary, Reaches;
    ReachesNowhere(s, supply, at);
    ReachesNext(s, s, s', supply, at, at, 0);
  }

  /** How many elementary steps a request takes. */
  ghost function StepsOf(s: TreasuryState, request: Request, env: Env): nat {
    if Plan(s, request, env).Ok? && Plan(s, request, env).value.Unchanged? then 0
    else if request.BeginHandoffRequest? then 2
    else 1
  }

  /** Whatever a request changes, it changes through elementary steps: two for a handoff, otherwise one, or none. */
  lemma HandleLeads(s: TreasuryState, request: Request, env: Env)
    requires Sound(s, env.nextId) && !Handle(s, request, env).Reject?
    ensures Reaches(s, Handle(s, request, env).state, env.nextId, env.at, env.at, StepsOf(s, request, env))
    ensures Leads(s, Handle(s, request, env).state, env.nextId, env.at, env.at)
  {
    hide Sound, Plan, Record, Elementary, Reaches, Moved, LogFollows, Booked, OfKind;
    SoundIsBooked(s, env.nextId);
    var draft := Plan(s, request, env).value;
    match draft
    case Unchanged => ReachesNowhere(s, env.nextId, env.at);
    case Limit(agent) =>
      LogOnlyIsElementary(s, AgentActor(agent), TransactionRateLimited, None, env.at, env.nextId);
      PlannedLimit(s, request, env);
      ReachesOne(s, Handle(s, request, env).state, env.nextId, env.at);
    case Write(w, actor, action, intentId) =>
      if request.BeginHandoffRequest? {
        PlannedHandoff(s, request, env);
        HandoffLeads(s, request.intent, env);
      } else {
        if request.ReconcileRequest? {
          PlannedReconciliation(s, request, env);
          ReconcileIsElementary(s, request.intent, request.outcome, request.reference, env.verdict.malformed, env.at, env.nextId,
                                Owner, env.nextId);
        } else {
          DraftCloses(s, request, env);
          KindIsElementary(s, Handle(s, request, env).state, request, env);
        }
        ReachesOne(s, Handle(s, request, env).state, env.nextId, env.at);
      }
  }

  lemma PlannedLimit(s: TreasuryState, request: Request, env: Env)
    requires Plan(s, request, env).Ok? && Plan(s, request, env).value.Limit?
    ensures !request.BeginHandoffRequest?
  {
    hide Prepare;
  }

  lemma PlannedHandoff(s: TreasuryState, request: Request, env: Env)
    requires request.BeginHandoffRequest?
    ensures Plan(s, request, env) == BeginHandoff(s, request.intent, env)
  {
    hide BeginHandoff;
  }

  lemma PlannedReconciliation(s: TreasuryState, request: Request, env: Env)
    requires request.ReconcileRequest? && Plan(s, request, env).Ok?
    ensures var r := Reconcile(s, request.intent, request.outcome, request.reference, env.verdict.malformed, env.at, env.nextId);
            r.Ok? && Plan(s, request, env) == Ok(Write(r.value, Owner, ReconcileIntent, Some(request.intent)))
  {
    hide Reconcile;
  }
}
