/** The requests of `Treasury::handle` that change state, as functions of the state. */
module Requests {
  import opened Results
  import opened Sums
  import opened MoneyMath
  import opened Records
  import opened AuditLog
  import opened Budget
  import opened Execution

  /** What a request draws from outside: clock readings, identifiers and folded checks. */
  datatype Env = Env(at: int, lag: nat, nextId: Id, verdict: Verdict)

  datatype Request =
    | CreateIntentRequest(agent: Id, purchase: PurchaseRequest)
    | CancelRequest(agent: Id, intent: Id)
    | CreateAgentRequest(policy: Policy, mode: AutonomyMode, ttl: i64)
    | UpdatePolicyRequest(agent: Id, policy: Policy)
    | SetAgentModeRequest(agent: Id, mode: AutonomyMode)
    | RevokeAgentRequest(agent: Id)
    | RotateRequest(agent: Id, ttl: i64)
    | EmergencyStopRequest(stopped: bool)
    | ApproveRequest(intent: Id)
    | DenyRequest(intent: Id)
    | BeginHandoffRequest(intent: Id)
    | CompleteHandoffRequest(intent: Id)
    | ApproveMerchantRequest(agent: Id, merchant: nat)
    | ReconcileRequest(intent: Id, outcome: ReconciliationOutcome, reference: Option<Id>)
    | DepositRequest(external: nat, details: DepositDetails)
    | ArmSessionRequest(agent: Id, ttl: i64)
    | ConfigureManualRequest(balance: Money, status: BalanceStatus, ttl: i64, autonomousCheckout: bool)
    | ConfigureReceiveRequest(instructions: nat)
  {
    predicate FromAgent() {
      CreateIntentRequest? || CancelRequest?
    }
  }

  /** `Throttle` is the refusal that still records one coalesced rate-limit entry. */
  datatype Step = Accept(state: TreasuryState) | Throttle(state: TreasuryState) | Reject(error: Error)

  /** What a request writes before its closing audit entry; `Limit` writes nothing but the entry and still refuses. */
  datatype Draft =
    | Unchanged
    | Write(state: TreasuryState, actor: Actor, action: AuditAction, intentId: Option<Id>)
    | Limit(agent: Id)

  // ----- agent requests -----

  predicate SameKey(x: Intent, agent: Id, key: nat) {
    x.agentId == agent && x.request.key == key
  }

  /** A live intent of the agent with the same total and merchant, touched in the last fifteen minutes. */
  predicate LikelyDuplicate(x: Intent, agent: Id, r: PurchaseRequest, at: int) {
    && x.agentId == agent && at - DUPLICATE_WINDOW_SECS <= x.updatedAt
    && !x.state.Failed? && !x.state.Declined? && !x.state.Cancelled? && !x.state.Refunded?
    && x.request.finalTotal == r.finalTotal && x.request.merchant == r.merchant
  }

  /** Every manual checkout goes through the owner unless controlled checkout is enabled. */
  predicate OwnerMustCheckOut(s: TreasuryState) {
    s.mode.ManualPrepaidCard? && !(s.manual.Some? && s.manual.value.outgoingSupported)
  }

  function FinalDecision(s: TreasuryState, agent: Id, r: PurchaseRequest, decision: Decision, at: int): Decision {
    if decision.Deny? then Deny
    else if OwnerMustCheckOut(s) || exists i :: i in s.intents && LikelyDuplicate(s.intents[i], agent, r, at) then NeedApproval
    else decision
  }

  function InitialState(decision: Decision): TransactionState {
    match decision
    case Allow => PolicyValidated
    case NeedApproval => ApprovalRequired
    case Deny => Failed
  }

  predicate RateLimitRecorded(log: seq<AuditEntry>, agent: Id, at: int) {
    exists e :: e in log && at - MINUTE_SECS <= e.body.at && e.body.actor == AgentActor(agent)
                && e.body.action.TransactionRateLimited?
  }

  /** Quotas and session checks before the usage is computed. */
  ghost function AdmitIntent(s: TreasuryState, agent: Id, at: int): Result<Policy> {
    if |s.intents| >= MAX_INTENTS || Sum(s.intents, AgentIntentW(agent)) >= MAX_INTENTS_PER_AGENT then Err(Conflict)
    else
      var policy :- PolicyOf(s, agent);
      if !s.emergencyStop && s.agents[agent].sessionExpiresAt <= at then Err(Forbidden) else Ok(policy)
  }

  ghost function StoreIntent(s: TreasuryState, agent: Id, r: PurchaseRequest, policy: Policy, env: Env): Result<Draft> {
    var decision :- Decide(s, agent, r, policy, env.at, env.verdict);
    var x := Intent(agent, s.agents[agent].session, r, InitialState(FinalDecision(s, agent, r, decision, env.at)),
                    policy.version, env.at, env.at, None, None);
    Ok(Write(s.(intents := s.intents[env.nextId := x]), AgentActor(agent), CreatePurchaseIntent, Some(env.nextId)))
  }

  /** `create_intent`. */
  ghost function CreateIntent(s: TreasuryState, agent: Id, r: PurchaseRequest, env: Env): Result<Draft> {
    if agent !in s.agents then Err(NotFound)
    else if env.verdict.uncanonical then Err(Invalid)
    else if exists i :: i in s.intents && SameKey(s.intents[i], agent, r.key) then
      if exists i :: i in s.intents && SameKey(s.intents[i], agent, r.key) && s.intents[i].request == r
      then Ok(Unchanged) else Err(Conflict)
    else
      var policy :- AdmitIntent(s, agent, env.at);
      var u :- UsageOf(s, agent, policy.currency, env.at);
      if u.recent < policy.maxPerMinute then StoreIntent(s, agent, r, policy, env)
      else if RateLimitRecorded(s.audit, agent, env.at) then Err(RateLimited)
      else Ok(Limit(agent))
  }

  /** Move one intent along one edge of the table and log it. */
  function MoveIntent(s: TreasuryState, id: Id, next: TransactionState, actor: Actor, action: AuditAction, at: int)
    : Result<Draft>
    requires id in s.intents
  {
    var moved :- s.intents[id].Transition(next, at);
    Ok(Write(s.(intents := s.intents[id := moved]), actor, action, Some(id)))
  }

  /** `cancel_intent`: its guard lets `PolicyValidated` through, the transition table does not. */
  function Cancel(s: TreasuryState, agent: Id, id: Id, env: Env): Result<Draft> {
    if agent !in s.agents then Err(NotFound)
    else
      var x :- IntentOf(s, agent, id);
      if !(x.state.Proposed? || x.state.ApprovalRequired? || x.state.PolicyValidated?) then Err(Conflict)
      else MoveIntent(s, id, Cancelled, AgentActor(agent), CancelIntent, env.at)
  }

  // ----- owner requests on agents -----

  /** `validate_policy_exposure`. */
  ghost function PolicyCoversAuthority(s: TreasuryState, policy: Policy): Result<()> {
    var snapshot :- SnapshotOf(s, policy.currency);
    if snapshot.Authority() > policy.exposureCeiling then Err(Forbidden) else Ok(())
  }

  function Min(x: int, y: int): int {
    if x < y then x else y
  }

  /** The owner's own audit entry, about no intent. */
  function OwnerWrite(s: TreasuryState, action: AuditAction): Result<Draft> {
    Ok(Write(s, Owner, action, None))
  }

  predicate AgentTtlOk(ttl: int) {
    0 < ttl <= DAY_SECS
  }

  /** `owner_create_agent`: the session expiry is read before the agent expiry. */
  ghost function CreateAgentStep(s: TreasuryState, policy: Policy, mode: AutonomyMode, ttl: i64, env: Env): Result<Draft> {
    if |s.agents| >= MAX_AGENTS then Err(Conflict)
    else if env.verdict.malformed || !policy.Valid() then Err(Invalid)
    else
      var _ :- PolicyCoversAuthority(s, policy);
      if !AgentTtlOk(ttl) then Err(Invalid)
      else
        var expires := if s.emergencyStop then 0 else env.at + Min(ttl, policy.sessionTtl);
        var agent := Agent(AgentPolicy(env.nextId), {}, env.nextId + 1, expires, mode, env.at + env.lag + ttl, false);
        OwnerWrite(s.(policies := s.policies[AgentPolicy(env.nextId) := policy.(version := 1)],
                       agents := s.agents[env.nextId := agent]), CreateAgent)
  }

  /** `owner_arm_agent_session`. */
  function ArmSessionStep(s: TreasuryState, id: Id, ttl: i64, env: Env): Result<Draft> {
    if s.emergencyStop then Err(Forbidden)
    else
      var policy :- PolicyOf(s, id);
      if !(0 < ttl <= policy.sessionTtl) then Err(Invalid)
      else
        var agent := s.agents[id].(session := env.nextId, sessionExpiresAt := Min(env.at + ttl, s.agents[id].expiresAt));
        OwnerWrite(s.(agents := s.agents[id := agent]), ArmSession)
  }

  /** `owner_update_policy`. */
  ghost function UpdatePolicyStep(s: TreasuryState, id: Id, policy: Policy, env: Env): Result<Draft> {
    if env.verdict.malformed || !policy.Valid() then Err(Invalid)
    else
      var _ :- PolicyCoversAuthority(s, policy);
      var current :- PolicyOf(s, id);
      OwnerWrite(s.(policies := s.policies[s.agents[id].policyId := policy.(version := current.version + 1)]),
                  UpdatePolicy)
  }

  /** Every agent gets a session nobody holds, already expired. */
  function StoppedAgents(agents: map<Id, Agent>, nextId: Id): map<Id, Agent> {
    map a | a in agents :: agents[a].(session := nextId + a, sessionExpiresAt := 0)
  }

  /** `owner_emergency_stop`. */
  function EmergencyStopStep(s: TreasuryState, stopped: bool, env: Env): Result<Draft> {
    if s.emergencyStop == stopped then Ok(Unchanged)
    else
      var agents := if stopped then StoppedAgents(s.agents, env.nextId) else s.agents;
      OwnerWrite(s.(agents := agents, emergencyStop := stopped),
                  if stopped then EmergencyStopOn else EmergencyStopOff)
  }

  function SetAgentModeStep(s: TreasuryState, id: Id, mode: AutonomyMode, env: Env): Result<Draft> {
    if id !in s.agents then Err(NotFound)
    else OwnerWrite(s.(agents := s.agents[id := s.agents[id].(mode := mode)]), SetAgentMode)
  }

  function RevokeAgentStep(s: TreasuryState, id: Id, env: Env): Result<Draft> {
    if id !in s.agents then Err(NotFound)
    else OwnerWrite(s.(agents := s.agents[id := s.agents[id].(revoked := true, mode := Disabled)]), RevokeAgent)
  }

  /** `owner_rotate_agent_capability`: the agent expiry is read first, the session expiry `lag` seconds later. */
  function RotateStep(s: TreasuryState, id: Id, ttl: i64, env: Env): Result<Draft> {
    if !AgentTtlOk(ttl) then Err(Invalid)
    else
      var policy :- PolicyOf(s, id);
      if env.verdict.malformed then Err(Invalid)
      else
        var sessionExpires := if s.emergencyStop then 0 else env.at + env.lag + Min(ttl, policy.sessionTtl);
        var agent := s.agents[id].(expiresAt := env.at + ttl, session := env.nextId, sessionExpiresAt := sessionExpires,
                                   revoked := false, mode := ApprovalOnly);
        OwnerWrite(s.(agents := s.agents[id := agent]), RotateCapability)
  }

  function ApproveMerchantStep(s: TreasuryState, id: Id, merchant: nat, env: Env): Result<Draft> {
    if env.verdict.malformed then Err(Invalid)
    else if id !in s.agents then Err(NotFound)
    else if merchant in s.agents[id].approvedMerchants then Ok(Unchanged)
    else if |s.agents[id].approvedMerchants| >= MAX_AGENT_APPROVED_MERCHANTS then Err(Conflict)
    else
      var agent := s.agents[id].(approvedMerchants := s.agents[id].approvedMerchants + {merchant});
      OwnerWrite(s.(agents := s.agents[id := agent]), ApproveMerchant)
  }

  // ----- owner requests on intents -----

  /** `owner_approve` and `owner_deny`. */
  function AnswerApproval(s: TreasuryState, id: Id, approved: bool, env: Env): Result<Draft> {
    if id !in s.intents then Err(NotFound)
    else if !s.intents[id].state.ApprovalRequired? then Err(Conflict)
    else MoveIntent(s, id, if approved then Approved else Cancelled, Owner, if approved then ApproveIntent else DenyIntent, env.at)
  }

  /** `owner_begin_manual_handoff`. */
  ghost function BeginHandoff(s: TreasuryState, id: Id, env: Env): Result<Draft> {
    if s.mode.Simulated? then Err(Conflict)
    else if id !in s.intents then Err(NotFound)
    else if !s.intents[id].state.Approved? then Err(Conflict)
    else
      var prepared :- Prepare(s, s.intents[id].agentId, id, env.at, env.verdict);
      Ok(Write(prepared, Owner, BeginManualHandoff, Some(id)))
  }

  /** `owner_complete_manual_handoff`. */
  function CompleteHandoff(s: TreasuryState, id: Id, env: Env): Result<Draft> {
    if id !in s.intents then Err(NotFound)
    else if s.mode.Simulated? || !s.intents[id].state.Executing? then Err(Conflict)
    else MoveIntent(s, id, Unknown, Owner, CompleteManualHandoff, env.at)
  }

  /** `owner_reconcile`. */
  ghost function ReconcileStep(s: TreasuryState, id: Id, outcome: ReconciliationOutcome, reference: Option<Id>, env: Env)
    : Result<Draft>
  {
    var reconciled :- Reconcile(s, id, outcome, reference, env.verdict.malformed, env.at, env.nextId);
    Ok(Write(reconciled, Owner, ReconcileIntent, Some(id)))
  }

  // ----- deposits and configuration -----

  /** How much of a verified deposit becomes spendable, if it may be recorded at all. */
  ghost function Reinvested(s: TreasuryState, d: DepositDetails): Result<Money> {
    if !d.verified then Ok(Money(0, d.amount.currency))
    else if d.agentId.None? then Err(Invalid)
    else
      var policy :- PolicyOf(s, d.agentId.value);
      if d.amount.currency != policy.currency then Err(MoneyError)
      else
        var reported :- ReportedBalance(s);
        var projected :- reported.CheckedAdd(d.amount);
        if projected.minor > policy.maxTreasurySize then Err(Forbidden)
        else
          var share :- d.amount.ScaledBasisPoints(policy.reinvestmentBps);
          var snapshot :- SnapshotOf(s, policy.currency);
          if !Fits(snapshot.Authority() + share.minor) then Err(MoneyError)
          else if snapshot.Authority() + share.minor > policy.exposureCeiling then Err(Forbidden)
          else Ok(share)
  }

  /** Verified income reaches the provider balance; anything else does not. */
  function CreditProvider(s: TreasuryState, d: DepositDetails): Result<TreasuryState> {
    if !d.verified then Ok(s)
    else
      match s.mode
      case Simulated =>
        var balance :- s.provider.balance.CheckedAdd(d.amount);
        Ok(s.(provider := s.provider.(balance := balance)))
      case ManualPrepaidCard =>
        if s.manual.None? then Err(Conflict)
        else
          var amount :- s.manual.value.amount.CheckedAdd(d.amount);
          Ok(s.(manual := Some(s.manual.value.(amount := amount, status := OwnerConfirmed))))
  }

  function AppendIncome(s: TreasuryState, d: DepositDetails, share: Money, at: int): TreasuryState {
    var income := Append(s, if d.verified then IncomeVerified else IncomeUnverified, d.amount, None, at);
    if share.minor > 0 then Append(income, OperatorTopUp, share, None, at) else income
  }

  /** `owner_record_deposit`. */
  ghost function RecordDepositStep(s: TreasuryState, reference: nat, d: DepositDetails, env: Env): Result<Draft> {
    if env.verdict.malformed || d.amount.minor <= 0 then Err(Invalid)
    else if reference in s.deposits then (if s.deposits[reference] == d then Ok(Unchanged) else Err(Conflict))
    else
      var share :- Reinvested(s, d);
      var credited :- CreditProvider(s, d);
      var income := AppendIncome(credited, d, share, env.at);
      OwnerWrite(income.(deposits := s.deposits[reference := d]), RecordDeposit)
  }

  predicate Terminal(state: TransactionState) {
    state.Declined? || state.Failed? || state.Cancelled? || state.Settled? || state.Refunded?
  }

  /** `owner_configure_manual_provider`. */
  function ConfigureManualStep(s: TreasuryState, balance: Money, status: BalanceStatus, ttl: i64, autonomous: bool, env: Env)
    : Result<Draft>
  {
    if env.verdict.malformed then Err(Invalid)
    else if exists i :: i in s.intents && !Terminal(s.intents[i].state) then Err(Conflict)
    else if balance.minor < 0 || !AgentTtlOk(ttl) || balance.currency != s.provider.balance.currency then Err(Invalid)
    else if exists p :: p in s.policies && (balance.currency != s.policies[p].currency || balance.minor > s.policies[p].maxTreasurySize)
    then Err(Forbidden)
    else
      var manual := ManualProvider(balance, status, env.at + ttl, autonomous);
      OwnerWrite(s.(mode := ManualPrepaidCard, manual := Some(manual)), ConfigureManual)
  }

  function ConfigureReceiveStep(s: TreasuryState, instructions: nat, env: Env): Result<Draft> {
    if env.verdict.malformed then Err(Invalid)
    else OwnerWrite(s.(receiveInstructions := Some(instructions)), ConfigureReceive)
  }

  /** What each request writes. */
  ghost function Plan(s: TreasuryState, request: Request, env: Env): Result<Draft> {
    match request
    case CreateIntentRequest(agent, purchase) => CreateIntent(s, agent, purchase, env)
    case CancelRequest(agent, intent) => Cancel(s, agent, intent, env)
    case CreateAgentRequest(policy, mode, ttl) => CreateAgentStep(s, policy, mode, ttl, env)
    case UpdatePolicyRequest(agent, policy) => UpdatePolicyStep(s, agent, policy, env)
    case SetAgentModeRequest(agent, mode) => SetAgentModeStep(s, agent, mode, env)
    case RevokeAgentRequest(agent) => RevokeAgentStep(s, agent, env)
    case RotateRequest(agent, ttl) => RotateStep(s, agent, ttl, env)
    case EmergencyStopRequest(stopped) => EmergencyStopStep(s, stopped, env)
    case ApproveRequest(intent) => AnswerApproval(s, intent, true, env)
    case DenyRequest(intent) => AnswerApproval(s, intent, false, env)
    case BeginHandoffRequest(intent) => BeginHandoff(s, intent, env)
    case CompleteHandoffRequest(intent) => CompleteHandoff(s, intent, env)
    case ApproveMerchantRequest(agent, merchant) => ApproveMerchantStep(s, agent, merchant, env)
    case ReconcileRequest(intent, outcome, reference) => ReconcileStep(s, intent, outcome, reference, env)
    case DepositRequest(external, details) => RecordDepositStep(s, external, details, env)
    case ArmSessionRequest(agent, ttl) => ArmSessionStep(s, agent, ttl, env)
    case ConfigureManualRequest(balance, status, ttl, autonomous) => ConfigureManualStep(s, balance, status, ttl, autonomous, env)
    case ConfigureReceiveRequest(instructions) => ConfigureReceiveStep(s, instructions, env)
  }

  /** Close a draft with its audit entry. */
  function Commit(s: TreasuryState, draft: Draft, at: int): Step {
    match draft
    case Unchanged => Accept(s)
    case Write(written, actor, action, intentId) =>
      (match Record(written, actor, action, intentId, at)
       case Err(e) => Reject(e)
       case Ok(logged) => Accept(logged))
    case Limit(agent) =>
      (match Record(s, AgentActor(agent), TransactionRateLimited, None, at)
       case Err(e) => Reject(e)
       case Ok(logged) => Throttle(logged))
  }

  /** `Treasury::handle` after authentication. */
  ghost function Handle(s: TreasuryState, request: Request, env: Env): Step {
    match Plan(s, request, env)
    case Err(e) => Reject(e)
    case Ok(draft) => Commit(s, draft, env.at)
  }
}
