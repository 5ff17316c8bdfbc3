/** The records of `TreasuryState` and the transaction state machine. */
module Records {
  import opened Results
  import opened MoneyMath

  /** Agents, sessions, intents and provider references: drawn from one supply, never repeated. */
  type Id = nat

  const MAX_INTENTS: nat := 10_000
  const MAX_INTENTS_PER_AGENT: nat := 2_000
  const MAX_AGENTS: nat := 16
  const MAX_AGENT_APPROVED_MERCHANTS: nat := 8
  const DAY_SECS: int := 24 * 60 * 60
  const MINUTE_SECS: int := 60
  const DUPLICATE_WINDOW_SECS: int := 15 * 60

  datatype AutonomyMode = Observe | ApprovalOnly | BoundedAutonomous | Disabled

  /** Scenarios the simulated provider tells apart; every other one is `Normal` to it. */
  datatype Scenario = Normal | Decline | DelayedSettlement | TimeoutBeforeSubmit | TimeoutAfterSubmit | BrowserCrash

  /** The six money limits share the policy currency, as `Policy::validate` demands. */
  datatype Policy = Policy(
    version: nat,
    currency: Currency,
    maxPerTransaction: i64,
    maxPerSession: i64,
    maxRolling24h: i64,
    maxLifetime: i64,
    exposureCeiling: i64,
    maxTreasurySize: i64,
    reinvestmentBps: nat,
    allowedCurrencies: set<Currency>,
    maxTotalDrift: i64,
    maxPerMinute: nat,
    intentTtl: i64,
    sessionTtl: i64)
  {
    predicate Valid() {
      && reinvestmentBps <= FULL_BASIS_POINTS
      && maxPerMinute != 0
      && 0 < intentTtl && 0 < sessionTtl && 0 <= maxTotalDrift
      && 0 < maxPerTransaction && 0 < maxPerSession && 0 < maxRolling24h && 0 < maxLifetime
      && 0 < exposureCeiling <= maxTreasurySize
    }
  }

  /** The bootstrap policy, or the one policy created together with an agent. */
  datatype PolicyId = BootstrapPolicy | AgentPolicy(agent: Id)

  datatype Agent = Agent(
    policyId: PolicyId,
    approvedMerchants: set<nat>,
    session: Id,
    sessionExpiresAt: int,
    mode: AutonomyMode,
    expiresAt: int,
    revoked: bool)

  /** `facts` stands for the checkout facts that only the folded policy checks look at. */
  datatype PurchaseRequest = PurchaseRequest(
    key: nat,
    amount: Money,
    finalTotal: Money,
    merchant: nat,
    scenario: Scenario,
    facts: nat)

  datatype TransactionState =
    | Draft | Proposed | PolicyValidated | ApprovalRequired | Approved | FundsReserved | Executing
    | ProviderPending | Settled | Declined | Failed | Unknown | Cancelled | Refunded | ReconciliationRequired
  {
    predicate CanTransition(next: TransactionState) {
      match (this, next)
      case (Draft, Proposed) => true
      case (Proposed, PolicyValidated) => true
      case (Proposed, ApprovalRequired) => true
      case (Proposed, Failed) => true
      case (Proposed, Cancelled) => true
      case (PolicyValidated, FundsReserved) => true
      case (ApprovalRequired, Approved) => true
      case (ApprovalRequired, Cancelled) => true
      case (Approved, FundsReserved) => true
      case (FundsReserved, Executing) => true
      case (Executing, ProviderPending) => true
      case (Executing, Settled) => true
      case (Executing, Declined) => true
      case (Executing, Failed) => true
      case (Executing, Unknown) => true
      case (ProviderPending, Settled) => true
      case (ProviderPending, Declined) => true
      case (ProviderPending, Unknown) => true
      case (ProviderPending, ReconciliationRequired) => true
      case (Unknown, ReconciliationRequired) => true
      case (ReconciliationRequired, Settled) => true
      case (ReconciliationRequired, Declined) => true
      case (Unknown, Settled) => true
      case (Unknown, Declined) => true
      case (Settled, Refunded) => true
      case _ => false
    }

    /** Funds are reserved and the outcome is not final: the states that `usage` and `ledger_snapshot` count. */
    predicate Open() {
      FundsReserved? || Executing? || ProviderPending? || Unknown? || ReconciliationRequired?
    }

    /** The outcome must come from the owner. */
    predicate Uncertain() {
      ProviderPending? || Unknown? || ReconciliationRequired?
    }

    /** The only states from which execution may start. */
    predicate Executable() {
      PolicyValidated? || Approved?
    }

    /** Execution has not started and was not ruled out. */
    predicate Unstarted() {
      Draft? || Proposed? || PolicyValidated? || ApprovalRequired? || Approved?
    }

    predicate Spent() {
      Settled? || Refunded?
    }

    /** No reservation was ever taken, or none will be. */
    predicate NeverReserved() {
      Unstarted() || Failed? || Cancelled?
    }
  }

  /** The state changes the broker actually stores; the steps in between never reach the map. */
  predicate StoredMove(before: TransactionState, next: TransactionState) {
    || (before.NeverReserved() && next.NeverReserved() && before.CanTransition(next))
    || (before.Executable() && next.Executing?)
    || (before.Open() && next.Open() && Stage(before) < Stage(next))
    || (before.Open() && (next.Settled? || next.Declined? || next.Refunded?))
    || (before.Settled? && next.Refunded?)
  }

  /** Position in a topological order of the transition table. */
  function Stage(s: TransactionState): nat {
    match s
    case Draft => 0
    case Proposed => 1
    case PolicyValidated => 2
    case ApprovalRequired => 2
    case Approved => 3
    case FundsReserved => 4
    case Executing => 5
    case ProviderPending => 6
    case Unknown => 7
    case ReconciliationRequired => 8
    case Settled => 9
    case Refunded => 10
    case Declined => 11
    case Failed => 11
    case Cancelled => 11
  }

  /** A chain of table edges. */
  ghost predicate IsPath(path: seq<TransactionState>) {
    forall i :: 0 <= i < |path| - 1 ==> path[i].CanTransition(path[i + 1])
  }

  lemma {:induction false} StagesRise(path: seq<TransactionState>)
    requires IsPath(path)
    ensures forall i, j :: 0 <= i < j < |path| ==> Stage(path[i]) < Stage(path[j])
  {
    if |path| > 1 {
      StagesRise(path[..|path| - 1]);
      assert path[|path| - 2].CanTransition(path[|path| - 1]);
    }
  }

  /** The table has no cycle, so no chain of transitions ever enters `Executing` twice. */
  lemma TableExecutesOnce(path: seq<TransactionState>, i: nat, j: nat)
    requires IsPath(path) && i < |path| && j < |path|
    requires path[i] == Executing && path[j] == Executing
    ensures i == j
  {
    StagesRise(path);
  }

  /** Edges of the table between an open state and `next`, leaving out both ends. */
  function Between(before: TransactionState, next: TransactionState): seq<TransactionState> {
    if before.CanTransition(next) then []
    else if before.Executable() then [FundsReserved]
    else if next.Refunded? then (if before.FundsReserved? then [Executing, Settled] else [Settled])
    else if before.FundsReserved? then (if next.ReconciliationRequired? then [Executing, Unknown] else [Executing])
    else [Unknown]
  }

  /** Every change the broker stores is a chain of edges of the transition table. */
  lemma StoredMovesFollowTable(before: TransactionState, next: TransactionState)
    requires StoredMove(before, next)
    ensures IsPath([before] + Between(before, next) + [next])
    ensures Stage(before) < Stage(next)
  {
  }

  datatype Receipt = Receipt(intentId: Id, merchant: nat, amount: Money, status: TransactionState,
                             reference: Option<Id>, issuedAt: int)

  datatype Intent = Intent(
    agentId: Id,
    session: Id,
    request: PurchaseRequest,
    state: TransactionState,
    policyVersion: nat,
    createdAt: int,
    updatedAt: int,
    reference: Option<Id>,
    receipt: Option<Receipt>)
  {
    /** `PurchaseIntent::transition`. */
    function Transition(next: TransactionState, at: int): Result<Intent> {
      if state.CanTransition(next) then Ok(this.(state := next, updatedAt := at)) else Err(Conflict)
    }

    /** The same along an edge known to be in the table. */
    function To(next: TransactionState, at: int): (x: Intent)
      requires state.CanTransition(next)
      ensures Transition(next, at) == Ok(x)
    {
      this.(state := next, updatedAt := at)
    }
  }

  datatype LedgerEventKind =
    | OwnerCapital | IncomeVerified | IncomeUnverified | OperatorTopUp | HoldReserved | HoldReleased
    | SpendingSettled | Refund

  datatype LedgerEvent = LedgerEvent(at: int, kind: LedgerEventKind, amount: Money, intentId: Option<Id>)

  datatype Charge = Charge(amount: Money, reference: Id, settled: bool, refunded: bool)

  datatype SimulatedProvider = SimulatedProvider(balance: Money, holds: map<Id, Money>, charges: map<Id, Charge>)

  datatype ProviderOutcome =
    | ProviderApproved(reference: Id)
    | ProviderDeclined
    | ProviderDelayed(reference: Id)
    | ProviderUnknown

  datatype ProviderMode = Simulated | ManualPrepaidCard

  datatype BalanceStatus = Estimated | OwnerConfirmed

  datatype ManualProvider = ManualProvider(
    amount: Money,
    status: BalanceStatus,
    expiresAt: int,
    outgoingSupported: bool)

  /** What a processed external deposit reference is bound to. */
  datatype DepositDetails = DepositDetails(amount: Money, source: nat, verified: bool, agentId: Option<Id>)

  datatype Actor = Owner | AgentActor(id: Id) | BrokerActor

  datatype AuditAction =
    | BootstrapTreasury | CreateAgent | ArmSession | UpdatePolicy | EmergencyStopOn | EmergencyStopOff
    | SetAgentMode | RevokeAgent | RotateCapability | CreatePurchaseIntent | TransactionRateLimited
    | ReserveFunds | ProviderOutcomeSeen | QuarantineProviderError | RecoverInterruptedExecution
    | BeginManualHandoff | CompleteManualHandoff | ControlledCheckoutHandoff | OwnerCheckoutHandoff
    | ReconcileIntent | CancelIntent | ApproveIntent | DenyIntent | ApproveMerchant | RecordDeposit
    | ConfigureReceive | ConfigureManual

  /** A keyed digest is a free constructor: equal digests have equal inputs. `NoHash` is the empty string. */
  datatype Hash = NoHash | Mac(body: AuditBody)

  datatype AuditBody = AuditBody(sequence: nat, at: int, actor: Actor, action: AuditAction,
                                 intentId: Option<Id>, previous: Hash)

  datatype AuditEntry = AuditEntry(body: AuditBody, hash: Hash)

  datatype TreasuryState = TreasuryState(
    generation: nat,
    agents: map<Id, Agent>,
    policies: map<PolicyId, Policy>,
    intents: map<Id, Intent>,
    ledger: seq<LedgerEvent>,
    audit: seq<AuditEntry>,
    receiveInstructions: Option<nat>,
    emergencyStop: bool,
    provider: SimulatedProvider,
    mode: ProviderMode,
    manual: Option<ManualProvider>,
    deposits: map<nat, DepositDetails>)
}
