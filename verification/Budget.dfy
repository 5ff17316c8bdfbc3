/** Budgets recomputed from the intents and the ledger, and the decisions taken from them. */
module Budget {
  import opened Results
  import opened Sums
  import opened MoneyMath
  import opened Records

  // ----- weights -----

  /** A span of event times, both ends included. */
  datatype Span = Ever | Since(from: int) | Between(from: int, to: int) {
    predicate Contains(at: int) {
      match this
      case Ever => true
      case Since(lo) => lo <= at
      case Between(lo, hi) => lo <= at <= hi
    }
  }

  ghost function KindW(kind: LedgerEventKind, currency: Currency): LedgerEvent -> int {
    (e: LedgerEvent) => if e.kind == kind && e.amount.currency == currency then e.amount.minor else 0
  }

  ghost function KindTotal(ledger: seq<LedgerEvent>, kind: LedgerEventKind, currency: Currency): int {
    SumSeq(ledger, KindW(kind, currency))
  }

  /** Open reservations of one currency. */
  ghost function ReservedW(currency: Currency): (Id, Intent) -> int {
    (i: Id, x: Intent) => if x.request.finalTotal.currency == currency && x.state.Open() then x.request.finalTotal.minor else 0
  }

  ghost function Reserved(intents: map<Id, Intent>, currency: Currency): int {
    Sum(intents, ReservedW(currency))
  }

  /** Whose spending is counted: an agent's, or that of one of its sessions. */
  datatype Scope = WholeAgent(agent: Id) | OneSession(agent: Id, session: Id) {
    predicate Covers(x: Intent) {
      x.agentId == agent && (OneSession? ==> x.session == session)
    }

    /** Events of no intent are charged to every agent, and to no session. */
    predicate CoversEvent(e: LedgerEvent, intents: map<Id, Intent>) {
      match e.intentId
      case None => WholeAgent?
      case Some(id) => id in intents && Covers(intents[id])
    }
  }

  /** Open reservations within a scope. */
  ghost function OpenW(scope: Scope): (Id, Intent) -> int {
    (i: Id, x: Intent) => if scope.Covers(x) && x.state.Open() then x.request.finalTotal.minor else 0
  }

  ghost function OpenIn(intents: map<Id, Intent>, scope: Scope): int {
    Sum(intents, OpenW(scope))
  }

  predicate SettledFor(e: LedgerEvent, intents: map<Id, Intent>, scope: Scope, currency: Currency) {
    e.kind.SpendingSettled? && e.amount.currency == currency && scope.CoversEvent(e, intents)
  }

  ghost function SettledW(intents: map<Id, Intent>, scope: Scope, currency: Currency, span: Span): LedgerEvent -> int {
    (e: LedgerEvent) => if SettledFor(e, intents, scope, currency) && span.Contains(e.at) then e.amount.minor else 0
  }

  /** Recorded settled spend of a scope within a span. */
  ghost function SettledIn(intents: map<Id, Intent>, ledger: seq<LedgerEvent>, scope: Scope, currency: Currency, span: Span): int {
    SumSeq(ledger, SettledW(intents, scope, currency, span))
  }

  /** Settled spend of a span and every open reservation: what each limit is compared with. */
  ghost function Committed(s: TreasuryState, scope: Scope, currency: Currency, span: Span): int {
    SettledIn(s.intents, s.ledger, scope, currency, span) + OpenIn(s.intents, scope)
  }

  ghost function AgentIntentW(agent: Id): (Id, Intent) -> int {
    (i: Id, x: Intent) => if x.agentId == agent then 1 else 0
  }

  ghost function RecentW(agent: Id, since: int): (Id, Intent) -> int {
    (i: Id, x: Intent) => if x.agentId == agent && since <= x.createdAt then 1 else 0
  }

  ghost function HoldW(): (Id, Money) -> int {
    (i: Id, m: Money) => m.minor
  }

  // ----- usage and snapshot -----

  datatype Usage = Usage(session: int, rolling: int, lifetime: int, reserved: int, recent: int)

  /** An open intent of another currency makes the checked additions of `usage` fail. */
  ghost predicate ForeignOpen(intents: map<Id, Intent>, agent: Id, currency: Currency) {
    exists i :: i in intents && intents[i].agentId == agent && intents[i].state.Open()
                && intents[i].request.finalTotal.currency != currency
  }

  ghost function UsageTotals(s: TreasuryState, agent: Id, session: Id, currency: Currency, at: int): Usage {
    Usage(
      Committed(s, OneSession(agent, session), currency, Ever),
      Committed(s, WholeAgent(agent), currency, Since(at - DAY_SECS)),
      Committed(s, WholeAgent(agent), currency, Ever),
      OpenIn(s.intents, WholeAgent(agent)),
      Sum(s.intents, RecentW(agent, at - MINUTE_SECS)))
  }

  /** `Treasury::usage`: the totals, unless a checked addition fails on the way. */
  ghost function UsageOf(s: TreasuryState, agent: Id, currency: Currency, at: int): Result<Usage> {
    if agent !in s.agents then Err(NotFound)
    else
      var u := UsageTotals(s, agent, s.agents[agent].session, currency, at);
      if ForeignOpen(s.intents, agent, currency) || !Fits(u.lifetime) then Err(MoneyError)
      else Ok(u)
  }

  datatype LedgerSnapshot = LedgerSnapshot(
    ownerCapital: int,
    verifiedIncome: int,
    unverifiedIncome: int,
    operatorTopups: int,
    settledSpending: int,
    refunds: int,
    reserved: int)
  {
    /** Credits less debits: what may still be spent. */
    function Authority(): int {
      ownerCapital + operatorTopups + refunds - (settledSpending + reserved)
    }

    predicate NoOverflow() {
      && Fits(verifiedIncome) && Fits(unverifiedIncome)
      && Fits(ownerCapital + operatorTopups + refunds)
      && Fits(reserved) && Fits(settledSpending + reserved)
    }
  }

  ghost function SnapshotTotals(s: TreasuryState, currency: Currency): LedgerSnapshot {
    LedgerSnapshot(
      KindTotal(s.ledger, OwnerCapital, currency),
      KindTotal(s.ledger, IncomeVerified, currency),
      KindTotal(s.ledger, IncomeUnverified, currency),
      KindTotal(s.ledger, OperatorTopUp, currency),
      KindTotal(s.ledger, SpendingSettled, currency),
      KindTotal(s.ledger, Refund, currency),
      Reserved(s.intents, currency))
  }

  /** `Treasury::ledger_snapshot`. */
  ghost function SnapshotOf(s: TreasuryState, currency: Currency): (r: Result<LedgerSnapshot>)
    ensures r.Ok? ==> Fits(r.value.reserved) && 0 <= r.value.Authority()
  {
    var totals := SnapshotTotals(s, currency);
    if !totals.NoOverflow() then Err(MoneyError)
    else if totals.Authority() < 0 then Err(Conflict)
    else Ok(totals)
  }

  // ----- provider balances -----

  ghost function HoldTotal(p: SimulatedProvider): int {
    Sum(p.holds, HoldW())
  }

  /** `SimulatedProvider::available_balance`. */
  ghost function ProviderAvailable(p: SimulatedProvider): Result<Money> {
    if (exists i :: i in p.holds && p.holds[i].currency != p.balance.currency) || !Fits(HoldTotal(p)) then Err(MoneyError)
    else p.balance.CheckedSub(Money(HoldTotal(p), p.balance.currency))
  }

  /** `ManualPrepaidCardProvider::available_balance`. */
  function FreshManualBalance(m: ManualProvider, at: int): Result<Money> {
    if m.expiresAt <= at || m.status.Estimated? then Err(Conflict) else Ok(m.amount)
  }

  /** A reported balance less the open reservations. */
  function Uncommitted(reported: Money, snapshot: LedgerSnapshot): Result<Money>
    requires Fits(snapshot.reserved)
  {
    var available :- reported.CheckedSub(Money(snapshot.reserved, reported.currency));
    if available.minor < 0 then Err(Conflict) else Ok(available)
  }

  /** `provider_available_balance`: what a new reservation may draw on. */
  ghost function AvailableBalance(s: TreasuryState, at: int): Result<Money> {
    match s.mode
    case Simulated => ProviderAvailable(s.provider)
    case ManualPrepaidCard =>
      if s.manual.None? then Err(Conflict)
      else
        var reported :- FreshManualBalance(s.manual.value, at);
        var snapshot :- SnapshotOf(s, reported.currency);
        Uncommitted(reported, snapshot)
  }

  /** `provider_reported_balance`. */
  ghost function ReportedBalance(s: TreasuryState): Result<Money> {
    match s.mode
    case Simulated => ProviderAvailable(s.provider)
    case ManualPrepaidCard => if s.manual.None? then Err(Conflict) else Ok(s.manual.value.amount)
  }

  // ----- decisions -----

  /** The three shapes a `PolicyDecision` can take. */
  datatype Decision = Allow | NeedApproval | Deny

  /** Answers of the checks that are folded away: any answers at all, so every policy is covered. */
  datatype Verdict = Verdict(uncanonical: bool, malformed: bool, denied: bool, approval: bool)

  /** `PurchaseRequest::validate`; item, tip, attempt and redirect checks are folded into `malformed`. */
  function ValidateRequest(r: PurchaseRequest, policy: Policy, verdict: Verdict): Result<()> {
    if verdict.malformed || r.amount.minor <= 0 || r.finalTotal.minor <= 0 then Err(Invalid)
    else if r.amount.currency != r.finalTotal.currency then Err(Invalid)
    else if !Fits(r.amount.minor + policy.maxTotalDrift) then Err(MoneyError)
    else if r.finalTotal.minor > r.amount.minor + policy.maxTotalDrift then Err(Invalid)
    else Ok(())
  }

  predicate OverLimit(policy: Policy, total: int, u: Usage) {
    || total > policy.maxPerTransaction
    || u.session + total > policy.maxPerSession
    || u.rolling + total > policy.maxRolling24h
    || u.lifetime + total > policy.maxLifetime
    || u.recent >= policy.maxPerMinute
  }

  /** `Policy::evaluate`. */
  function Evaluate(policy: Policy, r: PurchaseRequest, u: Usage, mode: AutonomyMode, stopped: bool, verdict: Verdict)
    : Result<Decision>
  {
    if !policy.Valid() then Err(Invalid)
    else
      var _ :- ValidateRequest(r, policy, verdict);
      var total := r.finalTotal.minor;
      var primary := r.finalTotal.currency == policy.currency;
      if primary && !(Fits(u.session + total) && Fits(u.rolling + total) && Fits(u.lifetime + total)) then Err(MoneyError)
      else if stopped || mode.Observe? || mode.Disabled? || r.finalTotal.currency !in policy.allowedCurrencies
              || !primary || OverLimit(policy, total, u) || verdict.denied
      then Ok(Deny)
      else if verdict.approval || mode.ApprovalOnly? then Ok(NeedApproval)
      else Ok(Allow)
  }

  ghost function ConfiguredBalance(s: TreasuryState): Result<Money> {
    match s.mode
    case Simulated => Ok(s.provider.balance)
    case ManualPrepaidCard => if s.manual.None? then Err(Conflict) else Ok(s.manual.value.amount)
  }

  /** `enforce_authority`: nothing may pass that the ledger or the provider cannot cover. */
  ghost function EnforceAuthority(s: TreasuryState, decision: Decision, r: PurchaseRequest, u: Usage, policy: Policy, at: int)
    : Result<Decision>
  {
    if r.finalTotal.currency != policy.currency then Ok(decision)
    else
      var ledger :- SnapshotOf(s, policy.currency);
      var available :- AvailableBalance(s, at);
      var configured :- ConfiguredBalance(s);
      var total := r.finalTotal.minor;
      if !Fits(u.lifetime + total) then Err(MoneyError)
      else if ledger.Authority() < total || available.minor < total
              || configured.minor > policy.maxTreasurySize
              || u.lifetime + total > policy.exposureCeiling
      then Ok(Deny)
      else Ok(decision)
  }

  /** The whole pre-reservation decision, as taken when an intent is created and again before it executes. */
  ghost function Decide(s: TreasuryState, agent: Id, r: PurchaseRequest, policy: Policy, at: int, verdict: Verdict)
    : Result<Decision>
  {
    var u :- UsageOf(s, agent, policy.currency, at);
    var decision :- Evaluate(policy, r, u, s.agents[agent].mode, s.emergencyStop, verdict);
    EnforceAuthority(s, decision, r, u, policy, at)
  }
}
