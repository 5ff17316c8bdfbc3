/**
 The elementary steps. Every request, execution, checkout and recovery is a chain of these, so an
 invariant needs one argument per kind of step instead of one per operation.
 */
module Steps {
  import opened Results
  import opened MoneyMath
  import opened Records
  import opened AuditLog
  import opened Execution
  import opened Requests
  import opened MoneyInvariant

  /** At most one sealed entry is appended, within its quota, and it tells the truth about the stop switch. */
  ghost predicate LogFollows(s: TreasuryState, s': TreasuryState, at: int) {
    if s'.audit == s.audit then s'.generation == s.generation && s'.emergencyStop == s.emergencyStop
    else
      && |s'.audit| == |s.audit| + 1 && s'.generation == s.generation + 1
      && EntryFollows(s, s', s'.audit[|s.audit|].body, at)
  }

  ghost predicate EntryFollows(s: TreasuryState, s': TreasuryState, body: AuditBody, at: int) {
    && s'.audit == s.audit + [Seal(s.audit, at, body.actor, body.action, body.intentId)]
    && CapacityAllows(Used(s.audit), EmergencyCount(s.audit), body.action)
    && (if IsEmergency(body.action)
        then s.emergencyStop == body.action.EmergencyStopOff? && s'.emergencyStop == body.action.EmergencyStopOn?
        else s'.emergencyStop == s.emergencyStop)
  }

  /** A receipt exists exactly for settled and refunded intents, names its own intent and states its total. */
  predicate ReceiptSound(id: Id, x: Intent) {
    && (x.receipt.Some? <==> x.state.Spent())
    && (x.receipt.Some? ==> x.receipt.value.intentId == id && x.receipt.value.amount == x.request.finalTotal)
  }

  predicate SameIdentity(x: Intent, next: Intent) {
    && next.request == x.request && next.agentId == x.agentId && next.session == x.session
    && next.createdAt == x.createdAt && next.policyVersion == x.policyVersion
    && (x.receipt.Some? ==> next.receipt == x.receipt)
  }

  // ----- the kinds of step -----

  predicate LogOnly(s: TreasuryState, s': TreasuryState) {
    s' == s.(audit := s'.audit, generation := s'.generation)
  }

  /** `s'` stores `s'.intents[id]`, with the matching ledger events and whatever the balances say. */
  predicate Rewrites(s: TreasuryState, s': TreasuryState, id: Id, at: int) {
    && id in s.intents && id in s'.intents
    && s' == s.(intents := s.intents[id := s'.intents[id]],
                ledger := s.ledger + MoveEvents(s.intents[id].state, s'.intents[id], id, at),
                provider := s'.provider, manual := s'.manual, audit := s'.audit, generation := s'.generation)
    && TreasuryCurrency(s') == TreasuryCurrency(s)
  }

  /** Only a successful preparation starts an intent. */
  ghost predicate StartsLawfully(s: TreasuryState, id: Id, next: Intent, at: int) {
    next.state.Executing? ==> exists verdict :: Prepare(s, next.agentId, id, at, verdict).Ok?
  }

  ghost predicate BalancesFollow(s: TreasuryState, s': TreasuryState, id: Id, next: Intent)
    requires id in s.intents
  {
    && (s.mode.Simulated? ==> ProviderFollows(s.intents, s.provider, s'.provider, id, next))
    && ManualFollows(s, s', id, next)
  }

  /** One intent moves along the table. */
  ghost predicate Moved(s: TreasuryState, s': TreasuryState, id: Id, at: int) {
    && Rewrites(s, s', id, at)
    && SameIdentity(s.intents[id], s'.intents[id]) && StoredMove(s.intents[id].state, s'.intents[id].state)
    && ReceiptSound(id, s'.intents[id])
    && StartsLawfully(s, id, s'.intents[id], at)
    && BalancesFollow(s, s', id, s'.intents[id])
  }

  /** One new intent is stored in its agent's current session, under a key the agent has not used. */
  predicate Introduced(s: TreasuryState, s': TreasuryState, id: Id) {
    && id !in s.intents && id in s'.intents
    && s' == s.(intents := s.intents[id := s'.intents[id]], audit := s'.audit, generation := s'.generation)
    && |s.intents| < MAX_INTENTS
    && var next := s'.intents[id];
       && (next.state.Unstarted() || next.state.Failed?) && next.receipt.None?
       && next.agentId in s.agents && next.session == s.agents[next.agentId].session
       && 0 < next.request.amount.minor && 0 < next.request.finalTotal.minor
       && (forall i :: i in s.intents ==> !SameKey(s.intents[i], next.agentId, next.request.key))
  }

  /** An identifier is the old one or freshly drawn. */
  predicate Drawn(current: Id, former: Id, supply: Id) {
    current == former || supply <= current <= NextId(supply)
  }

  /** The last identifier one event may draw. */
  function NextId(supply: Id): Id {
    2 * supply + 1
  }

  /** An agent keeps or renews its session and its expiry. */
  predicate Renewed(former: Agent, current: Agent, supply: Id, at: int) {
    Drawn(current.session, former.session, supply) && (current.expiresAt == former.expiresAt || at < current.expiresAt)
  }

  predicate AgentsFollow(agents: map<Id, Agent>, agents': map<Id, Agent>, supply: Id, at: int) {
    && (forall a :: a in agents ==> a in agents' && Renewed(agents[a], agents'[a], supply, at))
    && (forall a :: a in agents' && a !in agents ==>
          supply <= a <= NextId(supply) && supply <= agents'[a].session <= NextId(supply) && at < agents'[a].expiresAt)
    && (|agents| <= MAX_AGENTS ==> |agents'| <= MAX_AGENTS)
  }

  /** The owner changes agents, policies, instructions or the switch; no money and no intent moves. */
  predicate Administered(s: TreasuryState, s': TreasuryState, supply: Id, at: int) {
    && s' == s.(agents := s'.agents, policies := s'.policies, receiveInstructions := s'.receiveInstructions,
                emergencyStop := s'.emergencyStop, audit := s'.audit, generation := s'.generation)
    && AgentsFollow(s.agents, s'.agents, supply, at)
    && (s'.emergencyStop && !s.emergencyStop ==> forall a :: a in s'.agents ==> supply <= s'.agents[a].session)
  }

  /** The spendable share of a deposit: none of unverified income, the target agent's ratio of verified income. */
  predicate SharesBy(s: TreasuryState, d: DepositDetails, share: Money) {
    && share.currency == d.amount.currency && 0 <= share.minor
    && (d.verified ==> d.agentId.Some? && PolicyOf(s, d.agentId.value).Ok?
                       && var ratio := PolicyOf(s, d.agentId.value).value.reinvestmentBps;
                          ratio <= FULL_BASIS_POINTS && share.minor == TruncatedShare(d.amount.minor, ratio))
    && (!d.verified ==> share.minor == 0)
  }

  /** Verified income reaches the balance of the mode in use, in the treasury currency; other income reaches none. */
  predicate IncomeBooked(s: TreasuryState, s': TreasuryState, d: DepositDetails) {
    if !d.verified then s'.provider == s.provider && s'.manual == s.manual
    else if s.mode.Simulated? then
      && s'.manual == s.manual && d.amount.currency == TreasuryCurrency(s) && Fits(s.provider.balance.minor + d.amount.minor)
      && s'.provider == s.provider.(balance := Money(s.provider.balance.minor + d.amount.minor, TreasuryCurrency(s)))
    else
      && s'.provider == s.provider && s.manual.Some? && s'.manual.Some?
      && d.amount.currency == s.manual.value.amount.currency == s'.manual.value.amount.currency
      && s'.manual.value.amount.minor == s.manual.value.amount.minor + d.amount.minor
  }

  /** A deposit with an unused external reference is recorded. */
  ghost predicate Credited(s: TreasuryState, s': TreasuryState, reference: nat, share: Money, at: int) {
    && reference !in s.deposits && reference in s'.deposits && 0 < s'.deposits[reference].amount.minor
    && SharesBy(s, s'.deposits[reference], share) && IncomeBooked(s, s', s'.deposits[reference])
    && s' == s.(ledger := AppendIncome(s, s'.deposits[reference], share, at).ledger,
                deposits := s.deposits[reference := s'.deposits[reference]],
                provider := s'.provider, manual := s'.manual, audit := s'.audit, generation := s'.generation)
  }

  /** The owner configures the manual card while nothing is in flight. */
  ghost predicate Reconfigured(s: TreasuryState, s': TreasuryState) {
    && (forall i :: i in s.intents ==> Terminal(s.intents[i].state))
    && s'.manual.Some? && 0 <= s'.manual.value.amount.minor && s'.manual.value.amount.currency == TreasuryCurrency(s)
    && s' == s.(mode := ManualPrepaidCard, manual := s'.manual, audit := s'.audit, generation := s'.generation)
  }

  ghost predicate Elementary(s: TreasuryState, s': TreasuryState, supply: Id, at: int) {
    && LogFollows(s, s', at)
    && (|| LogOnly(s, s')
        || (exists id :: Moved(s, s', id, at))
        || Introduced(s, s', supply)
        || Administered(s, s', supply, at)
        || (exists reference, share :: Credited(s, s', reference, share, at))
        || Reconfigured(s, s'))
  }

  // ----- what a step begins -----

  /** The intent has begun: whatever its state, it is not one from which execution could start. */
  predicate Begun(s: TreasuryState, id: Id) {
    id in s.intents && !s.intents[id].state.NeverReserved()
  }

  /** `s'` shows an intent of `agent` as begun that `s` does not. */
  ghost predicate Begins(s: TreasuryState, s': TreasuryState, agent: Id) {
    exists id :: id in s'.intents && s'.intents[id].agentId == agent && Begun(s', id) && !Begun(s, id)
  }

  predicate SameOffice(s: TreasuryState, s': TreasuryState) {
    s'.agents == s.agents && s'.policies == s.policies
  }

  /**
   A chain of elementary steps at rising times between two clock readings. Only the last step may
   change agents or policies, so every reservation in a chain is decided by the policies it began with.
   */
  ghost predicate Reaches(s: TreasuryState, s': TreasuryState, supply: Id, from: int, to: int, steps: nat)
    decreases steps
  {
    if steps == 0 then s == s'
    else exists mid, at ::
      from <= at <= to && Reaches(s, mid, supply, from, at, steps - 1) && SameOffice(s, mid) && Elementary(mid, s', supply, at)
  }

  /** Some chain of elementary steps leads from one state to the other. */
  ghost predicate Leads(s: TreasuryState, s': TreasuryState, supply: Id, from: int, to: int) {
    exists steps: nat :: Reaches(s, s', supply, from, to, steps)
  }

  lemma LeadsNowhere(s: TreasuryState, supply: Id, from: int, to: int)
    ensures Leads(s, s, supply, from, to)
  {
    assert Reaches(s, s, supply, from, to, 0);
  }

  lemma LeadsOn(s: TreasuryState, mid: TreasuryState, s': TreasuryState, supply: Id, from: int, at: int)
    requires Leads(s, mid, supply, from, at) && SameOffice(s, mid) && Elementary(mid, s', supply, at) && from <= at
    ensures Leads(s, s', supply, from, at)
  {
    var steps: nat :| Reaches(s, mid, supply, from, at, steps);
    hide Elementary;
    assert Reaches(s, s', supply, from, at, steps + 1);
  }

  lemma LeadsOne(s: TreasuryState, s': TreasuryState, supply: Id, from: int, at: int)
    requires Elementary(s, s', supply, at) && from <= at
    ensures Leads(s, s', supply, from, at)
  {
    hide Elementary, Leads;
    LeadsNowhere(s, supply, from, at);
    LeadsOn(s, s, s', supply, from, at);
  }

  lemma ReachesLonger(s: TreasuryState, s': TreasuryState, supply: Id, from: int, to: int, to': int, steps: nat)
    requires Reaches(s, s', supply, from, to, steps) && to <= to'
    ensures Reaches(s, s', supply, from, to', steps)
  {
    hide Elementary;
  }

  lemma LeadsLonger(s: TreasuryState, s': TreasuryState, supply: Id, from: int, to: int, to': int)
    requires Leads(s, s', supply, from, to) && to <= to'
    ensures Leads(s, s', supply, from, to')
  {
    var steps: nat :| Reaches(s, s', supply, from, to, steps);
    ReachesLonger(s, s', supply, from, to, to', steps);
  }

  lemma ReachesNext(s: TreasuryState, mid: TreasuryState, s': TreasuryState, supply: Id, from: int, at: int, steps: nat)
    requires Reaches(s, mid, supply, from, at, steps) && SameOffice(s, mid) && Elementary(mid, s', supply, at) && from <= at
    ensures Reaches(s, s', supply, from, at, steps + 1)
  {
    hide Elementary;
  }

  // ----- what a step leaves behind -----

  lemma RecordFollows(s: TreasuryState, w: TreasuryState, actor: Actor, action: AuditAction, intentId: Option<Id>, at: int)
    requires w.audit == s.audit && w.generation == s.generation
    requires Record(w, actor, action, intentId, at).Ok?
    requires if IsEmergency(action)
             then s.emergencyStop == action.EmergencyStopOff? && w.emergencyStop == action.EmergencyStopOn?
             else w.emergencyStop == s.emergencyStop
    ensures LogFollows(s, Record(w, actor, action, intentId, at).value, at)
  {
    hide Used, EmergencyCount, CapacityAllows;
  }

  lemma LogOnlyIsElementary(s: TreasuryState, actor: Actor, action: AuditAction, intentId: Option<Id>, at: int, supply: Id)
    requires Record(s, actor, action, intentId, at).Ok? && !IsEmergency(action)
    ensures Elementary(s, Record(s, actor, action, intentId, at).value, supply, at)
  {
    hide LogFollows;
    RecordFollows(s, s, actor, action, intentId, at);
  }
}
