/** Concrete worlds inside the invariant: the hypotheses of the guarantees are met, and the claimed failures do happen. */
module Witness {
  import opened Results
  import opened Sums
  import opened MoneyMath
  import opened Records
  import opened AuditLog
  import opened Budget
  import opened Execution
  import opened Requests
  import opened Storage
  import opened Daemon
  import opened LedgerInvariant
  import opened MoneyInvariant
  import opened Steps
  import opened Invariant
  import opened Operations
  import opened Reserve
  import opened Serving
  import opened Runs
  import opened Effects
  import opened ReserveRuns
  import opened Guarantees
  import opened Corners

  const QUIET := Verdict(false, false, false, false)

  function Capital(): LedgerEvent {
    LedgerEvent(900, OwnerCapital, Money(5_000, 0), None)
  }

  lemma SumOne<K, V>(k: K, v: V, w: (K, V) -> int)
    ensures Sum(map[k := v], w) == w(k, v)
  {
    var empty: map<K, V> := map[];
    SumSwap(empty, k, v, w, w);
    assert empty[k := v] == map[k := v];
  }

  lemma SumTwo<K, V>(k: K, v: V, j: K, u: V, w: (K, V) -> int)
    requires k != j
    ensures Sum(map[k := v, j := u], w) == w(k, v) + w(j, u)
  {
    SumOne(k, v, w);
    SumSwap(map[k := v], j, u, w, w);
    assert map[k := v][j := u] == map[k := v, j := u];
  }

  // ----- logs of any length -----

  ghost predicate PlainLog(log: seq<AuditEntry>) {
    ChainVerifies(log) && EmergencyCount(log) == 0
  }

  lemma {:induction false} LongLog(n: nat) returns (log: seq<AuditEntry>)
    ensures PlainLog(log) && |log| == n
  {
    log := [];
    if n > 0 {
      var shorter := LongLog(n - 1);
      var entry := Seal(shorter, 900, Owner, ConfigureReceive, None);
      AppendKeepsChain(shorter, 900, Owner, ConfigureReceive, None);
      CountsAfterAppend(shorter, entry);
      log := shorter + [entry];
    }
  }

  // ----- states -----

  function At(state: TransactionState): Intent {
    ExampleState().intents[10].(state := state)
  }

  function SettledIntent(): Intent {
    At(TransactionState.Settled).(reference := Some(3), receipt := Some(Receipt(10, 3, Money(100, 0), TransactionState.Settled, Some(3), 1_000)))
  }

  /** The example treasury with these intents, ledger, log and deposits, on a prepaid card with controlled checkout. */
  function Desk(intents: map<Id, Intent>, ledger: seq<LedgerEvent>, log: seq<AuditEntry>, deposits: map<nat, DepositDetails>): TreasuryState {
    ExampleState().(intents := intents, ledger := ledger, audit := log, generation := |log|, deposits := deposits,
                    mode := ManualPrepaidCard, manual := Some(ManualProvider(Money(5_000, 0), OwnerConfirmed, 2_000, true)))
  }

  /** No intent, or one that waits. */
  function Intents(waiting: Option<TransactionState>): map<Id, Intent> {
    if waiting.None? then map[] else map[10 := At(waiting.value)]
  }

  lemma SumIdle(waiting: Option<TransactionState>, w: (Id, Intent) -> int)
    ensures Sum(Intents(waiting), w) == if waiting.None? then 0 else w(10, At(waiting.value))
  {
    if waiting.Some? {
      SumOne<Id, Intent>(10, At(waiting.value), w);
    }
  }

  /** At most one intent waits, and nothing else has happened to any money. */
  ghost predicate Idle(s: TreasuryState, waiting: Option<TransactionState>) {
    && (waiting.Some? ==> waiting.value.NeverReserved() && waiting.value != Draft)
    && s.intents == Intents(waiting) && s.ledger == [Capital()]
    && s.agents == ExampleState().agents && s.policies == ExampleState().policies && s.provider == ExampleState().provider
    && !s.emergencyStop && s.deposits == map[] && s.generation == |s.audit| && PlainLog(s.audit)
    && (s.mode.Simulated? || s.manual == Desk(map[], [], [], map[]).manual)
  }

  lemma ExampleIsIdle()
    ensures Idle(ExampleState(), Some(PolicyValidated))
  {
    assert ExampleState().ledger == [Capital()];
  }

  lemma DeskIsIdle(state: TransactionState, log: seq<AuditEntry>)
    requires state.NeverReserved() && state != Draft && PlainLog(log)
    ensures Idle(Desk(map[10 := At(state)], [Capital()], log, map[]), Some(state))
  {
    hide PlainLog;
  }

  // ----- a waiting treasury is sound -----

  lemma IdleTotals(s: TreasuryState, waiting: Option<TransactionState>, kind: LedgerEventKind, c: Currency)
    requires Idle(s, waiting)
    ensures KindTotal(s.ledger, kind, c) == if kind.OwnerCapital? && c == 0 then 5_000 else 0
    ensures Reserved(s.intents, c) == 0
  {
    hide PlainLog;
    SumSeqOne(Capital(), KindW(kind, c));
    SumIdle(waiting, ReservedW(c));
  }

  lemma IdleSnapshotTotals(s: TreasuryState, waiting: Option<TransactionState>)
    requires Idle(s, waiting)
    ensures SnapshotTotals(s, 0) == LedgerSnapshot(5_000, 0, 0, 0, 0, 0, 0)
  {
    hide KindTotal, Reserved, PlainLog, Idle;
    IdleTotals(s, waiting, OwnerCapital, 0);
    IdleTotals(s, waiting, IncomeVerified, 0);
    IdleTotals(s, waiting, IncomeUnverified, 0);
    IdleTotals(s, waiting, OperatorTopUp, 0);
    IdleTotals(s, waiting, SpendingSettled, 0);
    IdleTotals(s, waiting, Refund, 0);
  }

  lemma IdleLedger(s: TreasuryState, waiting: Option<TransactionState>)
    requires Idle(s, waiting)
    ensures LedgerSound(s.intents, s.ledger, 0)
  {
    hide PlainLog;
    NoFootprint(s.ledger, 10);
  }

  lemma IdleBalance(s: TreasuryState, waiting: Option<TransactionState>)
    requires Idle(s, waiting)
    ensures BalanceSound(s)
  {
    hide PlainLog, SnapshotTotals, KindTotal, Reserved;
    IdleSnapshotTotals(s, waiting);
    SumIdle(waiting, ChargedOpenW(s.provider.charges));
  }

  lemma IdleBooks(s: TreasuryState, waiting: Option<TransactionState>)
    requires Idle(s, waiting)
    ensures HoldsSound(s.intents, s.provider) && ChargesSound(s.intents, s.provider) && TreasuryCurrency(s) == 0
  {
    hide PlainLog, Capital;
  }

  lemma IdleCard(s: TreasuryState, waiting: Option<TransactionState>)
    requires Idle(s, waiting)
    ensures ManualSound(s)
  {
    hide PlainLog, Reserved;
    IdleTotals(s, waiting, OwnerCapital, 0);
  }

  lemma IdleMoney(s: TreasuryState, waiting: Option<TransactionState>)
    requires Idle(s, waiting)
    ensures MoneySound(s)
  {
    hide Idle, LedgerSound, BalanceSound, HoldsSound, ChargesSound, ManualSound, SnapshotTotals;
    IdleLedger(s, waiting);
    IdleSnapshotTotals(s, waiting);
    IdleBalance(s, waiting);
    IdleBooks(s, waiting);
    IdleCard(s, waiting);
  }

  lemma IdleDeposits(s: TreasuryState, waiting: Option<TransactionState>)
    requires Idle(s, waiting)
    ensures DepositsCounted(s)
  {
    forall c: Currency
      ensures KindTotal(s.ledger, IncomeVerified, c) == 0 && KindTotal(s.ledger, IncomeUnverified, c) == 0
    {
      IdleTotals(s, waiting, IncomeVerified, c);
      IdleTotals(s, waiting, IncomeUnverified, c);
    }
    hide PlainLog, KindTotal;
  }

  lemma IdleRecords(s: TreasuryState, waiting: Option<TransactionState>)
    requires Idle(s, waiting)
    ensures ReceiptsSound(s.intents) && IntentsSound(s) && Identified(s, 22) && KeysUnique(s.intents)
  {
    hide PlainLog;
  }

  lemma PlainLogIsSound(s: TreasuryState)
    requires PlainLog(s.audit) && !s.emergencyStop && s.generation == |s.audit| <= MAX_AUDIT_ENTRIES
    ensures LogSound(s)
  {
    hide ChainVerifies, EmergencyCount;
  }

  lemma ExampleOffice(s: TreasuryState)
    requires s.agents == ExampleState().agents && s.policies == ExampleState().policies
    ensures Loads.OfficeLoads(s)
  {
  }

  /** The office of the example loads, whatever else is stored. */
  lemma OfficeOfExample(s: TreasuryState, supply: Id)
    requires Sound(s, supply) && s.agents == ExampleState().agents && s.policies == ExampleState().policies
    ensures Loadable(s)
  {
    hide Sound, Loadable, Loads.OfficeLoads, ExampleState;
    ExampleOffice(s);
    Loads.SoundLoads(s, supply);
  }

  lemma IdleIsSound(s: TreasuryState, waiting: Option<TransactionState>)
    requires Idle(s, waiting) && |s.audit| <= MAX_AUDIT_ENTRIES
    ensures Sound(s, 22) && Loadable(s)
  {
    hide MoneySound, LogSound, ReceiptsSound, IntentsSound, Identified, KeysUnique, DepositsCounted, Loadable, PlainLog, At, Capital;
    IdleMoney(s, waiting);
    PlainLogIsSound(s);
    IdleRecords(s, waiting);
    IdleDeposits(s, waiting);
    OfficeOfExample(s, 22);
  }

  /** The example of `Corners` lies inside the invariant, so what fails there fails within the law. */
  lemma ExampleIsSound()
    ensures Sound(ExampleState(), 22) && Loadable(ExampleState())
  {
    hide Sound, Loadable, Idle;
    ExampleIsIdle();
    ExampleLogIsShort();
    IdleIsSound(ExampleState(), Some(PolicyValidated));
  }

  lemma ExampleLogIsShort()
    ensures |ExampleState().audit| <= MAX_AUDIT_ENTRIES
  {
  }

  ghost function WorldOf(s: TreasuryState): World {
    World(Some(s), {s}, 1_100, 22, map[])
  }

  lemma WorldIsSound(s: TreasuryState)
    requires Sound(s, 22) && Loadable(s)
    ensures WorldSound(WorldOf(s))
  {
    hide Sound, Loadable;
  }

  // ----- hypotheses that are met -----

  /** A freshly initialised broker exists. */
  lemma BrokerStarts()
    ensures Bootstrap(Money(5_000, 0), 0).Ok?
    ensures var s := Bootstrap(Money(5_000, 0), 0).value; Initial(World(Some(s), {s}, 0, 0, map[]))
  {
    assert EmergencyCount([]) == 0;
  }

  /** A stop can trip while an authorized intent waits: the hypotheses of `StopIsFinal` are met. */
  lemma StopCanTrip()
    ensures WorldSound(WorldOf(ExampleState()))
    ensures Trips(WorldOf(ExampleState()), Call(0, 0, OwnerCaller, EmergencyStopRequest(true), QUIET, Durable))
    ensures 10 in ExampleState().intents && ExampleState().intents[10].state.NeverReserved()
  {
    hide WorldSound, Serve, Sound, Loadable;
    ExampleIsSound();
    WorldIsSound(ExampleState());
    StopIsAvailable(WorldOf(ExampleState()), Call(0, 0, OwnerCaller, EmergencyStopRequest(true), QUIET, Durable));
  }

  // ----- preparing -----

  lemma IdleCommitted(s: TreasuryState, waiting: Option<TransactionState>, scope: Scope, span: Span)
    requires Idle(s, waiting)
    ensures Committed(s, scope, 0, span) == 0 && OpenIn(s.intents, scope) == 0
  {
    hide PlainLog;
    SumIdle(waiting, OpenW(scope));
    SumSeqOne(Capital(), SettledW(s.intents, scope, 0, span));
  }

  lemma IdleRecent(s: TreasuryState, waiting: Option<TransactionState>, at: int)
    requires Idle(s, waiting) && TimeToDecide(waiting, at)
    ensures Sum(s.intents, RecentW(1, at - MINUTE_SECS)) == 0
  {
    hide PlainLog;
    SumIdle(waiting, RecentW(1, at - MINUTE_SECS));
  }

  /** The session and the card are current, and the waiting intent is not recent. */
  predicate TimeToDecide(waiting: Option<TransactionState>, at: int) {
    (waiting.None? ==> 0 <= at) && (waiting.Some? ==> 1_060 < at) && at < 1_500
  }

  /** Nothing is committed in any scope, and nothing is recent. */
  lemma IdleUsage(s: TreasuryState, waiting: Option<TransactionState>, at: int)
    requires Idle(s, waiting) && TimeToDecide(waiting, at)
    ensures UsageOf(s, 1, 0, at) == Ok(Usage(0, 0, 0, 0, 0))
  {
    hide Idle, Committed, OpenIn, RecentW, ForeignOpen;
    IdleCommitted(s, waiting, OneSession(1, 2), Ever);
    IdleCommitted(s, waiting, WholeAgent(1), Since(at - DAY_SECS));
    IdleCommitted(s, waiting, WholeAgent(1), Ever);
    IdleRecent(s, waiting, at);
    IdleOffice(s, waiting);
    IdleIsUnreserved(s, waiting);
  }

  lemma IdleIsUnreserved(s: TreasuryState, waiting: Option<TransactionState>)
    requires Idle(s, waiting)
    ensures !ForeignOpen(s.intents, 1, 0)
  {
    hide PlainLog, Capital;
  }

  lemma IdleAvailable(s: TreasuryState, waiting: Option<TransactionState>, at: int)
    requires Idle(s, waiting) && at < 2_000
    ensures SnapshotOf(s, 0) == Ok(LedgerSnapshot(5_000, 0, 0, 0, 0, 0, 0))
    ensures AvailableBalance(s, at) == Ok(Money(5_000, 0))
  {
    hide Idle, SnapshotTotals, HoldTotal;
    IdleSnapshotTotals(s, waiting);
    IdleProvider(s, waiting, at);
  }

  lemma IdleProvider(s: TreasuryState, waiting: Option<TransactionState>, at: int)
    requires Idle(s, waiting) && at < 2_000
    ensures s.provider.balance == Money(5_000, 0) && s.provider.holds == map[] && HoldTotal(s.provider) == 0
    ensures s.mode.ManualPrepaidCard? ==>
              s.manual.Some? && s.manual.value.amount == Money(5_000, 0) && FreshManualBalance(s.manual.value, at).Ok?
  {
    hide PlainLog, Capital;
  }

  function Purchase(): PurchaseRequest {
    PurchaseRequest(1, Money(100, 0), Money(100, 0), 3, Normal, 0)
  }

  lemma WaitingPurchase(state: TransactionState)
    ensures At(state).request == Purchase() && At(state).state == state && At(state).agentId == 1
    ensures At(state).session == 2 && At(state).createdAt == 1_000
  {
  }

  lemma IdleOffice(s: TreasuryState, waiting: Option<TransactionState>)
    requires Idle(s, waiting)
    ensures 1 in s.agents && s.agents[1] == Agent(AgentPolicy(1), {}, 2, 1_500, BoundedAutonomous, 2_000, false)
    ensures !s.emergencyStop && ConfiguredBalance(s) == Ok(Money(5_000, 0)) && PolicyOf(s, 1) == Ok(DemoPolicy(0))
    ensures Used(s.audit) == |s.audit| && EmergencyCount(s.audit) == 0
  {
    hide ChainVerifies, EmergencyCount, Capital;
  }

  /** The purchase is within every limit; only the folded checks can still ask for approval. */
  lemma IdleDecides(s: TreasuryState, waiting: Option<TransactionState>, at: int, verdict: Verdict)
    requires Idle(s, waiting) && TimeToDecide(waiting, at) && !verdict.malformed && !verdict.denied
    ensures Decide(s, 1, Purchase(), DemoPolicy(0), at, verdict) == Ok(if verdict.approval then NeedApproval else Allow)
  {
    hide Idle, UsageOf, SnapshotOf, AvailableBalance, ConfiguredBalance;
    IdleUsage(s, waiting, at);
    IdleAvailable(s, waiting, at);
    IdleOffice(s, waiting);
  }

  lemma IdleOwes(s: TreasuryState, waiting: Option<TransactionState>)
    requires Idle(s, waiting)
    ensures Owed(s.intents) == 0
  {
    hide PlainLog;
    SumIdle(waiting, OwedW());
  }

  lemma IdleIntent(s: TreasuryState, state: TransactionState)
    requires Idle(s, Some(state))
    ensures s.intents == map[10 := At(state)]
    ensures SessionCurrent(At(state), Agent(AgentPolicy(1), {}, 2, 1_500, BoundedAutonomous, 2_000, false), DemoPolicy(0), 1_100).Ok?
  {
    hide PlainLog, Capital;
  }

  lemma IdlePrepares(s: TreasuryState, state: TransactionState)
    requires Idle(s, Some(state)) && state.Executable() && |s.audit| + PREPARE_SLOTS <= MAX_AUDIT_ENTRIES
    ensures Prepare(s, 1, 10, 1_100, QUIET).Ok?
    ensures Used(Prepare(s, 1, 10, 1_100, QUIET).value.audit) == |s.audit| + 1
    ensures EmergencyCount(Prepare(s, 1, 10, 1_100, QUIET).value.audit) == 0
  {
    hide Idle, At, Decide, Owed, EmergencyCount, Used;
    IdleDecides(s, Some(state), 1_100, QUIET);
    IdleOwes(s, Some(state));
    IdleIntent(s, state);
    IdleOffice(s, Some(state));
    WaitingPurchase(state);
    CountsAfterAppend(s.audit, Seal(s.audit, 1_100, AgentActor(1), ReserveFunds, Some(10)));
  }

  // ----- an execution and a checkout -----

  lemma IdleAgent(s: TreasuryState, waiting: Option<TransactionState>)
    requires Idle(s, waiting)
    ensures Authenticated(s, AgentCaller(1), 1_100) && Authenticated(s, AgentCaller(1), 1_000)
  {
    hide PlainLog, Capital, At;
  }

  /** The example intent executes: it is submitted once, the broker reports success, and memory is on disk. */
  lemma ExampleExecutes()
    ensures var e, w := Execute(0, 1, AgentCaller(1), 10, QUIET, Durable, NoCrash, Durable), WorldOf(ExampleState());
            && Serve(w, e).ok && Serve(w, e).submitted == Some(10)
            && Submissions(Next(w, e).submissions, 10) == 1
  {
    hide Sound, Loadable, Prepare, Complete, Ready, ExampleState, Idle;
    var s := ExampleState();
    ExampleIsSound();
    ExampleIsIdle();
    ExampleLogIsShort();
    ExampleSimulates();
    IdlePrepares(s, PolicyValidated);
    IdleAgent(s, Some(PolicyValidated));
    var prepared := Prepare(s, 1, 10, 1_100, QUIET).value;
    PreparedIsReady(s, 1, 10, 1_100, QUIET, 22);
    ReadyLoads(s, prepared, 1, 10, 22, 1_100);
    ReadyFacts(s, prepared, 1, 10, 22, 1_100);
    CompletedLoads(s, prepared, 1, 10, 22, 1_100, 1_101);
  }

  lemma ExampleSimulates()
    ensures ExampleState().mode.Simulated? && |ExampleState().audit| + PREPARE_SLOTS <= MAX_AUDIT_ENTRIES
  {
  }

  /** A checkout of the waiting intent, with these faults and an approving executor. */
  function CheckoutOf(caller: Caller, fault: SaveFault): Event {
    Checkout(0, 1, caller, 10, QUIET, true, fault, NoCrash, ExecutorOutcome(ProviderApproved(3)), Durable)
  }

  /** Who may check the waiting intent out. */
  predicate MayCheckOut(caller: Caller, state: TransactionState) {
    (caller == AgentCaller(1) && state.Executable()) || (caller.OwnerCaller? && state.Approved?)
  }

  lemma CardAllows(s: TreasuryState, state: TransactionState, caller: Caller)
    requires Idle(s, Some(state)) && s.mode.ManualPrepaidCard? && MayCheckOut(caller, state)
    ensures CheckoutAllowed(s, caller, 10, true) && 10 in s.intents && s.intents[10].agentId == 1
    ensures Authenticated(s, caller, 1_100)
  {
    hide PlainLog, Capital;
  }

  /** On the card, an agent's checkout and the owner's of an approved intent are prepared. */
  lemma CardPrepares(s: TreasuryState, state: TransactionState, caller: Caller, fault: SaveFault)
    requires Idle(s, Some(state)) && s.mode.ManualPrepaidCard? && MayCheckOut(caller, state)
    requires |s.audit| + PREPARE_SLOTS <= MAX_AUDIT_ENTRIES
    ensures CheckoutPrepares(s, CheckoutOf(caller, fault), 1_100)
    ensures Used(CheckoutPrepared(s, CheckoutOf(caller, fault), 1_100).audit) == |s.audit| + 1
    ensures EmergencyCount(CheckoutPrepared(s, CheckoutOf(caller, fault), 1_100).audit) == 0
  {
    hide Idle, Prepare, CheckoutAllowed, Authenticated, Used, EmergencyCount;
    IdlePrepares(s, state);
    CardAllows(s, state, caller);
  }

  function Waiting(): TreasuryState {
    Desk(map[10 := At(PolicyValidated)], [Capital()], [], map[])
  }

  lemma EmptyLogIsPlain()
    ensures PlainLog([])
  {
  }

  lemma WaitingHandsOver(s: TreasuryState, fault: SaveFault)
    requires Idle(s, Some(PolicyValidated)) && s.mode.ManualPrepaidCard? && |s.audit| + PREPARE_SLOTS <= MAX_AUDIT_ENTRIES
    ensures CheckoutPrepares(s, CheckoutOf(AgentCaller(1), fault), 1_100)
    ensures Handed(s, CheckoutOf(AgentCaller(1), fault), 1_100).Ok?
  {
    hide Idle, CheckoutPrepares, Used, EmergencyCount, Seal, CheckoutPrepared;
    CardPrepares(s, PolicyValidated, AgentCaller(1), fault);
    HandsOver(s, CheckoutOf(AgentCaller(1), fault), 1_100);
  }

  lemma WaitingIsSound()
    ensures Idle(Waiting(), Some(PolicyValidated)) && Sound(Waiting(), 22) && Loadable(Waiting())
    ensures Waiting().mode.ManualPrepaidCard? && |Waiting().audit| == 0
  {
    hide Sound, Loadable, Idle, PlainLog;
    EmptyLogIsPlain();
    DeskIsIdle(PolicyValidated, []);
    IdleIsSound(Waiting(), Some(PolicyValidated));
  }

  /** An agent's handoff entry is a money-safety entry. */
  lemma HandsOver(s: TreasuryState, e: Event, at: int)
    requires e.Checkout? && CheckoutPrepares(s, e, at) && e.caller.AgentCaller? && SafetySlot(CheckoutPrepared(s, e, at))
    ensures Handed(s, e, at).Ok?
  {
    hide CheckoutPrepares, Prepare, Used, EmergencyCount, Seal;
  }

  /** In manual mode a checkout submits, once, and the broker reports success. */
  lemma CheckoutSubmits()
    ensures var e, w := CheckoutOf(AgentCaller(1), Durable), WorldOf(Waiting());
            && WorldSound(w) && Serve(w, e).ok && Serve(w, e).submitted == Some(10)
  {
    hide Sound, Loadable, CheckoutPrepares, Handed, CheckoutAttempt, ServeCheckout, Ready, Lands, Waiting, AllCome, Idle;
    var e, s := CheckoutOf(AgentCaller(1), Durable), Waiting();
    WaitingIsSound();
    WaitingHandsOver(s, Durable);
    WorldIsSound(s);
    CheckoutShape(s, {s}, e, 1_100);
    var handed := Handed(s, e, 1_100).value;
    HandedKeepsReady(s, e, 1_100, 22);
    HandedLands(s, e, 1_100, 22);
    ReadyLoads(s, handed, s.intents[10].agentId, 10, 22, 1_100);
    CheckoutIsReady(s, e, 1_100, 22);
    ReadyFacts(s, handed, s.intents[10].agentId, 10, 22, 1_100);
    OutcomeLoads(s, handed, s.intents[10].agentId, 10, 22, 1_100, 1_101, ProviderApproved(3));
  }

  lemma OutcomeLoads(s: TreasuryState, handed: TreasuryState, agent: Id, id: Id, supply: Id, at: int, later: int, outcome: ProviderOutcome)
    requires Ready(s, handed, agent, id, supply, at) && handed.mode.ManualPrepaidCard? && 0 <= at <= later
    ensures id in handed.intents
    ensures var attempt := CheckoutAttempt(handed, id, ExecutorOutcome(outcome), later);
            attempt.error.None? && Loadable(attempt.state)
  {
    hide Sound, Loadable, Leads, Elementary, Moved, LogFollows, Booked, SafetySlot, ApplyOutcome;
    SoundIsBooked(handed, NextId(supply) + 1);
    ManualOutcomeIsElementary(handed, agent, id, outcome, later, supply);
    MovedFrame(handed, ApplyOutcome(handed, agent, id, outcome, later).state, id, later);
    StepLoads(handed, ApplyOutcome(handed, agent, id, outcome, later).state, supply, later);
  }

  /** When the save behind the handoff fails before the rename, memory keeps a reservation the disk does not have. */
  lemma LostSaveKeepsReservation(s: TreasuryState, supply: Id)
    requires Idle(s, Some(PolicyValidated)) && s.mode.ManualPrepaidCard? && Sound(s, supply) && Loadable(s)
    requires |s.audit| + PREPARE_SLOTS <= MAX_AUDIT_ENTRIES
    ensures var e := CheckoutOf(AgentCaller(1), LostBeforeRename);
            && CheckoutPrepares(s, e, 1_100) && Handed(s, e, 1_100).Ok? && Handed(s, e, 1_100).value != s
            && ServeCheckout(s, {s}, e, 1_100) == Served(Some(Handed(s, e, 1_100).value), {s}, false, None)
  {
    hide Sound, Loadable, CheckoutPrepares, Handed, ServeCheckout, CheckoutPrepared, Idle;
    WaitingHandsOver(s, LostBeforeRename);
    CheckoutGrowsLog(s, CheckoutOf(AgentCaller(1), LostBeforeRename), 1_100);
    FailedCheckoutLeaves(s, {s}, CheckoutOf(AgentCaller(1), LostBeforeRename), 1_100, supply);
  }

  /** With the ordinary quota used up, the owner's checkout of any such treasury reserves the funds and is then refused its entry. */
  lemma FullLogRefusesOwner(s: TreasuryState, supply: Id)
    requires Idle(s, Some(Approved)) && s.mode.ManualPrepaidCard? && Sound(s, supply) && Loadable(s)
    requires MAX_AUDIT_ENTRIES - AUDIT_SAFETY_RESERVE <= |s.audit| <= MAX_AUDIT_ENTRIES - PREPARE_SLOTS
    ensures var e := CheckoutOf(OwnerCaller, Durable);
            && CheckoutPrepares(s, e, 1_100) && Handed(s, e, 1_100).Err? && CheckoutPrepared(s, e, 1_100) != s
            && ServeCheckout(s, {s}, e, 1_100) == Served(Some(CheckoutPrepared(s, e, 1_100)), {s}, false, None)
  {
    hide Sound, Loadable, Idle, CheckoutPrepares, Used, EmergencyCount, Seal, CheckoutPrepared, ServeCheckout;
    CardPrepares(s, Approved, OwnerCaller, Durable);
    OwnerIsRefused(s, CheckoutOf(OwnerCaller, Durable), 1_100);
    FailedCheckoutLeaves(s, {s}, CheckoutOf(OwnerCaller, Durable), 1_100, supply);
    CheckoutGrowsLog(s, CheckoutOf(OwnerCaller, Durable), 1_100);
  }

  lemma OwnerIsRefused(s: TreasuryState, e: Event, at: int)
    requires e.Checkout? && CheckoutPrepares(s, e, at) && e.caller.OwnerCaller?
    requires Used(CheckoutPrepared(s, e, at).audit) >= MAX_AUDIT_ENTRIES - AUDIT_SAFETY_RESERVE
    ensures Handed(s, e, at).Err?
  {
    hide CheckoutPrepares, Prepare, Used, EmergencyCount, Seal;
  }

  // ----- refunds of settled purchases -----

  function SettledEvent(kind: LedgerEventKind): LedgerEvent {
    LedgerEvent(1_000, kind, Money(100, 0), Some(10))
  }

  function LostHold(): LedgerEvent {
    LedgerEvent(1_000, HoldReserved, Money(100, 0), Some(11))
  }

  function LostIntent(): Intent {
    At(Unknown).(request := At(Unknown).request.(key := 2))
  }

  function BusyLedger(): seq<LedgerEvent> {
    [Capital()] + [SettledEvent(HoldReserved), SettledEvent(HoldReleased), SettledEvent(SpendingSettled)] + [LostHold()]
  }

  /** Purchase 10 is settled, the outcome of purchase 11 is unknown, and the log is as given. */
  function Busy(log: seq<AuditEntry>): TreasuryState {
    Desk(map[10 := SettledIntent(), 11 := LostIntent()], BusyLedger(), log, map[])
  }

  lemma BusySums(w: LedgerEvent -> int)
    ensures SumSeq(BusyLedger(), w)
         == w(Capital()) + w(SettledEvent(HoldReserved)) + w(SettledEvent(HoldReleased)) + w(SettledEvent(SpendingSettled)) + w(LostHold())
  {
    var a, b, c, d, e := Capital(), SettledEvent(HoldReserved), SettledEvent(HoldReleased), SettledEvent(SpendingSettled), LostHold();
    SumSeqTwo(a, b, w);
    SumSeqAppend([a, b], c, w);
    SumSeqAppend([a, b] + [c], d, w);
    SumSeqAppend([a, b] + [c] + [d], e, w);
    assert BusyLedger() == [a, b] + [c] + [d] + [e];
  }

  lemma BusyFootprints()
    ensures FootprintOf(BusyLedger(), 10) == Footprint(1, 1, 1, 0)
    ensures FootprintOf(BusyLedger(), 11) == Footprint(1, 0, 0, 0)
  {
    var sevens := [SettledEvent(HoldReserved), SettledEvent(HoldReleased), SettledEvent(SpendingSettled)];
    NoFootprint([Capital()], 10);
    NoFootprint([Capital()], 11);
    FootprintExtends([Capital()], sevens, 10, 10);
    FootprintExtends([Capital()], sevens, 10, 11);
    FootprintExtends([Capital()] + sevens, [LostHold()], 11, 10);
    FootprintExtends([Capital()] + sevens, [LostHold()], 11, 11);
    AddTwo(NO_EVENTS, SettledEvent(HoldReserved), SettledEvent(HoldReleased));
    assert sevens[..2] == [SettledEvent(HoldReserved), SettledEvent(HoldReleased)];
    hide FootprintOf;
  }

  lemma BusyEvents(e: LedgerEvent, intents: map<Id, Intent>)
    requires e in BusyLedger() && intents == map[10 := SettledIntent(), 11 := LostIntent()]
    ensures EventSound(e, intents, 0)
  {
    assert e == Capital() || e == SettledEvent(HoldReserved) || e == SettledEvent(HoldReleased) || e == SettledEvent(SpendingSettled) || e == LostHold();
    hide BusyLedger;
  }

  lemma BusyLedgerIsSound()
    ensures LedgerSound(Busy([]).intents, BusyLedger(), 0)
  {
    hide FootprintOf, BusyLedger, EventSound, Busy;
    BusyShape([]);
    BusyFootprints();
    forall e | e in BusyLedger()
      ensures EventSound(e, Busy([]).intents, 0)
    {
      BusyEvents(e, Busy([]).intents);
    }
  }

  lemma BusyTotals(kind: LedgerEventKind)
    ensures KindTotal(BusyLedger(), kind, 0) == match kind
              case OwnerCapital => 5_000
              case HoldReserved => 200
              case HoldReleased => 100
              case SpendingSettled => 100
              case _ => 0
  {
    BusySums(KindW(kind, 0));
  }

  lemma BusySnapshot(log: seq<AuditEntry>)
    ensures SnapshotTotals(Busy(log), 0) == LedgerSnapshot(5_000, 0, 0, 0, 100, 0, 100)
  {
    BusyTotals(OwnerCapital);
    BusyTotals(IncomeVerified);
    BusyTotals(IncomeUnverified);
    BusyTotals(OperatorTopUp);
    BusyTotals(SpendingSettled);
    BusyTotals(LedgerEventKind.Refund);
    SumTwo<Id, Intent>(10, SettledIntent(), 11, LostIntent(), ReservedW(0));
    hide KindTotal, BusyLedger;
  }

  lemma BusyMoney(log: seq<AuditEntry>)
    ensures MoneySound(Busy(log))
  {
    hide BusyLedger, LedgerSound, SnapshotTotals, KindTotal;
    BusyLedgerIsSound();
    BusySnapshot(log);
    assert Reserved(Busy(log).intents, 0) == SnapshotTotals(Busy(log), 0).reserved by {
      BusyReserved(log);
    }
  }

  lemma BusyReserved(log: seq<AuditEntry>)
    ensures Reserved(Busy(log).intents, 0) == SnapshotTotals(Busy(log), 0).reserved
  {
    hide KindTotal, Reserved;
  }

  lemma BusyDeposits(log: seq<AuditEntry>)
    ensures DepositsCounted(Busy(log))
  {
    forall c: Currency
      ensures KindTotal(BusyLedger(), IncomeVerified, c) == 0 && KindTotal(BusyLedger(), IncomeUnverified, c) == 0
    {
      BusySums(KindW(IncomeVerified, c));
      BusySums(KindW(IncomeUnverified, c));
    }
    hide KindTotal, BusyLedger;
  }

  lemma BusyRecords(log: seq<AuditEntry>)
    ensures var s := Busy(log); ReceiptsSound(s.intents) && IntentsSound(s) && Identified(s, 22) && KeysUnique(s.intents)
  {
    hide Busy, ReceiptSound, KeysUnique, SettledIntent, LostIntent;
    BusyShape(log);
    BusyKeys();
    BusyReceipts();
    BusyOffice();
  }

  lemma BusyReceipts()
    ensures ReceiptSound(10, SettledIntent()) && ReceiptSound(11, LostIntent())
    ensures forall x :: x in [SettledIntent(), LostIntent()] ==>
              x.agentId == 1 && x.session == 2 && 0 < x.request.amount.minor && 0 < x.request.finalTotal.minor
    ensures SettledIntent() in [SettledIntent(), LostIntent()] && LostIntent() in [SettledIntent(), LostIntent()]
  {
  }

  lemma BusyOffice()
    ensures ExampleState().agents.Keys == {1} && ExampleState().agents[1].session == 2 && 0 <= ExampleState().agents[1].expiresAt
  {
  }

  lemma BusyKeys()
    ensures KeysUnique(map[10 := SettledIntent(), 11 := LostIntent()])
  {
  }

  lemma BusyShape(log: seq<AuditEntry>)
    ensures var s := Busy(log);
            && s.audit == log && s.generation == |log| && !s.emergencyStop && s.mode.ManualPrepaidCard?
            && s.agents == ExampleState().agents && s.policies == ExampleState().policies
            && s.intents == map[10 := SettledIntent(), 11 := LostIntent()]
  {
    hide BusyLedger;
  }

  lemma BusyIsSound(log: seq<AuditEntry>)
    requires PlainLog(log) && |log| <= MAX_AUDIT_ENTRIES
    ensures Sound(Busy(log), 22) && Loadable(Busy(log))
  {
    hide Busy, MoneySound, LogSound, ReceiptsSound, IntentsSound, Identified, KeysUnique, DepositsCounted, Loadable, PlainLog;
    BusyMoney(log);
    BusyShape(log);
    PlainLogIsSound(Busy(log));
    BusyRecords(log);
    BusyDeposits(log);
    OfficeOfExample(Busy(log), 22);
  }

  lemma BusyOwes(log: seq<AuditEntry>)
    ensures Owed(Busy(log).intents) == 1
  {
    BusyShape(log);
    SumTwo<Id, Intent>(10, SettledIntent(), 11, LostIntent(), OwedW());
    hide Busy;
  }

  const REFUND := ReconcileRequest(10, ReconcileAsRefunded, None)

  const NOW := Env(1_100, 0, 22, QUIET)

  lemma RefundPlanned(log: seq<AuditEntry>)
    ensures Plan(Busy(log), REFUND, NOW).Ok? && Plan(Busy(log), REFUND, NOW).value.Write?
    ensures Plan(Busy(log), REFUND, NOW).value.state.audit == log
    ensures Unreserved(Busy(log), REFUND)
  {
    hide BusyLedger, SettledIntent;
    BusyShape(log);
    SettledShape();
  }

  lemma SettledShape()
    ensures var x := SettledIntent(); x.state.Settled? && x.request.finalTotal == Money(100, 0) && x.receipt.Some?
  {
  }

  /** A full log refuses the refund of a settled purchase. */
  lemma RefundCanBeRefused() returns (s: TreasuryState)
    ensures Sound(s, 22) && Loadable(s) && 10 in s.intents && s.intents[10].state.Settled?
    ensures Plan(s, REFUND, NOW).Ok? && Handle(s, REFUND, NOW).Reject?
  {
    hide Sound, Loadable, Busy, PlainLog, Plan, Used, EmergencyCount, Seal;
    var log := LongLog(MAX_AUDIT_ENTRIES);
    s := Busy(log);
    BusyIsSound(log);
    BusyShape(log);
    RefundPlanned(log);
    PlainLogIsUsed(log);
    RefundOfSettledNeedsASlot(s, Plan(s, REFUND, NOW).value.state, 10, NOW.at);
    PlanOfRefund(s);
  }

  lemma PlanOfRefund(s: TreasuryState)
    requires Plan(s, REFUND, NOW).Ok?
    ensures var draft := Plan(s, REFUND, NOW).value;
            draft.Write? && draft.actor == Owner && draft.action == ReconcileIntent && draft.intentId == Some(10)
  {
    hide ReconcileEffect;
  }

  lemma PlainLogIsUsed(log: seq<AuditEntry>)
    requires PlainLog(log)
    ensures Used(log) == |log| && EmergencyCount(log) == 0
  {
    hide ChainVerifies, EmergencyCount;
  }

  /** One slot earlier the refund is accepted and takes the slot that the unknown purchase was owed. */
  lemma RefundCanBreakReserve() returns (s: TreasuryState)
    ensures Sound(s, 22) && Loadable(s) && SlotsReserved(s) && 10 in s.intents && s.intents[10].state.Settled?
    ensures Handle(s, REFUND, NOW).Accept? && !SlotsReserved(Handle(s, REFUND, NOW).state)
  {
    hide Sound, Loadable, Busy, PlainLog, Plan, Used, EmergencyCount, Seal, Owed;
    var log := LongLog(MAX_AUDIT_ENTRIES - 1);
    s := Busy(log);
    BusyIsSound(log);
    BusyShape(log);
    BusyOwes(log);
    PlainLogIsUsed(log);
    RefundPlanned(log);
    PlanOfRefund(s);
    RefundOfSettledNeedsASlot(s, Plan(s, REFUND, NOW).value.state, 10, NOW.at);
    HandleReserveExactly(s, REFUND, NOW);
  }

  // ----- recovery -----

  lemma RelogKeepsSound(s: TreasuryState, log: seq<AuditEntry>, supply: Id)
    requires Sound(s, supply) && Loadable(s) && !s.emergencyStop && PlainLog(log) && |log| <= MAX_AUDIT_ENTRIES
    ensures var s' := s.(audit := log, generation := |log|); Sound(s', supply) && Loadable(s')
  {
    hide MoneySound, LogSound, ReceiptsSound, KeysUnique, Loadable, PlainLog, Loads.OfficeLoads;
    var s' := s.(audit := log, generation := |log|);
    SameMoneyKeeps(s, s');
    PlainLogIsSound(s');
    assert Sound(s', supply);
    Loads.ChainKeepsLoadable(s, s', supply);
  }

  /** With a full log and an interrupted execution the broker can never come up again. */
  lemma RecoveryCanBeImpossible() returns (w: World)
    ensures w.disk != {} && forall s :: s in w.disk ==> Sound(s, w.supply) && Loadable(s)
    ensures Unrecoverable(w)
  {
    hide Sound, Loadable, Idle, PlainLog, Prepare, Used, EmergencyCount, Ready;
    ExampleIsIdle();
    ExampleIsSound();
    ExampleSimulates();
    ExampleLogIsShort();
    IdlePrepares(ExampleState(), PolicyValidated);
    var prepared := Prepare(ExampleState(), 1, 10, 1_100, QUIET).value;
    PreparedIsReady(ExampleState(), 1, 10, 1_100, QUIET, 22);
    ReadyFacts(ExampleState(), prepared, 1, 10, 22, 1_100);
    PreparedSound(ExampleState(), prepared, 1, 10, 22, 1_100);
    var log := LongLog(MAX_AUDIT_ENTRIES);
    PlainLogIsUsed(log);
    var image := prepared.(audit := log, generation := |log|);
    RelogKeepsSound(prepared, log, 46);
    assert 10 in Interrupted(image.intents);
    w := World(None, {image}, 1_100, 46, map[]);
    assert |Interrupted(image.intents)| > 0;
  }

  lemma PreparedSound(s: TreasuryState, prepared: TreasuryState, agent: Id, id: Id, supply: Id, at: int)
    requires Ready(s, prepared, agent, id, supply, at) && !s.emergencyStop && Prepare(s, agent, id, at, QUIET) == Ok(prepared)
    ensures Sound(prepared, NextId(supply) + 1) && Loadable(prepared) && !prepared.emergencyStop
  {
    hide Sound, Loadable, Leads, Prepare, Decide, CapacityAllows, Seal, Used;
    Safety.PrepareShape(s, agent, id, at, QUIET);
  }
}
