/** Runs from a fresh broker to the states in which a claimed failure happens. */
module WitnessRuns {
  import opened Results
  import opened MoneyMath
  import opened Records
  import opened AuditLog
  import opened Budget
  import opened Requests
  import opened Storage
  import opened Daemon
  import opened MoneyInvariant
  import opened Steps
  import opened Invariant
  import opened Serving
  import opened Runs
  import opened Effects
  import opened Guarantees
  import opened Corners
  import opened Witness

  /** The run ends with the broker up, `s` in memory and alone on disk, and nothing submitted. */
  ghost predicate Reached(w: World, events: seq<Event>, s: TreasuryState, clock: int, supply: Id) {
    && Initial(w) && Run(w, events) == World(Some(s), {s}, clock, supply, map[])
    && Sound(s, supply) && Loadable(s) && 0 <= clock
  }

  function CallerOf(request: Request): Caller {
    if request.FromAgent() then AgentCaller(request.agent) else OwnerCaller
  }

  function Ask(wait: nat, request: Request, verdict: Verdict): Event {
    Call(wait, 0, CallerOf(request), request, verdict, Durable)
  }

  /** An accepted request that is saved takes the run one event further. */
  lemma AskedOnRun(w: World, events: seq<Event>, s: TreasuryState, clock: int, supply: Id, wait: nat, request: Request, verdict: Verdict)
      returns (longer: seq<Event>)
    requires Reached(w, events, s, clock, supply) && Authenticated(s, CallerOf(request), clock + wait)
    requires !request.RotateRequest? && !request.BeginHandoffRequest?
    requires Handle(s, request, Env(clock + wait, 0, supply, verdict)).Accept?
    ensures longer == events + [Ask(wait, request, verdict)]
    ensures Reached(w, longer, Handle(s, request, Env(clock + wait, 0, supply, verdict)).state, clock + wait, NextSupply(supply))
  {
    hide Sound, Loadable, Handle, Authenticated, Initial, Leads, Reaches;
    var env := Env(clock + wait, 0, supply, verdict);
    var s' := Handle(s, request, env).state;
    RequestSteps.HandleLeads(s, request, env);
    LeadsSound(s, s', supply, env.at, env.at);
    Loads.RefusedSavesAreRotations(s, request, env);
    LaterSupply(s', NextId(supply) + 1, NextSupply(supply));
    longer := events + [Ask(wait, request, verdict)];
    assert longer[..|longer| - 1] == events;
    SavedCall(w, events, s, clock, supply, Ask(wait, request, verdict));
  }

  lemma SavedCall(w: World, events: seq<Event>, s: TreasuryState, clock: int, supply: Id, e: Event)
    requires Run(w, events) == World(Some(s), {s}, clock, supply, map[])
    requires e.Call? && e.fault.Durable? && !e.request.BeginHandoffRequest?
    requires Authenticated(s, e.caller, clock + e.wait) && Permitted(e.caller, e.request)
    requires var step := Handle(s, e.request, Env(clock + e.wait, e.lag, supply, e.verdict)); step.Accept? && Loadable(step.state)
    ensures var s' := Handle(s, e.request, Env(clock + e.wait, e.lag, supply, e.verdict)).state;
            Next(Run(w, events), e) == World(Some(s'), {s'}, clock + e.wait + e.lag, NextSupply(supply), map[])
  {
    hide Loadable, Handle, Authenticated, Permitted, Run;
  }

  // ----- the first steps of a broker -----

  const AGENT_REQUEST := CreateAgentRequest(DemoPolicy(0), BoundedAutonomous, 1_100)

  const CARD_REQUEST := ConfigureManualRequest(Money(5_000, 0), OwnerConfirmed, 1_100, true)

  const PURCHASE_REQUEST := CreateIntentRequest(1, Purchase())

  /** The closing entry of a request, on a log of ordinary length without switch entries. */
  lemma EntryCloses(s: TreasuryState, w: TreasuryState, request: Request, env: Env, actor: Actor, action: AuditAction, id: Option<Id>)
    requires Plan(s, request, env) == Ok(Write(w, actor, action, id)) && !IsEmergency(action)
    requires w.audit == s.audit && w.generation == |s.audit| && PlainLog(s.audit)
    requires |s.audit| < MAX_AUDIT_ENTRIES - AUDIT_SAFETY_RESERVE
    ensures Handle(s, request, env).Accept?
    ensures var s' := Handle(s, request, env).state;
            && s' == w.(generation := |s'.audit|, audit := s'.audit)
            && PlainLog(s'.audit) && |s'.audit| == |s.audit| + 1
  {
    hide Plan, Seal, PlainLog, EmergencyCount;
    PlainLogIsUsed(s.audit);
    EntryStaysPlain(s.audit, env.at, actor, action, id);
  }

  lemma EntryStaysPlain(log: seq<AuditEntry>, at: int, actor: Actor, action: AuditAction, id: Option<Id>)
    requires PlainLog(log) && !IsEmergency(action)
    ensures PlainLog(log + [Seal(log, at, actor, action, id)])
  {
    hide EmergencyCount, ChainVerifies;
    AppendKeepsChain(log, at, actor, action, id);
    CountsAfterAppend(log, Seal(log, at, actor, action, id));
  }

  /** A broker that has just started. */
  ghost predicate Fresh(s: TreasuryState) {
    && s == TreasuryState(1, map[], map[BootstrapPolicy := DemoPolicy(0)], map[], [Capital()], s.audit, None, false,
                          ExampleState().provider, Simulated, None, map[])
    && |s.audit| == 1 && PlainLog(s.audit)
  }

  lemma Started() returns (w: World, s: TreasuryState)
    ensures Reached(w, [], s, 900, 1) && Fresh(s)
  {
    hide Sound, Loadable, Bootstrap, Fresh;
    FreshBroker();
    s := Bootstrap(Money(5_000, 0), 900).value;
    w := World(Some(s), {s}, 900, 1, map[]);
    BootstrapIsSound(Money(5_000, 0), 900, 1);
  }

  lemma FreshBroker()
    ensures Bootstrap(Money(5_000, 0), 900).Ok? && Fresh(Bootstrap(Money(5_000, 0), 900).value)
  {
    hide PlainLog, Seal;
    EmptyLogIsPlain();
    assert EmergencyCount([]) == 0;
    EntryStaysPlain([], 900, Owner, BootstrapTreasury, None);
    assert [] + [Seal([], 900, Owner, BootstrapTreasury, None)] == [Seal([], 900, Owner, BootstrapTreasury, None)];
  }

  lemma FreshSnapshot(s: TreasuryState)
    requires Fresh(s)
    ensures PolicyCoversAuthority(s, DemoPolicy(0)) == Ok(())
  {
    hide PlainLog, KindTotal, Reserved;
    BootstrapTotals(s, Capital());
  }

  /** The owner creates agent 1 with session 2. */
  lemma AgentCreated(s: TreasuryState)
    requires Fresh(s)
    ensures Handle(s, AGENT_REQUEST, Env(900, 0, 1, QUIET)).Accept?
    ensures var s' := Handle(s, AGENT_REQUEST, Env(900, 0, 1, QUIET)).state;
            Idle(s', None) && s'.mode.Simulated? && |s'.audit| == 2
  {
    hide PlainLog, Handle, PolicyCoversAuthority;
    FreshSnapshot(s);
    EntryCloses(s, Plan(s, AGENT_REQUEST, Env(900, 0, 1, QUIET)).value.state, AGENT_REQUEST, Env(900, 0, 1, QUIET),
                Owner, CreateAgent, None);
  }

  /** The owner switches to the card. */
  lemma CardConfigured(s: TreasuryState)
    requires Idle(s, None) && |s.audit| < MAX_AUDIT_ENTRIES - AUDIT_SAFETY_RESERVE
    ensures Handle(s, CARD_REQUEST, Env(900, 0, 4, QUIET)).Accept?
    ensures var s' := Handle(s, CARD_REQUEST, Env(900, 0, 4, QUIET)).state;
            Idle(s', None) && s'.mode.ManualPrepaidCard? && |s'.audit| == |s.audit| + 1
  {
    hide PlainLog, Handle;
    EntryCloses(s, Plan(s, CARD_REQUEST, Env(900, 0, 4, QUIET)).value.state, CARD_REQUEST, Env(900, 0, 4, QUIET),
                Owner, ConfigureManual, None);
  }

  /** Changing the receive instructions adds an entry and leaves the rest as it was. */
  lemma ReceiveConfigured(s: TreasuryState, waiting: Option<TransactionState>, env: Env)
    requires Idle(s, waiting) && |s.audit| < MAX_AUDIT_ENTRIES - AUDIT_SAFETY_RESERVE && !env.verdict.malformed
    ensures Handle(s, ConfigureReceiveRequest(0), env).Accept?
    ensures var s' := Handle(s, ConfigureReceiveRequest(0), env).state;
            Idle(s', waiting) && s'.mode == s.mode && |s'.audit| == |s.audit| + 1
  {
    hide PlainLog, Handle, Capital;
    EntryCloses(s, s.(receiveInstructions := Some(0)), ConfigureReceiveRequest(0), env, Owner, ConfigureReceive, None);
  }

  /** The agent asks; the folded checks decide whether the owner has to approve. */
  lemma PurchaseCreated(s: TreasuryState, verdict: Verdict)
    requires Idle(s, None) && |s.audit| < MAX_AUDIT_ENTRIES - AUDIT_SAFETY_RESERVE
    requires verdict == QUIET || verdict == QUIET.(approval := true)
    ensures Handle(s, PURCHASE_REQUEST, Env(1_000, 0, 10, verdict)).Accept?
    ensures var s' := Handle(s, PURCHASE_REQUEST, Env(1_000, 0, 10, verdict)).state;
            && Idle(s', Some(if verdict.approval then ApprovalRequired else PolicyValidated))
            && s'.mode == s.mode && |s'.audit| == |s.audit| + 1
  {
    hide PlainLog, Handle, Idle, Plan;
    var state := if verdict.approval then ApprovalRequired else PolicyValidated;
    PurchasePlanned(s, verdict);
    var w := s.(intents := map[10 := At(state)]);
    EntryCloses(s, w, PURCHASE_REQUEST, Env(1_000, 0, 10, verdict), AgentActor(1), CreatePurchaseIntent, Some(10));
    IdleWith(s, Handle(s, PURCHASE_REQUEST, Env(1_000, 0, 10, verdict)).state, None, state);
  }

  lemma PurchasePlanned(s: TreasuryState, verdict: Verdict)
    requires Idle(s, None) && (verdict == QUIET || verdict == QUIET.(approval := true))
    ensures var state := if verdict.approval then ApprovalRequired else PolicyValidated;
            Plan(s, PURCHASE_REQUEST, Env(1_000, 0, 10, verdict))
              == Ok(Write(s.(intents := map[10 := At(state)]), AgentActor(1), CreatePurchaseIntent, Some(10)))
    ensures s.generation == |s.audit| && PlainLog(s.audit)
  {
    hide PlainLog, Decide, UsageOf, Capital;
    IdleUsage(s, None, 1_000);
    IdleDecides(s, None, 1_000, verdict);
    IdleOffice(s, None);
    SumIdle(None, AgentIntentW(1));
  }

  /** A state that differs from an idle one by its log and its waiting intent is idle. */
  lemma IdleWith(s: TreasuryState, s': TreasuryState, waiting: Option<TransactionState>, state: TransactionState)
    requires Idle(s, waiting) && state.NeverReserved() && state != Draft && PlainLog(s'.audit)
    requires s' == s.(intents := map[10 := At(state)], generation := |s'.audit|, audit := s'.audit)
    ensures Idle(s', Some(state))
  {
    hide PlainLog, At, Capital;
  }

  /** The owner approves. */
  lemma PurchaseApproved(s: TreasuryState)
    requires Idle(s, Some(ApprovalRequired)) && |s.audit| < MAX_AUDIT_ENTRIES - AUDIT_SAFETY_RESERVE
    ensures Handle(s, ApproveRequest(10), Env(1_000, 0, 22, QUIET)).Accept?
    ensures var s' := Handle(s, ApproveRequest(10), Env(1_000, 0, 22, QUIET)).state;
            Idle(s', Some(Approved)) && s'.mode == s.mode && |s'.audit| == |s.audit| + 1
  {
    hide PlainLog, Handle, Capital;
    var w := s.(intents := map[10 := At(Approved)]);
    assert s.intents[10 := At(Approved)] == map[10 := At(Approved)];
    EntryCloses(s, w, ApproveRequest(10), Env(1_000, 0, 22, QUIET), Owner, ApproveIntent, Some(10));
  }

  /** From the start to an intent that waits, in either mode of settlement. */
  lemma WaitingIsReached(card: bool, verdict: Verdict) returns (w: World, events: seq<Event>, s: TreasuryState)
    requires verdict == QUIET || verdict == QUIET.(approval := true)
    ensures Reached(w, events, s, 1_000, 22) && s.mode.ManualPrepaidCard? == card && |s.audit| == 4
    ensures Idle(s, Some(if verdict.approval then ApprovalRequired else PolicyValidated))
  {
    hide Reached, Idle, Handle;
    w, s := Started();
    AgentCreated(s);
    events := AskedOnRun(w, [], s, 900, 1, 0, AGENT_REQUEST, QUIET);
    s := Handle(s, AGENT_REQUEST, Env(900, 0, 1, QUIET)).state;
    if card {
      CardConfigured(s);
      events := AskedOnRun(w, events, s, 900, 4, 0, CARD_REQUEST, QUIET);
      s := Handle(s, CARD_REQUEST, Env(900, 0, 4, QUIET)).state;
    } else {
      ReceiveConfigured(s, None, Env(900, 0, 4, QUIET));
      events := AskedOnRun(w, events, s, 900, 4, 0, ConfigureReceiveRequest(0), QUIET);
      s := Handle(s, ConfigureReceiveRequest(0), Env(900, 0, 4, QUIET)).state;
    }
    IdleAgent(s, None);
    PurchaseCreated(s, verdict);
    events := AskedOnRun(w, events, s, 900, 10, 100, PURCHASE_REQUEST, verdict);
    s := Handle(s, PURCHASE_REQUEST, Env(1_000, 0, 10, verdict)).state;
  }

  /** A hundred seconds later the card and the session are still current. */
  lemma LaterIsReached(w: World, events: seq<Event>, s: TreasuryState, supply: Id, waiting: Option<TransactionState>)
      returns (longer: seq<Event>, s': TreasuryState)
    requires Reached(w, events, s, 1_000, supply) && Idle(s, waiting) && |s.audit| < MAX_AUDIT_ENTRIES - AUDIT_SAFETY_RESERVE
    ensures Reached(w, longer, s', 1_100, NextSupply(supply)) && Idle(s', waiting)
    ensures s'.mode == s.mode && |s'.audit| == |s.audit| + 1
  {
    hide Reached, Idle, Handle;
    var request := ConfigureReceiveRequest(0);
    ReceiveConfigured(s, waiting, Env(1_100, 0, supply, QUIET));
    longer := AskedOnRun(w, events, s, 1_000, supply, 100, request, QUIET);
    s' := Handle(s, request, Env(1_100, 0, supply, QUIET)).state;
  }

  /** Ordinary entries fill the log up to their quota. */
  lemma {:induction false} FillingIsReached(w: World, events: seq<Event>, s: TreasuryState, supply: Id, waiting: Option<TransactionState>, n: nat)
      returns (longer: seq<Event>, s': TreasuryState, supply': Id)
    requires Reached(w, events, s, 1_100, supply) && Idle(s, waiting)
    requires |s.audit| <= n <= MAX_AUDIT_ENTRIES - AUDIT_SAFETY_RESERVE
    ensures Reached(w, longer, s', 1_100, supply') && Idle(s', waiting) && s'.mode == s.mode && |s'.audit| == n
    decreases n - |s.audit|
  {
    hide Reached, Idle, Handle;
    if |s.audit| == n {
      longer, s', supply' := events, s, supply;
    } else {
      var request, env := ConfigureReceiveRequest(0), Env(1_100, 0, supply, QUIET);
      ReceiveConfigured(s, waiting, env);
      var next := AskedOnRun(w, events, s, 1_100, supply, 0, request, QUIET);
      longer, s', supply' := FillingIsReached(w, next, Handle(s, request, env).state, NextSupply(supply), waiting, n);
    }
  }

  // ----- cancelling and rotating -----

  lemma WaitingCannotBeCancelled(s: TreasuryState, env: Env)
    requires Idle(s, Some(PolicyValidated))
    ensures 10 in s.intents && s.intents[10].state.PolicyValidated?
    ensures Handle(s, CancelRequest(1, 10), env) == Reject(Conflict)
  {
    hide PlainLog, Capital;
  }

  /** A run ends with an authorized intent whose cancellation the guard admits and the transition table refuses. */
  lemma CancellationCanBeRefused() returns (w: World, events: seq<Event>, s: TreasuryState)
    ensures Initial(w) && Run(w, events).memory == Some(s) && 10 in s.intents && s.intents[10].state.PolicyValidated?
    ensures forall env: Env :: Handle(s, CancelRequest(1, 10), env) == Reject(Conflict)
  {
    hide Run, Sound, Loadable, Initial, Idle, Handle;
    w, events, s := WaitingIsReached(false, QUIET);
    forall env: Env
      ensures 10 in s.intents && s.intents[10].state.PolicyValidated?
      ensures Handle(s, CancelRequest(1, 10), env) == Reject(Conflict)
    {
      WaitingCannotBeCancelled(s, env);
    }
    WaitingCannotBeCancelled(s, NOW);
  }

  lemma RotationOutlives(s: TreasuryState, waiting: Option<TransactionState>, env: Env)
    requires Idle(s, waiting) && |s.audit| < MAX_AUDIT_ENTRIES - AUDIT_SAFETY_RESERVE && env.lag == 1 && env.verdict == QUIET
    ensures Handle(s, RotateRequest(1, 60), env).Accept?
    ensures !Loadable(Handle(s, RotateRequest(1, 60), env).state)
  {
    hide PlainLog, Handle, Capital;
    var w := Plan(s, RotateRequest(1, 60), env).value.state;
    EntryCloses(s, w, RotateRequest(1, 60), env, Owner, RotateCapability, None);
    assert 1 in w.agents && !AgentStored(w, 1);
  }

  const ROTATION := Call(0, 1, OwnerCaller, RotateRequest(1, 60), QUIET, Durable)

  /** On a run, the clock ticks within a rotation: it is accepted, cannot be saved although no fault happens, and is rolled back. */
  lemma RotationCanBeRolledBack() returns (w: World, events: seq<Event>, s: TreasuryState)
    ensures Initial(w) && Run(w, events).memory == Some(s)
    ensures var env := Env(Run(w, events).clock, 1, Run(w, events).supply, QUIET);
            Handle(s, RotateRequest(1, 60), env).Accept? && !Loadable(Handle(s, RotateRequest(1, 60), env).state)
    ensures Serve(Run(w, events), ROTATION) == Served(Some(s), {s}, false, None)
  {
    hide Run, Sound, Loadable, Initial, Idle, Handle;
    w, events, s := WaitingIsReached(false, QUIET);
    RotationOutlives(s, Some(PolicyValidated), Env(1_000, 1, 22, QUIET));
  }

  // ----- checkouts -----

  /**
   A run ends with a checkout whose save is lost before the rename: memory then holds a reservation that the disk
   does not have, and nothing was submitted.
   */
  lemma LostCheckoutKeepsReservation() returns (w: World, events: seq<Event>, s: TreasuryState, kept: TreasuryState)
    ensures Initial(w) && Run(w, events).memory == Some(s) && kept != s
    ensures Serve(Run(w, events), CheckoutOf(AgentCaller(1), LostBeforeRename)) == Served(Some(kept), {s}, false, None)
    ensures 10 in s.intents && s.intents[10].state.PolicyValidated?
    ensures 10 in kept.intents && kept.intents[10].state.Executing?
  {
    hide Run, Sound, Loadable, Initial, Idle, ServeCheckout, CheckoutPrepares, Handed, CheckoutPrepared, Ready;
    w, events, s := WaitingIsReached(true, QUIET);
    events, s := LaterIsReached(w, events, s, 22, Some(PolicyValidated));
    LostSaveKeepsReservation(s, 46);
    WaitingCannotBeCancelled(s, NOW);
    var e := CheckoutOf(AgentCaller(1), LostBeforeRename);
    kept := Handed(s, e, 1_100).value;
    HandedKeepsReady(s, e, 1_100, 46);
    ReadyFacts(s, kept, s.intents[10].agentId, 10, 46, 1_100);
  }

  lemma ApprovedWaits(s: TreasuryState)
    requires Idle(s, Some(Approved))
    ensures 10 in s.intents && s.intents[10].state.Approved?
  {
    hide PlainLog, Capital;
  }

  /** A run fills the ordinary quota; the owner's checkout then reserves the funds, is refused its entry, and keeps the reservation in memory. */
  lemma OwnersHandoffCanBeRefused() returns (w: World, events: seq<Event>, s: TreasuryState, kept: TreasuryState)
    ensures Initial(w) && Run(w, events).memory == Some(s) && kept != s
    ensures Serve(Run(w, events), CheckoutOf(OwnerCaller, Durable)) == Served(Some(kept), {s}, false, None)
    ensures 10 in s.intents && s.intents[10].state.Approved?
    ensures 10 in kept.intents && kept.intents[10].state.Executing?
  {
    hide Run, Sound, Loadable, Initial, Idle, ServeCheckout, CheckoutPrepares, Handed, CheckoutPrepared, Ready, Handle;
    w, events, s := WaitingIsReached(true, QUIET.(approval := true));
    PurchaseApproved(s);
    events := AskedOnRun(w, events, s, 1_000, 22, 0, ApproveRequest(10), QUIET);
    s := Handle(s, ApproveRequest(10), Env(1_000, 0, 22, QUIET)).state;
    events, s := LaterIsReached(w, events, s, 46, Some(Approved));
    var supply: Id;
    events, s, supply := FillingIsReached(w, events, s, 94, Some(Approved), MAX_AUDIT_ENTRIES - AUDIT_SAFETY_RESERVE);
    FullLogRefusesOwner(s, supply);
    ApprovedWaits(s);
    var e := CheckoutOf(OwnerCaller, Durable);
    kept := CheckoutPrepared(s, e, 1_100);
    CheckoutIsReady(s, e, 1_100, supply);
    ReadyFacts(s, kept, s.intents[10].agentId, 10, supply, 1_100);
  }

  // ----- overflow -----

  function Flood(source: nat): DepositDetails {
    DepositDetails(Money(I64_MAX, 0), source, false, None)
  }

  function FloodOf(reference: nat): Request {
    DepositRequest(reference, Flood(reference))
  }

  /** An unverified deposit of the largest amount is accepted as long as ordinary entries are. */
  lemma FloodAccepted(s: TreasuryState, reference: nat, env: Env)
    requires reference !in s.deposits && !env.verdict.malformed && Used(s.audit) < MAX_AUDIT_ENTRIES - AUDIT_SAFETY_RESERVE
    ensures RecordDepositStep(s, reference, Flood(reference), env).Ok? && RecordDepositStep(s, reference, Flood(reference), env).value.Write?
    ensures Handle(s, FloodOf(reference), env).Accept?
    ensures Reinvested(s, Flood(reference)) == Ok(Money(0, 0))
  {
    hide Seal, Used, EmergencyCount, SnapshotOf;
  }

  lemma FloodCredits(s: TreasuryState, reference: nat, env: Env)
    requires reference !in s.deposits && !env.verdict.malformed && Used(s.audit) < MAX_AUDIT_ENTRIES - AUDIT_SAFETY_RESERVE
    requires Handle(s, FloodOf(reference), env).Accept?
    ensures var s' := Handle(s, FloodOf(reference), env).state;
            && s'.deposits == s.deposits[reference := Flood(reference)] && s'.intents == s.intents && s'.agents == s.agents
            && SnapshotTotals(s', 0).unverifiedIncome == SnapshotTotals(s, 0).unverifiedIncome + I64_MAX
            && TreasuryCurrency(s') == TreasuryCurrency(s)
  {
    hide Record, RecordDepositStep, Credited, LogFollows, SnapshotTotals, Used;
    FloodAccepted(s, reference, env);
    RequestSteps.DepositCloses(s, reference, Flood(reference), env);
    RequestSteps.UnverifiedDepositMovesNothing(s, reference, Flood(reference), env);
    var s' := Handle(s, FloodOf(reference), env).state;
    CreditedFrame(s, s', reference, Money(0, 0), env.at);
    Safety.CreditedSnapshot(s, s', reference, Money(0, 0), env.at, 0);
  }

  lemma FloodEntry(s: TreasuryState, reference: nat, env: Env)
    requires Handle(s, FloodOf(reference), env).Accept? && Plan(s, FloodOf(reference), env).value.Write?
    ensures Used(Handle(s, FloodOf(reference), env).state.audit) <= Used(s.audit) + 1
  {
    hide Plan, Used, EmergencyCount;
    var draft := Plan(s, FloodOf(reference), env).value;
    DraftOfFlood(s, reference, env);
    CountsAfterAppend(s.audit, Seal(s.audit, env.at, draft.actor, draft.action, draft.intentId));
  }

  lemma DraftOfFlood(s: TreasuryState, reference: nat, env: Env)
    requires Plan(s, FloodOf(reference), env).Ok? && Plan(s, FloodOf(reference), env).value.Write?
    ensures Plan(s, FloodOf(reference), env).value.state.audit == s.audit
  {
    hide RecordDepositStep;
    DepositKeepsLog(s, reference, Flood(reference), env);
  }

  /** One flood takes a run one event further. */
  lemma FloodIsReached(w: World, events: seq<Event>, s: TreasuryState, supply: Id, reference: nat)
      returns (longer: seq<Event>, s': TreasuryState)
    requires Reached(w, events, s, 1_000, supply) && reference !in s.deposits
    requires Used(s.audit) < MAX_AUDIT_ENTRIES - AUDIT_SAFETY_RESERVE
    ensures longer == events + [Ask(0, FloodOf(reference), QUIET)] && Reached(w, longer, s', 1_000, NextSupply(supply))
    ensures s'.deposits == s.deposits[reference := Flood(reference)] && s'.intents == s.intents
    ensures SnapshotTotals(s', 0).unverifiedIncome == SnapshotTotals(s, 0).unverifiedIncome + I64_MAX
    ensures TreasuryCurrency(s') == TreasuryCurrency(s) && Used(s'.audit) <= Used(s.audit) + 1
  {
    hide Reached, Handle, SnapshotTotals, Used, RecordDepositStep;
    var env := Env(1_000, 0, supply, QUIET);
    FloodAccepted(s, reference, env);
    FloodCredits(s, reference, env);
    FloodEntry(s, reference, env);
    longer := AskedOnRun(w, events, s, 1_000, supply, 0, FloodOf(reference), QUIET);
    s' := Handle(s, FloodOf(reference), env).state;
  }

  lemma FloodedSnapshotFails(s: TreasuryState, policy: Policy, r: PurchaseRequest, agent: Id, at: int, verdict: Verdict)
    requires SnapshotTotals(s, 0).unverifiedIncome > I64_MAX && policy.currency == 0 && r.finalTotal.currency == 0
    ensures SnapshotOf(s, 0) == Err(MoneyError)
    ensures Decide(s, agent, r, policy, at, verdict).Err?
  {
    hide SnapshotTotals, UsageOf, Evaluate;
  }

  /**
   A run in which an authorized intent waits and two unverified deposits within range are recorded: the snapshot
   then overflows, and from there on nothing can be decided, hence nothing reserved, in the treasury currency.
   */
  lemma DepositsCanOverflowSnapshot() returns (w: World, events: seq<Event>, s: TreasuryState)
    ensures Initial(w) && Run(w, events).memory == Some(s) && Run(w, events).disk == {s}
    ensures 2 <= |events| && events[|events| - 2..] == [Ask(0, FloodOf(1), QUIET), Ask(0, FloodOf(2), QUIET)]
    ensures 10 in s.intents && s.intents[10].state.PolicyValidated?
    ensures SnapshotOf(s, TreasuryCurrency(s)) == Err(MoneyError)
    ensures forall agent: Id, r: PurchaseRequest, policy: Policy, at: int, verdict: Verdict ::
              policy.currency == TreasuryCurrency(s) == r.finalTotal.currency ==> Decide(s, agent, r, policy, at, verdict).Err?
  {
    hide Run, Sound, Loadable, Initial, Idle, SnapshotTotals, SnapshotOf, Decide, Used;
    w, events, s := WaitingIsReached(false, QUIET);
    WaitingCannotBeCancelled(s, NOW);
    WaitingShape(s);
    events, s := FloodIsReached(w, events, s, 22, 1);
    events, s := FloodIsReached(w, events, s, 46, 2);
    FloodedSnapshotFails(s, DemoPolicy(0), Purchase(), 1, 0, QUIET);
    forall agent: Id, r: PurchaseRequest, policy: Policy, at: int, verdict: Verdict |
      policy.currency == TreasuryCurrency(s) == r.finalTotal.currency
      ensures Decide(s, agent, r, policy, at, verdict).Err?
    {
      FloodedSnapshotFails(s, policy, r, agent, at, verdict);
    }
  }

  lemma WaitingShape(s: TreasuryState)
    requires Idle(s, Some(PolicyValidated))
    ensures s.deposits == map[] && TreasuryCurrency(s) == 0 && Used(s.audit) == |s.audit|
    ensures SnapshotTotals(s, 0).unverifiedIncome == 0
  {
    hide Idle, SnapshotTotals, EmergencyCount;
    IdleSnapshotTotals(s, Some(PolicyValidated));
    IdleBooks(s, Some(PolicyValidated));
    IdleOffice(s, Some(PolicyValidated));
    NoDeposits(s, Some(PolicyValidated));
  }

  lemma NoDeposits(s: TreasuryState, waiting: Option<TransactionState>)
    requires Idle(s, waiting)
    ensures s.deposits == map[]
  {
    hide PlainLog;
  }
}
