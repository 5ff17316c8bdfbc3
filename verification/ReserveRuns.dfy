/** The reserved audit slots over whole runs: exactly which events may break the reserve, and what it guarantees. */
module ReserveRuns {
  import opened Results
  import opened MoneyMath
  import opened Records
  import opened AuditLog
  import opened Sums
  import opened Budget
  import opened Execution
  import opened MoneyInvariant
  import opened Requests
  import opened Storage
  import opened Daemon
  import opened Steps
  import opened Invariant
  import opened Operations
  import opened Reconciliation
  import opened RequestSteps
  import opened Reserve
  import opened Loads
  import opened Serving
  import opened Runs
  import opened Effects

  // ----- requests -----

  /** One slot nobody reserved is left. */
  ghost predicate SpareSlot(s: TreasuryState) {
    Used(s.audit) + Owed(s.intents) < MAX_AUDIT_ENTRIES
  }

  /** The requests whose entry nobody reserved: all but the switch, the manual handoff, and the reconciliation of an uncertain intent. */
  predicate Unreserved(s: TreasuryState, request: Request) {
    && !request.EmergencyStopRequest? && !request.BeginHandoffRequest? && !request.CompleteHandoffRequest?
    && !(request.ReconcileRequest? && request.intent in s.intents && s.intents[request.intent].state.Uncertain())
  }

  /** Such a request also writes its entry, unless it finds nothing to do. */
  ghost predicate TakesSpareSlot(s: TreasuryState, request: Request, env: Env) {
    Unreserved(s, request) && Plan(s, request, env).Ok? && !Plan(s, request, env).value.Unchanged?
  }

  /** Ordinary entries stop where the safety margin begins. */
  predicate Ordinary(request: Request) {
    && !request.EmergencyStopRequest? && !request.BeginHandoffRequest? && !request.CompleteHandoffRequest?
    && !request.ReconcileRequest?
  }

  lemma OrdinaryAction(s: TreasuryState, request: Request, env: Env)
    requires Ordinary(request) && Plan(s, request, env).Ok? && Plan(s, request, env).value.Write?
    ensures var action := Plan(s, request, env).value.action; !IsMoneySafety(action) && !IsEmergency(action)
  {
    hide Decide, UsageOf, SnapshotOf, Reinvested, CreditProvider, AppendIncome;
  }

  lemma IdleMoveOwes(s: TreasuryState, s': TreasuryState, id: Id, at: int)
    requires Moved(s, s', id, at) && s'.intents[id].state.NeverReserved()
    ensures Owed(s'.intents) == Owed(s.intents)
  {
    hide Moved, ReceiptSound, StartsLawfully, MoveEvents, SameIdentity, Owed;
    MovedFrame(s, s', id, at);
    OwedMoves(s.intents, id, s'.intents[id]);
  }

  lemma IntroductionOwes(s: TreasuryState, s': TreasuryState, id: Id)
    requires Introduced(s, s', id)
    ensures Owed(s'.intents) == Owed(s.intents)
  {
    IntroducedFrame(s, s', id);
    assert s'.intents[id].state.NeverReserved();
    hide Introduced;
    SumSwap(s.intents, id, s'.intents[id], OwedW(), OwedW());
  }

  /** An ordinary request changes no debt and writes one ordinary entry. */
  lemma OrdinaryOwes(s: TreasuryState, request: Request, env: Env)
    requires Sound(s, env.nextId) && Ordinary(request) && Handle(s, request, env).Accept? && Plan(s, request, env).value.Write?
    ensures Owed(Handle(s, request, env).state.intents) == Owed(s.intents)
  {
    hide Sound, Handle, Plan, LogFollows, Moved, Introduced, Administered, Credited, Reconfigured, Reinvested, Owed;
    var s' := Handle(s, request, env).state;
    WriteIsOneStep(s, request, env);
    match request
    case CreateIntentRequest(_, _) => IntroductionOwes(s, s', env.nextId);
    case CancelRequest(_, id) => IdleMoveOwes(s, s', id, env.at);
    case ApproveRequest(id) => IdleMoveOwes(s, s', id, env.at);
    case DenyRequest(id) => IdleMoveOwes(s, s', id, env.at);
    case DepositRequest(external, details) => CreditedFrame(s, s', external, Reinvested(s, details).value, env.at);
    case ConfigureManualRequest(_, _, _, _) => ReconfiguredFrame(s, s');
    case _ => AdministeredBegins(s, s', env.nextId, env.at);
  }

  /** An entry that is no switch entry takes one slot. */
  lemma EntryTakesSlot(s: TreasuryState, s': TreasuryState, at: int)
    requires LogFollows(s, s', at) && s'.audit != s.audit && Owed(s'.intents) == Owed(s.intents)
    requires !IsEmergency(s'.audit[|s.audit|].body.action)
    ensures SlotsReserved(s') <==> SpareSlot(s)
  {
    hide Used, Owed, EmergencyCount;
    EntryCounts(s, s', at);
  }

  lemma OrdinaryReserve(s: TreasuryState, request: Request, env: Env)
    requires Sound(s, env.nextId) && Ordinary(request) && Handle(s, request, env).Accept? && Plan(s, request, env).value.Write?
    ensures SlotsReserved(Handle(s, request, env).state) <==> SpareSlot(s)
  {
    hide Sound, Plan, Record, LogFollows, Owed, Used, OfKind, SlotsReserved, SpareSlot;
    WriteIsOneStep(s, request, env);
    OrdinaryOwes(s, request, env);
    OrdinaryAction(s, request, env);
    EntryTakesSlot(s, Handle(s, request, env).state, env.at);
  }

  lemma ThrottleReserve(s: TreasuryState, agent: Id, at: int)
    requires Record(s, AgentActor(agent), TransactionRateLimited, None, at).Ok?
    ensures SlotsReserved(Record(s, AgentActor(agent), TransactionRateLimited, None, at).value) <==> SpareSlot(s)
  {
    hide Record, LogFollows, Owed, Used, SlotsReserved, SpareSlot;
    RecordFollows(s, s, AgentActor(agent), TransactionRateLimited, None, at);
    RecordAppends(s, AgentActor(agent), TransactionRateLimited, None, at);
    RecordKeepsIntents(s, AgentActor(agent), TransactionRateLimited, None, at);
    EntryTakesSlot(s, Record(s, AgentActor(agent), TransactionRateLimited, None, at).value, at);
  }

  lemma SwitchReserve(s: TreasuryState, stopped: bool, env: Env)
    requires Sound(s, env.nextId) && SlotsReserved(s)
    requires Handle(s, EmergencyStopRequest(stopped), env).Accept? && Plan(s, EmergencyStopRequest(stopped), env).value.Write?
    ensures SlotsReserved(Handle(s, EmergencyStopRequest(stopped), env).state)
  {
    hide Sound, LogFollows, Owed, Used, StoppedAgents, SlotsReserved, Record, AgentsFollow;
    var request := EmergencyStopRequest(stopped);
    var s' := Handle(s, request, env).state;
    WriteIsOneStep(s, request, env);
    RecordKeepsSwitch(EmergencyStopStep(s, stopped, env).value.state, Owner,
                      if stopped then EmergencyStopOn else EmergencyStopOff, None, env.at);
    SwitchKeepsReserve(s, s', env.at);
  }

  lemma RecordKeepsSwitch(s: TreasuryState, actor: Actor, action: AuditAction, intentId: Option<Id>, at: int)
    requires Record(s, actor, action, intentId, at).Ok?
    ensures Record(s, actor, action, intentId, at).value.emergencyStop == s.emergencyStop
  {
    hide CapacityAllows, Seal;
  }

  /** A manual handoff has room for both of its entries and for what it owes afterwards. */
  lemma HandoffReserve(s: TreasuryState, request: Request, env: Env)
    requires Sound(s, env.nextId) && request.BeginHandoffRequest? && !Handle(s, request, env).Reject?
    ensures SlotsReserved(Handle(s, request, env).state)
  {
    hide Sound, Handle, Prepare, Record, Booked, Owed, Used, LogFollows;
    HandoffEffect(s, request, env);
    SoundIsBooked(s, env.nextId);
    var id, prepared := request.intent, BeginHandoff(s, request.intent, env).value.state;
    PrepareKeepsReserve(s, s.intents[id].agentId, id, env.at, env.verdict);
    EntryKeepsReserve(prepared, Owner, BeginManualHandoff, Some(id), env.at);
  }

  /** One more entry than is owed fits. */
  lemma EntryKeepsReserve(s: TreasuryState, actor: Actor, action: AuditAction, intentId: Option<Id>, at: int)
    requires SpareSlot(s) && !IsEmergency(action) && Record(s, actor, action, intentId, at).Ok?
    ensures SlotsReserved(Record(s, actor, action, intentId, at).value)
  {
    hide Record, LogFollows, Owed, Used, SlotsReserved, SpareSlot;
    RecordFollows(s, s, actor, action, intentId, at);
    RecordAppends(s, actor, action, intentId, at);
    RecordKeepsIntents(s, actor, action, intentId, at);
    EntryTakesSlot(s, Record(s, actor, action, intentId, at).value, at);
  }

  lemma CompletedHandoffReserve(s: TreasuryState, id: Id, env: Env)
    requires Sound(s, env.nextId) && SlotsReserved(s)
    requires Handle(s, CompleteHandoffRequest(id), env).Accept? && Plan(s, CompleteHandoffRequest(id), env).value.Write?
    ensures SlotsReserved(Handle(s, CompleteHandoffRequest(id), env).state)
  {
    hide Sound, Record, LogFollows, Moved, Owed, Used, SlotsReserved;
    var s' := Handle(s, CompleteHandoffRequest(id), env).state;
    WriteIsOneStep(s, CompleteHandoffRequest(id), env);
    MovedIntents(s, s', id, env.at);
    DischargeKeepsReserve(s, s', id, env.at);
  }

  lemma ReconciliationReserve(s: TreasuryState, request: Request, env: Env)
    requires Sound(s, env.nextId) && SlotsReserved(s) && request.ReconcileRequest?
    requires Handle(s, request, env).Accept? && Plan(s, request, env).value.Write?
    ensures SlotsReserved(Handle(s, request, env).state) <==> (Unreserved(s, request) ==> SpareSlot(s))
  {
    hide Sound, Plan, Record, LogFollows, Moved, Owed, Used;
    var s', id := Handle(s, request, env).state, request.intent;
    WriteIsOneStep(s, request, env);
    MovedIntents(s, s', id, env.at);
    MovedSlots(s, s', id, env.at);
    assert s.intents[id].state.Uncertain() || s.intents[id].state.Settled? by {
      ReconciledFrom(s, request, env);
    }
  }

  lemma ReconciledFrom(s: TreasuryState, request: Request, env: Env)
    requires request.ReconcileRequest? && Plan(s, request, env).Ok?
    ensures request.intent in s.intents
    ensures s.intents[request.intent].state.Uncertain() || s.intents[request.intent].state.Settled?
  {
    hide ReconcileEffect;
  }

  /** The exact account of a request: the reserve survives unless the request takes a slot when none is left over. */
  lemma HandleReserveExactly(s: TreasuryState, request: Request, env: Env)
    requires Sound(s, env.nextId) && SlotsReserved(s) && !Handle(s, request, env).Reject?
    ensures SlotsReserved(Handle(s, request, env).state) <==> (TakesSpareSlot(s, request, env) ==> SpareSlot(s))
  {
    hide Sound, Plan, Owed, Used, SlotsReserved, SpareSlot, Record, Unreserved;
    match Plan(s, request, env).value
    case Unchanged =>
    case Limit(agent) =>
      ThrottledRequest(s, request, env);
      ThrottleReserve(s, agent, env.at);
    case Write(_, _, _, _) =>
      UnreservedRequests(s, request);
      if request.BeginHandoffRequest? {
        HandoffReserve(s, request, env);
      } else {
        match request
        case ReconcileRequest(_, _, _) => ReconciliationReserve(s, request, env);
        case EmergencyStopRequest(stopped) => SwitchReserve(s, stopped, env);
        case CompleteHandoffRequest(id) => CompletedHandoffReserve(s, id, env);
        case _ => OrdinaryReserve(s, request, env);
      }
  }

  lemma UnreservedRequests(s: TreasuryState, request: Request)
    ensures Ordinary(request) ==> Unreserved(s, request)
    ensures Unreserved(s, request) ==> Ordinary(request) || request.ReconcileRequest?
  {
  }

  lemma ThrottledRequest(s: TreasuryState, request: Request, env: Env)
    requires Plan(s, request, env).Ok? && Plan(s, request, env).value.Limit?
    ensures Unreserved(s, request)
  {
    hide Prepare, Reconcile, Decide, UsageOf;
  }

  // ----- events -----

  ghost predicate AllReserved(w: World) {
    forall s :: s in States(w) ==> SlotsReserved(s)
  }

  /**
   The one demand on a run: a request that is about to write an entry nobody reserved finds a spare slot, or, if
   the entry is ordinary, no more than the safety margin is owed.
   */
  ghost predicate LeavesRoom(w: World, e: Event) {
    w.memory.Some? && e.Call? ==>
      var s, env := w.memory.value, Env(w.clock + e.wait, e.lag, w.supply, e.verdict);
      TakesSpareSlot(s, e.request, env) && !Handle(s, e.request, env).Reject? ==>
        SpareSlot(s) || (Ordinary(e.request) && Owed(s.intents) <= AUDIT_SAFETY_RESERVE)
  }

  /** Ordinary entries are refused before they could touch the last of what is owed. */
  lemma OrdinaryFindsRoom(s: TreasuryState, request: Request, env: Env)
    requires Sound(s, env.nextId) && Ordinary(request) && Plan(s, request, env).Ok? && !Plan(s, request, env).value.Unchanged?
    requires !Handle(s, request, env).Reject? && Owed(s.intents) <= AUDIT_SAFETY_RESERVE
    ensures SpareSlot(s)
  {
    hide Sound, Plan, Owed, Used, EmergencyCount, Seal;
    if Plan(s, request, env).value.Write? {
      OrdinaryAction(s, request, env);
      DraftKeepsLog(s, request, env);
    }
  }

  lemma CallKeepsReserve(w: World, e: Event)
    requires WorldSound(w) && AllReserved(w) && w.memory.Some? && e.Call? && LeavesRoom(w, e)
    ensures var step := Handle(w.memory.value, e.request, Env(w.clock + e.wait, e.lag, w.supply, e.verdict));
            !step.Reject? ==> SlotsReserved(step.state)
  {
    hide Sound, Loadable, Handle, Plan, Owed, Used, SlotsReserved, SpareSlot, Ordinary, Unreserved;
    var s, env := w.memory.value, Env(w.clock + e.wait, e.lag, w.supply, e.verdict);
    assert s in States(w);
    if !Handle(s, e.request, env).Reject? {
      HandleReserveExactly(s, e.request, env);
      if TakesSpareSlot(s, e.request, env) && !SpareSlot(s) {
        OrdinaryFindsRoom(s, e.request, env);
      }
    }
  }

  /** An attempt comes to rest within what its execution owed. */
  lemma RestKeepsReserve(prepared: TreasuryState, attempt: Attempt, id: Id, supply: Id, at: int)
    requires Lands(prepared, attempt, id, supply, at) && SlotsReserved(prepared)
    requires id in prepared.intents && prepared.intents[id].state.Executing?
    ensures SlotsReserved(Resting(attempt, id, at).state)
  {
    hide Moved, Resting, SlotsReserved, ReceiptSound, StartsLawfully, MoveEvents, SameIdentity, Administered, Introduced, Credited,
         Reconfigured, LogFollows;
    var rest := Resting(attempt, id, at).state;
    MovedFrame(prepared, rest, id, at);
    DischargeKeepsReserve(prepared, rest, id, at);
  }

  lemma ExecuteKeepsReserve(s: TreasuryState, e: Event, at: int, supply: Id, s': TreasuryState)
    requires e.Execute? && ExecutePrepares(s, e, at) && Sound(s, supply) && Loadable(s) && 0 <= at
    requires s' == ExecutePrepared(s, e, at) || s' == Resting(ExecuteAttempt(s, e, at, supply), e.intent, at + e.lag).state
    ensures SlotsReserved(s')
  {
    hide Sound, Loadable, Booked, Prepare, Complete, Ready, Lands, Resting, SlotsReserved;
    SoundIsBooked(s, supply);
    PrepareKeepsReserve(s, e.caller.id, e.intent, at, e.verdict);
    var prepared := ExecutePrepared(s, e, at);
    if s' != prepared {
      ExecuteIsReady(s, e, at, supply);
      ReadyFacts(s, prepared, e.caller.id, e.intent, supply, at);
      ExecuteLands(s, e, at, supply);
      RestKeepsReserve(prepared, ExecuteAttempt(s, e, at, supply), e.intent, supply, at + e.lag);
    }
  }

  lemma PreparedCheckoutRoom(s: TreasuryState, e: Event, at: int, supply: Id)
    requires e.Checkout? && CheckoutPrepares(s, e, at) && Sound(s, supply)
    ensures SlotsReserved(CheckoutPrepared(s, e, at)) && SpareSlot(CheckoutPrepared(s, e, at))
  {
    hide Sound, Booked, Prepare, Used, Owed;
    SoundIsBooked(s, supply);
    PrepareKeepsReserve(s, s.intents[e.intent].agentId, e.intent, at, e.verdict);
  }

  lemma HandedKeepsReserve(s: TreasuryState, e: Event, at: int, supply: Id)
    requires e.Checkout? && CheckoutPrepares(s, e, at) && Sound(s, supply) && Handed(s, e, at).Ok?
    ensures SlotsReserved(Handed(s, e, at).value)
  {
    hide Sound, Prepare, SpareSlot, SlotsReserved, CheckoutPrepares, Record;
    PreparedCheckoutRoom(s, e, at, supply);
    HandoffActionIsOrdinaryOrSafe(e.caller);
    EntryKeepsReserve(CheckoutPrepared(s, e, at), HandoffActor(e.caller), HandoffAction(e.caller), Some(e.intent), at);
  }

  lemma CheckoutKeepsReserve(s: TreasuryState, e: Event, at: int, supply: Id, s': TreasuryState)
    requires e.Checkout? && CheckoutPrepares(s, e, at) && Sound(s, supply) && Loadable(s) && 0 <= at
    requires Handed(s, e, at).Ok? && e.intent in Handed(s, e, at).value.intents
    requires var handed := Handed(s, e, at).value;
             s' == handed || s' == Resting(CheckoutAttempt(handed, e.intent, e.answer, at + e.lag), e.intent, at + e.lag).state
    ensures SlotsReserved(s')
  {
    hide Sound, Loadable, Ready, Lands, Resting, SlotsReserved, CheckoutPrepares, CheckoutAttempt, Handed;
    var handed := Handed(s, e, at).value;
    HandedKeepsReserve(s, e, at, supply);
    if s' != handed {
      HandedKeepsReady(s, e, at, supply);
      ReadyFacts(s, handed, s.intents[e.intent].agentId, e.intent, supply, at);
      HandedLands(s, e, at, supply);
      RestKeepsReserve(handed, CheckoutAttempt(handed, e.intent, e.answer, at + e.lag), e.intent, supply, at + e.lag);
    }
  }

  lemma RestartKeepsReserve(image: TreasuryState, supply: Id, at: int, s': TreasuryState)
    requires Sound(image, supply) && SlotsReserved(image) && Recover(image, at) == Ok(s')
    ensures SlotsReserved(s')
  {
    hide Sound, Booked, SlotsReserved, Recover;
    SoundIsBooked(image, supply);
    RecoverSucceeds(image, at);
  }

  lemma NewStateIsReserved(w: World, e: Event, s': TreasuryState)
    requires WorldSound(w) && AllReserved(w) && LeavesRoom(w, e)
    requires s' in Left(Serve(w, e)) && s' !in States(w)
    ensures SlotsReserved(s')
  {
    hide Sound, Loadable, SlotsReserved, LeavesRoom, ServeCall, ServeExecute, ServeCheckout, ServeRestart, Handle, Handed, CheckoutPrepares,
         ExecutePrepares, ExecutePrepared, ExecuteAttempt, CheckoutPrepared, CheckoutAttempt, Resting, Recover;
    var at := w.clock + e.Wait();
    match e
    case Crash =>
    case Restart(_, image, fault) =>
      RestartLeaves(image, w.disk, at, fault, s');
      assert image in States(w);
      RestartKeepsReserve(image, w.supply, at, s');
    case Call(_, lag, caller, request, verdict, fault) =>
      CallLeaves(w.memory.value, w.disk, caller, request, Env(at, lag, w.supply, verdict), fault, s');
      CallKeepsReserve(w, e);
    case Execute(_, _, _, _, _, _, _, _) =>
      assert w.memory.value in States(w);
      ExecuteLeaves(w.memory.value, w.disk, e, at, w.supply, s');
      ExecuteKeepsReserve(w.memory.value, e, at, w.supply, s');
    case Checkout(_, _, _, _, _, _, _, _, _, _) =>
      assert w.memory.value in States(w);
      CheckoutLeaves(w.memory.value, w.disk, e, at, s');
      if Handed(w.memory.value, e, at).Ok? {
        CheckoutKeepsReserve(w.memory.value, e, at, w.supply, s');
      } else {
        PreparedCheckoutRoom(w.memory.value, e, at, w.supply);
      }
  }

  lemma NextKeepsReserve(w: World, e: Event)
    requires WorldSound(w) && AllReserved(w) && LeavesRoom(w, e)
    ensures AllReserved(Next(w, e))
  {
    hide WorldSound, SlotsReserved, LeavesRoom, Serve;
    assert States(Next(w, e)) == Left(Serve(w, e));
    forall s' | s' in States(Next(w, e))
      ensures SlotsReserved(s')
    {
      if s' !in States(w) {
        NewStateIsReserved(w, e, s');
      }
    }
  }

  /** The slots owed stay reserved in every state of every run that leaves them room. */
  lemma {:induction false} ReserveHolds(w: World, events: seq<Event>)
    requires Initial(w) && 0 <= w.clock
    requires forall n :: 0 <= n < |events| ==> LeavesRoom(Run(w, events[..n]), events[n])
    ensures AllReserved(Run(w, events))
  {
    hide WorldSound, AllReserved, LeavesRoom, Next, Initial;
    InitialIsSound(w);
    if |events| == 0 {
      InitialIsReserved(w);
    } else {
      var prefix := events[..|events| - 1];
      forall n | 0 <= n < |prefix|
        ensures LeavesRoom(Run(w, prefix[..n]), prefix[n])
      {
        assert prefix[..n] == events[..n];
      }
      ReserveHolds(w, prefix);
      RunKeepsWorldSound(w, prefix);
      NextKeepsReserve(Run(w, prefix), events[|events| - 1]);
    }
  }

  lemma InitialIsReserved(w: World)
    requires Initial(w)
    ensures AllReserved(w)
  {
    hide Bootstrap;
    var balance: Money, at: int :| at <= w.clock && Bootstrap(balance, at).Ok?
         && w.memory == Some(Bootstrap(balance, at).value) && w.disk == {Bootstrap(balance, at).value};
    BootstrapShape(balance, at);
    assert Owed(map[]) == 0;
  }

  // ----- what the reserve guarantees -----

  lemma {:induction false} RecoverAllKeepsOffice(s: TreasuryState, ids: seq<Id>, at: int)
    requires AllExecuting(s, ids) && RecoverAll(s, ids, at).Ok?
    ensures SameOffice(s, RecoverAll(s, ids, at).value)
    decreases |ids|
  {
    hide RecoverOne, AllExecuting;
    if |ids| > 0 {
      RecoverAllUnfolds(s, ids, at);
      RecoverOneKeepsOffice(s, ids[0], at);
      RecoverAllKeepsOffice(RecoverOne(s, ids[0], at).value, ids[1..], at);
    }
  }

  lemma RecoverOneKeepsOffice(s: TreasuryState, id: Id, at: int)
    requires id in s.intents && RecoverOne(s, id, at).Ok?
    ensures SameOffice(s, RecoverOne(s, id, at).value)
  {
    hide CapacityAllows, Seal;
  }

  /** A recovered state can always be saved. */
  lemma RecoveredLoads(s: TreasuryState, at: int, supply: Id)
    requires Sound(s, supply) && Loadable(s) && 0 <= at && Recover(s, at).Ok?
    ensures Loadable(Recover(s, at).value)
  {
    hide Sound, Loadable, RecoverAll, Reaches, AllExecuting, Interrupted;
    LaterSupply(s, supply, NextId(supply) + 1);
    RecoverLeads(s, at, supply);
    var s' := Recover(s, at).value;
    var steps: nat :| Reaches(s, s', supply, at, at, steps);
    ReachesKeepsSound(s, s', supply, at, at, steps);
    InterruptedRise(s);
    RecoverAllKeepsOffice(s, Ascending(Interrupted(s.intents)), at);
    ChainKeepsLoadable(s, s', NextId(supply) + 1);
  }

  /** A restart comes up exactly when the log has a slot for every interrupted execution. */
  lemma RestartsExactly(image: TreasuryState, disk: set<TreasuryState>, at: int, supply: Id)
    requires Sound(image, supply) && Loadable(image) && 0 <= at
    ensures ServeRestart(image, disk, at, Durable).memory.Some?
       <==> Interrupted(image.intents) == {} || Used(image.audit) + |Interrupted(image.intents)| <= MAX_AUDIT_ENTRIES
  {
    hide Sound, Loadable, Recover, Used, Interrupted;
    RecoverSucceedsExactly(image, at);
    if Recover(image, at).Ok? {
      RecoveredLoads(image, at, supply);
    }
  }

  /** The recovery of every image on disk needs more slots than the log has. */
  ghost predicate Unrecoverable(w: World) {
    && w.memory.None?
    && forall s :: s in w.disk ==>
         Interrupted(s.intents) != {} && Used(s.audit) + |Interrupted(s.intents)| > MAX_AUDIT_ENTRIES
  }

  /** Then the broker never comes up again, whatever is tried. */
  lemma {:induction false} StaysDown(w: World, events: seq<Event>)
    requires Unrecoverable(w)
    ensures Unrecoverable(Run(w, events)) && Run(w, events).disk == w.disk
  {
    hide Unrecoverable, Next;
    if |events| > 0 {
      StaysDown(w, events[..|events| - 1]);
      NextStaysDown(Run(w, events[..|events| - 1]), events[|events| - 1]);
    }
  }

  lemma NextStaysDown(w: World, e: Event)
    requires Unrecoverable(w)
    ensures Unrecoverable(Next(w, e)) && Next(w, e).disk == w.disk
  {
    hide Loadable, Recover, Used, Interrupted;
    if e.Restart? && e.image in w.disk {
      RecoverSucceedsExactly(e.image, w.clock + e.wait);
    }
  }

  /** The completion of a manual handoff is logged whenever the reserve is in place. */
  lemma CompletionIsLogged(s: TreasuryState, id: Id, env: Env)
    requires SlotsReserved(s) && s.mode.ManualPrepaidCard? && id in s.intents && s.intents[id].state.Executing?
    ensures Handle(s, CompleteHandoffRequest(id), env).Accept?
  {
    hide SlotsReserved, SafetySlot, Record;
    IndebtedHasSlot(s, id);
    var w := CompleteHandoff(s, id, env).value.state;
    SlotOfLog(s, w);
    SlotAdmits(w, Owner, CompleteManualHandoff, Some(id), env.at);
  }

  /** So is the reconciliation of an uncertain intent, once its outcome is allowed. */
  lemma ReconciliationIsLogged(s: TreasuryState, id: Id, outcome: ReconciliationOutcome, reference: Option<Id>, env: Env)
    requires Booked(s) && SlotsReserved(s) && id in s.intents && s.intents[id].state.Uncertain()
    requires ReconcileAllowed(s, id, outcome, reference) && !env.verdict.malformed
    ensures Handle(s, ReconcileRequest(id, outcome, reference), env).Accept?
  {
    hide Booked, SlotsReserved, Reconcile, ReconcileAllowed, Record;
    ReconcileIsLogged(s, id, outcome, reference, env.at, env.nextId);
  }

  /**
   Along every run that leaves room, no image is unrecoverable, and neither the completion of a handoff nor
   an allowed reconciliation of an uncertain intent is refused.
   */
  lemma MoneyStepsAreNeverRefused(w: World, events: seq<Event>, s: TreasuryState, at: int, env: Env)
    requires Initial(w) && 0 <= w.clock && s in States(Run(w, events)) && 0 <= at
    requires forall n :: 0 <= n < |events| ==> LeavesRoom(Run(w, events[..n]), events[n])
    ensures ServeRestart(s, Run(w, events).disk, at, Durable).memory.Some?
    ensures forall id :: id in s.intents && s.mode.ManualPrepaidCard? && s.intents[id].state.Executing? ==>
              Handle(s, CompleteHandoffRequest(id), env).Accept?
    ensures forall id, outcome, reference ::
              (id in s.intents && s.intents[id].state.Uncertain() && ReconcileAllowed(s, id, outcome, reference)
               && !env.verdict.malformed) ==> Handle(s, ReconcileRequest(id, outcome, reference), env).Accept?
  {
    hide Sound, Loadable, Booked, SlotsReserved, ReconcileAllowed, Handle, LeavesRoom, Next, Initial, ServeRestart, Recover, Used, Interrupted;
    ReserveHolds(w, events);
    InitialIsSound(w);
    RunKeepsWorldSound(w, events);
    SoundIsBooked(s, Run(w, events).supply);
    RecoverSucceeds(s, at);
    RecoverSucceedsExactly(s, at);
    RestartsExactly(s, Run(w, events).disk, at, Run(w, events).supply);
    forall id | id in s.intents && s.mode.ManualPrepaidCard? && s.intents[id].state.Executing?
      ensures Handle(s, CompleteHandoffRequest(id), env).Accept?
    {
      CompletionIsLogged(s, id, env);
    }
    forall id, outcome, reference |
      id in s.intents && s.intents[id].state.Uncertain() && ReconcileAllowed(s, id, outcome, reference) && !env.verdict.malformed
      ensures Handle(s, ReconcileRequest(id, outcome, reference), env).Accept?
    {
      ReconciliationIsLogged(s, id, outcome, reference, env);
    }
  }
}
