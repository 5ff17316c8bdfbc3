/** What each event can leave behind, state by state, and which intents, deposits and audit debts that can change. */
module Effects {
  import opened Results
  import opened Records
  import opened AuditLog
  import opened Budget
  import opened Execution
  import opened Requests
  import opened Storage
  import opened Daemon
  import opened MoneyInvariant
  import opened Steps
  import opened Safety
  import opened Invariant
  import opened Operations
  import opened Reconciliation
  import opened RequestSteps
  import opened Serving
  import opened Runs

  // ----- the states an event can leave -----

  lemma CallLeaves(s: TreasuryState, disk: set<TreasuryState>, caller: Caller, request: Request, env: Env, fault: SaveFault,
                   s': TreasuryState)
    requires s' in Left(ServeCall(s, disk, caller, request, env, fault)) && s' !in disk && s' != s
    ensures !Handle(s, request, env).Reject? && s' == Handle(s, request, env).state
    ensures Authenticated(s, caller, env.at) && Permitted(caller, request)
  {
    hide Handle, Loadable;
  }

  /** The prepared state, and the attempt brought to rest. */
  lemma SubmissionLeaves(prepared: TreasuryState, fallback: TreasuryState, disk: set<TreasuryState>, e: Event, attempt: Attempt,
                         later: int, s': TreasuryState)
    requires e.Execute? || e.Checkout?
    requires s' in Left(SaveThenSubmit(prepared, fallback, disk, e, attempt, later)) && s' !in disk
    ensures s' == fallback || s' == prepared || s' == Resting(attempt, e.intent, later).state
  {
    hide Loadable, Quarantine;
  }

  ghost function ExecutePrepared(s: TreasuryState, e: Event, at: int): TreasuryState
    requires e.Execute? && ExecutePrepares(s, e, at)
  {
    Prepare(s, e.caller.id, e.intent, at, e.verdict).value
  }

  ghost function ExecuteAttempt(s: TreasuryState, e: Event, at: int, supply: Id): Attempt
    requires e.Execute? && ExecutePrepares(s, e, at)
  {
    Complete(ExecutePrepared(s, e, at), e.caller.id, e.intent, at + e.lag, supply)
  }

  lemma ExecuteLeaves(s: TreasuryState, disk: set<TreasuryState>, e: Event, at: int, supply: Id, s': TreasuryState)
    requires e.Execute? && s' in Left(ServeExecute(s, disk, e, at, supply)) && s' !in disk && s' != s
    ensures ExecutePrepares(s, e, at)
    ensures s' == ExecutePrepared(s, e, at) || s' == Resting(ExecuteAttempt(s, e, at, supply), e.intent, at + e.lag).state
  {
    hide Prepare, Complete, SaveThenSubmit, Resting, ExecutePrepares, ServeExecute;
    ExecuteShape(s, disk, e, at, supply);
    if ExecutePrepares(s, e, at) {
      SubmissionLeaves(ExecutePrepared(s, e, at), s, disk, e, ExecuteAttempt(s, e, at, supply), at + e.lag, s');
    }
  }

  ghost function CheckoutPrepared(s: TreasuryState, e: Event, at: int): TreasuryState
    requires e.Checkout? && CheckoutPrepares(s, e, at)
  {
    Prepare(s, s.intents[e.intent].agentId, e.intent, at, e.verdict).value
  }

  lemma CheckoutLeaves(s: TreasuryState, disk: set<TreasuryState>, e: Event, at: int, s': TreasuryState)
    requires e.Checkout? && s' in Left(ServeCheckout(s, disk, e, at)) && s' !in disk && s' != s
    ensures CheckoutPrepares(s, e, at)
    ensures Handed(s, e, at).Err? ==> s' == CheckoutPrepared(s, e, at)
    ensures Handed(s, e, at).Ok? ==>
              var handed := Handed(s, e, at).value;
              && e.intent in handed.intents
              && (s' == handed || s' == Resting(CheckoutAttempt(handed, e.intent, e.answer, at + e.lag), e.intent, at + e.lag).state)
  {
    hide Prepare, CheckoutAttempt, SaveThenSubmit, Resting, CheckoutPrepares, ServeCheckout, Record;
    CheckoutShape(s, disk, e, at);
    if CheckoutPrepares(s, e, at) && Handed(s, e, at).Ok? {
      var handed := Handed(s, e, at).value;
      SubmissionLeaves(handed, handed, disk, e, CheckoutAttempt(handed, e.intent, e.answer, at + e.lag), at + e.lag, s');
    }
  }

  lemma RestartLeaves(image: TreasuryState, disk: set<TreasuryState>, at: int, fault: SaveFault, s': TreasuryState)
    requires s' in Left(ServeRestart(image, disk, at, fault)) && s' !in disk && s' != image
    ensures Recover(image, at) == Ok(s')
  {
    hide Recover, Loadable;
  }

  // ----- requests of one step -----

  /** A written request other than a handoff is one step of its own kind, closed by the entry it drafted. */
  lemma WriteIsOneStep(s: TreasuryState, request: Request, env: Env)
    requires Sound(s, env.nextId) && !request.BeginHandoffRequest? && Handle(s, request, env).Accept?
    requires Plan(s, request, env).value.Write?
    ensures var s' := Handle(s, request, env).state;
            && LogFollows(s, s', env.at) && s'.audit != s.audit
            && s'.audit[|s.audit|].body.action == Plan(s, request, env).value.action
            && (if request.ReconcileRequest?
                then Moved(s, s', request.intent, env.at) && s'.intents[request.intent].state == OutcomeOf(request.outcome)
                else OfKind(s, s', request, env))
  {
    hide Sound, Plan, LogFollows, Moved, OfKind, Elementary, Booked, Record;
    SoundIsBooked(s, env.nextId);
    var draft := Plan(s, request, env).value;
    if request.ReconcileRequest? {
      PlannedReconciliation(s, request, env);
      ReconcileIsElementary(s, request.intent, request.outcome, request.reference, env.verdict.malformed, env.at, env.nextId,
                            Owner, env.nextId);
    } else {
      DraftCloses(s, request, env);
    }
    DraftKeepsLog(s, request, env);
    RecordAppends(draft.state, draft.actor, draft.action, draft.intentId, env.at);
  }

  lemma RecordAppends(s: TreasuryState, actor: Actor, action: AuditAction, intentId: Option<Id>, at: int)
    requires Record(s, actor, action, intentId, at).Ok?
    ensures var s' := Record(s, actor, action, intentId, at).value;
            |s'.audit| == |s.audit| + 1 && s'.audit[|s.audit|].body.action == action
  {
    hide CapacityAllows, Used, EmergencyCount;
  }

  lemma DraftKeepsLog(s: TreasuryState, request: Request, env: Env)
    requires Sound(s, env.nextId) && !request.BeginHandoffRequest? && Plan(s, request, env).Ok? && Plan(s, request, env).value.Write?
    ensures Plan(s, request, env).value.state.audit == s.audit
  {
    hide Sound, Booked, BeginHandoff, Reconcile, RecordDepositStep, Decide, UsageOf, SnapshotOf;
    SoundIsBooked(s, env.nextId);
    match request
    case ReconcileRequest(id, outcome, reference) =>
      PlannedReconciliation(s, request, env);
      ReconcileTouchesNoLog(s, id, outcome, reference, env.verdict.malformed, env.at, env.nextId);
    case DepositRequest(external, details) => DepositKeepsLog(s, external, details, env);
    case _ =>
  }

  lemma ReconcileTouchesNoLog(s: TreasuryState, id: Id, outcome: ReconciliationOutcome, reference: Option<Id>, malformed: bool,
                              at: int, nextId: Id)
    requires Booked(s) && Reconcile(s, id, outcome, reference, malformed, at, nextId).Ok?
    ensures Reconcile(s, id, outcome, reference, malformed, at, nextId).value.audit == s.audit
  {
    hide Booked, ReconcileEffect, MoveEvents, ReceiptSound, SameIdentity, BalancesFollow;
    ReopenShape(s.intents[id], at, outcome);
    EffectReconciles(s, id, Reopen(s.intents[id], at).value, outcome, reference, at, nextId);
  }

  lemma DepositKeepsLog(s: TreasuryState, reference: nat, d: DepositDetails, env: Env)
    requires RecordDepositStep(s, reference, d, env).Ok? && RecordDepositStep(s, reference, d, env).value.Write?
    ensures RecordDepositStep(s, reference, d, env).value.state.audit == s.audit
  {
    hide Reinvested, CreditProvider, AppendIncome, IncomeBooked, IncomeEvents;
    CreditProviderBooks(s, d);
    IncomeAppends(CreditProvider(s, d).value, d, Reinvested(s, d).value, env.at);
  }

  // ----- which intents begin, and which deposits are new -----

  /** Only the named intent may have begun. */
  ghost predicate OnlyBegins(s: TreasuryState, s': TreasuryState, named: Option<Id>) {
    forall id: Id :: Begun(s', id) ==> Begun(s, id) || Some(id) == named
  }

  predicate SameDeposits(s: TreasuryState, s': TreasuryState) {
    s'.deposits == s.deposits
  }

  lemma MovedBegins(s: TreasuryState, s': TreasuryState, id: Id, at: int)
    requires Moved(s, s', id, at)
    ensures OnlyBegins(s, s', if s'.intents[id].state.Executing? then Some(id) else None) && SameDeposits(s, s')
  {
    hide Moved, ReceiptSound, StartsLawfully, MoveEvents, SameIdentity;
    MovedFrame(s, s', id, at);
  }

  /** What a request of one step begins and records: nothing, except that a deposit is recorded. */
  lemma WriteBeginsNothing(s: TreasuryState, request: Request, env: Env)
    requires Sound(s, env.nextId) && !request.BeginHandoffRequest? && Handle(s, request, env).Accept?
    requires Plan(s, request, env).value.Write?
    ensures var s' := Handle(s, request, env).state;
            && OnlyBegins(s, s', None)
            && (if request.DepositRequest? then s'.deposits == s.deposits[request.external := request.details] else SameDeposits(s, s'))
  {
    hide Sound, Handle, Plan, LogFollows, Moved, Introduced, Administered, Credited, Reconfigured, Reinvested, OnlyBegins;
    var s' := Handle(s, request, env).state;
    WriteIsOneStep(s, request, env);
    match request
    case ReconcileRequest(id, _, _) => MovedBegins(s, s', id, env.at);
    case CreateIntentRequest(_, _) => IntroducedBegins(s, s', env.nextId);
    case CancelRequest(_, id) => MovedBegins(s, s', id, env.at);
    case ApproveRequest(id) => MovedBegins(s, s', id, env.at);
    case DenyRequest(id) => MovedBegins(s, s', id, env.at);
    case CompleteHandoffRequest(id) => MovedBegins(s, s', id, env.at);
    case DepositRequest(external, details) =>
      CreditedFrame(s, s', external, Reinvested(s, details).value, env.at);
      SameIntentsBegin(s, s');
    case ConfigureManualRequest(_, _, _, _) =>
      ReconfiguredFrame(s, s');
      SameIntentsBegin(s, s');
    case _ => AdministeredBegins(s, s', env.nextId, env.at);
  }

  lemma SameIntentsBegin(s: TreasuryState, s': TreasuryState)
    requires s'.intents == s.intents
    ensures OnlyBegins(s, s', None)
  {
  }

  lemma IntroducedBegins(s: TreasuryState, s': TreasuryState, id: Id)
    requires Introduced(s, s', id)
    ensures OnlyBegins(s, s', None) && SameDeposits(s, s')
  {
    IntroducedFrame(s, s', id);
    assert s'.intents[id].state.NeverReserved();
    hide Introduced;
  }

  lemma AdministeredBegins(s: TreasuryState, s': TreasuryState, supply: Id, at: int)
    requires Administered(s, s', supply, at)
    ensures s'.intents == s.intents && OnlyBegins(s, s', None) && SameDeposits(s, s')
  {
    hide AgentsFollow;
  }

  lemma HandoffEffect(s: TreasuryState, request: Request, env: Env)
    requires request.BeginHandoffRequest? && !Handle(s, request, env).Reject?
    ensures BeginHandoff(s, request.intent, env).Ok?
    ensures var s', prepared := Handle(s, request, env).state, BeginHandoff(s, request.intent, env).value.state;
            && prepared == Prepare(s, s.intents[request.intent].agentId, request.intent, env.at, env.verdict).value
            && Record(prepared, Owner, BeginManualHandoff, Some(request.intent), env.at) == Ok(s')
  {
    hide Prepare, Record;
  }

  /** A preparation begins the one intent it is for, and records no deposit. */
  lemma PreparationBegins(s: TreasuryState, agent: Id, id: Id, at: int, verdict: Verdict)
    requires Prepare(s, agent, id, at, verdict).Ok?
    ensures var s' := Prepare(s, agent, id, at, verdict).value;
            OnlyBegins(s, s', Some(id)) && SameDeposits(s, s')
  {
    hide Prepare, Decide;
    PrepareShape(s, agent, id, at, verdict);
  }

  lemma EntryBeginsNothing(s: TreasuryState, actor: Actor, action: AuditAction, intentId: Option<Id>, at: int)
    requires Record(s, actor, action, intentId, at).Ok?
    ensures var s' := Record(s, actor, action, intentId, at).value;
            s'.intents == s.intents && SameDeposits(s, s')
  {
    hide CapacityAllows, Seal;
  }

  // ----- events -----

  /** The event reserves funds for an intent of `agent`: an execution, a checkout or a handoff whose preparation succeeds. */
  ghost predicate Reserves(w: World, e: Event, agent: Id) {
    w.memory.Some?
    && var s, at := w.memory.value, w.clock + e.Wait();
       match e
       case Execute(_, _, caller, _, _, _, _, _) => ExecutePrepares(s, e, at) && caller.id == agent
       case Checkout(_, _, _, intent, _, _, _, _, _, _) => CheckoutPrepares(s, e, at) && s.intents[intent].agentId == agent
       case Call(_, lag, _, request, verdict, _) =>
         request.BeginHandoffRequest? && BeginHandoff(s, request.intent, Env(at, lag, w.supply, verdict)).Ok?
         && s.intents[request.intent].agentId == agent
       case _ => false
  }

  /** The event is an accepted deposit of `d` under a new reference. */
  ghost predicate Deposits(w: World, e: Event, reference: nat, d: DepositDetails) {
    && w.memory.Some? && e.Call? && e.request == DepositRequest(reference, d) && reference !in w.memory.value.deposits
    && Handle(w.memory.value, e.request, Env(w.clock + e.wait, e.lag, w.supply, e.verdict)).Accept?
  }

  /** What an event may change between the state it starts from and one it leaves. */
  ghost predicate Changes(w: World, e: Event, s: TreasuryState, s': TreasuryState) {
    && (forall agent: Id :: Begins(s, s', agent) ==> Reserves(w, e, agent))
    && (forall r: nat :: r in s'.deposits && r !in s.deposits ==> Deposits(w, e, r, s'.deposits[r]))
  }

  /** A state that differs from its origin by one begun intent of a reserving event, or by nothing. */
  lemma BeginningChanges(w: World, e: Event, s: TreasuryState, s': TreasuryState, named: Option<Id>)
    requires OnlyBegins(s, s', named) && SameDeposits(s, s')
    requires named.Some? && named.value in s'.intents ==> Reserves(w, e, s'.intents[named.value].agentId)
    ensures Changes(w, e, s, s')
  {
    hide Begun, Reserves;
  }

  lemma BeginsOnlyIn(s: TreasuryState, mid: TreasuryState, s': TreasuryState, named: Option<Id>)
    requires OnlyBegins(s, mid, named) && SameDeposits(s, mid) && OnlyBegins(mid, s', None) && SameDeposits(mid, s')
    ensures OnlyBegins(s, s', named) && SameDeposits(s, s')
  {
    hide Begun;
  }

  lemma NothingChanges(w: World, e: Event, s: TreasuryState)
    ensures Changes(w, e, s, s)
  {
    hide Begun, Reserves, Deposits;
  }

  lemma CallChanges(w: World, e: Event, s': TreasuryState)
    requires WorldSound(w) && w.memory.Some? && e.Call?
    requires s' in Left(Serve(w, e)) && s' !in w.disk && s' != w.memory.value
    ensures Changes(w, e, w.memory.value, s')
  {
    hide Sound, Loadable, Handle, Plan, ServeCall, Begun, OnlyBegins, BeginHandoff;
    var s, env := w.memory.value, Env(w.clock + e.wait, e.lag, w.supply, e.verdict);
    assert s in States(w);
    CallLeaves(s, w.disk, e.caller, e.request, env, e.fault, s');
    HandleChanges(w, e, s');
  }

  /** The same for the state a request hands to the save. */
  lemma HandleChanges(w: World, e: Event, s': TreasuryState)
    requires w.memory.Some? && e.Call?
    requires Sound(w.memory.value, w.supply)
    requires var step := Handle(w.memory.value, e.request, Env(w.clock + e.wait, e.lag, w.supply, e.verdict));
             !step.Reject? && step.state == s'
    ensures Changes(w, e, w.memory.value, s')
  {
    hide Sound, Plan, Begun, OnlyBegins, BeginHandoff, Record, Reserves, Deposits, Changes;
    var s, env := w.memory.value, Env(w.clock + e.wait, e.lag, w.supply, e.verdict);
    match Plan(s, e.request, env).value
    case Unchanged => NothingChanges(w, e, s);
    case Limit(agent) =>
      EntryBeginsNothing(s, AgentActor(agent), TransactionRateLimited, None, env.at);
      SameIntentsBegin(s, s');
      BeginningChanges(w, e, s, s', None);
    case Write(_, _, _, _) =>
      if e.request.BeginHandoffRequest? {
        HandoffChanges(w, e, s');
      } else if e.request.DepositRequest? {
        WriteBeginsNothing(s, e.request, env);
        DepositChanges(w, e, s');
      } else {
        WriteBeginsNothing(s, e.request, env);
        BeginningChanges(w, e, s, s', None);
      }
  }

  lemma HandoffBeginsOne(s: TreasuryState, request: Request, env: Env)
    requires request.BeginHandoffRequest? && !Handle(s, request, env).Reject?
    ensures var s', id := Handle(s, request, env).state, request.intent;
            && OnlyBegins(s, s', Some(id)) && SameDeposits(s, s')
            && id in s.intents && id in s'.intents && s'.intents[id].agentId == s.intents[id].agentId
  {
    hide Handle, Prepare, Record, OnlyBegins, SameDeposits;
    HandoffEffect(s, request, env);
    var id, prepared := request.intent, BeginHandoff(s, request.intent, env).value.state;
    PreparationBegins(s, s.intents[id].agentId, id, env.at, env.verdict);
    PreparedIsBegun(s, s.intents[id].agentId, id, env.at, env.verdict);
    EntryBeginsNothing(prepared, Owner, BeginManualHandoff, Some(id), env.at);
    SameIntentsBegin(prepared, Handle(s, request, env).state);
    BeginsOnlyIn(s, prepared, Handle(s, request, env).state, Some(id));
  }

  lemma HandoffChanges(w: World, e: Event, s': TreasuryState)
    requires w.memory.Some? && e.Call? && e.request.BeginHandoffRequest?
    requires var step := Handle(w.memory.value, e.request, Env(w.clock + e.wait, e.lag, w.supply, e.verdict));
             !step.Reject? && step.state == s'
    ensures Changes(w, e, w.memory.value, s')
  {
    hide Handle, BeginHandoff, OnlyBegins, SameDeposits, Changes;
    var s, env := w.memory.value, Env(w.clock + e.wait, e.lag, w.supply, e.verdict);
    HandoffEffect(s, e.request, env);
    HandoffBeginsOne(s, e.request, env);
    BeginningChanges(w, e, s, s', Some(e.request.intent));
  }

  lemma DepositChanges(w: World, e: Event, s': TreasuryState)
    requires w.memory.Some? && e.Call? && e.request.DepositRequest?
    requires Handle(w.memory.value, e.request, Env(w.clock + e.wait, e.lag, w.supply, e.verdict)).Accept?
    requires OnlyBegins(w.memory.value, s', None)
    requires s'.deposits == w.memory.value.deposits[e.request.external := e.request.details]
    ensures Changes(w, e, w.memory.value, s')
  {
    hide Handle, Begun, Reserves;
  }

  /** Whatever an attempt comes to, the intent it is for has already begun. */
  lemma RestBeginsNothing(prepared: TreasuryState, attempt: Attempt, id: Id, supply: Id, at: int)
    requires Lands(prepared, attempt, id, supply, at) && id in prepared.intents && prepared.intents[id].state.Executing?
    ensures var rest := Resting(attempt, id, at).state;
            && OnlyBegins(prepared, rest, None) && SameDeposits(prepared, rest)
            && id in rest.intents && rest.intents[id].agentId == prepared.intents[id].agentId
  {
    hide Moved, Elementary, Resting, ReceiptSound, StartsLawfully, MoveEvents;
    MovedFrame(prepared, Resting(attempt, id, at).state, id, at);
  }

  lemma ReadyFacts(s: TreasuryState, prepared: TreasuryState, agent: Id, id: Id, supply: Id, at: int)
    requires Ready(s, prepared, agent, id, supply, at)
    ensures prepared.mode == s.mode && id in prepared.intents
    ensures prepared.intents[id].state.Executing? && prepared.intents[id].agentId == agent
  {
    hide Sound, Loadable, Leads, Used, EmergencyCount;
  }

  lemma ExecuteIsReady(s: TreasuryState, e: Event, at: int, supply: Id)
    requires e.Execute? && ExecutePrepares(s, e, at) && Sound(s, supply) && Loadable(s) && 0 <= at
    ensures e.caller.AgentCaller? && Ready(s, ExecutePrepared(s, e, at), e.caller.id, e.intent, supply, at)
  {
    hide Sound, Loadable, Prepare, Ready;
    PreparedIsReady(s, e.caller.id, e.intent, at, e.verdict, supply);
  }

  lemma ExecuteLands(s: TreasuryState, e: Event, at: int, supply: Id)
    requires e.Execute? && ExecutePrepares(s, e, at) && Sound(s, supply) && Loadable(s) && 0 <= at
    ensures Lands(ExecutePrepared(s, e, at), ExecuteAttempt(s, e, at, supply), e.intent, supply, at + e.lag)
  {
    hide Sound, Loadable, Prepare, Complete, Ready, Lands;
    ExecuteIsReady(s, e, at, supply);
    ReadyFacts(s, ExecutePrepared(s, e, at), e.caller.id, e.intent, supply, at);
    ReadyCompletes(s, ExecutePrepared(s, e, at), e.caller.id, e.intent, supply, at, at + e.lag, supply);
  }

  lemma ExecuteBegins(s: TreasuryState, e: Event, at: int, supply: Id, s': TreasuryState)
    requires e.Execute? && ExecutePrepares(s, e, at) && Sound(s, supply) && Loadable(s) && 0 <= at
    requires s' == ExecutePrepared(s, e, at) || s' == Resting(ExecuteAttempt(s, e, at, supply), e.intent, at + e.lag).state
    ensures OnlyBegins(s, s', Some(e.intent)) && SameDeposits(s, s')
    ensures e.caller.AgentCaller? && e.intent in s'.intents && s'.intents[e.intent].agentId == e.caller.id
  {
    hide Sound, Loadable, Prepare, Complete, Ready, Lands, OnlyBegins, Resting, SameDeposits;
    ExecuteIsReady(s, e, at, supply);
    var prepared := ExecutePrepared(s, e, at);
    ReadyFacts(s, prepared, e.caller.id, e.intent, supply, at);
    PreparationBegins(s, e.caller.id, e.intent, at, e.verdict);
    if s' != prepared {
      ExecuteLands(s, e, at, supply);
      RestBeginsNothing(prepared, ExecuteAttempt(s, e, at, supply), e.intent, supply, at + e.lag);
      BeginsOnlyIn(s, prepared, s', Some(e.intent));
    }
  }

  lemma ExecuteChanges(w: World, e: Event, s': TreasuryState)
    requires WorldSound(w) && w.memory.Some? && e.Execute?
    requires s' in Left(Serve(w, e)) && s' !in w.disk && s' != w.memory.value
    ensures Changes(w, e, w.memory.value, s')
  {
    hide Sound, Loadable, Prepare, Complete, ServeExecute, OnlyBegins, Changes, Resting, ExecutePrepares, ExecutePrepared, ExecuteAttempt;
    var s, at := w.memory.value, w.clock + e.wait;
    assert s in States(w);
    ExecuteLeaves(s, w.disk, e, at, w.supply, s');
    ExecuteBegins(s, e, at, w.supply, s');
    BeginningChanges(w, e, s, s', Some(e.intent));
  }

  lemma CheckoutIsReady(s: TreasuryState, e: Event, at: int, supply: Id)
    requires e.Checkout? && CheckoutPrepares(s, e, at) && Sound(s, supply) && Loadable(s) && 0 <= at
    ensures s.mode.ManualPrepaidCard? && e.intent in s.intents
    ensures Ready(s, CheckoutPrepared(s, e, at), s.intents[e.intent].agentId, e.intent, supply, at)
    ensures Used(CheckoutPrepared(s, e, at).audit) + 1 < MAX_AUDIT_ENTRIES
  {
    hide Sound, Loadable, Prepare, Ready, Used;
    var agent := s.intents[e.intent].agentId;
    PreparedIsReady(s, agent, e.intent, at, e.verdict, supply);
    PreparedRoom(s, agent, e.intent, at, e.verdict, supply);
  }

  lemma HandoffActionIsOrdinaryOrSafe(caller: Caller)
    ensures !IsEmergency(HandoffAction(caller))
  {
  }

  lemma HandedKeepsReady(s: TreasuryState, e: Event, at: int, supply: Id)
    requires e.Checkout? && CheckoutPrepares(s, e, at) && Sound(s, supply) && Loadable(s) && 0 <= at
    requires Handed(s, e, at).Ok?
    ensures e.intent in s.intents
    ensures Ready(s, Handed(s, e, at).value, s.intents[e.intent].agentId, e.intent, supply, at)
    ensures Handed(s, e, at).value.intents == CheckoutPrepared(s, e, at).intents
    ensures SameDeposits(CheckoutPrepared(s, e, at), Handed(s, e, at).value)
  {
    hide Sound, Loadable, Prepare, Ready, CheckoutPrepares, Record, Used;
    CheckoutIsReady(s, e, at, supply);
    var prepared := CheckoutPrepared(s, e, at);
    HandoffActionIsOrdinaryOrSafe(e.caller);
    HandedIsReady(s, prepared, s.intents[e.intent].agentId, e.intent, supply, at, HandoffActor(e.caller), HandoffAction(e.caller));
    EntryBeginsNothing(prepared, HandoffActor(e.caller), HandoffAction(e.caller), Some(e.intent), at);
  }

  lemma HandedLands(s: TreasuryState, e: Event, at: int, supply: Id)
    requires e.Checkout? && CheckoutPrepares(s, e, at) && Sound(s, supply) && Loadable(s) && 0 <= at
    requires Handed(s, e, at).Ok? && e.intent in Handed(s, e, at).value.intents
    ensures var handed := Handed(s, e, at).value;
            Lands(handed, CheckoutAttempt(handed, e.intent, e.answer, at + e.lag), e.intent, supply, at + e.lag)
  {
    hide Sound, Loadable, Prepare, Ready, CheckoutPrepares, Lands, CheckoutAttempt, Handed, CheckoutPrepared;
    CheckoutIsReady(s, e, at, supply);
    HandedKeepsReady(s, e, at, supply);
    ReadyFacts(s, Handed(s, e, at).value, s.intents[e.intent].agentId, e.intent, supply, at);
    CheckoutLands(s, Handed(s, e, at).value, s.intents[e.intent].agentId, e.intent, supply, at, at + e.lag, e.answer);
  }

  lemma PreparedCheckoutBegins(s: TreasuryState, e: Event, at: int, supply: Id)
    requires e.Checkout? && CheckoutPrepares(s, e, at) && Sound(s, supply) && Loadable(s) && 0 <= at
    ensures var prepared := CheckoutPrepared(s, e, at);
            && OnlyBegins(s, prepared, Some(e.intent)) && SameDeposits(s, prepared)
            && e.intent in s.intents && e.intent in prepared.intents && prepared.intents[e.intent].state.Executing?
            && prepared.intents[e.intent].agentId == s.intents[e.intent].agentId
  {
    hide Sound, Loadable, Prepare, Ready, OnlyBegins, SameDeposits;
    CheckoutIsReady(s, e, at, supply);
    ReadyFacts(s, CheckoutPrepared(s, e, at), s.intents[e.intent].agentId, e.intent, supply, at);
    PreparationBegins(s, s.intents[e.intent].agentId, e.intent, at, e.verdict);
  }

  lemma CheckoutBegins(s: TreasuryState, e: Event, at: int, supply: Id, s': TreasuryState)
    requires e.Checkout? && CheckoutPrepares(s, e, at) && Sound(s, supply) && Loadable(s) && 0 <= at
    requires Handed(s, e, at).Ok? && e.intent in Handed(s, e, at).value.intents
    requires var handed := Handed(s, e, at).value;
             s' == handed || s' == Resting(CheckoutAttempt(handed, e.intent, e.answer, at + e.lag), e.intent, at + e.lag).state
    ensures OnlyBegins(s, s', Some(e.intent)) && SameDeposits(s, s')
    ensures e.intent in s.intents && e.intent in s'.intents && s'.intents[e.intent].agentId == s.intents[e.intent].agentId
  {
    hide Sound, Loadable, Ready, Lands, OnlyBegins, Resting, SameDeposits, CheckoutPrepares, CheckoutAttempt, Handed, CheckoutPrepared;
    var handed := Handed(s, e, at).value;
    PreparedCheckoutBegins(s, e, at, supply);
    HandedKeepsReady(s, e, at, supply);
    SameIntentsBegin(CheckoutPrepared(s, e, at), handed);
    BeginsOnlyIn(s, CheckoutPrepared(s, e, at), handed, Some(e.intent));
    if s' != handed {
      HandedLands(s, e, at, supply);
      RestBeginsNothing(handed, CheckoutAttempt(handed, e.intent, e.answer, at + e.lag), e.intent, supply, at + e.lag);
      BeginsOnlyIn(s, handed, s', Some(e.intent));
    }
  }

  lemma CheckoutChanges(w: World, e: Event, s': TreasuryState)
    requires WorldSound(w) && w.memory.Some? && e.Checkout?
    requires s' in Left(Serve(w, e)) && s' !in w.disk && s' != w.memory.value
    ensures Changes(w, e, w.memory.value, s')
  {
    hide Sound, Loadable, ServeCheckout, OnlyBegins, Changes, Resting, CheckoutPrepares, CheckoutPrepared, CheckoutAttempt, Handed, SameDeposits;
    var s, at := w.memory.value, w.clock + e.wait;
    assert s in States(w);
    CheckoutLeaves(s, w.disk, e, at, s');
    if Handed(s, e, at).Ok? {
      CheckoutBegins(s, e, at, w.supply, s');
    } else {
      PreparedCheckoutBegins(s, e, at, w.supply);
    }
    BeginningChanges(w, e, s, s', Some(e.intent));
  }

  lemma RecoveryBeginsNothing(s: TreasuryState, at: int)
    requires Recover(s, at).Ok?
    ensures OnlyBegins(s, Recover(s, at).value, None)
  {
    hide Recover;
    RecoverEffect(s, at);
  }

  lemma {:induction false} RecoverAllRecordsNothing(s: TreasuryState, ids: seq<Id>, at: int)
    requires AllExecuting(s, ids) && RecoverAll(s, ids, at).Ok?
    ensures SameDeposits(s, RecoverAll(s, ids, at).value)
    decreases |ids|
  {
    hide RecoverOne, AllExecuting;
    if |ids| > 0 {
      RecoverAllUnfolds(s, ids, at);
      RecoverOneRecordsNothing(s, ids[0], at);
      RecoverAllRecordsNothing(RecoverOne(s, ids[0], at).value, ids[1..], at);
    }
  }

  lemma RecoverOneRecordsNothing(s: TreasuryState, id: Id, at: int)
    requires id in s.intents && RecoverOne(s, id, at).Ok?
    ensures SameDeposits(s, RecoverOne(s, id, at).value)
  {
    hide CapacityAllows, Seal;
  }

  lemma RestartChanges(w: World, e: Event, s: TreasuryState, s': TreasuryState)
    requires e.Restart? && Recover(s, w.clock + e.wait) == Ok(s')
    ensures Changes(w, e, s, s')
  {
    hide RecoverAll, OnlyBegins, Changes;
    RecoveryBeginsNothing(s, w.clock + e.wait);
    InterruptedRise(s);
    RecoverAllRecordsNothing(s, Ascending(Interrupted(s.intents)), w.clock + e.wait);
    BeginningChanges(w, e, s, s', None);
  }

  /** Every state an event leaves was on disk, or differs from the state it starts from by what the event may begin and record. */
  lemma ServeChanges(w: World, e: Event, s': TreasuryState)
    requires WorldSound(w) && s' in Left(Serve(w, e))
    ensures s' in w.disk || (Origin(w, e).Some? && Changes(w, e, Origin(w, e).value, s'))
  {
    hide WorldSound, ServeCall, ServeExecute, ServeCheckout, ServeRestart, Changes;
    if s' !in w.disk {
      if Origin(w, e) == Some(s') {
        NothingChanges(w, e, s');
      } else {
        match e
        case Crash =>
        case Restart(wait, image, fault) =>
          RestartLeaves(image, w.disk, w.clock + wait, fault, s');
          RestartChanges(w, e, image, s');
        case Call(_, _, _, _, _, _) => CallChanges(w, e, s');
        case Execute(_, _, _, _, _, _, _, _) => ExecuteChanges(w, e, s');
        case Checkout(_, _, _, _, _, _, _, _, _, _) => CheckoutChanges(w, e, s');
      }
    }
  }
}
