/** Every state an event leaves in memory or on disk comes from an earlier one by elementary steps. */
module Serving {
  import opened Results
  import opened Records
  import opened AuditLog
  import opened Budget
  import opened Execution
  import opened Requests
  import opened Storage
  import opened Daemon
  import opened MoneyInvariant
  import opened Steps
  import opened Safety
  import opened Invariant
  import opened Operations
  import opened RequestSteps
  import opened Reserve
  import opened Loads

  /** A state that was already on disk, or one that `s` leads to and that can be loaded again. */
  ghost predicate Comes(s: TreasuryState, disk: set<TreasuryState>, s': TreasuryState, supply: Id, from: int, to: int) {
    s' in disk || (Leads(s, s', supply, from, to) && Loadable(s'))
  }

  ghost function Left(served: Served): set<TreasuryState> {
    served.disk + if served.memory.Some? then {served.memory.value} else {}
  }

  ghost predicate AllCome(s: TreasuryState, disk: set<TreasuryState>, served: Served, supply: Id, from: int, to: int) {
    forall s' :: s' in Left(served) ==> Comes(s, disk, s', supply, from, to)
  }

  /** If an intent was submitted, it was executable before, and everything that is left shows it as begun. */
  ghost predicate SubmitsOnce(s: TreasuryState, served: Served) {
    served.submitted.Some? ==>
      && served.submitted.value in s.intents && s.intents[served.submitted.value].state.Executable()
      && forall s' :: s' in Left(served) ==> Begun(s', served.submitted.value)
  }

  lemma Stays(s: TreasuryState, disk: set<TreasuryState>, supply: Id, from: int, to: int)
    requires Loadable(s)
    ensures Comes(s, disk, s, supply, from, to)
  {
    LeadsNowhere(s, supply, from, to);
  }

  lemma AlreadyCome(s: TreasuryState, disk: set<TreasuryState>, supply: Id, from: int, to: int)
    ensures forall s' :: s' in disk ==> Comes(s, disk, s', supply, from, to)
  {
  }

  /** Saving puts nothing on disk that does not load. */
  lemma SavedCome(s: TreasuryState, written: TreasuryState, disk: set<TreasuryState>, supply: Id, from: int, to: int, fault: SaveFault)
    requires Leads(s, written, supply, from, to)
    ensures forall s' :: s' in Save(written, disk, fault).disk ==> Comes(s, disk, s', supply, from, to)
    ensures Save(written, disk, fault).ok ==> Comes(s, disk, written, supply, from, to)
  {
    hide Loadable, Leads;
  }

  // ----- requests -----

  /** A request that is rolled back leaves memory as it was; a saved one leaves memory and disk equal. */
  lemma CallServes(s: TreasuryState, disk: set<TreasuryState>, caller: Caller, request: Request, env: Env, fault: SaveFault)
    requires Sound(s, env.nextId) && Loadable(s)
    ensures AllCome(s, disk, ServeCall(s, disk, caller, request, env, fault), env.nextId, env.at, env.at)
  {
    hide Sound, Loadable, Leads, Handle, Comes, Save;
    Stays(s, disk, env.nextId, env.at, env.at);
    AlreadyCome(s, disk, env.nextId, env.at, env.at);
    if Authenticated(s, caller, env.at) && Permitted(caller, request) && !Handle(s, request, env).Reject? {
      HandleLeads(s, request, env);
      SavedCome(s, Handle(s, request, env).state, disk, env.nextId, env.at, env.at, fault);
    }
  }

  lemma HandoffBegins(s: TreasuryState, id: Id, env: Env)
    requires Handle(s, BeginHandoffRequest(id), env).Accept?
    ensures id in s.intents && s.intents[id].state.Executable() && Begun(Handle(s, BeginHandoffRequest(id), env).state, id)
  {
    hide Prepare, Record;
    var draft := BeginHandoff(s, id, env).value;
    PrepareShape(s, s.intents[id].agentId, id, env.at, env.verdict);
    RecordKeepsIntents(draft.state, Owner, BeginManualHandoff, Some(id), env.at);
    PreparedIsBegun(s, s.intents[id].agentId, id, env.at, env.verdict);
  }

  lemma PreparedIsBegun(s: TreasuryState, agent: Id, id: Id, at: int, verdict: Verdict)
    requires Prepare(s, agent, id, at, verdict).Ok?
    ensures id in s.intents && s.intents[id].state.Executable()
    ensures var s' := Prepare(s, agent, id, at, verdict).value;
            id in s'.intents && s'.intents[id].state.Executing? && s'.intents[id].agentId == agent && agent in s'.agents
            && s'.mode == s.mode
  {
    hide Decide, Owed, Used, EmergencyCount;
  }

  lemma CallSubmitsOnce(s: TreasuryState, disk: set<TreasuryState>, caller: Caller, request: Request, env: Env, fault: SaveFault)
    ensures SubmitsOnce(s, ServeCall(s, disk, caller, request, env, fault))
  {
    hide Loadable, Handle;
    var served := ServeCall(s, disk, caller, request, env, fault);
    if served.submitted.Some? {
      HandoffBegins(s, request.intent, env);
      assert served.disk == {Handle(s, request, env).state};
    }
  }

  // ----- executions -----

  /** What memory keeps of an attempt: its outcome, or its quarantine. */
  function Resting(attempt: Attempt, id: Id, at: int): Attempt {
    if attempt.error.None? then attempt else Quarantine(attempt.state, id, at)
  }

  /** Where an attempt leaves a prepared execution: moved on and logged. */
  ghost predicate Lands(prepared: TreasuryState, attempt: Attempt, id: Id, supply: Id, at: int) {
    var rest := Resting(attempt, id, at);
    && rest.error.None? && Moved(prepared, rest.state, id, at)
    && Elementary(prepared, rest.state, supply, at)
  }

  lemma MovedStaysBegun(s: TreasuryState, s': TreasuryState, moved: Id, at: int, id: Id)
    requires Moved(s, s', moved, at) && Begun(s, id)
    ensures Begun(s', id)
  {
    hide Moved, ReceiptSound, StartsLawfully, MoveEvents, SameIdentity;
    MovedFrame(s, s', moved, at);
  }

  /** One elementary step within a chain keeps what can be loaded loadable. */
  lemma StepLoads(s: TreasuryState, s': TreasuryState, supply: Id, at: int)
    requires Sound(s, NextId(supply) + 1) && Loadable(s) && Elementary(s, s', supply, at) && SameOffice(s, s') && 0 <= at
    ensures Sound(s', NextId(supply) + 1) && Loadable(s')
  {
    hide Sound, Loadable, Elementary;
    ElementaryKeepsSound(s, s', supply, at);
    ChainKeepsLoadable(s, s', NextId(supply) + 1);
  }

  /** After a submission everything left is the prepared state or the landed one. */
  lemma AttemptServes(s: TreasuryState, disk: set<TreasuryState>, prepared: TreasuryState, attempt: Attempt, id: Id, supply: Id,
                      from: int, at: int, fault: SaveFault)
    requires Sound(prepared, NextId(supply) + 1) && Loadable(prepared) && Leads(s, prepared, supply, from, from)
    requires SameOffice(s, prepared) && 0 <= from <= at
    requires Lands(prepared, attempt, id, supply, at) && Begun(prepared, id)
    ensures var served := AfterAttempt(attempt, id, {prepared}, at, fault);
            && AllCome(s, disk, served, supply, from, at) && served.submitted == Some(id)
            && (forall s' :: s' in Left(served) ==> Begun(s', id))
            && served.memory == Some(Resting(attempt, id, at).state)
            && served.ok == (attempt.error.None? && Save(attempt.state, {prepared}, fault).ok)
  {
    hide Sound, Loadable, Leads, Elementary, Moved, Quarantine;
    var rest := Resting(attempt, id, at);
    MovedFrame(prepared, rest.state, id, at);
    StepLoads(prepared, rest.state, supply, at);
    LeadsLonger(s, prepared, supply, from, from, at);
    LeadsOn(s, prepared, rest.state, supply, from, at);
    MovedStaysBegun(prepared, rest.state, id, at, id);
  }

  /** A preparation made at `at` from a sound state, ready to be saved and submitted. */
  ghost predicate Ready(s: TreasuryState, prepared: TreasuryState, agent: Id, id: Id, supply: Id, at: int) {
    && Sound(prepared, NextId(supply) + 1) && Loadable(prepared) && Leads(s, prepared, supply, at, at)
    && SameOffice(s, prepared) && SafetySlot(prepared) && Begun(prepared, id)
    && prepared.mode == s.mode
    && prepared.intents[id].state.Executing? && prepared.intents[id].agentId == agent && agent in prepared.agents
  }

  lemma PreparedIsReady(s: TreasuryState, agent: Id, id: Id, at: int, verdict: Verdict, supply: Id)
    requires Sound(s, supply) && Loadable(s) && 0 <= at && Prepare(s, agent, id, at, verdict).Ok?
    ensures Ready(s, Prepare(s, agent, id, at, verdict).value, agent, id, supply, at)
  {
    hide Sound, Loadable, Leads, Elementary, Moved, Prepare, LogFollows, Booked, SafetySlot, SlotsReserved;
    LaterSupply(s, supply, NextId(supply) + 1);
    SoundIsBooked(s, supply);
    var prepared := Prepare(s, agent, id, at, verdict).value;
    PreparedIsBegun(s, agent, id, at, verdict);
    PrepareIsElementary(s, agent, id, at, verdict, supply);
    MovedFrame(s, prepared, id, at);
    StepLoads(s, prepared, supply, at);
    LeadsOne(s, prepared, supply, at, at);
    PrepareKeepsReserve(s, agent, id, at, verdict);
  }

  lemma ReadyCompletes(s: TreasuryState, prepared: TreasuryState, agent: Id, id: Id, supply: Id, at: int, later: int, nextId: Id)
    requires Ready(s, prepared, agent, id, supply, at) && prepared.mode.Simulated?
    ensures Lands(prepared, Complete(prepared, agent, id, later, nextId), id, supply, later)
  {
    hide Sound, Loadable, Leads, Elementary, Moved, Complete, LogFollows, Booked, SafetySlot;
    SoundIsBooked(prepared, NextId(supply) + 1);
    CompleteIsElementary(prepared, agent, id, later, nextId, supply);
  }

  lemma ReadyAttempt(s: TreasuryState, disk: set<TreasuryState>, prepared: TreasuryState, attempt: Attempt, agent: Id, id: Id, supply: Id,
                     at: int, later: int, fault: SaveFault)
    requires Ready(s, prepared, agent, id, supply, at) && 0 <= at <= later && Lands(prepared, attempt, id, supply, later)
    ensures var served := AfterAttempt(attempt, id, {prepared}, later, fault);
            && AllCome(s, disk, served, supply, at, later) && served.submitted == Some(id)
            && (forall s' :: s' in Left(served) ==> Begun(s', id))
            && served.memory == Some(Resting(attempt, id, later).state)
            && served.ok == (attempt.error.None? && Save(attempt.state, {prepared}, fault).ok)
  {
    hide Sound, Loadable, Leads, Lands, SafetySlot, AfterAttempt, AllCome;
    AttemptServes(s, disk, prepared, attempt, id, supply, at, later, fault);
  }

  /** The prepared state is the only one on disk once its save succeeded. */
  lemma SavedAlone(prepared: TreasuryState, disk: set<TreasuryState>, fault: SaveFault)
    ensures Save(prepared, disk, fault).ok ==> Save(prepared, disk, fault).disk == {prepared} && Loadable(prepared)
  {
    hide Loadable;
  }

  /** The whole submission protocol: nothing reaches a provider or executor unless every image shows the intent as begun. */
  lemma SubmissionServes(s: TreasuryState, disk: set<TreasuryState>, prepared: TreasuryState, fallback: TreasuryState, e: Event,
                         attempt: Attempt, agent: Id, supply: Id, at: int, later: int)
    requires (e.Execute? || e.Checkout?) && Ready(s, prepared, agent, e.intent, supply, at) && 0 <= at <= later
    requires Lands(prepared, attempt, e.intent, supply, later) && Comes(s, disk, fallback, supply, at, later)
    ensures var served := SaveThenSubmit(prepared, fallback, disk, e, attempt, later);
            && AllCome(s, disk, served, supply, at, later)
            && (served.submitted.Some? ==>
                  && served.submitted.value == e.intent && (forall s' :: s' in Left(served) ==> Begun(s', e.intent))
                  && Save(prepared, disk, e.fault) == SaveResult({prepared}, true))
  {
    hide Loadable, Comes, Save, Ready, AfterAttempt, Lands, Begun;
    ReadyComes(s, disk, prepared, agent, e.intent, supply, at, later, e.fault);
    SavedAlone(prepared, disk, e.fault);
    if Save(prepared, disk, e.fault).ok && e.crash.NoCrash? {
      ReadyAttempt(s, disk, prepared, attempt, agent, e.intent, supply, at, later, e.lastFault);
    }
  }

  /** Whether an execution gets as far as a prepared state. */
  ghost predicate ExecutePrepares(s: TreasuryState, e: Event, at: int)
    requires e.Execute?
  {
    && s.mode.Simulated? && Authenticated(s, e.caller, at) && e.caller.AgentCaller?
    && Prepare(s, e.caller.id, e.intent, at, e.verdict).Ok?
  }

  lemma ExecuteShape(s: TreasuryState, disk: set<TreasuryState>, e: Event, at: int, supply: Id)
    requires e.Execute?
    ensures !ExecutePrepares(s, e, at) ==> ServeExecute(s, disk, e, at, supply) == Untouched(s, disk)
    ensures ExecutePrepares(s, e, at) ==>
              var prepared := Prepare(s, e.caller.id, e.intent, at, e.verdict).value;
              ServeExecute(s, disk, e, at, supply)
                == SaveThenSubmit(prepared, s, disk, e, Complete(prepared, e.caller.id, e.intent, at + e.lag, supply), at + e.lag)
  {
    hide Prepare, Complete, SaveThenSubmit;
  }

  lemma UntouchedComes(s: TreasuryState, disk: set<TreasuryState>, supply: Id, from: int, to: int)
    requires Loadable(s)
    ensures Comes(s, disk, s, supply, from, to) && AllCome(s, disk, Untouched(s, disk), supply, from, to)
  {
    Stays(s, disk, supply, from, to);
    hide Leads, Loadable;
  }

  lemma ExecuteServes(s: TreasuryState, disk: set<TreasuryState>, e: Event, at: int, supply: Id)
    requires e.Execute? && Sound(s, supply) && Loadable(s) && 0 <= at
    ensures AllCome(s, disk, ServeExecute(s, disk, e, at, supply), supply, at, at + e.lag)
    ensures SubmitsOnce(s, ServeExecute(s, disk, e, at, supply))
  {
    hide Sound, Loadable, Prepare, Complete, Comes, SaveThenSubmit, Ready, Lands, Begun, AllCome, ServeExecute;
    ExecuteShape(s, disk, e, at, supply);
    UntouchedComes(s, disk, supply, at, at + e.lag);
    if ExecutePrepares(s, e, at) {
      var agent := e.caller.id;
      var prepared := Prepare(s, agent, e.intent, at, e.verdict).value;
      PreparedIsReady(s, agent, e.intent, at, e.verdict, supply);
      PreparedIsBegun(s, agent, e.intent, at, e.verdict);
      ReadyCompletes(s, prepared, agent, e.intent, supply, at, at + e.lag, supply);
      SubmissionServes(s, disk, prepared, s, e, Complete(prepared, agent, e.intent, at + e.lag, supply), agent, supply, at, at + e.lag);
    }
  }

  lemma ReadyComes(s: TreasuryState, disk: set<TreasuryState>, prepared: TreasuryState, agent: Id, id: Id, supply: Id, at: int, later: int,
                   fault: SaveFault)
    requires Ready(s, prepared, agent, id, supply, at) && at <= later
    ensures Begun(prepared, id) && Comes(s, disk, prepared, supply, at, later)
    ensures forall s' :: s' in Save(prepared, disk, fault).disk ==> Comes(s, disk, s', supply, at, later)
  {
    hide Sound, Loadable, Leads, Save;
    LeadsLonger(s, prepared, supply, at, at, later);
    SavedCome(s, prepared, disk, supply, at, later, fault);
  }

  // ----- checkouts with an executor -----

  lemma HandedIsReady(s: TreasuryState, prepared: TreasuryState, agent: Id, id: Id, supply: Id, at: int, actor: Actor, action: AuditAction)
    requires Ready(s, prepared, agent, id, supply, at) && 0 <= at && !IsEmergency(action)
    requires Used(prepared.audit) + 1 < MAX_AUDIT_ENTRIES && Record(prepared, actor, action, Some(id), at).Ok?
    ensures Ready(s, Record(prepared, actor, action, Some(id), at).value, agent, id, supply, at)
  {
    hide Sound, Loadable, Leads, Elementary, LogFollows, Used, EmergencyCount, Record;
    var handed := Record(prepared, actor, action, Some(id), at).value;
    LogOnlyIsElementary(prepared, actor, action, Some(id), at, supply);
    RecordKeepsOffice(prepared, actor, action, Some(id), at);
    RecordKeepsIntents(prepared, actor, action, Some(id), at);
    StepLoads(prepared, handed, supply, at);
    LeadsOn(s, prepared, handed, supply, at, at);
    RecordFollows(prepared, prepared, actor, action, Some(id), at);
    RecordGrows(prepared, actor, action, Some(id), at);
    EntryCounts(prepared, handed, at);
  }

  lemma RecordGrows(s: TreasuryState, actor: Actor, action: AuditAction, intentId: Option<Id>, at: int)
    requires Record(s, actor, action, intentId, at).Ok?
    ensures Record(s, actor, action, intentId, at).value.audit != s.audit
  {
  }

  /** Whatever the executor answers, an outcome or an error, the execution is brought to rest and logged. */
  lemma CheckoutLands(s: TreasuryState, handed: TreasuryState, agent: Id, id: Id, supply: Id, at: int, later: int, answer: ExecutorAnswer)
    requires Ready(s, handed, agent, id, supply, at) && handed.mode.ManualPrepaidCard?
    ensures Lands(handed, CheckoutAttempt(handed, id, answer, later), id, supply, later)
    ensures |Resting(CheckoutAttempt(handed, id, answer, later), id, later).state.audit| == |handed.audit| + 1
  {
    hide Sound, Loadable, Leads, Elementary, Moved, LogFollows, Booked, SafetySlot, ApplyOutcome, Quarantine, Record, MoveEvents, ReceiptSound;
    SoundIsBooked(handed, NextId(supply) + 1);
    match answer
    case ExecutorOutcome(outcome) =>
      ManualOutcomeIsElementary(handed, agent, id, outcome, later, supply);
      OutcomeIsLogged(handed, ApplyOutcome(handed, agent, id, outcome, later), agent, id, outcome, later);
    case ExecutorError =>
      QuarantineIsElementary(handed, id, later, supply);
      QuarantineIsLogged(handed, id, later);
  }

  lemma OutcomeIsLogged(s: TreasuryState, attempt: Attempt, agent: Id, id: Id, outcome: ProviderOutcome, at: int)
    requires id in s.intents && OutcomeApplied(s, attempt, agent, id, outcome, at)
    ensures |attempt.state.audit| == |s.audit| + 1
  {
    hide MoveEvents, ReceiptSound, SameIdentity, CapacityAllows, Used, EmergencyCount;
  }

  lemma QuarantineIsLogged(s: TreasuryState, id: Id, at: int)
    requires id in s.intents && s.intents[id].state.Executing? && Quarantine(s, id, at).error.None?
    ensures |Quarantine(s, id, at).state.audit| == |s.audit| + 1
  {
    hide CapacityAllows, Used, EmergencyCount;
  }

  ghost predicate CheckoutPrepares(s: TreasuryState, e: Event, at: int)
    requires e.Checkout?
  {
    && Authenticated(s, e.caller, at) && CheckoutAllowed(s, e.caller, e.intent, e.originOk)
    && Prepare(s, s.intents[e.intent].agentId, e.intent, at, e.verdict).Ok?
  }

  /** The prepared state after the handoff entry, or the refusal of that entry. */
  ghost function Handed(s: TreasuryState, e: Event, at: int): Result<TreasuryState>
    requires e.Checkout? && CheckoutPrepares(s, e, at)
  {
    var prepared := Prepare(s, s.intents[e.intent].agentId, e.intent, at, e.verdict).value;
    Record(prepared, HandoffActor(e.caller), HandoffAction(e.caller), Some(e.intent), at)
  }

  lemma CheckoutShape(s: TreasuryState, disk: set<TreasuryState>, e: Event, at: int)
    requires e.Checkout?
    ensures !CheckoutPrepares(s, e, at) ==> ServeCheckout(s, disk, e, at) == Untouched(s, disk)
    ensures CheckoutPrepares(s, e, at) && Handed(s, e, at).Err? ==>
              ServeCheckout(s, disk, e, at)
                == Untouched(Prepare(s, s.intents[e.intent].agentId, e.intent, at, e.verdict).value, disk)
    ensures CheckoutPrepares(s, e, at) && Handed(s, e, at).Ok? ==>
              var handed := Handed(s, e, at).value;
              && e.intent in handed.intents && handed.intents.Keys == s.intents.Keys
              && ServeCheckout(s, disk, e, at)
                   == SaveThenSubmit(handed, handed, disk, e, CheckoutAttempt(handed, e.intent, e.answer, at + e.lag), at + e.lag)
  {
    hide Decide, SaveThenSubmit, CheckoutAttempt, Record;
    if CheckoutPrepares(s, e, at) {
      PreparedIsBegun(s, s.intents[e.intent].agentId, e.intent, at, e.verdict);
      var prepared := Prepare(s, s.intents[e.intent].agentId, e.intent, at, e.verdict).value;
      if Handed(s, e, at).Ok? {
        RecordKeepsIntents(prepared, HandoffActor(e.caller), HandoffAction(e.caller), Some(e.intent), at);
      }
    }
  }

  lemma CheckoutServes(s: TreasuryState, disk: set<TreasuryState>, e: Event, at: int, supply: Id)
    requires e.Checkout? && Sound(s, supply) && Loadable(s) && 0 <= at
    ensures AllCome(s, disk, ServeCheckout(s, disk, e, at), supply, at, at + e.lag)
    ensures SubmitsOnce(s, ServeCheckout(s, disk, e, at))
  {
    hide Sound, Loadable, Prepare, CheckoutAttempt, Comes, SaveThenSubmit, Ready, Lands, Begun, AllCome, ServeCheckout, Record;
    CheckoutShape(s, disk, e, at);
    UntouchedComes(s, disk, supply, at, at + e.lag);
    if CheckoutPrepares(s, e, at) {
      var agent := s.intents[e.intent].agentId;
      var prepared := Prepare(s, agent, e.intent, at, e.verdict).value;
      PreparedIsReady(s, agent, e.intent, at, e.verdict, supply);
      PreparedIsBegun(s, agent, e.intent, at, e.verdict);
      PreparedRoom(s, agent, e.intent, at, e.verdict, supply);
      if Handed(s, e, at).Ok? {
        var handed := Handed(s, e, at).value;
        HandedIsReady(s, prepared, agent, e.intent, supply, at, HandoffActor(e.caller), HandoffAction(e.caller));
        HandedInManual(s, handed, agent, e.intent, supply, at);
        CheckoutLands(s, handed, agent, e.intent, supply, at, at + e.lag, e.answer);
        ReadyComes(s, disk, handed, agent, e.intent, supply, at, at + e.lag, e.fault);
        SubmissionServes(s, disk, handed, handed, e, CheckoutAttempt(handed, e.intent, e.answer, at + e.lag), agent, supply,
                         at, at + e.lag);
      } else {
        ReadyComes(s, disk, prepared, agent, e.intent, supply, at, at + e.lag, e.fault);
        UnsavedComes(s, disk, prepared, supply, at, at + e.lag);
      }
    }
  }

  lemma HandedInManual(s: TreasuryState, handed: TreasuryState, agent: Id, id: Id, supply: Id, at: int)
    requires Ready(s, handed, agent, id, supply, at)
    ensures handed.mode == s.mode
  {
    hide Sound, Loadable, Leads;
  }

  lemma PreparedRoom(s: TreasuryState, agent: Id, id: Id, at: int, verdict: Verdict, supply: Id)
    requires Sound(s, supply) && Prepare(s, agent, id, at, verdict).Ok?
    ensures Used(Prepare(s, agent, id, at, verdict).value.audit) + 1 < MAX_AUDIT_ENTRIES
  {
    hide Sound, Prepare, Used, Booked;
    SoundIsBooked(s, supply);
    PrepareKeepsReserve(s, agent, id, at, verdict);
    PreparedIsBegun(s, agent, id, at, verdict);
    DebtIsOwed(Prepare(s, agent, id, at, verdict).value.intents, id);
  }

  lemma UnsavedComes(s: TreasuryState, disk: set<TreasuryState>, kept: TreasuryState, supply: Id, from: int, to: int)
    requires Comes(s, disk, kept, supply, from, to)
    ensures AllCome(s, disk, Untouched(kept, disk), supply, from, to)
  {
    AlreadyCome(s, disk, supply, from, to);
    hide Comes;
  }

  // ----- restart -----

  /** A restart serves one surviving image; if executions were interrupted, it serves their recovery, and only once that alone is on disk. */
  lemma RestartServes(image: TreasuryState, disk: set<TreasuryState>, at: int, supply: Id, fault: SaveFault)
    requires Sound(image, supply) && Loadable(image) && 0 <= at
    ensures AllCome(image, disk, ServeRestart(image, disk, at, fault), supply, at, at)
    ensures var served := ServeRestart(image, disk, at, fault);
            served.memory.Some? ==>
              && Interrupted(served.memory.value.intents) == {}
              && (Interrupted(image.intents) == {} ==> served.memory.value == image && served.disk == disk)
              && (Interrupted(image.intents) != {} ==>
                    Recover(image, at) == Ok(served.memory.value) && served.disk == {served.memory.value})
  {
    hide Sound, Loadable, Comes, Save, Recover, Leads;
    Stays(image, disk, supply, at, at);
    AlreadyCome(image, disk, supply, at, at);
    if Recover(image, at).Ok? {
      LaterSupply(image, supply, NextId(supply) + 1);
      RecoverLeads(image, at, supply);
      RecoverEffect(image, at);
      SavedCome(image, Recover(image, at).value, disk, supply, at, at, fault);
      SavedAlone(Recover(image, at).value, disk, fault);
    }
  }
}
