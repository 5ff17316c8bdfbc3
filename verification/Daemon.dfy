/**
 The broker process around the treasury: requests, executions, saves, crashes and restarts.
 Time and identifiers only ever move forward; everything else an event carries is arbitrary.
 */
module Daemon {
  import opened Results
  import opened MoneyMath
  import opened Records
  import opened AuditLog
  import opened Budget
  import opened Execution
  import opened Requests
  import opened Storage

  /** `memory` is `None` while the process is down; `disk` holds every image a load may find. */
  datatype World = World(
    memory: Option<TreasuryState>,
    disk: set<TreasuryState>,
    clock: int,
    supply: Id,
    submissions: map<Id, nat>)

  datatype Caller = OwnerCaller | AgentCaller(id: Id) | UnknownCaller

  /** Where the process dies around the external submission, if it does. */
  datatype CrashPoint = NoCrash | BeforeSubmission | AfterSubmission

  /** What a checkout executor answers; an error leaves the payment outcome unknown. */
  datatype ExecutorAnswer = ExecutorOutcome(outcome: ProviderOutcome) | ExecutorError

  datatype Event =
    | Call(wait: nat, lag: nat, caller: Caller, request: Request, verdict: Verdict, fault: SaveFault)
    | Execute(wait: nat, lag: nat, caller: Caller, intent: Id, verdict: Verdict, fault: SaveFault,
              crash: CrashPoint, lastFault: SaveFault)
    | Checkout(wait: nat, lag: nat, caller: Caller, intent: Id, verdict: Verdict, originOk: bool, fault: SaveFault,
               crash: CrashPoint, answer: ExecutorAnswer, lastFault: SaveFault)
    | Crash
    | Restart(wait: nat, image: TreasuryState, fault: SaveFault)
  {
    function Wait(): nat {
      if Crash? then 0 else wait
    }

    function Lag(): nat {
      if Crash? || Restart? then 0 else lag
    }
  }

  /** Memory, disk and reply after one event; `submitted` names the intent that reached a provider or executor. */
  datatype Served = Served(memory: Option<TreasuryState>, disk: set<TreasuryState>, ok: bool, submitted: Option<Id>)

  function Untouched(s: TreasuryState, disk: set<TreasuryState>): Served {
    Served(Some(s), disk, false, None)
  }

  /** `authenticate`, after the presented token has been looked up. */
  predicate Authenticated(s: TreasuryState, caller: Caller, at: int) {
    match caller
    case OwnerCaller => true
    case AgentCaller(a) => a in s.agents && !s.agents[a].revoked && at < s.agents[a].expiresAt
    case UnknownCaller => false
  }

  /** Agents speak only for themselves and never use owner operations. */
  predicate Permitted(caller: Caller, request: Request) {
    if request.FromAgent() then caller == AgentCaller(request.agent) else caller.OwnerCaller?
  }

  // ----- ordinary requests -----

  /** A handoff is issued to the owner by the reply itself. */
  predicate IssuesHandoff(request: Request, ok: bool) {
    request.BeginHandoffRequest? && ok
  }

  /** `handle_persisted` for everything but execution: save the new state or roll the old one back. */
  ghost function ServeCall(s: TreasuryState, disk: set<TreasuryState>, caller: Caller, request: Request, env: Env, fault: SaveFault)
    : Served
  {
    if !Authenticated(s, caller, env.at) || !Permitted(caller, request) then Untouched(s, disk)
    else
      match Handle(s, request, env)
      case Reject(_) => Untouched(s, disk)
      case Throttle(limited) =>
        var saved := Save(limited, disk, fault);
        Served(Some(if saved.ok then limited else s), saved.disk, false, None)
      case Accept(written) =>
        var saved := Save(written, disk, fault);
        Served(Some(if saved.ok then written else s), saved.disk, saved.ok,
               if IssuesHandoff(request, saved.ok) then Some(request.intent) else None)
  }

  // ----- executions -----

  /** After a submission nothing is rolled back: the outcome, or a quarantine, stays in memory whatever the save does. */
  ghost function AfterAttempt(attempt: Attempt, id: Id, disk: set<TreasuryState>, at: int, fault: SaveFault): Served {
    if attempt.error.None? then
      var saved := Save(attempt.state, disk, fault);
      Served(Some(attempt.state), saved.disk, saved.ok, Some(id))
    else
      var q := Quarantine(attempt.state, id, at);
      if q.error.Some? then Served(Some(q.state), disk, false, Some(id))
      else Served(Some(q.state), Save(q.state, disk, fault).disk, false, Some(id))
  }

  function Down(disk: set<TreasuryState>, submitted: Option<Id>): Served {
    Served(None, disk, false, submitted)
  }

  /** Nothing is submitted before the prepared state is durable; a failed save leaves `fallback` in memory. */
  ghost function SaveThenSubmit(prepared: TreasuryState, fallback: TreasuryState, disk: set<TreasuryState>, e: Event,
                                attempt: Attempt, later: int): Served
    requires e.Execute? || e.Checkout?
  {
    var saved := Save(prepared, disk, e.fault);
    if !saved.ok then Served(Some(fallback), saved.disk, false, None)
    else if e.crash.BeforeSubmission? then Down(saved.disk, None)
    else if e.crash.AfterSubmission? then Down(saved.disk, Some(e.intent))
    else AfterAttempt(attempt, e.intent, saved.disk, later, e.lastFault)
  }

  /** `handle_persisted` for `ExecutePurchaseIntent`. */
  ghost function ServeExecute(s: TreasuryState, disk: set<TreasuryState>, e: Event, at: int, nextId: Id): Served
    requires e.Execute?
  {
    if s.mode.ManualPrepaidCard? || !Authenticated(s, e.caller, at) || !e.caller.AgentCaller? then Untouched(s, disk)
    else
      match Prepare(s, e.caller.id, e.intent, at, e.verdict)
      case Err(_) => Untouched(s, disk)
      case Ok(prepared) =>
        SaveThenSubmit(prepared, s, disk, e, Complete(prepared, e.caller.id, e.intent, at + e.lag, nextId), at + e.lag)
  }

  /** Who may start a checkout with an executor: an agent under controlled checkout, or the owner on an approved intent. */
  predicate CheckoutAllowed(s: TreasuryState, caller: Caller, id: Id, originOk: bool) {
    && s.mode.ManualPrepaidCard? && id in s.intents && originOk
    && match caller
       case OwnerCaller => s.intents[id].state.Approved?
       case AgentCaller(a) =>
         && s.manual.Some? && s.manual.value.outgoingSupported
         && s.intents[id].agentId == a && s.intents[id].state.Executable()
       case UnknownCaller => false
  }

  function HandoffAction(caller: Caller): AuditAction {
    if caller.OwnerCaller? then OwnerCheckoutHandoff else ControlledCheckoutHandoff
  }

  function HandoffActor(caller: Caller): Actor {
    if caller.AgentCaller? then AgentActor(caller.id) else Owner
  }

  function CheckoutAttempt(s: TreasuryState, id: Id, answer: ExecutorAnswer, at: int): Attempt
    requires id in s.intents
  {
    match answer
    case ExecutorOutcome(outcome) => ApplyOutcome(s, s.intents[id].agentId, id, outcome, at)
    case ExecutorError => Attempt(s, Some(Conflict))
  }

  /** `execute_controlled_checkout_persisted` and `owner_execute_approved_handoff_persisted`. */
  ghost function ServeCheckout(s: TreasuryState, disk: set<TreasuryState>, e: Event, at: int): Served
    requires e.Checkout?
  {
    if !Authenticated(s, e.caller, at) || !CheckoutAllowed(s, e.caller, e.intent, e.originOk) then Untouched(s, disk)
    else
      match Prepare(s, s.intents[e.intent].agentId, e.intent, at, e.verdict)
      case Err(_) => Untouched(s, disk)
      case Ok(prepared) =>
        match Record(prepared, HandoffActor(e.caller), HandoffAction(e.caller), Some(e.intent), at)
        case Err(_) => Served(Some(prepared), disk, false, None)
        case Ok(handed) =>
          SaveThenSubmit(handed, handed, disk, e, CheckoutAttempt(handed, e.intent, e.answer, at + e.lag), at + e.lag)
  }

  // ----- restart -----

  /** Load one surviving image, recover interrupted executions, and save before serving. */
  ghost function ServeRestart(image: TreasuryState, disk: set<TreasuryState>, at: int, fault: SaveFault): Served {
    if !Loadable(image) then Down(disk, None)
    else if Interrupted(image.intents) == {} then Served(Some(image), disk, true, None)
    else
      match Recover(image, at)
      case Err(_) => Down(disk, None)
      case Ok(recovered) =>
        var saved := Save(recovered, disk, fault);
        Served(if saved.ok then Some(recovered) else None, saved.disk, saved.ok, None)
  }

  // ----- worlds -----

  ghost function Serve(w: World, e: Event): Served {
    var at := w.clock + e.Wait();
    match e
    case Crash => Down(w.disk, None)
    case Restart(_, image, fault) =>
      if w.memory.Some? || image !in w.disk then Served(w.memory, w.disk, false, None) else ServeRestart(image, w.disk, at, fault)
    case Call(_, lag, caller, request, verdict, fault) =>
      if w.memory.None? then Down(w.disk, None)
      else ServeCall(w.memory.value, w.disk, caller, request, Env(at, lag, w.supply, verdict), fault)
    case Execute(_, _, _, _, _, _, _, _) =>
      if w.memory.None? then Down(w.disk, None) else ServeExecute(w.memory.value, w.disk, e, at, w.supply)
    case Checkout(_, _, _, _, _, _, _, _, _, _) =>
      if w.memory.None? then Down(w.disk, None) else ServeCheckout(w.memory.value, w.disk, e, at)
  }

  function Submissions(counts: map<Id, nat>, id: Id): nat {
    if id in counts then counts[id] else 0
  }

  function CountSubmission(counts: map<Id, nat>, submitted: Option<Id>): map<Id, nat> {
    match submitted
    case None => counts
    case Some(id) => counts[id := Submissions(counts, id) + 1]
  }

  /** One event draws at most two identifiers plus one per agent. */
  function NextSupply(supply: Id): Id {
    2 * supply + 2
  }

  ghost function Next(w: World, e: Event): World {
    var served := Serve(w, e);
    World(served.memory, served.disk, w.clock + e.Wait() + e.Lag(), NextSupply(w.supply),
          CountSubmission(w.submissions, served.submitted))
  }

  ghost function Run(w: World, events: seq<Event>): World {
    if |events| == 0 then w else Next(Run(w, events[..|events| - 1]), events[|events| - 1])
  }

  /** Every state the world still holds, in memory or on disk. */
  ghost function States(w: World): set<TreasuryState> {
    w.disk + if w.memory.Some? then {w.memory.value} else {}
  }

  // ----- bootstrap -----

  /** `Treasury::bootstrap` on the conservative policy of currency `currency`. */
  function DemoPolicy(currency: Currency): Policy {
    Policy(1, currency, 2_500, 5_000, 10_000, 25_000, 100_000, 100_000, 0, {currency}, 0, 10, 15 * 60, 10 * 60)
  }

  function Bootstrap(balance: Money, at: int): Result<TreasuryState> {
    if balance.minor <= 0 || balance.minor > DemoPolicy(balance.currency).maxTreasurySize then Err(Invalid)
    else
      var empty := TreasuryState(0, map[], map[BootstrapPolicy := DemoPolicy(balance.currency)], map[], [], [], None, false,
                                 SimulatedProvider(balance, map[], map[]), Simulated, None, map[]);
      Record(Append(empty, OwnerCapital, balance, None, at), Owner, BootstrapTreasury, None, at)
  }

  /** A freshly initialised broker whose first save succeeded. */
  ghost predicate Initial(w: World) {
    && w.submissions == map[]
    && exists balance: Money, at: int ::
         && at <= w.clock && Bootstrap(balance, at).Ok?
         && w.memory == Some(Bootstrap(balance, at).value) && w.disk == {Bootstrap(balance, at).value}
  }
}
