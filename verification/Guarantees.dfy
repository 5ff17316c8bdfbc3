/** What the broker promises over every run from its bootstrap. */
module Guarantees {
  import opened Results
  import opened Sums
  import opened MoneyMath
  import opened Records
  import opened AuditLog
  import opened Budget
  import opened Execution
  import opened Requests
  import opened Storage
  import opened Daemon
  import opened LedgerInvariant
  import opened MoneyInvariant
  import opened Solvency
  import opened Steps
  import opened Safety
  import opened Invariant
  import opened Operations
  import opened RequestSteps
  import opened Loads
  import opened Serving
  import opened Limits
  import opened History
  import opened Runs
  import opened Effects

  // ----- nothing is ever taken back -----

  lemma StemExtends(w: World, e: Event, s': TreasuryState)
    requires Stems(w, e, s')
    ensures exists s :: s in States(w) && Extends(s, s')
  {
    hide Reaches, Loadable, Extends;
    var at := w.clock + e.Wait();
    var s := StemLeads(w, e, s');
    var steps: nat :| Reaches(s, s', w.supply, at, at + e.Lag(), steps);
    ReachesExtends(s, s', w.supply, at, at + e.Lag(), steps);
  }

  /** Every later state, in memory or on any disk image, extends one of the present states. */
  lemma {:induction false} RunExtends(w: World, events: seq<Event>, s': TreasuryState)
    requires WorldSound(w) && s' in States(Run(w, events))
    ensures exists s :: s in States(w) && Extends(s, s')
  {
    hide WorldSound, Extends, Next, Stems;
    if |events| == 0 {
      ExtendsReflexive(s');
    } else {
      var before, last := Run(w, events[..|events| - 1]), events[|events| - 1];
      RunKeepsWorldSound(w, events[..|events| - 1]);
      NextStems(before, last);
      StemExtends(before, last, s');
      var mid :| mid in States(before) && Extends(mid, s');
      RunExtends(w, events[..|events| - 1], mid);
      var s :| s in States(w) && Extends(s, mid);
      ExtendsTransitive(s, mid, s');
    }
  }

  /** A request or execution that was answered with success left disk equal to memory. */
  lemma SuccessIsDurable(w: World, e: Event)
    requires Serve(w, e).ok && !e.Restart?
    ensures Serve(w, e).memory.Some? && Serve(w, e).disk == {Serve(w, e).memory.value}
  {
    hide Handle, Prepare, Complete, CheckoutAttempt, Quarantine, Loadable, Record;
  }

  /** Hence what was acknowledged is part of every later state, whatever fails or crashes afterwards. */
  lemma AcknowledgedForever(w: World, e: Event, events: seq<Event>, s': TreasuryState)
    requires WorldSound(w) && Serve(w, e).ok && !e.Restart? && s' in States(Run(Next(w, e), events))
    ensures Serve(w, e).memory.Some? && Extends(Serve(w, e).memory.value, s')
  {
    hide WorldSound, Extends, Serve;
    SuccessIsDurable(w, e);
    NextKeepsWorldSound(w, e);
    RunExtends(Next(w, e), events, s');
    assert States(Next(w, e)) == {Serve(w, e).memory.value};
  }

  // ----- at most one submission -----

  /** Each intent reached a provider or executor at most once, and wherever it did, no state shows it as executable. */
  ghost predicate OnceSubmitted(w: World) {
    forall id: Id :: 0 < Submissions(w.submissions, id) ==>
      Submissions(w.submissions, id) == 1 && forall s :: s in States(w) ==> Begun(s, id)
  }

  lemma NextBegun(w: World, e: Event, id: Id)
    requires WorldSound(w) && forall s :: s in States(w) ==> Begun(s, id)
    ensures forall s' :: s' in States(Next(w, e)) ==> Begun(s', id)
  {
    hide WorldSound, Extends, Next, Stems, Begun;
    NextStems(w, e);
    forall s' | s' in States(Next(w, e))
      ensures Begun(s', id)
    {
      StemExtends(w, e, s');
      var s :| s in States(w) && Extends(s, s');
      ExtendsBegun(s, s', id);
    }
  }

  /** Only an executable intent is submitted, and from then on everything left shows it as begun. */
  lemma ServeSubmitsOnce(w: World, e: Event)
    requires WorldSound(w)
    ensures Serve(w, e).submitted.Some? ==> w.memory.Some? && SubmitsOnce(w.memory.value, Serve(w, e))
  {
    hide Sound, Loadable, ServeCall, ServeExecute, ServeCheckout, SubmitsOnce, AllCome, Recover;
    var at := w.clock + e.Wait();
    if w.memory.Some? {
      var s := w.memory.value;
      match e
      case Crash =>
      case Restart(_, _, _) =>
      case Call(_, lag, caller, request, verdict, fault) =>
        CallSubmitsOnce(s, w.disk, caller, request, Env(at, lag, w.supply, verdict), fault);
      case Execute(_, _, _, _, _, _, _, _) => ExecuteServes(s, w.disk, e, at, w.supply);
      case Checkout(_, _, _, _, _, _, _, _, _, _) => CheckoutServes(s, w.disk, e, at, w.supply);
    }
  }

  lemma NextKeepsOnceSubmitted(w: World, e: Event)
    requires WorldSound(w) && OnceSubmitted(w)
    ensures OnceSubmitted(Next(w, e))
  {
    hide WorldSound, Serve, Begun;
    ServeSubmitsOnce(w, e);
    assert States(Next(w, e)) == Left(Serve(w, e));
    forall id: Id | 0 < Submissions(Next(w, e).submissions, id)
      ensures Submissions(Next(w, e).submissions, id) == 1 && forall s' :: s' in States(Next(w, e)) ==> Begun(s', id)
    {
      if Serve(w, e).submitted == Some(id) {
        ExecutableIsNotBegun(w.memory.value, id);
        assert w.memory.value in States(w);
      } else {
        NextBegun(w, e, id);
      }
    }
  }

  lemma ExecutableIsNotBegun(s: TreasuryState, id: Id)
    requires id in s.intents && s.intents[id].state.Executable()
    ensures !Begun(s, id)
  {
  }

  /**
   At-most-once submission: over any run of requests, executions, failed saves, crashes and restarts, an
   intent reaches the provider or an executor at most once, and from then on neither memory nor any disk
   image ever holds it in a state from which it could be executed.
   */
  lemma {:induction false} AtMostOnce(w: World, events: seq<Event>)
    requires Initial(w) && 0 <= w.clock
    ensures OnceSubmitted(Run(w, events))
  {
    hide WorldSound, OnceSubmitted, Next, Initial;
    InitialIsSound(w);
    if |events| == 0 {
      InitialSubmitsNothing(w);
    } else {
      var prefix := events[..|events| - 1];
      AtMostOnce(w, prefix);
      RunKeepsWorldSound(w, prefix);
      NextKeepsOnceSubmitted(Run(w, prefix), events[|events| - 1]);
    }
  }

  lemma InitialSubmitsNothing(w: World)
    requires Initial(w)
    ensures OnceSubmitted(w)
  {
    hide Bootstrap;
  }

  // ----- emergency stop -----

  ghost predicate RetiredEverywhere(w: World, id: Id, bound: Id) {
    bound <= w.supply && forall s :: s in States(w) ==> Retired(s, id, bound)
  }

  lemma NextKeepsRetired(w: World, e: Event, id: Id, bound: Id)
    requires WorldSound(w) && RetiredEverywhere(w, id, bound)
    ensures RetiredEverywhere(Next(w, e), id, bound)
  {
    hide WorldSound, Retired, Stems, Serve;
    NextStems(w, e);
    forall s' | s' in States(Next(w, e))
      ensures Retired(s', id, bound)
    {
      StemKeepsRetired(w, e, s', id, bound);
    }
  }

  lemma StemKeepsRetired(w: World, e: Event, s': TreasuryState, id: Id, bound: Id)
    requires Stems(w, e, s') && RetiredEverywhere(w, id, bound)
    ensures Retired(s', id, bound)
  {
    hide Retired, Loadable, Reaches;
    var at := w.clock + e.Wait();
    var s := StemLeads(w, e, s');
    var steps: nat :| Reaches(s, s', w.supply, at, at + e.Lag(), steps);
    ReachesKeepsRetired(s, s', w.supply, at, at + e.Lag(), steps, id, bound);
  }

  lemma {:induction false} RunKeepsRetired(w: World, events: seq<Event>, id: Id, bound: Id)
    requires WorldSound(w) && RetiredEverywhere(w, id, bound)
    ensures RetiredEverywhere(Run(w, events), id, bound)
  {
    hide WorldSound, RetiredEverywhere, Next;
    if |events| > 0 {
      var prefix := events[..|events| - 1];
      RunKeepsRetired(w, prefix, id, bound);
      RunKeepsWorldSound(w, prefix);
      NextKeepsRetired(Run(w, prefix), events[|events| - 1], id, bound);
    }
  }

  /** The switch trips: it was off, and turning it on was acknowledged. */
  ghost predicate Trips(w: World, e: Event) {
    && e.Call? && e.request == EmergencyStopRequest(true) && Serve(w, e).ok
    && w.memory.Some? && !w.memory.value.emergencyStop
  }

  lemma TrippedState(w: World, e: Event, id: Id)
    requires WorldSound(w) && Trips(w, e) && id in w.memory.value.intents && w.memory.value.intents[id].state.NeverReserved()
    ensures var s, served := w.memory.value, Serve(w, e);
            && served.memory.Some? && served.disk == {served.memory.value}
            && Retired(served.memory.value, id, w.supply)
  {
    hide MoneySound, LogSound, ReceiptsSound, KeysUnique, DepositsCounted, Loadable, Used, EmergencyCount, Seal, CapacityAllows;
    var s := w.memory.value;
    assert Sound(s, w.supply);
    var env := Env(w.clock + e.wait, e.lag, w.supply, e.verdict);
    assert Plan(s, e.request, env) == EmergencyStopStep(s, true, env);
  }

  /**
   The stop is final for old work: an intent that had not started when the switch trips never starts in any
   continuation, whatever is resumed, approved, armed or rotated afterwards.
   */
  lemma StopIsFinal(w: World, e: Event, events: seq<Event>, id: Id, s': TreasuryState)
    requires WorldSound(w) && Trips(w, e)
    requires id in w.memory.value.intents && w.memory.value.intents[id].state.NeverReserved()
    requires s' in States(Run(Next(w, e), events))
    ensures id in s'.intents && s'.intents[id].state.NeverReserved()
    ensures forall agent, at, verdict :: Prepare(s', agent, id, at, verdict).Err?
  {
    hide WorldSound, Retired, Serve, Prepare;
    TrippedState(w, e, id);
    NextKeepsWorldSound(w, e);
    RunKeepsRetired(Next(w, e), events, id, w.supply);
    assert Retired(s', id, w.supply);
    RetiredIsUnstarted(s', id, w.supply);
    forall agent, at, verdict
      ensures Prepare(s', agent, id, at, verdict).Err?
    {
      RetiredNeverPrepares(s', id, w.supply, agent, at, verdict);
    }
  }

  lemma RetiredIsUnstarted(s: TreasuryState, id: Id, bound: Id)
    requires Retired(s, id, bound)
    ensures id in s.intents && s.intents[id].state.NeverReserved()
  {
  }

  /** While the switch is on, nothing starts at all. */
  lemma StoppedStartsNothing(s: TreasuryState, agent: Id, id: Id, at: int, verdict: Verdict)
    requires s.emergencyStop
    ensures Prepare(s, agent, id, at, verdict).Err?
  {
    if Prepare(s, agent, id, at, verdict).Ok? {
      PrepareShape(s, agent, id, at, verdict);
      DecisionChecks(s, agent, s.intents[id].request, s.policies[s.agents[agent].policyId], at, verdict);
    }
  }

  lemma StopIsHandled(s: TreasuryState, env: Env)
    ensures var step := Handle(s, EmergencyStopRequest(true), env);
            step.Accept? && step.state.emergencyStop
  {
    hide Used, EmergencyCount, Seal, StoppedAgents;
  }

  lemma StopIsLoadable(s: TreasuryState, env: Env, step: Step)
    requires Sound(s, env.nextId) && Loadable(s) && 0 <= env.at && step == Handle(s, EmergencyStopRequest(true), env)
    ensures step.Accept? && Loadable(step.state)
  {
    hide Sound, Loadable, Leads, Handle;
    StopIsHandled(s, env);
    HandleLeads(s, EmergencyStopRequest(true), env);
    LeadsSound(s, step.state, env.nextId, env.at, env.at);
    RefusedSavesAreRotations(s, EmergencyStopRequest(true), env);
  }

  /** The owner can always stop: neither the quota nor the self-validation of the save ever refuses it. */
  lemma StopIsAvailable(w: World, e: Event)
    requires WorldSound(w) && w.memory.Some? && e.Call? && e.caller.OwnerCaller? && e.request == EmergencyStopRequest(true)
    requires e.fault.Durable?
    ensures Serve(w, e).ok && Serve(w, e).memory.Some? && Serve(w, e).memory.value.emergencyStop
  {
    hide Sound, Loadable, Handle;
    var s := w.memory.value;
    var env := Env(w.clock + e.wait, e.lag, w.supply, e.verdict);
    assert s in States(w);
    StopIsHandled(s, env);
    StopIsLoadable(s, env, Handle(s, EmergencyStopRequest(true), env));
  }

  lemma LeadsSound(s: TreasuryState, s': TreasuryState, supply: Id, from: int, to: int)
    requires Leads(s, s', supply, from, to) && Sound(s, supply) && 0 <= from
    ensures Sound(s', NextId(supply) + 1)
  {
    hide Sound, Reaches;
    var steps: nat :| Reaches(s, s', supply, from, to, steps);
    LaterSupply(s, supply, NextId(supply) + 1);
    ReachesKeepsSound(s, s', supply, from, to, steps);
  }

  // ----- limits -----

  /** If the event reserves funds for `agent`, the policy it is decided by is within `limits`. */
  ghost predicate ReservesWithin(w: World, e: Event, agent: Id, limits: Limits) {
    Reserves(w, e, agent) ==> PolicyWithin(w.memory.value, agent, limits)
  }

  ghost predicate AllWithin(w: World, agent: Id, limits: Limits) {
    forall s :: s in States(w) ==> WithinLimits(s, agent, limits, w.clock)
  }

  lemma LeadsWithinLimits(s: TreasuryState, s': TreasuryState, supply: Id, now: int, from: int, to: int, agent: Id, limits: Limits)
    requires Leads(s, s', supply, from, to) && Sound(s, supply) && 0 <= now <= from <= to
    requires WithinLimits(s, agent, limits, now) && (Begins(s, s', agent) ==> PolicyWithin(s, agent, limits))
    ensures WithinLimits(s', agent, limits, to)
  {
    hide Sound, MoneySound, Reaches, WithinLimits, PolicyWithin, Begins;
    var steps: nat :| Reaches(s, s', supply, from, to, steps);
    SoundIsMoney(s, supply);
    LimitsAge(s, agent, limits, now, from);
    LaterSupply(s, supply, NextId(supply) + 1);
    ReachesKeepsLimits(s, s', supply, from, to, steps, agent, limits);
  }

  lemma StemKeepsLimits(w: World, e: Event, s': TreasuryState, agent: Id, limits: Limits)
    requires WorldSound(w) && Stems(w, e, s') && s' in Left(Serve(w, e))
    requires ReservesWithin(w, e, agent, limits) && AllWithin(w, agent, limits)
    ensures WithinLimits(s', agent, limits, w.clock + e.Wait() + e.Lag())
  {
    hide Sound, MoneySound, Loadable, Leads, WithinLimits, PolicyWithin, Reserves, Serve, Begins, Deposits;
    var at := w.clock + e.Wait();
    ServeChanges(w, e, s');
    if s' in w.disk {
      SoundIsMoney(s', w.supply);
      LimitsAge(s', agent, limits, w.clock, at + e.Lag());
    } else {
      var s := Origin(w, e).value;
      ReservingHasMemory(w, e, agent);
      LeadsWithinLimits(s, s', w.supply, w.clock, at, at + e.Lag(), agent, limits);
    }
  }

  lemma ReservingHasMemory(w: World, e: Event, agent: Id)
    ensures Reserves(w, e, agent) ==> w.memory.Some? && Origin(w, e) == w.memory
  {
    hide ExecutePrepares, CheckoutPrepares, BeginHandoff;
  }

  lemma NextKeepsLimits(w: World, e: Event, agent: Id, limits: Limits)
    requires WorldSound(w) && ReservesWithin(w, e, agent, limits) && AllWithin(w, agent, limits)
    ensures AllWithin(Next(w, e), agent, limits)
  {
    hide WorldSound, WithinLimits, ReservesWithin, Stems, Serve;
    NextStems(w, e);
    assert States(Next(w, e)) == Left(Serve(w, e));
    forall s' | s' in States(Next(w, e))
      ensures WithinLimits(s', agent, limits, Next(w, e).clock)
    {
      StemKeepsLimits(w, e, s', agent, limits);
    }
  }

  lemma NothingCommitted(s: TreasuryState, agent: Id, limits: Limits, now: int)
    requires s.intents == map[] && forall e :: e in s.ledger ==> !e.kind.SpendingSettled?
    ensures WithinLimits(s, agent, limits, now)
  {
    forall scope: Scope, span: Span
      ensures Settlements(s, scope, span) == 0 && Commitment(s, scope, span) == 0
    {
      NoSettlements(s.intents, s.ledger, scope, TreasuryCurrency(s), span);
    }
  }

  lemma NoSettlements(intents: map<Id, Intent>, ledger: seq<LedgerEvent>, scope: Scope, c: Currency, span: Span)
    requires forall e :: e in ledger ==> !e.kind.SpendingSettled?
    ensures SettledIn(intents, ledger, scope, c, span) == 0
  {
    ZeroSums(ledger, SettledW(intents, scope, c, span));
  }

  lemma InitialWithin(w: World, agent: Id, limits: Limits)
    requires Initial(w)
    ensures AllWithin(w, agent, limits)
  {
    hide Bootstrap, WithinLimits;
    var balance: Money, at: int :| at <= w.clock && Bootstrap(balance, at).Ok?
         && w.memory == Some(Bootstrap(balance, at).value) && w.disk == {Bootstrap(balance, at).value};
    BootstrapShape(balance, at);
    NothingCommitted(Bootstrap(balance, at).value, agent, limits, w.clock);
  }

  /** Limits hold at every point of a run, given they bound the policies in force at each reservation. */
  lemma {:induction false} RunWithin(w: World, events: seq<Event>, agent: Id, limits: Limits)
    requires Initial(w) && 0 <= w.clock
    requires forall n :: 0 <= n < |events| ==> ReservesWithin(Run(w, events[..n]), events[n], agent, limits)
    ensures AllWithin(Run(w, events), agent, limits)
  {
    hide WorldSound, AllWithin, ReservesWithin, Next, Initial;
    InitialIsSound(w);
    if |events| == 0 {
      InitialWithin(w, agent, limits);
    } else {
      var prefix := events[..|events| - 1];
      forall n | 0 <= n < |prefix|
        ensures ReservesWithin(Run(w, prefix[..n]), prefix[n], agent, limits)
      {
        assert prefix[..n] == events[..n];
      }
      RunWithin(w, prefix, agent, limits);
      RunKeepsWorldSound(w, prefix);
      NextKeepsLimits(Run(w, prefix), events[|events| - 1], agent, limits);
    }
  }

  /**
   Spending limits over all time: in every state of every run, the open and settled purchases of each
   session and of the agent stay within the largest limits in force when funds were reserved for it, and
   no window of twenty-four hours holds more settled spend than the largest such rolling limit.
   */
  lemma SpendingStaysWithinLimits(w: World, events: seq<Event>, agent: Id, limits: Limits, s: TreasuryState, session: Id, from: int)
    requires Initial(w) && 0 <= w.clock && s in States(Run(w, events))
    requires forall n :: 0 <= n < |events| ==> ReservesWithin(Run(w, events[..n]), events[n], agent, limits)
    ensures Sum(s.intents, CommittedW(OneSession(agent, session))) <= limits.session
    ensures Sum(s.intents, CommittedW(WholeAgent(agent))) <= limits.lifetime
    ensures Sum(s.intents, CommittedW(WholeAgent(agent))) <= limits.exposure
    ensures SettledIn(s.intents, s.ledger, WholeAgent(agent), TreasuryCurrency(s), DayFrom(from)) <= limits.rolling
  {
    hide Sound, Loadable, CommittedW, ReservesWithin, Next, Initial, RollingNow;
    InitialIsSound(w);
    RunWithin(w, events, agent, limits);
    RunKeepsWorldSound(w, events);
    SoundIsMoney(s, Run(w, events).supply);
    CommitmentIsIntents(s, OneSession(agent, session));
    CommitmentIsIntents(s, WholeAgent(agent));
    assert Bounded(s, OneSession(agent, session), limits.session);
    assert Settlements(s, WholeAgent(agent), DayFrom(from)) <= limits.rolling;
  }

  // ----- deposits -----

  /** If the event is an accepted new deposit, the ratio it uses is at most `basisPoints`. */
  ghost predicate DepositsWithin(w: World, e: Event, basisPoints: nat) {
    forall reference, d :: Deposits(w, e, reference, d) ==> RatioWithin(w.memory.value, d, basisPoints)
  }

  ghost predicate AllTopupsWithin(w: World, basisPoints: nat) {
    forall s :: s in States(w) ==> TopupsWithin(s, basisPoints)
  }

  lemma NextKeepsTopups(w: World, e: Event, basisPoints: nat)
    requires WorldSound(w) && DepositsWithin(w, e, basisPoints) && AllTopupsWithin(w, basisPoints)
    ensures AllTopupsWithin(Next(w, e), basisPoints)
  {
    hide WorldSound, DepositsWithin, TopupsWithin, Stems, Serve;
    NextStems(w, e);
    assert States(Next(w, e)) == Left(Serve(w, e));
    forall s' | s' in States(Next(w, e))
      ensures TopupsWithin(s', basisPoints)
    {
      StemKeepsTopups(w, e, s', basisPoints);
    }
  }

  lemma StemKeepsTopups(w: World, e: Event, s': TreasuryState, basisPoints: nat)
    requires WorldSound(w) && Stems(w, e, s') && s' in Left(Serve(w, e))
    requires DepositsWithin(w, e, basisPoints) && AllTopupsWithin(w, basisPoints)
    ensures TopupsWithin(s', basisPoints)
  {
    hide Sound, Loadable, RatioWithin, TopupsWithin, Reaches, Serve, Reserves, Begins;
    var at := w.clock + e.Wait();
    ServeChanges(w, e, s');
    if s' !in w.disk {
      var s := Origin(w, e).value;
      NewRatiosAreUsed(w, e, s', basisPoints);
      var steps: nat :| Reaches(s, s', w.supply, at, at + e.Lag(), steps);
      LaterSupply(s, w.supply, NextId(w.supply) + 1);
      ReachesKeepsTopups(s, s', w.supply, at, at + e.Lag(), steps, basisPoints);
    }
  }

  lemma NewRatiosAreUsed(w: World, e: Event, s': TreasuryState, basisPoints: nat)
    requires Origin(w, e).Some? && Changes(w, e, Origin(w, e).value, s') && DepositsWithin(w, e, basisPoints)
    ensures NewRatiosWithin(Origin(w, e).value, s', basisPoints)
  {
    hide Handle, RatioWithin, Reserves, Begins;
  }

  /** Over a whole run, what deposits made spendable is at most the largest ratio they used times the verified income. */
  lemma {:induction false} TopupsStayWithinRatio(w: World, events: seq<Event>, basisPoints: nat)
    requires Initial(w) && 0 <= w.clock
    requires forall n :: 0 <= n < |events| ==> DepositsWithin(Run(w, events[..n]), events[n], basisPoints)
    ensures AllTopupsWithin(Run(w, events), basisPoints)
  {
    hide WorldSound, AllTopupsWithin, DepositsWithin, Next, Initial;
    InitialIsSound(w);
    if |events| == 0 {
      InitialTopups(w, basisPoints);
    } else {
      var prefix := events[..|events| - 1];
      forall n | 0 <= n < |prefix|
        ensures DepositsWithin(Run(w, prefix[..n]), prefix[n], basisPoints)
      {
        assert prefix[..n] == events[..n];
      }
      TopupsStayWithinRatio(w, prefix, basisPoints);
      RunKeepsWorldSound(w, prefix);
      NextKeepsTopups(Run(w, prefix), events[|events| - 1], basisPoints);
    }
  }

  lemma InitialTopups(w: World, basisPoints: nat)
    requires Initial(w)
    ensures AllTopupsWithin(w, basisPoints)
  {
    hide Bootstrap;
    var balance: Money, at: int :| at <= w.clock && Bootstrap(balance, at).Ok?
         && w.memory == Some(Bootstrap(balance, at).value) && w.disk == {Bootstrap(balance, at).value};
    BootstrapShape(balance, at);
    BootstrapTotals(Bootstrap(balance, at).value, LedgerEvent(at, OwnerCapital, balance, None));
    hide KindTotal, Reserved;
  }

  lemma RecordedDepositReplays(s: TreasuryState, reference: nat, details: DepositDetails, env: Env)
    requires reference in s.deposits && 0 < details.amount.minor && !env.verdict.malformed
    ensures Handle(s, DepositRequest(reference, details), env) == if details == s.deposits[reference] then Accept(s) else Reject(Conflict)
  {
    hide Reinvested, CreditProvider;
  }

  /** Replaying an acknowledged deposit at any later point changes nothing; any other details under its reference are refused. */
  lemma ReplayedDepositChangesNothing(w: World, e: Event, events: seq<Event>, s': TreasuryState, details: DepositDetails, env: Env)
    requires WorldSound(w) && e.Call? && e.request.DepositRequest? && Serve(w, e).ok
    requires s' in States(Run(Next(w, e), events))
    requires 0 < details.amount.minor && !env.verdict.malformed
    ensures Handle(s', DepositRequest(e.request.external, details), env)
         == if details == e.request.details then Accept(s') else Reject(Conflict)
  {
    hide WorldSound, Handle, Next, Serve, Run;
    AcknowledgedForever(w, e, events, s');
    DepositIsRecorded(w, e);
    RecordedDepositReplays(s', e.request.external, details, env);
  }

  lemma DepositIsRecorded(w: World, e: Event)
    requires e.Call? && e.request.DepositRequest? && Serve(w, e).ok
    ensures var memory := Serve(w, e).memory;
            memory.Some? && e.request.external in memory.value.deposits
            && memory.value.deposits[e.request.external] == e.request.details
  {
    hide Reinvested, CreditProvider, Loadable, AppendIncome, CapacityAllows, Seal;
  }

  // ----- every state -----

  /** The audit log of every state of every run verifies, counts its own entries, and mirrors the stop switch. */
  lemma EveryLogVerifies(w: World, events: seq<Event>, s: TreasuryState)
    requires Initial(w) && 0 <= w.clock && s in States(Run(w, events))
    ensures ChainVerifies(s.audit) && s.generation == |s.audit|
    ensures Used(s.audit) <= MAX_AUDIT_ENTRIES && EmergencyCount(s.audit) <= EMERGENCY_AUDIT_RESERVE + 1
    ensures s.emergencyStop <==> EmergencyCount(s.audit) % 2 == 1
  {
    hide MoneySound, ChainVerifies, Loadable, Initial, Used, EmergencyCount;
    InitialIsSound(w);
    RunKeepsWorldSound(w, events);
    assert Sound(s, Run(w, events).supply);
  }

  /** The money of every state of every run: ledger, intents, receipts and deposits agree, and nothing is overspent. */
  lemma EveryStateIsSolvent(w: World, events: seq<Event>, s: TreasuryState)
    requires Initial(w) && 0 <= w.clock && s in States(Run(w, events))
    ensures 0 <= Totals(s).Authority()
    ensures SumSeq(s.ledger, NetHoldW(TreasuryCurrency(s))) == Reserved(s.intents, TreasuryCurrency(s))
    ensures forall i :: i in s.intents ==> FootprintOf(s.ledger, i) == Expected(s.intents[i].state) && ReceiptSound(i, s.intents[i])
    ensures s.mode.Simulated? ==>
              && ProviderAvailable(s.provider).Ok?
              && ProviderAvailable(s.provider).value.minor
                   == Totals(s).Authority() + (Totals(s).verifiedIncome - Totals(s).operatorTopups)
                      + Sum(s.intents, UntouchedW(s.provider))
              && Totals(s).operatorTopups <= Totals(s).verifiedIncome
    ensures s.mode.ManualPrepaidCard? ==>
              s.manual.Some? && Reserved(s.intents, TreasuryCurrency(s)) <= s.manual.value.amount.minor
    ensures DepositsCounted(s) && KeysUnique(s.intents)
  {
    InitialIsSound(w);
    RunKeepsWorldSound(w, events);
    assert Sound(s, Run(w, events).supply);
    hide WorldSound, Initial, Run, Loadable, ReceiptSound, KindTotal, IncomeW, LogSound, Identified, IntentsSound, SameKey, FootprintOf,
         Reserved, NetHoldW, UntouchedW, ProviderAvailable, ProviderSound, Expected;
    HoldsMatchReservations(s.intents, s.ledger, TreasuryCurrency(s));
    if s.mode.Simulated? {
      ProviderCoversAuthority(s);
    }
  }

  // ----- all or nothing -----

  /** The one trace a refused request may leave: a coalesced rate-limit entry. */
  ghost predicate LoggedRefusal(s: TreasuryState, s': TreasuryState, at: int) {
    exists agent :: Record(s, AgentActor(agent), TransactionRateLimited, None, at) == Ok(s')
  }

  /**
   A request is all or nothing: success leaves memory on disk; an error leaves memory as it was, or with
   one rate-limit entry more, and then that is what is on disk.
   */
  lemma RequestsAreAllOrNothing(w: World, e: Event)
    requires e.Call? && w.memory.Some?
    ensures var s, served := w.memory.value, Serve(w, e);
            && served.memory.Some?
            && (served.ok ==> served.disk == {served.memory.value})
            && (!served.ok ==>
                  || served.memory.value == s
                  || (LoggedRefusal(s, served.memory.value, w.clock + e.wait) && served.disk == {served.memory.value}))
  {
    hide Plan, Loadable, Record;
  }

  /**
   An execution either never submits, and then leaves memory as it was, or its prepared state was durable
   first and memory keeps the provider's outcome, whatever the last save does; success is reported exactly when that
   save was durable.
   */
  lemma ExecutionsAreAllOrNothing(w: World, e: Event)
    requires WorldSound(w) && e.Execute? && w.memory.Some?
    ensures var s, served := w.memory.value, Serve(w, e);
            && (served.submitted.None? && served.memory.Some? ==> served.memory.value == s && !served.ok)
            && (served.submitted.Some? ==>
                  && ExecutePrepares(s, e, w.clock + e.wait)
                  && (served.memory.Some? ==>
                        && Complete(Prepare(s, e.caller.id, e.intent, w.clock + e.wait, e.verdict).value, e.caller.id, e.intent,
                                    w.clock + e.wait + e.lag, w.supply) == Attempt(served.memory.value, None)
                        && (served.ok <==> e.lastFault.Durable?) && (served.ok ==> served.disk == {served.memory.value})))
  {
    hide Sound, Loadable, Prepare, Complete, Ready, Lands, ServeExecute;
    var s, at := w.memory.value, w.clock + e.wait;
    assert s in States(w);
    ExecuteShape(s, w.disk, e, at, w.supply);
    if ExecutePrepares(s, e, at) {
      var prepared := Prepare(s, e.caller.id, e.intent, at, e.verdict).value;
      PreparedIsReady(s, e.caller.id, e.intent, at, e.verdict, w.supply);
      PreparedIsBegun(s, e.caller.id, e.intent, at, e.verdict);
      CompletedLoads(s, prepared, e.caller.id, e.intent, w.supply, at, at + e.lag);
    }
  }

  /** In simulated mode the execution never ends in a quarantine, and its outcome is never refused by the save's own validation. */
  lemma CompletedLoads(s: TreasuryState, prepared: TreasuryState, agent: Id, id: Id, supply: Id, at: int, later: int)
    requires Ready(s, prepared, agent, id, supply, at) && prepared.mode.Simulated? && 0 <= at <= later
    ensures var attempt := Complete(prepared, agent, id, later, supply);
            attempt.error.None? && Loadable(attempt.state)
  {
    hide Sound, Loadable, Leads, Elementary, Moved, Complete, LogFollows, Booked, SafetySlot;
    SoundIsBooked(prepared, NextId(supply) + 1);
    CompleteIsElementary(prepared, agent, id, later, supply, supply);
    var attempt := Complete(prepared, agent, id, later, supply);
    MovedFrame(prepared, attempt.state, id, later);
    StepLoads(prepared, attempt.state, supply, later);
  }

  lemma CheckoutGrowsLog(s: TreasuryState, e: Event, at: int)
    requires e.Checkout? && CheckoutPrepares(s, e, at)
    ensures CheckoutPrepared(s, e, at) != s && (Handed(s, e, at).Ok? ==> Handed(s, e, at).value != s)
  {
    hide Prepare, Decide, CapacityAllows, Used, EmergencyCount;
    PrepareShape(s, s.intents[e.intent].agentId, e.intent, at, e.verdict);
    assert |CheckoutPrepared(s, e, at).audit| == |s.audit| + 1;
  }

  /** A checkout that fails between its preparation and its submission leaves the reservation in memory, and on disk what the fault allows. */
  ghost predicate LeavesReservation(disk: set<TreasuryState>, e: Event, prepared: TreasuryState, handed: Result<TreasuryState>, served: Served)
    requires e.Checkout?
  {
    match handed
    case Err(_) => served == Served(Some(prepared), disk, false, None)
    case Ok(kept) =>
      match e.fault
      case LostBeforeRename => served == Served(Some(kept), disk, false, None)
      case TornAfterRename => served == Served(Some(kept), disk + {kept}, false, None)
      case Durable => served.submitted.Some? || served.memory.None?
  }

  lemma FailedCheckoutLeaves(s: TreasuryState, disk: set<TreasuryState>, e: Event, at: int, supply: Id)
    requires e.Checkout? && CheckoutPrepares(s, e, at) && Sound(s, supply) && Loadable(s) && 0 <= at
    ensures LeavesReservation(disk, e, CheckoutPrepared(s, e, at), Handed(s, e, at), ServeCheckout(s, disk, e, at))
  {
    hide Sound, Prepare, Handed, CheckoutAttempt, ServeCheckout, CheckoutPrepares, Loadable, Quarantine, Ready;
    CheckoutShape(s, disk, e, at);
    if Handed(s, e, at).Ok? {
      HandedKeepsReady(s, e, at, supply);
      ReadyLoads(s, Handed(s, e, at).value, s.intents[e.intent].agentId, e.intent, supply, at);
    }
  }

  lemma ReadyLoads(s: TreasuryState, prepared: TreasuryState, agent: Id, id: Id, supply: Id, at: int)
    requires Ready(s, prepared, agent, id, supply, at)
    ensures Loadable(prepared)
  {
    hide Sound, Loadable, Leads;
  }

  /**
   A checkout is not all or nothing: if it submits nothing and the broker lives on, memory is as it was exactly
   when the preparation was refused. A refused handoff entry or a failed save behind it keeps the reservation.
   */
  lemma CheckoutsKeepTheirReservation(w: World, e: Event)
    requires WorldSound(w) && e.Checkout? && w.memory.Some?
    ensures var s, served, at := w.memory.value, Serve(w, e), w.clock + e.wait;
            && (served.submitted.None? && served.memory.Some? ==>
                  !served.ok && (served.memory.value == s <==> !CheckoutPrepares(s, e, at)))
            && (served.submitted.None? && served.memory.Some? && served.memory.value != s <==>
                  CheckoutPrepares(s, e, at) && (Handed(s, e, at).Err? || !e.fault.Durable?))
  {
    hide Sound, Loadable, Prepare, Handed, ServeCheckout, CheckoutPrepares, CheckoutPrepared;
    var s, at := w.memory.value, w.clock + e.wait;
    assert s in States(w);
    CheckoutShape(s, w.disk, e, at);
    if CheckoutPrepares(s, e, at) {
      CheckoutGrowsLog(s, e, at);
      FailedCheckoutLeaves(s, w.disk, e, at, w.supply);
    }
  }
}
