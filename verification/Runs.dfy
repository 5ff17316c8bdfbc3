/** Whole runs of the broker: requests, executions, failed saves, crashes and restarts in any order. */
module Runs {
  import opened Results
  import opened Sums
  import opened MoneyMath
  import opened Records
  import opened AuditLog
  import opened Budget
  import opened Requests
  import opened Storage
  import opened Daemon
  import opened Steps
  import opened Invariant
  import opened Loads
  import opened Serving

  /** Every state in memory or on disk is sound and can be loaded. */
  ghost predicate WorldSound(w: World) {
    && 0 <= w.clock
    && forall s :: s in States(w) ==> Sound(s, w.supply) && Loadable(s)
  }

  /** The state an event starts from: memory, or the image a restart loads. */
  ghost function Origin(w: World, e: Event): (s: Option<TreasuryState>)
    ensures s.Some? ==> s.value in States(w)
  {
    if w.memory.Some? || !e.Restart? then w.memory
    else if e.image in w.disk then Some(e.image)
    else None
  }

  /** `s'` was on disk before, or the state `e` starts from leads to it by elementary steps while `e` is served. */
  ghost predicate Stems(w: World, e: Event, s': TreasuryState) {
    && Loadable(s')
    && (|| s' in w.disk
        || (Origin(w, e).Some?
            && Leads(Origin(w, e).value, s', w.supply, w.clock + e.Wait(), w.clock + e.Wait() + e.Lag())))
  }

  /** Either way some state of the world leads there. */
  lemma StemLeads(w: World, e: Event, s': TreasuryState) returns (s: TreasuryState)
    requires Stems(w, e, s')
    ensures s in States(w) && Leads(s, s', w.supply, w.clock + e.Wait(), w.clock + e.Wait() + e.Lag())
    ensures s == s' || Some(s) == Origin(w, e)
  {
    hide Loadable, Leads;
    if s' in w.disk {
      s := s';
      LeadsNowhere(s, w.supply, w.clock + e.Wait(), w.clock + e.Wait() + e.Lag());
    } else {
      s := Origin(w, e).value;
    }
  }

  lemma KeptStems(w: World, e: Event, s: TreasuryState)
    requires WorldSound(w) && (s in w.disk || Origin(w, e) == Some(s))
    ensures Stems(w, e, s)
  {
    hide Sound, Loadable, Leads;
    LeadsNowhere(s, w.supply, w.clock + e.Wait(), w.clock + e.Wait() + e.Lag());
  }

  lemma ComeStems(w: World, e: Event, s: TreasuryState, served: Served, to: int)
    requires WorldSound(w) && Origin(w, e) == Some(s) && to == w.clock + e.Wait() + e.Lag()
    requires AllCome(s, w.disk, served, w.supply, w.clock + e.Wait(), to)
    ensures forall s' :: s' in Left(served) ==> Stems(w, e, s')
  {
    hide Sound, Loadable, Leads, WorldSound;
    forall s' | s' in Left(served)
      ensures Stems(w, e, s')
    {
      assert Comes(s, w.disk, s', w.supply, w.clock + e.Wait(), to);
      if s' in w.disk {
        KeptStems(w, e, s');
      }
    }
  }

  lemma IdleStems(w: World, e: Event, memory: Option<TreasuryState>, ok: bool)
    requires WorldSound(w) && (memory.None? || memory == w.memory == Origin(w, e))
    ensures forall s' :: s' in Left(Served(memory, w.disk, ok, None)) ==> Stems(w, e, s')
  {
    hide WorldSound, Stems;
    forall s' | s' in Left(Served(memory, w.disk, ok, None))
      ensures Stems(w, e, s')
    {
      KeptStems(w, e, s');
    }
  }

  lemma CallStems(w: World, e: Event, caller: Caller, request: Request, env: Env, fault: SaveFault)
    requires WorldSound(w) && w.memory.Some? && e.Call?
    requires env.at == w.clock + e.wait && env.nextId == w.supply
    ensures forall s' :: s' in Left(ServeCall(w.memory.value, w.disk, caller, request, env, fault)) ==> Stems(w, e, s')
  {
    hide Sound, Loadable, Leads, ServeCall, AllCome;
    var s := w.memory.value;
    CallServes(s, w.disk, caller, request, env, fault);
    var served := ServeCall(s, w.disk, caller, request, env, fault);
    AllLater(s, w.disk, served, w.supply, env.at, env.at, env.at + e.lag);
    ComeStems(w, e, s, served, env.at + e.lag);
  }

  lemma AllLater(s: TreasuryState, disk: set<TreasuryState>, served: Served, supply: Id, from: int, to: int, to': int)
    requires AllCome(s, disk, served, supply, from, to) && to <= to'
    ensures AllCome(s, disk, served, supply, from, to')
  {
    hide Loadable, Leads;
    forall s' | s' in Left(served)
      ensures Comes(s, disk, s', supply, from, to')
    {
      assert Comes(s, disk, s', supply, from, to);
      if s' !in disk {
        LeadsLonger(s, s', supply, from, to, to');
      }
    }
  }

  /** The refinement: whatever the event, every state left behind stems from an earlier one. */
  lemma ServeStems(w: World, e: Event)
    requires WorldSound(w)
    ensures forall s' :: s' in Left(Serve(w, e)) ==> Stems(w, e, s')
  {
    hide Sound, Loadable, Leads, ServeCall, ServeExecute, ServeCheckout, ServeRestart, AllCome, Stems, Left, SubmitsOnce;
    var at := w.clock + e.Wait();
    match e
    case Crash => IdleStems(w, e, None, false);
    case Restart(_, image, fault) =>
      if w.memory.Some? || image !in w.disk {
        IdleStems(w, e, w.memory, false);
      } else {
        RestartServes(image, w.disk, at, w.supply, fault);
        ComeStems(w, e, image, ServeRestart(image, w.disk, at, fault), at);
      }
    case Call(_, lag, caller, request, verdict, fault) =>
      if w.memory.None? {
        IdleStems(w, e, None, false);
      } else {
        CallStems(w, e, caller, request, Env(at, lag, w.supply, verdict), fault);
      }
    case Execute(_, _, _, _, _, _, _, _) =>
      if w.memory.None? {
        IdleStems(w, e, None, false);
      } else {
        ExecuteServes(w.memory.value, w.disk, e, at, w.supply);
        ComeStems(w, e, w.memory.value, ServeExecute(w.memory.value, w.disk, e, at, w.supply), at + e.lag);
      }
    case Checkout(_, _, _, _, _, _, _, _, _, _) =>
      if w.memory.None? {
        IdleStems(w, e, None, false);
      } else {
        CheckoutServes(w.memory.value, w.disk, e, at, w.supply);
        ComeStems(w, e, w.memory.value, ServeCheckout(w.memory.value, w.disk, e, at), at + e.lag);
      }
  }

  lemma NextStems(w: World, e: Event)
    requires WorldSound(w)
    ensures forall s' :: s' in States(Next(w, e)) ==> Stems(w, e, s')
  {
    hide WorldSound, Stems, Serve;
    ServeStems(w, e);
    assert States(Next(w, e)) == Left(Serve(w, e));
  }

  // ----- every state of every run is sound -----

  lemma StemIsSound(w: World, e: Event, s': TreasuryState)
    requires WorldSound(w) && Stems(w, e, s')
    ensures Sound(s', NextSupply(w.supply)) && Loadable(s')
  {
    hide Sound, Loadable, Reaches;
    var at := w.clock + e.Wait();
    var s := StemLeads(w, e, s');
    var steps: nat :| Reaches(s, s', w.supply, at, at + e.Lag(), steps);
    LaterSupply(s, w.supply, NextId(w.supply) + 1);
    ReachesKeepsSound(s, s', w.supply, at, at + e.Lag(), steps);
  }

  lemma NextKeepsWorldSound(w: World, e: Event)
    requires WorldSound(w)
    ensures WorldSound(Next(w, e))
  {
    hide Sound, Loadable, Stems, Serve;
    NextStems(w, e);
    forall s' | s' in States(Next(w, e))
      ensures Sound(s', Next(w, e).supply) && Loadable(s')
    {
      StemIsSound(w, e, s');
    }
  }

  /** No event of any run leads out of the invariant. */
  lemma {:induction false} RunKeepsWorldSound(w: World, events: seq<Event>)
    requires WorldSound(w)
    ensures WorldSound(Run(w, events))
  {
    hide WorldSound, Next;
    if |events| > 0 {
      RunKeepsWorldSound(w, events[..|events| - 1]);
      NextKeepsWorldSound(Run(w, events[..|events| - 1]), events[|events| - 1]);
    }
  }

  lemma BootstrapShape(balance: Money, at: int)
    requires Bootstrap(balance, at).Ok?
    ensures var s := Bootstrap(balance, at).value;
            && 0 < balance.minor && s.agents == map[] && s.intents == map[] && s.deposits == map[] && s.mode.Simulated?
            && s.ledger == [LedgerEvent(at, OwnerCapital, balance, None)]
            && s.audit == [Seal([], at, Owner, BootstrapTreasury, None)] && s.generation == 1 && !s.emergencyStop
            && s.provider == SimulatedProvider(balance, map[], map[])
            && Policies(s)
  {
  }

  lemma BootstrapIsSound(balance: Money, at: int, supply: Id)
    requires Bootstrap(balance, at).Ok?
    ensures Sound(Bootstrap(balance, at).value, supply) && Loadable(Bootstrap(balance, at).value)
  {
    hide Bootstrap, KindTotal, Reserved, LogSound, ChainVerifies, EmergencyCount, Seal, Policy.Valid;
    BootstrapShape(balance, at);
    var s := Bootstrap(balance, at).value;
    BootstrapTotals(s, LedgerEvent(at, OwnerCapital, balance, None));
    BootstrapLog(s, at);
    SoundLoads(s, supply);
  }

  predicate Policies(s: TreasuryState) {
    s.policies.Keys == {BootstrapPolicy} && s.policies[BootstrapPolicy].Valid()
  }

  lemma BootstrapTotals(s: TreasuryState, capital: LedgerEvent)
    requires s.ledger == [capital] && capital.kind.OwnerCapital? && s.intents == map[] && s.deposits == map[]
    ensures forall c: Currency, kind: LedgerEventKind ::
              KindTotal(s.ledger, kind, c) == if kind.OwnerCapital? && c == capital.amount.currency then capital.amount.minor else 0
    ensures forall c: Currency :: Reserved(s.intents, c) == 0
    ensures DepositsCounted(s)
  {
    forall c: Currency, kind: LedgerEventKind
      ensures KindTotal(s.ledger, kind, c) == if kind.OwnerCapital? && c == capital.amount.currency then capital.amount.minor else 0
    {
      SumSeqOne(capital, KindW(kind, c));
    }
  }

  lemma BootstrapLog(s: TreasuryState, at: int)
    requires s.audit == [Seal([], at, Owner, BootstrapTreasury, None)] && s.generation == 1 && !s.emergencyStop
    ensures LogSound(s)
  {
    AppendKeepsChain([], at, Owner, BootstrapTreasury, None);
    CountsAfterAppend([], Seal([], at, Owner, BootstrapTreasury, None));
    assert [] + [Seal([], at, Owner, BootstrapTreasury, None)] == s.audit;
  }

  lemma InitialIsSound(w: World)
    requires Initial(w) && 0 <= w.clock
    ensures WorldSound(w)
  {
    hide Sound, Loadable, Bootstrap;
    var balance: Money, at: int :| at <= w.clock && Bootstrap(balance, at).Ok?
         && w.memory == Some(Bootstrap(balance, at).value) && w.disk == {Bootstrap(balance, at).value};
    BootstrapIsSound(balance, at, w.supply);
  }
}
