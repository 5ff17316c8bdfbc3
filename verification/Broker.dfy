/**
 The broker itself: an object whose operations update its state in place, as `Treasury` does, each one
 proved to do what the specification says. An operation that fails may leave the state half written;
 `HandlePersisted` restores the snapshot it took, as the broker does.
 */
module Broker {
  import opened Results
  import opened Sums
  import opened MoneyMath
  import opened Records
  import opened AuditLog
  import opened Budget
  import Execution
  import opened Requests
  import opened Storage
  import opened Daemon
  import opened Steps
  import opened Handoff
  import opened Invariant
  import Serving
  import opened Runs
  import opened Folds

  /** What a fallible operation makes of the state; after an error the caller restores its snapshot. */
  predicate Gives(spec: Result<TreasuryState>, after: TreasuryState, r: Result<()>) {
    match spec
    case Ok(s') => r.Ok? && after == s'
    case Err(e) => r == Err(e)
  }

  /** What a request makes of the state; only a refusal is followed by a rollback. */
  predicate Does(step: Step, after: TreasuryState, r: Result<()>) {
    match step
    case Accept(s') => r.Ok? && after == s'
    case Throttle(s') => r == Err(RateLimited) && after == s'
    case Reject(e) => r == Err(e)
  }

  /** Running totals while `usage` loops, all in one currency; nothing exceeds the lifetime total. */
  datatype BudgetUsage = BudgetUsage(session: Money, rolling: Money, lifetime: Money, reserved: Money) {
    predicate Matches(currency: Currency) {
      && session.currency == rolling.currency == lifetime.currency == reserved.currency == currency
      && 0 <= reserved.minor <= lifetime.minor && 0 <= rolling.minor <= lifetime.minor && 0 <= session.minor <= lifetime.minor
    }

    /** Add a settled amount; only the lifetime total can overflow, for it is the largest. */
    function Settle(amount: Money, recent: bool, inSession: bool): (r: Result<BudgetUsage>)
      requires Matches(amount.currency) && 0 <= amount.minor
      ensures r.Ok? <==> Fits(lifetime.minor + amount.minor)
      ensures r.Err? ==> r == Err(MoneyError)
      ensures r.Ok? ==> r.value.Matches(amount.currency) && r.value.reserved == reserved
                        && r.value.lifetime.minor == lifetime.minor + amount.minor
                        && r.value.rolling.minor == rolling.minor + (if recent then amount.minor else 0)
                        && r.value.session.minor == session.minor + (if inSession then amount.minor else 0)
    {
      var longer :- lifetime.CheckedAdd(amount);
      var day :- if recent then rolling.CheckedAdd(amount) else Ok(rolling);
      var here :- if inSession then session.CheckedAdd(amount) else Ok(session);
      Ok(BudgetUsage(here, day, longer, reserved))
    }

    /** Add an open reservation; another currency makes it fail. */
    function Reserve(amount: Money, inSession: bool, currency: Currency): (r: Result<BudgetUsage>)
      requires Matches(currency) && 0 <= amount.minor
      ensures r.Ok? <==> amount.currency == currency && Fits(lifetime.minor + amount.minor)
      ensures r.Err? ==> r == Err(MoneyError)
      ensures r.Ok? ==> r.value.Matches(currency)
                        && r.value.reserved.minor == reserved.minor + amount.minor
                        && r.value.lifetime.minor == lifetime.minor + amount.minor
                        && r.value.rolling.minor == rolling.minor + amount.minor
                        && r.value.session.minor == session.minor + (if inSession then amount.minor else 0)
    {
      var held :- reserved.CheckedAdd(amount);
      var longer :- lifetime.CheckedAdd(amount);
      var day :- rolling.CheckedAdd(amount);
      var here :- if inSession then session.CheckedAdd(amount) else Ok(session);
      Ok(BudgetUsage(here, day, longer, held))
    }
  }

  function NoUsage(currency: Currency): BudgetUsage {
    BudgetUsage(Money(0, currency), Money(0, currency), Money(0, currency), Money(0, currency))
  }

  /** The broker, its disk and the time, as a world of `Daemon`. */
  ghost function Around(memory: Option<TreasuryState>, disk: set<TreasuryState>, at: int, supply: Id): World {
    World(memory, disk, at, supply, map[])
  }

  class Treasury {
    var state: TreasuryState

    ghost predicate Valid()
      reads this
    {
      Counted(state)
    }

    constructor (image: TreasuryState)
      ensures state == image
    {
      state := image;
    }

    // ----- audit -----

    method EmergencyEntries() returns (n: nat)
      ensures n == EmergencyCount(state.audit)
    {
      n := 0;
      for i := 0 to |state.audit|
        invariant n == EmergencyCount(state.audit[..i])
      {
        assert state.audit[..i + 1] == state.audit[..i] + [state.audit[i]];
        CountsAfterAppend(state.audit[..i], state.audit[i]);
        if IsEmergency(state.audit[i].body.action) {
          n := n + 1;
        }
      }
      assert state.audit[..|state.audit|] == state.audit;
    }

    method Audit(actor: Actor, action: AuditAction, intentId: Option<Id>, at: int) returns (r: Result<()>)
      modifies this
      ensures Gives(Record(old(state), actor, action, intentId, at), state, r)
      ensures r.Err? ==> state == old(state)
    {
      hide CapacityAllows, EmergencyCount;
      var emergency := EmergencyEntries();
      var nonEmergency := |state.audit| - emergency;
      if !CapacityAllows(nonEmergency, emergency, action) {
        return Err(Conflict);
      }
      state := state.(generation := state.generation + 1);
      var body := AuditBody(|state.audit| + 1, at, actor, action, intentId, LastHash(state.audit));
      state := state.(audit := state.audit + [AuditEntry(body, Mac(body))]);
      return Ok(());
    }

    /** `verify_audit_chain`: one pass, remembering the previous hash. */
    method VerifyAuditChain() returns (valid: bool)
      ensures valid <==> ChainVerifies(state.audit)
    {
      var previous := NoHash;
      for i := 0 to |state.audit|
        invariant previous == LastHash(state.audit[..i])
        invariant ChainVerifies(state.audit[..i])
      {
        var entry := state.audit[i];
        assert state.audit[..i + 1][..i] == state.audit[..i];
        if entry.body.sequence != i + 1 || entry.body.previous != previous || entry.hash != Mac(entry.body) {
          assert state.audit[i] == entry;
          return false;
        }
        ChainGrows(state.audit, i);
        previous := entry.hash;
      }
      assert state.audit[..|state.audit|] == state.audit;
      return true;
    }

    // ----- saving -----

    method PoliciesValid() returns (valid: bool)
      ensures valid <==> forall p :: p in state.policies ==> state.policies[p].Valid()
    {
      var rest := state.policies.Keys;
      while rest != {}
        invariant rest <= state.policies.Keys
        invariant forall p :: p in state.policies && p !in rest ==> state.policies[p].Valid()
        decreases |rest|
      {
        var p :| p in rest;
        if !state.policies[p].Valid() {
          return false;
        }
        rest := rest - {p};
      }
      return true;
    }

    method AgentsValid() returns (valid: bool)
      ensures valid <==> forall a :: a in state.agents ==> AgentStored(state, a)
    {
      var rest := state.agents.Keys;
      while rest != {}
        invariant rest <= state.agents.Keys
        invariant forall a :: a in state.agents && a !in rest ==> AgentStored(state, a)
        decreases |rest|
      {
        var a :| a in rest;
        var agent := state.agents[a];
        if agent.policyId !in state.policies || agent.sessionExpiresAt > agent.expiresAt
           || |agent.approvedMerchants| > MAX_AGENT_APPROVED_MERCHANTS {
          assert !AgentStored(state, a);
          return false;
        }
        rest := rest - {a};
      }
      return true;
    }

    method IntentsValid() returns (valid: bool)
      ensures valid <==> forall i :: i in state.intents ==> IntentStored(state, i)
    {
      var rest := state.intents.Keys;
      while rest != {}
        invariant rest <= state.intents.Keys
        invariant forall i :: i in state.intents && i !in rest ==> IntentStored(state, i)
        decreases |rest|
      {
        var i :| i in rest;
        var x := state.intents[i];
        if x.agentId !in state.agents || x.request.amount.minor <= 0 || x.request.finalTotal.minor <= 0 {
          assert !IntentStored(state, i);
          return false;
        }
        match x.receipt {
          case Some(receipt) =>
            if receipt.intentId != i {
              assert !IntentStored(state, i);
              return false;
            }
          case None =>
            if x.state.Settled? || x.state.Refunded? {
              assert !IntentStored(state, i);
              return false;
            }
        }
        rest := rest - {i};
      }
      return true;
    }

    method LedgerValid() returns (valid: bool)
      ensures valid <==> forall e :: e in state.ledger && e.intentId.Some? ==> e.intentId.value in state.intents
    {
      for n := 0 to |state.ledger|
        invariant forall e :: e in state.ledger[..n] && e.intentId.Some? ==> e.intentId.value in state.intents
      {
        var e := state.ledger[n];
        assert state.ledger[..n + 1] == state.ledger[..n] + [e];
        if e.intentId.Some? && e.intentId.value !in state.intents {
          assert e in state.ledger;
          return false;
        }
      }
      assert state.ledger[..|state.ledger|] == state.ledger;
      return true;
    }

    /** `validate_state`: quotas, policies, agents, intents, ledger and the balance of the mode in use, in that order. */
    method ValidateState() returns (valid: bool)
      ensures valid <==> ValidState(state)
    {
      hide AgentStored, IntentStored, Policy.Valid, EmergencyCount;
      var emergency := EmergencyEntries();
      if |state.audit| - emergency > MAX_AUDIT_ENTRIES || emergency > EMERGENCY_AUDIT_RESERVE + 1
         || |state.intents| > MAX_INTENTS || |state.agents| > MAX_AGENTS {
        return false;
      }
      var policies := PoliciesValid();
      if !policies {
        return false;
      }
      var agents := AgentsValid();
      if !agents {
        return false;
      }
      var intents := IntentsValid();
      if !intents {
        return false;
      }
      var ledger := LedgerValid();
      if !ledger {
        return false;
      }
      return if state.mode.Simulated? then 0 <= state.provider.balance.minor else state.manual.Some?;
    }

    /** `save_to`: nothing is written that could not be loaded again. */
    method SaveTo(disk: Disk, fault: SaveFault) returns (ok: bool)
      modifies disk
      ensures Save(state, old(disk.images), fault) == SaveResult(disk.images, ok)
    {
      hide ValidState, ChainVerifies;
      var valid := ValidateState();
      if !valid {
        return false;
      }
      var verifies := VerifyAuditChain();
      if !verifies {
        return false;
      }
      ok := disk.Replace(state, fault);
      assert disk.images == Save(state, old(disk.images), fault).disk;
    }

    // ----- money -----

    method RequireWorkflowCapacity(newSlots: nat) returns (r: Result<()>)
      ensures r.Ok? <==> WorkflowCapacityAllows(Used(state.audit), Execution.Owed(state.intents), newSlots)
      ensures r.Err? ==> r == Err(Conflict)
    {
      var emergency := EmergencyEntries();
      var used := |state.audit| - emergency;
      var reserved := 0;
      var rest := state.intents;
      while rest != map[]
        invariant PartOf(rest, state.intents)
        invariant reserved == Execution.Owed(state.intents) - Execution.Owed(rest)
        decreases |rest|
      {
        var i :| i in rest;
        NextEntry(state.intents, rest, i, Execution.OwedW());
        reserved := reserved + if rest[i].state.Executing? then 2 else if rest[i].state.Uncertain() then 1 else 0;
        rest := rest - {i};
      }
      if !WorkflowCapacityAllows(used, reserved, newSlots) {
        return Err(Conflict);
      }
      return Ok(());
    }

    method AppendLedger(kind: LedgerEventKind, amount: Money, intentId: Option<Id>, at: int)
      modifies this
      ensures state == Execution.Append(old(state), kind, amount, intentId, at)
    {
      state := state.(ledger := state.ledger + [LedgerEvent(at, kind, amount, intentId)]);
    }

    method LedgerHas(id: Id, kind: LedgerEventKind) returns (found: bool)
      ensures found <==> Execution.HasEvent(state.ledger, id, kind)
    {
      for i := 0 to |state.ledger|
        invariant !Execution.HasEvent(state.ledger[..i], id, kind)
      {
        if state.ledger[i].intentId == Some(id) && state.ledger[i].kind == kind {
          return true;
        }
        assert state.ledger[..i + 1] == state.ledger[..i] + [state.ledger[i]];
      }
      assert state.ledger[..|state.ledger|] == state.ledger;
      return false;
    }

    method RecordSettled(id: Id, amount: Money, at: int)
      modifies this
      ensures state == Execution.RecordSettled(old(state), id, amount, at)
    {
      var released := LedgerHas(id, HoldReleased);
      if !released {
        AppendLedger(HoldReleased, amount, Some(id), at);
      }
      var settled := LedgerHas(id, SpendingSettled);
      if settled {
        return;
      }
      AppendLedger(SpendingSettled, amount, Some(id), at);
    }

    /** Intents of one agent, or its recent ones. */
    method CountIntents(agent: Id, since: Option<int>) returns (n: nat)
      ensures since.None? ==> n == Sum(state.intents, AgentIntentW(agent))
      ensures since.Some? ==> n == Sum(state.intents, RecentW(agent, since.value))
    {
      n := 0;
      ghost var w := if since.None? then AgentIntentW(agent) else RecentW(agent, since.value);
      var rest := state.intents;
      while rest != map[]
        invariant PartOf(rest, state.intents)
        invariant n == Sum(state.intents, w) - Sum(rest, w)
        decreases |rest|
      {
        var i :| i in rest;
        NextEntry(state.intents, rest, i, w);
        if rest[i].agentId == agent && (since.None? || since.value <= rest[i].createdAt) {
          n := n + 1;
        }
        rest := rest - {i};
      }
    }

    /** The first loop of `usage`: checked running totals of what settled. */
    method SettledUsage(agent: Id, sessionId: Id, currency: Currency, at: int) returns (r: Result<BudgetUsage>)
      requires Valid()
      ensures r.Ok? ==> r.value.Matches(currency) && r.value.reserved.minor == 0
      ensures r.Ok? ==> r.value.lifetime.minor == SettledIn(state.intents, state.ledger, WholeAgent(agent), currency, Ever)
      ensures r.Ok? ==> r.value.rolling.minor == SettledIn(state.intents, state.ledger, WholeAgent(agent), currency, Since(at - DAY_SECS))
      ensures r.Ok? ==> r.value.session.minor == SettledIn(state.intents, state.ledger, OneSession(agent, sessionId), currency, Ever)
      ensures r.Err? ==> r == Err(MoneyError) && I64_MAX < SettledIn(state.intents, state.ledger, WholeAgent(agent), currency, Ever)
    {
      hide KeysUnique, SettledSoFar, SettledIn;
      var u := NoUsage(currency);
      ghost var whole, one, day := WholeAgent(agent), OneSession(agent, sessionId), Since(at - DAY_SECS);
      SettledEnds(state, whole, currency, Ever);
      SettledEnds(state, whole, currency, day);
      SettledEnds(state, one, currency, Ever);
      for n := 0 to |state.ledger|
        invariant u.Matches(currency) && u.reserved.minor == 0
        invariant u.lifetime.minor == SettledSoFar(state, whole, currency, Ever, n)
        invariant u.rolling.minor == SettledSoFar(state, whole, currency, day, n)
        invariant u.session.minor == SettledSoFar(state, one, currency, Ever, n)
      {
        var e := state.ledger[n];
        SettledNext(state, whole, currency, Ever, n);
        SettledNext(state, whole, currency, day, n);
        SettledNext(state, one, currency, Ever, n);
        if SettledFor(e, state.intents, WholeAgent(agent), currency) {
          u :- u.Settle(e.amount, e.at >= at - DAY_SECS, OneSession(agent, sessionId).CoversEvent(e, state.intents));
        }
      }
      return Ok(u);
    }

    /** The second loop of `usage`: every open reservation is added to all the totals it counts in. */
    method AddReservations(agent: Id, sessionId: Id, currency: Currency, settled: BudgetUsage) returns (r: Result<BudgetUsage>)
      requires Valid() && settled.Matches(currency) && settled.reserved.minor == 0
      ensures r.Ok? ==> r.value.Matches(currency) && !ForeignOpen(state.intents, agent, currency)
      ensures r.Ok? ==> r.value.reserved.minor == OpenIn(state.intents, WholeAgent(agent))
      ensures r.Ok? ==> r.value.lifetime.minor == settled.lifetime.minor + OpenIn(state.intents, WholeAgent(agent))
      ensures r.Ok? ==> r.value.rolling.minor == settled.rolling.minor + OpenIn(state.intents, WholeAgent(agent))
      ensures r.Ok? ==> r.value.session.minor == settled.session.minor + OpenIn(state.intents, OneSession(agent, sessionId))
      ensures r.Err? ==> r == Err(MoneyError)
      ensures r.Err? ==> ForeignOpen(state.intents, agent, currency)
                         || !Fits(settled.lifetime.minor + OpenIn(state.intents, WholeAgent(agent)))
    {
      hide ForeignOpen, VisitedMatch, OpenSoFar, OpenIn, OpenW, SettledIn, KeysUnique;
      VisitedAll(state.intents, agent, currency);
      var u := settled;
      ghost var whole, one := WholeAgent(agent), OneSession(agent, sessionId);
      OpenAll(state, whole);
      OpenAll(state, one);
      var rest := state.intents;
      while rest != map[]
        invariant PartOf(rest, state.intents) && u.Matches(currency)
        invariant u.reserved.minor == OpenSoFar(state, whole, rest)
        invariant u.lifetime.minor == settled.lifetime.minor + OpenSoFar(state, whole, rest)
        invariant u.rolling.minor == settled.rolling.minor + OpenSoFar(state, whole, rest)
        invariant u.session.minor == settled.session.minor + OpenSoFar(state, one, rest)
        invariant VisitedMatch(state.intents, rest, agent, currency)
        decreases |rest|
      {
        var i :| i in rest;
        var x := rest[i];
        OpenNext(state, whole, rest, i);
        OpenNext(state, one, rest, i);
        VisitNext(state.intents, rest, i, agent, currency);
        OpenWeighs(i, x, agent, sessionId);
        if x.agentId == agent && x.state.Open() {
          u :- u.Reserve(x.request.finalTotal, x.session == sessionId, currency);
        }
        rest := rest - {i};
      }
      return Ok(u);
    }

    /** `usage`: recomputed from the two histories, never stored. */
    method Usage(agent: Id, currency: Currency, at: int) returns (r: Result<Budget.Usage>)
      requires Valid()
      ensures r == UsageOf(state, agent, currency, at)
    {
      if agent !in state.agents {
        return Err(NotFound);
      }
      var sessionId := state.agents[agent].session;
      var recent := CountIntents(agent, Some(at - MINUTE_SECS));
      OpenAll(state, WholeAgent(agent));
      var settled :- SettledUsage(agent, sessionId, currency, at);
      var u :- AddReservations(agent, sessionId, currency, settled);
      return Ok(Budget.Usage(u.session.minor, u.rolling.minor, u.lifetime.minor, u.reserved.minor, recent));
    }

    /** The first loop of `ledger_snapshot`. */
    method LedgerSums(currency: Currency) returns (r: Result<LedgerSnapshot>)
      requires Valid()
      ensures r.Ok? ==> r.value == LedgerTotals(state.ledger, currency) && Fits(r.value.verifiedIncome) && Fits(r.value.unverifiedIncome)
      ensures r.Err? ==> r == Err(MoneyError) && !SnapshotTotals(state, currency).NoOverflow()
    {
      hide KindTotal, AddEvent, Reserved;
      var sums := LedgerSnapshot(0, 0, 0, 0, 0, 0, 0);
      SnapshotIs(state, currency);
      ReservedNonNegative(state, currency);
      NoTotals(state.ledger, currency);
      for n := 0 to |state.ledger|
        invariant sums == LedgerTotals(state.ledger[..n], currency)
        invariant Fits(sums.verifiedIncome) && Fits(sums.unverifiedIncome)
      {
        AddFits(sums, state.ledger[n].kind, state.ledger[n].amount.minor);
        TotalsNext(state.ledger, n, currency, Reserved(state.intents, currency));
        if state.ledger[n].amount.currency == currency {
          sums :- AddEvent(sums, state.ledger[n].kind, state.ledger[n].amount.minor);
        }
      }
      return Ok(sums);
    }

    /** The second loop of `ledger_snapshot`. */
    method ReservedSum(currency: Currency) returns (r: Result<int>)
      requires Valid()
      ensures r == if Fits(Reserved(state.intents, currency)) then Ok(Reserved(state.intents, currency)) else Err(MoneyError)
    {
      hide Reserved, ReservedW, KeysUnique;
      ReservedNonNegative(state, currency);
      var reserved := 0;
      var rest := state.intents;
      while rest != map[]
        invariant PartOf(rest, state.intents) && Fits(reserved)
        invariant reserved == Reserved(state.intents, currency) - Reserved(rest, currency) && 0 <= reserved
        decreases |rest|
      {
        var i :| i in rest;
        ReservedNext(state, currency, rest, i);
        ReservedWeighs(i, rest[i], currency);
        if rest[i].request.finalTotal.currency == currency && rest[i].state.Open() {
          reserved :- CheckedSum(reserved, rest[i].request.finalTotal.minor);
        }
        rest := rest - {i};
      }
      return Ok(reserved);
    }

    /** `ledger_snapshot`: what is left of the money after everything settled or still reserved. */
    method Snapshot(currency: Currency) returns (r: Result<LedgerSnapshot>)
      requires Valid()
      ensures r == SnapshotOf(state, currency)
    {
      hide Reserved, LedgerTotals, SnapshotTotals;
      var sums :- LedgerSums(currency);
      ReservedNonNegative(state, currency);
      SumsAreBelow(state, currency);
      SnapshotIs(state, currency);
      var reserved :- ReservedSum(currency);
      var capital :- CheckedSum(sums.ownerCapital, sums.operatorTopups);
      var credits :- CheckedSum(capital, sums.refunds);
      var debits :- CheckedSum(sums.settledSpending, reserved);
      var available :- CheckedSum(credits, -debits);
      if available < 0 {
        return Err(Conflict);
      }
      return Ok(sums.(reserved := reserved));
    }

    // ----- balances and decisions -----

    /** `SimulatedProvider::available_balance`: the balance less every hold. */
    method SimulatedAvailable() returns (r: Result<Money>)
      requires Valid() && state.mode.Simulated?
      ensures r == ProviderAvailable(state.provider)
    {
      hide ProviderAvailable;
      HoldsAreCounted(state);
      r := AvailableOf(state.provider);
    }

    /** `provider_available_balance`. */
    method Available(at: int) returns (r: Result<Money>)
      requires Valid()
      ensures r == AvailableBalance(state, at)
    {
      if state.mode.Simulated? {
        r := SimulatedAvailable();
        return;
      }
      if state.manual.None? {
        return Err(Conflict);
      }
      var reported :- FreshManualBalance(state.manual.value, at);
      var snapshot :- Snapshot(reported.currency);
      return Uncommitted(reported, snapshot);
    }

    /** `provider_reported_balance`. */
    method Reported() returns (r: Result<Money>)
      requires Valid()
      ensures r == ReportedBalance(state)
    {
      if state.mode.Simulated? {
        r := SimulatedAvailable();
        return;
      }
      if state.manual.None? {
        return Err(Conflict);
      }
      return Ok(state.manual.value.amount);
    }

    /** `enforce_authority`: the decision becomes a denial where ledger, provider or ceiling does not cover the total. */
    method Enforce(decision: Decision, r: PurchaseRequest, u: Budget.Usage, policy: Policy, at: int) returns (d: Result<Decision>)
      requires Valid()
      ensures d == EnforceAuthority(state, decision, r, u, policy, at)
    {
      hide SnapshotOf, AvailableBalance;
      if r.finalTotal.currency != policy.currency {
        return Ok(decision);
      }
      var final := decision;
      var ledger :- Snapshot(policy.currency);
      if ledger.Authority() < r.finalTotal.minor {
        final := Deny;
      }
      var available :- Available(at);
      if available.minor < r.finalTotal.minor {
        final := Deny;
      }
      if state.mode.ManualPrepaidCard? && state.manual.None? {
        return Err(Conflict);
      }
      var configured := if state.mode.Simulated? then state.provider.balance else state.manual.value.amount;
      if configured.minor > policy.maxTreasurySize {
        final := Deny;
      }
      var exposed :- CheckedSum(u.lifetime, r.finalTotal.minor);
      if exposed > policy.exposureCeiling {
        final := Deny;
      }
      return Ok(final);
    }

    /** Usage, policy evaluation and authority, as taken when an intent is created and again before it executes. */
    method Judge(agent: Id, r: PurchaseRequest, policy: Policy, at: int, verdict: Verdict) returns (d: Result<Decision>)
      requires Valid()
      ensures d == Decide(state, agent, r, policy, at, verdict)
    {
      hide UsageOf, EnforceAuthority, Evaluate;
      var u :- Usage(agent, policy.currency, at);
      assert agent in state.agents by {
        KnownAgent(state, agent, policy.currency, at);
      }
      var decision :- Evaluate(policy, r, u, state.agents[agent].mode, state.emergencyStop, verdict);
      d := Enforce(decision, r, u, policy, at);
    }

    // ----- reservation and outcomes -----

    /** `prepare_intent_execution`. */
    method PrepareExecution(agent: Id, id: Id, at: int, verdict: Verdict) returns (r: Result<()>)
      requires Valid()
      modifies this
      ensures Gives(Execution.Prepare(old(state), agent, id, at, verdict), state, r)
    {
      hide Decide, Used, EmergencyCount, Record;
      var _ :- RequireWorkflowCapacity(Execution.PREPARE_SLOTS);
      var existing :- Execution.ExecutableIntent(state, agent, id);
      var policy :- Execution.PolicyOf(state, agent);
      var _ :- Execution.SessionCurrent(existing, state.agents[agent], policy, at);
      var decision :- Judge(agent, existing.request, policy, at, verdict);
      if !(decision.Allow? || (existing.state.Approved? && decision.NeedApproval?)) {
        return Err(Forbidden);
      }
      var reserved := existing.To(FundsReserved, at);
      AppendLedger(HoldReserved, reserved.request.finalTotal, Some(id), at);
      var _ :- Audit(AgentActor(agent), ReserveFunds, Some(id), at);
      RecordKeeps(Execution.Append(old(state), HoldReserved, reserved.request.finalTotal, Some(id), at),
                  AgentActor(agent), ReserveFunds, Some(id), at);
      var executing := reserved.To(Executing, at);
      state := state.(intents := state.intents[id := executing]);
      return Ok(());
    }

    /** `SimulatedProvider::authorize`. */
    method AuthorizeSimulated(id: Id, request: PurchaseRequest, nextId: Id) returns (r: Result<ProviderOutcome>)
      requires Valid() && state.mode.Simulated?
      modifies this
      ensures match Execution.Authorize(old(state).provider, id, request, nextId)
              case Ok((p, outcome)) => r == Ok(outcome) && state == old(state).(provider := p)
              case Err(e) => r == Err(e) && state == old(state)
    {
      hide ProviderAvailable;
      var p := state.provider;
      if id in p.charges {
        return Ok(ProviderApproved(p.charges[id].reference));
      }
      if request.scenario.Decline? {
        return Ok(ProviderDeclined);
      }
      if request.scenario.TimeoutBeforeSubmit? {
        return Ok(ProviderUnknown);
      }
      var available :- SimulatedAvailable();
      if available.minor < request.finalTotal.minor {
        return Ok(ProviderDeclined);
      }
      if request.scenario.DelayedSettlement? {
        state := state.(provider := p.(holds := p.holds[id := request.finalTotal]));
        return Ok(ProviderDelayed(nextId));
      }
      var balance :- p.balance.CheckedSub(request.finalTotal);
      p := p.(balance := balance);
      p := p.(charges := p.charges[id := Charge(request.finalTotal, nextId, !request.scenario.TimeoutAfterSubmit?, false)]);
      state := state.(provider := p);
      if request.scenario.TimeoutAfterSubmit? || request.scenario.BrowserCrash? {
        return Ok(ProviderUnknown);
      }
      return Ok(ProviderApproved(nextId));
    }

    /** `apply_provider_outcome`: the intent is stored last, after its ledger events and its audit entry. */
    method ApplyOutcome(agent: Id, id: Id, outcome: ProviderOutcome, at: int) returns (r: Result<()>)
      modifies this
      ensures var attempt := Execution.ApplyOutcome(old(state), agent, id, outcome, at);
              state == attempt.state && (if attempt.error.None? then r.Ok? else r == Err(attempt.error.value))
    {
      hide Record, Execution.RecordSettled;
      var intent :- Execution.IntentOf(state, agent, id);
      if !intent.state.Executing? {
        return Err(Conflict);
      }
      match outcome {
        case ProviderApproved(reference) =>
          intent := intent.(reference := Some(reference));
          intent := intent.To(TransactionState.Settled, at);
          intent :- Execution.IssueReceipt(id, intent, at);
          RecordSettled(id, intent.request.finalTotal, at);
        case ProviderDeclined =>
          intent := intent.To(Declined, at);
          AppendLedger(HoldReleased, intent.request.finalTotal, Some(id), at);
        case ProviderDelayed(reference) =>
          intent := intent.(reference := Some(reference));
          intent := intent.To(ProviderPending, at);
        case ProviderUnknown =>
          intent := intent.To(Unknown, at);
      }
      ghost var paid := state;
      var _ :- Audit(AgentActor(agent), ProviderOutcomeSeen, Some(id), at);
      RecordKeeps(paid, AgentActor(agent), ProviderOutcomeSeen, Some(id), at);
      state := state.(intents := state.intents[id := intent]);
      return Ok(());
    }

    /** `complete_intent_execution`. */
    method CompleteExecution(agent: Id, id: Id, at: int, nextId: Id) returns (r: Result<()>)
      requires Valid()
      modifies this
      ensures var attempt := Execution.Complete(old(state), agent, id, at, nextId);
              state == attempt.state && (if attempt.error.None? then r.Ok? else r == Err(attempt.error.value))
    {
      hide Execution.ApplyOutcome, Execution.Authorize;
      if agent !in state.agents {
        return Err(NotFound);
      }
      var intent :- Execution.IntentOf(state, agent, id);
      if !intent.state.Executing? {
        return Err(Conflict);
      }
      var outcome := ProviderUnknown;
      if state.mode.Simulated? {
        outcome :- AuthorizeSimulated(id, intent.request, nextId);
      } else if state.manual.None? {
        return Err(Conflict);
      }
      r := ApplyOutcome(agent, id, outcome, at);
    }

    /** `quarantine_execution`. */
    method QuarantineExecution(id: Id, at: int) returns (r: Result<()>)
      modifies this
      ensures var attempt := Execution.Quarantine(old(state), id, at);
              state == attempt.state && (if attempt.error.None? then r.Ok? else r == Err(attempt.error.value))
    {
      hide Record;
      if id !in state.intents {
        return Err(NotFound);
      }
      var intent := state.intents[id];
      if intent.state.Executing? {
        intent := intent.To(Unknown, at);
      } else if !intent.state.Unknown? {
        return Ok(());
      }
      state := state.(intents := state.intents[id := intent]);
      r := Audit(BrokerActor, QuarantineProviderError, Some(id), at);
    }

    // ----- recovery -----

    /** The interrupted executions in key order. */
    method InterruptedIds() returns (ids: seq<Id>)
      ensures ids == Execution.Ascending(Execution.Interrupted(state.intents))
    {
      var rest := set i | i in state.intents && state.intents[i].state.Executing?;
      ghost var all := rest;
      ids := [];
      while rest != {}
        invariant ids + Execution.Ascending(rest) == Execution.Ascending(all)
        decreases |rest|
      {
        var least := Least(rest);
        LeastComesFirst(rest, least);
        assert ids + ([least] + Execution.Ascending(rest - {least})) == (ids + [least]) + Execution.Ascending(rest - {least});
        ids := ids + [least];
        rest := rest - {least};
      }
      assert ids + [] == ids;
    }

    /** `recover_interrupted_executions`: every interrupted execution becomes unknown, with an entry each. */
    method RecoverInterrupted(at: int) returns (r: Result<()>)
      modifies this
      ensures Gives(Execution.Recover(old(state), at), state, r)
    {
      hide Record, Execution.Ascending;
      var ids := InterruptedIds();
      ghost var before := state;
      assert forall i :: i in ids ==> i in state.intents && state.intents[i].state.Executing? by {
        AscendingMembers(state.intents);
      }
      for k := 0 to |ids|
        invariant forall i :: i in ids ==> i in state.intents
        invariant Execution.RecoverAll(state, ids[k..], at) == Execution.Recover(before, at)
      {
        var id := ids[k];
        assert ids[k..][0] == id && ids[k..][1..] == ids[k + 1..];
        var intent :- state.intents[id].Transition(Unknown, at);
        state := state.(intents := state.intents[id := intent]);
        ghost var marked := state;
        var _ :- Audit(BrokerActor, RecoverInterruptedExecution, Some(id), at);
        RecordKeeps(marked, BrokerActor, RecoverInterruptedExecution, Some(id), at);
      }
      return Ok(());
    }

    // ----- reconciliation -----

    /** `SimulatedProvider::settle_pending`. */
    method SettlePendingHold(id: Id, nextId: Id) returns (r: Result<Id>)
      modifies this
      ensures match Execution.SettlePending(old(state).provider, id, nextId)
              case Ok((p, reference)) => r == Ok(reference) && state == old(state).(provider := p)
              case Err(e) => r == Err(e)
    {
      var p := state.provider;
      if id !in p.holds {
        return Err(NotFound);
      }
      var amount := p.holds[id];
      p := p.(holds := p.holds - {id});
      state := state.(provider := p);
      var balance :- p.balance.CheckedSub(amount);
      p := p.(balance := balance, charges := p.charges[id := Charge(amount, nextId, true, false)]);
      state := state.(provider := p);
      return Ok(nextId);
    }

    /** `SimulatedProvider::reconcile_settled`. */
    method SettleAtProvider(id: Id, total: Money, reference: Id, nextId: Id) returns (r: Result<Id>)
      requires Valid() && state.mode.Simulated?
      modifies this
      ensures match Execution.ReconcileSettled(old(state).provider, id, total, reference, nextId)
              case Ok((p, settled)) => r == Ok(settled) && state == old(state).(provider := p)
              case Err(e) => r == Err(e)
    {
      hide ProviderAvailable;
      var p := state.provider;
      if id in p.holds {
        r := SettlePendingHold(id, nextId);
        return;
      }
      if id in p.charges {
        p := p.(charges := p.charges[id := p.charges[id].(settled := true)]);
        state := state.(provider := p);
        return Ok(p.charges[id].reference);
      }
      var available :- SimulatedAvailable();
      if available.minor < total.minor {
        return Err(MoneyError);
      }
      var balance :- p.balance.CheckedSub(total);
      p := p.(balance := balance, charges := p.charges[id := Charge(total, reference, true, false)]);
      state := state.(provider := p);
      return Ok(reference);
    }

    /** `SimulatedProvider::refund`. */
    method RefundAtProvider(id: Id) returns (r: Result<Money>)
      modifies this
      ensures match Execution.RefundCharge(old(state).provider, id)
              case Ok((p, amount)) => r == Ok(amount) && state == old(state).(provider := p)
              case Err(e) => r == Err(e)
    {
      var p := state.provider;
      if id !in p.charges {
        return Err(NotFound);
      }
      if p.charges[id].refunded {
        return Err(Conflict);
      }
      p := p.(charges := p.charges[id := p.charges[id].(refunded := true)]);
      state := state.(provider := p);
      var balance :- p.balance.CheckedAdd(p.charges[id].amount);
      p := p.(balance := balance);
      state := state.(provider := p);
      return Ok(p.charges[id].amount);
    }

    /** Settle an intent: reference, transition, receipt, and its ledger events. */
    method SettleIntent(id: Id, x: Intent, reference: Id, at: int) returns (r: Result<Intent>)
      modifies this
      ensures match Execution.Settle(old(state), id, x, reference, at)
              case Ok((s', settled)) => r == Ok(settled) && state == s'
              case Err(e) => r == Err(e)
    {
      var intent := x.(reference := Some(reference));
      intent :- intent.Transition(TransactionState.Settled, at);
      intent :- Execution.IssueReceipt(id, intent, at);
      RecordSettled(id, intent.request.finalTotal, at);
      return Ok(intent);
    }

    method ReconcileSettledIntent(id: Id, x: Intent, reference: Option<Id>, at: int, nextId: Id) returns (r: Result<Intent>)
      requires Valid()
      modifies this
      ensures match Execution.ReconcileAsSettledEffect(old(state), id, x, reference, at, nextId)
              case Ok((s', settled)) => r == Ok(settled) && state == s'
              case Err(e) => r == Err(e)
    {
      hide Execution.ReconcileSettled, Execution.Settle;
      var settledAs: Id := nextId;
      if state.mode.Simulated? {
        var preferred := if reference.Some? then reference.value else if x.reference.Some? then x.reference.value else nextId;
        settledAs :- SettleAtProvider(id, x.request.finalTotal, preferred, nextId + 1);
      } else {
        if reference.None? {
          return Err(Invalid);
        }
        if state.manual.None? {
          return Err(Conflict);
        }
        var card := state.manual.value;
        if card.amount.minor < x.request.finalTotal.minor {
          return Err(Conflict);
        }
        var left :- card.amount.CheckedSub(x.request.finalTotal);
        state := state.(manual := Some(card.(amount := left)));
        settledAs := reference.value;
      }
      r := SettleIntent(id, x, settledAs, at);
    }

    method ReconcileDeclinedIntent(id: Id, x: Intent, at: int) returns (r: Result<Intent>)
      modifies this
      ensures match Execution.ReconcileAsDeclinedEffect(old(state), id, x, at)
              case Ok((s', declined)) => r == Ok(declined) && state == s'
              case Err(e) => r == Err(e)
    {
      if state.mode.Simulated? && id in state.provider.charges {
        return Err(Conflict);
      }
      if state.mode.Simulated? {
        state := state.(provider := state.provider.(holds := state.provider.holds - {id}));
      }
      var intent :- x.Transition(Declined, at);
      AppendLedger(HoldReleased, intent.request.finalTotal, Some(id), at);
      return Ok(intent);
    }

    method ReconcileRefundedIntent(id: Id, x: Intent, reference: Option<Id>, at: int) returns (r: Result<Intent>)
      modifies this
      ensures match Execution.ReconcileAsRefundedEffect(old(state), id, x, reference, at)
              case Ok((s', refunded)) => r == Ok(refunded) && state == s'
              case Err(e) => r == Err(e)
    {
      hide Execution.Settle, Execution.RefundCharge;
      var wasSettled := x.state.Settled?;
      var intent := x;
      if !wasSettled {
        if reference.None? {
          return Err(Invalid);
        }
        intent :- SettleIntent(id, intent, reference.value, at);
      }
      var refund := intent.request.finalTotal;
      if state.mode.Simulated? {
        refund :- RefundAtProvider(id);
      } else {
        if state.manual.None? {
          return Err(Conflict);
        }
        if wasSettled {
          var card := state.manual.value;
          var credited :- card.amount.CheckedAdd(intent.request.finalTotal);
          state := state.(manual := Some(card.(amount := credited)));
        }
      }
      intent :- intent.Transition(Refunded, at);
      AppendLedger(Refund, refund, Some(id), at);
      return Ok(intent);
    }

    /** `owner_reconcile_inner` up to its audit entry. */
    method ReconcileIntent(id: Id, outcome: Execution.ReconciliationOutcome, reference: Option<Id>, malformed: bool, at: int, nextId: Id)
      returns (r: Result<()>)
      requires Valid()
      modifies this
      ensures Gives(Execution.Reconcile(old(state), id, outcome, reference, malformed, at, nextId), state, r)
    {
      hide Execution.ReconcileAsSettledEffect, Execution.ReconcileAsDeclinedEffect, Execution.ReconcileAsRefundedEffect;
      if reference.Some? && malformed {
        return Err(Invalid);
      }
      if id !in state.intents {
        return Err(NotFound);
      }
      if !Execution.Reconcilable(state.intents[id].state, outcome) {
        return Err(Conflict);
      }
      var intent :- Execution.Reopen(state.intents[id], at);
      var final: Intent;
      match outcome {
        case ReconcileAsSettled => final :- ReconcileSettledIntent(id, intent, reference, at, nextId);
        case ReconcileAsDeclined => final :- ReconcileDeclinedIntent(id, intent, at);
        case ReconcileAsRefunded => final :- ReconcileRefundedIntent(id, intent, reference, at);
      }
      assert state.intents == old(state).intents by {
        EffectKeepsIntents(old(state), id, intent, outcome, reference, at, nextId);
      }
      state := state.(intents := state.intents[id := final]);
      return Ok(());
    }

    // ----- agent requests -----

    /** The agent's earlier intent under an idempotency key, if there is one. */
    method FindByKey(agent: Id, key: nat) returns (found: Option<Id>)
      ensures found.Some? ==> found.value in state.intents && SameKey(state.intents[found.value], agent, key)
      ensures found.None? ==> forall i :: i in state.intents ==> !SameKey(state.intents[i], agent, key)
    {
      var rest := state.intents;
      while rest != map[]
        invariant PartOf(rest, state.intents)
        invariant forall i :: i in state.intents && i !in rest ==> !SameKey(state.intents[i], agent, key)
        decreases |rest|
      {
        var i :| i in rest;
        if SameKey(rest[i], agent, key) {
          return Some(i);
        }
        rest := rest - {i};
      }
      return None;
    }

    method HasDuplicate(agent: Id, r: PurchaseRequest, at: int) returns (found: bool)
      ensures found <==> exists i :: i in state.intents && LikelyDuplicate(state.intents[i], agent, r, at)
    {
      var rest := state.intents;
      while rest != map[]
        invariant PartOf(rest, state.intents)
        invariant forall i :: i in state.intents && i !in rest ==> !LikelyDuplicate(state.intents[i], agent, r, at)
        decreases |rest|
      {
        var i :| i in rest;
        if LikelyDuplicate(rest[i], agent, r, at) {
          return true;
        }
        rest := rest - {i};
      }
      return false;
    }

    /** Newest entry first, as the broker looks for its own last refusal. */
    method RecentlyLimited(agent: Id, at: int) returns (found: bool)
      ensures found <==> RateLimitRecorded(state.audit, agent, at)
    {
      var n := |state.audit|;
      while n > 0
        invariant 0 <= n <= |state.audit| && !RateLimitRecorded(state.audit[n..], agent, at)
      {
        n := n - 1;
        var e := state.audit[n];
        assert state.audit[n..] == [e] + state.audit[n + 1..];
        if at - MINUTE_SECS <= e.body.at && e.body.actor == AgentActor(agent) && e.body.action.TransactionRateLimited? {
          return true;
        }
      }
      assert state.audit[0..] == state.audit;
      return false;
    }

    /** The second half of `create_intent`: decide, log, and store the new intent. */
    method AdmitPurchase(agent: Id, purchase: PurchaseRequest, policy: Policy, env: Env) returns (r: Result<()>)
      requires Valid() && agent in state.agents
      modifies this
      ensures match StoreIntent(old(state), agent, purchase, policy, env)
              case Ok(draft) => Does(Commit(old(state), draft, env.at), state, r)
              case Err(e) => r == Err(e)
    {
      hide Decide, Record, FinalDecision, InitialState;
      var judged :- Judge(agent, purchase, policy, env.at, env.verdict);
      var intent := Propose(agent, purchase, policy, judged, env.at);
      ghost var before := state;
      RecordCommutes(before, before.intents[env.nextId := intent], AgentActor(agent), CreatePurchaseIntent, Some(env.nextId), env.at);
      var _ :- Audit(AgentActor(agent), CreatePurchaseIntent, Some(env.nextId), env.at);
      RecordKeeps(before, AgentActor(agent), CreatePurchaseIntent, Some(env.nextId), env.at);
      state := state.(intents := state.intents[env.nextId := intent]);
      return Ok(());
    }

    /** The new intent, moved along the table to where its decision puts it. */
    method Propose(agent: Id, purchase: PurchaseRequest, policy: Policy, judged: Decision, at: int) returns (intent: Intent)
      requires agent in state.agents
      ensures intent == Intent(agent, state.agents[agent].session, purchase,
                               InitialState(FinalDecision(state, agent, purchase, judged, at)), policy.version, at, at, None, None)
    {
      var decision := judged;
      var duplicate := HasDuplicate(agent, purchase, at);
      if decision.Allow? && duplicate {
        decision := NeedApproval;
      }
      if OwnerMustCheckOut(state) && !decision.Deny? {
        decision := NeedApproval;
      }
      intent := Intent(agent, state.agents[agent].session, purchase, Draft, policy.version, at, at, None, None);
      intent := intent.To(Proposed, at);
      if decision.Deny? {
        intent := intent.To(Failed, at);
      } else if decision.NeedApproval? {
        intent := intent.To(ApprovalRequired, at);
      } else {
        intent := intent.To(PolicyValidated, at);
      }
    }

    /** `create_intent`. */
    method CreateIntent(agent: Id, purchase: PurchaseRequest, env: Env) returns (r: Result<()>)
      requires Valid()
      modifies this
      ensures Does(Handle(old(state), CreateIntentRequest(agent, purchase), env), state, r)
      ensures r == Err(RateLimited) && Handle(old(state), CreateIntentRequest(agent, purchase), env).Reject? ==> state == old(state)
    {
      hide UsageOf, StoreIntent, Record;
      if agent !in state.agents {
        return Err(NotFound);
      }
      if env.verdict.uncanonical {
        return Err(Invalid);
      }
      var existing := FindByKey(agent, purchase.key);
      if existing.Some? {
        KeyIsUnique(state, existing.value, agent, purchase);
        if state.intents[existing.value].request == purchase {
          return Ok(());
        }
        return Err(Conflict);
      }
      if |state.intents| >= MAX_INTENTS {
        return Err(Conflict);
      }
      var count := CountIntents(agent, None);
      if count >= MAX_INTENTS_PER_AGENT {
        return Err(Conflict);
      }
      var policy :- Execution.PolicyOf(state, agent);
      if !state.emergencyStop && state.agents[agent].sessionExpiresAt <= env.at {
        return Err(Forbidden);
      }
      var u :- Usage(agent, policy.currency, env.at);
      if u.recent >= policy.maxPerMinute {
        var recorded := RecentlyLimited(agent, env.at);
        if !recorded {
          var _ :- Audit(AgentActor(agent), TransactionRateLimited, None, env.at);
        }
        return Err(RateLimited);
      }
      r := AdmitPurchase(agent, purchase, policy, env);
      StoringIsNotLimited(old(state), agent, purchase, policy, env);
    }

    /** `cancel_intent`. */
    method CancelIntentRequest(agent: Id, id: Id, env: Env) returns (r: Result<()>)
      modifies this
      ensures Does(Handle(old(state), CancelRequest(agent, id), env), state, r)
    {
      hide Record;
      if agent !in state.agents {
        return Err(NotFound);
      }
      var intent :- Execution.IntentOf(state, agent, id);
      if !(intent.state.Proposed? || intent.state.ApprovalRequired? || intent.state.PolicyValidated?) {
        return Err(Conflict);
      }
      intent :- intent.Transition(Cancelled, env.at);
      state := state.(intents := state.intents[id := intent]);
      r := Audit(AgentActor(agent), CancelIntent, Some(id), env.at);
    }

    // ----- owner requests on agents -----

    method CheckExposure(policy: Policy) returns (r: Result<()>)
      requires Valid()
      ensures r == PolicyCoversAuthority(state, policy)
    {
      hide SnapshotOf;
      var snapshot :- Snapshot(policy.currency);
      if snapshot.Authority() > policy.exposureCeiling {
        return Err(Forbidden);
      }
      return Ok(());
    }

    /** `owner_create_agent`. */
    method CreateAgent(policy: Policy, mode: AutonomyMode, ttl: i64, env: Env) returns (r: Result<()>)
      requires Valid()
      modifies this
      ensures Does(Handle(old(state), CreateAgentRequest(policy, mode, ttl), env), state, r)
    {
      hide CreateAgentStep, Record;
      r := MakeAgent(policy, mode, ttl, env);
    }

    /** Check quota, policy, exposure and lifetime, then store policy and agent. */
    method MakeAgent(policy: Policy, mode: AutonomyMode, ttl: i64, env: Env) returns (r: Result<()>)
      requires Valid()
      modifies this
      ensures match CreateAgentStep(old(state), policy, mode, ttl, env)
              case Ok(draft) => Does(Commit(old(state), draft, env.at), state, r)
              case Err(e) => r == Err(e)
    {
      hide SnapshotOf, PolicyCoversAuthority, Record, Policy.Valid, Min;
      if |state.agents| >= MAX_AGENTS {
        return Err(Conflict);
      }
      if env.verdict.malformed || !policy.Valid() {
        return Err(Invalid);
      }
      var _ :- CheckExposure(policy);
      if !AgentTtlOk(ttl) {
        return Err(Invalid);
      }
      var expires := if state.emergencyStop then 0 else env.at + Min(ttl, policy.sessionTtl);
      var agent := Agent(AgentPolicy(env.nextId), {}, env.nextId + 1, expires, mode, env.at + env.lag + ttl, false);
      r := StoreAgent(env.nextId, policy.(version := 1), agent, env.at);
    }

    /** Store a new agent with its policy, and log it. */
    method StoreAgent(id: Id, policy: Policy, agent: Agent, at: int) returns (r: Result<()>)
      modifies this
      ensures var s := old(state);
              Gives(Record(s.(policies := s.policies[AgentPolicy(id) := policy], agents := s.agents[id := agent]),
                           Owner, AuditAction.CreateAgent, None, at), state, r)
    {
      hide Record;
      state := state.(policies := state.policies[AgentPolicy(id) := policy]);
      state := state.(agents := state.agents[id := agent]);
      r := Audit(Owner, AuditAction.CreateAgent, None, at);
    }

    /** `owner_arm_agent_session`: a fresh session, never outliving the agent. */
    method ArmSession(id: Id, ttl: i64, env: Env) returns (r: Result<()>)
      modifies this
      ensures Does(Handle(old(state), ArmSessionRequest(id, ttl), env), state, r)
    {
      hide Record;
      if state.emergencyStop {
        return Err(Forbidden);
      }
      var policy :- Execution.PolicyOf(state, id);
      if !(0 < ttl <= policy.sessionTtl) {
        return Err(Invalid);
      }
      var agent := state.agents[id];
      agent := agent.(session := env.nextId);
      agent := agent.(sessionExpiresAt := Min(env.at + ttl, agent.expiresAt));
      state := state.(agents := state.agents[id := agent]);
      r := Audit(Owner, AuditAction.ArmSession, None, env.at);
    }

    /** `owner_update_policy`. */
    method UpdatePolicy(id: Id, policy: Policy, env: Env) returns (r: Result<()>)
      requires Valid()
      modifies this
      ensures Does(Handle(old(state), UpdatePolicyRequest(id, policy), env), state, r)
    {
      hide SnapshotOf, PolicyCoversAuthority, Record;
      if env.verdict.malformed || !policy.Valid() {
        return Err(Invalid);
      }
      var _ :- CheckExposure(policy);
      var current :- Execution.PolicyOf(state, id);
      state := state.(policies := state.policies[state.agents[id].policyId := policy.(version := current.version + 1)]);
      r := Audit(Owner, AuditAction.UpdatePolicy, None, env.at);
    }

    /** Every session is replaced by one nobody holds. */
    method StopAgents(nextId: Id)
      modifies this
      ensures state == old(state).(agents := StoppedAgents(old(state).agents, nextId))
    {
      var agents := state.agents;
      var rest := agents.Keys;
      while rest != {}
        invariant rest <= agents.Keys && agents.Keys == state.agents.Keys
        invariant forall a :: a in agents ==>
                    agents[a] == if a in rest then state.agents[a] else state.agents[a].(session := nextId + a, sessionExpiresAt := 0)
        decreases |rest|
      {
        var a :| a in rest;
        agents := agents[a := agents[a].(session := nextId + a, sessionExpiresAt := 0)];
        rest := rest - {a};
      }
      assert agents == StoppedAgents(state.agents, nextId);
      state := state.(agents := agents);
    }

    /** `owner_emergency_stop`. */
    method EmergencyStop(stopped: bool, env: Env) returns (r: Result<()>)
      modifies this
      ensures Does(Handle(old(state), EmergencyStopRequest(stopped), env), state, r)
    {
      hide Record, StoppedAgents;
      if state.emergencyStop == stopped {
        return Ok(());
      }
      if stopped {
        StopAgents(env.nextId);
      }
      state := state.(emergencyStop := stopped);
      r := Audit(Owner, if stopped then EmergencyStopOn else EmergencyStopOff, None, env.at);
    }

    /** `owner_set_agent_mode`. */
    method SetAgentMode(id: Id, mode: AutonomyMode, env: Env) returns (r: Result<()>)
      modifies this
      ensures Does(Handle(old(state), SetAgentModeRequest(id, mode), env), state, r)
    {
      hide Record;
      if id !in state.agents {
        return Err(NotFound);
      }
      state := state.(agents := state.agents[id := state.agents[id].(mode := mode)]);
      r := Audit(Owner, AuditAction.SetAgentMode, None, env.at);
    }

    /** `owner_revoke_agent`. */
    method RevokeAgent(id: Id, env: Env) returns (r: Result<()>)
      modifies this
      ensures Does(Handle(old(state), RevokeAgentRequest(id), env), state, r)
    {
      hide Record;
      if id !in state.agents {
        return Err(NotFound);
      }
      state := state.(agents := state.agents[id := state.agents[id].(revoked := true, mode := Disabled)]);
      r := Audit(Owner, AuditAction.RevokeAgent, None, env.at);
    }

    /** `owner_rotate_agent_capability`: the two clock readings are kept apart. */
    method RotateCapability(id: Id, ttl: i64, env: Env) returns (r: Result<()>)
      modifies this
      ensures Does(Handle(old(state), RotateRequest(id, ttl), env), state, r)
    {
      hide Record;
      if !AgentTtlOk(ttl) {
        return Err(Invalid);
      }
      var policy :- Execution.PolicyOf(state, id);
      if env.verdict.malformed {
        return Err(Invalid);
      }
      var expiresAt := env.at + ttl;
      var sessionExpiresAt := if state.emergencyStop then 0 else env.at + env.lag + Min(ttl, policy.sessionTtl);
      var agent := state.agents[id];
      agent := agent.(expiresAt := expiresAt);
      agent := agent.(session := env.nextId);
      agent := agent.(sessionExpiresAt := sessionExpiresAt);
      agent := agent.(revoked := false, mode := ApprovalOnly);
      state := state.(agents := state.agents[id := agent]);
      r := Audit(Owner, AuditAction.RotateCapability, None, env.at);
    }

    /** `owner_approve_merchant`. */
    method ApproveMerchant(id: Id, merchant: nat, env: Env) returns (r: Result<()>)
      modifies this
      ensures Does(Handle(old(state), ApproveMerchantRequest(id, merchant), env), state, r)
    {
      hide Record;
      if env.verdict.malformed {
        return Err(Invalid);
      }
      if id !in state.agents {
        return Err(NotFound);
      }
      var agent := state.agents[id];
      if merchant in agent.approvedMerchants {
        return Ok(());
      }
      if |agent.approvedMerchants| >= MAX_AGENT_APPROVED_MERCHANTS {
        return Err(Conflict);
      }
      agent := agent.(approvedMerchants := agent.approvedMerchants + {merchant});
      state := state.(agents := state.agents[id := agent]);
      r := Audit(Owner, AuditAction.ApproveMerchant, None, env.at);
    }

    // ----- owner requests on intents -----

    /** `owner_approve` and `owner_deny`. */
    method Answer(id: Id, approved: bool, env: Env) returns (r: Result<()>)
      modifies this
      ensures Does(Handle(old(state), if approved then ApproveRequest(id) else DenyRequest(id), env), state, r)
    {
      hide Record;
      if id !in state.intents {
        return Err(NotFound);
      }
      var intent := state.intents[id];
      if !intent.state.ApprovalRequired? {
        return Err(Conflict);
      }
      intent := intent.To(if approved then Approved else Cancelled, env.at);
      state := state.(intents := state.intents[id := intent]);
      r := Audit(Owner, if approved then ApproveIntent else DenyIntent, Some(id), env.at);
    }

    /** `owner_begin_manual_handoff`. */
    method BeginManualHandoff(id: Id, env: Env) returns (r: Result<()>)
      requires Valid()
      modifies this
      ensures Does(Handle(old(state), BeginHandoffRequest(id), env), state, r)
    {
      hide Record, Execution.Prepare;
      if state.mode.Simulated? {
        return Err(Conflict);
      }
      if id !in state.intents {
        return Err(NotFound);
      }
      if !state.intents[id].state.Approved? {
        return Err(Conflict);
      }
      var _ :- PrepareExecution(state.intents[id].agentId, id, env.at, env.verdict);
      r := Audit(Owner, AuditAction.BeginManualHandoff, Some(id), env.at);
    }

    /** `owner_complete_manual_handoff`. */
    method CompleteManualHandoff(id: Id, env: Env) returns (r: Result<()>)
      modifies this
      ensures Does(Handle(old(state), CompleteHandoffRequest(id), env), state, r)
    {
      hide Record;
      if id !in state.intents {
        return Err(NotFound);
      }
      var intent := state.intents[id];
      if state.mode.Simulated? || !intent.state.Executing? {
        return Err(Conflict);
      }
      intent := intent.To(Unknown, env.at);
      state := state.(intents := state.intents[id := intent]);
      r := Audit(Owner, AuditAction.CompleteManualHandoff, Some(id), env.at);
    }

    /** `owner_reconcile`. */
    method OwnerReconcile(id: Id, outcome: Execution.ReconciliationOutcome, reference: Option<Id>, env: Env) returns (r: Result<()>)
      requires Valid()
      modifies this
      ensures Does(Handle(old(state), ReconcileRequest(id, outcome, reference), env), state, r)
    {
      hide Record, Execution.Reconcile;
      var _ :- ReconcileIntent(id, outcome, reference, env.verdict.malformed, env.at, env.nextId);
      r := Audit(Owner, AuditAction.ReconcileIntent, Some(id), env.at);
    }

    // ----- deposits and configuration -----

    /** How much of a verified deposit becomes spendable, if it may be recorded at all. */
    method ShareOf(d: DepositDetails) returns (r: Result<Money>)
      requires Valid()
      ensures r == Reinvested(state, d)
    {
      hide SnapshotOf, ReportedBalance;
      if !d.verified {
        return Ok(Money(0, d.amount.currency));
      }
      if d.agentId.None? {
        return Err(Invalid);
      }
      var policy :- Execution.PolicyOf(state, d.agentId.value);
      if d.amount.currency != policy.currency {
        return Err(MoneyError);
      }
      var reported :- Reported();
      var projected :- reported.CheckedAdd(d.amount);
      if projected.minor > policy.maxTreasurySize {
        return Err(Forbidden);
      }
      var share :- d.amount.ScaledBasisPoints(policy.reinvestmentBps);
      var snapshot :- Snapshot(policy.currency);
      var raised :- CheckedSum(snapshot.Authority(), share.minor);
      if raised > policy.exposureCeiling {
        return Err(Forbidden);
      }
      return Ok(share);
    }

    /** Verified income reaches the balance of the mode in use. */
    method BookIncome(d: DepositDetails) returns (r: Result<()>)
      modifies this
      ensures Gives(CreditProvider(old(state), d), state, r)
    {
      if !d.verified {
        return Ok(());
      }
      if state.mode.Simulated? {
        var balance :- state.provider.balance.CheckedAdd(d.amount);
        state := state.(provider := state.provider.(balance := balance));
      } else {
        if state.manual.None? {
          return Err(Conflict);
        }
        var card := state.manual.value;
        var amount :- card.amount.CheckedAdd(d.amount);
        card := card.(amount := amount, status := OwnerConfirmed);
        state := state.(manual := Some(card));
      }
      return Ok(());
    }

    /** `owner_record_deposit`. */
    method OwnerRecordDeposit(reference: nat, d: DepositDetails, env: Env) returns (r: Result<()>)
      requires Valid()
      modifies this
      ensures Does(Handle(old(state), DepositRequest(reference, d), env), state, r)
    {
      hide Record, Reinvested, CreditProvider;
      if env.verdict.malformed || d.amount.minor <= 0 {
        return Err(Invalid);
      }
      if reference in state.deposits {
        if state.deposits[reference] == d {
          return Ok(());
        }
        return Err(Conflict);
      }
      var share :- ShareOf(d);
      var _ :- BookIncome(d);
      CreditKeepsDeposits(old(state), d);
      AppendLedger(if d.verified then IncomeVerified else IncomeUnverified, d.amount, None, env.at);
      if share.minor > 0 {
        AppendLedger(OperatorTopUp, share, None, env.at);
      }
      state := state.(deposits := state.deposits[reference := d]);
      r := Audit(Owner, RecordDeposit, None, env.at);
    }

    /** `owner_configure_manual_provider`. */
    method ConfigureManualProvider(balance: Money, status: BalanceStatus, ttl: i64, autonomous: bool, env: Env) returns (r: Result<()>)
      modifies this
      ensures Does(Handle(old(state), ConfigureManualRequest(balance, status, ttl, autonomous), env), state, r)
    {
      hide Record;
      if env.verdict.malformed {
        return Err(Invalid);
      }
      if exists i :: i in state.intents && !Terminal(state.intents[i].state) {
        return Err(Conflict);
      }
      if balance.minor < 0 || !AgentTtlOk(ttl) || balance.currency != state.provider.balance.currency {
        return Err(Invalid);
      }
      if exists p :: p in state.policies && (balance.currency != state.policies[p].currency || balance.minor > state.policies[p].maxTreasurySize) {
        return Err(Forbidden);
      }
      state := state.(mode := ManualPrepaidCard);
      state := state.(manual := Some(ManualProvider(balance, status, env.at + ttl, autonomous)));
      r := Audit(Owner, ConfigureManual, None, env.at);
    }

    /** `owner_configure_receive`. */
    method ConfigureReceiving(instructions: nat, env: Env) returns (r: Result<()>)
      modifies this
      ensures Does(Handle(old(state), ConfigureReceiveRequest(instructions), env), state, r)
    {
      hide Record;
      if env.verdict.malformed {
        return Err(Invalid);
      }
      state := state.(receiveInstructions := Some(instructions));
      r := Audit(Owner, ConfigureReceive, None, env.at);
    }

    // ----- serving -----

    /** `handle`, after authentication. */
    method Dispatch(request: Request, env: Env) returns (r: Result<()>)
      requires Valid()
      modifies this
      ensures Does(Handle(old(state), request, env), state, r)
      ensures r == Err(RateLimited) && Handle(old(state), request, env).Reject? ==> state == old(state)
    {
      hide Handle, Valid;
      if !request.CreateIntentRequest? {
        OnlyCreationIsLimited(state, request, env);
      }
      match request {
        case CreateIntentRequest(agent, purchase) => r := CreateIntent(agent, purchase, env);
        case CancelRequest(agent, id) => r := CancelIntentRequest(agent, id, env);
        case CreateAgentRequest(policy, mode, ttl) => r := CreateAgent(policy, mode, ttl, env);
        case UpdatePolicyRequest(agent, policy) => r := UpdatePolicy(agent, policy, env);
        case SetAgentModeRequest(agent, mode) => r := SetAgentMode(agent, mode, env);
        case RevokeAgentRequest(agent) => r := RevokeAgent(agent, env);
        case RotateRequest(agent, ttl) => r := RotateCapability(agent, ttl, env);
        case EmergencyStopRequest(stopped) => r := EmergencyStop(stopped, env);
        case ApproveRequest(id) => r := Answer(id, true, env);
        case DenyRequest(id) => r := Answer(id, false, env);
        case BeginHandoffRequest(id) => r := BeginManualHandoff(id, env);
        case CompleteHandoffRequest(id) => r := CompleteManualHandoff(id, env);
        case ApproveMerchantRequest(agent, merchant) => r := ApproveMerchant(agent, merchant, env);
        case ReconcileRequest(id, outcome, reference) => r := OwnerReconcile(id, outcome, reference, env);
        case DepositRequest(external, details) => r := OwnerRecordDeposit(external, details, env);
        case ArmSessionRequest(agent, ttl) => r := ArmSession(agent, ttl, env);
        case ConfigureManualRequest(balance, status, ttl, autonomous) => r := ConfigureManualProvider(balance, status, ttl, autonomous, env);
        case ConfigureReceiveRequest(instructions) => r := ConfigureReceiving(instructions, env);
      }
    }

    /** `handle_persisted` for everything but execution: snapshot, handle, save, and roll back when either fails. */
    method HandlePersisted(disk: Disk, caller: Caller, request: Request, env: Env, fault: SaveFault) returns (ok: bool)
      requires WorldSound(Around(Some(state), disk.images, env.at, env.nextId))
      modifies this, disk
      ensures var served := ServeCall(old(state), old(disk.images), caller, request, env, fault);
              served.memory == Some(state) && served.disk == disk.images && served.ok == ok
      ensures WorldSound(Around(Some(state), disk.images, env.at + env.lag, NextSupply(env.nextId)))
    {
      hide Handle, Loadable, Sound, ServeCall;
      ghost var images := disk.images;
      ok := HandleAndSave(disk, caller, request, env, fault);
      CallKeepsWorld(old(state), images, caller, request, env, fault);
    }

    /** Snapshot, handle, save, and roll back. */
    method HandleAndSave(disk: Disk, caller: Caller, request: Request, env: Env, fault: SaveFault) returns (ok: bool)
      requires WorldSound(Around(Some(state), disk.images, env.at, env.nextId))
      modifies this, disk
      ensures var served := ServeCall(old(state), old(disk.images), caller, request, env, fault);
              served.memory == Some(state) && served.disk == disk.images && served.ok == ok
    {
      hide Handle, Loadable, Sound, Valid;
      ValidInWorld(disk.images, env.at, env.nextId);
      if !Authenticated(state, caller, env.at) || !Permitted(caller, request) {
        return false;
      }
      var snapshot := state;
      var r := Dispatch(request, env);
      ThrottlingGrows(snapshot, request, env);
      if r.Ok? {
        ok := SaveTo(disk, fault);
        if !ok {
          state := snapshot;
        }
      } else if r.error.RateLimited? && state.generation > snapshot.generation {
        var saved := SaveTo(disk, fault);
        if !saved {
          state := snapshot;
        }
        ok := false;
      } else {
        state := snapshot;
        ok := false;
      }
    }

    /** The end of every submission: apply what came back, or quarantine, and save without rolling back. */
    method Conclude(disk: Disk, r: Result<()>, id: Id, at: int, fault: SaveFault, ghost attempt: Execution.Attempt, ghost images: set<TreasuryState>)
      returns (ok: bool)
      requires state == attempt.state && (if attempt.error.None? then r.Ok? else r == Err(attempt.error.value))
      requires disk.images == images
      modifies this, disk
      ensures var served := AfterAttempt(attempt, id, images, at, fault);
              served.memory == Some(state) && served.disk == disk.images && served.ok == ok && served.submitted == Some(id)
    {
      hide Execution.Quarantine, Loadable;
      if r.Ok? {
        ok := SaveTo(disk, fault);
      } else {
        var quarantined := QuarantineExecution(id, at);
        if quarantined.Ok? {
          var _ := SaveTo(disk, fault);
        }
        ok := false;
      }
    }

    /** `handle_persisted` for an execution: the prepared state is durable before anything is submitted. */
    method ExecutePersisted(disk: Disk, e: Event, at: int, nextId: Id) returns (ok: bool)
      requires e.Execute? && e.crash.NoCrash? && WorldSound(Around(Some(state), disk.images, at - e.wait, nextId))
      modifies this, disk
      ensures var served := ServeExecute(old(state), old(disk.images), e, at, nextId);
              served.memory == Some(state) && served.disk == disk.images && served.ok == ok
      ensures WorldSound(Around(Some(state), disk.images, at + e.lag, NextSupply(nextId)))
    {
      hide Loadable, Sound, ServeExecute;
      ghost var images := disk.images;
      SoundInWorld(images, at - e.wait, nextId);
      ok := PrepareAndSubmit(disk, e, at, nextId);
      ExecuteKeepsWorld(old(state), images, e, at, nextId);
    }

    /** The prepared state is saved, then submitted, and the outcome saved without rolling back. */
    method PrepareAndSubmit(disk: Disk, e: Event, at: int, nextId: Id) returns (ok: bool)
      requires e.Execute? && e.crash.NoCrash? && 0 <= at
      requires Sound(state, nextId) && Loadable(state)
      modifies this, disk
      ensures var served := ServeExecute(old(state), old(disk.images), e, at, nextId);
              served.memory == Some(state) && served.disk == disk.images && served.ok == ok
    {
      hide Sound, Loadable, Execution.Prepare, Execution.Complete, AfterAttempt, Serving.Ready, Valid;
      if state.mode.ManualPrepaidCard? || !Authenticated(state, e.caller, at) || !e.caller.AgentCaller? {
        return false;
      }
      var snapshot := state;
      SoundIsValid(nextId);
      var prepared := PrepareExecution(e.caller.id, e.intent, at, e.verdict);
      if prepared.Err? {
        state := snapshot;
        return false;
      }
      Serving.PreparedIsReady(snapshot, e.caller.id, e.intent, at, e.verdict, nextId);
      ReadyIsSound(snapshot, state, e.caller.id, e.intent, nextId, at);
      var saved := SaveTo(disk, e.fault);
      if !saved {
        state := snapshot;
        return false;
      }
      ghost var durable, images := state, disk.images;
      SoundIsValid(NextId(nextId) + 1);
      var completed := CompleteExecution(e.caller.id, e.intent, at + e.lag, nextId);
      ok := Conclude(disk, completed, e.intent, at + e.lag, e.lastFault,
                     Execution.Complete(durable, e.caller.id, e.intent, at + e.lag, nextId), images);
    }

    lemma SoundInWorld(images: set<TreasuryState>, at: int, supply: Id)
      requires WorldSound(Around(Some(state), images, at, supply))
      ensures Sound(state, supply) && Loadable(state) && 0 <= at
    {
      hide Sound, Loadable;
      assert state in States(Around(Some(state), images, at, supply));
    }

    lemma ValidInWorld(images: set<TreasuryState>, at: int, supply: Id)
      requires WorldSound(Around(Some(state), images, at, supply))
      ensures Valid()
    {
      hide Sound, Loadable, Valid, WorldSound;
      SoundInWorld(images, at, supply);
      SoundIsValid(supply);
    }

    lemma SoundIsValid(supply: Id)
      requires Sound(state, supply)
      ensures Valid()
    {
      hide Sound;
      SoundIsCounted(state, supply);
    }

    /**
     `execute_controlled_checkout_persisted` and `owner_execute_approved_handoff_persisted`: once the funds
     are reserved, a refused handoff entry or a failed save leaves them reserved in memory.
     */
    method CheckoutPersisted(disk: Disk, executor: OwnerHandoffExecutor, answers: Answers, e: Event, at: int, ghost nextId: Id)
      returns (ok: bool, ghost seen: Event)
      requires e.Checkout? && e.crash.NoCrash? && executor.Valid()
      requires WorldSound(Around(Some(state), disk.images, at - e.wait, nextId))
      modifies this, disk, executor
      ensures executor.Valid() && seen.Checkout? && seen == e.(originOk := seen.originOk, answer := seen.answer)
      ensures var served := ServeCheckout(old(state), old(disk.images), seen, at);
              served.memory == Some(state) && served.disk == disk.images && served.ok == ok
      ensures old(executor.sent) < executor.sent ==> ServeCheckout(old(state), old(disk.images), seen, at).submitted == Some(e.intent)
      ensures WorldSound(Around(Some(state), disk.images, at + e.lag, NextSupply(nextId)))
    {
      hide Loadable, Sound, ServeCheckout, Valid;
      ghost var images := disk.images;
      ValidInWorld(images, at - e.wait, nextId);
      ok, seen := HandOver(disk, executor, answers, e, at);
      CheckoutKeepsWorld(old(state), images, seen, at, nextId);
    }

    /** Reserve, log the handoff, save, and submit. */
    method HandOver(disk: Disk, executor: OwnerHandoffExecutor, answers: Answers, e: Event, at: int)
      returns (ok: bool, ghost seen: Event)
      requires e.Checkout? && e.crash.NoCrash? && Valid() && executor.Valid()
      modifies this, disk, executor
      ensures executor.Valid() && seen.Checkout? && seen == e.(originOk := seen.originOk, answer := seen.answer)
      ensures var served := ServeCheckout(old(state), old(disk.images), seen, at);
              served.memory == Some(state) && served.disk == disk.images && served.ok == ok
      ensures old(executor.sent) < executor.sent ==> ServeCheckout(old(state), old(disk.images), seen, at).submitted == Some(e.intent)
    {
      hide Loadable, Execution.Prepare, CheckoutAttempt, SaveThenSubmit, Record;
      seen := e;
      if e.intent in state.intents {
        var origin := executor.ValidateOriginAndTotal(state.intents[e.intent].request);
        seen := e.(originOk := origin.Ok?);
      }
      ok := false;
      if !Authenticated(state, e.caller, at) || e.intent !in state.intents {
        return;
      }
      var origin := executor.ValidateOriginAndTotal(state.intents[e.intent].request);
      if !CheckoutAllowed(state, e.caller, e.intent, origin.Ok?) {
        return;
      }
      var snapshot := state;
      var agent := state.intents[e.intent].agentId;
      var prepared := PrepareExecution(agent, e.intent, at, e.verdict);
      if prepared.Err? {
        state := snapshot;
        return;
      }
      Serving.PreparedIsBegun(snapshot, agent, e.intent, at, e.verdict);
      ghost var reserved := state;
      var handed := Audit(HandoffActor(e.caller), HandoffAction(e.caller), Some(e.intent), at);
      if handed.Err? {
        return;
      }
      RecordKeeps(reserved, HandoffActor(e.caller), HandoffAction(e.caller), Some(e.intent), at);
      HandedShape(old(state), old(disk.images), seen, at);
      ghost var durable := state;
      ghost var answer;
      ok, answer := SubmitHanded(disk, executor, answers, e, at + e.lag);
      seen := seen.(answer := answer);
      HandedShape(old(state), old(disk.images), seen, at);
      SameSubmission(durable, old(disk.images), e, seen, CheckoutAttempt(durable, e.intent, answer, at + e.lag), at + e.lag);
    }

    /** Save the handed-over state, and only then let the executor submit. */
    method SubmitHanded(disk: Disk, executor: OwnerHandoffExecutor, answers: Answers, e: Event, later: int)
      returns (ok: bool, ghost answer: ExecutorAnswer)
      requires e.Checkout? && e.crash.NoCrash? && executor.Valid() && e.intent in state.intents
      modifies this, disk, executor
      ensures executor.Valid()
      ensures var s := old(state);
              var served := SaveThenSubmit(s, s, old(disk.images), e, CheckoutAttempt(s, e.intent, answer, later), later);
              && served.memory == Some(state) && served.disk == disk.images && served.ok == ok
              && (old(executor.sent) < executor.sent ==> served.submitted == Some(e.intent))
    {
      hide Loadable, Execution.ApplyOutcome, AfterAttempt;
      answer := ExecutorError;
      var saved := SaveTo(disk, e.fault);
      if !saved {
        return false, answer;
      }
      ghost var durable, images := state, disk.images;
      var executing := state.intents[e.intent];
      var outcome := executor.SubmitOnce(e.intent, executing.request, answers);
      answer := AnswerOf(outcome);
      var applied: Result<()>;
      if outcome.Ok? {
        applied := ApplyOutcome(executing.agentId, e.intent, outcome.value, later);
      } else {
        applied := Err(Conflict);
      }
      ok := Conclude(disk, applied, e.intent, later, e.lastFault, CheckoutAttempt(durable, e.intent, answer, later), images);
    }
  }

  /** The data directory: the images a later load may find. */
  class Disk {
    var images: set<TreasuryState>

    constructor ()
      ensures images == {}
    {
      images := {};
    }

    /**
     `write_atomic_private_file` and the directory sync: before the rename nothing has changed, after it the new
     image may be found, and only the sync makes it the only one.
     */
    method Replace(image: TreasuryState, fault: SaveFault) returns (durable: bool)
      modifies this
      ensures durable <==> fault.Durable?
      ensures image in images <==> image in old(images) || !fault.LostBeforeRename?
      ensures forall s :: s != image ==> (s in images <==> s in old(images) && !durable)
    {
      if fault.LostBeforeRename? {
        return false;
      }
      images := images + {image};
      if fault.TornAfterRename? {
        return false;
      }
      images := {image};
      return true;
    }
  }

  method AvailableOf(p: SimulatedProvider) returns (r: Result<Money>)
    requires forall h :: h in p.holds ==> 0 <= p.holds[h].minor
    ensures r == ProviderAvailable(p)
  {
    hide ProviderAvailable, HoldsVisited, HoldTotal, HoldW;
    var reserved := Money(0, p.balance.currency);
    var rest := p.holds;
    HoldsStart(p, map[]);
    TotalOf(p);
    while rest != map[]
      invariant HoldsVisited(p, rest) && reserved.currency == p.balance.currency
      invariant reserved.minor == HoldTotal(p) - Sum(rest, HoldW())
      decreases |rest|
    {
      var h :| h in rest;
      HoldNext(p, rest, h);
      reserved :- reserved.CheckedAdd(rest[h]);
      rest := rest - {h};
    }
    return p.balance.CheckedSub(reserved);
  }

  /** `load_from`: an image is served only if it validates and its log verifies. */
  method LoadFrom(image: TreasuryState) returns (broker: Treasury?)
    ensures broker != null <==> Loadable(image)
    ensures broker != null ==> fresh(broker) && broker.state == image
  {
    hide ValidState, ChainVerifies;
    var loaded := new Treasury(image);
    var valid := loaded.ValidateState();
    if !valid {
      return null;
    }
    var verifies := loaded.VerifyAuditChain();
    return if verifies then loaded else null;
  }

  /** Starting the broker: load, recover what was interrupted, and save before anything is served. */
  method Start(image: TreasuryState, disk: Disk, at: int, fault: SaveFault, ghost nextId: Id) returns (broker: Treasury?)
    requires image in disk.images && WorldSound(Around(None, disk.images, at, nextId))
    modifies disk
    ensures WorldSound(Around(if broker == null then None else Some(broker.state), disk.images, at, NextSupply(nextId)))
    ensures var served := ServeRestart(image, old(disk.images), at, fault);
            && disk.images == served.disk && (broker == null <==> served.memory.None?)
            && (broker != null ==> fresh(broker) && served.memory == Some(broker.state))
  {
    hide Loadable, Sound, Execution.Recover;
    RestartKeepsWorld(image, disk.images, at, fault, nextId);
    broker := LoadFrom(image);
    if broker == null {
      return null;
    }
    assert (exists i :: i in image.intents && image.intents[i].state.Executing?) <==> Execution.Interrupted(image.intents) != {} by {
      assert forall i :: i in Execution.Interrupted(image.intents) <==> i in image.intents && image.intents[i].state.Executing?;
    }
    if exists i :: i in image.intents && image.intents[i].state.Executing? {
      var recovered := broker.RecoverInterrupted(at);
      if recovered.Err? {
        return null;
      }
      var saved := broker.SaveTo(disk, fault);
      if !saved {
        return null;
      }
    }
  }

  // ----- what one event keeps -----

  lemma CallKeepsWorld(s: TreasuryState, disk: set<TreasuryState>, caller: Caller, request: Request, env: Env, fault: SaveFault)
    requires WorldSound(Around(Some(s), disk, env.at, env.nextId))
    ensures var served := ServeCall(s, disk, caller, request, env, fault);
            WorldSound(Around(served.memory, served.disk, env.at + env.lag, NextSupply(env.nextId)))
  {
    hide WorldSound, ServeCall;
    var w, e := Around(Some(s), disk, env.at, env.nextId), Call(0, env.lag, caller, request, env.verdict, fault);
    NextKeepsWorldSound(w, e);
    SameWorld(Next(w, e), Around(Serve(w, e).memory, Serve(w, e).disk, env.at + env.lag, NextSupply(env.nextId)));
  }

  lemma ExecuteKeepsWorld(s: TreasuryState, disk: set<TreasuryState>, e: Event, at: int, supply: Id)
    requires e.Execute? && WorldSound(Around(Some(s), disk, at - e.wait, supply))
    ensures var served := ServeExecute(s, disk, e, at, supply);
            WorldSound(Around(served.memory, served.disk, at + e.lag, NextSupply(supply)))
  {
    hide WorldSound, ServeExecute;
    var w := Around(Some(s), disk, at - e.wait, supply);
    NextKeepsWorldSound(w, e);
    SameWorld(Next(w, e), Around(Serve(w, e).memory, Serve(w, e).disk, at + e.lag, NextSupply(supply)));
  }

  lemma CheckoutKeepsWorld(s: TreasuryState, disk: set<TreasuryState>, e: Event, at: int, supply: Id)
    requires e.Checkout? && WorldSound(Around(Some(s), disk, at - e.wait, supply))
    ensures var served := ServeCheckout(s, disk, e, at);
            WorldSound(Around(served.memory, served.disk, at + e.lag, NextSupply(supply)))
  {
    hide WorldSound, ServeCheckout;
    var w := Around(Some(s), disk, at - e.wait, supply);
    NextKeepsWorldSound(w, e);
    SameWorld(Next(w, e), Around(Serve(w, e).memory, Serve(w, e).disk, at + e.lag, NextSupply(supply)));
  }

  lemma RestartKeepsWorld(image: TreasuryState, disk: set<TreasuryState>, at: int, fault: SaveFault, supply: Id)
    requires image in disk && WorldSound(Around(None, disk, at, supply))
    ensures var served := ServeRestart(image, disk, at, fault);
            WorldSound(Around(served.memory, served.disk, at, NextSupply(supply)))
  {
    hide WorldSound, ServeRestart;
    var w, e := Around(None, disk, at, supply), Restart(0, image, fault);
    NextKeepsWorldSound(w, e);
    SameWorld(Next(w, e), Around(Serve(w, e).memory, Serve(w, e).disk, at, NextSupply(supply)));
  }

  /** The count of submissions says nothing about the states. */
  lemma SameWorld(w: World, w': World)
    requires WorldSound(w) && w' == w.(submissions := w'.submissions)
    ensures WorldSound(w')
  {
    hide Sound, Loadable;
    assert States(w') == States(w);
  }

  lemma OpenWeighs(i: Id, x: Intent, agent: Id, session: Id)
    ensures OpenW(WholeAgent(agent))(i, x) == if x.agentId == agent && x.state.Open() then x.request.finalTotal.minor else 0
    ensures OpenW(OneSession(agent, session))(i, x)
         == if x.agentId == agent && x.session == session && x.state.Open() then x.request.finalTotal.minor else 0
  {
  }

  lemma KnownAgent(s: TreasuryState, agent: Id, currency: Currency, at: int)
    requires UsageOf(s, agent, currency, at).Ok?
    ensures agent in s.agents
  {
  }

  /** An audit entry touches nothing but the log. */
  lemma RecordKeeps(s: TreasuryState, actor: Actor, action: AuditAction, intentId: Option<Id>, at: int)
    requires Record(s, actor, action, intentId, at).Ok?
    ensures var s' := Record(s, actor, action, intentId, at).value;
            s' == s.(audit := s'.audit, generation := s'.generation)
  {
  }

  lemma ReservedWeighs(i: Id, x: Intent, currency: Currency)
    ensures ReservedW(currency)(i, x) == if x.request.finalTotal.currency == currency && x.state.Open() then x.request.finalTotal.minor else 0
  {
  }

  lemma SumsAreBelow(s: TreasuryState, c: Currency)
    requires Counted(s)
    ensures Below(LedgerTotals(s.ledger, c), LedgerTotals(s.ledger, c)) && LedgerTotals(s.ledger, c).reserved == 0
  {
    TotalsBelow(s.ledger, |s.ledger|, c);
    assert s.ledger[..|s.ledger|] == s.ledger;
  }

  lemma TotalOf(p: SimulatedProvider)
    ensures HoldTotal(p) == Sum(p.holds, HoldW())
  {
  }

  lemma HoldsAreCounted(s: TreasuryState)
    requires Counted(s) && s.mode.Simulated?
    ensures forall h :: h in s.provider.holds ==> 0 <= s.provider.holds[h].minor
  {
  }

  method Least(ids: set<Id>) returns (least: Id)
    requires ids != {}
    ensures least in ids && forall j :: j in ids ==> least <= j
  {
    var i :| i in ids;
    least := i;
    var rest := ids - {i};
    while rest != {}
      invariant least in ids && rest <= ids && forall j :: j in ids && j !in rest ==> least <= j
      decreases |rest|
    {
      var j :| j in rest;
      if j < least {
        least := j;
      }
      rest := rest - {j};
    }
  }

  lemma LeastComesFirst(ids: set<Id>, least: Id)
    requires least in ids && forall j :: j in ids ==> least <= j
    ensures Execution.Ascending(ids) == [least] + Execution.Ascending(ids - {least})
  {
    var found := Execution.AscendingUnfolds(ids);
    hide Execution.Ascending;
    assert found == least;
  }

  lemma AscendingMembers(intents: map<Id, Intent>)
    ensures forall i :: i in Execution.Ascending(Execution.Interrupted(intents)) ==> i in intents && intents[i].state.Executing?
  {
  }

  lemma SettleKeepsIntents(s: TreasuryState, id: Id, x: Intent, reference: Id, at: int)
    requires Execution.Settle(s, id, x, reference, at).Ok?
    ensures Execution.Settle(s, id, x, reference, at).value.0.intents == s.intents
  {
    hide Execution.HasEvent;
  }

  lemma CreditKeepsIntents(s: TreasuryState, id: Id, x: Intent, wasSettled: bool)
    requires Execution.CreditRefund(s, id, x, wasSettled).Ok?
    ensures Execution.CreditRefund(s, id, x, wasSettled).value.0.intents == s.intents
  {
  }

  lemma RefundEffectKeepsIntents(s: TreasuryState, id: Id, x: Intent, reference: Option<Id>, at: int)
    requires Execution.ReconcileAsRefundedEffect(s, id, x, reference, at).Ok?
    ensures Execution.ReconcileAsRefundedEffect(s, id, x, reference, at).value.0.intents == s.intents
  {
    hide Execution.Settle, Execution.CreditRefund;
    if x.state.Settled? {
      CreditKeepsIntents(s, id, x, true);
    } else {
      SettleKeepsIntents(s, id, x, reference.value, at);
      var settled := Execution.Settle(s, id, x, reference.value, at).value;
      CreditKeepsIntents(settled.0, id, settled.1, false);
    }
  }

  lemma SettledEffectKeepsIntents(s: TreasuryState, id: Id, x: Intent, reference: Option<Id>, at: int, nextId: Id)
    requires Execution.ReconcileAsSettledEffect(s, id, x, reference, at, nextId).Ok?
    ensures Execution.ReconcileAsSettledEffect(s, id, x, reference, at, nextId).value.0.intents == s.intents
  {
    hide Execution.Settle, Execution.ReconcileSettled;
    if s.mode.Simulated? {
      var preferred := if reference.Some? then reference.value else if x.reference.Some? then x.reference.value else nextId;
      var answer := Execution.ReconcileSettled(s.provider, id, x.request.finalTotal, preferred, nextId + 1).value;
      SettleKeepsIntents(s.(provider := answer.0), id, x, answer.1, at);
    } else {
      SettleKeepsIntents(Execution.DebitManual(s, x.request.finalTotal).value, id, x, reference.value, at);
    }
  }

  /** Balances and ledger move before the intent is stored. */
  lemma EffectKeepsIntents(s: TreasuryState, id: Id, x: Intent, outcome: Execution.ReconciliationOutcome, reference: Option<Id>,
                           at: int, nextId: Id)
    requires Execution.ReconcileEffect(s, id, x, outcome, reference, at, nextId).Ok?
    ensures Execution.ReconcileEffect(s, id, x, outcome, reference, at, nextId).value.0.intents == s.intents
  {
    hide Execution.ReconcileAsSettledEffect, Execution.ReconcileAsRefundedEffect;
    match outcome
    case ReconcileAsSettled => SettledEffectKeepsIntents(s, id, x, reference, at, nextId);
    case ReconcileAsDeclined =>
    case ReconcileAsRefunded => RefundEffectKeepsIntents(s, id, x, reference, at);
  }

  /** The order of the audit entry and of storing the intent does not show. */
  lemma RecordCommutes(s: TreasuryState, intents: map<Id, Intent>, actor: Actor, action: AuditAction, intentId: Option<Id>, at: int)
    ensures Record(s.(intents := intents), actor, action, intentId, at)
         == match Record(s, actor, action, intentId, at)
            case Ok(s') => Ok(s'.(intents := intents))
            case Err(e) => Err(e)
  {
    hide EmergencyCount, CapacityAllows;
  }

  lemma KeyIsUnique(s: TreasuryState, id: Id, agent: Id, purchase: PurchaseRequest)
    requires Counted(s) && id in s.intents && SameKey(s.intents[id], agent, purchase.key)
    ensures (exists i :: i in s.intents && SameKey(s.intents[i], agent, purchase.key) && s.intents[i].request == purchase)
              <==> s.intents[id].request == purchase
  {
  }

  /** Past the rate limit, no refusal reads like one. */
  lemma StoringIsNotLimited(s: TreasuryState, agent: Id, r: PurchaseRequest, policy: Policy, env: Env)
    requires agent in s.agents
    ensures StoreIntent(s, agent, r, policy, env) != Err(RateLimited)
    ensures StoreIntent(s, agent, r, policy, env).Ok? ==>
              Commit(s, StoreIntent(s, agent, r, policy, env).value, env.at) != Reject(RateLimited)
              && !Commit(s, StoreIntent(s, agent, r, policy, env).value, env.at).Throttle?
  {
    DecisionErrors(s, agent, r, policy, env.at, env.verdict);
    hide Decide, EmergencyCount, CapacityAllows;
  }

  lemma SnapshotErrors(s: TreasuryState, currency: Currency)
    ensures SnapshotOf(s, currency) != Err(RateLimited) && ProviderAvailable(s.provider) != Err(RateLimited)
  {
    hide HoldTotal, SnapshotTotals;
  }

  lemma BalanceErrors(s: TreasuryState, at: int)
    ensures AvailableBalance(s, at) != Err(RateLimited)
  {
    hide SnapshotOf, ProviderAvailable;
    SnapshotErrors(s, TreasuryCurrencyOrCard(s));
  }

  function TreasuryCurrencyOrCard(s: TreasuryState): Currency {
    if s.manual.Some? then s.manual.value.amount.currency else s.provider.balance.currency
  }

  lemma EnforcementErrors(s: TreasuryState, decision: Decision, r: PurchaseRequest, u: Budget.Usage, policy: Policy, at: int)
    ensures EnforceAuthority(s, decision, r, u, policy, at) != Err(RateLimited)
  {
    hide SnapshotOf, AvailableBalance;
    SnapshotErrors(s, policy.currency);
    BalanceErrors(s, at);
  }

  lemma EvaluationErrors(policy: Policy, r: PurchaseRequest, u: Budget.Usage, mode: AutonomyMode, stopped: bool, verdict: Verdict)
    ensures Evaluate(policy, r, u, mode, stopped, verdict) != Err(RateLimited)
  {
    hide OverLimit;
  }

  lemma DecisionErrors(s: TreasuryState, agent: Id, r: PurchaseRequest, policy: Policy, at: int, verdict: Verdict)
    ensures Decide(s, agent, r, policy, at, verdict) != Err(RateLimited)
  {
    hide EnforceAuthority, Evaluate, ForeignOpen, UsageTotals;
    if UsageOf(s, agent, policy.currency, at).Ok? {
      var u := UsageOf(s, agent, policy.currency, at).value;
      var first := Evaluate(policy, r, u, s.agents[agent].mode, s.emergencyStop, verdict);
      EvaluationErrors(policy, r, u, s.agents[agent].mode, s.emergencyStop, verdict);
      if first.Ok? {
        EnforcementErrors(s, first.value, r, u, policy, at);
      }
    }
  }

  lemma CreditKeepsDeposits(s: TreasuryState, d: DepositDetails)
    requires CreditProvider(s, d).Ok?
    ensures CreditProvider(s, d).value.deposits == s.deposits
  {
  }

  lemma PreparationErrors(s: TreasuryState, agent: Id, id: Id, at: int, verdict: Verdict)
    ensures Execution.Prepare(s, agent, id, at, verdict) != Err(RateLimited)
  {
    hide Decide, EmergencyCount, Execution.Owed, CapacityAllows;
    var x := Execution.ExecutableIntent(s, agent, id);
    if x.Ok? {
      var policy := Execution.PolicyOf(s, agent);
      if policy.Ok? {
        DecisionErrors(s, agent, x.value.request, policy.value, at, verdict);
      }
    }
  }

  lemma SettleErrors(s: TreasuryState, id: Id, x: Intent, reference: Id, at: int)
    ensures Execution.Settle(s, id, x, reference, at) != Err(RateLimited)
  {
    hide Execution.RecordSettled;
  }

  lemma ProviderErrors(p: SimulatedProvider, id: Id, total: Money, reference: Id, nextId: Id)
    requires ProviderAvailable(p) != Err(RateLimited)
    ensures Execution.ReconcileSettled(p, id, total, reference, nextId) != Err(RateLimited)
  {
    hide ProviderAvailable;
  }

  lemma SettlementErrors(s: TreasuryState, id: Id, x: Intent, reference: Option<Id>, at: int, nextId: Id)
    ensures Execution.ReconcileAsSettledEffect(s, id, x, reference, at, nextId) != Err(RateLimited)
  {
    hide ProviderAvailable, Execution.Settle, Execution.ReconcileSettled;
    if s.mode.Simulated? {
      var preferred := if reference.Some? then reference.value else if x.reference.Some? then x.reference.value else nextId;
      var total := x.request.finalTotal;
      SnapshotErrors(s, s.provider.balance.currency);
      ProviderErrors(s.provider, id, total, preferred, nextId + 1);
      var answer := Execution.ReconcileSettled(s.provider, id, total, preferred, nextId + 1);
      if answer.Ok? {
        SettleErrors(s.(provider := answer.value.0), id, x, answer.value.1, at);
      }
    } else if reference.Some? {
      var debited := Execution.DebitManual(s, x.request.finalTotal);
      if debited.Ok? {
        SettleErrors(debited.value, id, x, reference.value, at);
      }
    }
  }

  lemma RefundErrors(s: TreasuryState, id: Id, x: Intent, reference: Option<Id>, at: int)
    ensures Execution.ReconcileAsRefundedEffect(s, id, x, reference, at) != Err(RateLimited)
  {
    hide Execution.RecordSettled;
  }

  lemma ReconciliationErrors(s: TreasuryState, id: Id, outcome: Execution.ReconciliationOutcome, reference: Option<Id>,
                             malformed: bool, at: int, nextId: Id)
    ensures Execution.Reconcile(s, id, outcome, reference, malformed, at, nextId) != Err(RateLimited)
  {
    hide Execution.ReconcileAsSettledEffect, Execution.ReconcileAsRefundedEffect;
    if id in s.intents && Execution.Reopen(s.intents[id], at).Ok? {
      SettlementErrors(s, id, Execution.Reopen(s.intents[id], at).value, reference, at, nextId);
      RefundErrors(s, id, Execution.Reopen(s.intents[id], at).value, reference, at);
    }
  }

  lemma ShareErrors(s: TreasuryState, d: DepositDetails)
    ensures Reinvested(s, d) != Err(RateLimited)
  {
    hide SnapshotOf, ProviderAvailable;
    SnapshotErrors(s, d.amount.currency);
  }

  lemma ExposureErrors(s: TreasuryState, policy: Policy)
    ensures PolicyCoversAuthority(s, policy) != Err(RateLimited)
  {
    hide SnapshotOf;
    SnapshotErrors(s, policy.currency);
  }

  lemma PlanErrors(s: TreasuryState, request: Request, env: Env)
    requires !request.CreateIntentRequest?
    ensures Plan(s, request, env) != Err(RateLimited)
  {
    hide Execution.Prepare, Execution.Reconcile, Reinvested, PolicyCoversAuthority, StoppedAgents, AppendIncome;
    match request
    case BeginHandoffRequest(id) =>
      if id in s.intents {
        PreparationErrors(s, s.intents[id].agentId, id, env.at, env.verdict);
      }
    case ReconcileRequest(id, outcome, reference) =>
      ReconciliationErrors(s, id, outcome, reference, env.verdict.malformed, env.at, env.nextId);
    case DepositRequest(_, details) => ShareErrors(s, details);
    case CreateAgentRequest(policy, _, _) => ExposureErrors(s, policy);
    case UpdatePolicyRequest(_, policy) => ExposureErrors(s, policy);
    case _ =>
  }

  /** Only an intent that could not be created is refused as rate limited. */
  lemma OnlyCreationIsLimited(s: TreasuryState, request: Request, env: Env)
    requires !request.CreateIntentRequest?
    ensures Handle(s, request, env) != Reject(RateLimited)
  {
    hide Plan, EmergencyCount, CapacityAllows;
    PlanErrors(s, request, env);
  }

  /** A throttled request raised the generation by its one entry. */
  lemma ThrottlingGrows(s: TreasuryState, request: Request, env: Env)
    ensures Handle(s, request, env).Throttle? ==> Handle(s, request, env).state.generation > s.generation
  {
    hide Plan, EmergencyCount, CapacityAllows;
  }

  lemma ReadyIsSound(s: TreasuryState, prepared: TreasuryState, agent: Id, id: Id, supply: Id, at: int)
    requires Serving.Ready(s, prepared, agent, id, supply, at)
    ensures Sound(prepared, NextId(supply) + 1)
  {
    hide Sound, Loadable, Leads;
  }

  lemma SameSubmission(s: TreasuryState, disk: set<TreasuryState>, e: Event, seen: Event, attempt: Execution.Attempt, later: int)
    requires e.Checkout? && seen.Checkout? && seen == e.(originOk := seen.originOk, answer := seen.answer)
    ensures SaveThenSubmit(s, s, disk, e, attempt, later) == SaveThenSubmit(s, s, disk, seen, attempt, later)
  {
    hide Loadable, AfterAttempt;
  }

  /** The answer of the executor matters only to the attempt, not to whether it is made. */
  lemma HandedShape(s: TreasuryState, disk: set<TreasuryState>, e: Event, at: int)
    requires e.Checkout? && Serving.CheckoutPrepares(s, e, at) && Serving.Handed(s, e, at).Ok?
    ensures var handed := Serving.Handed(s, e, at).value;
            && e.intent in handed.intents
            && ServeCheckout(s, disk, e, at)
                 == SaveThenSubmit(handed, handed, disk, e, CheckoutAttempt(handed, e.intent, e.answer, at + e.lag), at + e.lag)
  {
    hide SaveThenSubmit, CheckoutAttempt, ServeCheckout, Execution.Prepare, Record;
    Serving.CheckoutShape(s, disk, e, at);
  }

  lemma NoTotals(ledger: seq<LedgerEvent>, c: Currency)
    ensures LedgerTotals(ledger[..0], c) == LedgerSnapshot(0, 0, 0, 0, 0, 0, 0)
    ensures ledger[..|ledger|] == ledger
  {
  }

  lemma ChainGrows(log: seq<AuditEntry>, n: nat)
    requires n < |log| && ChainVerifies(log[..n])
    requires log[n].body.sequence == n + 1 && log[n].body.previous == LastHash(log[..n]) && log[n].hash == Mac(log[n].body)
    ensures ChainVerifies(log[..n + 1])
  {
    var longer := log[..n + 1];
    forall i | 0 <= i <= n
      ensures longer[i].body.sequence == i + 1 && longer[i].body.previous == LastHash(longer[..i]) && longer[i].hash == Mac(longer[i].body)
    {
      assert longer[..i] == log[..n][..i];
    }
  }
}
