/**
 Spending limits over a whole run: per session, per lifetime, the exposure ceiling, and the rolling
 limit for every window of twenty-four hours, however late a payment settles.
 */
module Limits {
  import opened Results
  import opened Sums
  import opened MoneyMath
  import opened Records
  import opened AuditLog
  import opened Budget
  import opened Execution
  import opened Requests
  import opened LedgerInvariant
  import opened MoneyInvariant
  import opened Solvency
  import opened Steps
  import opened Safety
  import opened Invariant
  import opened History

  // ----- how a step changes what is committed -----

  /** What one intent contributes to the open reservations. */
  function OpenAmount(x: Intent): int {
    if x.state.Open() then x.request.finalTotal.minor else 0
  }

  /** What a move of `next` from `before` adds to the settled spend of a span. */
  function NewlySettled(before: TransactionState, next: Intent, at: int, span: Span): int {
    if span.Contains(at) then MoveSettled(before, next) else 0
  }

  ghost function Settlements(s: TreasuryState, scope: Scope, span: Span): int {
    SettledIn(s.intents, s.ledger, scope, TreasuryCurrency(s), span)
  }

  ghost function Commitment(s: TreasuryState, scope: Scope, span: Span): int {
    Committed(s, scope, TreasuryCurrency(s), span)
  }

  lemma SameOwnersSettle(intents: map<Id, Intent>, intents': map<Id, Intent>, ledger: seq<LedgerEvent>, scope: Scope, c: Currency, span: Span)
    requires forall e :: e in ledger && e.intentId.Some? ==>
               e.intentId.value in intents && e.intentId.value in intents'
               && (scope.Covers(intents[e.intentId.value]) <==> scope.Covers(intents'[e.intentId.value]))
    ensures SettledIn(intents, ledger, scope, c, span) == SettledIn(intents', ledger, scope, c, span)
  {
    SumSeqCongruent(ledger, SettledW(intents, scope, c, span), SettledW(intents', scope, c, span));
  }

  lemma MoveEventsSettle(intents: map<Id, Intent>, before: TransactionState, next: Intent, id: Id, at: int, scope: Scope, c: Currency, span: Span)
    requires id in intents && intents[id] == next
    requires before.Open() ==> next.request.finalTotal.currency == c
    ensures SumSeq(MoveEvents(before, next, id, at), SettledW(intents, scope, c, span))
         == if scope.Covers(next) then NewlySettled(before, next, at, span) else 0
  {
    var w := SettledW(intents, scope, c, span);
    var events := MoveEvents(before, next, id, at);
    if |events| >= 2 {
      SumSeqTwo(events[0], events[1], w);
      if |events| == 3 {
        SumSeqAppend([events[0], events[1]], events[2], w);
        assert events == [events[0], events[1]] + [events[2]];
      } else {
        assert events == [events[0], events[1]];
      }
    } else if |events| == 1 {
      SumSeqOne(events[0], w);
      assert events == [events[0]];
    }
  }

  lemma EventsKnown(s: TreasuryState, e: LedgerEvent)
    requires MoneySound(s) && e in s.ledger
    ensures 0 < e.amount.minor && (e.intentId.Some? ==> e.intentId.value in s.intents)
    ensures e.kind.SpendingSettled? ==> e.intentId.Some?
  {
    assert EventSound(e, s.intents, TreasuryCurrency(s));
  }

  /** A move settles at most what it stops reserving. */
  lemma MovedSettles(s: TreasuryState, s': TreasuryState, id: Id, at: int, scope: Scope, span: Span)
    requires MoneySound(s) && Moved(s, s', id, at)
    ensures id in s.intents && id in s'.intents
    ensures Settlements(s', scope, span) == Settlements(s, scope, span)
              + if scope.Covers(s.intents[id]) then NewlySettled(s.intents[id].state, s'.intents[id], at, span) else 0
  {
    hide MoneySound, Moved, StoredMove, ReceiptSound, StartsLawfully, MoveEvents;
    MovedFrame(s, s', id, at);
    StoredIntentFacts(s, id);
    var c := TreasuryCurrency(s);
    forall e | e in s.ledger && e.intentId.Some?
      ensures e.intentId.value in s.intents
    {
      EventsKnown(s, e);
    }
    SameOwnersSettle(s.intents, s'.intents, s.ledger, scope, c, span);
    SumSeqConcat(s.ledger, MoveEvents(s.intents[id].state, s'.intents[id], id, at), SettledW(s'.intents, scope, c, span));
    MoveEventsSettle(s'.intents, s.intents[id].state, s'.intents[id], id, at, scope, c, span);
  }

  lemma MovedCommits(s: TreasuryState, s': TreasuryState, id: Id, at: int, scope: Scope, span: Span)
    requires MoneySound(s) && Moved(s, s', id, at)
    ensures id in s.intents && id in s'.intents
    ensures Commitment(s', scope, span) == Commitment(s, scope, span)
              + if !scope.Covers(s.intents[id]) then 0
                else OpenAmount(s'.intents[id]) - OpenAmount(s.intents[id])
                     + NewlySettled(s.intents[id].state, s'.intents[id], at, span)
  {
    hide MoneySound, Moved, StoredMove, ReceiptSound, StartsLawfully, MoveEvents, NewlySettled, SettledIn;
    MovedSettles(s, s', id, at, scope, span);
    MovedFrame(s, s', id, at);
    SumSwap(s.intents, id, s'.intents[id], OpenW(scope), OpenW(scope));
  }

  lemma IntroducedCommits(s: TreasuryState, s': TreasuryState, id: Id, scope: Scope, span: Span)
    requires MoneySound(s) && Introduced(s, s', id)
    ensures Settlements(s', scope, span) == Settlements(s, scope, span)
    ensures Commitment(s', scope, span) == Commitment(s, scope, span)
  {
    hide MoneySound, Introduced, SettledIn;
    IntroducedFrame(s, s', id);
    forall e | e in s.ledger && e.intentId.Some?
      ensures e.intentId.value in s.intents
    {
      EventsKnown(s, e);
    }
    SameOwnersSettle(s.intents, s'.intents, s.ledger, scope, TreasuryCurrency(s), span);
    assert !s'.intents[id].state.Open() by {
      IntroducedIsNotOpen(s, s', id);
    }
    SumSwap(s.intents, id, s'.intents[id], OpenW(scope), OpenW(scope));
  }

  lemma IntroducedIsNotOpen(s: TreasuryState, s': TreasuryState, id: Id)
    requires Introduced(s, s', id)
    ensures !s'.intents[id].state.Open()
  {
  }

  lemma CreditedCommits(s: TreasuryState, s': TreasuryState, reference: nat, share: Money, at: int, scope: Scope, span: Span)
    requires MoneySound(s) && Credited(s, s', reference, share, at)
    ensures Settlements(s', scope, span) == Settlements(s, scope, span)
    ensures Commitment(s', scope, span) == Commitment(s, scope, span)
  {
    var d := s'.deposits[reference];
    hide LedgerSound, Credited, IncomeEvents, Reserved;
    CreditedFrame(s, s', reference, share, at);
    assert TreasuryCurrency(s') == TreasuryCurrency(s) by {
      CreditedCurrency(s, s', reference, share, at);
    }
    var w := SettledW(s.intents, scope, TreasuryCurrency(s), span);
    SumSeqConcat(s.ledger, IncomeEvents(d, share, at), w);
    IncomeIsNoSpending(d, share, at, s.intents, scope, TreasuryCurrency(s), span);
  }

  lemma IncomeIsNoSpending(d: DepositDetails, share: Money, at: int, intents: map<Id, Intent>, scope: Scope, c: Currency, span: Span)
    ensures SumSeq(IncomeEvents(d, share, at), SettledW(intents, scope, c, span)) == 0
  {
    ZeroSums(IncomeEvents(d, share, at), SettledW(intents, scope, c, span));
  }

  lemma CreditedCurrency(s: TreasuryState, s': TreasuryState, reference: nat, share: Money, at: int)
    requires MoneySound(s) && Credited(s, s', reference, share, at)
    ensures TreasuryCurrency(s') == TreasuryCurrency(s)
  {
    hide LedgerSound, AuthoritySound, ProviderSound, SharesBy, AppendIncome;
    BookedInTreasuryCurrency(s, s', s'.deposits[reference]);
  }

  /** Only a move changes what is committed. */
  lemma ElementaryCommits(s: TreasuryState, s': TreasuryState, supply: Id, at: int, scope: Scope, span: Span)
    requires MoneySound(s) && Elementary(s, s', supply, at)
    ensures (exists id :: Moved(s, s', id, at))
         || (Settlements(s', scope, span) == Settlements(s, scope, span) && Commitment(s', scope, span) == Commitment(s, scope, span))
  {
    hide MoneySound, LogFollows, Moved, Introduced, AgentsFollow, Credited, Reconfigured;
    if Introduced(s, s', supply) {
      IntroducedCommits(s, s', supply, scope, span);
    } else if reference, share :| Credited(s, s', reference, share, at) {
      CreditedCommits(s, s', reference, share, at, scope, span);
    } else if Reconfigured(s, s') {
      ReconfiguredFrame(s, s');
    }
  }

  // ----- what a reservation has checked -----

  /** The limits an agent is held to: at least every policy it acted under. */
  datatype Limits = Limits(session: nat, lifetime: nat, exposure: nat, rolling: nat)

  ghost predicate PolicyWithin(s: TreasuryState, agent: Id, limits: Limits) {
    agent in s.agents && s.agents[agent].policyId in s.policies ==>
      var policy := s.policies[s.agents[agent].policyId];
      && policy.maxPerSession <= limits.session && policy.maxLifetime <= limits.lifetime
      && policy.exposureCeiling <= limits.exposure && policy.maxRolling24h <= limits.rolling
  }

  /** Approved or not, an intent starts only if it fits under every limit together with all that is already committed. */
  lemma StartFits(s: TreasuryState, id: Id, next: Intent, at: int, limits: Limits)
    requires MoneySound(s) && id in s.intents && SameIdentity(s.intents[id], next)
    requires StartsLawfully(s, id, next, at) && next.state.Executing? && PolicyWithin(s, next.agentId, limits)
    ensures var total := next.request.finalTotal.minor;
            && s.intents[id].state.Executable()
            && Commitment(s, OneSession(next.agentId, next.session), Ever) + total <= limits.session
            && Commitment(s, WholeAgent(next.agentId), Ever) + total <= limits.lifetime
            && Commitment(s, WholeAgent(next.agentId), Ever) + total <= limits.exposure
            && Commitment(s, WholeAgent(next.agentId), Since(at - DAY_SECS)) + total <= limits.rolling
  {
    hide MoneySound, Prepare, Decide, UsageOf, SnapshotOf, AvailableBalance, Owed, Used, EmergencyCount;
    var verdict :| Prepare(s, next.agentId, id, at, verdict).Ok?;
    PrepareShape(s, next.agentId, id, at, verdict);
    var policy := s.policies[s.agents[next.agentId].policyId];
    DecisionIsCovered(s, next.agentId, next.request, policy, at, verdict);
    DecisionChecks(s, next.agentId, next.request, policy, at, verdict);
    UsageIs(s, next.agentId, policy.currency, at);
  }

  lemma UsageIs(s: TreasuryState, agent: Id, currency: Currency, at: int)
    requires UsageOf(s, agent, currency, at).Ok?
    ensures agent in s.agents
    ensures UsageOf(s, agent, currency, at).value == UsageTotals(s, agent, s.agents[agent].session, currency, at)
  {
  }

  /** A move to `Executing` begins the intent. */
  lemma StartBegins(s: TreasuryState, s': TreasuryState, id: Id, at: int)
    requires Moved(s, s', id, at) && id in s'.intents && s'.intents[id].state.Executing?
    ensures Begins(s, s', s'.intents[id].agentId)
  {
    hide Moved, ReceiptSound, StoredMove, MoveEvents, SameIdentity, Prepare, Decide;
    MovedFrame(s, s', id, at);
    var verdict :| Prepare(s, s'.intents[id].agentId, id, at, verdict).Ok?;
    PrepareShape(s, s'.intents[id].agentId, id, at, verdict);
    assert Begun(s', id) && !Begun(s, id);
  }

  // ----- sessions, lifetime and exposure -----

  /** Nothing an agent committed in a scope exceeds `limit`. */
  ghost predicate Bounded(s: TreasuryState, scope: Scope, limit: nat) {
    Commitment(s, scope, Ever) <= limit
  }

  ghost predicate StartRoom(s: TreasuryState, s': TreasuryState, id: Id, scope: Scope, limit: nat)
    requires id in s'.intents
  {
    s'.intents[id].state.Executing? && scope.Covers(s'.intents[id]) ==>
      Commitment(s, scope, Ever) + s'.intents[id].request.finalTotal.minor <= limit
  }

  lemma MovedKeepsBound(s: TreasuryState, s': TreasuryState, id: Id, at: int, scope: Scope, limit: nat)
    requires MoneySound(s) && Moved(s, s', id, at) && Bounded(s, scope, limit)
    requires id in s'.intents && StartRoom(s, s', id, scope, limit)
    ensures Bounded(s', scope, limit)
  {
    hide MoneySound, Moved, Commitment, StartsLawfully, MoveEvents, ReceiptSound;
    MovedFrame(s, s', id, at);
    StoredIntentFacts(s, id);
    MovedCommits(s, s', id, at, scope, Ever);
  }

  /** Every session of the agent, and the agent as a whole, is within its limits. */
  ghost predicate TotalsWithin(s: TreasuryState, agent: Id, limits: Limits) {
    && (forall session :: Bounded(s, OneSession(agent, session), limits.session))
    && Bounded(s, WholeAgent(agent), limits.lifetime)
    && Bounded(s, WholeAgent(agent), limits.exposure)
  }

  lemma MovedKeepsTotals(s: TreasuryState, s': TreasuryState, id: Id, at: int, agent: Id, limits: Limits)
    requires MoneySound(s) && Moved(s, s', id, at) && TotalsWithin(s, agent, limits)
    requires Begins(s, s', agent) ==> PolicyWithin(s, agent, limits)
    ensures TotalsWithin(s', agent, limits)
  {
    hide MoneySound, Moved, Commitment, StartsLawfully, MoveEvents, ReceiptSound, StoredMove, Bounded, PolicyWithin;
    MovedFrame(s, s', id, at);
    var next := s'.intents[id];
    if next.state.Executing? && next.agentId == agent {
      StartBegins(s, s', id, at);
      StartFits(s, id, next, at, limits);
    }
    forall session
      ensures Bounded(s', OneSession(agent, session), limits.session)
    {
      assert Bounded(s, OneSession(agent, session), limits.session);
      assert OneSession(agent, session).Covers(next) ==> session == next.session && agent == next.agentId;
      MovedKeepsBound(s, s', id, at, OneSession(agent, session), limits.session);
    }
    MovedKeepsBound(s, s', id, at, WholeAgent(agent), limits.lifetime);
    MovedKeepsBound(s, s', id, at, WholeAgent(agent), limits.exposure);
  }

  lemma ElementaryKeepsTotals(s: TreasuryState, s': TreasuryState, supply: Id, at: int, agent: Id, limits: Limits)
    requires MoneySound(s) && Elementary(s, s', supply, at) && TotalsWithin(s, agent, limits)
    requires Begins(s, s', agent) ==> PolicyWithin(s, agent, limits)
    ensures TotalsWithin(s', agent, limits)
  {
    hide MoneySound, Elementary, Moved, Commitment, PolicyWithin;
    if id :| Moved(s, s', id, at) {
      MovedKeepsTotals(s, s', id, at, agent, limits);
    } else {
      forall session
        ensures Bounded(s', OneSession(agent, session), limits.session)
      {
        assert Bounded(s, OneSession(agent, session), limits.session);
        ElementaryCommits(s, s', supply, at, OneSession(agent, session), Ever);
      }
      ElementaryCommits(s, s', supply, at, WholeAgent(agent), Ever);
    }
  }

  // ----- the rolling limit -----

  /** The twenty-four hours from one instant on. */
  function DayFrom(from: int): Span {
    Between(from, from + DAY_SECS)
  }

  /** What settled in the last day and what is still open fits under the limit. */
  ghost predicate RollingNow(s: TreasuryState, agent: Id, limit: nat, now: int) {
    Commitment(s, WholeAgent(agent), Since(now - DAY_SECS)) <= limit
  }

  /** No window of twenty-four hours ever saw more settled than the limit. */
  ghost predicate RollingAlways(s: TreasuryState, agent: Id, limit: nat) {
    forall from :: Settlements(s, WholeAgent(agent), DayFrom(from)) <= limit
  }

  lemma NarrowerSpan(s: TreasuryState, scope: Scope, narrow: Span, wide: Span)
    requires MoneySound(s) && forall at :: narrow.Contains(at) ==> wide.Contains(at)
    ensures Settlements(s, scope, narrow) <= Settlements(s, scope, wide)
  {
    forall e | e in s.ledger
      ensures 0 < e.amount.minor
    {
      EventsKnown(s, e);
    }
    hide MoneySound;
    SumSeqLe(s.ledger, SettledW(s.intents, scope, TreasuryCurrency(s), narrow), SettledW(s.intents, scope, TreasuryCurrency(s), wide));
  }

  lemma OpenIsNonNegative(s: TreasuryState, scope: Scope)
    requires MoneySound(s)
    ensures 0 <= OpenIn(s.intents, scope)
  {
    forall i | i in s.intents
      ensures 0 < s.intents[i].request.finalTotal.minor
    {
      StoredIntentFacts(s, i);
    }
    hide MoneySound;
    SumNonNegative(s.intents, OpenW(scope));
  }

  /** Time alone only ever frees the rolling limit. */
  lemma RollingAges(s: TreasuryState, agent: Id, limit: nat, now: int, later: int)
    requires MoneySound(s) && RollingNow(s, agent, limit, now) && now <= later
    ensures RollingNow(s, agent, limit, later)
  {
    hide MoneySound;
    NarrowerSpan(s, WholeAgent(agent), Since(later - DAY_SECS), Since(now - DAY_SECS));
  }

  lemma MovedKeepsRollingNow(s: TreasuryState, s': TreasuryState, id: Id, at: int, agent: Id, limits: Limits)
    requires MoneySound(s) && Moved(s, s', id, at) && (Begins(s, s', agent) ==> PolicyWithin(s, agent, limits))
    requires RollingNow(s, agent, limits.rolling, at)
    ensures RollingNow(s', agent, limits.rolling, at)
  {
    hide MoneySound, Moved, Commitment, StartsLawfully, MoveEvents, ReceiptSound, PolicyWithin;
    MovedFrame(s, s', id, at);
    StoredIntentFacts(s, id);
    var next := s'.intents[id];
    if next.state.Executing? && next.agentId == agent {
      StartBegins(s, s', id, at);
      StartFits(s, id, next, at, limits);
    }
    MovedCommits(s, s', id, at, WholeAgent(agent), Since(at - DAY_SECS));
  }

  /** A payment that settles now was reserved until now, so every window it falls into is still within the limit. */
  lemma MovedKeepsWindow(s: TreasuryState, s': TreasuryState, id: Id, at: int, agent: Id, limit: nat, from: int)
    requires MoneySound(s) && Moved(s, s', id, at) && MoneySound(s')
    requires RollingNow(s', agent, limit, at)
    requires Settlements(s, WholeAgent(agent), DayFrom(from)) <= limit
    ensures Settlements(s', WholeAgent(agent), DayFrom(from)) <= limit
  {
    hide MoneySound, Moved, Settlements;
    var window := DayFrom(from);
    if window.Contains(at) {
      NarrowerSpan(s', WholeAgent(agent), window, Since(at - DAY_SECS));
      OpenIsNonNegative(s', WholeAgent(agent));
      CommitmentSplits(s', WholeAgent(agent), Since(at - DAY_SECS));
    } else {
      MovedSettles(s, s', id, at, WholeAgent(agent), window);
    }
  }

  lemma CommitmentSplits(s: TreasuryState, scope: Scope, span: Span)
    ensures Commitment(s, scope, span) == Settlements(s, scope, span) + OpenIn(s.intents, scope)
  {
  }

  ghost predicate RollingWithin(s: TreasuryState, agent: Id, limit: nat, now: int) {
    RollingNow(s, agent, limit, now) && RollingAlways(s, agent, limit)
  }

  lemma ElementaryKeepsRolling(s: TreasuryState, s': TreasuryState, supply: Id, at: int, agent: Id, limits: Limits)
    requires MoneySound(s) && Elementary(s, s', supply, at) && (Begins(s, s', agent) ==> PolicyWithin(s, agent, limits))
    requires RollingWithin(s, agent, limits.rolling, at)
    ensures RollingWithin(s', agent, limits.rolling, at)
  {
    hide MoneySound, Elementary, Moved, Commitment, Settlements, PolicyWithin;
    if id :| Moved(s, s', id, at) {
      MovedKeepsRollingNow(s, s', id, at, agent, limits);
      MovedKeepsMoney(s, s', id, at);
      forall from
        ensures Settlements(s', WholeAgent(agent), DayFrom(from)) <= limits.rolling
      {
        MovedKeepsWindow(s, s', id, at, agent, limits.rolling, from);
      }
    } else {
      ElementaryCommits(s, s', supply, at, WholeAgent(agent), Since(at - DAY_SECS));
      forall from
        ensures Settlements(s', WholeAgent(agent), DayFrom(from)) <= limits.rolling
      {
        ElementaryCommits(s, s', supply, at, WholeAgent(agent), DayFrom(from));
      }
    }
  }

  // ----- chains -----

  ghost predicate WithinLimits(s: TreasuryState, agent: Id, limits: Limits, now: int) {
    TotalsWithin(s, agent, limits) && RollingWithin(s, agent, limits.rolling, now)
  }

  lemma LimitsAge(s: TreasuryState, agent: Id, limits: Limits, now: int, later: int)
    requires MoneySound(s) && WithinLimits(s, agent, limits, now) && now <= later
    ensures WithinLimits(s, agent, limits, later)
  {
    hide MoneySound, TotalsWithin, RollingNow, RollingAlways;
    RollingAges(s, agent, limits.rolling, now, later);
  }

  /** However a chain of steps goes, limits that bound the agent's policy are kept, and nothing need bound it unless an intent begins. */
  lemma {:induction false} ReachesKeepsLimits(s: TreasuryState, s': TreasuryState, supply: Id, from: int, to: int, steps: nat,
                                              agent: Id, limits: Limits)
    requires Reaches(s, s', supply, from, to, steps) && Sound(s, NextId(supply) + 1) && 0 <= from <= to
    requires WithinLimits(s, agent, limits, from) && (Begins(s, s', agent) ==> PolicyWithin(s, agent, limits))
    ensures WithinLimits(s', agent, limits, to)
    decreases steps
  {
    hide Sound, Elementary, MoneySound, TotalsWithin, RollingWithin, Extends, Begins;
    if steps == 0 {
      SoundIsMoney(s, NextId(supply) + 1);
      LimitsAge(s, agent, limits, from, to);
    } else {
      var mid, at :| from <= at <= to && Reaches(s, mid, supply, from, at, steps - 1) && SameOffice(s, mid)
                     && Elementary(mid, s', supply, at);
      ReachesKeepsSound(s, mid, supply, from, at, steps - 1);
      ReachesExtends(s, mid, supply, from, at, steps - 1);
      ElementaryExtends(mid, s', supply, at);
      if Begins(s, mid, agent) || Begins(mid, s', agent) {
        BeginsOfChain(s, mid, s', agent);
      }
      ReachesKeepsLimits(s, mid, supply, from, at, steps - 1, agent, limits);
      SoundIsMoney(mid, NextId(supply) + 1);
      ElementaryKeepsTotals(mid, s', supply, at, agent, limits);
      ElementaryKeepsRolling(mid, s', supply, at, agent, limits);
      ElementaryKeepsSound(mid, s', supply, at);
      SoundIsMoney(s', NextId(supply) + 1);
      LimitsAge(s', agent, limits, at, to);
    }
  }

  // ----- what the bounds say about intents -----

  ghost function CommittedW(scope: Scope): (Id, Intent) -> int {
    (i: Id, x: Intent) => if scope.Covers(x) && (x.state.Open() || x.state.Spent()) then x.request.finalTotal.minor else 0
  }

  ghost function SettlementsW(ledger: seq<LedgerEvent>, scope: Scope): (Id, Intent) -> int {
    (i: Id, x: Intent) => if scope.Covers(x) then FootprintOf(ledger, i).settlements * x.request.finalTotal.minor else 0
  }

  /** One more event about `id` raises its settled amount exactly when it is a settlement. */
  lemma OneMoreSettlement(intents: map<Id, Intent>, ledger: seq<LedgerEvent>, last: LedgerEvent, id: Id, scope: Scope)
    requires id in intents && last.intentId == Some(id)
    ensures Sum(intents, SettlementsW(ledger + [last], scope)) == Sum(intents, SettlementsW(ledger, scope))
              + if scope.Covers(intents[id]) && last.kind.SpendingSettled? then intents[id].request.finalTotal.minor else 0
  {
    var longer := ledger + [last];
    assert longer[..|ledger|] == ledger;
    forall j | j in intents && j != id
      ensures SettlementsW(ledger, scope)(j, intents[j]) == SettlementsW(longer, scope)(j, intents[j])
    {
      assert FootprintOf(longer, j) == FootprintOf(ledger, j);
    }
    var n, total := FootprintOf(ledger, id).settlements, intents[id].request.finalTotal.minor;
    assert FootprintOf(longer, id) == FootprintOf(ledger, id).Add(last.kind);
    assert (n + 1) * total == n * total + total;
    hide FootprintOf;
    SumSwap(intents, id, intents[id], SettlementsW(ledger, scope), SettlementsW(longer, scope));
    assert intents == intents[id := intents[id]];
  }

  lemma {:induction false} SettlementsByIntent(intents: map<Id, Intent>, ledger: seq<LedgerEvent>, c: Currency, scope: Scope)
    requires forall e :: e in ledger ==> EventSound(e, intents, c)
    ensures SettledIn(intents, ledger, scope, c, Ever) == Sum(intents, SettlementsW(ledger, scope))
  {
    if |ledger| == 0 {
      forall i | i in intents
        ensures SettlementsW(ledger, scope)(i, intents[i]) == 0
      {
        assert FootprintOf(ledger, i) == NO_EVENTS;
      }
      SumAdd(intents, SettlementsW(ledger, scope), SettlementsW(ledger, scope), SettlementsW(ledger, scope));
    } else {
      var shorter, last := ledger[..|ledger| - 1], ledger[|ledger| - 1];
      SettlementsByIntent(intents, shorter, c, scope);
      assert EventSound(last, intents, c);
      if last.intentId.Some? {
        assert ledger == shorter + [last];
        OneMoreSettlement(intents, shorter, last, last.intentId.value, scope);
      } else {
        assert forall i :: FootprintOf(ledger, i) == FootprintOf(shorter, i);
        SumCongruent(intents, SettlementsW(shorter, scope), SettlementsW(ledger, scope));
      }
    }
  }

  lemma ExpectedSettlements(state: TransactionState)
    ensures Expected(state).settlements == if state.Spent() then 1 else 0
  {
  }

  lemma IntentCommits(s: TreasuryState, scope: Scope, i: Id)
    requires MoneySound(s) && i in s.intents
    ensures CommittedW(scope)(i, s.intents[i]) == SettlementsW(s.ledger, scope)(i, s.intents[i]) + OpenW(scope)(i, s.intents[i])
  {
    assert FootprintOf(s.ledger, i) == Expected(s.intents[i].state);
    ExpectedSettlements(s.intents[i].state);
    hide MoneySound, FootprintOf, Expected;
  }

  /** The commitment the code recomputes from two histories is the total of the open and the settled intents. */
  lemma CommitmentIsIntents(s: TreasuryState, scope: Scope)
    requires MoneySound(s)
    ensures Commitment(s, scope, Ever) == Sum(s.intents, CommittedW(scope))
  {
    MoneyLedger(s);
    SettlementsByIntent(s.intents, s.ledger, TreasuryCurrency(s), scope);
    hide MoneySound, CommittedW, OpenW, SettlementsW, SettledIn;
    forall i | i in s.intents
      ensures CommittedW(scope)(i, s.intents[i]) == SettlementsW(s.ledger, scope)(i, s.intents[i]) + OpenW(scope)(i, s.intents[i])
    {
      IntentCommits(s, scope, i);
    }
    SumAdd(s.intents, SettlementsW(s.ledger, scope), OpenW(scope), CommittedW(scope));
  }

  lemma MoneyLedger(s: TreasuryState)
    requires MoneySound(s)
    ensures forall e :: e in s.ledger ==> EventSound(e, s.intents, TreasuryCurrency(s))
  {
  }
}
