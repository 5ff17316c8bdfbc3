/** What the money invariant guarantees: solvency, and that whatever passes a decision is covered. */
module Solvency {
  import opened Results
  import opened Sums
  import opened MoneyMath
  import opened Records
  import opened Budget
  import opened Execution
  import opened LedgerInvariant
  import opened MoneyInvariant

  // ----- solvency -----

  ghost function HeldW(holds: map<Id, Money>): (Id, Intent) -> int {
    (i: Id, x: Intent) => if i in holds then holds[i].minor else 0
  }

  lemma OneHoldMore(intents: map<Id, Intent>, holds: map<Id, Money>, k: Id)
    requires k in holds && k in intents
    ensures Sum(intents, HeldW(holds)) == Sum(intents, HeldW(holds - {k})) + holds[k].minor
  {
    assert intents[k := intents[k]] == intents;
    SumSwap(intents, k, intents[k], HeldW(holds - {k}), HeldW(holds));
  }

  lemma NothingHeld(intents: map<Id, Intent>, holds: map<Id, Money>)
    requires holds == map[]
    ensures Sum(intents, HeldW(holds)) == 0
  {
    SumAdd(intents, HeldW(holds), HeldW(holds), HeldW(holds));
  }

  lemma {:induction false} HoldsByIntentId(intents: map<Id, Intent>, holds: map<Id, Money>)
    requires holds.Keys <= intents.Keys
    ensures Sum(holds, HoldW()) == Sum(intents, HeldW(holds))
    decreases |holds|
  {
    if holds == map[] {
      NothingHeld(intents, holds);
    } else {
      var k :| k in holds;
      hide HeldW;
      SumPick(holds, k, HoldW());
      OneHoldMore(intents, holds, k);
      HoldsByIntentId(intents, holds - {k});
    }
  }

  /** An open intent is charged, or held, or untouched. */
  lemma IntentSplits(intents: map<Id, Intent>, p: SimulatedProvider, currency: Currency, id: Id)
    requires HoldsSound(intents, p) && ChargesSound(intents, p) && id in intents
    requires !intents[id].state.NeverReserved() ==> intents[id].request.finalTotal.currency == currency
    ensures ReservedW(currency)(id, intents[id])
         == ChargedOpenW(p.charges)(id, intents[id]) + HeldW(p.holds)(id, intents[id]) + UntouchedW(p)(id, intents[id])
  {
    assert id in p.holds ==> id !in p.charges;
  }

  /** Open reservations split into charged, held and untouched ones. */
  lemma ReservationsSplit(s: TreasuryState)
    requires LedgerSound(s.intents, s.ledger, TreasuryCurrency(s))
    requires HoldsSound(s.intents, s.provider) && ChargesSound(s.intents, s.provider)
    ensures Totals(s).reserved
         == Sum(s.intents, ChargedOpenW(s.provider.charges)) + HoldTotal(s.provider) + Sum(s.intents, UntouchedW(s.provider))
  {
    var p, c := s.provider, TreasuryCurrency(s);
    HoldsByIntentId(s.intents, p.holds);
    forall i | i in s.intents
      ensures ReservedW(c)(i, s.intents[i])
           == ChargedOpenW(p.charges)(i, s.intents[i]) + HeldW(p.holds)(i, s.intents[i]) + UntouchedW(p)(i, s.intents[i])
    {
      IntentFacts(s, i);
      IntentSplits(s.intents, p, c, i);
    }
    hide LedgerSound, HoldsSound, ChargesSound, ReservedW, ChargedOpenW, HeldW, UntouchedW;
    SplitSum(s.intents, ReservedW(c), ChargedOpenW(p.charges), HeldW(p.holds), UntouchedW(p));
  }

  lemma SplitSum(m: map<Id, Intent>, all: (Id, Intent) -> int, a: (Id, Intent) -> int, b: (Id, Intent) -> int, c: (Id, Intent) -> int)
    requires forall i :: i in m ==> all(i, m[i]) == a(i, m[i]) + b(i, m[i]) + c(i, m[i])
    ensures Sum(m, all) == Sum(m, a) + Sum(m, b) + Sum(m, c)
  {
    var ab := (i: Id, x: Intent) => a(i, x) + b(i, x);
    SumAdd(m, a, b, ab);
    SumAdd(m, ab, c, all);
  }

  /** A provider whose holds fit its balance reports what is left. */
  lemma AvailableIs(p: SimulatedProvider)
    requires forall i :: i in p.holds ==> p.holds[i].currency == p.balance.currency
    requires 0 <= HoldTotal(p) <= p.balance.minor
    ensures ProviderAvailable(p) == Ok(Money(p.balance.minor - HoldTotal(p), p.balance.currency))
  {
  }

  lemma UntouchedNonNegative(s: TreasuryState)
    requires LedgerSound(s.intents, s.ledger, TreasuryCurrency(s))
    ensures 0 <= Sum(s.intents, UntouchedW(s.provider))
  {
    SumNonNegative(s.intents, UntouchedW(s.provider));
  }

  lemma HoldsNonNegative(s: TreasuryState)
    requires LedgerSound(s.intents, s.ledger, TreasuryCurrency(s)) && HoldsSound(s.intents, s.provider)
    ensures 0 <= HoldTotal(s.provider)
    ensures forall i :: i in s.provider.holds ==> s.provider.holds[i].currency == TreasuryCurrency(s)
  {
    forall i | i in s.provider.holds
      ensures 0 <= s.provider.holds[i].minor && s.provider.holds[i].currency == TreasuryCurrency(s)
    {
      IntentFacts(s, i);
    }
    SumNonNegative(s.provider.holds, HoldW());
  }

  /**
   Simulated-mode solvency: the provider can pay the whole remaining authority, all verified income
   that was not made spendable, and every open reservation it has not yet charged or held.
   */
  lemma ProviderCoversAuthority(s: TreasuryState)
    requires MoneySound(s) && s.mode.Simulated?
    ensures 0 <= Totals(s).Authority()
    ensures ProviderAvailable(s.provider).Ok?
    ensures ProviderAvailable(s.provider).value.minor
         == Totals(s).Authority() + (Totals(s).verifiedIncome - Totals(s).operatorTopups)
            + Sum(s.intents, UntouchedW(s.provider))
    ensures ProviderAvailable(s.provider).value.minor <= s.provider.balance.minor
  {
    ReservationsSplit(s);
    UntouchedNonNegative(s);
    HoldsNonNegative(s);
    hide LedgerSound, HoldsSound, ChargesSound, HoldTotal, ProviderAvailable, Totals, TreasuryCurrency;
    AvailableIs(s.provider);
  }

  /** The money of one untouched open intent is available at the provider. */
  lemma ReservationIsAvailable(s: TreasuryState, id: Id)
    requires MoneySound(s) && s.mode.Simulated? && id in s.intents && s.intents[id].state.Open()
    requires id !in s.provider.charges && id !in s.provider.holds
    ensures ProviderAvailable(s.provider).Ok?
    ensures s.intents[id].request.finalTotal.minor <= ProviderAvailable(s.provider).value.minor <= s.provider.balance.minor
  {
    ProviderCoversAuthority(s);
    SumMember(s.intents, id, UntouchedW(s.provider));
  }

  lemma ExecutingIsUntouched(intents: map<Id, Intent>, p: SimulatedProvider, id: Id)
    requires HoldsSound(intents, p) && ChargesSound(intents, p) && id in intents && intents[id].state.Executing?
    ensures id !in p.charges && id !in p.holds
  {
  }

  /** Hence a reserved purchase is declined by the simulator only when its scenario says so, and never errs. */
  lemma ReservedIsNeverDeclinedForBalance(s: TreasuryState, id: Id, nextId: Id)
    requires MoneySound(s) && s.mode.Simulated? && id in s.intents && s.intents[id].state.Executing?
    ensures var answer := Authorize(s.provider, id, s.intents[id].request, nextId);
            answer.Ok? && (answer.value.1.ProviderDeclined? <==> s.intents[id].request.scenario.Decline?)
  {
    IntentFacts(s, id);
    ExecutingIsUntouched(s.intents, s.provider, id);
    hide LedgerSound, HoldsSound, ChargesSound, BalanceSound, ProviderAvailable, AuthoritySound;
    ReservationIsAvailable(s, id);
  }

  // ----- reservation -----

  lemma {:induction false} NoForeignEvents(ledger: seq<LedgerEvent>, intents: map<Id, Intent>, treasury: Currency,
                                           kind: LedgerEventKind, foreign: Currency)
    requires forall e :: e in ledger ==> EventSound(e, intents, treasury)
    requires foreign != treasury && !kind.IncomeUnverified?
    ensures KindTotal(ledger, kind, foreign) == 0
  {
    if |ledger| > 0 {
      assert EventSound(ledger[|ledger| - 1], intents, treasury);
      NoForeignEvents(ledger[..|ledger| - 1], intents, treasury, kind, foreign);
    }
  }

  /** Money exists in one currency only: in any other, authority is never positive. */
  lemma ForeignAuthorityIsEmpty(s: TreasuryState, foreign: Currency)
    requires LedgerSound(s.intents, s.ledger, TreasuryCurrency(s)) && foreign != TreasuryCurrency(s)
    ensures SnapshotTotals(s, foreign).Authority() <= 0
  {
    var c := TreasuryCurrency(s);
    NoForeignEvents(s.ledger, s.intents, c, OwnerCapital, foreign);
    NoForeignEvents(s.ledger, s.intents, c, OperatorTopUp, foreign);
    NoForeignEvents(s.ledger, s.intents, c, Refund, foreign);
    NoForeignEvents(s.ledger, s.intents, c, SpendingSettled, foreign);
    SumNonNegative(s.intents, ReservedW(foreign));
  }

  /** A decision that is not a denial has checked every limit against this usage. */
  lemma DecisionChecks(s: TreasuryState, agent: Id, r: PurchaseRequest, policy: Policy, at: int, verdict: Verdict)
    requires Decide(s, agent, r, policy, at, verdict).Ok? && !Decide(s, agent, r, policy, at, verdict).value.Deny?
    ensures agent in s.agents && policy.Valid() && 0 < r.finalTotal.minor && r.finalTotal.currency == policy.currency
    ensures !s.emergencyStop
    ensures UsageOf(s, agent, policy.currency, at).Ok?
    ensures var u := UsageOf(s, agent, policy.currency, at).value;
            !OverLimit(policy, r.finalTotal.minor, u) && u.lifetime + r.finalTotal.minor <= policy.exposureCeiling
    ensures SnapshotOf(s, policy.currency).Ok? && r.finalTotal.minor <= SnapshotOf(s, policy.currency).value.Authority()
    ensures AvailableBalance(s, at).Ok? && r.finalTotal.minor <= AvailableBalance(s, at).value.minor
  {
    assert agent in s.agents;
    hide UsageOf, SnapshotOf, AvailableBalance, ConfiguredBalance, OverLimit, Evaluate, EnforceAuthority;
    var u := UsageOf(s, agent, policy.currency, at).value;
    var first := Evaluate(policy, r, u, s.agents[agent].mode, s.emergencyStop, verdict);
    EnforcementChecks(s, first.value, r, u, policy, at);
    EvaluationChecks(policy, r, u, s.agents[agent].mode, s.emergencyStop, verdict);
  }

  lemma EvaluationChecks(policy: Policy, r: PurchaseRequest, u: Usage, mode: AutonomyMode, stopped: bool, verdict: Verdict)
    requires Evaluate(policy, r, u, mode, stopped, verdict).Ok? && !Evaluate(policy, r, u, mode, stopped, verdict).value.Deny?
    ensures policy.Valid() && 0 < r.finalTotal.minor && r.finalTotal.currency == policy.currency && !stopped
    ensures !OverLimit(policy, r.finalTotal.minor, u)
  {
    hide OverLimit;
  }

  lemma EnforcementChecks(s: TreasuryState, decision: Decision, r: PurchaseRequest, u: Usage, policy: Policy, at: int)
    requires EnforceAuthority(s, decision, r, u, policy, at).Ok? && !EnforceAuthority(s, decision, r, u, policy, at).value.Deny?
    ensures !decision.Deny?
    ensures r.finalTotal.currency == policy.currency ==>
              && u.lifetime + r.finalTotal.minor <= policy.exposureCeiling
              && SnapshotOf(s, policy.currency).Ok? && r.finalTotal.minor <= SnapshotOf(s, policy.currency).value.Authority()
              && AvailableBalance(s, at).Ok? && r.finalTotal.minor <= AvailableBalance(s, at).value.minor
  {
    hide SnapshotOf, AvailableBalance, ConfiguredBalance;
  }

  /** Whatever passes the decision is money the treasury has, in the treasury currency. */
  lemma DecisionIsCovered(s: TreasuryState, agent: Id, r: PurchaseRequest, policy: Policy, at: int, verdict: Verdict)
    requires MoneySound(s)
    requires Decide(s, agent, r, policy, at, verdict).Ok? && !Decide(s, agent, r, policy, at, verdict).value.Deny?
    ensures 0 < r.finalTotal.minor && r.finalTotal.currency == policy.currency == TreasuryCurrency(s)
    ensures r.finalTotal.minor <= Totals(s).Authority()
    ensures s.mode.ManualPrepaidCard? ==>
              r.finalTotal.minor <= s.manual.value.amount.minor - Reserved(s.intents, TreasuryCurrency(s))
  {
    DecisionChecks(s, agent, r, policy, at, verdict);
    if policy.currency != TreasuryCurrency(s) {
      ForeignAuthorityIsEmpty(s, policy.currency);
    }
    hide Decide, LedgerSound, AuthoritySound, ProviderSound, UsageOf, OverLimit, SnapshotTotals, Reserved;
    assert SnapshotOf(s, policy.currency).value == SnapshotTotals(s, policy.currency);
  }

  // ----- errors that cannot happen -----

  /** In the treasury's currency a snapshot fails only by overflow: its authority is never negative. */
  lemma SnapshotFailsOnlyByOverflow(s: TreasuryState)
    requires MoneySound(s)
    ensures SnapshotOf(s, TreasuryCurrency(s)) == if Totals(s).NoOverflow() then Ok(Totals(s)) else Err(MoneyError)
  {
    hide LedgerSound, ProviderSound, ManualSound, SnapshotTotals;
  }

  /** In manual mode "reservations exceed the reported balance" never happens: only a stale or unconfirmed balance is refused. */
  lemma ReservationsNeverExceedReportedBalance(s: TreasuryState, at: int)
    requires MoneySound(s) && s.mode.ManualPrepaidCard?
    ensures s.manual.Some?
    ensures var usable := at < s.manual.value.expiresAt && s.manual.value.status.OwnerConfirmed?;
            && (AvailableBalance(s, at).Ok? <==> usable && Totals(s).NoOverflow())
            && (AvailableBalance(s, at).Err? ==> AvailableBalance(s, at).error == if usable then MoneyError else Conflict)
    ensures AvailableBalance(s, at).Ok? ==>
              0 <= AvailableBalance(s, at).value.minor == s.manual.value.amount.minor - Totals(s).reserved
  {
    hide MoneySound, SnapshotOf, Totals, LedgerSnapshot.NoOverflow, Uncommitted, Reserved, LedgerSound;
    MoneyLedgerSound(s);
    SnapshotFailsOnlyByOverflow(s);
    ReservedIsNonNegative(s);
    ManualIsCovered(s);
    OverflowCoversReserved(Totals(s));
    if Totals(s).NoOverflow() {
      UncommittedIs(s.manual.value.amount, Totals(s));
    }
  }

  lemma MoneyLedgerSound(s: TreasuryState)
    requires MoneySound(s)
    ensures LedgerSound(s.intents, s.ledger, TreasuryCurrency(s))
  {
  }

  lemma UncommittedIs(reported: Money, snapshot: LedgerSnapshot)
    requires Fits(snapshot.reserved) && 0 <= snapshot.reserved <= reported.minor
    ensures Uncommitted(reported, snapshot) == Ok(Money(reported.minor - snapshot.reserved, reported.currency))
  {
  }

  lemma OverflowCoversReserved(t: LedgerSnapshot)
    ensures t.NoOverflow() ==> Fits(t.reserved)
  {
  }

  lemma ManualIsCovered(s: TreasuryState)
    requires MoneySound(s) && s.mode.ManualPrepaidCard?
    ensures s.manual.Some? && s.manual.value.amount.currency == TreasuryCurrency(s)
    ensures Totals(s).reserved <= s.manual.value.amount.minor && Totals(s).reserved == Reserved(s.intents, TreasuryCurrency(s))
  {
  }

  lemma ReservedIsNonNegative(s: TreasuryState)
    requires LedgerSound(s.intents, s.ledger, TreasuryCurrency(s))
    ensures 0 <= Reserved(s.intents, TreasuryCurrency(s))
  {
    SumNonNegative(s.intents, ReservedW(TreasuryCurrency(s)));
  }
}
