/** Loops over the records compute the sums of the specification, and overflow exactly when those do. */
module Folds {
  import opened Results
  import opened Sums
  import opened MoneyMath
  import opened Records
  import opened Budget
  import opened LedgerInvariant
  import opened MoneyInvariant
  import opened Safety
  import opened Invariant

  /** No recorded amount is negative, so a running total never exceeds the final one; and keys are unique. */
  predicate Counted(s: TreasuryState) {
    && (forall i :: i in s.intents ==> 0 <= s.intents[i].request.finalTotal.minor)
    && (forall e :: e in s.ledger ==> 0 <= e.amount.minor)
    && (s.mode.Simulated? ==> forall h :: h in s.provider.holds ==> 0 <= s.provider.holds[h].minor)
    && KeysUnique(s.intents)
  }

  lemma SoundIsCounted(s: TreasuryState, supply: Id)
    requires Sound(s, supply)
    ensures Counted(s)
  {
    forall e | e in s.ledger
      ensures 0 <= e.amount.minor
    {
      assert EventSound(e, s.intents, TreasuryCurrency(s));
    }
  }

  /** One more element of a log. */
  lemma NextPrefix<T>(s: seq<T>, n: nat, w: T -> int)
    requires n < |s|
    ensures SumSeq(s[..n + 1], w) == SumSeq(s[..n], w) + w(s[n])
  {
    assert s[..n + 1] == s[..n] + [s[n]];
    SumSeqAppend(s[..n], s[n], w);
  }

  lemma WholePrefix<T>(s: seq<T>, w: T -> int)
    ensures SumSeq(s[..|s|], w) == SumSeq(s, w) && SumSeq(s[..0], w) == 0
  {
    assert s[..|s|] == s;
  }

  /** One entry fewer to visit. */
  lemma NextEntry<V>(m: map<Id, V>, rest: map<Id, V>, i: Id, w: (Id, V) -> int)
    requires i in rest && forall j :: j in rest ==> j in m && rest[j] == m[j]
    ensures Sum(rest, w) == Sum(rest - {i}, w) + w(i, m[i])
  {
    SumPick(rest, i, w);
  }

  // ----- usage -----

  /** The four running totals of `usage` after `n` events and all intents but `rest`. */
  ghost function SettledSoFar(s: TreasuryState, scope: Scope, currency: Currency, span: Span, n: nat): int
    requires n <= |s.ledger|
  {
    SumSeq(s.ledger[..n], SettledW(s.intents, scope, currency, span))
  }

  lemma SettledNext(s: TreasuryState, scope: Scope, currency: Currency, span: Span, n: nat)
    requires n < |s.ledger| && Counted(s)
    ensures SettledSoFar(s, scope, currency, span, n + 1)
         == SettledSoFar(s, scope, currency, span, n) + SettledW(s.intents, scope, currency, span)(s.ledger[n])
    ensures SettledSoFar(s, scope, currency, span, n + 1) <= SettledIn(s.intents, s.ledger, scope, currency, span)
  {
    NextPrefix(s.ledger, n, SettledW(s.intents, scope, currency, span));
    SumSeqPrefix(s.ledger, n + 1, SettledW(s.intents, scope, currency, span));
  }

  lemma SettledEnds(s: TreasuryState, scope: Scope, currency: Currency, span: Span)
    ensures SettledSoFar(s, scope, currency, span, 0) == 0
    ensures SettledSoFar(s, scope, currency, span, |s.ledger|) == SettledIn(s.intents, s.ledger, scope, currency, span)
  {
    WholePrefix(s.ledger, SettledW(s.intents, scope, currency, span));
  }

  /** A part of the intents, still to be visited. */
  ghost predicate PartOf(rest: map<Id, Intent>, intents: map<Id, Intent>) {
    forall i :: i in rest ==> i in intents && rest[i] == intents[i]
  }

  /** Open reservations visited so far. */
  ghost function OpenSoFar(s: TreasuryState, scope: Scope, rest: map<Id, Intent>): int {
    OpenIn(s.intents, scope) - OpenIn(rest, scope)
  }

  lemma OpenNext(s: TreasuryState, scope: Scope, rest: map<Id, Intent>, i: Id)
    requires PartOf(rest, s.intents) && i in rest && Counted(s)
    ensures OpenSoFar(s, scope, rest - {i}) == OpenSoFar(s, scope, rest) + OpenW(scope)(i, s.intents[i])
    ensures OpenSoFar(s, scope, rest - {i}) <= OpenIn(s.intents, scope)
  {
    NextEntry(s.intents, rest, i, OpenW(scope));
    SumNonNegative(rest - {i}, OpenW(scope));
  }

  lemma OpenAll(s: TreasuryState, scope: Scope)
    requires Counted(s)
    ensures OpenSoFar(s, scope, s.intents) == 0 && 0 <= OpenIn(s.intents, scope)
    ensures OpenSoFar(s, scope, map[]) == OpenIn(s.intents, scope)
  {
    SumNonNegative(s.intents, OpenW(scope));
  }

  /** Every open intent of the agent that was visited is in the currency being counted. */
  ghost predicate VisitedMatch(intents: map<Id, Intent>, rest: map<Id, Intent>, agent: Id, currency: Currency) {
    forall i :: i in intents && i !in rest && intents[i].agentId == agent && intents[i].state.Open()
      ==> intents[i].request.finalTotal.currency == currency
  }

  lemma VisitNext(intents: map<Id, Intent>, rest: map<Id, Intent>, i: Id, agent: Id, currency: Currency)
    requires PartOf(rest, intents) && i in rest && VisitedMatch(intents, rest, agent, currency)
    ensures var counts := intents[i].agentId == agent && intents[i].state.Open();
            if counts && intents[i].request.finalTotal.currency != currency then ForeignOpen(intents, agent, currency)
            else VisitedMatch(intents, rest - {i}, agent, currency)
  {
  }

  lemma VisitedAll(intents: map<Id, Intent>, agent: Id, currency: Currency)
    ensures VisitedMatch(intents, map[], agent, currency) <==> !ForeignOpen(intents, agent, currency)
    ensures VisitedMatch(intents, intents, agent, currency)
  {
  }

  // ----- snapshot -----

  function CheckedSum(x: int, y: int): Result<int> {
    if Fits(x + y) then Ok(x + y) else Err(MoneyError)
  }

  /** One ledger event of the snapshot's currency, added to the total of its kind. */
  function AddEvent(t: LedgerSnapshot, kind: LedgerEventKind, minor: int): Result<LedgerSnapshot> {
    match kind
    case OwnerCapital => var sum :- CheckedSum(t.ownerCapital, minor); Ok(t.(ownerCapital := sum))
    case IncomeVerified => var sum :- CheckedSum(t.verifiedIncome, minor); Ok(t.(verifiedIncome := sum))
    case IncomeUnverified => var sum :- CheckedSum(t.unverifiedIncome, minor); Ok(t.(unverifiedIncome := sum))
    case OperatorTopUp => var sum :- CheckedSum(t.operatorTopups, minor); Ok(t.(operatorTopups := sum))
    case SpendingSettled => var sum :- CheckedSum(t.settledSpending, minor); Ok(t.(settledSpending := sum))
    case Refund => var sum :- CheckedSum(t.refunds, minor); Ok(t.(refunds := sum))
    case _ => Ok(t)
  }

  lemma AddFits(t: LedgerSnapshot, kind: LedgerEventKind, minor: int)
    requires Fits(t.verifiedIncome) && Fits(t.unverifiedIncome)
    ensures AddEvent(t, kind, minor).Ok? ==>
              Fits(AddEvent(t, kind, minor).value.verifiedIncome) && Fits(AddEvent(t, kind, minor).value.unverifiedIncome)
  {
  }

  /** The totals of a prefix of the ledger, with nothing reserved yet. */
  ghost function LedgerTotals(ledger: seq<LedgerEvent>, c: Currency): LedgerSnapshot {
    LedgerSnapshot(
      KindTotal(ledger, OwnerCapital, c), KindTotal(ledger, IncomeVerified, c), KindTotal(ledger, IncomeUnverified, c),
      KindTotal(ledger, OperatorTopUp, c), KindTotal(ledger, SpendingSettled, c), KindTotal(ledger, Refund, c), 0)
  }

  /** No total is negative or above the corresponding one. */
  predicate Below(t: LedgerSnapshot, u: LedgerSnapshot) {
    && 0 <= t.ownerCapital <= u.ownerCapital && 0 <= t.verifiedIncome <= u.verifiedIncome
    && 0 <= t.unverifiedIncome <= u.unverifiedIncome && 0 <= t.operatorTopups <= u.operatorTopups
    && 0 <= t.settledSpending <= u.settledSpending && 0 <= t.refunds <= u.refunds && 0 <= t.reserved <= u.reserved
  }

  lemma KindNext(ledger: seq<LedgerEvent>, n: nat, kind: LedgerEventKind, c: Currency)
    requires n < |ledger|
    ensures KindTotal(ledger[..n + 1], kind, c)
         == KindTotal(ledger[..n], kind, c) + KindValue(ledger[n], kind, c)
  {
    NextPrefix(ledger, n, KindW(kind, c));
  }

  lemma KindBelow(ledger: seq<LedgerEvent>, n: nat, kind: LedgerEventKind, c: Currency)
    requires n <= |ledger| && forall e :: e in ledger ==> 0 <= e.amount.minor
    ensures 0 <= KindTotal(ledger[..n], kind, c) <= KindTotal(ledger, kind, c)
  {
    SumSeqPrefix(ledger, n, KindW(kind, c));
    SumSeqNonNegative(ledger[..n], KindW(kind, c));
  }

  lemma TotalsBelow(ledger: seq<LedgerEvent>, n: nat, c: Currency)
    requires n <= |ledger| && forall e :: e in ledger ==> 0 <= e.amount.minor
    ensures Below(LedgerTotals(ledger[..n], c), LedgerTotals(ledger, c))
  {
    hide KindTotal;
    KindBelow(ledger, n, OwnerCapital, c);
    KindBelow(ledger, n, IncomeVerified, c);
    KindBelow(ledger, n, IncomeUnverified, c);
    KindBelow(ledger, n, OperatorTopUp, c);
    KindBelow(ledger, n, SpendingSettled, c);
    KindBelow(ledger, n, Refund, c);
  }

  /** Adding an event gives the totals of the longer prefix, or shows that the final snapshot overflows. */
  lemma TotalsNext(ledger: seq<LedgerEvent>, n: nat, c: Currency, reserved: nat)
    requires n < |ledger| && (forall e :: e in ledger ==> 0 <= e.amount.minor)
    ensures var t := LedgerTotals(ledger[..n], c);
            var added := if ledger[n].amount.currency == c then AddEvent(t, ledger[n].kind, ledger[n].amount.minor) else Ok(t);
            && (added.Ok? ==> added.value == LedgerTotals(ledger[..n + 1], c))
            && (added.Err? ==> added == Err(MoneyError) && !LedgerTotals(ledger, c).(reserved := reserved).NoOverflow())
  {
    hide KindTotal, KindW;
    KindNext(ledger, n, OwnerCapital, c);
    KindNext(ledger, n, IncomeVerified, c);
    KindNext(ledger, n, IncomeUnverified, c);
    KindNext(ledger, n, OperatorTopUp, c);
    KindNext(ledger, n, SpendingSettled, c);
    KindNext(ledger, n, Refund, c);
    TotalsBelow(ledger, n + 1, c);
  }

  lemma ReservedNext(s: TreasuryState, c: Currency, rest: map<Id, Intent>, i: Id)
    requires PartOf(rest, s.intents) && i in rest && Counted(s)
    ensures Reserved(s.intents, c) - Reserved(rest - {i}, c) == Reserved(s.intents, c) - Reserved(rest, c) + ReservedW(c)(i, s.intents[i])
    ensures Reserved(s.intents, c) - Reserved(rest - {i}, c) <= Reserved(s.intents, c)
  {
    NextEntry(s.intents, rest, i, ReservedW(c));
    SumNonNegative(rest - {i}, ReservedW(c));
  }

  lemma ReservedNonNegative(s: TreasuryState, c: Currency)
    requires Counted(s)
    ensures 0 <= Reserved(s.intents, c) && Reserved(map[], c) == 0
  {
    SumNonNegative(s.intents, ReservedW(c));
  }

  lemma SnapshotIs(s: TreasuryState, c: Currency)
    ensures SnapshotTotals(s, c) == LedgerTotals(s.ledger, c).(reserved := Reserved(s.intents, c))
  {
  }

  // ----- holds -----

  ghost predicate HoldsVisited(p: SimulatedProvider, rest: map<Id, Money>) {
    && (forall h :: h in rest ==> h in p.holds && rest[h] == p.holds[h])
    && (forall h :: h in p.holds && h !in rest ==> p.holds[h].currency == p.balance.currency)
  }

  lemma HoldsStart(p: SimulatedProvider, none: map<Id, Money>)
    requires none == map[]
    ensures HoldsVisited(p, p.holds) && Sum(none, HoldW()) == 0
    ensures HoldsVisited(p, none) && Fits(HoldTotal(p)) ==>
              ProviderAvailable(p) == p.balance.CheckedSub(Money(HoldTotal(p), p.balance.currency))
  {
  }

  /** Adding one hold either works, or shows that the whole sum does not. */
  lemma HoldNext(p: SimulatedProvider, rest: map<Id, Money>, h: Id)
    requires HoldsVisited(p, rest) && h in rest && forall j :: j in p.holds ==> 0 <= p.holds[j].minor
    ensures Sum(rest, HoldW()) == Sum(rest - {h}, HoldW()) + rest[h].minor
    ensures 0 <= HoldTotal(p) - Sum(rest, HoldW()) && 0 <= Sum(rest - {h}, HoldW())
    ensures rest[h].currency == p.balance.currency ==> HoldsVisited(p, rest - {h})
    ensures rest[h].currency != p.balance.currency ==> ProviderAvailable(p) == Err(MoneyError)
    ensures !Fits(HoldTotal(p) - Sum(rest - {h}, HoldW())) ==> ProviderAvailable(p) == Err(MoneyError)
  {
    SumPick(rest, h, HoldW());
    SumNonNegative(rest - {h}, HoldW());
    RestBelow(p.holds, rest);
    RestBelow(p.holds, rest - {h});
  }

  lemma {:induction false} RestBelow(holds: map<Id, Money>, rest: map<Id, Money>)
    requires (forall h :: h in rest ==> h in holds && rest[h] == holds[h]) && forall h :: h in holds ==> 0 <= holds[h].minor
    ensures 0 <= Sum(rest, HoldW()) <= Sum(holds, HoldW())
    decreases |rest|
  {
    if rest == map[] {
      SumNonNegative(holds, HoldW());
    } else {
      var h :| h in rest;
      SumPick(rest, h, HoldW());
      SumPick(holds, h, HoldW());
      RestBelow(holds - {h}, rest - {h});
    }
  }
}
