/**
 Conservation of money: ledger, provider and owner-reported balances stay in step, authority never
 goes negative, and every open reservation stays covered.
 */
module MoneyInvariant {
  import opened Results
  import opened Sums
  import opened MoneyMath
  import opened Records
  import opened Budget
  import opened LedgerInvariant

  function TreasuryCurrency(s: TreasuryState): Currency {
    s.provider.balance.currency
  }

  ghost function Totals(s: TreasuryState): LedgerSnapshot {
    SnapshotTotals(s, TreasuryCurrency(s))
  }

  /** Open intents whose money the simulated provider has already taken. */
  ghost function ChargedOpenW(charges: map<Id, Charge>): (Id, Intent) -> int {
    (i: Id, x: Intent) => if x.state.Open() && i in charges then x.request.finalTotal.minor else 0
  }

  /** Open intents the provider has neither charged nor put on hold. */
  ghost function UntouchedW(p: SimulatedProvider): (Id, Intent) -> int {
    (i: Id, x: Intent) =>
      if x.state.Open() && i !in p.charges && i !in p.holds then x.request.finalTotal.minor else 0
  }

  ghost predicate AuthoritySound(s: TreasuryState) {
    0 <= Totals(s).Authority() && Totals(s).operatorTopups <= Totals(s).verifiedIncome
  }

  ghost predicate HoldsSound(intents: map<Id, Intent>, p: SimulatedProvider) {
    && (forall i :: i in p.holds ==> i in intents && intents[i].state.ProviderPending? && p.holds[i] == intents[i].request.finalTotal)
    && (forall i :: i in intents && intents[i].state.ProviderPending? ==> i in p.holds)
  }

  ghost predicate ChargesSound(intents: map<Id, Intent>, p: SimulatedProvider) {
    && (forall i :: i in p.charges ==>
          && i in intents && p.charges[i].amount == intents[i].request.finalTotal
          && (intents[i].state.Unknown? || intents[i].state.Spent())
          && (p.charges[i].refunded <==> intents[i].state.Refunded?))
    && (forall i :: i in intents && intents[i].state.Spent() ==> i in p.charges)
  }

  ghost predicate BalanceSound(s: TreasuryState) {
    var t := Totals(s);
    s.provider.balance.minor
      == t.ownerCapital + t.verifiedIncome + t.refunds - t.settledSpending - Sum(s.intents, ChargedOpenW(s.provider.charges))
  }

  ghost predicate ProviderSound(s: TreasuryState) {
    s.mode.Simulated? ==> HoldsSound(s.intents, s.provider) && ChargesSound(s.intents, s.provider) && BalanceSound(s)
  }

  ghost predicate ManualSound(s: TreasuryState) {
    s.mode.ManualPrepaidCard? ==>
      && s.manual.Some? && s.manual.value.amount.currency == TreasuryCurrency(s)
      && Reserved(s.intents, TreasuryCurrency(s)) <= s.manual.value.amount.minor
  }

  ghost predicate MoneySound(s: TreasuryState) {
    && LedgerSound(s.intents, s.ledger, TreasuryCurrency(s))
    && AuthoritySound(s)
    && ProviderSound(s)
    && ManualSound(s)
  }

  /** Only these fields matter to the money. */
  predicate SameMoney(s: TreasuryState, s': TreasuryState) {
    s'.intents == s.intents && s'.ledger == s.ledger && s'.provider == s.provider && s'.mode == s.mode && s'.manual == s.manual
  }

  lemma SameMoneyKeeps(s: TreasuryState, s': TreasuryState)
    requires MoneySound(s) && SameMoney(s, s')
    ensures MoneySound(s')
  {
  }

  // ----- how one step changes the totals -----

  /** `s'` stores one intent and appends some events; the treasury currency stays. */
  ghost predicate StepsTo(s: TreasuryState, s': TreasuryState, id: Id, next: Intent, events: seq<LedgerEvent>) {
    && s'.intents == s.intents[id := next] && s'.ledger == s.ledger + events
    && TreasuryCurrency(s') == TreasuryCurrency(s)
    && (id in s.intents ==> s.intents[id].request == next.request)
  }

  /** The events move this much money into settled spending and into refunds, and none into income. */
  ghost predicate Moves(events: seq<LedgerEvent>, currency: Currency, settled: int, refunded: int) {
    && SumSeq(events, KindW(SpendingSettled, currency)) == settled
    && SumSeq(events, KindW(Refund, currency)) == refunded
    && SumSeq(events, KindW(OwnerCapital, currency)) == 0
    && SumSeq(events, KindW(IncomeVerified, currency)) == 0
    && SumSeq(events, KindW(OperatorTopUp, currency)) == 0
  }

  /** What the intent weighed before and weighs now, under one weighing. */
  ghost function Shift(intents: map<Id, Intent>, id: Id, next: Intent, w: (Id, Intent) -> int, w': (Id, Intent) -> int): int {
    w'(id, next) - if id in intents then w(id, intents[id]) else 0
  }

  ghost function ReservedShift(s: TreasuryState, id: Id, next: Intent): int {
    var w := ReservedW(TreasuryCurrency(s));
    Shift(s.intents, id, next, w, w)
  }

  ghost function ChargedShift(s: TreasuryState, s': TreasuryState, id: Id, next: Intent): int {
    Shift(s.intents, id, next, ChargedOpenW(s.provider.charges), ChargedOpenW(s'.provider.charges))
  }

  lemma TotalsStep(s: TreasuryState, s': TreasuryState, id: Id, next: Intent, events: seq<LedgerEvent>, settled: int, refunded: int)
    requires StepsTo(s, s', id, next, events) && Moves(events, TreasuryCurrency(s), settled, refunded)
    ensures Totals(s').ownerCapital == Totals(s).ownerCapital
    ensures Totals(s').verifiedIncome == Totals(s).verifiedIncome
    ensures Totals(s').operatorTopups == Totals(s).operatorTopups
    ensures Totals(s').settledSpending == Totals(s).settledSpending + settled
    ensures Totals(s').refunds == Totals(s).refunds + refunded
    ensures Totals(s').reserved == Totals(s).reserved + ReservedShift(s, id, next)
  {
    var c := TreasuryCurrency(s);
    SumSeqConcat(s.ledger, events, KindW(OwnerCapital, c));
    SumSeqConcat(s.ledger, events, KindW(IncomeVerified, c));
    SumSeqConcat(s.ledger, events, KindW(OperatorTopUp, c));
    SumSeqConcat(s.ledger, events, KindW(SpendingSettled, c));
    SumSeqConcat(s.ledger, events, KindW(Refund, c));
    SumSwap(s.intents, id, next, ReservedW(c), ReservedW(c));
  }

  lemma AuthorityStep(s: TreasuryState, s': TreasuryState, id: Id, next: Intent, events: seq<LedgerEvent>, settled: int, refunded: int)
    requires StepsTo(s, s', id, next, events) && Moves(events, TreasuryCurrency(s), settled, refunded)
    requires AuthoritySound(s)
    requires settled + ReservedShift(s, id, next) - refunded <= Totals(s).Authority()
    ensures AuthoritySound(s')
  {
    TotalsStep(s, s', id, next, events, settled, refunded);
  }

  lemma BalanceStep(s: TreasuryState, s': TreasuryState, id: Id, next: Intent, events: seq<LedgerEvent>, settled: int, refunded: int)
    requires StepsTo(s, s', id, next, events) && Moves(events, TreasuryCurrency(s), settled, refunded)
    requires BalanceSound(s)
    requires forall i :: i in s.intents && i != id ==> (i in s.provider.charges <==> i in s'.provider.charges)
    requires s'.provider.balance.minor == s.provider.balance.minor + refunded - settled - ChargedShift(s, s', id, next)
    ensures BalanceSound(s')
  {
    TotalsStep(s, s', id, next, events, settled, refunded);
    SumSwap(s.intents, id, next, ChargedOpenW(s.provider.charges), ChargedOpenW(s'.provider.charges));
  }

  lemma ManualStep(s: TreasuryState, s': TreasuryState, id: Id, next: Intent, events: seq<LedgerEvent>)
    requires StepsTo(s, s', id, next, events) && ManualSound(s)
    requires s'.mode == s.mode
    requires s.mode.ManualPrepaidCard? ==>
               && s'.manual.Some? && s'.manual.value.amount.currency == s.manual.value.amount.currency
               && Reserved(s.intents, TreasuryCurrency(s)) + ReservedShift(s, id, next) <= s'.manual.value.amount.minor
    ensures ManualSound(s')
  {
    var c := TreasuryCurrency(s);
    SumSwap(s.intents, id, next, ReservedW(c), ReservedW(c));
  }

  lemma OneEventMoves(e: LedgerEvent, currency: Currency)
    ensures Moves([e], currency, KindW(SpendingSettled, currency)(e), KindW(Refund, currency)(e))
         || e.kind.OwnerCapital? || e.kind.IncomeVerified? || e.kind.OperatorTopUp?
  {
    SumSeqOne(e, KindW(SpendingSettled, currency));
    SumSeqOne(e, KindW(Refund, currency));
    SumSeqOne(e, KindW(OwnerCapital, currency));
    SumSeqOne(e, KindW(IncomeVerified, currency));
    SumSeqOne(e, KindW(OperatorTopUp, currency));
  }

  lemma JoinedMoves(left: seq<LedgerEvent>, right: seq<LedgerEvent>, currency: Currency, s0: int, r0: int, s1: int, r1: int)
    requires Moves(left, currency, s0, r0) && Moves(right, currency, s1, r1)
    ensures Moves(left + right, currency, s0 + s1, r0 + r1)
  {
    SumSeqConcat(left, right, KindW(OwnerCapital, currency));
    SumSeqConcat(left, right, KindW(IncomeVerified, currency));
    SumSeqConcat(left, right, KindW(OperatorTopUp, currency));
    SumSeqConcat(left, right, KindW(SpendingSettled, currency));
    SumSeqConcat(left, right, KindW(Refund, currency));
  }

  /** What an intent counts among the reservations of one currency. */
  function OpenValue(x: Intent, currency: Currency): int {
    if x.state.Open() && x.request.finalTotal.currency == currency then x.request.finalTotal.minor else 0
  }

  lemma ShiftValues(s: TreasuryState, s': TreasuryState, id: Id, next: Intent)
    requires id in s.intents
    ensures var c := TreasuryCurrency(s);
            ReservedShift(s, id, next) == OpenValue(next, c) - OpenValue(s.intents[id], c)
    ensures ChargedShift(s, s', id, next)
         == ChargedValue(next, id in s'.provider.charges) - ChargedValue(s.intents[id], id in s.provider.charges)
  {
  }

  /** The money side of a step, put together. */
  lemma MoneyStep(s: TreasuryState, s': TreasuryState, id: Id, next: Intent, events: seq<LedgerEvent>, settled: int, refunded: int)
    requires MoneySound(s)
    requires StepsTo(s, s', id, next, events) && Moves(events, TreasuryCurrency(s), settled, refunded)
    requires s'.mode == s.mode
    requires LedgerSound(s'.intents, s'.ledger, TreasuryCurrency(s))
    requires settled + ReservedShift(s, id, next) - refunded <= Totals(s).Authority()
    requires s.mode.Simulated? ==>
               && HoldsSound(s'.intents, s'.provider) && ChargesSound(s'.intents, s'.provider)
               && (forall i :: i in s.intents && i != id ==> (i in s.provider.charges <==> i in s'.provider.charges))
               && s'.provider.balance.minor == s.provider.balance.minor + refunded - settled - ChargedShift(s, s', id, next)
    requires s.mode.ManualPrepaidCard? ==>
               && s'.manual.Some? && s'.manual.value.amount.currency == s.manual.value.amount.currency
               && Reserved(s.intents, TreasuryCurrency(s)) + ReservedShift(s, id, next) <= s'.manual.value.amount.minor
    ensures MoneySound(s')
  {
    hide LedgerSound, HoldsSound, ChargesSound, Moves, Reserved, ReservedShift, ChargedShift, Totals;
    AuthorityStep(s, s', id, next, events, settled, refunded);
    ManualStep(s, s', id, next, events);
    if s.mode.Simulated? {
      BalanceStep(s, s', id, next, events, settled, refunded);
    }
  }

  // ----- the ledger side of each step -----

  function Hold(x: Intent, id: Id, at: int): LedgerEvent {
    LedgerEvent(at, HoldReserved, x.request.finalTotal, Some(id))
  }

  function Released(x: Intent, id: Id, at: int): LedgerEvent {
    LedgerEvent(at, HoldReleased, x.request.finalTotal, Some(id))
  }

  function Spending(x: Intent, id: Id, at: int): LedgerEvent {
    LedgerEvent(at, SpendingSettled, x.request.finalTotal, Some(id))
  }

  function Refunding(x: Intent, id: Id, at: int): LedgerEvent {
    LedgerEvent(at, Refund, x.request.finalTotal, Some(id))
  }

  /** The events of a move between two states, if the move is one the broker stores. */
  function MoveEvents(before: TransactionState, x: Intent, id: Id, at: int): seq<LedgerEvent> {
    if before.Executable() && x.state.Executing? then [Hold(x, id, at)]
    else if before.Open() && x.state.Settled? then [Released(x, id, at), Spending(x, id, at)]
    else if before.Open() && x.state.Refunded? then [Released(x, id, at), Spending(x, id, at)] + [Refunding(x, id, at)]
    else if before.Open() && x.state.Declined? then [Released(x, id, at)]
    else if before.Settled? && x.state.Refunded? then [Refunding(x, id, at)]
    else []
  }

  lemma AddTwo(f: Footprint, a: LedgerEvent, b: LedgerEvent)
    ensures AddAll(f, [a, b]) == f.Add(a.kind).Add(b.kind)
  {
    assert [a, b][..1] == [a] && [a][..0] == [];
    assert AddAll(f, [a]) == f.Add(a.kind);
  }

  lemma MoveFootprint(before: TransactionState, x: Intent, id: Id, at: int)
    requires StoredMove(before, x.state)
    ensures AddAll(Expected(before), MoveEvents(before, x, id, at)) == Expected(x.state)
  {
    var f, events := Expected(before), MoveEvents(before, x, id, at);
    if |events| == 3 {
      AddTwo(f, events[0], events[1]);
      assert events[..2] == [events[0], events[1]];
    } else if |events| == 2 {
      AddTwo(f, events[0], events[1]);
    } else if |events| == 1 {
      assert events[..0] == [];
    }
  }

  /** Every move the broker stores keeps the ledger and the intents in agreement. */
  lemma MoveKeepsLedger(intents: map<Id, Intent>, ledger: seq<LedgerEvent>, currency: Currency, id: Id, next: Intent, at: int)
    requires LedgerSound(intents, ledger, currency) && id in intents
    requires next.request == intents[id].request && StoredMove(intents[id].state, next.state)
    requires next.state.Executing? ==> next.request.finalTotal.currency == currency
    ensures LedgerSound(intents[id := next], ledger + MoveEvents(intents[id].state, next, id, at), currency)
  {
    MoveFootprint(intents[id].state, next, id, at);
    LedgerStep(intents, ledger, currency, id, next, MoveEvents(intents[id].state, next, id, at));
  }

  function MoveSettled(before: TransactionState, x: Intent): int {
    if before.Open() && x.state.Spent() then x.request.finalTotal.minor else 0
  }

  function MoveRefunded(before: TransactionState, x: Intent): int {
    if (before.Open() || before.Settled?) && x.state.Refunded? then x.request.finalTotal.minor else 0
  }

  lemma MoveMoves(before: TransactionState, x: Intent, id: Id, at: int, currency: Currency)
    requires StoredMove(before, x.state)
    requires !before.NeverReserved() ==> x.request.finalTotal.currency == currency
    ensures Moves(MoveEvents(before, x, id, at), currency, MoveSettled(before, x), MoveRefunded(before, x))
  {
    var events := MoveEvents(before, x, id, at);
    if |events| >= 2 {
      var total := x.request.finalTotal.minor;
      OneEventMoves(Released(x, id, at), currency);
      OneEventMoves(Spending(x, id, at), currency);
      JoinedMoves([Released(x, id, at)], [Spending(x, id, at)], currency, 0, 0, total, 0);
      assert [Released(x, id, at)] + [Spending(x, id, at)] == [Released(x, id, at), Spending(x, id, at)];
      if |events| == 3 {
        OneEventMoves(Refunding(x, id, at), currency);
        JoinedMoves([Released(x, id, at), Spending(x, id, at)], [Refunding(x, id, at)], currency, total, 0, 0, total);
      }
    } else if |events| == 1 {
      OneEventMoves(events[0], currency);
    }
  }

  // ----- the provider side of each step -----

  /** The money of an open intent that the provider has already taken. */
  function ChargedValue(x: Intent, charged: bool): int {
    if x.state.Open() && charged then x.request.finalTotal.minor else 0
  }

  /** The simulated provider moves along with one intent. */
  ghost predicate ProviderFollows(intents: map<Id, Intent>, p: SimulatedProvider, p': SimulatedProvider, id: Id, next: Intent)
    requires id in intents
  {
    && HoldsSound(intents[id := next], p') && ChargesSound(intents[id := next], p')
    && (forall i :: i in intents && i != id ==> (i in p.charges <==> i in p'.charges))
    && p'.balance.minor
         == p.balance.minor + MoveRefunded(intents[id].state, next) - MoveSettled(intents[id].state, next)
            - ChargedValue(next, id in p'.charges) + ChargedValue(intents[id], id in p.charges)
  }

  /** The owner-reported balance loses at most what the reservations lose. */
  predicate ManualFollows(s: TreasuryState, s': TreasuryState, id: Id, next: Intent)
    requires id in s.intents
  {
    s.mode.ManualPrepaidCard? && s.manual.Some? ==>
      && s'.manual.Some? && s'.manual.value.amount.currency == s.manual.value.amount.currency
      && s'.manual.value.amount.minor >= s.manual.value.amount.minor - MoveSettled(s.intents[id].state, next)
  }

  lemma IntentFacts(s: TreasuryState, id: Id)
    requires LedgerSound(s.intents, s.ledger, TreasuryCurrency(s)) && id in s.intents
    ensures 0 < s.intents[id].request.finalTotal.minor
    ensures !s.intents[id].state.NeverReserved() ==> s.intents[id].request.finalTotal.currency == TreasuryCurrency(s)
  {
  }

  lemma StoredIntentFacts(s: TreasuryState, id: Id)
    requires MoneySound(s) && id in s.intents
    ensures 0 < s.intents[id].request.finalTotal.minor
    ensures !s.intents[id].state.NeverReserved() ==> s.intents[id].request.finalTotal.currency == TreasuryCurrency(s)
  {
    IntentFacts(s, id);
  }

  /** One intent moves along: the whole money invariant is kept, given the provider follows. */
  lemma MoveKeepsMoney(s: TreasuryState, s': TreasuryState, id: Id, next: Intent, at: int)
    requires MoneySound(s) && id in s.intents
    requires next.request == s.intents[id].request && StoredMove(s.intents[id].state, next.state)
    requires s'.intents == s.intents[id := next] && s'.mode == s.mode && TreasuryCurrency(s') == TreasuryCurrency(s)
    requires s'.ledger == s.ledger + MoveEvents(s.intents[id].state, next, id, at)
    requires next.state.Executing? ==>
               && next.request.finalTotal.currency == TreasuryCurrency(s)
               && next.request.finalTotal.minor <= Totals(s).Authority()
               && (s.mode.ManualPrepaidCard? ==>
                     next.request.finalTotal.minor <= s.manual.value.amount.minor - Reserved(s.intents, TreasuryCurrency(s)))
    requires s.mode.Simulated? ==> ProviderFollows(s.intents, s.provider, s'.provider, id, next)
    requires ManualFollows(s, s', id, next)
    ensures MoneySound(s')
  {
    hide LedgerSound, HoldsSound, ChargesSound, BalanceSound, Reserved, Totals, Moves, MoveEvents, ReservedShift, ChargedShift;
    var before, c := s.intents[id].state, TreasuryCurrency(s);
    IntentFacts(s, id);
    MoveKeepsLedger(s.intents, s.ledger, c, id, next, at);
    MoveMoves(before, next, id, at, c);
    ShiftValues(s, s', id, next);
    MoneyStep(s, s', id, next, MoveEvents(before, next, id, at), MoveSettled(before, next), MoveRefunded(before, next));
  }

  lemma NewIntentIsUntouched(intents: map<Id, Intent>, p: SimulatedProvider, id: Id, next: Intent)
    requires HoldsSound(intents, p) && ChargesSound(intents, p) && id !in intents && next.state.NeverReserved()
    ensures HoldsSound(intents[id := next], p) && ChargesSound(intents[id := next], p)
  {
  }

  lemma NewIntentKeepsLedger(intents: map<Id, Intent>, ledger: seq<LedgerEvent>, currency: Currency, id: Id, next: Intent)
    requires LedgerSound(intents, ledger, currency) && id !in intents
    requires next.state.NeverReserved() && 0 < next.request.finalTotal.minor
    ensures LedgerSound(intents[id := next], ledger, currency)
  {
    assert ledger + [] == ledger;
    LedgerStep(intents, ledger, currency, id, next, []);
  }

  lemma NewIntentShifts(s: TreasuryState, s': TreasuryState, id: Id, next: Intent)
    requires id !in s.intents && next.state.NeverReserved()
    ensures ReservedShift(s, id, next) == 0 && ChargedShift(s, s', id, next) == 0
  {
  }

  /** A new intent, holding nothing. */
  lemma NewIntentKeepsMoney(s: TreasuryState, s': TreasuryState, id: Id, next: Intent)
    requires MoneySound(s) && id !in s.intents
    requires s' == s.(intents := s.intents[id := next])
    requires next.state.NeverReserved() && 0 < next.request.finalTotal.minor
    ensures MoneySound(s')
  {
    hide LedgerSound, HoldsSound, ChargesSound, BalanceSound, Reserved, Totals, ReservedShift, ChargedShift;
    assert s'.ledger == s.ledger + [];
    NewIntentKeepsLedger(s.intents, s.ledger, TreasuryCurrency(s), id, next);
    NewIntentShifts(s, s', id, next);
    if s.mode.Simulated? {
      NewIntentIsUntouched(s.intents, s.provider, id, next);
    }
    MoneyStep(s, s', id, next, [], 0, 0);
  }

  // ----- the ways a provider follows -----

  /** Nothing moved at the provider, and nothing had. */
  lemma IdleProviderFollows(intents: map<Id, Intent>, p: SimulatedProvider, id: Id, next: Intent)
    requires HoldsSound(intents, p) && ChargesSound(intents, p) && id in intents
    requires next.request == intents[id].request
    requires intents[id].state.NeverReserved() || intents[id].state.Executing?
    requires next.state.NeverReserved() || next.state.Executing? || next.state.Unknown? || next.state.Declined?
    ensures ProviderFollows(intents, p, p, id, next)
  {
    assert id !in p.charges;
  }

  /** The provider has taken the money of `id` exactly once, no hold of it remains, and nothing else moved. */
  ghost predicate ChargedOnce(p: SimulatedProvider, p': SimulatedProvider, id: Id, total: Money) {
    && id in p'.charges && p'.charges[id].amount == total && !p'.charges[id].refunded
    && p'.charges == p.charges[id := p'.charges[id]] && p'.holds == p.holds - {id}
    && p'.balance.minor == p.balance.minor - if id in p.charges then 0 else total.minor
  }

  lemma ChargingClearsHold(intents: map<Id, Intent>, p: SimulatedProvider, p': SimulatedProvider, id: Id, next: Intent)
    requires HoldsSound(intents, p) && p'.holds == p.holds - {id} && !next.state.ProviderPending?
    ensures HoldsSound(intents[id := next], p')
  {
  }

  lemma ChargingRecordsCharge(intents: map<Id, Intent>, p: SimulatedProvider, p': SimulatedProvider, id: Id, next: Intent)
    requires ChargesSound(intents, p) && (next.state.Settled? || next.state.Unknown?)
    requires ChargedOnce(p, p', id, next.request.finalTotal)
    ensures ChargesSound(intents[id := next], p')
  {
  }

  lemma ChargedProviderFollows(intents: map<Id, Intent>, p: SimulatedProvider, p': SimulatedProvider, id: Id, next: Intent)
    requires HoldsSound(intents, p) && ChargesSound(intents, p) && id in intents && intents[id].state.Open()
    requires next.request == intents[id].request
    requires next.state.Settled? || (next.state.Unknown? && id !in p.charges)
    requires ChargedOnce(p, p', id, next.request.finalTotal)
    ensures ProviderFollows(intents, p, p', id, next)
  {
    ChargingClearsHold(intents, p, p', id, next);
    ChargingRecordsCharge(intents, p, p', id, next);
    hide HoldsSound, ChargesSound;
  }

  /** The provider holds the money until the owner settles or declines. */
  lemma HoldingProviderFollows(intents: map<Id, Intent>, p: SimulatedProvider, id: Id, next: Intent)
    requires HoldsSound(intents, p) && ChargesSound(intents, p) && id in intents && intents[id].state.Executing?
    requires next.request == intents[id].request && next.state.ProviderPending?
    ensures ProviderFollows(intents, p, p.(holds := p.holds[id := next.request.finalTotal]), id, next)
  {
    assert id !in p.charges;
  }

  lemma DeclinedProviderFollows(intents: map<Id, Intent>, p: SimulatedProvider, id: Id, next: Intent)
    requires HoldsSound(intents, p) && ChargesSound(intents, p) && id in intents
    requires intents[id].state.Open() && id !in p.charges
    requires next.request == intents[id].request && next.state.Declined?
    ensures ProviderFollows(intents, p, p.(holds := p.holds - {id}), id, next)
  {
  }

  lemma RefundedProviderFollows(intents: map<Id, Intent>, p: SimulatedProvider, p': SimulatedProvider, id: Id, next: Intent)
    requires HoldsSound(intents, p) && ChargesSound(intents, p) && id in intents
    requires intents[id].state.Settled? && id in p.charges
    requires next.request == intents[id].request && next.state.Refunded?
    requires p'.charges == p.charges[id := p.charges[id].(refunded := true)] && p'.holds == p.holds
    requires p'.balance.minor == p.balance.minor + next.request.finalTotal.minor
    ensures ProviderFollows(intents, p, p', id, next)
  {
  }
}
