/** Owner reconciliation: one elementary step, and exactly when each outcome is refused. */
module Reconciliation {
  import opened Results
  import opened Sums
  import opened MoneyMath
  import opened Records
  import opened AuditLog
  import opened Budget
  import opened Execution
  import opened LedgerInvariant
  import opened MoneyInvariant
  import opened Solvency
  import opened Steps
  import opened Invariant
  import opened Operations

  function OutcomeOf(outcome: ReconciliationOutcome): TransactionState {
    match outcome
    case ReconcileAsSettled => TransactionState.Settled
    case ReconcileAsDeclined => Declined
    case ReconcileAsRefunded => Refunded
  }

  lemma ReopenShape(x: Intent, at: int, outcome: ReconciliationOutcome)
    requires Reconcilable(x.state, outcome)
    ensures Reopen(x, at).Ok?
    ensures var y := Reopen(x, at).value;
            && SameIdentity(x, y) && y.receipt == x.receipt
            && (if x.state.Uncertain() then y.state.ReconciliationRequired? else y == x && x.state.Settled?)
            && y.reference == x.reference
  {
  }

  /** What a reconciliation writes: the intent in its final state, its events, and balances that follow. */
  ghost predicate Reconciled(s: TreasuryState, effect: (TreasuryState, Intent), id: Id, final: TransactionState, at: int)
    requires id in s.intents
  {
    && effect.1.state == final
    && SameIdentity(s.intents[id], effect.1) && ReceiptSound(id, effect.1)
    && effect.0 == s.(ledger := s.ledger + MoveEvents(s.intents[id].state, effect.1, id, at),
                      provider := effect.0.provider, manual := effect.0.manual)
    && TreasuryCurrency(effect.0) == TreasuryCurrency(s)
    && BalancesFollow(s, effect.0, id, effect.1)
  }

  // ----- settled -----

  /** What the books must say before a reconciliation can settle `id`. */
  predicate CanReconcile(p: SimulatedProvider, id: Id, total: Money, available: Result<Money>) {
    && total.currency == p.balance.currency && 0 < total.minor
    && (id in p.holds ==> id !in p.charges && p.holds[id] == total && total.minor <= p.balance.minor)
    && (id in p.charges ==> p.charges[id].amount == total && !p.charges[id].refunded)
    && (id !in p.holds && id !in p.charges ==> available.Ok? && total.minor <= available.value.minor <= p.balance.minor)
  }

  lemma ReconcileBooks(p: SimulatedProvider, id: Id, total: Money, reference: Id, nextId: Id)
    requires CanReconcile(p, id, total, ProviderAvailable(p))
    ensures var answer := ReconcileSettled(p, id, total, reference, nextId);
            && answer.Ok? && answer.value.0.balance.currency == p.balance.currency
            && ChargedOnce(p, answer.value.0, id, total)
  {
    hide ProviderAvailable;
    assert id !in p.holds ==> p.holds - {id} == p.holds;
  }

  /** The provider settles from the hold, from the earlier charge, or afresh; it always can. */
  lemma ProviderReconciles(s: TreasuryState, id: Id, reference: Id, nextId: Id)
    requires MoneySound(s) && s.mode.Simulated? && id in s.intents && s.intents[id].state.Uncertain()
    ensures var answer := ReconcileSettled(s.provider, id, s.intents[id].request.finalTotal, reference, nextId);
            && answer.Ok? && answer.value.0.balance.currency == s.provider.balance.currency
            && ChargedOnce(s.provider, answer.value.0, id, s.intents[id].request.finalTotal)
  {
    hide MoneySound, LedgerSound, HoldsSound, ChargesSound, ProviderAvailable, ChargedOnce, ReconcileSettled;
    StoredIntentFacts(s, id);
    MoneyParts(s);
    if id in s.provider.holds {
      HeldIsUncharged(s.intents, s.provider, id);
      HeldIsCovered(s, id);
    } else if id !in s.provider.charges {
      ReservationIsAvailable(s, id);
    } else {
      ChargedIsTotal(s.intents, s.provider, id);
    }
    ReconcileBooks(s.provider, id, s.intents[id].request.finalTotal, reference, nextId);
  }

  lemma HeldIsUncharged(intents: map<Id, Intent>, p: SimulatedProvider, id: Id)
    requires HoldsSound(intents, p) && ChargesSound(intents, p) && id in p.holds
    ensures id !in p.charges && id in intents && p.holds[id] == intents[id].request.finalTotal
  {
  }

  lemma ChargedIsTotal(intents: map<Id, Intent>, p: SimulatedProvider, id: Id)
    requires ChargesSound(intents, p) && id in p.charges
    ensures id in intents && p.charges[id].amount == intents[id].request.finalTotal
    ensures p.charges[id].refunded <==> intents[id].state.Refunded?
  {
  }

  /** A held amount is part of the provider's balance. */
  lemma HeldIsCovered(s: TreasuryState, id: Id)
    requires MoneySound(s) && s.mode.Simulated? && id in s.provider.holds
    ensures 0 < s.provider.holds[id].minor <= s.provider.balance.minor
    ensures s.provider.holds[id].currency == TreasuryCurrency(s)
  {
    ProviderCoversAuthority(s);
    UntouchedNonNegative(s);
    HoldsNonNegative(s);
    forall i | i in s.provider.holds
      ensures 0 < s.provider.holds[i].minor && s.provider.holds[i].currency == TreasuryCurrency(s)
    {
      IntentFacts(s, i);
    }
    SumMember(s.provider.holds, id, HoldW());
    hide LedgerSound, HoldsSound, ChargesSound, BalanceSound, AuthoritySound, ManualSound, Totals;
  }

  /** Reconciling an uncertain simulated purchase as settled is never refused for balance. */
  lemma SettledSimulated(s: TreasuryState, id: Id, x: Intent, reference: Option<Id>, at: int, nextId: Id)
    requires Booked(s) && s.mode.Simulated? && id in s.intents && s.intents[id].state.Uncertain()
    requires Reopen(s.intents[id], at) == Ok(x)
    ensures var effect := ReconcileAsSettledEffect(s, id, x, reference, at, nextId);
            effect.Ok? && Reconciled(s, effect.value, id, TransactionState.Settled, at)
  {
    hide MoneySound, LedgerSound, HoldsSound, ChargesSound, ReceiptsSound, ProviderFollows, ReconcileSettled, Settle, ChargedOnce;
    ReopenShape(s.intents[id], at, ReconcileAsSettled);
    UnspentReceipt(s, id);
    var preferred := if reference.Some? then reference.value else if x.reference.Some? then x.reference.value else nextId;
    ProviderReconciles(s, id, preferred, nextId + 1);
    var answer := ReconcileSettled(s.provider, id, x.request.finalTotal, preferred, nextId + 1).value;
    var booked := s.(provider := answer.0);
    MoneyParts(s);
    SettleShape(booked, id, x, answer.1, at);
    ChargedProviderFollows(s.intents, s.provider, answer.0, id, Settle(booked, id, x, answer.1, at).value.1);
  }

  lemma MoneyParts(s: TreasuryState)
    requires MoneySound(s)
    ensures LedgerSound(s.intents, s.ledger, TreasuryCurrency(s))
    ensures s.mode.Simulated? ==> HoldsSound(s.intents, s.provider) && ChargesSound(s.intents, s.provider)
    ensures s.mode.ManualPrepaidCard? ==> s.manual.Some? && s.manual.value.amount.currency == TreasuryCurrency(s)
  {
  }

  /** The owner-reported card balance covers every open reservation, so it covers this one. */
  lemma ManualCoversIntent(s: TreasuryState, id: Id)
    requires MoneySound(s) && s.mode.ManualPrepaidCard? && id in s.intents && s.intents[id].state.Open()
    ensures s.manual.Some? && s.manual.value.amount.currency == s.intents[id].request.finalTotal.currency
    ensures 0 < s.intents[id].request.finalTotal.minor <= s.manual.value.amount.minor
  {
    IntentFacts(s, id);
    SumMemberOf(s, id);
  }

  lemma SumMemberOf(s: TreasuryState, id: Id)
    requires LedgerSound(s.intents, s.ledger, TreasuryCurrency(s)) && id in s.intents
    ensures ReservedW(TreasuryCurrency(s))(id, s.intents[id]) <= Reserved(s.intents, TreasuryCurrency(s))
  {
    SumMember(s.intents, id, ReservedW(TreasuryCurrency(s)));
  }

  /** In manual mode "settlement exceeds the reported provider balance" never happens: only a missing reference is refused. */
  lemma SettledManual(s: TreasuryState, id: Id, x: Intent, reference: Option<Id>, at: int, nextId: Id)
    requires Booked(s) && s.mode.ManualPrepaidCard? && id in s.intents && s.intents[id].state.Uncertain()
    requires Reopen(s.intents[id], at) == Ok(x)
    ensures var effect := ReconcileAsSettledEffect(s, id, x, reference, at, nextId);
            && (effect.Ok? <==> reference.Some?)
            && (effect.Ok? ==> Reconciled(s, effect.value, id, TransactionState.Settled, at))
  {
    hide MoneySound, LedgerSound, HoldsSound, ChargesSound, ReceiptsSound, ProviderFollows, Settle;
    ReopenShape(s.intents[id], at, ReconcileAsSettled);
    UnspentReceipt(s, id);
    ManualCoversIntent(s, id);
    MoneyParts(s);
    if reference.Some? {
      var debited := DebitManual(s, x.request.finalTotal).value;
      SettleShape(debited, id, x, reference.value, at);
    }
  }

  // ----- declined -----

  /** A purchase may be reconciled as declined unless the simulator has already charged it. */
  lemma DeclinedShape(s: TreasuryState, id: Id, x: Intent, at: int)
    requires Booked(s) && id in s.intents && s.intents[id].state.Uncertain()
    requires Reopen(s.intents[id], at) == Ok(x)
    ensures var effect := ReconcileAsDeclinedEffect(s, id, x, at);
            && (effect.Ok? <==> !(s.mode.Simulated? && id in s.provider.charges))
            && (effect.Ok? ==> Reconciled(s, effect.value, id, Declined, at))
  {
    hide MoneySound, LedgerSound, HoldsSound, ChargesSound, ReceiptsSound, ProviderFollows;
    ReopenShape(s.intents[id], at, ReconcileAsDeclined);
    UnspentReceipt(s, id);
    MoneyParts(s);
    if s.mode.Simulated? && id !in s.provider.charges {
      DeclinedProviderFollows(s.intents, s.provider, id, x.(state := Declined, updatedAt := at));
    }
  }

  // ----- refunded -----

  lemma RefundShape(p: SimulatedProvider, id: Id)
    ensures var answer := RefundCharge(p, id);
            && (answer.Ok? <==> id in p.charges && !p.charges[id].refunded && p.charges[id].amount.currency == p.balance.currency
                                && Fits(p.balance.minor + p.charges[id].amount.minor))
            && (answer.Ok? ==>
                  && answer.value.1 == p.charges[id].amount
                  && answer.value.0 == p.(balance := Money(p.balance.minor + p.charges[id].amount.minor, p.balance.currency),
                                          charges := p.charges[id := p.charges[id].(refunded := true)]))
  {
  }

  /** The balance of the mode in use. */
  function KeptBalance(s: TreasuryState): int {
    if s.mode.Simulated? then s.provider.balance.minor else if s.manual.Some? then s.manual.value.amount.minor else 0
  }

  /** A settled purchase can be refunded unless the balance would leave the range of 64-bit integers. */
  lemma RefundedSettled(s: TreasuryState, id: Id, reference: Option<Id>, at: int)
    requires Booked(s) && id in s.intents && s.intents[id].state.Settled?
    ensures var x := s.intents[id];
            var effect := ReconcileAsRefundedEffect(s, id, x, reference, at);
            && (effect.Ok? <==> Fits(KeptBalance(s) + x.request.finalTotal.minor))
            && (effect.Ok? ==> Reconciled(s, effect.value, id, Refunded, at))
  {
    hide MoneySound, LedgerSound, HoldsSound, ChargesSound, ReceiptsSound, ProviderFollows, RefundCharge;
    var x := s.intents[id];
    var refunded := x.(state := Refunded, updatedAt := at);
    StoredIntentFacts(s, id);
    SpentReceipt(s, id);
    MoneyParts(s);
    if s.mode.Simulated? {
      SpentIsCharged(s.intents, s.provider, id);
      ChargedIsTotal(s.intents, s.provider, id);
      RefundShape(s.provider, id);
      if RefundCharge(s.provider, id).Ok? {
        RefundedProviderFollows(s.intents, s.provider, RefundCharge(s.provider, id).value.0, id, refunded);
      }
    }
  }

  lemma SpentReceipt(s: TreasuryState, id: Id)
    requires ReceiptsSound(s.intents) && id in s.intents
    ensures ReceiptSound(id, s.intents[id])
  {
  }

  lemma SpentIsCharged(intents: map<Id, Intent>, p: SimulatedProvider, id: Id)
    requires ChargesSound(intents, p) && id in intents && intents[id].state.Spent()
    ensures id in p.charges
  {
  }

  /** A charge whose outcome was never seen is settled and refunded in one step. */
  lemma ChargedThenRefundedFollows(intents: map<Id, Intent>, p: SimulatedProvider, p': SimulatedProvider, id: Id, next: Intent)
    requires HoldsSound(intents, p) && ChargesSound(intents, p) && id in intents
    requires intents[id].state.Uncertain() && id in p.charges
    requires next.request == intents[id].request && next.state.Refunded?
    requires p'.charges == p.charges[id := p.charges[id].(refunded := true)] && p'.holds == p.holds
    requires p'.balance.minor == p.balance.minor + next.request.finalTotal.minor
    ensures ProviderFollows(intents, p, p', id, next)
  {
  }

  /**
   An uncertain purchase can be reconciled as refunded given a reference and, in simulated mode, a charge to
   give back. The card balance moves neither way, for the money is counted out and in again.
   */
  lemma RefundedUncertain(s: TreasuryState, id: Id, x: Intent, reference: Option<Id>, at: int)
    requires Booked(s) && id in s.intents && s.intents[id].state.Uncertain()
    requires Reopen(s.intents[id], at) == Ok(x)
    ensures var effect := ReconcileAsRefundedEffect(s, id, x, reference, at);
            && (effect.Ok? <==>
                  && reference.Some?
                  && (s.mode.Simulated? ==>
                        id in s.provider.charges && Fits(s.provider.balance.minor + x.request.finalTotal.minor)))
            && (effect.Ok? ==> Reconciled(s, effect.value, id, Refunded, at))
  {
    hide MoneySound, LedgerSound, HoldsSound, ChargesSound, ReceiptsSound, ProviderFollows, RefundCharge, Settle;
    ReopenShape(s.intents[id], at, ReconcileAsSettled);
    UnspentReceipt(s, id);
    StoredIntentFacts(s, id);
    MoneyParts(s);
    if reference.Some? {
      SettleShape(s, id, x, reference.value, at);
      var settled := Settle(s, id, x, reference.value, at).value;
      RefundShape(s.provider, id);
      if s.mode.Simulated? && id in s.provider.charges {
        ChargedIsTotal(s.intents, s.provider, id);
        if RefundCharge(s.provider, id).Ok? {
          ChargedThenRefundedFollows(s.intents, s.provider, RefundCharge(s.provider, id).value.0, id,
                                     settled.1.(state := Refunded, updatedAt := at));
        }
      }
    }
  }

  // ----- all outcomes together -----

  lemma EffectReconciles(s: TreasuryState, id: Id, x: Intent, outcome: ReconciliationOutcome, reference: Option<Id>, at: int, nextId: Id)
    requires Booked(s) && id in s.intents && Reconcilable(s.intents[id].state, outcome)
    requires Reopen(s.intents[id], at) == Ok(x)
    requires ReconcileEffect(s, id, x, outcome, reference, at, nextId).Ok?
    ensures Reconciled(s, ReconcileEffect(s, id, x, outcome, reference, at, nextId).value, id, OutcomeOf(outcome), at)
  {
    hide Booked, Reconciled, ReconcileAsSettledEffect, ReconcileAsDeclinedEffect, ReconcileAsRefundedEffect;
    if s.intents[id].state.Settled? {
      RefundedSettled(s, id, reference, at);
    } else {
      match outcome
      case ReconcileAsSettled =>
        if s.mode.Simulated? {
          SettledSimulated(s, id, x, reference, at, nextId);
        } else {
          SettledManual(s, id, x, reference, at, nextId);
        }
      case ReconcileAsDeclined => DeclinedShape(s, id, x, at);
      case ReconcileAsRefunded => RefundedUncertain(s, id, x, reference, at);
    }
  }

  /** A reconciliation that is accepted and logged is one elementary step to the outcome the owner named. */
  lemma ReconcileIsElementary(s: TreasuryState, id: Id, outcome: ReconciliationOutcome, reference: Option<Id>, malformed: bool,
                              at: int, nextId: Id, actor: Actor, supply: Id)
    requires Booked(s) && Reconcile(s, id, outcome, reference, malformed, at, nextId).Ok?
    requires Record(Reconcile(s, id, outcome, reference, malformed, at, nextId).value, actor, ReconcileIntent, Some(id), at).Ok?
    ensures var s' := Record(Reconcile(s, id, outcome, reference, malformed, at, nextId).value, actor, ReconcileIntent, Some(id), at).value;
            && Moved(s, s', id, at) && LogFollows(s, s', at) && Elementary(s, s', supply, at)
            && s'.intents[id].state == OutcomeOf(outcome)
  {
    hide Booked, ReconcileEffect, MoveEvents, StoredMove, ReceiptSound, SameIdentity, BalancesFollow, Record, Moved, Elementary, LogFollows;
    ReopenShape(s.intents[id], at, outcome);
    var x := Reopen(s.intents[id], at).value;
    EffectReconciles(s, id, x, outcome, reference, at, nextId);
    var effect := ReconcileEffect(s, id, x, outcome, reference, at, nextId).value;
    var w := effect.0.(intents := s.intents[id := effect.1]);
    FinalMove(s.intents[id].state, outcome);
    assert BalancesFollow(s, w, id, effect.1) by {
      SameBalances(s, effect.0, w, id, effect.1);
    }
    LoggedMove(s, w, id, effect.1, actor, ReconcileIntent, at, supply);
    RecordKeepsIntents(w, actor, ReconcileIntent, Some(id), at);
  }

  lemma FinalMove(before: TransactionState, outcome: ReconciliationOutcome)
    requires Reconcilable(before, outcome)
    ensures StoredMove(before, OutcomeOf(outcome))
  {
  }

  lemma SameBalances(s: TreasuryState, w: TreasuryState, w': TreasuryState, id: Id, next: Intent)
    requires id in s.intents && BalancesFollow(s, w, id, next) && w'.provider == w.provider && w'.manual == w.manual
    ensures BalancesFollow(s, w', id, next)
  {
    hide ProviderFollows;
  }

  /** Which reconciliations the owner may make, exactly; none of the conditions mentions a balance except the refunds. */
  predicate ReconcileAllowed(s: TreasuryState, id: Id, outcome: ReconciliationOutcome, reference: Option<Id>)
    requires id in s.intents
  {
    var x := s.intents[id];
    match outcome
    case ReconcileAsSettled => x.state.Uncertain() && (s.mode.ManualPrepaidCard? ==> reference.Some?)
    case ReconcileAsDeclined => x.state.Uncertain() && !(s.mode.Simulated? && id in s.provider.charges)
    case ReconcileAsRefunded =>
      if x.state.Settled? then Fits(KeptBalance(s) + x.request.finalTotal.minor)
      else
        && x.state.Uncertain() && reference.Some?
        && (s.mode.Simulated? ==> id in s.provider.charges && Fits(s.provider.balance.minor + x.request.finalTotal.minor))
  }

  lemma ReconcileSucceedsExactly(s: TreasuryState, id: Id, outcome: ReconciliationOutcome, reference: Option<Id>, malformed: bool,
                                 at: int, nextId: Id)
    requires Booked(s) && id in s.intents && !(reference.Some? && malformed)
    ensures Reconcile(s, id, outcome, reference, malformed, at, nextId).Ok? <==> ReconcileAllowed(s, id, outcome, reference)
  {
    hide Booked, Reconciled, ReconcileAsSettledEffect, ReconcileAsDeclinedEffect, ReconcileAsRefundedEffect;
    if Reconcilable(s.intents[id].state, outcome) {
      ReopenShape(s.intents[id], at, outcome);
      var x := Reopen(s.intents[id], at).value;
      if s.intents[id].state.Settled? {
        RefundedSettled(s, id, reference, at);
      } else {
        match outcome
        case ReconcileAsSettled =>
          if s.mode.Simulated? {
            SettledSimulated(s, id, x, reference, at, nextId);
          } else {
            SettledManual(s, id, x, reference, at, nextId);
          }
        case ReconcileAsDeclined => DeclinedShape(s, id, x, at);
        case ReconcileAsRefunded => RefundedUncertain(s, id, x, reference, at);
      }
    }
  }
}
