/** The invariant of every state the broker ever holds, and why each elementary step keeps it. */
module Safety {
  import opened Results
  import opened Sums
  import opened MoneyMath
  import opened Records
  import opened AuditLog
  import opened Budget
  import opened Execution
  import opened Requests
  import opened LedgerInvariant
  import opened MoneyInvariant
  import opened Solvency
  import opened Steps

  // ----- money -----

  lemma PrepareShape(s: TreasuryState, agent: Id, id: Id, at: int, verdict: Verdict)
    requires Prepare(s, agent, id, at, verdict).Ok?
    ensures id in s.intents && agent in s.agents && s.agents[agent].policyId in s.policies
    ensures var x, g, s' := s.intents[id], s.agents[agent], Prepare(s, agent, id, at, verdict).value;
            var policy := s.policies[g.policyId];
            && x.agentId == agent && x.state.Executable() && x.session == g.session
            && Decide(s, agent, x.request, policy, at, verdict).Ok? && !Decide(s, agent, x.request, policy, at, verdict).value.Deny?
            && WorkflowCapacityAllows(Used(s.audit), Owed(s.intents), PREPARE_SLOTS)
            && Record(s, AgentActor(agent), ReserveFunds, Some(id), at).Ok?
            && s' == Record(s, AgentActor(agent), ReserveFunds, Some(id), at).value.(
                       intents := s.intents[id := x.(state := Executing, updatedAt := at)],
                       ledger := s.ledger + [LedgerEvent(at, HoldReserved, x.request.finalTotal, Some(id))])
  {
    hide Decide, Owed, Used, EmergencyCount;
  }

  /** Funds are reserved only while the ledger, and the reported card balance, can cover them. */
  lemma StartIsCovered(s: TreasuryState, id: Id, next: Intent, at: int)
    requires MoneySound(s) && id in s.intents && next.agentId == s.intents[id].agentId && next.request == s.intents[id].request
    requires StartsLawfully(s, id, next, at) && next.state.Executing?
    ensures next.request.finalTotal.currency == TreasuryCurrency(s)
    ensures next.request.finalTotal.minor <= Totals(s).Authority()
    ensures s.mode.ManualPrepaidCard? ==>
              next.request.finalTotal.minor <= s.manual.value.amount.minor - Reserved(s.intents, TreasuryCurrency(s))
  {
    var verdict :| Prepare(s, next.agentId, id, at, verdict).Ok?;
    PrepareShape(s, next.agentId, id, at, verdict);
    DecisionIsCovered(s, next.agentId, next.request, s.policies[s.agents[next.agentId].policyId], at, verdict);
  }

  lemma MovedKeepsMoney(s: TreasuryState, s': TreasuryState, id: Id, at: int)
    requires MoneySound(s) && Moved(s, s', id, at)
    ensures MoneySound(s')
  {
    var next := s'.intents[id];
    hide LedgerSound, AuthoritySound, ProviderSound, ManualFollows, ProviderFollows, StoredMove, MoveEvents, Totals, Reserved,
         StartsLawfully, ReceiptSound;
    if next.state.Executing? {
      StartIsCovered(s, id, next, at);
    }
    hide ManualSound;
    MoveKeepsMoney(s, s', id, next, at);
  }

  lemma IntroducedKeepsMoney(s: TreasuryState, s': TreasuryState, id: Id)
    requires MoneySound(s) && Introduced(s, s', id)
    ensures MoneySound(s')
  {
    var plain := s.(intents := s.intents[id := s'.intents[id]]);
    hide LedgerSound, AuthoritySound, ProviderSound, ManualSound;
    NewIntentKeepsMoney(s, plain, id, s'.intents[id]);
    SameMoneyKeeps(plain, s');
  }

  lemma ReconfiguredKeepsMoney(s: TreasuryState, s': TreasuryState)
    requires MoneySound(s) && Reconfigured(s, s')
    ensures MoneySound(s')
  {
    hide Reserved, LedgerSound, KindTotal, KindW;
    TerminalReservesNothing(s.intents, TreasuryCurrency(s));
    assert Totals(s') == Totals(s);
  }

  lemma TerminalReservesNothing(intents: map<Id, Intent>, currency: Currency)
    requires forall i :: i in intents ==> Terminal(intents[i].state)
    ensures Reserved(intents, currency) == 0
  {
    var none := (i: Id, x: Intent) => 0;
    SumCongruent(intents, ReservedW(currency), none);
    SumAdd(intents, none, none, none);
  }

  // ----- deposits -----

  /** The one or two events of a deposit. */
  function IncomeEvents(d: DepositDetails, share: Money, at: int): seq<LedgerEvent> {
    [LedgerEvent(at, if d.verified then IncomeVerified else IncomeUnverified, d.amount, None)]
    + if share.minor > 0 then [LedgerEvent(at, OperatorTopUp, share, None)] else []
  }

  lemma IncomeAppends(s: TreasuryState, d: DepositDetails, share: Money, at: int)
    ensures AppendIncome(s, d, share, at) == s.(ledger := s.ledger + IncomeEvents(d, share, at))
  {
    var first := LedgerEvent(at, if d.verified then IncomeVerified else IncomeUnverified, d.amount, None);
    if share.minor > 0 {
      assert s.ledger + IncomeEvents(d, share, at) == (s.ledger + [first]) + [LedgerEvent(at, OperatorTopUp, share, None)];
    } else {
      assert s.ledger + IncomeEvents(d, share, at) == s.ledger + [first];
    }
  }

  function KindValue(e: LedgerEvent, kind: LedgerEventKind, currency: Currency): int {
    if e.kind == kind && e.amount.currency == currency then e.amount.minor else 0
  }

  /** What a deposit adds to each total. */
  function IncomeValue(d: DepositDetails, share: Money, kind: LedgerEventKind, currency: Currency): int {
    if d.amount.currency != currency then 0
    else if kind.IncomeVerified? then (if d.verified then d.amount.minor else 0)
    else if kind.IncomeUnverified? then (if d.verified then 0 else d.amount.minor)
    else if kind.OperatorTopUp? then share.minor
    else 0
  }

  lemma IncomeTotals(ledger: seq<LedgerEvent>, d: DepositDetails, share: Money, at: int, kind: LedgerEventKind, currency: Currency)
    requires share.currency == d.amount.currency && 0 <= share.minor
    ensures KindTotal(ledger + IncomeEvents(d, share, at), kind, currency)
         == KindTotal(ledger, kind, currency) + IncomeValue(d, share, kind, currency)
  {
    hide IncomeEvents, IncomeValue;
    IncomeSum(d, share, at, kind, currency);
    SumSeqConcat(ledger, IncomeEvents(d, share, at), KindW(kind, currency));
  }

  lemma IncomeSum(d: DepositDetails, share: Money, at: int, kind: LedgerEventKind, currency: Currency)
    requires share.currency == d.amount.currency && 0 <= share.minor
    ensures SumSeq(IncomeEvents(d, share, at), KindW(kind, currency)) == IncomeValue(d, share, kind, currency)
  {
    var w := KindW(kind, currency);
    var income := LedgerEvent(at, if d.verified then IncomeVerified else IncomeUnverified, d.amount, None);
    if share.minor > 0 {
      var topup := LedgerEvent(at, OperatorTopUp, share, None);
      SumSeqTwo(income, topup, w);
      assert IncomeEvents(d, share, at) == [income, topup];
    } else {
      SumSeqOne(income, w);
      assert IncomeEvents(d, share, at) == [income];
    }
  }

  lemma IncomeKeepsLedger(intents: map<Id, Intent>, ledger: seq<LedgerEvent>, currency: Currency, d: DepositDetails, share: Money, at: int)
    requires LedgerSound(intents, ledger, currency) && 0 < d.amount.minor
    requires share.currency == d.amount.currency && 0 <= share.minor
    requires d.amount.currency == currency || (!d.verified && share.minor == 0)
    ensures LedgerSound(intents, ledger + IncomeEvents(d, share, at), currency)
  {
    var first := LedgerEvent(at, if d.verified then IncomeVerified else IncomeUnverified, d.amount, None);
    LedgerAppendsIncome(intents, ledger, currency, first);
    if share.minor > 0 {
      var second := LedgerEvent(at, OperatorTopUp, share, None);
      LedgerAppendsIncome(intents, ledger + [first], currency, second);
      assert ledger + IncomeEvents(d, share, at) == ledger + [first] + [second];
    } else {
      assert ledger + IncomeEvents(d, share, at) == ledger + [first];
    }
  }

  lemma SharesBounds(s: TreasuryState, d: DepositDetails, share: Money)
    requires SharesBy(s, d, share) && 0 < d.amount.minor
    ensures 0 <= share.minor <= d.amount.minor
  {
    if d.verified {
      ShareBounds(d.amount.minor, PolicyOf(s, d.agentId.value).value.reinvestmentBps);
    }
  }

  /** Verified income is booked in the treasury currency, whatever the mode. */
  lemma BookedInTreasuryCurrency(s: TreasuryState, s': TreasuryState, d: DepositDetails)
    requires ManualSound(s) && IncomeBooked(s, s', d) && 0 < d.amount.minor
    ensures d.verified ==> d.amount.currency == TreasuryCurrency(s)
    ensures TreasuryCurrency(s') == TreasuryCurrency(s)
    ensures s.mode.ManualPrepaidCard? && s'.mode == s.mode && s'.intents == s.intents ==> ManualSound(s')
  {
    hide Reserved;
  }

  /** What a recorded deposit appends to the ledger, and what stays. */
  lemma CreditedAppends(s: TreasuryState, s': TreasuryState, reference: nat, share: Money, at: int)
    requires Credited(s, s', reference, share, at)
    ensures reference in s'.deposits && s'.intents == s.intents
    ensures s'.ledger == s.ledger + IncomeEvents(s'.deposits[reference], share, at)
    ensures share.currency == s'.deposits[reference].amount.currency && 0 <= share.minor
  {
    hide AppendIncome, IncomeBooked, IncomeEvents;
    IncomeAppends(s, s'.deposits[reference], share, at);
  }

  /** What a deposit adds to the totals of one currency. */
  lemma CreditedSnapshot(s: TreasuryState, s': TreasuryState, reference: nat, share: Money, at: int, c: Currency)
    requires Credited(s, s', reference, share, at)
    ensures var d, t := s'.deposits[reference], SnapshotTotals(s, c);
            SnapshotTotals(s', c) == t.(
                 verifiedIncome := t.verifiedIncome + IncomeValue(d, share, IncomeVerified, c),
                 unverifiedIncome := t.unverifiedIncome + IncomeValue(d, share, IncomeUnverified, c),
                 operatorTopups := t.operatorTopups + IncomeValue(d, share, OperatorTopUp, c))
  {
    hide Credited, KindTotal, Reserved, IncomeEvents;
    CreditedAppends(s, s', reference, share, at);
    var d := s'.deposits[reference];
    IncomeTotals(s.ledger, d, share, at, OwnerCapital, c);
    IncomeTotals(s.ledger, d, share, at, IncomeVerified, c);
    IncomeTotals(s.ledger, d, share, at, IncomeUnverified, c);
    IncomeTotals(s.ledger, d, share, at, OperatorTopUp, c);
    IncomeTotals(s.ledger, d, share, at, SpendingSettled, c);
    IncomeTotals(s.ledger, d, share, at, Refund, c);
  }

  lemma CreditedTotals(s: TreasuryState, s': TreasuryState, reference: nat, share: Money, at: int)
    requires Credited(s, s', reference, share, at) && TreasuryCurrency(s') == TreasuryCurrency(s)
    ensures var d, c := s'.deposits[reference], TreasuryCurrency(s);
            && Totals(s') == Totals(s).(
                 verifiedIncome := Totals(s).verifiedIncome + IncomeValue(d, share, IncomeVerified, c),
                 unverifiedIncome := Totals(s).unverifiedIncome + IncomeValue(d, share, IncomeUnverified, c),
                 operatorTopups := Totals(s).operatorTopups + IncomeValue(d, share, OperatorTopUp, c))
  {
    hide SnapshotTotals, Credited, IncomeValue;
    CreditedSnapshot(s, s', reference, share, at, TreasuryCurrency(s));
  }

  /** Unverified income moves neither a balance nor the authority of any currency. */
  lemma UnverifiedMovesNothing(s: TreasuryState, s': TreasuryState, reference: nat, share: Money, at: int, c: Currency)
    requires Credited(s, s', reference, share, at) && !s'.deposits[reference].verified
    ensures s'.provider == s.provider && s'.manual == s.manual
    ensures SnapshotTotals(s', c).Authority() == SnapshotTotals(s, c).Authority()
  {
    hide SnapshotTotals, AppendIncome;
    CreditedSnapshot(s, s', reference, share, at, c);
  }

  lemma CreditedKeepsAuthority(s: TreasuryState, s': TreasuryState, reference: nat, share: Money, at: int)
    requires AuthoritySound(s) && Credited(s, s', reference, share, at) && TreasuryCurrency(s') == TreasuryCurrency(s)
    ensures AuthoritySound(s')
  {
    SharesBounds(s, s'.deposits[reference], share);
    CreditedTotals(s, s', reference, share, at);
    hide Credited, Totals, SharesBy;
  }

  lemma SameBooks(intents: map<Id, Intent>, p: SimulatedProvider, p': SimulatedProvider)
    requires HoldsSound(intents, p) && ChargesSound(intents, p) && p'.holds == p.holds && p'.charges == p.charges
    ensures HoldsSound(intents, p') && ChargesSound(intents, p')
  {
  }

  lemma CreditedMovesBalance(s: TreasuryState, s': TreasuryState, reference: nat, share: Money, at: int)
    requires Credited(s, s', reference, share, at) && s.mode.Simulated?
    ensures var d := s'.deposits[reference];
            && s'.mode == s.mode && s'.intents == s.intents
            && s'.provider.holds == s.provider.holds && s'.provider.charges == s.provider.charges
            && s'.provider.balance.minor
                 == s.provider.balance.minor + IncomeValue(d, share, IncomeVerified, TreasuryCurrency(s))
  {
    hide SharesBy, AppendIncome;
  }

  lemma CreditedKeepsProvider(s: TreasuryState, s': TreasuryState, reference: nat, share: Money, at: int)
    requires ProviderSound(s) && Credited(s, s', reference, share, at) && TreasuryCurrency(s') == TreasuryCurrency(s)
    ensures ProviderSound(s')
  {
    if s.mode.Simulated? {
      CreditedTotals(s, s', reference, share, at);
      CreditedMovesBalance(s, s', reference, share, at);
      SameBooks(s.intents, s.provider, s'.provider);
      hide Totals, Credited, HoldsSound, ChargesSound;
    } else {
      hide HoldsSound, ChargesSound, BalanceSound, SharesBy, AppendIncome;
    }
  }

  lemma CreditedKeepsMoney(s: TreasuryState, s': TreasuryState, reference: nat, share: Money, at: int)
    requires MoneySound(s) && Credited(s, s', reference, share, at)
    ensures MoneySound(s')
  {
    var d := s'.deposits[reference];
    BookedInTreasuryCurrency(s, s', d);
    SharesBounds(s, d, share);
    IncomeAppends(s, d, share, at);
    IncomeKeepsLedger(s.intents, s.ledger, TreasuryCurrency(s), d, share, at);
    hide LedgerSound, Totals, AppendIncome, AuthoritySound, ProviderSound, IncomeEvents, Reserved;
    CreditedKeepsAuthority(s, s', reference, share, at);
    CreditedKeepsProvider(s, s', reference, share, at);
  }

  lemma ElementaryKeepsMoney(s: TreasuryState, s': TreasuryState, supply: Id, at: int)
    requires MoneySound(s) && Elementary(s, s', supply, at)
    ensures MoneySound(s')
  {
    hide MoneySound, LogFollows, Moved, Introduced, AgentsFollow, Credited, Reconfigured;
    if id :| Moved(s, s', id, at) {
      MovedKeepsMoney(s, s', id, at);
    } else if Introduced(s, s', supply) {
      IntroducedKeepsMoney(s, s', supply);
    } else if reference, share :| Credited(s, s', reference, share, at) {
      CreditedKeepsMoney(s, s', reference, share, at);
    } else if Reconfigured(s, s') {
      ReconfiguredKeepsMoney(s, s');
    } else {
      SameMoneyKeeps(s, s');
    }
  }
}
