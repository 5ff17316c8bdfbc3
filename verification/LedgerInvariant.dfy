/** The ledger agrees with the intents: what one writes, the other's state implies. */
module LedgerInvariant {
  import opened Results
  import opened Sums
  import opened MoneyMath
  import opened Records
  import opened Budget
  import opened Execution

  /** How often each kind of event was written for one intent. */
  datatype Footprint = Footprint(holds: nat, releases: nat, settlements: nat, refunds: nat) {
    function Add(kind: LedgerEventKind): Footprint {
      match kind
      case HoldReserved => this.(holds := holds + 1)
      case HoldReleased => this.(releases := releases + 1)
      case SpendingSettled => this.(settlements := settlements + 1)
      case Refund => this.(refunds := refunds + 1)
      case _ => this
    }
  }

  const NO_EVENTS := Footprint(0, 0, 0, 0)

  function FootprintOf(ledger: seq<LedgerEvent>, id: Id): Footprint {
    if |ledger| == 0 then NO_EVENTS
    else
      var last := ledger[|ledger| - 1];
      var before := FootprintOf(ledger[..|ledger| - 1], id);
      if last.intentId == Some(id) then before.Add(last.kind) else before
  }

  /** The events an intent in `state` has, exactly. */
  function Expected(state: TransactionState): Footprint {
    if state.NeverReserved() then NO_EVENTS
    else if state.Open() then Footprint(1, 0, 0, 0)
    else if state.Declined? then Footprint(1, 1, 0, 0)
    else if state.Settled? then Footprint(1, 1, 1, 0)
    else Footprint(1, 1, 1, 1)
  }

  predicate AboutIntent(kind: LedgerEventKind) {
    kind.HoldReserved? || kind.HoldReleased? || kind.SpendingSettled? || kind.Refund?
  }

  ghost predicate EventSound(e: LedgerEvent, intents: map<Id, Intent>, currency: Currency) {
    && 0 < e.amount.minor
    && (!e.kind.IncomeUnverified? ==> e.amount.currency == currency)
    && (AboutIntent(e.kind) <==> e.intentId.Some?)
    && (e.intentId.Some? ==> e.intentId.value in intents && e.amount == intents[e.intentId.value].request.finalTotal)
  }

  ghost predicate LedgerSound(intents: map<Id, Intent>, ledger: seq<LedgerEvent>, currency: Currency) {
    && (forall e :: e in ledger ==> EventSound(e, intents, currency))
    && (forall i :: i in intents ==>
          && FootprintOf(ledger, i) == Expected(intents[i].state)
          && 0 < intents[i].request.finalTotal.minor
          && (!intents[i].state.NeverReserved() ==> intents[i].request.finalTotal.currency == currency))
  }

  function AddAll(f: Footprint, events: seq<LedgerEvent>): Footprint {
    if |events| == 0 then f else AddAll(f, events[..|events| - 1]).Add(events[|events| - 1].kind)
  }

  lemma {:induction false} FootprintExtends(ledger: seq<LedgerEvent>, events: seq<LedgerEvent>, id: Id, i: Id)
    requires forall e :: e in events ==> e.intentId == Some(id)
    ensures FootprintOf(ledger + events, i) == if i == id then AddAll(FootprintOf(ledger, i), events) else FootprintOf(ledger, i)
  {
    if |events| == 0 {
      assert ledger + events == ledger;
    } else {
      var n := |events| - 1;
      assert (ledger + events)[..|ledger + events| - 1] == ledger + events[..n];
      FootprintExtends(ledger, events[..n], id, i);
    }
  }

  lemma {:induction false} NoFootprint(ledger: seq<LedgerEvent>, id: Id)
    requires forall e :: e in ledger ==> e.intentId != Some(id)
    ensures FootprintOf(ledger, id) == NO_EVENTS
  {
    if |ledger| > 0 {
      NoFootprint(ledger[..|ledger| - 1], id);
    }
  }

  /** An event that was written shows in the footprint, and the other way round. */
  lemma {:induction false} EventShows(ledger: seq<LedgerEvent>, id: Id)
    ensures HasEvent(ledger, id, HoldReleased) <==> FootprintOf(ledger, id).releases > 0
    ensures HasEvent(ledger, id, SpendingSettled) <==> FootprintOf(ledger, id).settlements > 0
  {
    if |ledger| > 0 {
      var shorter := ledger[..|ledger| - 1];
      var last := ledger[|ledger| - 1];
      EventShows(shorter, id);
      assert ledger == shorter + [last];
      if last.intentId == Some(id) && last.kind == HoldReleased {
        assert HasEvent(ledger, id, HoldReleased);
      }
      if last.intentId == Some(id) && last.kind == SpendingSettled {
        assert HasEvent(ledger, id, SpendingSettled);
      }
    }
  }

  /** One intent moves and the matching events are appended: the agreement survives. */
  lemma LedgerStep(intents: map<Id, Intent>, ledger: seq<LedgerEvent>, currency: Currency, id: Id, next: Intent,
                   events: seq<LedgerEvent>)
    requires LedgerSound(intents, ledger, currency)
    requires id in intents ==> intents[id].request == next.request
    requires 0 < next.request.finalTotal.minor
    requires !next.state.NeverReserved() ==> next.request.finalTotal.currency == currency
    requires forall e :: e in events ==> e.intentId == Some(id) && AboutIntent(e.kind) && e.amount == next.request.finalTotal
    requires |events| > 0 ==> next.request.finalTotal.currency == currency
    requires Expected(next.state) == AddAll(if id in intents then Expected(intents[id].state) else NO_EVENTS, events)
    ensures LedgerSound(intents[id := next], ledger + events, currency)
  {
    var intents' := intents[id := next];
    forall e | e in ledger + events
      ensures EventSound(e, intents', currency)
    {
      if e in ledger {
        assert EventSound(e, intents, currency);
      }
    }
    if id !in intents {
      forall e | e in ledger
        ensures e.intentId != Some(id)
      {
        assert EventSound(e, intents, currency);
      }
      NoFootprint(ledger, id);
    }
    forall i | i in intents'
      ensures FootprintOf(ledger + events, i) == Expected(intents'[i].state)
    {
      FootprintExtends(ledger, events, id, i);
    }
  }

  /** Events about no intent leave the agreement alone. */
  lemma {:induction false} LedgerAppendsIncome(intents: map<Id, Intent>, ledger: seq<LedgerEvent>, currency: Currency, e: LedgerEvent)
    requires LedgerSound(intents, ledger, currency)
    requires e.intentId.None? && EventSound(e, intents, currency)
    ensures LedgerSound(intents, ledger + [e], currency)
  {
    assert (ledger + [e])[..|ledger|] == ledger;
  }

  /** `record_settled` on an open intent always writes both of its events. */
  lemma SettlementWritesBoth(s: TreasuryState, currency: Currency, id: Id, amount: Money, at: int)
    requires LedgerSound(s.intents, s.ledger, currency) && id in s.intents && s.intents[id].state.Open()
    ensures RecordSettled(s, id, amount, at)
         == s.(ledger := s.ledger + [LedgerEvent(at, HoldReleased, amount, Some(id)), LedgerEvent(at, SpendingSettled, amount, Some(id))])
  {
    EventShows(s.ledger, id);
    var released := Append(s, HoldReleased, amount, Some(id), at);
    EventShows(released.ledger, id);
    FootprintExtends(s.ledger, [LedgerEvent(at, HoldReleased, amount, Some(id))], id, id);
    assert s.ledger + [LedgerEvent(at, HoldReleased, amount, Some(id)), LedgerEvent(at, SpendingSettled, amount, Some(id))]
        == released.ledger + [LedgerEvent(at, SpendingSettled, amount, Some(id))];
  }

  // ----- the agreement between the two sums the code keeps apart -----

  ghost function NetHoldW(currency: Currency): LedgerEvent -> int {
    (e: LedgerEvent) =>
      if e.amount.currency != currency then 0
      else if e.kind.HoldReserved? then e.amount.minor
      else if e.kind.HoldReleased? then -(e.amount.minor as int)
      else 0
  }

  ghost function UnreleasedW(ledger: seq<LedgerEvent>): (Id, Intent) -> int {
    (i: Id, x: Intent) => (FootprintOf(ledger, i).holds - FootprintOf(ledger, i).releases) * x.request.finalTotal.minor
  }

  lemma {:induction false} HoldsByIntent(intents: map<Id, Intent>, ledger: seq<LedgerEvent>, currency: Currency)
    requires forall e :: e in ledger ==> EventSound(e, intents, currency)
    ensures SumSeq(ledger, NetHoldW(currency)) == Sum(intents, UnreleasedW(ledger))
  {
    if |ledger| == 0 {
      forall i | i in intents
        ensures UnreleasedW(ledger)(i, intents[i]) == 0
      {
        assert FootprintOf(ledger, i) == NO_EVENTS;
      }
      SumAdd(intents, UnreleasedW(ledger), UnreleasedW(ledger), UnreleasedW(ledger));
    } else {
      var shorter := ledger[..|ledger| - 1];
      var last := ledger[|ledger| - 1];
      HoldsByIntent(intents, shorter, currency);
      assert EventSound(last, intents, currency);
      if last.intentId.Some? {
        var id := last.intentId.value;
        assert intents == intents[id := intents[id]];
        SumSwap(intents, id, intents[id], UnreleasedW(shorter), UnreleasedW(ledger));
        var f := FootprintOf(shorter, id);
        assert FootprintOf(ledger, id) == f.Add(last.kind);
        var total := intents[id].request.finalTotal.minor;
        assert (f.holds + 1 - f.releases) * total == (f.holds - f.releases) * total + total;
        assert (f.holds - (f.releases + 1)) * total == (f.holds - f.releases) * total - total;
      } else {
        assert forall i :: FootprintOf(ledger, i) == FootprintOf(shorter, i);
        SumCongruent(intents, UnreleasedW(shorter), UnreleasedW(ledger));
      }
    }
  }

  /** Holds reserved less holds released, read from the ledger, is the reserved sum read from the states. */
  lemma HoldsMatchReservations(intents: map<Id, Intent>, ledger: seq<LedgerEvent>, currency: Currency)
    requires LedgerSound(intents, ledger, currency)
    ensures SumSeq(ledger, NetHoldW(currency)) == Reserved(intents, currency)
  {
    HoldsByIntent(intents, ledger, currency);
    forall i | i in intents
      ensures UnreleasedW(ledger)(i, intents[i]) == ReservedW(currency)(i, intents[i])
    {
      assert FootprintOf(ledger, i) == Expected(intents[i].state);
    }
    SumCongruent(intents, UnreleasedW(ledger), ReservedW(currency));
  }
}
