/** What no step ever takes back: log, ledger, deposits, receipts and the progress of every intent. */
module History {
  import opened Results
  import opened MoneyMath
  import opened Records
  import opened Budget
  import opened Execution
  import opened Requests
  import opened LedgerInvariant
  import opened MoneyInvariant
  import opened Steps
  import opened Safety
  import opened Invariant

  /** Every state `next` an intent seen in `before` may still be in later on. */
  predicate Later(before: TransactionState, next: TransactionState) {
    || before == next
    || (before.Unstarted() && (next.NeverReserved() ==> Stage(before) < Stage(next)))
    || (before.Open() && next.Open() && Stage(before) < Stage(next))
    || (before.Open() && (next.Spent() || next.Declined?))
    || (before.Settled? && next.Refunded?)
  }

  lemma LaterTransitive(a: TransactionState, b: TransactionState, c: TransactionState)
    requires Later(a, b) && Later(b, c)
    ensures Later(a, c)
  {
    if a != b && b != c {
      if a.Open() {
        assert b.Open() || b.Spent();
      } else {
        assert a.Unstarted() || c.Refunded?;
      }
    }
  }

  lemma StoredMoveIsLater(before: TransactionState, next: TransactionState)
    requires StoredMove(before, next)
    ensures Later(before, next)
  {
  }

  predicate IntentExtends(x: Intent, next: Intent) {
    SameIdentity(x, next) && Later(x.state, next.state)
  }

  predicate IntentsExtend(intents: map<Id, Intent>, intents': map<Id, Intent>) {
    forall i :: i in intents ==> i in intents' && IntentExtends(intents[i], intents'[i])
  }

  predicate DepositsExtend(deposits: map<nat, DepositDetails>, deposits': map<nat, DepositDetails>) {
    forall r :: r in deposits ==> r in deposits' && deposits'[r] == deposits[r]
  }

  /** `s'` remembers everything `s` knew. */
  predicate Extends(s: TreasuryState, s': TreasuryState) {
    && s.audit <= s'.audit && s.ledger <= s'.ledger && TreasuryCurrency(s') == TreasuryCurrency(s)
    && DepositsExtend(s.deposits, s'.deposits)
    && IntentsExtend(s.intents, s'.intents)
  }

  lemma ExtendsReflexive(s: TreasuryState)
    ensures Extends(s, s)
  {
  }

  lemma IntentsExtendTransitive(a: map<Id, Intent>, b: map<Id, Intent>, c: map<Id, Intent>)
    requires IntentsExtend(a, b) && IntentsExtend(b, c)
    ensures IntentsExtend(a, c)
  {
    forall i | i in a
      ensures i in c && IntentExtends(a[i], c[i])
    {
      assert IntentExtends(a[i], b[i]) && IntentExtends(b[i], c[i]);
      LaterTransitive(a[i].state, b[i].state, c[i].state);
    }
  }

  lemma ExtendsTransitive(a: TreasuryState, b: TreasuryState, c: TreasuryState)
    requires Extends(a, b) && Extends(b, c)
    ensures Extends(a, c)
  {
    IntentsExtendTransitive(a.intents, b.intents, c.intents);
    hide IntentsExtend;
  }

  lemma OneIntentExtends(intents: map<Id, Intent>, id: Id, next: Intent)
    requires id in intents ==> IntentExtends(intents[id], next)
    ensures IntentsExtend(intents, intents[id := next])
  {
  }

  lemma MovedExtends(s: TreasuryState, s': TreasuryState, id: Id, at: int)
    requires Moved(s, s', id, at) && s.audit <= s'.audit
    ensures Extends(s, s')
  {
    hide Moved, ReceiptSound, StartsLawfully, StoredMove, Later, MoveEvents, SameIdentity, IntentsExtend;
    MovedFrame(s, s', id, at);
    StoredMoveIsLater(s.intents[id].state, s'.intents[id].state);
    OneIntentExtends(s.intents, id, s'.intents[id]);
  }

  lemma LogExtends(s: TreasuryState, s': TreasuryState, at: int)
    requires LogFollows(s, s', at)
    ensures s.audit <= s'.audit
  {
  }

  lemma ElementaryExtends(s: TreasuryState, s': TreasuryState, supply: Id, at: int)
    requires Elementary(s, s', supply, at)
    ensures Extends(s, s')
  {
    hide LogFollows, Moved, Introduced, AgentsFollow, Credited, Reconfigured, IntentsExtend;
    LogExtends(s, s', at);
    if id :| Moved(s, s', id, at) {
      MovedExtends(s, s', id, at);
    } else if Introduced(s, s', supply) {
      IntroducedFrame(s, s', supply);
      OneIntentExtends(s.intents, supply, s'.intents[supply]);
    } else if reference, share :| Credited(s, s', reference, share, at) {
      CreditedFrame(s, s', reference, share, at);
      CreditedSameCurrency(s, s', reference, share, at);
      NothingExtends(s.intents);
    } else if Reconfigured(s, s') {
      ReconfiguredFrame(s, s');
      NothingExtends(s.intents);
    } else {
      NothingExtends(s.intents);
    }
  }

  lemma CreditedSameCurrency(s: TreasuryState, s': TreasuryState, reference: nat, share: Money, at: int)
    requires Credited(s, s', reference, share, at)
    ensures TreasuryCurrency(s') == TreasuryCurrency(s)
  {
    hide SharesBy, AppendIncome;
  }

  lemma NothingExtends(intents: map<Id, Intent>)
    ensures IntentsExtend(intents, intents)
  {
  }

  lemma {:induction false} ReachesExtends(s: TreasuryState, s': TreasuryState, supply: Id, from: int, to: int, steps: nat)
    requires Reaches(s, s', supply, from, to, steps)
    ensures Extends(s, s')
    decreases steps
  {
    hide Elementary, Extends;
    if steps == 0 {
      ExtendsReflexive(s);
    } else {
      var mid, at :| from <= at <= to && Reaches(s, mid, supply, from, at, steps - 1) && SameOffice(s, mid)
                     && Elementary(mid, s', supply, at);
      ReachesExtends(s, mid, supply, from, at, steps - 1);
      ElementaryExtends(mid, s', supply, at);
      ExtendsTransitive(s, mid, s');
    }
  }

  // ----- begun intents -----

  lemma ExtendsBegun(s: TreasuryState, s': TreasuryState, id: Id)
    requires Extends(s, s') && Begun(s, id)
    ensures Begun(s', id) && s'.intents[id].agentId == s.intents[id].agentId
  {
    assert IntentExtends(s.intents[id], s'.intents[id]);
  }

  /** What begins along the way has begun in the end. */
  lemma BeginsOfChain(s: TreasuryState, mid: TreasuryState, s': TreasuryState, agent: Id)
    requires Extends(s, mid) && Extends(mid, s') && (Begins(s, mid, agent) || Begins(mid, s', agent))
    ensures Begins(s, s', agent)
  {
    hide Extends, Begun;
    if id :| id in mid.intents && mid.intents[id].agentId == agent && Begun(mid, id) && !Begun(s, id) {
      ExtendsBegun(mid, s', id);
      BegunIsStored(s', id);
    } else {
      var id :| id in s'.intents && s'.intents[id].agentId == agent && Begun(s', id) && !Begun(mid, id);
      if Begun(s, id) {
        ExtendsBegun(s, mid, id);
      }
    }
  }

  lemma BegunIsStored(s: TreasuryState, id: Id)
    requires Begun(s, id)
    ensures id in s.intents
  {
  }

  // ----- retired intents -----

  /** An intent that has not started and whose session nobody holds, nor will: every new session is drawn from `bound` on. */
  predicate Retired(s: TreasuryState, id: Id, bound: Id) {
    && id in s.intents && s.intents[id].state.NeverReserved() && s.intents[id].session < bound
    && s.intents[id].agentId in s.agents && bound <= s.agents[s.intents[id].agentId].session
  }

  lemma RetiredNeverPrepares(s: TreasuryState, id: Id, bound: Id, agent: Id, at: int, verdict: Verdict)
    requires Retired(s, id, bound)
    ensures Prepare(s, agent, id, at, verdict).Err?
  {
    if Prepare(s, agent, id, at, verdict).Ok? {
      PrepareShape(s, agent, id, at, verdict);
    }
  }

  lemma MovedKeepsRetired(s: TreasuryState, s': TreasuryState, moved: Id, at: int, id: Id, bound: Id)
    requires Retired(s, id, bound) && Moved(s, s', moved, at)
    ensures Retired(s', id, bound)
  {
    hide Moved, ReceiptSound, MoveEvents, Prepare;
    MovedFrame(s, s', moved, at);
    var next := s'.intents[moved];
    if moved == id && next.state.Executing? {
      var verdict :| Prepare(s, next.agentId, id, at, verdict).Ok?;
      RetiredNeverPrepares(s, id, bound, next.agentId, at, verdict);
    }
  }

  lemma ElementaryKeepsRetired(s: TreasuryState, s': TreasuryState, supply: Id, at: int, id: Id, bound: Id)
    requires Retired(s, id, bound) && Elementary(s, s', supply, at) && bound <= supply
    ensures Retired(s', id, bound)
  {
    hide LogFollows, Moved, Credited, Reconfigured;
    if moved :| Moved(s, s', moved, at) {
      MovedKeepsRetired(s, s', moved, at, id, bound);
    } else if reference, share :| Credited(s, s', reference, share, at) {
      CreditedFrame(s, s', reference, share, at);
    } else if Reconfigured(s, s') {
      ReconfiguredFrame(s, s');
    }
  }

  lemma {:induction false} ReachesKeepsRetired(s: TreasuryState, s': TreasuryState, supply: Id, from: int, to: int, steps: nat, id: Id, bound: Id)
    requires Reaches(s, s', supply, from, to, steps) && Retired(s, id, bound) && bound <= supply
    ensures Retired(s', id, bound)
    decreases steps
  {
    hide Elementary, Retired;
    if steps > 0 {
      var mid, at :| from <= at <= to && Reaches(s, mid, supply, from, at, steps - 1) && SameOffice(s, mid)
                     && Elementary(mid, s', supply, at);
      ReachesKeepsRetired(s, mid, supply, from, at, steps - 1, id, bound);
      ElementaryKeepsRetired(mid, s', supply, at, id, bound);
    }
  }

  // ----- top-ups -----

  /** The ratio a verified deposit uses, that of the agent it is meant for, is at most `basisPoints`. */
  predicate RatioWithin(s: TreasuryState, d: DepositDetails, basisPoints: nat) {
    d.verified && d.agentId.Some? && PolicyOf(s, d.agentId.value).Ok? ==>
      PolicyOf(s, d.agentId.value).value.reinvestmentBps <= basisPoints
  }

  /** Every deposit that is new in `s'` uses such a ratio. */
  predicate NewRatiosWithin(s: TreasuryState, s': TreasuryState, basisPoints: nat) {
    forall r :: r in s'.deposits && r !in s.deposits ==> RatioWithin(s, s'.deposits[r], basisPoints)
  }

  /** Spendable top-ups never exceed this share of the verified income. */
  ghost predicate TopupsWithin(s: TreasuryState, basisPoints: nat) {
    FULL_BASIS_POINTS * Totals(s).operatorTopups <= basisPoints * Totals(s).verifiedIncome
  }

  lemma ShareWithin(s: TreasuryState, d: DepositDetails, share: Money, basisPoints: nat)
    requires SharesBy(s, d, share) && 0 < d.amount.minor && RatioWithin(s, d, basisPoints)
    ensures FULL_BASIS_POINTS * share.minor <= basisPoints * (if d.verified then d.amount.minor else 0)
  {
    if d.verified {
      var ratio := PolicyOf(s, d.agentId.value).value.reinvestmentBps;
      ShareBounds(d.amount.minor, ratio);
      Scaled(ratio, basisPoints, d.amount.minor);
    }
  }

  lemma Scaled(small: nat, large: nat, factor: nat)
    requires small <= large
    ensures small * factor <= large * factor
  {
  }

  lemma Shared(income: int, more: int, basisPoints: nat)
    ensures basisPoints * (income + more) == basisPoints * income + basisPoints * more
  {
  }

  lemma CreditedKeepsTopups(s: TreasuryState, s': TreasuryState, reference: nat, share: Money, at: int, basisPoints: nat)
    requires MoneySound(s) && Credited(s, s', reference, share, at)
    requires TopupsWithin(s, basisPoints) && RatioWithin(s, s'.deposits[reference], basisPoints)
    ensures TopupsWithin(s', basisPoints)
  {
    hide LedgerSound, AuthoritySound, ProviderSound, Totals, AppendIncome;
    var d := s'.deposits[reference];
    BookedInTreasuryCurrency(s, s', d);
    CreditedTotals(s, s', reference, share, at);
    ShareWithin(s, d, share, basisPoints);
    var income := IncomeValue(d, share, IncomeVerified, TreasuryCurrency(s));
    Shared(Totals(s).verifiedIncome, income, basisPoints);
    hide MoneySound, Credited, Totals, RatioWithin, SharesBy, IncomeBooked;
  }

  lemma MovedKeepsTopups(s: TreasuryState, s': TreasuryState, id: Id, at: int, basisPoints: nat)
    requires MoneySound(s) && Moved(s, s', id, at) && TopupsWithin(s, basisPoints)
    ensures TopupsWithin(s', basisPoints)
  {
    hide MoneySound, Moved, StoredMove, ReceiptSound, StartsLawfully, MoveEvents, Totals, Moves;
    MovedFrame(s, s', id, at);
    var before, next := s.intents[id].state, s'.intents[id];
    assert !before.NeverReserved() ==> next.request.finalTotal.currency == TreasuryCurrency(s) by {
      StoredIntentFacts(s, id);
    }
    MoveMoves(before, next, id, at, TreasuryCurrency(s));
    TotalsStep(s, s', id, next, MoveEvents(before, next, id, at), MoveSettled(before, next), MoveRefunded(before, next));
  }

  lemma CreditedIsNew(s: TreasuryState, s': TreasuryState, reference: nat, share: Money, at: int)
    requires Credited(s, s', reference, share, at)
    ensures reference in s'.deposits && reference !in s.deposits
  {
    hide SharesBy, IncomeBooked, AppendIncome;
  }

  lemma ElementaryKeepsTopups(s: TreasuryState, s': TreasuryState, supply: Id, at: int, basisPoints: nat)
    requires MoneySound(s) && Elementary(s, s', supply, at)
    requires TopupsWithin(s, basisPoints) && NewRatiosWithin(s, s', basisPoints)
    ensures TopupsWithin(s', basisPoints)
  {
    hide MoneySound, LogFollows, Moved, AgentsFollow, Credited, Reconfigured, RatioWithin;
    if id :| Moved(s, s', id, at) {
      MovedKeepsTopups(s, s', id, at, basisPoints);
    } else if reference, share :| Credited(s, s', reference, share, at) {
      CreditedIsNew(s, s', reference, share, at);
      CreditedKeepsTopups(s, s', reference, share, at, basisPoints);
    } else if Reconfigured(s, s') {
      ReconfiguredFrame(s, s');
    } else if Introduced(s, s', supply) {
      IntroducedFrame(s, s', supply);
    }
  }

  /** A deposit that is new along the way is new in the end, and the ratios stay those of the beginning. */
  lemma RatiosOfChain(s: TreasuryState, mid: TreasuryState, s': TreasuryState, basisPoints: nat)
    requires Extends(s, mid) && Extends(mid, s') && SameOffice(s, mid) && NewRatiosWithin(s, s', basisPoints)
    ensures NewRatiosWithin(s, mid, basisPoints) && NewRatiosWithin(mid, s', basisPoints)
  {
    hide IntentsExtend;
    forall r | r in s'.deposits && r !in mid.deposits
      ensures RatioWithin(mid, s'.deposits[r], basisPoints)
    {
      assert r !in s.deposits;
    }
    forall r | r in mid.deposits && r !in s.deposits
      ensures RatioWithin(s, mid.deposits[r], basisPoints)
    {
      assert r in s'.deposits && s'.deposits[r] == mid.deposits[r];
    }
  }

  lemma {:induction false} ReachesKeepsTopups(s: TreasuryState, s': TreasuryState, supply: Id, from: int, to: int, steps: nat, basisPoints: nat)
    requires Reaches(s, s', supply, from, to, steps) && Sound(s, NextId(supply) + 1) && 0 <= from
    requires TopupsWithin(s, basisPoints) && NewRatiosWithin(s, s', basisPoints)
    ensures TopupsWithin(s', basisPoints)
    decreases steps
  {
    hide Elementary, Sound, TopupsWithin, NewRatiosWithin, Extends;
    if steps > 0 {
      var mid, at :| from <= at <= to && Reaches(s, mid, supply, from, at, steps - 1) && SameOffice(s, mid)
                     && Elementary(mid, s', supply, at);
      ReachesExtends(s, mid, supply, from, at, steps - 1);
      ElementaryExtends(mid, s', supply, at);
      RatiosOfChain(s, mid, s', basisPoints);
      ReachesKeepsTopups(s, mid, supply, from, at, steps - 1, basisPoints);
      ReachesKeepsSound(s, mid, supply, from, at, steps - 1);
      assert MoneySound(mid) by {
        SoundIsMoney(mid, NextId(supply) + 1);
      }
      ElementaryKeepsTopups(mid, s', supply, at, basisPoints);
    }
  }
}
