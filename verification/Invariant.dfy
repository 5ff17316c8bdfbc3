/** The whole invariant of one state, kept by every elementary step and so by every chain of them. */
module Invariant {
  import opened Sums
  import opened MoneyMath
  import opened Records
  import opened AuditLog
  import opened Budget
  import opened Requests
  import opened MoneyInvariant
  import opened Steps
  import opened Safety

  ghost predicate LogSound(s: TreasuryState) {
    && ChainVerifies(s.audit) && s.generation == |s.audit|
    && Used(s.audit) <= MAX_AUDIT_ENTRIES
    && SwitchMatchesLog(s.emergencyStop, s.audit)
  }

  ghost predicate ReceiptsSound(intents: map<Id, Intent>) {
    forall i :: i in intents ==> ReceiptSound(i, intents[i])
  }

  predicate IntentsSound(s: TreasuryState) {
    && |s.intents| <= MAX_INTENTS
    && forall i :: i in s.intents ==>
         s.intents[i].agentId in s.agents && 0 < s.intents[i].request.amount.minor && 0 < s.intents[i].request.finalTotal.minor
  }

  /** Everything named so far was drawn before `supply`, and every expiry is a proper timestamp. */
  predicate Identified(s: TreasuryState, supply: Id) {
    && (forall i :: i in s.intents ==> i < supply && s.intents[i].session < supply)
    && (forall a :: a in s.agents ==> a < supply && s.agents[a].session < supply && 0 <= s.agents[a].expiresAt)
  }

  /** An agent never holds two intents under one idempotency key. */
  predicate KeysUnique(intents: map<Id, Intent>) {
    forall i, j :: i in intents && j in intents && SameKey(intents[j], intents[i].agentId, intents[i].request.key) ==> i == j
  }

  ghost function IncomeW(kind: LedgerEventKind, currency: Currency): (nat, DepositDetails) -> int {
    (r: nat, d: DepositDetails) =>
      if d.amount.currency == currency && kind == (if d.verified then IncomeVerified else IncomeUnverified) then d.amount.minor else 0
  }

  /** The income in the ledger is the sum of the recorded deposits: each one is counted, and counted once. */
  ghost predicate DepositsCounted(s: TreasuryState) {
    forall c: Currency ::
      && KindTotal(s.ledger, IncomeVerified, c) == Sum(s.deposits, IncomeW(IncomeVerified, c))
      && KindTotal(s.ledger, IncomeUnverified, c) == Sum(s.deposits, IncomeW(IncomeUnverified, c))
  }

  ghost predicate Sound(s: TreasuryState, supply: Id) {
    && MoneySound(s) && LogSound(s) && ReceiptsSound(s.intents) && IntentsSound(s)
    && Identified(s, supply) && KeysUnique(s.intents) && DepositsCounted(s)
  }

  // ----- log -----

  lemma ElementaryKeepsLog(s: TreasuryState, s': TreasuryState, supply: Id, at: int)
    requires LogSound(s) && Elementary(s, s', supply, at)
    ensures LogSound(s') && s.audit <= s'.audit && |s'.audit| <= |s.audit| + 1
  {
    hide LogOnly, Moved, Introduced, Administered, Credited, Reconfigured, ChainVerifies;
    if s'.audit != s.audit {
      var body := s'.audit[|s.audit|].body;
      CountsAfterAppend(s.audit, Seal(s.audit, at, body.actor, body.action, body.intentId));
      AppendKeepsChain(s.audit, at, body.actor, body.action, body.intentId);
    }
  }

  // ----- intents -----

  /** How the intents of `s` may look after one step. */
  ghost predicate IntentsFollow(s: TreasuryState, s': TreasuryState, supply: Id, at: int) {
    || s'.intents == s.intents
    || (exists id :: Moved(s, s', id, at))
    || Introduced(s, s', supply)
  }

  lemma ElementaryIntents(s: TreasuryState, s': TreasuryState, supply: Id, at: int)
    requires Elementary(s, s', supply, at)
    ensures IntentsFollow(s, s', supply, at)
    ensures forall a :: a in s.agents ==> a in s'.agents
  {
    hide LogFollows, Moved, Introduced, SharesBy, IncomeBooked;
    if id :| Moved(s, s', id, at) {
      assert s'.agents == s.agents by {
        MovedFrame(s, s', id, at);
      }
    } else if Introduced(s, s', supply) {
      assert s'.agents == s.agents by {
        IntroducedFrame(s, s', supply);
      }
    }
  }

  lemma MovedFrame(s: TreasuryState, s': TreasuryState, id: Id, at: int)
    requires Moved(s, s', id, at)
    ensures id in s.intents && id in s'.intents && s'.intents == s.intents[id := s'.intents[id]]
    ensures SameIdentity(s.intents[id], s'.intents[id]) && ReceiptSound(id, s'.intents[id])
    ensures StoredMove(s.intents[id].state, s'.intents[id].state) && StartsLawfully(s, id, s'.intents[id], at)
    ensures s'.ledger == s.ledger + MoveEvents(s.intents[id].state, s'.intents[id], id, at)
    ensures s'.agents == s.agents && s'.policies == s.policies && s'.deposits == s.deposits && s'.mode == s.mode
    ensures s'.emergencyStop == s.emergencyStop && TreasuryCurrency(s') == TreasuryCurrency(s)
  {
    hide StartsLawfully, StoredMove, ReceiptSound, SameIdentity, MoveEvents, BalancesFollow;
  }

  lemma IntroducedFrame(s: TreasuryState, s': TreasuryState, id: Id)
    requires Introduced(s, s', id)
    ensures id !in s.intents && id in s'.intents && s'.intents == s.intents[id := s'.intents[id]]
    ensures s'.agents == s.agents && s'.policies == s.policies && s'.deposits == s.deposits && s'.ledger == s.ledger
    ensures s'.provider == s.provider && s'.mode == s.mode && s'.emergencyStop == s.emergencyStop
  {
  }

  /** What is asked of every stored intent. */
  ghost predicate Kept(s: TreasuryState) {
    ReceiptsSound(s.intents) && IntentsSound(s) && KeysUnique(s.intents)
  }

  lemma SameIdentityKeepsKeys(intents: map<Id, Intent>, id: Id, next: Intent)
    requires KeysUnique(intents) && id in intents && SameIdentity(intents[id], next)
    ensures KeysUnique(intents[id := next])
  {
    var intents' := intents[id := next];
    forall i, j | i in intents' && j in intents' && SameKey(intents'[j], intents'[i].agentId, intents'[i].request.key)
      ensures i == j
    {
      assert SameKey(intents[j], intents[i].agentId, intents[i].request.key);
    }
  }

  lemma MovedKeepsIntents(s: TreasuryState, s': TreasuryState, id: Id, at: int)
    requires Moved(s, s', id, at) && Kept(s)
    ensures Kept(s')
  {
    hide Moved, ReceiptSound, StoredMove, StartsLawfully, MoveEvents, KeysUnique;
    MovedFrame(s, s', id, at);
    SameIdentityKeepsKeys(s.intents, id, s'.intents[id]);
    assert s'.intents.Keys == s.intents.Keys;
  }

  lemma IntroducedKeepsIntents(s: TreasuryState, s': TreasuryState, id: Id)
    requires Introduced(s, s', id) && Kept(s)
    ensures Kept(s')
  {
    NewReceipt(s, s', id);
    hide ReceiptSound;
  }

  lemma ElementaryKeepsIntents(s: TreasuryState, s': TreasuryState, supply: Id, at: int)
    requires Elementary(s, s', supply, at) && Kept(s)
    ensures Kept(s')
  {
    ElementaryIntents(s, s', supply, at);
    hide Elementary, Moved, Introduced, ReceiptSound, KeysUnique;
    if s'.intents == s.intents {
    } else if Introduced(s, s', supply) {
      IntroducedKeepsIntents(s, s', supply);
    } else {
      var id :| Moved(s, s', id, at);
      MovedKeepsIntents(s, s', id, at);
    }
  }

  lemma NewReceipt(s: TreasuryState, s': TreasuryState, id: Id)
    requires Introduced(s, s', id)
    ensures ReceiptSound(id, s'.intents[id])
  {
  }

  lemma AdministeredKeepsIdentified(s: TreasuryState, s': TreasuryState, supply: Id, at: int)
    requires Administered(s, s', supply, at) && Identified(s, NextId(supply) + 1) && 0 <= at
    ensures Identified(s', NextId(supply) + 1)
  {
  }

  lemma IntroducedKeepsIdentified(s: TreasuryState, s': TreasuryState, supply: Id)
    requires Introduced(s, s', supply) && Identified(s, NextId(supply) + 1)
    ensures Identified(s', NextId(supply) + 1)
  {
  }

  lemma ElementaryKeepsIdentified(s: TreasuryState, s': TreasuryState, supply: Id, at: int)
    requires Elementary(s, s', supply, at) && Identified(s, NextId(supply) + 1) && 0 <= at
    ensures Identified(s', NextId(supply) + 1)
  {
    hide LogFollows, Credited, Reconfigured, Moved, Administered, Introduced, StoredMove, ReceiptSound, MoveEvents, IncomeEvents;
    if id :| Moved(s, s', id, at) {
      MovedFrame(s, s', id, at);
    } else if reference, share :| Credited(s, s', reference, share, at) {
      CreditedFrame(s, s', reference, share, at);
    } else if Reconfigured(s, s') {
      ReconfiguredFrame(s, s');
    } else if Administered(s, s', supply, at) {
      AdministeredKeepsIdentified(s, s', supply, at);
    } else if Introduced(s, s', supply) {
      IntroducedKeepsIdentified(s, s', supply);
    }
  }

  lemma CreditedFrame(s: TreasuryState, s': TreasuryState, reference: nat, share: Money, at: int)
    requires Credited(s, s', reference, share, at)
    ensures s'.agents == s.agents && s'.policies == s.policies && s'.intents == s.intents && s'.mode == s.mode
    ensures s'.emergencyStop == s.emergencyStop
    ensures reference !in s.deposits && reference in s'.deposits && s'.deposits == s.deposits[reference := s'.deposits[reference]]
    ensures s'.ledger == s.ledger + IncomeEvents(s'.deposits[reference], share, at)
    ensures 0 <= share.minor && share.currency == s'.deposits[reference].amount.currency
  {
    hide IncomeBooked, AppendIncome, IncomeEvents;
    CreditedAppends(s, s', reference, share, at);
  }

  lemma ReconfiguredFrame(s: TreasuryState, s': TreasuryState)
    requires Reconfigured(s, s')
    ensures s'.agents == s.agents && s'.policies == s.policies && s'.intents == s.intents && s'.deposits == s.deposits
    ensures s'.ledger == s.ledger && s'.provider == s.provider && s'.emergencyStop == s.emergencyStop
  {
  }

  // ----- deposits -----

  lemma MoveIsNoIncome(before: TransactionState, x: Intent, id: Id, at: int, ledger: seq<LedgerEvent>, kind: LedgerEventKind, c: Currency)
    requires kind.IncomeVerified? || kind.IncomeUnverified?
    ensures KindTotal(ledger + MoveEvents(before, x, id, at), kind, c) == KindTotal(ledger, kind, c)
  {
    var events := MoveEvents(before, x, id, at);
    SumSeqConcat(ledger, events, KindW(kind, c));
    ZeroSums(events, KindW(kind, c));
  }

  lemma {:induction false} ZeroSums<T>(events: seq<T>, w: T -> int)
    requires forall e :: e in events ==> w(e) == 0
    ensures SumSeq(events, w) == 0
  {
    if |events| > 0 {
      ZeroSums(events[..|events| - 1], w);
    }
  }

  lemma CreditedCountsDeposit(s: TreasuryState, s': TreasuryState, reference: nat, share: Money, at: int, kind: LedgerEventKind, c: Currency)
    requires Credited(s, s', reference, share, at) && (kind.IncomeVerified? || kind.IncomeUnverified?)
    requires KindTotal(s.ledger, kind, c) == Sum(s.deposits, IncomeW(kind, c))
    ensures KindTotal(s'.ledger, kind, c) == Sum(s'.deposits, IncomeW(kind, c))
  {
    CreditedFrame(s, s', reference, share, at);
    hide Credited, KindTotal, IncomeEvents;
    IncomeTotals(s.ledger, s'.deposits[reference], share, at, kind, c);
    SumSwap(s.deposits, reference, s'.deposits[reference], IncomeW(kind, c), IncomeW(kind, c));
  }

  lemma CreditedKeepsDeposits(s: TreasuryState, s': TreasuryState, reference: nat, share: Money, at: int)
    requires Credited(s, s', reference, share, at) && DepositsCounted(s)
    ensures DepositsCounted(s')
  {
    hide Credited, KindTotal, IncomeW;
    forall c: Currency
      ensures KindTotal(s'.ledger, IncomeVerified, c) == Sum(s'.deposits, IncomeW(IncomeVerified, c))
      ensures KindTotal(s'.ledger, IncomeUnverified, c) == Sum(s'.deposits, IncomeW(IncomeUnverified, c))
    {
      CreditedCountsDeposit(s, s', reference, share, at, IncomeVerified, c);
      CreditedCountsDeposit(s, s', reference, share, at, IncomeUnverified, c);
    }
  }

  lemma MovedKeepsDeposits(s: TreasuryState, s': TreasuryState, id: Id, at: int)
    requires Moved(s, s', id, at) && DepositsCounted(s)
    ensures DepositsCounted(s')
  {
    hide Moved, KindTotal, MoveEvents, IncomeW, StoredMove, ReceiptSound, SameIdentity, StartsLawfully;
    MovedFrame(s, s', id, at);
    var before, next := s.intents[id].state, s'.intents[id];
    forall c: Currency
      ensures KindTotal(s'.ledger, IncomeVerified, c) == Sum(s'.deposits, IncomeW(IncomeVerified, c))
      ensures KindTotal(s'.ledger, IncomeUnverified, c) == Sum(s'.deposits, IncomeW(IncomeUnverified, c))
    {
      MoveIsNoIncome(before, next, id, at, s.ledger, IncomeVerified, c);
      MoveIsNoIncome(before, next, id, at, s.ledger, IncomeUnverified, c);
    }
  }

  lemma ElementaryKeepsDeposits(s: TreasuryState, s': TreasuryState, supply: Id, at: int)
    requires Elementary(s, s', supply, at) && DepositsCounted(s)
    ensures DepositsCounted(s')
  {
    hide LogFollows, Credited, Reconfigured, Moved, KindTotal, IncomeW, Introduced;
    if id :| Moved(s, s', id, at) {
      MovedKeepsDeposits(s, s', id, at);
    } else if reference, share :| Credited(s, s', reference, share, at) {
      CreditedKeepsDeposits(s, s', reference, share, at);
    } else if Reconfigured(s, s') {
      ReconfiguredFrame(s, s');
    } else if Introduced(s, s', supply) {
      IntroducedFrame(s, s', supply);
    }
  }

  // ----- all of it -----

  lemma ElementaryKeepsSound(s: TreasuryState, s': TreasuryState, supply: Id, at: int)
    requires Elementary(s, s', supply, at) && Sound(s, NextId(supply) + 1) && 0 <= at
    ensures Sound(s', NextId(supply) + 1)
  {
    hide Elementary, MoneySound, LogSound, ReceiptsSound, IntentsSound, Identified, KeysUnique, DepositsCounted;
    ElementaryKeepsMoney(s, s', supply, at);
    ElementaryKeepsLog(s, s', supply, at);
    ElementaryKeepsIntents(s, s', supply, at);
    ElementaryKeepsIdentified(s, s', supply, at);
    ElementaryKeepsDeposits(s, s', supply, at);
  }

  lemma SoundIsMoney(s: TreasuryState, supply: Id)
    requires Sound(s, supply)
    ensures MoneySound(s)
  {
  }

  lemma LaterSupply(s: TreasuryState, supply: Id, later: Id)
    requires Sound(s, supply) && supply <= later
    ensures Sound(s, later)
  {
    hide MoneySound, LogSound, ReceiptsSound, IntentsSound, KeysUnique, DepositsCounted;
  }

  lemma {:induction false} ReachesKeepsSound(s: TreasuryState, s': TreasuryState, supply: Id, from: int, to: int, steps: nat)
    requires Reaches(s, s', supply, from, to, steps) && Sound(s, NextId(supply) + 1) && 0 <= from
    ensures Sound(s', NextId(supply) + 1)
    decreases steps
  {
    hide Sound, Elementary;
    if steps > 0 {
      var mid, at :| from <= at <= to && Reaches(s, mid, supply, from, at, steps - 1) && SameOffice(s, mid)
                     && Elementary(mid, s', supply, at);
      ReachesKeepsSound(s, mid, supply, from, at, steps - 1);
      ElementaryKeepsSound(mid, s', supply, at);
    }
  }
}
