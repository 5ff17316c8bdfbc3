/** The append-only audit chain and the quotas that decide which entries may still be written. */
module AuditLog {
  import opened Results
  import opened Records

  const MAX_AUDIT_ENTRIES: nat := 100_000
  const AUDIT_SAFETY_RESERVE: nat := 1_024
  const EMERGENCY_AUDIT_RESERVE: nat := 256

  predicate IsEmergency(action: AuditAction) {
    action.EmergencyStopOn? || action.EmergencyStopOff?
  }

  /** `OwnerCheckoutHandoff` is absent here, as it is in the source. */
  predicate IsMoneySafety(action: AuditAction) {
    || action.ReserveFunds?
    || action.ProviderOutcomeSeen?
    || action.QuarantineProviderError?
    || action.RecoverInterruptedExecution?
    || action.BeginManualHandoff?
    || action.CompleteManualHandoff?
    || action.ControlledCheckoutHandoff?
    || action.ReconcileIntent?
  }

  predicate CapacityAllows(nonEmergency: nat, emergency: nat, action: AuditAction) {
    if action.EmergencyStopOn? then true
    else if action.EmergencyStopOff? then emergency < EMERGENCY_AUDIT_RESERVE
    else if IsMoneySafety(action) then nonEmergency < MAX_AUDIT_ENTRIES
    else nonEmergency < MAX_AUDIT_ENTRIES - AUDIT_SAFETY_RESERVE
  }

  predicate WorkflowCapacityAllows(used: nat, reserved: nat, newSlots: nat) {
    used + reserved + newSlots <= MAX_AUDIT_ENTRIES
  }

  function EmergencyCount(log: seq<AuditEntry>): (n: nat)
    ensures n <= |log|
  {
    if |log| == 0 then 0
    else EmergencyCount(log[..|log| - 1]) + if IsEmergency(log[|log| - 1].body.action) then 1 else 0
  }

  /** Entries that count against the ordinary and the money-safety quota. */
  function Used(log: seq<AuditEntry>): nat {
    |log| - EmergencyCount(log)
  }

  function LastHash(log: seq<AuditEntry>): Hash {
    if |log| == 0 then NoHash else log[|log| - 1].hash
  }

  function Seal(log: seq<AuditEntry>, at: int, actor: Actor, action: AuditAction, intentId: Option<Id>): AuditEntry {
    var body := AuditBody(|log| + 1, at, actor, action, intentId, LastHash(log));
    AuditEntry(body, Mac(body))
  }

  /** `Treasury::audit`: refuse on quota, otherwise extend the chain and raise the generation. */
  function Record(s: TreasuryState, actor: Actor, action: AuditAction, intentId: Option<Id>, at: int)
    : Result<TreasuryState>
  {
    if !CapacityAllows(Used(s.audit), EmergencyCount(s.audit), action) then Err(Conflict)
    else Ok(s.(generation := s.generation + 1, audit := s.audit + [Seal(s.audit, at, actor, action, intentId)]))
  }

  lemma CountsAfterAppend(log: seq<AuditEntry>, entry: AuditEntry)
    ensures EmergencyCount(log + [entry]) == EmergencyCount(log) + if IsEmergency(entry.body.action) then 1 else 0
    ensures Used(log + [entry]) == Used(log) + if IsEmergency(entry.body.action) then 0 else 1
  {
    assert (log + [entry])[..|log|] == log;
  }

  /** What `verify_audit_chain` accepts. */
  predicate ChainVerifies(log: seq<AuditEntry>) {
    forall i :: 0 <= i < |log| ==>
      && log[i].body.sequence == i + 1
      && log[i].body.previous == LastHash(log[..i])
      && log[i].hash == Mac(log[i].body)
  }

  lemma AppendKeepsChain(log: seq<AuditEntry>, at: int, actor: Actor, action: AuditAction, intentId: Option<Id>)
    requires ChainVerifies(log)
    ensures ChainVerifies(log + [Seal(log, at, actor, action, intentId)])
  {
    var longer := log + [Seal(log, at, actor, action, intentId)];
    forall i | 0 <= i < |longer|
      ensures longer[i].body.sequence == i + 1
      ensures longer[i].body.previous == LastHash(longer[..i])
      ensures longer[i].hash == Mac(longer[i].body)
    {
      assert longer[..i] == log[..i];
      if i == |log| {
        assert log[..i] == log;
      }
    }
  }

  /** The last hash alone pins the whole log: nothing in it can be edited, dropped, added or reordered. */
  lemma {:induction false} LastHashPinsLog(left: seq<AuditEntry>, right: seq<AuditEntry>)
    requires ChainVerifies(left) && ChainVerifies(right) && LastHash(left) == LastHash(right)
    ensures left == right
  {
    if |left| > 0 && |right| > 0 {
      var n := |left| - 1;
      assert left[n].body == right[|right| - 1].body;
      assert LastHash(left[..n]) == LastHash(right[..n]);
      PrefixVerifies(left, n);
      PrefixVerifies(right, n);
      LastHashPinsLog(left[..n], right[..n]);
      assert left == left[..n] + [left[n]];
      assert right == right[..n] + [right[n]];
    }
  }

  lemma PrefixVerifies(log: seq<AuditEntry>, n: nat)
    requires ChainVerifies(log) && n <= |log|
    ensures ChainVerifies(log[..n])
  {
    forall i | 0 <= i < n
      ensures log[..n][..i] == log[..i]
    {
    }
  }

  // ----- the emergency quota -----

  /** The switch is on exactly after an odd number of switch entries, and the durable bound holds. */
  ghost predicate SwitchMatchesLog(stopped: bool, log: seq<AuditEntry>) {
    && stopped == (EmergencyCount(log) % 2 == 1)
    && EmergencyCount(log) <= EMERGENCY_AUDIT_RESERVE + 1
  }
}
