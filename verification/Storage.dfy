/** What may be written to disk, and what a save can leave there. */
module Storage {
  import opened Results
  import opened Records
  import opened AuditLog

  predicate AgentStored(s: TreasuryState, id: Id)
    requires id in s.agents
  {
    var agent := s.agents[id];
    && agent.policyId in s.policies
    && agent.sessionExpiresAt <= agent.expiresAt
    && |agent.approvedMerchants| <= MAX_AGENT_APPROVED_MERCHANTS
  }

  predicate IntentStored(s: TreasuryState, id: Id)
    requires id in s.intents
  {
    var x := s.intents[id];
    && x.agentId in s.agents
    && 0 < x.request.amount.minor && 0 < x.request.finalTotal.minor
    && (x.receipt.Some? ==> x.receipt.value.intentId == id)
    && (x.receipt.None? ==> !x.state.Spent())
  }

  /** `validate_state`, for what the model keeps of the state. */
  predicate ValidState(s: TreasuryState) {
    && Used(s.audit) <= MAX_AUDIT_ENTRIES
    && EmergencyCount(s.audit) <= EMERGENCY_AUDIT_RESERVE + 1
    && |s.intents| <= MAX_INTENTS && |s.agents| <= MAX_AGENTS
    && (forall p :: p in s.policies ==> s.policies[p].Valid())
    && (forall a :: a in s.agents ==> AgentStored(s, a))
    && (forall i :: i in s.intents ==> IntentStored(s, i))
    && (forall e :: e in s.ledger && e.intentId.Some? ==> e.intentId.value in s.intents)
    && (s.mode.Simulated? ==> 0 <= s.provider.balance.minor)
    && (s.mode.ManualPrepaidCard? ==> s.manual.Some?)
  }

  /** Both `save_to` and `load_from` insist on this. */
  predicate Loadable(s: TreasuryState) {
    ValidState(s) && ChainVerifies(s.audit)
  }

  /** A save may fail before the rename, or after it: then the new image may or may not survive a crash. */
  datatype SaveFault = Durable | LostBeforeRename | TornAfterRename

  /** The images a later load may find. */
  datatype SaveResult = SaveResult(disk: set<TreasuryState>, ok: bool)

  function Save(s: TreasuryState, disk: set<TreasuryState>, fault: SaveFault): SaveResult {
    if !Loadable(s) then SaveResult(disk, false)
    else
      match fault
      case Durable => SaveResult({s}, true)
      case LostBeforeRename => SaveResult(disk, false)
      case TornAfterRename => SaveResult(disk + {s}, false)
  }
}
