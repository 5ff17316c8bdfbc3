/** The executor of one approved checkout, consumed by its first submission. */
module Handoff {
  import opened Results
  import opened Records
  import opened Daemon

  /** What secret store, transport and clean-up answer when they are asked. */
  datatype Answers = Answers(secret: Result<()>, transport: Result<ProviderOutcome>, cleanup: Result<()>)

  class OwnerHandoffExecutor {
    const intentId: Id
    const expected: PurchaseRequest
    var submitted: bool
    /** Intents handed to the transport so far. */
    ghost var sent: seq<Id>

    /** At most one submission ever, and only of the intent the operation is bound to. */
    ghost predicate Valid()
      reads this
    {
      sent == [] || (submitted && sent == [intentId])
    }

    constructor (operation: Id, request: PurchaseRequest)
      ensures Valid() && intentId == operation && expected == request && !submitted && sent == []
    {
      intentId, expected, submitted, sent := operation, request, false, [];
    }

    method ValidateOriginAndTotal(request: PurchaseRequest) returns (r: Result<()>)
      ensures r == if request == expected then Ok(()) else Err(Forbidden)
    {
      if request != expected {
        return Err(Forbidden);
      }
      return Ok(());
    }

    /** `submit_once`: consumed before the secret is fetched, so neither an error nor a lost answer allows another try. */
    method SubmitOnce(id: Id, request: PurchaseRequest, answers: Answers) returns (r: Result<ProviderOutcome>)
      requires Valid()
      modifies this
      ensures Valid()
      ensures submitted == (old(submitted) || (id == intentId && request == expected))
      ensures sent == old(sent) + if !old(submitted) && submitted && answers.secret.Ok? then [intentId] else []
      ensures r.Ok? <==> !old(submitted) && submitted && answers.secret.Ok? && answers.transport.Ok? && answers.cleanup.Ok?
      ensures r.Ok? ==> r == answers.transport
    {
      if submitted || id != intentId {
        return Err(Conflict);
      }
      var _ :- ValidateOriginAndTotal(request);
      submitted := true;
      var outcome := answers.transport;
      if answers.secret.Err? {
        outcome := Err(answers.secret.error);
      } else {
        sent := sent + [intentId];
      }
      if outcome.Ok? && answers.cleanup.Err? {
        return Err(Conflict);
      }
      return outcome;
    }
  }

  /** How the broker reads the executor's result. */
  function AnswerOf(r: Result<ProviderOutcome>): ExecutorAnswer {
    if r.Ok? then ExecutorOutcome(r.value) else ExecutorError
  }
}
