/** The `ChatAssistant` component's controller: its five state variables as
    fields, and the event handlers as methods that update them step by step.
    Each handler's new state is the one the pure model in `Session` gives. */
module Chat {
  import opened Wrappers
  import opened Text
  import opened Session

  class ChatAssistant {
    var messages: seq<Message>
    var input: string
    var isTyping: bool
    var error: Option<string>
    var retryCount: nat

    /** The fields as one value. */
    function Snapshot(): State
      reads this
    {
      State(messages, input, isTyping, error, retryCount)
    }

    /** The invariant that holds between events. */
    ghost predicate Valid()
      reads this
    {
      Consistent(Snapshot())
    }

    /** The state when the view mounts: empty transcript, empty input, idle,
        no banner, no failures. */
    constructor ()
      ensures Snapshot() == Initial
      ensures Valid()
    {
      messages := [];
      input := "";
      isTyping := false;
      error := None;
      retryCount := 0;
    }

    /** The input box's change handler. */
    method SetInput(text: string)
      modifies this
      ensures Snapshot() == old(Snapshot()).(input := text)
      ensures old(Valid()) ==> Valid()
    {
      input := text;
    }

    /** The synchronous part of `handleSubmit`: the blank-input guard, then
        the user's message, the cleared input, the busy flag and the cleared
        banner. Returns the request payload, if a request is to be sent. */
    method BeginTurn() returns (request: Option<string>)
      modifies this
      ensures request == Request(old(Snapshot()))
      ensures Snapshot() == if request.Some? then Pending(old(Snapshot())) else old(Snapshot())
    {
      var blank := TrimmedIsEmpty(input);
      if blank {
        return None;
      }
      var text := input;
      messages := messages + [Message(User, text)];
      input := "";
      isTyping := true;
      error := None;
      request := Some(text);
    }

    /** The part of `handleSubmit` after the request settles: the `try`
        block's outcome (`Session.TurnResult`), then the success statements
        or the `catch` block, then the `finally` block. */
    method FinishTurn(response: Response)
      modifies this
      ensures Snapshot() == Complete(old(Snapshot()), response)
    {
      var outcome := TurnResult(response);
      match outcome {
        case Ok(reply) =>
          assert Settled(response) == Message(Assistant, reply);
          messages := messages + [Message(Assistant, reply)];
          retryCount := 0;
        case Err(detail) =>
          assert Settled(response) == Message(Error, ErrorContent(detail));
          error := Some(ErrorBanner(retryCount + 1));
          messages := messages + [Message(Error, ErrorContent(detail))];
          retryCount := retryCount + 1;
      }
      isTyping := false;
      assert messages == old(messages) + [Settled(response)];
    }

    /** `handleSubmit`, with `response` standing for the endpoint's answer to
        the request it sends. */
    method HandleSubmit(response: Response) returns (request: Option<string>)
      modifies this
      ensures request == Request(old(Snapshot()))
      ensures Snapshot() == Submit(old(Snapshot()), response)
      ensures old(Valid()) ==> Valid()
    {
      request := BeginTurn();
      if request.Some? {
        FinishTurn(response);
      }
      if old(Valid()) {
        SubmitPreservesConsistency(old(Snapshot()), response);
      }
    }

    /** `handleRetry` as intended: the last user message's content goes into
        the input box and is submitted as a new turn. */
    method HandleRetry(response: Response) returns (request: Option<string>)
      modifies this
      ensures request == RetryRequest(old(Snapshot()))
      ensures Snapshot() == Retry(old(Snapshot()), response)
      ensures old(Valid()) ==> Valid()
    {
      var last := LastUserContent(messages);
      if last.None? {
        return None;
      }
      SetInput(last.value);
      request := HandleSubmit(response);
      if old(Valid()) {
        RetryPreservesConsistency(old(Snapshot()), response);
      }
    }
  }
}
