/** The chat session controller as a pure state machine: the five pieces of
    state of the `ChatAssistant` component, and what `handleSubmit` and
    `handleRetry` do to them for a given answer of the endpoint. */
module Session {
  import opened Wrappers
  import opened Text
  import opened Json
  import opened Reply

  datatype Role = User | Assistant | Error | System

  /** One transcript entry. */
  datatype Message = Message(role: Role, content: string)

  /** What `response.json()` gives: the parsed body, or the message of the
      error it throws on a body that is not JSON. */
  datatype Body = Parsed(data: Value) | Unparsable(message: string)

  /** The endpoint's answer to one request: a response with its status and
      body, or the message of the error `fetch` rejects with. */
  datatype Response = Received(status: nat, body: Body) | NetworkFailure(message: string)

  /** The component's state: transcript, input box, busy flag, error banner
      and count of consecutive failed attempts. */
  datatype State = State(
    messages: seq<Message>,
    input: string,
    isTyping: bool,
    error: Option<string>,
    retryCount: nat)

  /** The state when the view mounts. */
  const Initial: State := State([], "", false, None, 0)

  const EmptyReplyDetail: string := "Resposta vazia do servidor"

  const HttpErrorPrefix: string := "Erro HTTP! status: "

  /** The message thrown for a failure status; the status can be read back
      from its decimal tail. */
  function HttpErrorDetail(status: nat): (r: string)
    ensures |r| > |HttpErrorPrefix| && r[..|HttpErrorPrefix|] == HttpErrorPrefix
    ensures IsDigits(r[|HttpErrorPrefix|..]) && DigitsValue(r[|HttpErrorPrefix|..]) == status
  {
    DigitsRoundTrip(status);
    HttpErrorPrefix + NatToString(status)
  }

  const BannerPrefix: string := "Ocorreu um erro ao processar sua solicitação. (Tentativa "

  /** The banner shown after a failed attempt, numbered from 1; the attempt
      number can be read back from between the prefix and the closing
      parenthesis. */
  function ErrorBanner(attempt: nat): (r: string)
    ensures |r| > |BannerPrefix| + 1 && r[..|BannerPrefix|] == BannerPrefix && r[|r| - 1] == ')'
    ensures IsDigits(r[|BannerPrefix|..|r| - 1]) && DigitsValue(r[|BannerPrefix|..|r| - 1]) == attempt
  {
    DigitsRoundTrip(attempt);
    var r := BannerPrefix + NatToString(attempt) + ")";
    assert r[|BannerPrefix|..|r| - 1] == NatToString(attempt);
    r
  }

  const ErrorContentPrefix: string := "Desculpe, houve um erro ao processar sua solicitação. Detalhes do erro: "

  /** The content of the error-role transcript entry for a failure: the
      apology, then the failure's message unchanged. */
  function ErrorContent(detail: string): (r: string)
    ensures |r| == |ErrorContentPrefix| + |detail|
    ensures forall i | 0 <= i < |ErrorContentPrefix| :: r[i] == ErrorContentPrefix[i]
    ensures forall i | 0 <= i < |detail| :: r[|ErrorContentPrefix| + i] == detail[i]
  {
    ErrorContentPrefix + detail
  }

  /** `response.ok`: the status is in the 2xx class. */
  predicate IsSuccessStatus(status: nat)
    ensures IsSuccessStatus(status) <==> status / 100 == 2
  {
    200 <= status <= 299
  }

  /** What the `try` block of `handleSubmit` ends with: the reply text, or the
      message of the error it threw. A reply is never empty. */
  function TurnResult(response: Response): (r: Result<string>)
    ensures r.Ok? ==> r.value != ""
  {
    match response
    case NetworkFailure(m) => Err(m)
    case Received(status, body) =>
      if !IsSuccessStatus(status) then Err(HttpErrorDetail(status))
      else
        match body
        case Unparsable(m) => Err(m)
        case Parsed(data) =>
          match Extract(data)
          case Err(m) => Err(m)
          case Ok(reply) => if reply == "" then Err(EmptyReplyDetail) else Ok(reply)
  }

  /** A request succeeds exactly on a 2xx status with a parsed body whose
      extraction does not throw; a failure status is an HTTP error whatever
      the body, and a transport failure keeps its own message. */
  lemma TurnResultCases(response: Response)
    ensures TurnResult(response).Ok? <==>
              response.Received? && IsSuccessStatus(response.status) &&
              response.body.Parsed? && Extract(response.body.data).Ok?
    ensures response.Received? && !IsSuccessStatus(response.status) ==>
              TurnResult(response) == Err(HttpErrorDetail(response.status))
    ensures response.Received? && IsSuccessStatus(response.status) && response.body.Unparsable? ==>
              TurnResult(response) == Err(response.body.message)
    ensures response.NetworkFailure? ==> TurnResult(response) == Err(response.message)
  {
  }

  /** The empty-reply check never changes the outcome of a parsed success
      response: the extraction alone decides it. */
  lemma EmptyReplyCheckNeverFires(status: nat, data: Value)
    requires IsSuccessStatus(status)
    ensures TurnResult(Received(status, Parsed(data))) == Extract(data)
  {
  }

  /** The request a submit issues: the raw, untrimmed input, or none when the
      input is blank. */
  function Request(s: State): (r: Option<string>)
    ensures r.Some? ==> r.value == s.input && !IsBlank(r.value)
    ensures r.None? <==> Trim(s.input) == ""
  {
    if IsBlank(s.input) then None else Some(s.input)
  }

  /** The state while the request is in flight: the user's message appended,
      the input cleared, the busy flag raised and the banner cleared. */
  function Pending(s: State): (r: State)
    ensures r.messages == s.messages + [Message(User, s.input)]
    ensures r.input == "" && r.isTyping && r.error == None && r.retryCount == s.retryCount
  {
    State(s.messages + [Message(User, s.input)], "", true, None, s.retryCount)
  }

  /** The transcript entry a settled request appends: the reply, or an error
      entry carrying the thrown message. */
  function Settled(response: Response): (m: Message)
    ensures m.role == Assistant <==> TurnResult(response).Ok?
    ensures m.role == Error <==> TurnResult(response).Err?
    ensures m.role == Assistant ==> m.content == TurnResult(response).value && m.content != ""
    ensures m.role == Error ==> m.content == ErrorContent(TurnResult(response).message)
  {
    match TurnResult(response)
    case Ok(reply) => Message(Assistant, reply)
    case Err(detail) => Message(Error, ErrorContent(detail))
  }

  /** The state once the request has settled: the entry is appended and the
      busy flag lowered. After a reply the count is reset; after a failure the
      banner is numbered with the pre-increment count plus one and the count
      is incremented. */
  function Complete(s: State, response: Response): State
  {
    var ok := TurnResult(response).Ok?;
    State(s.messages + [Settled(response)], s.input, false,
          if ok then s.error else Some(ErrorBanner(s.retryCount + 1)),
          if ok then 0 else s.retryCount + 1)
  }

  /** What settling does: exactly one entry is appended after the untouched
      transcript, any input typed meanwhile is kept and the busy flag is
      lowered. The count is zero exactly after a reply; a reply keeps the
      banner as it was, and a failure raises the count by one and shows the
      banner naming the new count. */
  lemma CompleteSettles(s: State, response: Response)
    ensures var r := Complete(s, response);
            && r.messages == s.messages + [Settled(response)]
            && r.input == s.input && !r.isTyping
            && (r.retryCount == 0 <==> TurnResult(response).Ok?)
            && (TurnResult(response).Ok? ==> r.error == s.error)
            && (TurnResult(response).Err? ==>
                  r.retryCount == s.retryCount + 1 && r.error == Some(ErrorBanner(r.retryCount)))
  {
  }

  /** `handleSubmit`: a blank input changes nothing. Otherwise the transcript
      grows by the user's raw text and then by exactly one settled entry,
      nothing before them changes, the input is cleared and the controller is
      idle again. The count is reset by a reply and incremented by a failure,
      and only a failure leaves a banner, naming the attempt just made. */
  function Submit(s: State, response: Response): (r: State)
    ensures IsBlank(s.input) ==> r == s
    ensures !IsBlank(s.input) ==>
              && r.messages == s.messages + [Message(User, s.input)] + [Settled(response)]
              && r.input == ""
              && !r.isTyping
              && r.retryCount == (if TurnResult(response).Ok? then 0 else s.retryCount + 1)
              && r.error == (if TurnResult(response).Ok? then None else Some(ErrorBanner(s.retryCount + 1)))
  {
    if IsBlank(s.input) then s else Complete(Pending(s), response)
  }

  /** `messages.findLast(msg => msg.role === 'user')`, by its content. */
  function LastUserContent(messages: seq<Message>): (r: Option<string>)
    ensures r.None? <==> forall i | 0 <= i < |messages| :: messages[i].role != User
    ensures r.Some? ==> exists i | 0 <= i < |messages| ::
                          messages[i] == Message(User, r.value) &&
                          forall j | i < j < |messages| :: messages[j].role != User
  {
    if messages == [] then None
    else if messages[|messages| - 1].role == User then Some(messages[|messages| - 1].content)
    else LastUserContent(messages[..|messages| - 1])
  }

  /** `handleRetry` as intended: with no user message it does nothing;
      otherwise it puts the last user message's content in the input box and
      submits it. */
  function Retry(s: State, response: Response): (r: State)
    ensures LastUserContent(s.messages).None? ==> r == s
    ensures RetryRequest(s).None? ==> r.messages == s.messages
    ensures RetryRequest(s).Some? ==>
              r.messages == s.messages + [Message(User, RetryRequest(s).value)] + [Settled(response)]
  {
    match LastUserContent(s.messages)
    case None => s
    case Some(c) => Submit(s.(input := c), response)
  }

  /** With no user message in the transcript, a retry changes nothing and
      sends nothing. */
  lemma RetryWithoutUserMessage(s: State, response: Response)
    requires forall i | 0 <= i < |s.messages| :: s.messages[i].role != User
    ensures Retry(s, response) == s && RetryRequest(s) == None
  {
  }

  /** The request `Retry` issues. */
  function RetryRequest(s: State): (r: Option<string>)
    ensures r.Some? ==> r == LastUserContent(s.messages) && !IsBlank(r.value)
    ensures r.None? <==> LastUserContent(s.messages).None? || IsBlank(LastUserContent(s.messages).value)
  {
    match LastUserContent(s.messages)
    case None => None
    case Some(c) => Request(s.(input := c))
  }

  /** `handleRetry` as written: `setInput` only schedules the new input, and
      the `handleSubmit` it calls reads the input captured when the component
      last rendered. So it submits the old input, and when that is blank it
      only fills the input box. */
  function RetryAsWritten(s: State, response: Response): (r: State)
    ensures RetryAsWrittenRequest(s).Some? ==>
              r.messages == s.messages + [Message(User, s.input)] + [Settled(response)]
    ensures RetryAsWrittenRequest(s).None? ==> r.messages == s.messages
    ensures LastUserContent(s.messages).Some? && IsBlank(s.input) ==>
              r == s.(input := LastUserContent(s.messages).value)
  {
    match LastUserContent(s.messages)
    case None => s
    case Some(c) => if IsBlank(s.input) then s.(input := c) else Submit(s, response)
  }

  /** The request `RetryAsWritten` issues. */
  function RetryAsWrittenRequest(s: State): (r: Option<string>)
    ensures r.Some? ==> r.value == s.input && LastUserContent(s.messages).Some?
    ensures r.None? <==> LastUserContent(s.messages).None? || IsBlank(s.input)
  {
    match LastUserContent(s.messages)
    case None => None
    case Some(_) => Request(s)
  }

  // ---------------------------------------------------------------------
  // The invariant of the idle controller.

  /** The transcript is a list of turns: a non-blank user message followed
      by a non-empty assistant reply or an error entry. */
  predicate IsTurns(m: seq<Message>)
  {
    && |m| % 2 == 0
    && forall i | 0 <= i < |m| ::
         if i % 2 == 0 then m[i].role == User && !IsBlank(m[i].content)
         else (m[i].role == Assistant && m[i].content != "") || m[i].role == Error
  }

  /** The number of error entries since the last assistant reply. */
  function TrailingFailures(m: seq<Message>): nat
  {
    if m == [] then 0
    else match m[|m| - 1].role
      case Assistant => 0
      case Error => TrailingFailures(m[..|m| - 1]) + 1
      case _ => TrailingFailures(m[..|m| - 1])
  }

  /** Between events: not busy, the transcript is a list of turns, the count
      is the number of failures since the last reply, and the banner is shown
      exactly when that count is positive and names it. */
  predicate Consistent(s: State)
  {
    && !s.isTyping
    && IsTurns(s.messages)
    && s.retryCount == TrailingFailures(s.messages)
    && s.error == (if s.retryCount == 0 then None else Some(ErrorBanner(s.retryCount)))
  }

  lemma InitialConsistent()
    ensures Consistent(Initial)
  {
  }

  /** Typing leaves the invariant intact. */
  lemma TypingPreservesConsistency(s: State, text: string)
    requires Consistent(s)
    ensures Consistent(s.(input := text))
  {
  }

  lemma TrailingFailuresOfTurn(m: seq<Message>, u: Message, x: Message)
    requires u.role == User && x.role != User
    ensures TrailingFailures(m + [u] + [x]) ==
            match x.role
            case Assistant => 0
            case Error => TrailingFailures(m) + 1
            case _ => TrailingFailures(m)
  {
    assert (m + [u] + [x])[..|m| + 1] == m + [u];
    assert (m + [u])[..|m|] == m;
  }

  /** Appending one turn to a list of turns gives a list of turns. */
  lemma TurnAppended(m: seq<Message>, u: Message, x: Message)
    requires IsTurns(m)
    requires u.role == User && !IsBlank(u.content)
    requires (x.role == Assistant && x.content != "") || x.role == Error
    ensures IsTurns(m + [u] + [x])
  {
    var n := m + [u] + [x];
    forall i | 0 <= i < |n|
      ensures if i % 2 == 0 then n[i].role == User && !IsBlank(n[i].content)
              else (n[i].role == Assistant && n[i].content != "") || n[i].role == Error
    {
      if i < |m| {
        assert n[i] == m[i];
      }
    }
  }

  /** A submit, accepted or not, keeps the invariant. */
  lemma SubmitPreservesConsistency(s: State, response: Response)
    requires Consistent(s)
    ensures Consistent(Submit(s, response))
  {
    if !IsBlank(s.input) {
      var u := Message(User, s.input);
      var x := Settled(response);
      TrailingFailuresOfTurn(s.messages, u, x);
      TurnAppended(s.messages, u, x);
    }
  }

  /** In a consistent state there is a user message to retry exactly when
      the transcript is not empty. */
  lemma RetryTargetExists(s: State)
    requires Consistent(s)
    ensures LastUserContent(s.messages).None? <==> s.messages == []
  {
    if s.messages != [] {
      assert s.messages[0].role == User;
    }
  }

  /** The last user message of a consistent transcript is never blank, so
      a retry always resubmits it: the request carries its content, and the
      transcript grows by a new user message with that content and the
      settled entry, the earlier entries untouched. */
  lemma RetryResubmitsLastUser(s: State, response: Response)
    requires Consistent(s)
    requires LastUserContent(s.messages).Some?
    ensures var c := LastUserContent(s.messages).value;
            && RetryRequest(s) == Some(c)
            && Retry(s, response).messages == s.messages + [Message(User, c)] + [Settled(response)]
  {
    var c := LastUserContent(s.messages).value;
    var i :| 0 <= i < |s.messages| && s.messages[i] == Message(User, c);
    assert i % 2 == 0;
  }

  /** A retry keeps the invariant. */
  lemma RetryPreservesConsistency(s: State, response: Response)
    requires Consistent(s)
    ensures Consistent(Retry(s, response))
  {
    var last := LastUserContent(s.messages);
    if last.Some? {
      TypingPreservesConsistency(s, last.value);
      SubmitPreservesConsistency(s.(input := last.value), response);
    }
  }

  /** As written, a retry with a blank input box appends nothing and sends
      nothing, although a user message is there to resubmit; the intended
      retry appends a new user message. */
  lemma RetryAsWrittenDropsTurn(s: State, response: Response)
    requires Consistent(s)
    requires s.messages != [] && IsBlank(s.input)
    ensures RetryAsWritten(s, response).messages == s.messages
    ensures RetryAsWrittenRequest(s) == None
    ensures RetryRequest(s).Some?
    ensures |Retry(s, response).messages| == |s.messages| + 2
  {
    RetryTargetExists(s);
    RetryResubmitsLastUser(s, response);
  }

  /** The last user message of a transcript that ends in a turn is that
      turn's. */
  lemma LastUserOfTurn(m: seq<Message>, u: Message, x: Message)
    requires u.role == User && x.role != User
    ensures LastUserContent(m + [u] + [x]) == Some(u.content)
  {
    assert (m + [u] + [x])[..|m| + 1] == m + [u];
  }

  /** Right after a failed submit the input box is empty, so the retry
      button, as written, never resubmits the failed message; the intended
      retry resends it. */
  lemma RetryAsWrittenAfterFailure(s: State, first: Response, second: Response)
    requires !IsBlank(s.input)
    requires TurnResult(first).Err?
    ensures var f := Submit(s, first);
            && RetryAsWritten(f, second).messages == f.messages
            && RetryAsWrittenRequest(f) == None
            && RetryRequest(f) == Some(s.input)
  {
    LastUserOfTurn(s.messages, Message(User, s.input), Settled(first));
  }

  /** Distinct attempt numbers give distinct banners: the banner names the
      attempt. */
  lemma BannerNamesAttempt(m: nat, n: nat)
    ensures ErrorBanner(m) == ErrorBanner(n) ==> m == n
  {
    if ErrorBanner(m) == ErrorBanner(n) {
      var a, b := NatToString(m), NatToString(n);
      assert a == ErrorBanner(m)[|BannerPrefix|..|ErrorBanner(m)| - 1];
      assert b == ErrorBanner(n)[|BannerPrefix|..|ErrorBanner(n)| - 1];
      NatToStringInjective(m, n);
    }
  }

  /** Consecutive failures count up one at a time, each banner naming the
      attempt just made. */
  lemma ConsecutiveFailures(s: State, first: Response, second: Response, text: string)
    requires Consistent(s) && !IsBlank(s.input) && !IsBlank(text)
    requires TurnResult(first).Err? && TurnResult(second).Err?
    ensures var f := Submit(s, first);
            var g := Submit(f.(input := text), second);
            && f.retryCount == s.retryCount + 1
            && g.retryCount == s.retryCount + 2
            && f.error == Some(ErrorBanner(s.retryCount + 1))
            && g.error == Some(ErrorBanner(s.retryCount + 2))
            && g.error != f.error
  {
    BannerNamesAttempt(s.retryCount + 1, s.retryCount + 2);
  }

  // ---------------------------------------------------------------------
  // Three worked turns: a reply under `output`, an HTTP 500, and an empty
  // object body.

  lemma OutputReply()
    ensures TurnResult(Received(200, Parsed(Obj([("output", Str("Oi!"))])))) == Ok("Oi!")
  {
    OutputComesSecond([("output", Str("Oi!"))], "Oi!");
    EmptyReplyCheckNeverFires(200, Obj([("output", Str("Oi!"))]));
  }

  lemma OutputReplyTurn()
    ensures Submit(Initial.(input := "Olá"), Received(200, Parsed(Obj([("output", Str("Oi!"))]))))
            == State([Message(User, "Olá"), Message(Assistant, "Oi!")], "", false, None, 0)
  {
    var r := Submit(Initial.(input := "Olá"), Received(200, Parsed(Obj([("output", Str("Oi!"))]))));
    assert !IsBlank("Olá") by { assert !IsWhitespace("Olá"[0]); }
    OutputReply();
    assert r.messages == [r.messages[0], r.messages[1]];
  }

  lemma Status500Detail()
    ensures HttpErrorDetail(500) == "Erro HTTP! status: 500"
  {
    assert NatToString(5) == "5";
    assert NatToString(50) == "50";
  }

  lemma FirstAttemptBanner()
    ensures ErrorBanner(1) == "Ocorreu um erro ao processar sua solicitação. (Tentativa 1)"
  {
  }

  lemma Http500Turn()
    ensures Submit(Initial.(input := "teste"), Received(500, Parsed(Null)))
            == State([Message(User, "teste"),
                      Message(Error, ErrorContent("Erro HTTP! status: 500"))],
                     "", false,
                     Some("Ocorreu um erro ao processar sua solicitação. (Tentativa 1)"), 1)
  {
    var s := Initial.(input := "teste");
    var r := Submit(s, Received(500, Parsed(Null)));
    assert !IsBlank("teste") by { assert !IsWhitespace("teste"[0]); }
    Status500Detail();
    FirstAttemptBanner();
    assert r.messages == [r.messages[0], r.messages[1]];
  }

  lemma EmptyObjectReply()
    ensures TurnResult(Received(200, Parsed(Obj([])))) == Ok("{}")
  {
    SerialisedWhenNoField(Obj([]));
    EmptyReplyCheckNeverFires(200, Obj([]));
  }

  /** An empty object body is a reply whose text is `{}`, not a failure. */
  lemma EmptyObjectTurn()
    ensures Submit(Initial.(input := "x"), Received(200, Parsed(Obj([]))))
            == State([Message(User, "x"), Message(Assistant, "{}")], "", false, None, 0)
  {
    var r := Submit(Initial.(input := "x"), Received(200, Parsed(Obj([]))));
    assert !IsBlank("x") by { assert !IsWhitespace("x"[0]); }
    EmptyObjectReply();
    assert r.messages == [r.messages[0], r.messages[1]];
  }
}
