# Chat session controller

A model of the conversation controller of the `ChatAssistant` page
(`app/chat/page.tsx`): the five pieces of React state it keeps (transcript,
input box, busy flag, error banner, count of consecutive failed attempts),
the submit handler with its request lifecycle and its reply-extraction
chain, and the retry handler.

The project has six modules:

- `Wrappers` (`wrappers.dfy`) holds `Option`, and `Result` for code that may throw.
- `Text` (`text.dfy`) models JavaScript's `String.prototype.trim`, used by
  the blank-input guard. It also renders non-negative integers in decimal,
  for status codes and attempt numbers.
- `Json` (`json.dfy`) models the parsed response body. It also defines
  JavaScript truthiness, property access (which throws on `null`) and
  `JSON.stringify`.
- `Reply` (`reply.dfy`) models the extraction chain. First it picks a
  value: the first array element, or the body itself. Then it takes
  `saída`, else `output`, else the serialisation. A reference reading sits
  beside it: "the first non-empty of an ordered list of candidate texts".
  A lemma proves the two agree.
- `Session` (`session.dfy`) is the controller as a pure state machine over
  a `State` value. It also holds the idle-state invariant `Consistent` and
  the lemmas about submit and retry.
- `Chat` (`chat.dfy`) is the class `ChatAssistant`. Its fields are the five
  state variables. Its handlers change those fields step by step, and each
  is proved to reach the state the pure model gives.

The network is not called. The endpoint's answer is a `Response` parameter
of the submit and retry handlers. It is either a response with a status and
a body, or a transport failure carrying its message. The body is either a
parsed JSON value or the message of the error `response.json()` throws. The
handlers return the request payload they send, if any.

Two consequences of the extraction chain:

- An `{}` body is a reply, not a failure: in the code,
  `data.saída || data.output || JSON.stringify(data)` yields the non-empty
  text `{}` (`Session.EmptyObjectTurn`).
- More generally, extraction never yields an empty string
  (`Reply.Extract`), so the "Resposta vazia do servidor" branch can never
  fire (`Session.EmptyReplyCheckNeverFires`).

## Model

| member | source | states |
|---|---|---|
| `Text.TrimStart` | app/chat/page.tsx:34 | the result is a suffix of the input, everything dropped is whitespace, and it does not start with whitespace |
| `Text.TrimEnd` | app/chat/page.tsx:34 | the result is a prefix of the input, everything dropped is whitespace, and it does not end with whitespace |
| `Text.Trim` | app/chat/page.tsx:34 | `input.trim()` leaves no whitespace at either edge, is empty (so `!input.trim()` holds) exactly when every character of the input is JavaScript whitespace, and keeps a text without edge whitespace unchanged |
| `Text.TrimIdempotent` | app/chat/page.tsx:34 | trimming twice is trimming once |
| `Text.TrimmedIsEmpty` | app/chat/page.tsx:34 | the guard's test answers whether the input is all whitespace |
| `Text.NatToString` | app/chat/page.tsx:52 | a status code or attempt number renders as a non-empty string of decimal digits without a leading zero |
| `Text.DigitsRoundTrip` | app/chat/page.tsx:74 | reading the decimal rendering back gives the number again |
| `Text.NatToStringInjective` | app/chat/page.tsx:74 | distinct numbers render differently |
| `Json.Truthy` | app/chat/page.tsx:61 | the falsy values among parsed JSON are exactly `null`, `false`, `0` and `""`, and every array and object is truthy, as the logical-or chain tests them |
| `Json.Property` | app/chat/page.tsx:59-61 | a field read throws exactly on `null`, with the message naming the field, and a value it finds is bound to that key in an object |
| `Json.Lookup` | app/chat/page.tsx:61 | a field read finds the last binding of the key, and finds nothing exactly when the key is absent |
| `Json.Stringify` | app/chat/page.tsx:63 | `JSON.stringify` of a parsed value is never empty, and its first character tells a string, array, object or null apart |
| `Json.EmptyContainers` | app/chat/page.tsx:61 | an empty array serialises to `[]` and an empty object to `{}` |
| `Reply.AsText` | app/chat/page.tsx:61 | a truthy field value contributes non-empty text |
| `Reply.ReplyFrom` | app/chat/page.tsx:59-61 | the chain `saída`, then `output`, then `JSON.stringify(t)` throws exactly when `t` is `null`, with the TypeError of reading `saída`, and otherwise yields non-empty text |
| `Reply.Target` | app/chat/page.tsx:58-60 | the chain is applied to the body itself or to the first element of a non-empty array body, which is a proper part of it; a body that is not an array is used as it is |
| `Reply.Extract` | app/chat/page.tsx:58-64 | extraction throws exactly when the body is an array whose first element is `null` (the TypeError of reading `saída`), and otherwise yields non-empty text |
| `Reply.FirstNonEmpty` | app/chat/page.tsx:61 | the reference chain picks the first non-empty candidate, all before it being empty, and picks none only when all are empty |
| `Reply.ExtractIsFirstNonEmptyCandidate` | app/chat/page.tsx:58-64 | extraction equals the first non-empty of `saída`, `output` and the serialisation of the chosen value, unless the first array element is `null` |
| `Reply.OnlyFirstElementMatters` | app/chat/page.tsx:58-59 | for an array body, elements after the first never affect the reply |
| `Reply.ArrayDelegatesToFirst` | app/chat/page.tsx:58-61 | an array whose first element is an object replies as that object alone would |
| `Reply.SaidaComesFirst` | app/chat/page.tsx:61 | a non-empty `saída` string is the reply, whatever `output` holds |
| `Reply.OutputComesSecond` | app/chat/page.tsx:61 | with `saída` missing or falsy (including `""`), a non-empty `output` string is the reply |
| `Reply.SerialisedWhenNoField` | app/chat/page.tsx:59-61 | with neither field giving text, the chosen object or array replies with its serialisation, `{}` for an empty object and `[]` for an empty array |
| `Reply.PrimitiveSerialised` | app/chat/page.tsx:62-63 | a primitive body (`null` included) replies with its serialisation |
| `Session.IsSuccessStatus` | app/chat/page.tsx:51 | `response.ok` holds exactly for the 2xx statuses |
| `Session.HttpErrorDetail` | app/chat/page.tsx:52 | the HTTP error message is `Erro HTTP! status: ` followed by digits from which the status reads back |
| `Session.ErrorBanner` | app/chat/page.tsx:74 | the banner is the fixed prefix, then digits from which the attempt number reads back, then `)` |
| `Session.ErrorContent` | app/chat/page.tsx:77 | the error entry's text is the apology followed by the failure's message, unchanged |
| `Session.TurnResult` | app/chat/page.tsx:42-68 | a successful request's reply is never empty |
| `Session.TurnResultCases` | app/chat/page.tsx:42-68 | a request succeeds exactly on a 2xx status with a parsed body whose extraction does not throw. A non-2xx status fails with `Erro HTTP! status: N` whatever the body. A 2xx body that `response.json()` cannot parse fails with the parser's message. A transport failure fails with its own message |
| `Session.EmptyReplyCheckNeverFires` | app/chat/page.tsx:66-68 | on a parsed 2xx body the empty-reply check changes nothing: the extraction alone decides the outcome |
| `Session.Request` | app/chat/page.tsx:34-48 | a request is sent exactly when the input is not all whitespace, and its payload is the raw, untrimmed input |
| `Session.Settled` | app/chat/page.tsx:66-79 | the entry a settled request appends is an assistant message carrying the non-empty reply exactly when the request succeeded, and otherwise an error entry whose text carries the thrown message after the apology |
| `Session.Pending` | app/chat/page.tsx:36-40 | before the request the user's raw text is appended after the untouched transcript, the input is cleared, the busy flag raised and the banner cleared, and the count is kept |
| `Session.CompleteSettles` | app/chat/page.tsx:70-83 | once the request settles, exactly the `Session.Settled` entry is appended, any input typed meanwhile is kept and the busy flag lowered. The count is zero exactly after a reply. A reply keeps the banner; a failure raises the count by one and shows the banner naming the new count |
| `Session.Submit` | app/chat/page.tsx:32-84 | a blank input changes nothing. Otherwise the old transcript is kept, then come the user's raw text and exactly one more entry, the input is cleared and the busy flag lowered. On success that entry is the reply, the count is reset to 0 and there is no banner. On failure it is the error entry carrying the detail, the count rises by one and the banner names attempt count+1 |
| `Session.LastUserContent` | app/chat/page.tsx:87 | the content of the last user-role message, with no user message after it, or nothing exactly when there is no user message |
| `Session.InitialConsistent` | app/chat/page.tsx:19-23 | the mounted state satisfies the idle invariant |
| `Session.TypingPreservesConsistency` | app/chat/page.tsx:198 | editing the input keeps the invariant |
| `Session.TrailingFailuresOfTurn` | app/chat/page.tsx:70-80 | a turn that ends in a reply resets the count of failures since the last reply; one that ends in an error raises it by one |
| `Session.TurnAppended` | app/chat/page.tsx:37-79 | appending a user message and its reply or error entry keeps the transcript a list of such turns |
| `Session.SubmitPreservesConsistency` | app/chat/page.tsx:32-84 | after every submit the controller is idle, and the transcript is a list of turns, each a non-blank user message then a non-empty reply or an error entry. The count equals the number of failures since the last reply, and the banner is shown exactly when that count is positive and names it |
| `Session.Retry` | app/chat/page.tsx:86-91 | with no user message nothing changes (also `Session.RetryWithoutUserMessage`). When it sends a request, the transcript grows by a user message carrying exactly the text sent, then the settled entry; when it sends none, the transcript is unchanged (`Session.RetryResubmitsLastUser`, `Session.RetryPreservesConsistency`) |
| `Session.RetryRequest` | app/chat/page.tsx:87-91 | the intended retry sends the last user message's content, and only when that content is not blank |
| `Session.RetryAsWritten` | app/chat/page.tsx:86-91 | as written, a retry that sends a request appends the stale input box's text, not the last user message, and then the settled entry; one that sends none leaves the transcript unchanged. With a user message present and a blank box, it only refills the box with the last user message's content (`Session.RetryAsWrittenDropsTurn`, `Session.RetryAsWrittenAfterFailure`) |
| `Session.RetryAsWrittenRequest` | app/chat/page.tsx:86-91 | as written, a retry sends the stale input box's text, and sends nothing exactly when there is no user message or the box is blank |
| `Session.RetryWithoutUserMessage` | app/chat/page.tsx:87-88 | with no user message in the transcript, a retry changes nothing and sends nothing |
| `Session.RetryTargetExists` | app/chat/page.tsx:86-88 | in an idle, consistent state a retry has a message to resubmit exactly when the transcript is not empty |
| `Session.RetryResubmitsLastUser` | app/chat/page.tsx:86-91 | a retry sends the last user message's content again and appends a new user message with it and then the settled entry, leaving the earlier entries untouched |
| `Session.RetryPreservesConsistency` | app/chat/page.tsx:86-91 | a retry keeps the invariant |
| `Session.RetryAsWrittenDropsTurn` | app/chat/page.tsx:86-91 | as written, a retry with a blank input box appends and sends nothing, although the intended retry would append a new turn |
| `Session.LastUserOfTurn` | app/chat/page.tsx:87 | after a turn, the last user message is that turn's |
| `Session.RetryAsWrittenAfterFailure` | app/chat/page.tsx:86-91 | right after a failed submit, the retry as written sends nothing, while the intended retry resends the failed text |
| `Session.BannerNamesAttempt` | app/chat/page.tsx:74 | distinct attempt numbers give distinct banners |
| `Session.ConsecutiveFailures` | app/chat/page.tsx:74-80 | two failures in a row raise the count by one each, each banner naming its own attempt, the second differing from the first |
| `Session.Status500Detail` | app/chat/page.tsx:52 | status 500 gives the detail `Erro HTTP! status: 500` |
| `Session.FirstAttemptBanner` | app/chat/page.tsx:74 | the first failure's banner ends in `(Tentativa 1)` |
| `Session.OutputReply` | app/chat/page.tsx:61-68 | a 200 response with body `{"output": "Oi!"}` yields the reply `Oi!` |
| `Session.EmptyObjectReply` | app/chat/page.tsx:61-68 | a 200 response with body `{}` yields the reply `{}` |
| `Session.OutputReplyTurn` | app/chat/page.tsx:61-71 | submitting `Olá` against `{"output": "Oi!"}` from the mounted state gives user `Olá`, assistant `Oi!`, count 0 |
| `Session.Http500Turn` | app/chat/page.tsx:51-80 | submitting `teste` against status 500 gives user `teste`, an error entry with the status detail, count 1 and the `Tentativa 1` banner |
| `Session.EmptyObjectTurn` | app/chat/page.tsx:61-71 | submitting `x` against `{}` gives an assistant reply `{}` and count 0 |
| `Chat.ChatAssistant.constructor` | app/chat/page.tsx:19-23 | the component mounts with an empty transcript, empty input, not busy, no banner, count 0 |
| `Chat.ChatAssistant.SetInput` | app/chat/page.tsx:198 | the input box's change handler replaces the input and nothing else |
| `Chat.ChatAssistant.BeginTurn` | app/chat/page.tsx:34-40 | with a blank input nothing changes and no request is made. Otherwise the user's raw text is appended, the input cleared, the busy flag raised and the banner cleared before the request, whose payload is that text |
| `Chat.ChatAssistant.FinishTurn` | app/chat/page.tsx:42-83 | the try/catch/finally after the request appends the `Session.Settled` entry and lowers the busy flag; after a reply it resets the count and keeps the banner, after a failure it sets the banner for attempt count+1 and increments the count, as `Session.Complete` states |
| `Chat.ChatAssistant.HandleSubmit` | app/chat/page.tsx:32-84 | the handler sends the request `Session.Request` gives and reaches the state `Session.Submit` gives; it keeps the invariant |
| `Chat.ChatAssistant.HandleRetry` | app/chat/page.tsx:86-92 | the handler resubmits the last user message as `Session.Retry` describes; it keeps the invariant |

## Findings

| source | as written | input that shows it | evidently intended | confidence | as-written member | corrected member |
|---|---|---|---|---|---|---|
| app/chat/page.tsx:86-91 | `handleRetry` calls `setInput(last)` and then `handleSubmit`. The submit handler reads the `input` captured at the last render, not the value just scheduled | submit `teste` and get any failure. The input box is now empty. Press retry: nothing is appended, no request is sent, and the box is only refilled with `teste` | a new user message `teste` is appended and `teste` is sent again | high; not executed | `Session.RetryAsWrittenAfterFailure` (on `Session.RetryAsWritten`) | `Session.RetryResubmitsLastUser` (on `Session.Retry`, used by `Chat.ChatAssistant.HandleRetry`) |

## Left out

- Rendering, animation and styling (app/chat/page.tsx:94-220) and the auto-scroll effect (app/chat/page.tsx:26-30): presentation only.
- The `fetch` call itself, its URL, headers and JSON request encoding, the parsing done by `response.json()`, and `console.error` (app/chat/page.tsx:43-49, 55, 73) are I/O. The endpoint's answer and the parser's outcome are the `Response` and `Body` parameters.
- React's asynchronous state updates and stale closures in general. Events are modelled one after another, each running to completion, with no interleaving during the `await`. Only the retry handler's stale read is modelled, in the as-written reading.
- The busy gate: it lives only in the submit button's `disabled` attribute (app/chat/page.tsx:205). `handleSubmit` does not check `isTyping`, so `Chat.ChatAssistant.HandleSubmit` has no precondition on it either.
- Json.Value: numbers are unbounded integers only, whereas JavaScript numbers are doubles. An integer above 2^53 loses precision when `response.json()` parses it, and one of 10^21 or more is written with an exponent (`1e+21`). `Json.Stringify` and `Reply.AsText` write every digit instead. Fractions, exponents in the body and the rest of JavaScript's number formatting are not modelled.
- Json.Stringify: object members are written in the order they appear in the body. JavaScript writes integer-like keys first. A key repeated in the body is written once per binding, whereas `JSON.parse` keeps only the last one.
- Json.NullAccessMessage: uses the V8 wording of the TypeError thrown when reading a field of `null`. Other engines word it differently.
- Reply.AsText: a truthy `saída` or `output` value that is not a string (a number, `true`, an array, an object) is modelled as its serialised text. JavaScript would store the raw value as the message content. React would then render a number as its decimal text, which agrees for integers. It renders `true` as nothing, and throws when rendering an object.
- The `system` role exists in the `Message` type (app/chat/page.tsx:14), but the controller never creates such a message.
- components/chat-header.tsx is static markup and is not part of this model.
