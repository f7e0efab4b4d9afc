# Speedy English Training: chat proxy and chat hook, modelled in Dafny

This project models the two pieces of sequential logic in a browser-based
English-tutoring chat application.

- **The `/api/chat` route** (`chat_route.dfy`, module `ChatRoute`). The route keeps
  a process-wide conversation buffer. A POST request whose body is not valid
  JSON, or is JSON `null`, lands in the catch-all and gets the 500 server-error
  reply. Any other JSON value whose `message` is not a non-empty string is
  refused with status 400. The message "start", in any letter
  case, re-initialises the buffer to the system turn. Every accepted message is
  appended as a user turn. The buffer is then sent upstream. The first returned
  choice is appended as it came, and its content is parsed into a verdict
  `{is_correct, next_question, message}`. A verdict with `is_correct === true`
  resets the buffer to the system turn. The client gets a normalised body, or a
  fixed body for a parse failure (200), no choices (200) or an exception (500).
  A non-ok upstream status is passed through with an error body. A status that
  a response cannot carry with a body (304, or one outside 200..599) makes
  building that response throw, so the catch-all answers 500 instead.
  The upstream call is an abstract `Upstream` value (`Throws`, `NotOk(status)` or
  `Ok(choices)`). Each choice carries the abstract result of parsing its content.
  `Route.Post` updates the buffer step by step, like the handler does. It is
  proved equal to the function `Handle`, and the per-request and multi-request
  properties are proved about `Handle` and its fold `Replay`.
- **The `useChat` hook** (`use_chat.dfy`, module `UseChat`). `SendMessage` appends
  the user's message, then makes up to three attempts. Each attempt is classified
  in this order: rejected, non-JSON content type, status not ok, success. After a
  failed attempt k < 3 it sleeps 1000·k ms. On success it appends one assistant
  message. Its text is the reply's message, plus the next question when the
  answer was correct. When every attempt fails it sets the error slot to the
  aggregate error. The loading flag is cleared in every case. Each `fetch` is an
  abstract `Fetch` value, and sleeping only appends to the ghost log `delays`.
  The method's loop is proved against the recursive specification `Retry`.
- **The two together** (`round_trip.dfy`, module `RoundTrip`). This module shows
  what the hook makes of each response of the route. It also shows that the
  hook's retries re-post the message, and every post records the user turn again.

The conversation buffer is sometimes described as always being empty or led by
the system turn. The code does not keep that invariant. On a fresh process, a
first message other than "start" whose answer is not judged correct leaves a
buffer led by the user turn (`FirstRequestWithoutStart`). The model follows the code. What does hold is that
a buffer once led by the system turn stays so (`SystemLedStays`).

`String.prototype.toLowerCase` is modelled on ASCII letters only. For the
comparison with "start" this is exact. No other character lower-cases to one of
the letters s, t, a or r, and the only character whose lower case is two
characters (U+0130) becomes "i" plus a combining dot.

## Model

| member | source | states |
|---|---|---|
| `ChatRoute.StartSpellings` | app/api/chat/route.ts:81 | a message is the "start" command exactly when it has five characters, each the lower- or upper-case letter of "start" at that place |
| `ChatRoute.StartIgnoresCase` | app/api/chat/route.ts:81 | two messages that differ only in letter case are both the "start" command or both not |
| `ChatRoute.MessageOf` | app/api/chat/route.ts:72-78 | a request is accepted exactly when its body is readable and its `message` is a non-empty string, and then that string is the message |
| `ChatRoute.Handle` | app/api/chat/route.ts:60-212 | a refused request leaves the buffer unchanged; an accepted one keeps its (possibly bootstrapped) user turn unless the buffer is reset to the system turn, and adds at most one turn after it; reply bodies come only with status 200 or 500; every response's status can carry a body |
| `ChatRoute.Get` | app/api/chat/route.ts:215-220 | GET answers 200 with the fixed readiness notice |
| `ChatRoute.Route.constructor` | app/api/chat/route.ts:43 | the buffer starts empty |
| `ChatRoute.Route.Post` | app/api/chat/route.ts:60-212 | updating the buffer in place (reassign on "start", push the user turn, push the first choice, reassign on a correct verdict, fall back to the catch-all when a pass-through status cannot carry a body) gives exactly the response and buffer of `Handle` |
| `ChatRoute.RefusedMessage` | app/api/chat/route.ts:72-78 | a missing, non-string or empty message gives 400 `{error: 'Message is required'}` and leaves the buffer unchanged |
| `ChatRoute.UnreadableBody` | app/api/chat/route.ts:61-68 | a body that is not valid JSON, is `null`, or whose message cannot be logged lands in the catch-all: 500 with the server-error reply, buffer unchanged |
| `ChatRoute.StartReinitialises` | app/api/chat/route.ts:81-89 | "start" in any case discards the buffer, which then begins with the system turn followed by the user turn; it is the system turn alone exactly when the answer is judged correct |
| `ChatRoute.OtherMessageAppends` | app/api/chat/route.ts:81-89 | any other message is appended after the existing buffer, whose entries are unchanged; only an answer judged correct leaves the system turn alone instead |
| `ChatRoute.UpstreamRefusal` | app/api/chat/route.ts:130-137 | a non-ok upstream status that a response can carry is returned as the response status with the upstream-failure error body; any other status (304, or outside 200..599) makes that response throw and gives the 500 server-error reply; either way the user turn is not rolled back |
| `ChatRoute.UpstreamThrows` | app/api/chat/route.ts:204-211 | an exception after the user turn is recorded gives 500 with the fixed server-error reply and keeps the user turn |
| `ChatRoute.NoChoices` | app/api/chat/route.ts:197-203 | no choices gives 200 with the fixed no-response reply and no change beyond the user turn |
| `ChatRoute.FirstChoiceRecorded` | app/api/chat/route.ts:155-178 | with choices, exactly one turn with the first choice's role and raw content is appended whether or not it parses; the buffer ends as the system turn alone exactly when `is_correct === true` |
| `ChatRoute.ParsedAnswer` | app/api/chat/route.ts:181-185 | a parsed answer is returned with status 200 as `{is_correct, next_question or '', message or ''}` |
| `ChatRoute.UnparsedAnswer` | app/api/chat/route.ts:186-194 | content that does not parse gives 200 with `is_correct: false`, an empty next question and the fixed parse-error text, and the unparsed turn stays in the buffer |
| `ChatRoute.FirstRequestWithoutStart` | app/api/chat/route.ts:43-89 | on an empty buffer, a first message other than "start" whose answer is not judged correct leaves a buffer led by the user turn, not the system turn: no system-turn-first invariant holds |
| `ChatRoute.GrowthWithoutReset` | app/api/chat/route.ts:89-160 | over any run of requests without "start" or a correct verdict, the buffer only grows: each request appends its user turn and, when the model answered, exactly one more turn |
| `ChatRoute.SystemLedStays` | app/api/chat/route.ts:81-178 | once the buffer is led by the system turn, every later sequence of requests keeps it led by the system turn |
| `UseChat.Classify` | hooks/useChat.ts:65-80 | an attempt succeeds exactly when it got a response whose content type mentions `application/json` and whose status is ok; a non-JSON content type fails with the fixed text whatever the status; a JSON non-ok response fails with the body's message or the default text; a rejection fails with its own message |
| `UseChat.Retry` | hooks/useChat.ts:38-93 | at most three attempts; every attempt before the last one failed; the result is the last attempt's; only the third attempt may end in failure; the delays are 1000·k for each failed attempt k before the last |
| `UseChat.AssistantContent` | hooks/useChat.ts:101-107 | the assistant text starts with the reply's message, and is longer exactly when the answer is correct, the rest being "\n\nNext question: " and the next question |
| `UseChat.Chat.constructor` | hooks/useChat.ts:14-16 | the hook starts with an empty log, no error, not loading |
| `UseChat.Chat.Sleep` | hooks/useChat.ts:11 | sleeping records its delay and changes nothing else |
| `UseChat.Chat.SendMessage` | hooks/useChat.ts:18-115 | the user message is appended first; then exactly one assistant message when an attempt succeeds, otherwise the aggregate error; `isLoading` ends false; the delays slept are those of `Retry` |
| `UseChat.Chat.StartLearning` | hooks/useChat.ts:118-120 | starting a lesson is sending "Start" |
| `UseChat.Chat.ClearMessages` | hooks/useChat.ts:123-126 | the log becomes empty and the error slot null; the loading flag and delays are untouched |
| `UseChat.ClearTwice` | hooks/useChat.ts:123-126 | clearing twice leaves the same state as clearing once |
| `UseChat.FirstSuccessStops` | hooks/useChat.ts:38-80 | if attempt k succeeds after k-1 failures, exactly k attempts run, the reply is attempt k's, and the delays are 1000, ..., 1000·(k-1) |
| `UseChat.AllAttemptsFail` | hooks/useChat.ts:86-98 | three failures give three attempts, delays exactly [1000, 2000], and the error "3回リトライしましたが失敗しました: " followed by the third failure's message |
| `UseChat.BackoffIsLinear` | hooks/useChat.ts:86-91 | the i-th delay is 1000·(i+1), and there is one delay fewer than attempts, so no delay follows the final attempt |
| `UseChat.SuccessOnThirdAttempt` | hooks/useChat.ts:38-107 | two failures then a success give three attempts, delays [1000, 2000], and exactly one assistant message after the user's |
| `RoundTrip.RefusalSeenAsApiError` | hooks/useChat.ts:71-74 | the route's 400 refusal has no `message` field, so the hook fails that attempt with the default API error text |
| `RoundTrip.ServerErrorSeenAsFailure` | hooks/useChat.ts:71-74 | the route's 500 reply to an upstream exception fails the attempt with the route's server-error text |
| `RoundTrip.UpstreamStatusSeenAsFailure` | hooks/useChat.ts:71-74 | a non-ok upstream status fails the attempt: with the default API error text when the route passes it through (its `{error}` body has no `message`), with the server-error text when the route answers 500 instead |
| `RoundTrip.ReplySeenAsSuccess` | hooks/useChat.ts:65-80 | a route reply with status 200 passes all three checks of an attempt and is shown as its message, plus the next question when `is_correct` is true |
| `RoundTrip.AnswerSeenAsReply` | hooks/useChat.ts:101-107 | whenever the upstream answered, the route replies 200 with a reply body (the parse-error and no-response ones included), which the hook shows as the message plus the next question when `is_correct` is true |
| `RoundTrip.StartLearningBootstraps` | hooks/useChat.ts:118-120 | the "Start" that `startLearning` sends is the route's bootstrap command |
| `RoundTrip.FailedAttemptsRepeatUserTurn` | app/api/chat/route.ts:89 | for a message other than "start", when every upstream exchange fails, each retry of the hook appends the same user turn again, and the hook sees every attempt fail |
| `RoundTrip.ThreeServerErrors` | hooks/useChat.ts:38-98 | for a message other than "start", three upstream exceptions leave three copies of the user turn in the buffer and the aggregate error carrying the server-error text in the hook |

## Left out

- Upstream statuses. A non-ok upstream response is `NotOk(status)` for any status outside 200..299. Its body text is read and logged only; a failure to read it is part of `Throws`.
- Network I/O: the upstream `fetch`, its headers, bearer credential, model name and temperature, and the hook's `fetch` with its cache flags. They become the abstract `Upstream` and `Fetch` values.
- `request.json()`, `response.json()`, `response.text()` and `JSON.parse` are library parsing. They become abstract outcomes. A request body that is not valid JSON, or is JSON `null`, is `Unreadable`. So is one whose `message` is an object that the request log line (app/api/chat/route.ts:68) cannot convert to a string: that throws before validation and takes the 500 path with the buffer unchanged. A JSON value that is not an object has no `message` field and gets 400. A parse of a choice's content is `ParseFail` or `Parsed` with optional fields. A body read that rejects on the hook's side is a `Rejected` fetch.
- All console logging and the token-usage diagnostics. The exceptions they can raise after the user turn is recorded (a missing `usage`, a `substring` on non-string content) are part of `Throws`. The one the request log line can raise before validation is part of `Unreadable`.
- The wording of the system prompt. It is an opaque constant.
- Message ids, timestamps, and real waiting. `sleep` only records its delay.
- React state mechanics. The setters are modelled as plain field updates in program order.
- Concurrent requests sharing the route's buffer. Only sequential requests are modelled.
- Non-boolean `is_correct` values and non-string `next_question`/`message` values in the parsed answer. The verdict's fields are typed as optional booleans and strings.
- A JSON `null` success body on the hook's side, and a success body without `message` (rendered "undefined" by the template). The route never sends either.
- The UI components, the page, the shared type declarations and the build configuration are not part of this model.
- Chat.SendMessage: takes exactly three `Fetch` values, one for each attempt the loop may make. The ones after the first success are never consulted.
