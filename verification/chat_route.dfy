/**
 * The tutoring proxy's `/api/chat` route.
 *
 * A process-wide conversation buffer persists across POST requests. Each request
 * may re-initialise it ("start"), always records the user's turn, forwards the
 * buffer upstream, records the first choice the model returns, and resets the
 * buffer to the system turn when the model judges the user's answer correct.
 * The upstream call is replaced by an abstract outcome value, and so is the
 * JSON parse of the model's answer.
 */
module ChatRoute {
  import opened Opt

  /** One entry of the conversation buffer: a role tag and its text. */
  datatype Turn = Turn(role: string, content: string)

  const SystemRole := "system"
  const UserRole := "user"

  /** The fixed tutoring instruction; its wording plays no part in the route's logic. */
  const SystemPrompt := "<fixed tutoring instruction>"
  const SystemTurn := Turn(SystemRole, SystemPrompt)

  function UserTurn(message: string): Turn { Turn(UserRole, message) }

  const MessageRequired := "Message is required"
  const UpstreamFailed := "Failed to get response from DeepSeek API"
  const ParseErrorText := "エラー: AIの応答を解析できませんでした。もう一度試してください。"
  const NoResponseText := "エラー: AIから応答がありませんでした。もう一度試してください。"
  const ServerErrorText := "サーバーエラーが発生しました。しばらくしてからもう一度お試しください。"
  const ReadyText := "English learning API is ready. Send a POST request to start learning."

  /** The `message` field of the request body. */
  datatype MessageField = Absent | NotText | Text(value: string)

  /**
   * The request body. `Unreadable` is every body that reaches the catch-all
   * before validation: one that is not valid JSON, JSON `null` (destructuring it
   * throws), or one whose `message` is an object that the request log line cannot
   * convert to a string. Any other JSON value gives its `message` field, which is
   * `Absent` for a value that is not an object.
   */
  datatype Request = Unreadable | Json(message: MessageField)

  /** The model's answer after JSON parsing; every field may be missing. */
  datatype Verdict = Verdict(isCorrect: Option<bool>, nextQuestion: Option<string>, message: Option<string>)

  /** What parsing a choice's content produced. */
  datatype Parse = ParseFail | Parsed(verdict: Verdict)

  /** One completion choice: the message's role and raw content, and what parsing that content gives. */
  datatype Choice = Choice(role: string, content: string, parsed: Parse)

  /**
   * What the upstream exchange produced. `Throws` is any exception between the
   * user turn being recorded and the choices being inspected (the fetch itself,
   * reading the envelope, the usage log lines). A missing choices list is `Ok([])`.
   */
  datatype Upstream = Throws | NotOk(status: ErrorStatus) | Ok(choices: seq<Choice>)

  /** A status for which `fetch` reports `ok` as false: anything outside 200..299. */
  type ErrorStatus = s: int | !(200 <= s < 300) witness 500

  /**
   * A status the web `Response` constructor accepts together with a body. It
   * throws for a status outside 200..599 and for the null-body statuses
   * 101, 103, 204, 205 and 304.
   */
  predicate CarriesBody(status: int)
  {
    200 <= status <= 599 && status != 204 && status != 205 && status != 304
  }

  /** JSON response bodies: `{error}`, `{is_correct, next_question, message}`, or `{message}`. */
  datatype Body =
    | ErrorBody(error: string)
    | Reply(isCorrect: Option<bool>, nextQuestion: string, message: string)
    | Notice(message: string)

  datatype Response = Response(status: int, body: Body)

  /** The response to a request together with the conversation buffer it leaves behind. */
  datatype Step = Step(response: Response, history: seq<Turn>)

  const ServerFailure := Response(500, Reply(Some(false), "", ServerErrorText))
  const UnparsableAnswer := Response(200, Reply(Some(false), "", ParseErrorText))
  const NoAnswer := Response(200, Reply(Some(false), "", NoResponseText))

  // ---------------------------------------------------------------------------
  // Message recognition
  // ---------------------------------------------------------------------------

  /** Lower-cases an ASCII letter and leaves every other character alone. */
  function LowerAscii(c: char): char
  {
    if 'A' <= c <= 'Z' then (c as int + 32) as char else c
  }

  function ToLower(s: string): string
  {
    seq(|s|, i requires 0 <= i < |s| => LowerAscii(s[i]))
  }

  /** The session bootstrap command: the message lower-cases to "start". */
  predicate IsStart(message: string)
  {
    ToLower(message) == "start"
  }

  /** Two messages that differ only in letter case are both "start" or both not. */
  lemma StartIgnoresCase(s: string, t: string)
    requires |s| == |t|
    requires forall i :: 0 <= i < |s| ==> LowerAscii(s[i]) == LowerAscii(t[i])
    ensures IsStart(s) <==> IsStart(t)
  {
    assert ToLower(s) == ToLower(t);
  }

  /** The "start" command is exactly five characters, each the lower- or upper-case letter of "start". */
  lemma StartSpellings(message: string)
    ensures IsStart(message) <==>
              |message| == 5 &&
              forall i :: 0 <= i < 5 ==> message[i] == "start"[i] || message[i] == "START"[i]
  {
    if |message| == 5 {
      forall i | 0 <= i < 5
        ensures LowerAscii(message[i]) == "start"[i] <==> message[i] == "start"[i] || message[i] == "START"[i]
      {
      }
      if forall i :: 0 <= i < 5 ==> LowerAscii(message[i]) == "start"[i] {
        assert ToLower(message) == "start";
      }
    }
  }

  /** The message a request carries, if it is a non-empty string. */
  function MessageOf(request: Request): (m: Option<string>)
    ensures m.Some? <==> request.Json? && request.message.Text? && request.message.value != ""
    ensures m.Some? ==> m.value == request.message.value
  {
    match request
    case Json(Text(s)) => if s == "" then None else Some(s)
    case _ => None
  }

  /** The buffer once a message has been accepted: bootstrapped on "start", then extended by the user turn. */
  function Admit(h: seq<Turn>, message: string): seq<Turn>
  {
    (if IsStart(message) then [SystemTurn] else h) + [UserTurn(message)]
  }

  /** The client-facing body for a parsed answer: missing texts become "". */
  function Normalise(v: Verdict): Body
  {
    Reply(v.isCorrect, OrEmpty(v.nextQuestion), OrEmpty(v.message))
  }

  /** The model judged the answer correct: `is_correct === true`, nothing weaker. */
  predicate IsCorrect(c: Choice)
  {
    c.parsed.Parsed? && c.parsed.verdict.isCorrect == Some(true)
  }

  // ---------------------------------------------------------------------------
  // One POST request
  // ---------------------------------------------------------------------------

  /**
   * The response to one POST request and the buffer it leaves, given the buffer
   * before it. A refused request changes nothing; an accepted one never loses its
   * user turn except by a reset to the system turn, and adds at most one turn
   * after it. Every response it gives has a status that can carry a body.
   */
  function Handle(h: seq<Turn>, request: Request, upstream: Upstream): (s: Step)
    ensures MessageOf(request).None? ==> s.history == h
    ensures MessageOf(request).Some? ==>
              var admitted := Admit(h, MessageOf(request).value);
              (s.history == [SystemTurn] || admitted <= s.history) && |s.history| <= |admitted| + 1
    ensures s.response.body.Reply? ==> s.response.status in {200, 500}
    ensures CarriesBody(s.response.status)
  {
    match request
    case Unreadable => Step(ServerFailure, h)
    case Json(field) =>
      if !field.Text? || field.value == "" then
        Step(Response(400, ErrorBody(MessageRequired)), h)
      else
        var admitted := Admit(h, field.value);
        match upstream
        case Throws => Step(ServerFailure, admitted)
        case NotOk(status) =>
          // Building the pass-through response throws for a status it cannot carry a body with.
          if CarriesBody(status) then Step(Response(status, ErrorBody(UpstreamFailed)), admitted)
          else Step(ServerFailure, admitted)
        case Ok(choices) =>
          if |choices| == 0 then
            Step(NoAnswer, admitted)
          else
            var first := choices[0];
            var answered := admitted + [Turn(first.role, first.content)];
            match first.parsed
            case ParseFail => Step(UnparsableAnswer, answered)
            case Parsed(v) =>
              Step(Response(200, Normalise(v)), if v.isCorrect == Some(true) then [SystemTurn] else answered)
  }

  /** The readiness notice served to GET requests. */
  function Get(): (r: Response)
    ensures r.status == 200 && r.body.Notice? && r.body.message == ReadyText
  {
    Response(200, Notice(ReadyText))
  }

  /** The route's module-level state: the conversation buffer shared by every request. */
  class Route {
    var history: seq<Turn>

    /** A fresh process starts with an empty buffer. */
    constructor ()
      ensures history == []
    {
      history := [];
    }

    /** Handles one POST request, updating the buffer step by step. */
    method Post(request: Request, upstream: Upstream) returns (response: Response)
      modifies this
      ensures Step(response, history) == Handle(old(history), request, upstream)
    {
      if request.Unreadable? {
        return ServerFailure;
      }
      var field := request.message;
      if !field.Text? || field.value == "" {
        return Response(400, ErrorBody(MessageRequired));
      }
      var message := field.value;
      if IsStart(message) {
        history := [SystemTurn];
      }
      history := history + [UserTurn(message)];
      match upstream {
        case Throws =>
          return ServerFailure;
        case NotOk(status) =>
          if !CarriesBody(status) {
            // the response cannot be built with this status; the catch-all answers
            return ServerFailure;
          }
          return Response(status, ErrorBody(UpstreamFailed));
        case Ok(choices) =>
          if |choices| > 0 {
            var first := choices[0];
            history := history + [Turn(first.role, first.content)];
            match first.parsed {
              case ParseFail =>
                return UnparsableAnswer;
              case Parsed(verdict) =>
                if verdict.isCorrect == Some(true) {
                  history := [SystemTurn];
                }
                return Response(200, Normalise(verdict));
            }
          }
          return NoAnswer;
      }
    }
  }

  // ---------------------------------------------------------------------------
  // Properties of one request
  // ---------------------------------------------------------------------------

  /** A missing, non-string or empty message is refused with 400 and leaves the buffer alone. */
  lemma RefusedMessage(h: seq<Turn>, field: MessageField, upstream: Upstream)
    requires !field.Text? || field.value == ""
    ensures Handle(h, Json(field), upstream) == Step(Response(400, ErrorBody(MessageRequired)), h)
  {
  }

  /** A body that cannot be read lands in the catch-all: 500, buffer unchanged. */
  lemma UnreadableBody(h: seq<Turn>, upstream: Upstream)
    ensures Handle(h, Unreadable, upstream) == Step(ServerFailure, h)
  {
  }

  /** The upstream answered and its first choice judges the user's answer correct. */
  predicate CorrectAnswer(upstream: Upstream)
  {
    upstream.Ok? && |upstream.choices| > 0 && IsCorrect(upstream.choices[0])
  }

  /**
   * "start" in any letter case discards the buffer: it restarts as the system
   * turn then the user turn, unless the answer is judged correct, which leaves
   * the system turn alone.
   */
  lemma StartReinitialises(h: seq<Turn>, message: string, upstream: Upstream)
    requires message != "" && IsStart(message)
    ensures var s := Handle(h, Json(Text(message)), upstream);
            && (CorrectAnswer(upstream) ==> s.history == [SystemTurn])
            && (!CorrectAnswer(upstream) ==> [SystemTurn, UserTurn(message)] <= s.history)
  {
  }

  /**
   * Any other message is appended after the existing buffer, whose entries stay
   * as they were, unless the answer is judged correct, which leaves the system
   * turn alone.
   */
  lemma OtherMessageAppends(h: seq<Turn>, message: string, upstream: Upstream)
    requires message != "" && !IsStart(message)
    ensures var s := Handle(h, Json(Text(message)), upstream);
            && (CorrectAnswer(upstream) ==> s.history == [SystemTurn])
            && (!CorrectAnswer(upstream) ==> h + [UserTurn(message)] <= s.history)
  {
  }

  /**
   * A non-ok upstream status is passed through with an error body when a
   * response can carry it (4xx, 5xx, and 3xx other than 304); otherwise building
   * that response throws and the catch-all answers 500. Either way the user turn
   * is not rolled back.
   */
  lemma UpstreamRefusal(h: seq<Turn>, message: string, status: ErrorStatus)
    requires message != ""
    ensures var s := Handle(h, Json(Text(message)), NotOk(status));
            && s.history == Admit(h, message)
            && (CarriesBody(status) ==> s.response == Response(status, ErrorBody(UpstreamFailed)))
            && (!CarriesBody(status) ==> s.response == ServerFailure)
  {
  }

  /** Any exception after the user turn is recorded gives 500 and keeps that turn. */
  lemma UpstreamThrows(h: seq<Turn>, message: string)
    requires message != ""
    ensures Handle(h, Json(Text(message)), Throws) == Step(ServerFailure, Admit(h, message))
  {
  }

  /** An empty choices list gives the fixed "no response" reply and adds nothing after the user turn. */
  lemma NoChoices(h: seq<Turn>, message: string)
    requires message != ""
    ensures Handle(h, Json(Text(message)), Ok([])) == Step(NoAnswer, Admit(h, message))
  {
  }

  /**
   * With at least one choice, exactly one turn with the first choice's role and
   * raw content is appended, whether or not it parses, unless the answer is judged
   * correct, in which case, and only then, the buffer becomes the system turn alone.
   */
  lemma FirstChoiceRecorded(h: seq<Turn>, message: string, choices: seq<Choice>)
    requires message != "" && |choices| > 0
    ensures var s := Handle(h, Json(Text(message)), Ok(choices));
            && (!IsCorrect(choices[0]) ==>
                  s.history == Admit(h, message) + [Turn(choices[0].role, choices[0].content)])
            && (s.history == [SystemTurn] <==> IsCorrect(choices[0]))
  {
  }

  /** A parsed answer is passed on with status 200, missing texts replaced by "". */
  lemma ParsedAnswer(h: seq<Turn>, message: string, choices: seq<Choice>)
    requires message != "" && |choices| > 0 && choices[0].parsed.Parsed?
    ensures var v := choices[0].parsed.verdict;
            Handle(h, Json(Text(message)), Ok(choices)).response
            == Response(200, Reply(v.isCorrect, OrEmpty(v.nextQuestion), OrEmpty(v.message)))
  {
  }

  /** Content that does not parse gives the fixed parse-error reply with status 200; the raw turn stays. */
  lemma UnparsedAnswer(h: seq<Turn>, message: string, choices: seq<Choice>)
    requires message != "" && |choices| > 0 && choices[0].parsed.ParseFail?
    ensures Handle(h, Json(Text(message)), Ok(choices))
            == Step(UnparsableAnswer, Admit(h, message) + [Turn(choices[0].role, choices[0].content)])
  {
  }

  // ---------------------------------------------------------------------------
  // Sequences of requests
  // ---------------------------------------------------------------------------

  /** One request together with what its upstream exchange produced. */
  datatype Exchange = Exchange(request: Request, upstream: Upstream)

  /** The buffer left by a run of requests handled one after another. */
  function Replay(h: seq<Turn>, xs: seq<Exchange>): seq<Turn>
    decreases |xs|
  {
    if xs == [] then h else Replay(Handle(h, xs[0].request, xs[0].upstream).history, xs[1..])
  }

  /** The exchange discards the buffer: a "start" message, or an answer judged correct. */
  predicate Resets(x: Exchange)
  {
    MessageOf(x.request).Some? && (IsStart(MessageOf(x.request).value) || CorrectAnswer(x.upstream))
  }

  /** The turns an exchange that does not reset adds: its user turn, then the model's turn if there is one. */
  function TurnsAdded(x: Exchange): seq<Turn>
  {
    match MessageOf(x.request)
    case None => []
    case Some(m) =>
      [UserTurn(m)] +
      (if x.upstream.Ok? && |x.upstream.choices| > 0
       then [Turn(x.upstream.choices[0].role, x.upstream.choices[0].content)]
       else [])
  }

  function AllTurnsAdded(xs: seq<Exchange>): seq<Turn>
    decreases |xs|
  {
    if xs == [] then [] else TurnsAdded(xs[0]) + AllTurnsAdded(xs[1..])
  }

  /**
   * The buffer does not always start with the system turn: on a fresh process a
   * first message other than "start", whose answer is not judged correct, leaves
   * a buffer led by the user turn.
   */
  lemma FirstRequestWithoutStart(message: string, upstream: Upstream)
    requires message != "" && !Resets(Exchange(Json(Text(message)), upstream))
    ensures var s := Handle([], Json(Text(message)), upstream);
            |s.history| > 0 && s.history[0] == UserTurn(message) && s.history[0] != SystemTurn
  {
  }

  /** One request that does not reset appends exactly its added turns. */
  lemma StepWithoutReset(h: seq<Turn>, x: Exchange)
    requires !Resets(x)
    ensures Handle(h, x.request, x.upstream).history == h + TurnsAdded(x)
    ensures |TurnsAdded(x)| <= 2
  {
  }

  /**
   * Without a reset, the buffer only grows: each request adds its user turn and,
   * when the model answered, exactly one more turn, after everything before it.
   */
  lemma {:induction false} GrowthWithoutReset(h: seq<Turn>, xs: seq<Exchange>)
    requires forall i :: 0 <= i < |xs| ==> !Resets(xs[i])
    ensures Replay(h, xs) == h + AllTurnsAdded(xs)
    ensures |Replay(h, xs)| <= |h| + 2 * |xs|
    decreases |xs|
  {
    if xs != [] {
      var x := xs[0];
      StepWithoutReset(h, x);
      var h' := h + TurnsAdded(x);
      assert Replay(h, xs) == Replay(h', xs[1..]);
      GrowthWithoutReset(h', xs[1..]);
      assert AllTurnsAdded(xs) == TurnsAdded(x) + AllTurnsAdded(xs[1..]);
      assert h' + AllTurnsAdded(xs[1..]) == h + AllTurnsAdded(xs);
    }
  }

  /** Once the buffer is led by the system turn, every later request keeps it that way. */
  lemma {:induction false} SystemLedStays(h: seq<Turn>, xs: seq<Exchange>)
    requires |h| > 0 && h[0] == SystemTurn
    ensures |Replay(h, xs)| > 0 && Replay(h, xs)[0] == SystemTurn
    decreases |xs|
  {
    if xs != [] {
      var h' := Handle(h, xs[0].request, xs[0].upstream).history;
      assert |h'| > 0 && h'[0] == SystemTurn by {
        match MessageOf(xs[0].request)
        case None =>
        case Some(m) =>
          var admitted := Admit(h, m);
          assert admitted[0] == SystemTurn;
      }
      SystemLedStays(h', xs[1..]);
    }
  }
}
