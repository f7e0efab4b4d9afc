/**
 * The hook and the route together: what the hook makes of each response the
 * route sends, and what the hook's retries do to the route's buffer.
 */
module RoundTrip {
  import opened Opt
  import opened ChatRoute
  import UseChat

  /** A route body as the hook reads it: `{error}` has no `message`, and only `is_correct: true` is truthy. */
  function BodyOf(b: Body): UseChat.ReplyBody
  {
    match b
    case ErrorBody(_) => UseChat.ReplyBody(false, "", "")
    case Reply(isCorrect, nextQuestion, message) => UseChat.ReplyBody(isCorrect == Some(true), nextQuestion, message)
    case Notice(message) => UseChat.ReplyBody(false, "", message)
  }

  /** A route response as one `fetch` of the hook receives it. */
  function Deliver(r: Response): UseChat.Fetch
  {
    UseChat.Responded(200 <= r.status < 300, Some(UseChat.JsonMediaType), BodyOf(r.body))
  }

  /** A message the route refuses fails on the hook's side with the default API error text. */
  lemma RefusalSeenAsApiError(h: seq<Turn>, field: MessageField, upstream: Upstream)
    requires !field.Text? || field.value == ""
    ensures UseChat.Classify(Deliver(Handle(h, Json(field), upstream).response)) == UseChat.Failure(UseChat.ApiErrorText)
  {
    assert UseChat.IsJson(Some(UseChat.JsonMediaType));
  }

  /** An exception upstream is a failed attempt for the hook, carrying the route's server-error text. */
  lemma ServerErrorSeenAsFailure(h: seq<Turn>, message: string)
    requires message != ""
    ensures UseChat.Classify(Deliver(Handle(h, Json(Text(message)), Throws).response))
            == UseChat.Failure(ServerErrorText)
  {
    assert UseChat.IsJson(Some(UseChat.JsonMediaType));
  }

  /**
   * A non-ok upstream status is a failed attempt for the hook: with the default
   * API error text when the route passes the status through, and with the
   * server-error text when the route could not build that response.
   */
  lemma UpstreamStatusSeenAsFailure(h: seq<Turn>, message: string, status: ErrorStatus)
    requires message != ""
    ensures UseChat.Classify(Deliver(Handle(h, Json(Text(message)), NotOk(status)).response))
            == UseChat.Failure(if CarriesBody(status) then UseChat.ApiErrorText else ServerErrorText)
  {
    assert UseChat.IsJson(Some(UseChat.JsonMediaType));
  }

  /** A reply body with status 200 is a success for the hook, shown as its message plus the next question when correct. */
  lemma ReplySeenAsSuccess(r: Response)
    requires r.status == 200 && r.body.Reply?
    ensures UseChat.Classify(Deliver(r)).Success?
    ensures UseChat.AssistantContent(UseChat.Classify(Deliver(r)).data)
            == r.body.message + (if r.body.isCorrect == Some(true) then UseChat.NextQuestionLabel + r.body.nextQuestion else "")
  {
    assert UseChat.IsJson(Some(UseChat.JsonMediaType));
  }

  /**
   * Every reply of the route to an upstream answer, including the parse-error
   * and no-response ones, is a success for the hook; a correct verdict shows
   * its next question.
   */
  lemma AnswerSeenAsReply(h: seq<Turn>, message: string, choices: seq<Choice>)
    requires message != ""
    ensures var r := Handle(h, Json(Text(message)), Ok(choices)).response;
            r.status == 200 && r.body.Reply? &&
            UseChat.Classify(Deliver(r)).Success? &&
            UseChat.AssistantContent(UseChat.Classify(Deliver(r)).data)
            == r.body.message + (if r.body.isCorrect == Some(true) then UseChat.NextQuestionLabel + r.body.nextQuestion else "")
  {
    var r := Handle(h, Json(Text(message)), Ok(choices)).response;
    if |choices| == 0 {
      NoChoices(h, message);
    } else if choices[0].parsed.ParseFail? {
      UnparsedAnswer(h, message, choices);
    } else {
      ParsedAnswer(h, message, choices);
    }
    ReplySeenAsSuccess(r);
  }

  /** `startLearning` sends "Start", which the route recognises as the bootstrap command. */
  lemma StartLearningBootstraps()
    ensures IsStart("Start")
  {
    assert ToLower("Start") == "start";
  }

  /**
   * The route's side of one send: each attempt the hook makes is a POST of the
   * same message; the hook stops posting after the first attempt it sees succeed.
   * Gives the buffer afterwards and what each attempt received.
   */
  function Serve(h: seq<Turn>, message: string, upstreams: seq<Upstream>): (seq<Turn>, seq<UseChat.Fetch>)
    decreases |upstreams|
  {
    if upstreams == [] then (h, [])
    else
      var s := Handle(h, Json(Text(message)), upstreams[0]);
      var f := Deliver(s.response);
      if UseChat.Classify(f).Success? then (s.history, [f])
      else
        var rest := Serve(s.history, message, upstreams[1..]);
        (rest.0, [f] + rest.1)
  }

  /**
   * Retrying does not undo anything on the route's side: when every upstream
   * exchange fails, each attempt leaves one more copy of the user's turn in the
   * buffer, and the hook sees one failure per attempt.
   */
  lemma {:induction false} FailedAttemptsRepeatUserTurn(h: seq<Turn>, message: string, upstreams: seq<Upstream>)
    requires message != "" && !IsStart(message)
    requires forall i :: 0 <= i < |upstreams| ==>
               upstreams[i].Throws? || upstreams[i].NotOk?
    ensures Serve(h, message, upstreams).0 == h + seq(|upstreams|, _ => UserTurn(message))
    ensures |Serve(h, message, upstreams).1| == |upstreams|
    ensures forall i :: 0 <= i < |upstreams| ==> UseChat.Classify(Serve(h, message, upstreams).1[i]).Failure?
    decreases |upstreams|
  {
    if upstreams != [] {
      var s := Handle(h, Json(Text(message)), upstreams[0]);
      if upstreams[0].Throws? {
        ServerErrorSeenAsFailure(h, message);
      } else {
        UpstreamStatusSeenAsFailure(h, message, upstreams[0].status);
      }
      assert s.history == h + [UserTurn(message)];
      FailedAttemptsRepeatUserTurn(s.history, message, upstreams[1..]);
      assert h + [UserTurn(message)] + seq(|upstreams| - 1, _ => UserTurn(message))
             == h + seq(|upstreams|, _ => UserTurn(message));
    }
  }

  /**
   * A send whose three upstream exchanges all throw: the buffer gains the user's
   * turn three times, and the hook reports the aggregate error carrying the
   * route's server-error text.
   */
  lemma ThreeServerErrors(h: seq<Turn>, message: string)
    requires message != "" && !IsStart(message)
    ensures var (h', fetches) := Serve(h, message, [Throws, Throws, Throws]);
            && h' == h + [UserTurn(message), UserTurn(message), UserTurn(message)]
            && |fetches| == UseChat.MaxRetries
            && UseChat.ErrorAfter(UseChat.Retry(fetches, 1))
               == Some(UseChat.RetriesExhaustedPrefix + ServerErrorText)
  {
    var upstreams := [Throws, Throws, Throws];
    FailedAttemptsRepeatUserTurn(h, message, upstreams);
    var (h', fetches) := Serve(h, message, upstreams);
    assert seq(3, _ => UserTurn(message)) == [UserTurn(message), UserTurn(message), UserTurn(message)];
    UseChat.AllAttemptsFail(fetches);
    ServerErrorSeenAsFailure(h + [UserTurn(message), UserTurn(message)], message);
  }
}
