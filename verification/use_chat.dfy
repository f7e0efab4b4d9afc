/**
 * The client-side chat hook.
 *
 * It keeps the displayed message log, an error slot and a loading flag. Sending a
 * message appends it to the log at once, then posts it to the route with up to
 * three attempts and a linear back-off between failed ones, and finally appends
 * the assistant's reply or records an aggregate error. Each `fetch` is replaced
 * by an abstract value saying what that attempt produced; sleeping only records
 * its delay.
 */
module UseChat {
  import opened Opt

  const MaxRetries := 3
  /** Base back-off unit, in milliseconds. */
  const RetryDelay := 1000

  const JsonMediaType := "application/json"
  const NonJsonText := "APIからJSONではない応答が返されました"
  const ApiErrorText := "APIエラーが発生しました"
  /** The aggregate error's prefix; the "3" in it is MaxRetries. */
  const RetriesExhaustedPrefix := "3回リトライしましたが失敗しました: "
  const NextQuestionLabel := "\n\nNext question: "

  datatype Role = User | Assistant

  /** A displayed message; its id and timestamp are not modelled. */
  datatype Message = Message(role: Role, content: string)

  /**
   * A JSON response body as the hook reads it. `isCorrect` is its truthiness;
   * an absent `message` reads as "".
   */
  datatype ReplyBody = ReplyBody(isCorrect: bool, nextQuestion: string, message: string)

  /**
   * What one call to `fetch` produced: a rejection (or a body that could not be
   * read) with its error message, or a response with its ok flag, its
   * content-type header and its body.
   */
  datatype Fetch =
    | Rejected(reason: string)
    | Responded(ok: bool, contentType: Option<string>, body: ReplyBody)

  /** How an attempt ended: with the reply data, or with the message of the error it raised. */
  datatype Outcome = Success(data: ReplyBody) | Failure(message: string)

  /** `part` occurs somewhere in `s`. */
  predicate Includes(s: string, part: string)
    decreases |s|
  {
    part <= s || (|s| > 0 && Includes(s[1..], part))
  }

  /** The content-type header is present and mentions the JSON media type. */
  predicate IsJson(contentType: Option<string>)
  {
    contentType.Some? && Includes(contentType.value, JsonMediaType)
  }

  /**
   * Classifies one attempt, checking in order: rejection, a content type that is
   * not JSON (whatever the status), a status that is not ok, success.
   */
  function Classify(f: Fetch): (o: Outcome)
    ensures o.Success? <==> f.Responded? && IsJson(f.contentType) && f.ok
    ensures o.Success? ==> o.data == f.body
    ensures f.Rejected? ==> o == Failure(f.reason)
    ensures f.Responded? && !IsJson(f.contentType) ==> o == Failure(NonJsonText)
    ensures f.Responded? && IsJson(f.contentType) && !f.ok ==>
              o == Failure(if f.body.message != "" then f.body.message else ApiErrorText)
  {
    match f
    case Rejected(reason) => Failure(reason)
    case Responded(ok, contentType, body) =>
      if !IsJson(contentType) then Failure(NonJsonText)
      else if !ok then Failure(if body.message != "" then body.message else ApiErrorText)
      else Success(body)
  }

  /** `n` back-off delays starting with the one that follows attempt `first`: RetryDelay * first, RetryDelay * (first + 1), ... */
  function Backoff(first: nat, n: nat): seq<int>
  {
    seq(n, i requires 0 <= i < n => RetryDelay * (first + i))
  }

  /** The result of the retry loop: how many attempts ran, how the last one ended, and the delays slept. */
  datatype RetryRun = RetryRun(attempts: nat, outcome: Outcome, delays: seq<int>)

  /**
   * The retry loop from attempt number `attempt` (1-based) on. It stops at the
   * first success; a failure before the last attempt sleeps RetryDelay * attempt.
   */
  function Retry(fetches: seq<Fetch>, attempt: nat): (run: RetryRun)
    requires |fetches| == MaxRetries && 1 <= attempt <= MaxRetries
    ensures attempt <= run.attempts <= MaxRetries
    ensures run.outcome == Classify(fetches[run.attempts - 1])
    ensures forall j :: attempt - 1 <= j < run.attempts - 1 ==> Classify(fetches[j]).Failure?
    ensures run.outcome.Failure? ==> run.attempts == MaxRetries
    ensures run.delays == Backoff(attempt, run.attempts - attempt)
    decreases MaxRetries - attempt
  {
    match Classify(fetches[attempt - 1])
    case Success(_) => RetryRun(attempt, Classify(fetches[attempt - 1]), [])
    case Failure(_) =>
      if attempt < MaxRetries then
        var rest := Retry(fetches, attempt + 1);
        assert [RetryDelay * attempt] + rest.delays == Backoff(attempt, rest.attempts - attempt);
        rest.(delays := [RetryDelay * attempt] + rest.delays)
      else
        RetryRun(attempt, Classify(fetches[attempt - 1]), [])
  }

  /** The text of the assistant message built from a reply: its message, then the next question only when correct. */
  function AssistantContent(reply: ReplyBody): (text: string)
    ensures reply.message <= text
    ensures reply.isCorrect <==> |text| > |reply.message|
    ensures reply.isCorrect ==> text[|reply.message|..] == NextQuestionLabel + reply.nextQuestion
  {
    reply.message + (if reply.isCorrect then NextQuestionLabel + reply.nextQuestion else "")
  }

  /** The messages one send appends to the log: the user's, then the assistant's if an attempt succeeded. */
  function Appended(content: string, run: RetryRun): seq<Message>
  {
    [Message(User, content)] +
    (if run.outcome.Success? then [Message(Assistant, AssistantContent(run.outcome.data))] else [])
  }

  /** What the error slot holds after a send: the aggregate error when every attempt failed. */
  function ErrorAfter(run: RetryRun): Option<string>
  {
    if run.outcome.Failure? then Some(RetriesExhaustedPrefix + run.outcome.message) else None
  }

  /** The hook's state. `delays` records every back-off slept, in order. */
  class Chat {
    var messages: seq<Message>
    var isLoading: bool
    var error: Option<string>
    ghost var delays: seq<int>

    constructor ()
      ensures messages == [] && !isLoading && error == None && delays == []
    {
      messages, isLoading, error := [], false, None;
      delays := [];
    }

    /** Waits `ms` milliseconds; here it only records the delay. */
    method Sleep(ms: int)
      modifies this`delays
      ensures delays == old(delays) + [ms]
    {
      delays := delays + [ms];
    }

    /**
     * Sends `content`; `fetches[k - 1]` is what the k-th call to `fetch` would
     * produce (the ones after the first success are never consulted).
     */
    method SendMessage(content: string, fetches: seq<Fetch>)
      requires |fetches| == MaxRetries
      modifies this
      ensures var run := Retry(fetches, 1);
              && messages == old(messages) + Appended(content, run)
              && error == ErrorAfter(run)
              && !isLoading
              && delays == old(delays) + run.delays
    {
      isLoading := true;
      error := None;
      messages := messages + [Message(User, content)];

      var lastError: Option<string> := None;
      var data: Option<ReplyBody> := None;
      var attempt := 1;
      while attempt <= MaxRetries
        invariant 1 <= attempt <= MaxRetries + 1
        invariant data == None
        invariant forall j :: 0 <= j < attempt - 1 ==> Classify(fetches[j]).Failure?
        invariant attempt == 1 ==> lastError == None
        invariant attempt > 1 ==> lastError.Some? && Classify(fetches[attempt - 2]) == Failure(lastError.value)
        invariant delays == old(delays) + Backoff(1, if attempt <= MaxRetries then attempt - 1 else MaxRetries - 1)
        invariant messages == old(messages) + [Message(User, content)] && isLoading && error == None
      {
        match Classify(fetches[attempt - 1]) {
          case Success(reply) =>
            data := Some(reply);
            break;
          case Failure(message) =>
            lastError := Some(message);
            if attempt < MaxRetries {
              assert Backoff(1, attempt - 1) + [RetryDelay * attempt] == Backoff(1, attempt);
              Sleep(RetryDelay * attempt);
            }
        }
        attempt := attempt + 1;
      }

      ghost var run := Retry(fetches, 1);
      if data == None && lastError != None {
        assert run.attempts == MaxRetries;
        error := Some(RetriesExhaustedPrefix + lastError.value);
      } else {
        assert run.attempts == attempt;
        messages := messages + [Message(Assistant, AssistantContent(data.value))];
      }
      isLoading := false;
    }

    /** Starts a lesson: sends "Start". */
    method StartLearning(fetches: seq<Fetch>)
      requires |fetches| == MaxRetries
      modifies this
      ensures var run := Retry(fetches, 1);
              && messages == old(messages) + Appended("Start", run)
              && error == ErrorAfter(run)
              && !isLoading
              && delays == old(delays) + run.delays
    {
      SendMessage("Start", fetches);
    }

    /** Empties the log and the error slot; the loading flag is left as it is. */
    method ClearMessages()
      modifies this`messages, this`error
      ensures messages == [] && error == None
    {
      messages := [];
      error := None;
    }
  }

  /** Clearing twice leaves the same state as clearing once. */
  method ClearTwice(chat: Chat)
    modifies chat
    ensures chat.messages == [] && chat.error == None
    ensures chat.isLoading == old(chat.isLoading) && chat.delays == old(chat.delays)
  {
    chat.ClearMessages();
    ghost var once := (chat.messages, chat.error, chat.isLoading);
    chat.ClearMessages();
    assert (chat.messages, chat.error, chat.isLoading) == once;
  }

  // ---------------------------------------------------------------------------
  // Properties of the retry loop
  // ---------------------------------------------------------------------------

  /**
   * The loop makes at most MaxRetries attempts and stops at the first success:
   * if attempt k succeeds after k - 1 failures, exactly k attempts run, the reply
   * is that attempt's, and the delays are 1000, ..., 1000 * (k - 1).
   */
  lemma FirstSuccessStops(fetches: seq<Fetch>, k: nat)
    requires |fetches| == MaxRetries && 1 <= k <= MaxRetries
    requires forall j :: 0 <= j < k - 1 ==> Classify(fetches[j]).Failure?
    requires Classify(fetches[k - 1]).Success?
    ensures var run := Retry(fetches, 1);
            && run.attempts == k
            && run.outcome == Success(fetches[k - 1].body)
            && run.delays == Backoff(1, k - 1)
  {
  }

  /** When every attempt fails, three attempts run, the delays are exactly [1000, 2000], and the last error is reported. */
  lemma AllAttemptsFail(fetches: seq<Fetch>)
    requires |fetches| == MaxRetries
    requires forall j :: 0 <= j < MaxRetries ==> Classify(fetches[j]).Failure?
    ensures var run := Retry(fetches, 1);
            && run == RetryRun(3, Classify(fetches[2]), [1000, 2000])
            && ErrorAfter(run) == Some(RetriesExhaustedPrefix + Classify(fetches[2]).message)
  {
    var run := Retry(fetches, 1);
    assert Classify(fetches[run.attempts - 1]).Failure?;
    assert run.delays == Backoff(1, 2);
  }

  /**
   * Whatever the attempts produce, the delays are RetryDelay times 1, 2, ...,
   * one per failed attempt that is not the last: no delay follows the final
   * attempt, and a send sleeps at most 1000 + 2000 ms.
   */
  lemma BackoffIsLinear(fetches: seq<Fetch>)
    requires |fetches| == MaxRetries
    ensures var run := Retry(fetches, 1);
            && |run.delays| == run.attempts - 1 < MaxRetries
            && (forall i :: 0 <= i < |run.delays| ==> run.delays[i] == RetryDelay * (i + 1))
  {
  }

  /** Two failures then a success: three attempts, increasing delays, and exactly one assistant message. */
  lemma SuccessOnThirdAttempt(fetches: seq<Fetch>, content: string)
    requires |fetches| == MaxRetries
    requires Classify(fetches[0]).Failure? && Classify(fetches[1]).Failure? && Classify(fetches[2]).Success?
    ensures var run := Retry(fetches, 1);
            && run.attempts == 3
            && run.delays == [1000, 2000]
            && Appended(content, run) == [Message(User, content), Message(Assistant, AssistantContent(fetches[2].body))]
            && ErrorAfter(run) == None
  {
    FirstSuccessStops(fetches, 3);
    assert Backoff(1, 2) == [1000, 2000];
  }
}
