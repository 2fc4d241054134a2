/**
 * One run of `handleEnhancePhoto` after its validation guard, stated as
 * values: the request it sends, the trace of effects it produces (the prompt
 * save, each generation attempt, each backoff wait) and its result, as a
 * function of the replies the generation endpoint gives.
 */
module Enhancement {

  import opened Wrappers
  import opened DataUri
  import opened Backoff
  import opened GeminiReply

  const PngMimeType: string := "image/png"
  const EnhancingMessage: string := "Enhancing photo..."
  const SuccessMessage: string := "Photo enhanced successfully!"
  const FailureMessage: string := "Failed to enhance photo. Check the console for details."

  /** The request body of VibeCodeApp.jsx:134-149: the prompt and the inline image. */
  datatype Request = Request(prompt: string, mimeType: string, imageData: Option<string>)

  /** The request a run sends for the stored data URI (`inputImage.split(',')[1]`, tagged PNG). */
  function RequestFor(prompt: string, inputImage: string): Request
  {
    Request(prompt, PngMimeType, StripEnvelope(inputImage))
  }

  /** An upload of any image type is sent as its base64 payload, tagged `image/png`. */
  lemma RequestCarriesUploadPayload(prompt: string, mediaType: string, payload: string)
    requires ',' !in mediaType
    requires IsBase64(payload)
    ensures RequestFor(prompt, "data:" + mediaType + ";base64," + payload) == Request(prompt, "image/png", Some(payload))
  {
    StripUploadedUri(mediaType, payload);
  }

  /** The observable effects of a run, in order. */
  datatype Event =
    | PromptWrite(uid: string, text: string, at: int)
    | Attempt(request: Request)
    | Wait(ms: nat)

  /** The reply to attempt `i` (0-based); attempts past the given script meet a failing network. */
  function ReplyAt(replies: seq<Reply>, i: nat): Reply
  {
    if i < |replies| then replies[i] else NetworkFailure
  }

  /** How many attempts a run made, and the payload of the last one if it succeeded. */
  datatype RunResult = RunResult(attempts: nat, payload: Option<string>)

  /**
   * `fetchWithRetry` entered with `retryCount == k`: attempt `k + 1`; on
   * failure retry while `retryCount < maxRetries`, else give up.
   */
  function RunFrom(replies: seq<Reply>, k: nat): (r: RunResult)
    requires k < MaxAttempts
    ensures k < r.attempts <= MaxAttempts
    ensures forall j :: k <= j < r.attempts - 1 ==> PayloadOf(ReplyAt(replies, j)).None?
    ensures r.payload == PayloadOf(ReplyAt(replies, r.attempts - 1))
    ensures r.payload.None? ==> r.attempts == MaxAttempts
    decreases MaxAttempts - k
  {
    var payload := PayloadOf(ReplyAt(replies, k));
    if payload.Some? || k == MaxRetries then RunResult(k + 1, payload)
    else RunFrom(replies, k + 1)
  }

  function Run(replies: seq<Reply>): RunResult
  {
    RunFrom(replies, 0)
  }

  /** If attempt n + 1 is the first to succeed (n <= 3), the run stops there with its payload. */
  lemma RunStopsAtFirstSuccess(replies: seq<Reply>, n: nat)
    requires n < MaxAttempts
    requires forall j :: 0 <= j < n ==> PayloadOf(ReplyAt(replies, j)).None?
    requires PayloadOf(ReplyAt(replies, n)).Some?
    ensures Run(replies) == RunResult(n + 1, PayloadOf(ReplyAt(replies, n)))
  {
  }

  /** If all four attempts fail, the run makes all four and yields nothing. */
  lemma RunExhaustsRetries(replies: seq<Reply>)
    requires forall j :: 0 <= j < MaxAttempts ==> PayloadOf(ReplyAt(replies, j)).None?
    ensures Run(replies) == RunResult(MaxAttempts, None)
  {
    var r := Run(replies);
    assert PayloadOf(ReplyAt(replies, r.attempts - 1)).None?;
  }

  /** `r` failed attempts, each followed by the wait before the next retry. */
  function FailedAttempts(req: Request, r: nat): seq<Event>
  {
    if r == 0 then [] else FailedAttempts(req, r - 1) + [Attempt(req), Wait(BackoffDelay(r))]
  }

  /** The attempts and waits of a run of `n` attempts: the last attempt is not followed by a wait. */
  function AttemptTrace(req: Request, n: nat): seq<Event>
    requires n >= 1
  {
    FailedAttempts(req, n - 1) + [Attempt(req)]
  }

  /** The whole trace of a run that passed the guard: the prompt save, then the attempts. */
  function EnhanceTrace(uid: string, text: string, now: int, req: Request, n: nat): seq<Event>
    requires n >= 1
  {
    [PromptWrite(uid, text, now)] + AttemptTrace(req, n)
  }

  /** The waits recorded in a trace, in order. */
  function WaitsIn(trace: seq<Event>): seq<nat>
  {
    if trace == [] then []
    else WaitsIn(trace[..|trace| - 1]) + (if trace[|trace| - 1].Wait? then [trace[|trace| - 1].ms] else [])
  }

  /** The number of generation attempts in a trace. */
  function AttemptsIn(trace: seq<Event>): nat
  {
    if trace == [] then 0
    else AttemptsIn(trace[..|trace| - 1]) + (if trace[|trace| - 1].Attempt? then 1 else 0)
  }

  /** The number of prompt saves in a trace. */
  function PromptWritesIn(trace: seq<Event>): nat
  {
    if trace == [] then 0
    else PromptWritesIn(trace[..|trace| - 1]) + (if trace[|trace| - 1].PromptWrite? then 1 else 0)
  }

  lemma {:induction false} CountsAppend(a: seq<Event>, b: seq<Event>)
    ensures WaitsIn(a + b) == WaitsIn(a) + WaitsIn(b)
    ensures AttemptsIn(a + b) == AttemptsIn(a) + AttemptsIn(b)
    ensures PromptWritesIn(a + b) == PromptWritesIn(a) + PromptWritesIn(b)
    decreases |b|
  {
    if b == [] {
      assert a + b == a;
    } else {
      var b' := b[..|b| - 1];
      assert (a + b)[..|a + b| - 1] == a + b';
      CountsAppend(a, b');
    }
  }

  lemma OneEventCounts(e: Event)
    ensures WaitsIn([e]) == (if e.Wait? then [e.ms] else [])
    ensures AttemptsIn([e]) == (if e.Attempt? then 1 else 0)
    ensures PromptWritesIn([e]) == (if e.PromptWrite? then 1 else 0)
  {
    assert [e][..0] == [];
  }

  /** `r` failed attempts: `r` attempts, the first `r` backoff waits, no prompt save. */
  lemma {:induction false} FailedAttemptsCounts(req: Request, r: nat)
    ensures WaitsIn(FailedAttempts(req, r)) == Delays(r)
    ensures AttemptsIn(FailedAttempts(req, r)) == r
    ensures PromptWritesIn(FailedAttempts(req, r)) == 0
  {
    if r > 0 {
      FailedAttemptsCounts(req, r - 1);
      var step := [Attempt(req), Wait(BackoffDelay(r))];
      CountsAppend(FailedAttempts(req, r - 1), step);
      CountsAppend([Attempt(req)], [Wait(BackoffDelay(r))]);
      OneEventCounts(Attempt(req));
      OneEventCounts(Wait(BackoffDelay(r)));
    }
  }

  /** Every attempt of a trace of failed attempts sends the same request. */
  lemma {:induction false} FailedAttemptsSendOneRequest(req: Request, r: nat)
    ensures forall i :: 0 <= i < |FailedAttempts(req, r)| && FailedAttempts(req, r)[i].Attempt? ==>
              FailedAttempts(req, r)[i].request == req
  {
    if r > 0 {
      FailedAttemptsSendOneRequest(req, r - 1);
    }
  }

  /**
   * A run of `n` attempts saves the prompt exactly once, before anything else,
   * makes `n` attempts all carrying the same request, ends with an attempt,
   * and waits exactly the first `n - 1` backoff delays in order.
   */
  lemma EnhanceTraceShape(uid: string, text: string, now: int, req: Request, n: nat)
    requires 1 <= n <= MaxAttempts
    ensures var trace := EnhanceTrace(uid, text, now, req, n);
      && trace[0] == PromptWrite(uid, text, now)
      && trace[|trace| - 1] == Attempt(req)
      && PromptWritesIn(trace) == 1
      && AttemptsIn(trace) == n
      && WaitsIn(trace) == Delays(n - 1)
      && forall i :: 0 <= i < |trace| && trace[i].Attempt? ==> trace[i].request == req
  {
    var failed := FailedAttempts(req, n - 1);
    var trace := EnhanceTrace(uid, text, now, req, n);
    assert trace == [PromptWrite(uid, text, now)] + failed + [Attempt(req)];
    FailedAttemptsCounts(req, n - 1);
    CountsAppend([PromptWrite(uid, text, now)], failed);
    CountsAppend([PromptWrite(uid, text, now)] + failed, [Attempt(req)]);
    OneEventCounts(PromptWrite(uid, text, now));
    OneEventCounts(Attempt(req));
    FailedAttemptsSendOneRequest(req, n - 1);
    forall i | 0 <= i < |trace| && trace[i].Attempt?
      ensures trace[i].request == req
    {
      if 1 <= i < 1 + |failed| {
        assert trace[i] == failed[i - 1];
      }
    }
  }

  /** A run whose every attempt fails waits 1000, 2000 and 4000 milliseconds and then stops. */
  lemma ExhaustedRunWaits(uid: string, text: string, now: int, req: Request, replies: seq<Reply>)
    requires forall j :: 0 <= j < MaxAttempts ==> PayloadOf(ReplyAt(replies, j)).None?
    ensures var trace := EnhanceTrace(uid, text, now, req, Run(replies).attempts);
      AttemptsIn(trace) == 4 && WaitsIn(trace) == [1000, 2000, 4000]
  {
    RunExhaustsRetries(replies);
    EnhanceTraceShape(uid, text, now, req, MaxAttempts);
    DelayTable();
  }

  /** The image a finished run leaves in `generatedImage` (null on failure: it was cleared at the start). */
  function GeneratedImageAfter(run: RunResult): Option<string>
  {
    match run.payload
    case Some(d) => Some(PngDataUri(d))
    case None => None
  }

  /** The status message a finished run leaves. */
  function MessageAfter(run: RunResult): string
  {
    if run.payload.Some? then SuccessMessage else FailureMessage
  }
}
