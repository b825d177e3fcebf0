/** The rate-limit retry policy. It exists only in the copy of
    `OpenAIClient` defined inside __tests__/openai-client.test.js, whose
    `transcribe` wraps its request in `retryWithBackoff`; lib/openai-client.js
    has no retry. The function being retried is `call`, the outcome of its
    k-th invocation; the waits are recorded instead of slept. */
module Retry {
  import opened Wrappers
  import opened Blobs
  import opened Strings
  import opened OpenAI

  const MaxRetries: nat := 3
  const InitialRetryDelay: nat := 1000

  /** What a run of `retryWithBackoff` amounts to: the value returned or the
      error thrown, how many times `fn` was invoked, and the waits in between. */
  datatype Run<T> = Run(result: Result<T, ClientError>, calls: nat, delays: seq<int>)

  /** `retryWithBackoff(fn, retries)` where this is the `first`-th invocation
      of `fn`: a rate-limited failure is retried after a growing wait while
      retries are left; anything else ends the run. */
  function RetryFrom<T>(call: nat -> Result<T, ClientError>, retries: nat, first: nat): (run: Run<T>)
    decreases retries
    ensures 1 <= run.calls <= retries + 1 && |run.delays| == run.calls - 1
    ensures run.result == call(first + run.calls - 1)
    ensures forall k :: first <= k < first + run.calls - 1 ==> call(k).Failure? && IsRateLimited(call(k).error)
    ensures run.calls <= retries ==> run.result.Success? || !IsRateLimited(run.result.error)
    ensures forall i :: 0 <= i < |run.delays| ==> run.delays[i] == InitialRetryDelay * (MaxRetries - retries + 1 + i)
  {
    var res := call(first);
    if res.Failure? && IsRateLimited(res.error) && retries > 0 then
      var delay := InitialRetryDelay * (MaxRetries - retries + 1);
      var rest := RetryFrom(call, retries - 1, first + 1);
      Run(rest.result, rest.calls + 1, [delay] + rest.delays)
    else
      Run(res, 1, [])
  }

  /** `retryWithBackoff(fn)` with the default number of retries. */
  function RetryWithBackoff<T>(call: nat -> Result<T, ClientError>): (run: Run<T>)
    ensures 1 <= run.calls <= MaxRetries + 1
  {
    RetryFrom(call, MaxRetries, 0)
  }

  /** A function that succeeds at once is invoked once and its value returned. */
  lemma FirstTrySucceeds<T>(call: nat -> Result<T, ClientError>)
    requires call(0).Success?
    ensures RetryWithBackoff(call) == Run(call(0), 1, [])
  {
  }

  /** Any failure that is not a rate limit is thrown after a single invocation. */
  lemma OtherErrorsNotRetried<T>(call: nat -> Result<T, ClientError>)
    requires call(0).Failure? && !IsRateLimited(call(0).error)
    ensures RetryWithBackoff(call) == Run(call(0), 1, [])
  {
  }

  /** Always rate-limited: four invocations, waits of 1, 2 and 3 seconds, and
      the last error thrown. */
  lemma AlwaysRateLimited<T>(call: nat -> Result<T, ClientError>)
    requires forall k :: call(k).Failure? && IsRateLimited(call(k).error)
    ensures RetryWithBackoff(call) == Run(call(3), 4, [1000, 2000, 3000])
  {
    var run := RetryWithBackoff(call);
    assert run.calls == MaxRetries + 1;
    assert run.delays == [1000, 2000, 3000];
  }

  /** Two rate-limit failures and then success: three invocations, the
      success value returned after waits of 1 and 2 seconds. */
  lemma TwoRateLimitsThenSuccess<T>(call: nat -> Result<T, ClientError>)
    requires call(0).Failure? && IsRateLimited(call(0).error)
    requires call(1).Failure? && IsRateLimited(call(1).error)
    requires call(2).Success?
    ensures RetryWithBackoff(call) == Run(call(2), 3, [1000, 2000])
  {
    var run := RetryWithBackoff(call);
    assert run.calls == 3;
    assert run.delays == [1000, 2000];
  }

  /** What the test-local `transcribe` resolves to: `data.text` as it is,
      which is undefined when the reply has no `text`. */
  datatype LooseTranscription = LooseTranscription(text: Option<string>, language: string)

  /** One attempt of the test-local `transcribe`: the library's size check
      and error handling, but the reply's `text` is returned without reading
      its length, so a reply without `text` does not throw. */
  function TestTranscribe(apiKey: string, blob: Blob, options: TranscribeOptions, reply: Reply): (r: Result<LooseTranscription, ClientError>)
    ensures r.Success? <==> blob.size <= MaxFileSize && Ok(reply.status) && reply.body.Json?
    ensures r.Success? ==> r.value == LooseTranscription(reply.body.text, Language(options))
  {
    match TranscriptionRequestFor(apiKey, blob, options)
    case Failure(e) => Failure(e)
    case Success(_) =>
      if !Ok(reply.status) then Failure(Api(ApiErrorMessage(reply.status, reply.body)))
      else match reply.body
        case Unparsable(msg) => Failure(Unreadable(msg))
        case Json(_, text, _, _) => Success(LooseTranscription(text, Language(options)))
  }

  /** The test-local attempt and the library's `transcribe` agree except on
      a good reply without `text`: the library throws reading its length,
      the test-local copy resolves with the text undefined. */
  lemma TestTranscribeAgrees(apiKey: string, blob: Blob, options: TranscribeOptions, reply: Reply)
    ensures var lib := Transcribe(apiKey, blob, options, reply);
      var loose := TestTranscribe(apiKey, blob, options, reply);
      (lib.Success? ==> loose == Success(LooseTranscription(Some(lib.value.text), lib.value.language))) &&
      (lib.Failure? && lib.error != MissingField("text") ==> loose == Failure(lib.error)) &&
      (lib == Failure(MissingField("text")) <==>
        loose.Success? && loose.value.text.None?)
  {
  }

  /** The test-local `transcribe`: `replies(k)` is the server's answer to
      the k-th attempt. */
  function TranscribeWithRetry(apiKey: string, blob: Blob, options: TranscribeOptions, replies: nat -> Reply): (run: Run<LooseTranscription>)
    ensures 1 <= run.calls <= MaxRetries + 1
    ensures run.result == TestTranscribe(apiKey, blob, options, replies(run.calls - 1))
  {
    RetryWithBackoff(Attempts(apiKey, blob, options, replies))
  }

  /** The outcome of each request the test-local `transcribe` makes. */
  function Attempts(apiKey: string, blob: Blob, options: TranscribeOptions, replies: nat -> Reply): nat -> Result<LooseTranscription, ClientError> {
    (k: nat) => TestTranscribe(apiKey, blob, options, replies(k))
  }

  /** A size in megabytes is digits and a point, so it has no kana. */
  lemma MegabytesUnmarked(size: nat)
    ensures RateLimitMarker[0] !in Megabytes(size)
  {
    var mb := Megabytes(size);
    forall i | 0 <= i < |mb| ensures mb[i] != RateLimitMarker[0] {
      if i < |mb| - 3 {
        assert mb[..|mb| - 3][i] == mb[i];
      } else if i > |mb| - 3 {
        assert mb[|mb| - 2..][i - (|mb| - 2)] == mb[i];
      }
    }
  }

  lemma TooLargePrefixUnmarked()
    ensures RateLimitMarker[0] !in TooLargePrefix && RateLimitMarker[0] !in "MB"
  {
  }

  lemma CharNotInConcat(c: char, a: string, b: string, d: string)
    requires c !in a && c !in b && c !in d
    ensures c !in a + b + d
  {
  }

  /** The size error is not a rate-limit message. */
  lemma TooLargeUnmarked(size: nat)
    ensures !IsRateLimited(TooLarge(size))
  {
    MegabytesUnmarked(size);
    TooLargePrefixUnmarked();
    CharNotInConcat(RateLimitMarker[0], TooLargePrefix, Megabytes(size), "MB");
    AbsentFirstChar(TooLarge(size).Message(), RateLimitMarker);
  }

  /** An oversized blob fails once, with the size error, and is not retried. */
  lemma OversizedTriedOnce(apiKey: string, blob: Blob, options: TranscribeOptions, replies: nat -> Reply)
    requires blob.size > MaxFileSize
    ensures TranscribeWithRetry(apiKey, blob, options, replies) == Run(Failure(TooLarge(blob.size)), 1, [])
  {
    TooLargeUnmarked(blob.size);
    var call := Attempts(apiKey, blob, options, replies);
    assert call(0) == TestTranscribe(apiKey, blob, options, replies(0));
    OtherErrorsNotRetried(call);
  }

  /** A 429 reply followed by a good one: two requests, the transcription of
      the second returned after a one-second wait. */
  lemma RateLimitedThenTranscribed(apiKey: string, blob: Blob, options: TranscribeOptions, replies: nat -> Reply, text: string)
    requires blob.size <= MaxFileSize
    requires replies(0).status == 429
    requires replies(1) == Reply(200, Json(None, Some(text), None, None))
    ensures TranscribeWithRetry(apiKey, blob, options, replies) ==
      Run(Success(LooseTranscription(Some(text), Language(options))), 2, [1000])
  {
    RateLimitOnly429(429, replies(0).body);
    var call := Attempts(apiKey, blob, options, replies);
    assert call(0) == Failure(Api(RateLimitMessage));
    assert call(1) == Success(LooseTranscription(Some(text), Language(options)));
  }

  /** A good reply without `text` ends the run after one request, resolving
      with the text undefined. */
  lemma MissingTextResolves(apiKey: string, blob: Blob, options: TranscribeOptions, replies: nat -> Reply)
    requires blob.size <= MaxFileSize && Ok(replies(0).status)
    requires replies(0).body.Json? && replies(0).body.text.None?
    ensures TranscribeWithRetry(apiKey, blob, options, replies) ==
      Run(Success(LooseTranscription(None, Language(options))), 1, [])
  {
    var call := Attempts(apiKey, blob, options, replies);
    assert call(0) == Success(LooseTranscription(None, Language(options)));
    FirstTrySucceeds(call);
  }

  /** A reply with any status other than 429 whose server message carries no
      rate-limit words ends the run after one request. */
  lemma OtherStatusTriedOnce(apiKey: string, blob: Blob, options: TranscribeOptions, replies: nat -> Reply)
    requires blob.size <= MaxFileSize && !Ok(replies(0).status) && replies(0).status != 429
    requires BodyMessage(replies(0).body).Some? ==> !Contains(BodyMessage(replies(0).body).value, RateLimitMarker)
    ensures TranscribeWithRetry(apiKey, blob, options, replies).calls == 1
  {
    RateLimitOnly429(replies(0).status, replies(0).body);
    var call := Attempts(apiKey, blob, options, replies);
    assert call(0) == Failure(Api(ApiErrorMessage(replies(0).status, replies(0).body)));
    OtherErrorsNotRetried(call);
  }
}
