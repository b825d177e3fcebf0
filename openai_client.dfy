/** The client-side half of `OpenAIClient` (lib/openai-client.js): the size
    check and form of a transcription request, the prompt of a summary
    request, and the translation of an error reply into a message. The HTTP
    exchange itself is a `Reply` given as a parameter. */
module OpenAI {
  import opened Wrappers
  import opened Blobs
  import opened Strings

  /** The largest upload the transcription endpoint accepts: 25 MiB. */
  const MaxFileSize: nat := 25 * 1024 * 1024

  const BaseUrl := "https://api.openai.com/v1"

  const InvalidKeyMessage := "APIキーが無効です。設定を確認してください。"
  const RateLimitMessage := "APIのレート制限に達しました。しばらく待ってから再試行してください。"
  const PayloadTooLargeMessage := "ファイルサイズが大きすぎます。"
  const UnavailableMessage := "OpenAI APIが一時的に利用できません。しばらく待ってから再試行してください。"
  const TooLargePrefix := "ファイルサイズが大きすぎます（最大25MB）。現在: "

  /** The words that mark a rate-limit message. */
  const RateLimitMarker := "レート制限"

  const SystemPrompt := "あなたは会議の議事録作成アシスタントです。簡潔で分かりやすい要約を作成してください。"
  const DefaultSummaryPrompt := "以下の会議の文字起こしを要約してください。重要なポイント、決定事項、アクションアイテムを明確に記載してください。"
  const CustomPromptJoint := "\n\n以下が会議の文字起こしです：\n\n"

  /** The body of an HTTP reply as `response.json()` sees it. A `Json` body
      lists the fields the client reads; `None` is a missing field. */
  datatype Body =
    | Unparsable(message: string)
    | Json(errorMessage: Option<string>, text: Option<string>, content: Option<string>, usage: Option<Usage>)

  /** The `usage` object of a chat reply; its `total_tokens` may be absent. */
  datatype Usage = Usage(totalTokens: Option<int>)

  datatype Reply = Reply(status: nat, body: Body)

  /** Why a request failed, each with the message the thrown `Error` carries.
      `MissingField` is the `TypeError` raised by reading an absent field; its
      runtime text is stood in for by the field's name. */
  datatype ClientError =
    | TooLarge(size: nat)
    | Api(message: string)
    | Unreadable(message: string)
    | MissingField(name: string)
  {
    function Message(): string {
      match this
      case TooLarge(size) => TooLargePrefix + Megabytes(size) + "MB"
      case Api(m) => m
      case Unreadable(m) => m
      case MissingField(name) => name
    }
  }

  predicate Ok(status: nat) {
    200 <= status < 300
  }

  /** `size / 1024 / 1024` in hundredths, rounded to nearest with ties going
      up, as `toFixed(2)` rounds the exact quotient. */
  function CentiMegabytes(size: nat): (n: nat)
    ensures 2 * (n * 1048576 - 100 * size) <= 1048576
    ensures 2 * (100 * size - n * 1048576) < 1048576
  {
    (100 * size + 524288) / 1048576
  }

  /** `(size / 1024 / 1024).toFixed(2)`. Dividing by a power of two is exact,
      so the text is the decimal rounding of the exact quotient. */
  function Megabytes(size: nat): (s: string)
    ensures |s| >= 4 && s[|s| - 3] == '.'
    ensures AllDigits(s[..|s| - 3]) && AllDigits(s[|s| - 2..])
    ensures DigitsValue(s[..|s| - 3]) * 100 + DigitsValue(s[|s| - 2..]) == CentiMegabytes(size)
  {
    var n := CentiMegabytes(size);
    var whole := NatToString(n / 100);
    var frac := Pad2(n % 100);
    NatToStringRoundTrip(n / 100);
    var s := whole + "." + frac;
    assert s[..|s| - 3] == whole;
    assert s[|s| - 2..] == frac;
    s
  }

  /** The position of the first `c` in `s`, or -1. */
  function IndexOfChar(s: string, c: char): (k: int)
    ensures -1 <= k < |s|
    ensures k == -1 <==> c !in s
    ensures k >= 0 ==> s[k] == c && c !in s[..k]
  {
    if s == [] then -1
    else if s[0] == c then 0
    else
      var k := IndexOfChar(s[1..], c);
      assert s[1..] + [] == s[1..];
      if k == -1 then -1
      else
        assert s[..k + 1] == [s[0]] + s[1..][..k];
        k + 1
  }

  /** `type.split('/')[1] || 'webm'`: the text between the first and the
      second slash (or the end), or `webm` when that is missing or empty. */
  function Extension(mimeType: string): (ext: string)
    ensures ext != "" && '/' !in ext
    ensures '/' !in mimeType ==> ext == "webm"
  {
    var i := IndexOfChar(mimeType, '/');
    if i == -1 then "webm"
    else
      var rest := mimeType[i + 1..];
      var j := IndexOfChar(rest, '/');
      var part := if j == -1 then rest else rest[..j];
      if part == "" then "webm" else part
  }

  /** The common `type/subtype` shape gives back its subtype. */
  lemma ExtensionOfSubtype(kind: string, subtype: string)
    requires '/' !in kind && '/' !in subtype && subtype != ""
    ensures Extension(kind + "/" + subtype) == subtype
  {
    var m := kind + "/" + subtype;
    assert m[..|kind|] == kind;
    assert IndexOfChar(m, '/') == |kind|;
    assert m[|kind| + 1..] == subtype;
  }

  /** The uploaded file's name. */
  function FileName(mimeType: string): (name: string)
    ensures StartsWith(name, "audio.") && name[6..] == Extension(mimeType)
  {
    "audio." + Extension(mimeType)
  }

  /** The destructured options of `transcribe`; `None` takes the default. */
  datatype TranscribeOptions = TranscribeOptions(language: Option<string>, prompt: Option<string>, temperature: Option<string>)

  datatype FormField = FormField(key: string, value: string)

  datatype TranscriptionRequest = TranscriptionRequest(url: string, authorization: string, fileName: string, fields: seq<FormField>)

  datatype Transcription = Transcription(text: string, language: string)

  /** The language sent: the one asked for, Japanese when none is. */
  function Language(options: TranscribeOptions): (l: string)
    ensures options.language.None? ==> l == "ja"
    ensures options.language.Some? ==> l == options.language.value
  {
    options.language.GetOr("ja")
  }

  /** What `transcribe` sends, or the size error it throws before sending. */
  function TranscriptionRequestFor(apiKey: string, blob: Blob, options: TranscribeOptions): (r: Result<TranscriptionRequest, ClientError>)
    ensures blob.size > MaxFileSize <==> r.Failure?
    ensures r.Failure? ==> r.error == TooLarge(blob.size)
    ensures r.Success? ==>
      var fields := r.value.fields;
      r.value.fileName == FileName(blob.mimeType) &&
      r.value.authorization == "Bearer " + apiKey &&
      |fields| >= 3 &&
      fields[..3] == [FormField("model", "whisper-1"), FormField("language", Language(options)),
                      FormField("temperature", options.temperature.GetOr("0"))] &&
      (|fields| == 4 <==> options.prompt.Some? && options.prompt.value != "") &&
      (|fields| == 4 ==> fields[3] == FormField("prompt", options.prompt.value))
  {
    if blob.size > MaxFileSize then Failure(TooLarge(blob.size))
    else
      var prompt := options.prompt.GetOr("");
      var always := [FormField("model", "whisper-1"), FormField("language", Language(options)),
                     FormField("temperature", options.temperature.GetOr("0"))];
      var fields := if prompt != "" then always + [FormField("prompt", prompt)] else always;
      Success(TranscriptionRequest(BaseUrl + "/audio/transcriptions", "Bearer " + apiKey, FileName(blob.mimeType), fields))
  }

  /** `handleAPIError`: the message of the error it always throws. */
  function ApiErrorMessage(status: nat, body: Body): (m: string)
    ensures status == 401 ==> m == InvalidKeyMessage
    ensures status == 429 ==> m == RateLimitMessage
    ensures status == 413 ==> m == PayloadTooLargeMessage
    ensures status == 503 ==> m == UnavailableMessage
    ensures status !in {401, 429, 413, 503} && BodyMessage(body).Some? ==> m == BodyMessage(body).value
    ensures status !in {401, 429, 413, 503} && BodyMessage(body).None? ==> m == "APIエラー: " + NatToString(status)
  {
    var fallback := match BodyMessage(body) case Some(msg) => msg case None => "APIエラー: " + NatToString(status);
    if status == 401 then InvalidKeyMessage
    else if status == 429 then RateLimitMessage
    else if status == 413 then PayloadTooLargeMessage
    else if status == 503 then UnavailableMessage
    else fallback
  }

  /** `errorData.error.message` when the body parses and the message is truthy. */
  function BodyMessage(body: Body): Option<string> {
    if body.Json? && body.errorMessage.Some? && body.errorMessage.value != "" then body.errorMessage else None
  }

  /** A message marks a rate limit when it contains the marker words. */
  predicate IsRateLimited(e: ClientError) {
    Contains(e.Message(), RateLimitMarker)
  }

  /** Of the messages `handleAPIError` makes up itself only the one for 429
      is a rate-limit message; any other status yields one only when the
      server's own message is. */
  lemma RateLimitOnly429(status: nat, body: Body)
    ensures Contains(ApiErrorMessage(status, body), RateLimitMarker) <==>
      status == 429 ||
      (status !in {401, 413, 503} && BodyMessage(body).Some? && Contains(BodyMessage(body).value, RateLimitMarker))
  {
    if status == 429 {
      RateLimitMessageIsMarked();
    } else if status == 401 {
      InvalidKeyUnmarked();
    } else if status == 413 {
      PayloadTooLargeUnmarked();
    } else if status == 503 {
      UnavailableUnmarked();
    } else if BodyMessage(body).None? {
      FallbackUnmarked(status);
    }
  }

  lemma RateLimitMessageIsMarked()
    ensures Contains(RateLimitMessage, RateLimitMarker)
  {
    assert RateLimitMessage[4] == RateLimitMarker[0] && RateLimitMessage[5] == RateLimitMarker[1];
    assert RateLimitMessage[6] == RateLimitMarker[2] && RateLimitMessage[7] == RateLimitMarker[3];
    assert RateLimitMessage[8] == RateLimitMarker[4];
    assert RateLimitMessage[4..4 + |RateLimitMarker|] == RateLimitMarker;
    assert OccursAt(RateLimitMessage, RateLimitMarker, 4);
  }

  lemma InvalidKeyUnmarked()
    ensures !Contains(InvalidKeyMessage, RateLimitMarker)
  {
    AbsentFirstChar(InvalidKeyMessage, RateLimitMarker);
  }

  lemma PayloadTooLargeUnmarked()
    ensures !Contains(PayloadTooLargeMessage, RateLimitMarker)
  {
    AbsentFirstChar(PayloadTooLargeMessage, RateLimitMarker);
  }

  lemma UnavailableUnmarked()
    ensures !Contains(UnavailableMessage, RateLimitMarker)
  {
    AbsentFirstChar(UnavailableMessage, RateLimitMarker);
  }

  lemma FallbackUnmarked(status: nat)
    ensures !Contains("APIエラー: " + NatToString(status), RateLimitMarker)
  {
    var digits := NatToString(status);
    forall i | 0 <= i < |digits| ensures digits[i] != 'レ' {
      assert IsDigit(digits[i]);
    }
    AbsentFirstChar("APIエラー: " + digits, RateLimitMarker);
  }

  /** `transcribe` without the retry: the size check, then the reply read. */
  function Transcribe(apiKey: string, blob: Blob, options: TranscribeOptions, reply: Reply): (r: Result<Transcription, ClientError>)
    ensures blob.size > MaxFileSize ==> r == Failure(TooLarge(blob.size))
    ensures blob.size <= MaxFileSize && !Ok(reply.status) ==> r == Failure(Api(ApiErrorMessage(reply.status, reply.body)))
    ensures r.Success? ==>
      blob.size <= MaxFileSize && Ok(reply.status) && reply.body.Json? && reply.body.text == Some(r.value.text) &&
      r.value.language == Language(options)
  {
    match TranscriptionRequestFor(apiKey, blob, options)
    case Failure(e) => Failure(e)
    case Success(_) =>
      if !Ok(reply.status) then Failure(Api(ApiErrorMessage(reply.status, reply.body)))
      else match reply.body
        case Unparsable(msg) => Failure(Unreadable(msg))
        case Json(_, text, _, _) =>
          if text.None? then Failure(MissingField("text"))
          else Success(Transcription(text.value, Language(options)))
  }

  /** An oversized blob is rejected whatever the server would have said: no
      request goes out. */
  lemma OversizedNeverSent(apiKey: string, blob: Blob, options: TranscribeOptions, r1: Reply, r2: Reply)
    requires blob.size > MaxFileSize
    ensures Transcribe(apiKey, blob, options, r1) == Transcribe(apiKey, blob, options, r2)
  {
  }

  /** The destructured options of `summarize`; `None` takes the default. */
  datatype SummaryOptions = SummaryOptions(model: Option<string>, customPrompt: Option<string>)

  datatype ChatRequest = ChatRequest(model: string, systemPrompt: string, userPrompt: string, maxTokens: nat)

  datatype Summary = Summary(summary: string, tokens: Option<int>)

  /** The user message: the custom prompt and a heading before the
      transcript when a custom prompt is given, the default prompt before it
      otherwise. */
  function UserPrompt(transcript: string, customPrompt: string): (p: string)
    ensures customPrompt != "" ==> StartsWith(p, customPrompt + CustomPromptJoint)
    ensures customPrompt == "" ==> StartsWith(p, DefaultSummaryPrompt + "\n\n")
    ensures |p| >= |transcript| && p[|p| - |transcript|..] == transcript
  {
    var head := if customPrompt != "" then customPrompt + CustomPromptJoint else DefaultSummaryPrompt + "\n\n";
    var p := head + transcript;
    assert p[..|head|] == head && p[|p| - |transcript|..] == transcript;
    p
  }

  function SummaryRequest(transcript: string, options: SummaryOptions): (r: ChatRequest)
    ensures r.model == options.model.GetOr("gpt-4o-mini")
    ensures r.systemPrompt == SystemPrompt && r.maxTokens == 1000
    ensures r.userPrompt == UserPrompt(transcript, options.customPrompt.GetOr(""))
  {
    ChatRequest(options.model.GetOr("gpt-4o-mini"), SystemPrompt, UserPrompt(transcript, options.customPrompt.GetOr("")), 1000)
  }

  /** `summarize`: the request built from the options, then the reply read.
      An absent content throws at `summary.length`, an absent `usage` at
      `data.usage.total_tokens`; an absent `total_tokens` is only undefined. */
  function Summarize(transcript: string, options: SummaryOptions, reply: Reply): (r: Result<Summary, ClientError>)
    ensures !Ok(reply.status) ==> r == Failure(Api(ApiErrorMessage(reply.status, reply.body)))
    ensures Ok(reply.status) && reply.body.Unparsable? ==> r == Failure(Unreadable(reply.body.message))
    ensures Ok(reply.status) && reply.body.Json? && reply.body.content.None? ==>
      r == Failure(MissingField("choices[0].message.content"))
    ensures Ok(reply.status) && reply.body.Json? && reply.body.content.Some? && reply.body.usage.None? ==>
      r == Failure(MissingField("usage"))
    ensures r.Success? <==> Ok(reply.status) && reply.body.Json? && reply.body.content.Some? && reply.body.usage.Some?
    ensures r.Success? ==>
      reply.body.content == Some(r.value.summary) && r.value.tokens == reply.body.usage.value.totalTokens
  {
    if !Ok(reply.status) then Failure(Api(ApiErrorMessage(reply.status, reply.body)))
    else match reply.body
      case Unparsable(msg) => Failure(Unreadable(msg))
      case Json(_, _, content, usage) =>
        if content.None? then Failure(MissingField("choices[0].message.content"))
        else if usage.None? then Failure(MissingField("usage"))
        else Success(Summary(content.value, usage.value.totalTokens))
  }
}
