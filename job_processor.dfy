/** The job processor (`JobProcessor` in lib/job-processor.js): it drains the
    job queue one job at a time, transcribes each job's chunks with a bounded
    number of requests in flight, records the result in the transcript
    history, optionally asks for a summary, and marks the job completed or
    failed.

    The collaborators that `getDependencies` looks up are explicit here: the
    job queue and the transcript history are objects, the decoding of a
    chunk's data URL and the server's replies are functions in `Services`,
    and `Date.now()` is the parameter `now`. The storage writes and the
    messages posted to the popup are appended to an `EventLog`, so their
    order can be stated.

    `World` and the functions on it say, value by value, what one run of
    `processJob` does; the methods of `Processor` do it on the objects and
    are proved to match. */
module JobProcessor {
  import opened Wrappers
  import opened Blobs
  import opened Strings
  import opened JobQueue
  import Sorting
  import Parallel
  import OpenAI
  import Storage

  /** The marker a failed transcript's text starts with. */
  const ErrorPrefix := "エラー: "

  const SummaryErrorPrefix := "要約生成に失敗しました: "

  /** How many chunk transcriptions may be in flight at once. */
  const ParallelLimit := 3

  const Separator := "\n\n"

  /** What the task for one chunk returns. */
  datatype Piece = Piece(index: int, text: string, startTime: int, duration: int)

  function PieceIndex(p: Piece): int {
    p.index
  }

  /** `transcribedChunks.map(chunk => chunk.text)`. */
  function Texts(ps: seq<Piece>): (ts: seq<string>)
    ensures |ts| == |ps| && forall i :: 0 <= i < |ps| ==> ts[i] == ps[i].text
  {
    seq(|ps|, i requires 0 <= i < |ps| => ps[i].text)
  }

  /** The messages posted to the popup (`chunkTranscribed` is not modelled). */
  datatype Notice =
    | ProcessingStarted(transcriptId: string, chunks: nat)
    | TranscriptionComplete(id: string, transcript: string)
    | SummaryComplete(id: string, summary: string)
    | ErrorNotice(transcriptId: string, error: string)

  /** The observable effects of the processor, in the order they happen. */
  datatype Effect =
    | JobStatusSet(id: string, status: Status, patch: JobPatch)
    | TranscriptUpdated(id: string, changes: Storage.TranscriptPatch)
    | LastCompleted(transcriptId: string, timestamp: int)
    | Notified(notice: Notice)

  /** The outside world: decoding a chunk's base64 data URL into a blob
      (which may fail), and the server's reply to the transcription of a
      chunk and to a summary request. */
  datatype Services = Services(
    decode: string -> Result<Blob, string>,
    transcriptionReply: Chunk -> OpenAI.Reply,
    summaryReply: OpenAI.ChatRequest -> OpenAI.Reply)

  // ---------------------------------------------------------------------
  // transcribeChunks

  /** The options each chunk's `transcribe` call receives: only the language. */
  function TranscribeOptionsFor(settings: Storage.Settings): OpenAI.TranscribeOptions {
    OpenAI.TranscribeOptions(settings.language, None, None)
  }

  /** The task for one chunk once its audio is decoded: transcribe it and
      keep the chunk's position with the text. */
  function ChunkTask(chunk: Chunk, blob: Blob, settings: Storage.Settings, services: Services): (r: Result<Piece, string>)
    ensures r.Success? ==>
      r.value.index == chunk.index && r.value.startTime == chunk.startTime && r.value.duration == chunk.duration
  {
    match OpenAI.Transcribe(settings.apiKey, blob, TranscribeOptionsFor(settings), services.transcriptionReply(chunk))
    case Failure(e) => Failure(e.Message())
    case Success(t) => Success(Piece(chunk.index, t.text, chunk.startTime, chunk.duration))
  }

  predicate Decodable(chunks: seq<Chunk>, services: Services) {
    forall i :: 0 <= i < |chunks| ==> services.decode(chunks[i].audioBlob).Success?
  }

  /** `transcriptionTasks`: one task per chunk, in chunk order. */
  function Tasks(chunks: seq<Chunk>, settings: Storage.Settings, services: Services): (ts: seq<Result<Piece, string>>)
    requires Decodable(chunks, services)
    ensures |ts| == |chunks|
    ensures forall i :: 0 <= i < |chunks| ==>
      ts[i] == ChunkTask(chunks[i], services.decode(chunks[i].audioBlob).value, settings, services)
  {
    seq(|chunks|, i requires 0 <= i < |chunks| =>
      ChunkTask(chunks[i], services.decode(chunks[i].audioBlob).value, settings, services))
  }

  function Succeeded(ts: seq<Result<Piece, string>>): (ps: seq<Piece>)
    requires forall i :: 0 <= i < |ts| ==> ts[i].Success?
    ensures |ps| == |ts| && forall i :: 0 <= i < |ts| ==> ts[i] == Success(ps[i])
  {
    seq(|ts|, i requires 0 <= i < |ts| => ts[i].value)
  }

  /** The transcript made of the pieces: their texts in chunk-index order
      (a stable sort), separated by blank lines. */
  function JoinedTranscript(pieces: seq<Piece>): (t: string)
    ensures pieces == [] ==> t == ""
    ensures |pieces| == 1 ==> t == pieces[0].text
  {
    Join(Texts(Sorting.InsertionSort(pieces, PieceIndex)), Separator)
  }

  /** What `transcribeChunks` may produce: a decoding failure when some chunk
      does not decode; otherwise the joined transcript when every chunk is
      transcribed, or the message of one of the failed transcriptions. Which
      failure is reported depends on timing, so any of them may be. */
  ghost predicate TranscriptionOutcome(chunks: seq<Chunk>, settings: Storage.Settings, services: Services, r: Result<string, string>) {
    if !Decodable(chunks, services) then
      r.Failure? &&
      exists i :: 0 <= i < |chunks| && services.decode(chunks[i].audioBlob) == Failure(r.error)
    else
      var tasks := Tasks(chunks, settings, services);
      if forall i :: 0 <= i < |tasks| ==> tasks[i].Success? then r == Success(JoinedTranscript(Succeeded(tasks)))
      else r.Failure? && exists i :: 0 <= i < |tasks| && tasks[i] == Failure(r.error)
  }

  /** However the pieces arrived, the transcript lists their texts in
      increasing chunk index: with distinct indices it is the join of the one
      index-sorted arrangement of them. */
  lemma TranscriptInIndexOrder(pieces: seq<Piece>, s: seq<Piece>)
    requires multiset(s) == multiset(pieces) && Sorting.SortedBy(s, PieceIndex)
    requires forall i, j :: 0 <= i < j < |s| ==> s[i].index != s[j].index
    ensures JoinedTranscript(pieces) == Join(Texts(s), Separator)
  {
    Sorting.InsertionSortSorted(pieces, PieceIndex);
    Sorting.InsertionSortPermutes(pieces, PieceIndex);
    Sorting.SortedPermutationUnique(s, Sorting.InsertionSort(pieces, PieceIndex), PieceIndex);
  }

  /** `transcribeChunks`: decodes every chunk, runs the transcriptions through
      `limitedParallel` with a limit of 3, sorts the results by chunk index in
      place and joins their texts. */
  method TranscribeChunks(chunks: seq<Chunk>, settings: Storage.Settings, services: Services)
    returns (r: Result<string, string>)
    ensures TranscriptionOutcome(chunks, settings, services, r)
  {
    // Promise.all over the decodings rejects with one of the failures
    var undecodable := set k | 0 <= k < |chunks| && services.decode(chunks[k].audioBlob).Failure?;
    if undecodable != {} {
      var k :| k in undecodable;
      return Failure(services.decode(chunks[k].audioBlob).error);
    }
    assert Decodable(chunks, services) by {
      forall i | 0 <= i < |chunks| ensures services.decode(chunks[i].audioBlob).Success? {
        assert i !in undecodable;
      }
    }
    r := TranscribeDecoded(chunks, settings, services);
  }

  /** The transcription once every chunk has decoded: the tasks run under the
      concurrency cap, then the pieces are sorted by index and joined. */
  method TranscribeDecoded(chunks: seq<Chunk>, settings: Storage.Settings, services: Services)
    returns (r: Result<string, string>)
    requires Decodable(chunks, services)
    ensures TranscriptionOutcome(chunks, settings, services, r)
  {
    var tasks := Tasks(chunks, settings, services);
    var res;
    ghost var trace;
    res, trace := Parallel.LimitedParallel(tasks, ParallelLimit);
    if res.Failure? {
      return Failure(res.error);
    }
    assert res.value == Succeeded(tasks);
    var text := JoinPieces(res.value);
    r := Success(text);
  }

  /** Sorts the pieces by chunk index in an array and joins their texts. */
  method JoinPieces(pieces: seq<Piece>) returns (text: string)
    ensures text == JoinedTranscript(pieces)
  {
    var a := new Piece[|pieces|](j requires 0 <= j < |pieces| => pieces[j]);
    assert a[..] == pieces;
    Sorting.SortByKey(a, PieceIndex);
    text := Join(Texts(a[..]), Separator);
  }

  // ---------------------------------------------------------------------
  // processJob, value by value

  /** The stored job queue, the stored transcript history and the effects so far. */
  datatype World = World(jobs: seq<Job>, transcripts: seq<Storage.Transcript>, log: seq<Effect>)

  /** The world after an awaited call, and whether the call returned or threw. */
  datatype After = After(world: World, outcome: Outcome<string>)

  function QueuedCount(js: seq<Job>): nat {
    |WithStatus(js, Queued)|
  }

  /** `JobQueue.updateJobStatus(id, status, patch)`. */
  function SetStatus(w: World, id: string, status: Status, patch: JobPatch, now: int): (r: After)
    ensures r.world.transcripts == w.transcripts
    ensures IndexOf(w.jobs, id) == -1 ==> r == After(w, Fail(JobNotFound(id).Message()))
    ensures IndexOf(w.jobs, id) >= 0 ==>
      var k := IndexOf(w.jobs, id);
      r.outcome == Pass && r.world.log == w.log + [JobStatusSet(id, status, patch)] &&
      r.world.jobs == w.jobs[k := Transition(w.jobs[k], status, patch, now)] &&
      IndexOf(r.world.jobs, id) == k
  {
    var k := IndexOf(w.jobs, id);
    if k == -1 then After(w, Fail(JobNotFound(id).Message()))
    else
      var job := Transition(w.jobs[k], status, patch, now);
      IndexOfReplace(w.jobs, k, job, id);
      After(w.(jobs := w.jobs[k := job], log := w.log + [JobStatusSet(id, status, patch)]), Pass)
  }

  /** `Storage.updateTranscript(id, patch)`. */
  function UpdateTranscript(w: World, id: string, patch: Storage.TranscriptPatch): (r: After)
    ensures r.world.jobs == w.jobs
    ensures Storage.FindIndex(w.transcripts, id) == -1 ==> r == After(w, Fail(Storage.NotFoundMessage))
    ensures Storage.FindIndex(w.transcripts, id) >= 0 ==>
      var t := Storage.FindIndex(w.transcripts, id);
      r.outcome == Pass && r.world.log == w.log + [TranscriptUpdated(id, patch)] &&
      r.world.transcripts == w.transcripts[t := Storage.MergePatch(w.transcripts[t], patch)] &&
      Storage.FindIndex(r.world.transcripts, id) == t
  {
    var t := Storage.FindIndex(w.transcripts, id);
    if t == -1 then After(w, Fail(Storage.NotFoundMessage))
    else
      var rec := Storage.MergePatch(w.transcripts[t], patch);
      Storage.FindIndexReplace(w.transcripts, t, rec, id);
      After(w.(transcripts := w.transcripts[t := rec], log := w.log + [TranscriptUpdated(id, patch)]), Pass)
  }

  function Notify(w: World, n: Notice): World {
    w.(log := w.log + [Notified(n)])
  }

  /** The `lastCompletedTranscriptId` / `lastCompletedTimestamp` write. */
  function MarkLastCompleted(w: World, transcriptId: string, now: int): World {
    w.(log := w.log + [LastCompleted(transcriptId, now)])
  }

  const ProcessingPatch := Storage.TranscriptPatch(None, None, Some(Storage.Processing))
  const CompletedPatch := Storage.TranscriptPatch(None, None, Some(Storage.Completed))

  function TranscribedPatch(text: string): Storage.TranscriptPatch {
    Storage.TranscriptPatch(Some(text), None, Some(Storage.Transcribed))
  }

  function FailedPatch(message: string): Storage.TranscriptPatch {
    Storage.TranscriptPatch(Some(ErrorPrefix + message), None, Some(Storage.Failed))
  }

  function ErrorPatch(message: string): JobPatch {
    JobPatch(Keep, Keep, Set(Some(message)))
  }

  /** The options `generateSummary` builds: a custom prompt and a model only
      when the settings hold truthy ones. */
  function SummaryOptionsFor(settings: Storage.Settings): (o: OpenAI.SummaryOptions)
    ensures o.customPrompt.Some? <==> settings.summaryPrompt.Some? && settings.summaryPrompt.value != ""
    ensures o.customPrompt.Some? ==> o.customPrompt == settings.summaryPrompt
    ensures o.model.Some? <==> settings.summaryModel.Some? && settings.summaryModel.value != ""
    ensures o.model.Some? ==> o.model == settings.summaryModel
  {
    OpenAI.SummaryOptions(
      if settings.summaryModel.Some? && settings.summaryModel.value != "" then settings.summaryModel else None,
      if settings.summaryPrompt.Some? && settings.summaryPrompt.value != "" then settings.summaryPrompt else None)
  }

  /** The reply the server gives to the summary request for `text`. */
  function SummaryResult(text: string, settings: Storage.Settings, services: Services): (r: Result<OpenAI.Summary, OpenAI.ClientError>)
    ensures r.Success? ==> OpenAI.Ok(services.summaryReply(OpenAI.SummaryRequest(text, SummaryOptionsFor(settings))).status)
  {
    var options := SummaryOptionsFor(settings);
    OpenAI.Summarize(text, options, services.summaryReply(OpenAI.SummaryRequest(text, options)))
  }

  /** `generateSummary`: on success the summary is saved, the completion
      flag written and the popup told; any failure becomes an error notice
      instead of an exception. */
  function Summarize(w: World, transcriptId: string, text: string, settings: Storage.Settings, services: Services, now: int): (r: World)
    ensures r.jobs == w.jobs
    ensures |r.transcripts| == |w.transcripts|
    ensures Storage.FindIndex(r.transcripts, transcriptId) == Storage.FindIndex(w.transcripts, transcriptId)
    ensures forall i :: 0 <= i < |w.transcripts| ==>
      r.transcripts[i].transcript == w.transcripts[i].transcript && r.transcripts[i].status == w.transcripts[i].status
    ensures |r.log| > |w.log| && r.log[..|w.log|] == w.log
    ensures forall i :: |w.log| <= i < |r.log| ==> !r.log[i].JobStatusSet?
  {
    match SummaryResult(text, settings, services)
    case Failure(e) => Notify(w, ErrorNotice(transcriptId, SummaryErrorPrefix + e.Message()))
    case Success(s) =>
      var u := UpdateTranscript(w, transcriptId, Storage.TranscriptPatch(None, Some(s.summary), None));
      if u.outcome.Fail? then Notify(w, ErrorNotice(transcriptId, SummaryErrorPrefix + u.outcome.error))
      else Notify(MarkLastCompleted(u.world, transcriptId, now), SummaryComplete(transcriptId, s.summary))
  }

  /** What the summary step does: saves the summary and reports it when the
      request succeeds and the record exists, and otherwise only posts an
      error notice carrying the reason. */
  lemma SummaryEffects(w: World, transcriptId: string, text: string, settings: Storage.Settings, services: Services, now: int)
    ensures var r := Summarize(w, transcriptId, text, settings, services, now);
      var s := SummaryResult(text, settings, services);
      (s.Failure? ==>
        r == Notify(w, ErrorNotice(transcriptId, SummaryErrorPrefix + s.error.Message()))) &&
      (s.Success? && Storage.FindIndex(w.transcripts, transcriptId) == -1 ==>
        r == Notify(w, ErrorNotice(transcriptId, SummaryErrorPrefix + Storage.NotFoundMessage))) &&
      (s.Success? && Storage.FindIndex(w.transcripts, transcriptId) >= 0 ==>
        r.transcripts[Storage.FindIndex(w.transcripts, transcriptId)].summary == Some(s.value.summary) &&
        r.log == w.log + [TranscriptUpdated(transcriptId, Storage.TranscriptPatch(None, Some(s.value.summary), None)),
                          LastCompleted(transcriptId, now),
                          Notified(SummaryComplete(transcriptId, s.value.summary))])
  {
  }

  /** The `catch` block: marks the transcript and the job as failed, posts an
      error notice and rethrows. A write that throws here ends the block with
      its own error. */
  function Catch(w: World, job: Job, message: string, now: int): (r: After)
    ensures r.outcome.Fail?
    ensures Storage.FindIndex(w.transcripts, job.transcriptId) == -1 ==>
      r == After(w, Fail(Storage.NotFoundMessage))
  {
    var u := UpdateTranscript(w, job.transcriptId, FailedPatch(message));
    if u.outcome.Fail? then u
    else
      var s := SetStatus(u.world, job.id, Failed, ErrorPatch(message), now);
      if s.outcome.Fail? then s
      else After(Notify(s.world, ErrorNotice(job.transcriptId, message)), Fail(message))
  }

  /** The steps before the transcription: the job marked processing, the
      transcript marked processing, the popup told. */
  function Begin(w: World, job: Job, now: int): (r: After)
    ensures IndexOf(w.jobs, job.id) == -1 ==> r == After(w, Fail(JobNotFound(job.id).Message()))
  {
    var s := SetStatus(w, job.id, Processing, NoPatch, now);
    if s.outcome.Fail? then s
    else
      var u := UpdateTranscript(s.world, job.transcriptId, ProcessingPatch);
      if u.outcome.Fail? then u
      else After(Notify(u.world, ProcessingStarted(job.transcriptId, |job.chunks|)), Pass)
  }

  /** No effect of `log` between `from` and `to` writes a job status. */
  predicate NoStatusWrites(log: seq<Effect>, from: int, to: int) {
    forall i :: from <= i < to && 0 <= i < |log| ==> !log[i].JobStatusSet?
  }

  /** The steps between the text write and the completed write: the
      completion flag written, the popup told, and the summary when asked for. */
  function Announce(w: World, tid: string, text: string, settings: Storage.Settings, services: Services, now: int): (r: World)
    ensures r.jobs == w.jobs && |r.transcripts| == |w.transcripts|
    ensures Storage.FindIndex(r.transcripts, tid) == Storage.FindIndex(w.transcripts, tid)
    ensures forall i :: 0 <= i < |w.transcripts| ==>
      r.transcripts[i].transcript == w.transcripts[i].transcript && r.transcripts[i].status == w.transcripts[i].status
    ensures HeadShaped(r.log, w.log, [LastCompleted(tid, now), Notified(TranscriptionComplete(tid, text))],
                       |w.log|, settings.autoSummarize)
  {
    var head := [LastCompleted(tid, now), Notified(TranscriptionComplete(tid, text))];
    var told := Notify(MarkLastCompleted(w, tid, now), TranscriptionComplete(tid, text));
    if settings.autoSummarize then
      var r := Summarize(told, tid, text, settings, services, now);
      SummarizedShape(w.log, told.log, r.log, head);
      r
    else told
  }

  /** Effects appended after a head without status writes keep the head's shape. */
  lemma SummarizedShape(x: seq<Effect>, told: seq<Effect>, log: seq<Effect>, head: seq<Effect>)
    requires told == x + head && NoStatusWrites(head, 0, |head|)
    requires |log| > |told| && log[..|told|] == told
    requires NoStatusWrites(log, |told|, |log|)
    ensures HeadShaped(log, x, head, |x|, true)
  {
    forall i | |x| <= i < |log|
      ensures !log[i].JobStatusSet?
    {
      if i < |told| {
        assert log[i] == told[i] == head[i - |x|];
      }
    }
  }

  /** The last steps: the transcript marked completed, the completion flag
      written again, and the job marked completed. */
  function Complete(w: World, job: Job, now: int): (r: After)
    ensures Storage.FindIndex(w.transcripts, job.transcriptId) == -1 ==> r.outcome.Fail?
  {
    var tid := job.transcriptId;
    var marked := UpdateTranscript(w, tid, CompletedPatch);
    if marked.outcome.Fail? then Catch(marked.world, job, marked.outcome.error, now)
    else
      var done := SetStatus(MarkLastCompleted(marked.world, tid, now), job.id, Completed, NoPatch, now);
      if done.outcome.Fail? then Catch(done.world, job, done.outcome.error, now)
      else done
  }

  /** The steps after a successful transcription: the text saved, then the
      announcement, then completion. A write that throws hands its error to
      the catch block. */
  function Finish(w: World, job: Job, text: string, settings: Storage.Settings, services: Services, now: int): (r: After)
    ensures Storage.FindIndex(w.transcripts, job.transcriptId) == -1 ==> r.outcome.Fail?
  {
    var tid := job.transcriptId;
    var saved := UpdateTranscript(w, tid, TranscribedPatch(text));
    if saved.outcome.Fail? then Catch(saved.world, job, saved.outcome.error, now)
    else Complete(Announce(saved.world, tid, text, settings, services, now), job, now)
  }

  /** `processJob`, given what the transcription of the job's chunks produced. */
  function ProcessJobSpec(w: World, job: Job, settings: Storage.Settings, services: Services,
                          transcription: Result<string, string>, now: int): (r: After)
    ensures r.outcome.Pass? ==> transcription.Success?
  {
    var b := Begin(w, job, now);
    if b.outcome.Fail? then Catch(b.world, job, b.outcome.error, now)
    else if transcription.Failure? then Catch(b.world, job, transcription.error, now)
    else Finish(b.world, job, transcription.value, settings, services, now)
  }

  /** The effects of a run that gets through its first steps. */
  function StartEffects(job: Job, now: int): seq<Effect> {
    [JobStatusSet(job.id, Processing, NoPatch),
     TranscriptUpdated(job.transcriptId, ProcessingPatch),
     Notified(ProcessingStarted(job.transcriptId, |job.chunks|))]
  }

  /** With the job and its transcript present, the first steps mark both
      processing and tell the popup. */
  lemma BeginRuns(w: World, job: Job, now: int)
    requires IndexOf(w.jobs, job.id) >= 0 && Storage.FindIndex(w.transcripts, job.transcriptId) >= 0
    ensures var k := IndexOf(w.jobs, job.id);
      var t := Storage.FindIndex(w.transcripts, job.transcriptId);
      var b := Begin(w, job, now);
      b.outcome == Pass &&
      b.world.jobs == w.jobs[k := Transition(w.jobs[k], Processing, NoPatch, now)] &&
      b.world.transcripts == w.transcripts[t := Storage.MergePatch(w.transcripts[t], ProcessingPatch)] &&
      b.world.log == w.log + StartEffects(job, now) &&
      IndexOf(b.world.jobs, job.id) == k && Storage.FindIndex(b.world.transcripts, job.transcriptId) == t
  {
    var s := SetStatus(w, job.id, Processing, NoPatch, now);
    var u := UpdateTranscript(s.world, job.transcriptId, ProcessingPatch);
    assert u.world.log + [Notified(ProcessingStarted(job.transcriptId, |job.chunks|))] == w.log + StartEffects(job, now);
  }

  /** With the job and its transcript present, the catch block marks the
      transcript with the error, fails the job with the message, tells the
      popup and rethrows the message. */
  lemma CatchRuns(w: World, job: Job, message: string, now: int)
    requires IndexOf(w.jobs, job.id) >= 0 && Storage.FindIndex(w.transcripts, job.transcriptId) >= 0
    ensures var k := IndexOf(w.jobs, job.id);
      var t := Storage.FindIndex(w.transcripts, job.transcriptId);
      Catch(w, job, message, now) == After(World(
        w.jobs[k := Transition(w.jobs[k], Failed, ErrorPatch(message), now)],
        w.transcripts[t := Storage.MergePatch(w.transcripts[t], FailedPatch(message))],
        w.log + [TranscriptUpdated(job.transcriptId, FailedPatch(message)),
                 JobStatusSet(job.id, Failed, ErrorPatch(message)),
                 Notified(ErrorNotice(job.transcriptId, message))]), Fail(message))
  {
    var u := UpdateTranscript(w, job.transcriptId, FailedPatch(message));
    var s := SetStatus(u.world, job.id, Failed, ErrorPatch(message), now);
    assert Notify(s.world, ErrorNotice(job.transcriptId, message)).log ==
      w.log + [TranscriptUpdated(job.transcriptId, FailedPatch(message)),
               JobStatusSet(job.id, Failed, ErrorPatch(message)),
               Notified(ErrorNotice(job.transcriptId, message))];
  }

  /** With the job and its transcript present, the last steps mark the
      transcript and then the job completed. */
  lemma CompleteRuns(w: World, job: Job, now: int)
    requires IndexOf(w.jobs, job.id) >= 0 && Storage.FindIndex(w.transcripts, job.transcriptId) >= 0
    ensures var k := IndexOf(w.jobs, job.id);
      var t := Storage.FindIndex(w.transcripts, job.transcriptId);
      Complete(w, job, now) == After(World(
        w.jobs[k := Transition(w.jobs[k], Completed, NoPatch, now)],
        w.transcripts[t := Storage.MergePatch(w.transcripts[t], CompletedPatch)],
        w.log + CompletedEffects(job, now)), Pass)
  {
    var tid := job.transcriptId;
    var marked := UpdateTranscript(w, tid, CompletedPatch);
    var done := SetStatus(MarkLastCompleted(marked.world, tid, now), job.id, Completed, NoPatch, now);
    assert done.world.log == w.log + CompletedEffects(job, now);
  }

  /** `log` starts with `x` and `head` and writes no job status from `from`
      on; without a summary step it is exactly `x + head`. */
  predicate HeadShaped(log: seq<Effect>, x: seq<Effect>, head: seq<Effect>, from: int, summarize: bool) {
    |log| >= |x| + |head| &&
    log[..|x| + |head|] == x + head &&
    NoStatusWrites(log, from, |log|) &&
    (!summarize ==> log == x + head)
  }

  /** Appending effects that end in their only status write completes the shape. */
  lemma AppendLast(log: seq<Effect>, x: seq<Effect>, head: seq<Effect>, tail: seq<Effect>, from: int, summarize: bool)
    requires HeadShaped(log, x, head, from, summarize)
    requires |tail| >= 1 && NoStatusWrites(tail, 0, |tail| - 1)
    ensures LogShaped(log + tail, x, head, tail, from, summarize)
  {
    var r := log + tail;
    assert r[|r| - |tail|..] == tail;
    assert r[..|x| + |head|] == log[..|x| + |head|];
    forall i | from <= i < |r| - 1 && 0 <= i < |r| ensures !r[i].JobStatusSet? {
      if i >= |log| {
        assert r[i] == tail[i - |log|];
      }
    }
  }

  /** The last steps, run on a world whose effects have the shape up to the
      completed write, complete it. */
  lemma CompleteLog(a: World, x: seq<Effect>, job: Job, text: string, summarize: bool, now: int)
    requires IndexOf(a.jobs, job.id) >= 0 && Storage.FindIndex(a.transcripts, job.transcriptId) >= 0
    requires HeadShaped(a.log, x, SavedEffects(job.transcriptId, text, now), |x|, summarize)
    ensures LogShaped(Complete(a, job, now).world.log, x, SavedEffects(job.transcriptId, text, now),
                      CompletedEffects(job, now), |x|, summarize)
  {
    CompleteRuns(a, job, now);
    AppendLast(a.log, x, SavedEffects(job.transcriptId, text, now), CompletedEffects(job, now), |x|, summarize);
  }

  /** `log` starts with `x` and `head`, ends with `tail`, and writes no job
      status from `from` on except in its last effect; without a summary step
      it is exactly `x + head + tail`. */
  predicate LogShaped(log: seq<Effect>, x: seq<Effect>, head: seq<Effect>, tail: seq<Effect>, from: int, summarize: bool) {
    |log| >= |x| + |head| + |tail| &&
    log[..|x| + |head|] == x + head &&
    log[|log| - |tail|..] == tail &&
    NoStatusWrites(log, from, |log| - 1) &&
    (!summarize ==> log == x + head + tail)
  }

  /** Putting in front a stretch whose only status write comes first keeps
      the shape, with the stretch joined to the head. */
  lemma PrependFirst(x: seq<Effect>, first: seq<Effect>, head: seq<Effect>, tail: seq<Effect>, log: seq<Effect>, summarize: bool)
    requires |first| >= 1 && NoStatusWrites(first, 1, |first|)
    requires LogShaped(log, x + first, head, tail, |x + first|, summarize)
    ensures LogShaped(log, x, first + head, tail, |x| + 1, summarize)
  {
    assert x + first + head == x + (first + head);
    forall i | |x| + 1 <= i < |log| - 1 && 0 <= i < |log| ensures !log[i].JobStatusSet? {
      if i < |x + first| {
        assert log[..|x + first| + |head|][i] == log[i];
        assert log[i] == first[i - |x|];
      }
    }
  }

  /** The world the last steps start from: the text written, then the
      announcement. */
  function Announced(w: World, job: Job, text: string, settings: Storage.Settings, services: Services, now: int): World {
    Announce(UpdateTranscript(w, job.transcriptId, TranscribedPatch(text)).world, job.transcriptId, text, settings, services, now)
  }

  function SavedEffects(tid: string, text: string, now: int): seq<Effect> {
    [TranscriptUpdated(tid, TranscribedPatch(text)), LastCompleted(tid, now), Notified(TranscriptionComplete(tid, text))]
  }

  function CompletedEffects(job: Job, now: int): seq<Effect> {
    [TranscriptUpdated(job.transcriptId, CompletedPatch), LastCompleted(job.transcriptId, now),
     JobStatusSet(job.id, Completed, NoPatch)]
  }

  lemma FinishUnfold(w: World, job: Job, text: string, settings: Storage.Settings, services: Services, now: int)
    requires Storage.FindIndex(w.transcripts, job.transcriptId) >= 0
    ensures Finish(w, job, text, settings, services, now) == Complete(Announced(w, job, text, settings, services, now), job, now)
  {
  }

  /** Once the text is written, the record holds it through the summary step. */
  lemma AnnouncedState(w: World, job: Job, text: string, settings: Storage.Settings, services: Services, now: int)
    requires Storage.FindIndex(w.transcripts, job.transcriptId) >= 0
    ensures var a := Announced(w, job, text, settings, services, now);
      var t := Storage.FindIndex(w.transcripts, job.transcriptId);
      a.jobs == w.jobs && |a.transcripts| == |w.transcripts| &&
      Storage.FindIndex(a.transcripts, job.transcriptId) == t && a.transcripts[t].transcript == text
  {
  }

  /** The effects up to the completed write: the text write and the
      announcement first, then the summary step's, none of them a status write. */
  lemma AnnouncedLog(w: World, saved: World, tid: string, text: string, settings: Storage.Settings, services: Services, now: int)
    requires saved.log == w.log + [TranscriptUpdated(tid, TranscribedPatch(text))]
    ensures HeadShaped(Announce(saved, tid, text, settings, services, now).log, w.log,
                       SavedEffects(tid, text, now), |w.log|, settings.autoSummarize)
  {
    PrependOne(Announce(saved, tid, text, settings, services, now).log, w.log,
               TranscriptUpdated(tid, TranscribedPatch(text)),
               [LastCompleted(tid, now), Notified(TranscriptionComplete(tid, text))], settings.autoSummarize);
  }

  /** Moving an effect that is not a status write from the prefix into the
      head keeps the shape. */
  lemma PrependOne(log: seq<Effect>, x: seq<Effect>, e: Effect, head: seq<Effect>, summarize: bool)
    requires !e.JobStatusSet? && HeadShaped(log, x + [e], head, |x| + 1, summarize)
    ensures HeadShaped(log, x, [e] + head, |x|, summarize)
  {
    assert x + [e] + head == x + ([e] + head);
    assert log[|x|] == log[..|x| + 1 + |head|][|x|];
  }

  /** With the job and its transcript present, the steps after the
      transcription leave the text in the record, mark it completed and mark
      the job completed. */
  lemma FinishState(w: World, job: Job, text: string, settings: Storage.Settings, services: Services, now: int)
    requires IndexOf(w.jobs, job.id) >= 0 && Storage.FindIndex(w.transcripts, job.transcriptId) >= 0
    ensures var r := Finish(w, job, text, settings, services, now);
      var k := IndexOf(w.jobs, job.id);
      var t := Storage.FindIndex(w.transcripts, job.transcriptId);
      r.outcome == Pass &&
      r.world.jobs == w.jobs[k := Transition(w.jobs[k], Completed, NoPatch, now)] &&
      |r.world.transcripts| == |w.transcripts| &&
      r.world.transcripts[t].transcript == text && r.world.transcripts[t].status == Some(Storage.Completed)
  {
    FinishUnfold(w, job, text, settings, services, now);
    AnnouncedState(w, job, text, settings, services, now);
    CompleteRuns(Announced(w, job, text, settings, services, now), job, now);
  }

  /** With the job and its transcript present, the effects after the
      transcription are the text write and announcement, whatever the summary
      step adds, and the completion writes, with the job's status last. */
  lemma FinishLog(w: World, job: Job, text: string, settings: Storage.Settings, services: Services, now: int)
    requires IndexOf(w.jobs, job.id) >= 0 && Storage.FindIndex(w.transcripts, job.transcriptId) >= 0
    ensures LogShaped(Finish(w, job, text, settings, services, now).world.log, w.log,
                      SavedEffects(job.transcriptId, text, now), CompletedEffects(job, now), |w.log|, settings.autoSummarize)
  {
    var a := Announced(w, job, text, settings, services, now);
    FinishUnfold(w, job, text, settings, services, now);
    AnnouncedState(w, job, text, settings, services, now);
    AnnouncedLog(w, UpdateTranscript(w, job.transcriptId, TranscribedPatch(text)).world, job.transcriptId, text,
                 settings, services, now);
    CompleteLog(a, w.log, job, text, settings.autoSummarize, now);
  }

  /** A job whose record and transcript exist and whose chunks are all
      transcribed ends completed, whatever happens to the summary: the
      transcript holds the text and is marked completed, and no other job
      changes. */
  lemma ProcessJobSucceeds(w: World, job: Job, settings: Storage.Settings, services: Services, text: string, now: int)
    requires IndexOf(w.jobs, job.id) >= 0 && Storage.FindIndex(w.transcripts, job.transcriptId) >= 0
    ensures var r := ProcessJobSpec(w, job, settings, services, Success(text), now);
      var k := IndexOf(w.jobs, job.id);
      var t := Storage.FindIndex(w.transcripts, job.transcriptId);
      r.outcome == Pass &&
      |r.world.jobs| == |w.jobs| && r.world.jobs[k].status == Completed &&
      (forall i :: 0 <= i < |w.jobs| && i != k ==> r.world.jobs[i] == w.jobs[i]) &&
      |r.world.transcripts| == |w.transcripts| &&
      r.world.transcripts[t].transcript == text && r.world.transcripts[t].status == Some(Storage.Completed)
  {
    BeginRuns(w, job, now);
    FinishState(Begin(w, job, now).world, job, text, settings, services, now);
  }

  /** A run that gets through its first steps with a transcript goes on
      with the steps after the transcription. */
  lemma SucceedsThroughFinish(w: World, job: Job, settings: Storage.Settings, services: Services, text: string, now: int)
    requires IndexOf(w.jobs, job.id) >= 0 && Storage.FindIndex(w.transcripts, job.transcriptId) >= 0
    ensures ProcessJobSpec(w, job, settings, services, Success(text), now) ==
            Finish(Begin(w, job, now).world, job, text, settings, services, now)
  {
    BeginRuns(w, job, now);
  }

  lemma FinishAfterBeginLog(w: World, b: World, job: Job, settings: Storage.Settings, services: Services, text: string, now: int)
    requires IndexOf(b.jobs, job.id) >= 0 && Storage.FindIndex(b.transcripts, job.transcriptId) >= 0
    requires b.log == w.log + StartEffects(job, now)
    ensures LogShaped(Finish(b, job, text, settings, services, now).world.log, w.log,
                      StartEffects(job, now) + SavedEffects(job.transcriptId, text, now), CompletedEffects(job, now),
                      |w.log| + 1, settings.autoSummarize)
  {
    FinishLog(b, job, text, settings, services, now);
    PrependFirst(w.log, StartEffects(job, now), SavedEffects(job.transcriptId, text, now), CompletedEffects(job, now),
                 Finish(b, job, text, settings, services, now).world.log, settings.autoSummarize);
  }

  lemma BeginKeeps(w: World, job: Job, now: int)
    requires IndexOf(w.jobs, job.id) >= 0 && Storage.FindIndex(w.transcripts, job.transcriptId) >= 0
    ensures var b := Begin(w, job, now).world;
      b.log == w.log + StartEffects(job, now) &&
      IndexOf(b.jobs, job.id) >= 0 && Storage.FindIndex(b.transcripts, job.transcriptId) >= 0
  {
    BeginRuns(w, job, now);
  }

  /** The effects of a successful run: the three first steps, the text write
      and announcement, then whatever the summary step adds, and the
      completion writes; the job's status is written first and last and never
      in between. Without auto-summarize there is nothing in the middle. */
  lemma ProcessJobSucceedsLog(w: World, job: Job, settings: Storage.Settings, services: Services, text: string, now: int)
    requires IndexOf(w.jobs, job.id) >= 0 && Storage.FindIndex(w.transcripts, job.transcriptId) >= 0
    ensures LogShaped(ProcessJobSpec(w, job, settings, services, Success(text), now).world.log, w.log,
                      StartEffects(job, now) + SavedEffects(job.transcriptId, text, now), CompletedEffects(job, now),
                      |w.log| + 1, settings.autoSummarize)
  {
    SucceedsThroughFinish(w, job, settings, services, text, now);
    BeginKeeps(w, job, now);
    FinishAfterBeginLog(w, Begin(w, job, now).world, job, settings, services, text, now);
  }

  /** A job whose record and transcript exist but whose transcription fails
      ends failed: the transcript carries the error marker and the message,
      the job is failed with that message, the popup is told, and the same
      message is rethrown. */
  lemma ProcessJobFails(w: World, job: Job, settings: Storage.Settings, services: Services, message: string, now: int)
    requires IndexOf(w.jobs, job.id) >= 0 && Storage.FindIndex(w.transcripts, job.transcriptId) >= 0
    ensures var r := ProcessJobSpec(w, job, settings, services, Failure(message), now);
      var k := IndexOf(w.jobs, job.id);
      var t := Storage.FindIndex(w.transcripts, job.transcriptId);
      var tid := job.transcriptId;
      r.outcome == Fail(message) &&
      r.world.jobs[k].status == Failed && r.world.jobs[k].error == Some(message) &&
      (forall i :: 0 <= i < |w.jobs| && i != k ==> r.world.jobs[i] == w.jobs[i]) &&
      r.world.transcripts[t].transcript == ErrorPrefix + message &&
      r.world.transcripts[t].status == Some(Storage.Failed) &&
      r.world.log == w.log + StartEffects(job, now) +
        [TranscriptUpdated(tid, FailedPatch(message)), JobStatusSet(job.id, Failed, ErrorPatch(message)),
         Notified(ErrorNotice(tid, message))]
  {
    var k := IndexOf(w.jobs, job.id);
    BeginRuns(w, job, now);
    var b := Begin(w, job, now);
    CatchRuns(b.world, job, message, now);
    TransitionStamps(b.world.jobs[k], Failed, ErrorPatch(message), now);
  }

  /** When the job's transcript is missing, the first transcript write
      throws, the catch block's own write throws the same way, and the job is
      left processing with nothing else written. */
  lemma ProcessJobMissingTranscript(w: World, job: Job, settings: Storage.Settings, services: Services,
                                    transcription: Result<string, string>, now: int)
    requires IndexOf(w.jobs, job.id) >= 0 && Storage.FindIndex(w.transcripts, job.transcriptId) == -1
    ensures var r := ProcessJobSpec(w, job, settings, services, transcription, now);
      var k := IndexOf(w.jobs, job.id);
      r.outcome == Fail(Storage.NotFoundMessage) &&
      r.world.jobs == w.jobs[k := Transition(w.jobs[k], Processing, NoPatch, now)] &&
      r.world.transcripts == w.transcripts &&
      r.world.log == w.log + [JobStatusSet(job.id, Processing, NoPatch)]
  {
  }

  /** A run whose job record has gone missing still reaches the catch block:
      the first status write throws `Job not found`, the catch block marks
      the transcript failed with that message, and then its own status write
      throws the same error again. The queue is never written. */
  lemma ProcessJobMissingJob(w: World, job: Job, settings: Storage.Settings, services: Services,
                             transcription: Result<string, string>, now: int)
    requires IndexOf(w.jobs, job.id) == -1 && Storage.FindIndex(w.transcripts, job.transcriptId) >= 0
    ensures var r := ProcessJobSpec(w, job, settings, services, transcription, now);
      var t := Storage.FindIndex(w.transcripts, job.transcriptId);
      var message := JobNotFound(job.id).Message();
      r.outcome == Fail(message) &&
      r.world.jobs == w.jobs &&
      r.world.transcripts == w.transcripts[t := Storage.MergePatch(w.transcripts[t], FailedPatch(message))] &&
      r.world.log == w.log + [TranscriptUpdated(job.transcriptId, FailedPatch(message))]
  {
    var message := JobNotFound(job.id).Message();
    var b := Begin(w, job, now);
    assert b == After(w, Fail(message));
    var u := UpdateTranscript(w, job.transcriptId, FailedPatch(message));
    assert IndexOf(u.world.jobs, job.id) == -1;
  }

  /** Whether a run throws never depends on the summary: two worlds that
      differ only in the server's answer to the summary request end the run
      the same way. */
  lemma SummaryNeverThrows(w: World, job: Job, settings: Storage.Settings, s1: Services, s2: Services,
                           transcription: Result<string, string>, now: int)
    requires s1.decode == s2.decode && s1.transcriptionReply == s2.transcriptionReply
    ensures ProcessJobSpec(w, job, settings, s1, transcription, now).outcome ==
            ProcessJobSpec(w, job, settings, s2, transcription, now).outcome
  {
    var b := Begin(w, job, now);
    if b.outcome.Pass? && transcription.Success? {
      var text := transcription.value;
      var tid := job.transcriptId;
      var saved := UpdateTranscript(b.world, tid, TranscribedPatch(text));
      if saved.outcome.Pass? {
        var told := Notify(MarkLastCompleted(saved.world, tid, now), TranscriptionComplete(tid, text));
        if settings.autoSummarize {
          var m1 := Summarize(told, tid, text, settings, s1, now);
          var m2 := Summarize(told, tid, text, settings, s2, now);
          assert Storage.FindIndex(m1.transcripts, tid) == Storage.FindIndex(m2.transcripts, tid);
        }
      }
    }
  }

  /** The job `getNextJob` picks is stored and queued, so its run takes one
      job out of the queued ones; when it picks none, no job is queued. */
  lemma NextJobQueued(js: seq<Job>)
    requires UniqueIds(js)
    ensures GetNextJob(js).None? ==> forall j :: j in js ==> j.status != Queued
    ensures GetNextJob(js).Some? ==>
      var job := GetNextJob(js).value;
      IndexOf(js, job.id) >= 0 && js[IndexOf(js, job.id)] == job && job.status == Queued
  {
    GetNextJobSpec(js);
    if GetNextJob(js).Some? {
      var p :| IsNext(js, p) && GetNextJob(js) == Some(js[p]);
      IndexOfMember(js, js[p]);
    } else {
      forall j | j in js ensures j.status != Queued {
        var p :| 0 <= p < |js| && js[p] == j;
      }
    }
  }

  // ---------------------------------------------------------------------
  // every run makes progress through the queue

  /** A run of the processor only appends effects, never takes a job back
      into the queue, and takes the job out of it when the job was queued. */
  predicate Progress(w: World, r: World) {
    w.log <= r.log && QueuedCount(r.jobs) <= QueuedCount(w.jobs)
  }

  /** The job `id` was queued in `w` and is not any more in `r`. */
  predicate Dequeued(w: World, r: World, id: string) {
    IndexOf(w.jobs, id) >= 0 && w.jobs[IndexOf(w.jobs, id)].status == Queued ==> QueuedCount(r.jobs) < QueuedCount(w.jobs)
  }

  lemma SetStatusProgress(w: World, id: string, status: Status, patch: JobPatch, now: int)
    requires status != Queued
    ensures Progress(w, SetStatus(w, id, status, patch, now).world)
    ensures Dequeued(w, SetStatus(w, id, status, patch, now).world, id)
  {
    var k := IndexOf(w.jobs, id);
    if k >= 0 {
      WithStatusReplace(w.jobs, k, Transition(w.jobs[k], status, patch, now), Queued);
    }
  }

  lemma CatchProgress(w: World, job: Job, message: string, now: int)
    ensures Progress(w, Catch(w, job, message, now).world)
  {
    var u := UpdateTranscript(w, job.transcriptId, FailedPatch(message));
    SetStatusProgress(u.world, job.id, Failed, ErrorPatch(message), now);
  }

  lemma CompleteProgress(w: World, job: Job, now: int)
    ensures Progress(w, Complete(w, job, now).world)
  {
    var tid := job.transcriptId;
    var marked := UpdateTranscript(w, tid, CompletedPatch);
    if marked.outcome.Fail? {
      assert Complete(w, job, now) == Catch(marked.world, job, marked.outcome.error, now);
      CatchProgress(marked.world, job, marked.outcome.error, now);
    } else {
      var last := MarkLastCompleted(marked.world, tid, now);
      var done := SetStatus(last, job.id, Completed, NoPatch, now);
      assert Progress(w, last);
      SetStatusProgress(last, job.id, Completed, NoPatch, now);
      if done.outcome.Fail? {
        assert Complete(w, job, now) == Catch(done.world, job, done.outcome.error, now);
        CatchProgress(done.world, job, done.outcome.error, now);
        ProgressTransitive(w, last, done.world);
        ProgressTransitive(w, done.world, Complete(w, job, now).world);
      } else {
        assert Complete(w, job, now) == done;
        ProgressTransitive(w, last, done.world);
      }
    }
  }

  lemma ProgressTransitive(u: World, v: World, w: World)
    requires Progress(u, v) && Progress(v, w)
    ensures Progress(u, w)
  {
  }

  lemma AnnounceProgress(w: World, tid: string, text: string, settings: Storage.Settings, services: Services, now: int)
    ensures Progress(w, Announce(w, tid, text, settings, services, now))
  {
    var r := Announce(w, tid, text, settings, services, now);
    var head := [LastCompleted(tid, now), Notified(TranscriptionComplete(tid, text))];
    assert r.log[..|w.log| + |head|] == w.log + head;
    assert w.log == r.log[..|w.log|] by {
      assert r.log[..|w.log|] == (w.log + head)[..|w.log|];
    }
  }

  lemma FinishProgress(w: World, job: Job, text: string, settings: Storage.Settings, services: Services, now: int)
    ensures Progress(w, Finish(w, job, text, settings, services, now).world)
  {
    var saved := UpdateTranscript(w, job.transcriptId, TranscribedPatch(text));
    if saved.outcome.Fail? {
      CatchProgress(saved.world, job, saved.outcome.error, now);
    } else {
      var a := Announce(saved.world, job.transcriptId, text, settings, services, now);
      assert Progress(w, saved.world);
      AnnounceProgress(saved.world, job.transcriptId, text, settings, services, now);
      CompleteProgress(a, job, now);
      ProgressTransitive(w, saved.world, a);
      ProgressTransitive(w, a, Complete(a, job, now).world);
    }
  }

  /** Every run of `processJob` leaves the effects so far in place and one
      queued job fewer when the job it ran was queued: the loop of
      `processQueue` ends. */
  lemma ProcessJobProgress(w: World, job: Job, settings: Storage.Settings, services: Services,
                           transcription: Result<string, string>, now: int)
    ensures Progress(w, ProcessJobSpec(w, job, settings, services, transcription, now).world)
    ensures Dequeued(w, ProcessJobSpec(w, job, settings, services, transcription, now).world, job.id)
  {
    var s := SetStatus(w, job.id, Processing, NoPatch, now);
    SetStatusProgress(w, job.id, Processing, NoPatch, now);
    var b := Begin(w, job, now);
    assert Progress(w, b.world) && Dequeued(w, b.world, job.id);
    var r := ProcessJobSpec(w, job, settings, services, transcription, now).world;
    if b.outcome.Fail? {
      CatchProgress(b.world, job, b.outcome.error, now);
    } else if transcription.Failure? {
      CatchProgress(b.world, job, transcription.error, now);
    } else {
      FinishProgress(b.world, job, transcription.value, settings, services, now);
    }
    assert Progress(b.world, r);
    ProgressTransitive(w, b.world, r);
    DequeuedAfter(w, b.world, r, job.id);
  }

  lemma DequeuedAfter(w: World, v: World, r: World, id: string)
    requires Dequeued(w, v, id) && Progress(v, r)
    ensures Dequeued(w, r, id)
  {
  }

  // ---------------------------------------------------------------------
  // a run changes only the job it runs

  /** `b` holds jobs with the ids of `a` in the same order and differs from
      it at most at position `k`, whose job is never put back into the queue. */
  predicate TouchesOnly(a: seq<Job>, b: seq<Job>, k: int) {
    |b| == |a| &&
    (forall i :: 0 <= i < |a| ==> b[i].id == a[i].id) &&
    (forall i :: 0 <= i < |a| && i != k ==> b[i] == a[i]) &&
    (0 <= k < |a| && b[k].status == Queued ==> b[k] == a[k])
  }

  lemma TouchesOnlyTransitive(a: seq<Job>, b: seq<Job>, c: seq<Job>, k: int)
    requires TouchesOnly(a, b, k) && TouchesOnly(b, c, k)
    ensures TouchesOnly(a, c, k)
  {
  }

  lemma SetStatusTouches(w: World, id: string, status: Status, patch: JobPatch, now: int)
    requires status != Queued
    ensures TouchesOnly(w.jobs, SetStatus(w, id, status, patch, now).world.jobs, IndexOf(w.jobs, id))
  {
  }

  lemma CatchTouches(w: World, job: Job, message: string, now: int)
    ensures TouchesOnly(w.jobs, Catch(w, job, message, now).world.jobs, IndexOf(w.jobs, job.id))
  {
    var u := UpdateTranscript(w, job.transcriptId, FailedPatch(message));
    SetStatusTouches(u.world, job.id, Failed, ErrorPatch(message), now);
  }

  lemma CompleteTouches(w: World, job: Job, now: int)
    ensures TouchesOnly(w.jobs, Complete(w, job, now).world.jobs, IndexOf(w.jobs, job.id))
  {
    var tid := job.transcriptId;
    var marked := UpdateTranscript(w, tid, CompletedPatch);
    if marked.outcome.Fail? {
      CatchTouches(marked.world, job, marked.outcome.error, now);
    } else {
      var last := MarkLastCompleted(marked.world, tid, now);
      SetStatusTouches(last, job.id, Completed, NoPatch, now);
      var done := SetStatus(last, job.id, Completed, NoPatch, now);
      if done.outcome.Fail? {
        CatchTouches(done.world, job, done.outcome.error, now);
      }
    }
  }

  lemma FinishTouches(w: World, job: Job, text: string, settings: Storage.Settings, services: Services, now: int)
    ensures TouchesOnly(w.jobs, Finish(w, job, text, settings, services, now).world.jobs, IndexOf(w.jobs, job.id))
  {
    var saved := UpdateTranscript(w, job.transcriptId, TranscribedPatch(text));
    if saved.outcome.Fail? {
      CatchTouches(saved.world, job, saved.outcome.error, now);
    } else {
      CompleteTouches(Announce(saved.world, job.transcriptId, text, settings, services, now), job, now);
    }
  }

  /** A run of `processJob` changes only the stored job with the run's id,
      keeps every id in its place, and leaves that job out of the queue. */
  lemma ProcessJobTouches(w: World, job: Job, settings: Storage.Settings, services: Services,
                          transcription: Result<string, string>, now: int)
    ensures var k := IndexOf(w.jobs, job.id);
      var r := ProcessJobSpec(w, job, settings, services, transcription, now).world;
      TouchesOnly(w.jobs, r.jobs, k) && (k >= 0 ==> r.jobs[k].status != Queued)
  {
    var k := IndexOf(w.jobs, job.id);
    SetStatusTouches(w, job.id, Processing, NoPatch, now);
    var b := Begin(w, job, now);
    var r := ProcessJobSpec(w, job, settings, services, transcription, now);
    assert IndexOf(b.world.jobs, job.id) == k;
    assert k >= 0 ==> b.world.jobs[k].status == Processing;
    if b.outcome.Fail? {
      assert r == Catch(b.world, job, b.outcome.error, now);
      CatchTouches(b.world, job, b.outcome.error, now);
    } else if transcription.Failure? {
      assert r == Catch(b.world, job, transcription.error, now);
      CatchTouches(b.world, job, transcription.error, now);
    } else {
      assert r == Finish(b.world, job, transcription.value, settings, services, now);
      FinishTouches(b.world, job, transcription.value, settings, services, now);
    }
    TouchesOnlyTransitive(w.jobs, b.world.jobs, r.world.jobs, k);
  }

  // ---------------------------------------------------------------------
  // processQueue: one turn after another until nothing is queued

  /** One turn of the loop of `processQueue`: `job` is what `getNextJob`
      picks in `w`, and `r` is what `processJob` makes of `w` for an outcome
      the transcription of the job's chunks can have. */
  ghost predicate Turn(w: World, job: Job, transcription: Result<string, string>, r: World,
                       settings: Storage.Settings, services: Services, now: int) {
    GetNextJob(w.jobs) == Some(job) &&
    (Begin(w, job, now).outcome.Pass? ==> TranscriptionOutcome(job.chunks, settings, services, transcription)) &&
    r == ProcessJobSpec(w, job, settings, services, transcription, now).world
  }

  /** Turn i runs `runs[i]` from `worlds[i]` to `worlds[i + 1]`. */
  ghost predicate Turns(worlds: seq<World>, runs: seq<Job>, transcriptions: seq<Result<string, string>>,
                        settings: Storage.Settings, services: Services, now: int) {
    |worlds| == |runs| + 1 && |transcriptions| == |runs| &&
    forall i :: 0 <= i < |runs| ==> Turn(worlds[i], runs[i], transcriptions[i], worlds[i + 1], settings, services, now)
  }

  /** A whole `processQueue`: turns until `getNextJob` finds nothing. */
  ghost predicate Drain(worlds: seq<World>, runs: seq<Job>, transcriptions: seq<Result<string, string>>,
                        settings: Storage.Settings, services: Services, now: int) {
    Turns(worlds, runs, transcriptions, settings, services, now) && GetNextJob(worlds[|runs|].jobs).None?
  }

  /** `job` is a stored queued job and no queued job is older. */
  ghost predicate OldestQueued(js: seq<Job>, job: Job) {
    job in js && job.status == Queued &&
    forall q :: 0 <= q < |js| && js[q].status == Queued ==> job.createdAt <= js[q].createdAt
  }

  /** What a turn does to the jobs, as far as the loop needs to know: it
      runs an oldest queued job, changes no other stored job, leaves that one
      out of the queue and keeps the effects so far. */
  ghost predicate StepEffect(w: World, job: Job, r: World) {
    var k := IndexOf(w.jobs, job.id);
    OldestQueued(w.jobs, job) && TouchesOnly(w.jobs, r.jobs, k) &&
    (k >= 0 ==> r.jobs[k].status != Queued) && w.log <= r.log
  }

  lemma TurnEffect(w: World, job: Job, t: Result<string, string>, r: World,
                   settings: Storage.Settings, services: Services, now: int)
    requires Turn(w, job, t, r, settings, services, now)
    ensures StepEffect(w, job, r)
  {
    GetNextJobSpec(w.jobs);
    ProcessJobTouches(w, job, settings, services, t, now);
    ProcessJobProgress(w, job, settings, services, t, now);
  }

  ghost predicate Steps(worlds: seq<World>, runs: seq<Job>) {
    |worlds| == |runs| + 1 &&
    forall i :: 0 <= i < |runs| ==> StepEffect(worlds[i], runs[i], worlds[i + 1])
  }

  lemma TurnsAreSteps(worlds: seq<World>, runs: seq<Job>, transcriptions: seq<Result<string, string>>,
                      settings: Storage.Settings, services: Services, now: int)
    requires Turns(worlds, runs, transcriptions, settings, services, now)
    ensures Steps(worlds, runs)
  {
    forall i | 0 <= i < |runs| ensures StepEffect(worlds[i], runs[i], worlds[i + 1]) {
      TurnEffect(worlds[i], runs[i], transcriptions[i], worlds[i + 1], settings, services, now);
    }
  }

  /** One more turn extends the turns so far. */
  lemma TurnsSnoc(worlds: seq<World>, runs: seq<Job>, transcriptions: seq<Result<string, string>>,
                  job: Job, t: Result<string, string>, r: World,
                  settings: Storage.Settings, services: Services, now: int)
    requires Turns(worlds, runs, transcriptions, settings, services, now)
    requires Turn(worlds[|runs|], job, t, r, settings, services, now)
    ensures Turns(worlds + [r], runs + [job], transcriptions + [t], settings, services, now)
  {
    var ws := worlds + [r];
    var rs := runs + [job];
    var ts := transcriptions + [t];
    forall i | 0 <= i < |rs| ensures Turn(ws[i], rs[i], ts[i], ws[i + 1], settings, services, now) {
      if i < |runs| {
        assert ws[i] == worlds[i] && ws[i + 1] == worlds[i + 1] && rs[i] == runs[i] && ts[i] == transcriptions[i];
      } else {
        assert ws[i] == worlds[|runs|] && ws[i + 1] == r && rs[i] == job && ts[i] == t;
      }
    }
  }

  /** What the turns that ran `runs` did to the jobs `a` held at the start:
      same ids in the same places; a job not run is as it was; each job run
      was queued at the start and is not queued now; no job ran twice. */
  ghost predicate RanSoFar(a: seq<Job>, c: seq<Job>, runs: seq<Job>) {
    |c| == |a| &&
    (forall i :: 0 <= i < |a| ==> c[i].id == a[i].id) &&
    (forall p :: 0 <= p < |a| && a[p].id !in Ids(runs) ==> c[p] == a[p]) &&
    (forall i :: 0 <= i < |runs| ==>
      0 <= IndexOf(a, runs[i].id) && a[IndexOf(a, runs[i].id)].status == Queued &&
      c[IndexOf(a, runs[i].id)].status != Queued) &&
    (forall i, j :: 0 <= i < j < |runs| ==> runs[i].id != runs[j].id)
  }

  /** Sequences with the same ids in the same places look every id up alike. */
  lemma {:induction false} SameIdsIndexOf(a: seq<Job>, c: seq<Job>, id: string)
    requires |c| == |a| && forall i :: 0 <= i < |a| ==> c[i].id == a[i].id
    ensures IndexOf(a, id) == IndexOf(c, id)
    decreases |a|
  {
    if a != [] && a[0].id != id {
      SameIdsIndexOf(a[1..], c[1..], id);
    }
  }

  /** Ids kept in their places stay unique. */
  lemma SameIdsUnique(a: seq<Job>, c: seq<Job>)
    requires UniqueIds(a) && |c| == |a| && forall i :: 0 <= i < |a| ==> c[i].id == a[i].id
    ensures UniqueIds(c)
  {
    forall x, y | 0 <= x < y < |c| ensures c[x].id != c[y].id {
      assert c[x].id == a[x].id && c[y].id == a[y].id;
    }
  }

  /** With unique ids, the job at `p` is the one found by its id. */
  lemma IndexOfAt(js: seq<Job>, p: int)
    requires UniqueIds(js) && 0 <= p < |js|
    ensures IndexOf(js, js[p].id) == p
  {
  }

  /** The job a turn runs sits where it sat at the start and was not run
      before. */
  lemma {:induction false} PickedFresh(a: seq<Job>, c: seq<Job>, runs: seq<Job>, job: Job)
    requires UniqueIds(a) && RanSoFar(a, c, runs) && job in c && job.status == Queued
    ensures UniqueIds(c)
    ensures var k := IndexOf(c, job.id);
      k >= 0 && c[k] == job && IndexOf(a, job.id) == k &&
      a[k].id !in Ids(runs) && a[k] == c[k]
  {
    SameIdsUnique(a, c);
    IndexOfMember(c, job);
    var k := IndexOf(c, job.id);
    SameIdsIndexOf(a, c, job.id);
  }

  lemma IdsSnoc(runs: seq<Job>, job: Job)
    ensures Ids(runs + [job]) == Ids(runs) + {job.id}
  {
    var rs := runs + [job];
    forall id | id in Ids(runs) ensures id in Ids(rs) {
      var i :| 0 <= i < |runs| && runs[i].id == id;
      assert rs[i] == runs[i];
    }
    assert rs[|runs|] == job;
  }

  lemma {:induction false} RanStep(a: seq<Job>, w: World, runs: seq<Job>, job: Job, r: World)
    requires UniqueIds(a) && RanSoFar(a, w.jobs, runs) && StepEffect(w, job, r)
    ensures RanSoFar(a, r.jobs, runs + [job])
  {
    var c := w.jobs;
    var z := r.jobs;
    PickedFresh(a, c, runs, job);
    var k := IndexOf(c, job.id);
    var runs' := runs + [job];
    IdsSnoc(runs, job);
    forall p | 0 <= p < |a| && a[p].id !in Ids(runs') ensures z[p] == a[p] {
      assert a[p].id != a[k].id;
    }
    forall i | 0 <= i < |runs'|
      ensures 0 <= IndexOf(a, runs'[i].id) && a[IndexOf(a, runs'[i].id)].status == Queued &&
              z[IndexOf(a, runs'[i].id)].status != Queued
    {
      if i < |runs| {
        assert runs'[i] == runs[i];
      }
    }
    forall i, j | 0 <= i < j < |runs'| ensures runs'[i].id != runs'[j].id {
      if j == |runs| {
        assert runs'[i] == runs[i] && runs'[j] == job;
      } else {
        assert runs'[i] == runs[i] && runs'[j] == runs[j];
      }
    }
  }

  /** What the first `n` turns did to the jobs of the first world. */
  lemma RanUpTo(worlds: seq<World>, runs: seq<Job>, n: nat)
    requires Steps(worlds, runs) && UniqueIds(worlds[0].jobs) && n <= |runs|
    ensures RanSoFar(worlds[0].jobs, worlds[n].jobs, runs[..n])
    ensures worlds[0].log <= worlds[n].log
  {
    var a := worlds[0].jobs;
    var m := 0;
    assert Ids(runs[..0]) == {};
    while m < n
      invariant m <= n
      invariant RanSoFar(a, worlds[m].jobs, runs[..m])
      invariant worlds[0].log <= worlds[m].log
    {
      RanNext(a, worlds[m], worlds[m + 1], runs, m);
      m := m + 1;
    }
  }

  lemma RanNext(a: seq<Job>, w: World, r: World, runs: seq<Job>, m: nat)
    requires UniqueIds(a) && m < |runs| && RanSoFar(a, w.jobs, runs[..m]) && StepEffect(w, runs[m], r)
    ensures RanSoFar(a, r.jobs, runs[..m + 1]) && w.log <= r.log
  {
    RanStep(a, w, runs[..m], runs[m], r);
    assert runs[..m] + [runs[m]] == runs[..m + 1];
  }

  lemma StepsSoFar(worlds: seq<World>, runs: seq<Job>)
    requires Steps(worlds, runs) && UniqueIds(worlds[0].jobs)
    ensures RanSoFar(worlds[0].jobs, worlds[|runs|].jobs, runs)
    ensures worlds[0].log <= worlds[|runs|].log
  {
    RanUpTo(worlds, runs, |runs|);
    assert runs[..|runs|] == runs;
  }

  /** What a whole `processQueue` does to the jobs it starts from: they keep
      their ids and places; the jobs it runs are exactly those queued at the
      start, each run once; a job that was not queued is left as it was;
      nothing is queued at the end; and the effects before it stay in place. */
  lemma DrainDone(worlds: seq<World>, runs: seq<Job>, transcriptions: seq<Result<string, string>>,
                  settings: Storage.Settings, services: Services, now: int)
    requires Drain(worlds, runs, transcriptions, settings, services, now) && UniqueIds(worlds[0].jobs)
    ensures var a := worlds[0].jobs;
      var z := worlds[|runs|].jobs;
      |z| == |a| && (forall i :: 0 <= i < |a| ==> z[i].id == a[i].id) &&
      (forall i :: 0 <= i < |z| ==> z[i].status != Queued) &&
      (forall p :: 0 <= p < |a| ==> (a[p].status == Queued <==> a[p].id in Ids(runs))) &&
      (forall p :: 0 <= p < |a| && a[p].status != Queued ==> z[p] == a[p]) &&
      (forall i, j :: 0 <= i < j < |runs| ==> runs[i].id != runs[j].id) &&
      worlds[0].log <= worlds[|runs|].log
  {
    var a := worlds[0].jobs;
    var z := worlds[|runs|].jobs;
    TurnsAreSteps(worlds, runs, transcriptions, settings, services, now);
    StepsSoFar(worlds, runs);
    GetNextJobSpec(z);
    forall p | 0 <= p < |a| && a[p].id in Ids(runs) ensures a[p].status == Queued {
      var i :| 0 <= i < |runs| && runs[i].id == a[p].id;
      IndexOfAt(a, p);
    }
  }

  /** The turns take the queued jobs oldest first: each job run was created
      no later than the next one. */
  lemma DrainOldestFirst(worlds: seq<World>, runs: seq<Job>, transcriptions: seq<Result<string, string>>,
                         settings: Storage.Settings, services: Services, now: int)
    requires Turns(worlds, runs, transcriptions, settings, services, now) && UniqueIds(worlds[0].jobs)
    ensures forall i :: 0 <= i < |runs| - 1 ==> runs[i].createdAt <= runs[i + 1].createdAt
  {
    TurnsAreSteps(worlds, runs, transcriptions, settings, services, now);
    forall i | 0 <= i < |runs| - 1 ensures runs[i].createdAt <= runs[i + 1].createdAt {
      OlderAt(worlds, runs, i);
    }
  }

  lemma OlderAt(worlds: seq<World>, runs: seq<Job>, i: nat)
    requires Steps(worlds, runs) && UniqueIds(worlds[0].jobs) && i < |runs| - 1
    ensures runs[i].createdAt <= runs[i + 1].createdAt
  {
    RanUpTo(worlds, runs, i);
    assert StepEffect(worlds[i], runs[i], worlds[i + 1]) && StepEffect(worlds[i + 1], runs[i + 1], worlds[i + 2]);
    ConsecutiveRuns(worlds[0].jobs, worlds[i], worlds[i + 1], runs[..i], runs[i], runs[i + 1]);
  }

  /** The job a turn leaves queued was queued before it, so the turn's own
      job, the oldest queued one then, is no younger. */
  lemma ConsecutiveRuns(a: seq<Job>, w: World, r: World, runs: seq<Job>, job: Job, next: Job)
    requires UniqueIds(a) && RanSoFar(a, w.jobs, runs)
    requires StepEffect(w, job, r) && next in r.jobs && next.status == Queued
    ensures job.createdAt <= next.createdAt
  {
    var c := w.jobs;
    SameIdsUnique(a, c);
    var q :| 0 <= q < |r.jobs| && r.jobs[q] == next;
    assert r.jobs[q] == c[q];
  }

  /** `start` after a restart: run from the recovered queue, `processQueue`
      runs every job that was queued or left processing, once each, and
      leaves the completed and failed jobs as they were. */
  lemma RecoveredDrain(js: seq<Job>, worlds: seq<World>, runs: seq<Job>, transcriptions: seq<Result<string, string>>,
                       settings: Storage.Settings, services: Services, now: int)
    requires UniqueIds(js) && worlds != [] && worlds[0].jobs == Recovered(js)
    requires Drain(worlds, runs, transcriptions, settings, services, now)
    ensures |worlds[|runs|].jobs| == |js|
    ensures forall p :: 0 <= p < |js| ==> (js[p].status in {Queued, Processing} <==> js[p].id in Ids(runs))
    ensures forall p :: 0 <= p < |js| && js[p].status in {Completed, Failed} ==> worlds[|runs|].jobs[p] == js[p]
    ensures forall i, j :: 0 <= i < j < |runs| ==> runs[i].id != runs[j].id
  {
    SameIdsUnique(js, Recovered(js));
    DrainDone(worlds, runs, transcriptions, settings, services, now);
  }

  // ---------------------------------------------------------------------
  // the processor's state and the methods that change it

  /** The effects posted so far. */
  class EventLog {
    var effects: seq<Effect>

    constructor()
      ensures effects == []
    {
      effects := [];
    }

    method Append(e: Effect)
      modifies this
      ensures effects == old(effects) + [e]
    {
      effects := effects + [e];
    }
  }

  class Processor {
    const queue: Queue
    const store: Storage.TranscriptStore
    const events: EventLog
    var isRunning: bool
    var currentJobId: Option<string>
    /** Whether the keep-alive interval is set. */
    var keepAlive: bool

    ghost predicate Valid()
      reads queue, store
    {
      queue.Valid() && store.Valid()
    }

    function Snapshot(): World
      reads queue, store, events
    {
      World(queue.jobs, store.transcripts, events.effects)
    }

    constructor(queue: Queue, store: Storage.TranscriptStore, events: EventLog)
      ensures this.queue == queue && this.store == store && this.events == events
      ensures !isRunning && currentJobId.None? && !keepAlive
    {
      this.queue := queue;
      this.store := store;
      this.events := events;
      isRunning := false;
      currentJobId := None;
      keepAlive := false;
    }

    method SetJobStatus(id: string, status: Status, patch: JobPatch, now: int) returns (o: Outcome<string>)
      requires Valid()
      modifies queue, events
      ensures Valid()
      ensures After(Snapshot(), o) == SetStatus(old(Snapshot()), id, status, patch, now)
    {
      StatusNameParses(status);
      var res := queue.UpdateJobStatus(id, StatusName(status), patch, now);
      if res.Fail? {
        return Fail(res.error.Message());
      }
      events.Append(JobStatusSet(id, status, patch));
      o := Pass;
    }

    method UpdateTranscriptRecord(id: string, patch: Storage.TranscriptPatch) returns (o: Outcome<string>)
      requires Valid()
      modifies store, events
      ensures Valid()
      ensures After(Snapshot(), o) == UpdateTranscript(old(Snapshot()), id, patch)
    {
      o := store.UpdateTranscript(id, patch);
      if o.Pass? {
        events.Append(TranscriptUpdated(id, patch));
      }
    }

    /** `generateSummary`. */
    method GenerateSummary(transcriptId: string, text: string, settings: Storage.Settings, services: Services, now: int)
      requires Valid()
      modifies store, events
      ensures Valid()
      ensures Snapshot() == Summarize(old(Snapshot()), transcriptId, text, settings, services, now)
    {
      var options := OpenAI.SummaryOptions(None, None);
      if settings.summaryPrompt.Some? && settings.summaryPrompt.value != "" {
        options := options.(customPrompt := settings.summaryPrompt);
      }
      if settings.summaryModel.Some? && settings.summaryModel.value != "" {
        options := options.(model := settings.summaryModel);
      }
      var request := OpenAI.SummaryRequest(text, options);
      var result := OpenAI.Summarize(text, options, services.summaryReply(request));
      if result.Failure? {
        events.Append(Notified(ErrorNotice(transcriptId, SummaryErrorPrefix + result.error.Message())));
        return;
      }
      var o := UpdateTranscriptRecord(transcriptId, Storage.TranscriptPatch(None, Some(result.value.summary), None));
      if o.Fail? {
        events.Append(Notified(ErrorNotice(transcriptId, SummaryErrorPrefix + o.error)));
        return;
      }
      events.Append(LastCompleted(transcriptId, now));
      events.Append(Notified(SummaryComplete(transcriptId, result.value.summary)));
    }

    /** The `catch` block of `processJob`. */
    method HandleFailure(job: Job, message: string, now: int) returns (o: Outcome<string>)
      requires Valid()
      modifies queue, store, events
      ensures Valid()
      ensures After(Snapshot(), o) == Catch(old(Snapshot()), job, message, now)
    {
      o := UpdateTranscriptRecord(job.transcriptId, FailedPatch(message));
      if o.Fail? {
        return;
      }
      o := SetJobStatus(job.id, Failed, ErrorPatch(message), now);
      if o.Fail? {
        return;
      }
      events.Append(Notified(ErrorNotice(job.transcriptId, message)));
      o := Fail(message);
    }

    method BeginJob(job: Job, now: int) returns (o: Outcome<string>)
      requires Valid()
      modifies queue, store, events
      ensures Valid()
      ensures After(Snapshot(), o) == Begin(old(Snapshot()), job, now)
    {
      o := SetJobStatus(job.id, Processing, NoPatch, now);
      if o.Fail? {
        return;
      }
      o := UpdateTranscriptRecord(job.transcriptId, ProcessingPatch);
      if o.Fail? {
        return;
      }
      events.Append(Notified(ProcessingStarted(job.transcriptId, |job.chunks|)));
    }

    method AnnounceTranscript(tid: string, text: string, settings: Storage.Settings, services: Services, now: int)
      requires Valid()
      modifies store, events
      ensures Valid()
      ensures Snapshot() == Announce(old(Snapshot()), tid, text, settings, services, now)
    {
      events.Append(LastCompleted(tid, now));
      events.Append(Notified(TranscriptionComplete(tid, text)));
      if settings.autoSummarize {
        GenerateSummary(tid, text, settings, services, now);
      }
    }

    method CompleteJob(job: Job, now: int) returns (o: Outcome<string>)
      requires Valid()
      modifies queue, store, events
      ensures Valid()
      ensures After(Snapshot(), o) == Complete(old(Snapshot()), job, now)
    {
      var tid := job.transcriptId;
      o := UpdateTranscriptRecord(tid, CompletedPatch);
      if o.Fail? {
        o := HandleFailure(job, o.error, now);
        return;
      }
      events.Append(LastCompleted(tid, now));
      o := SetJobStatus(job.id, Completed, NoPatch, now);
      if o.Fail? {
        o := HandleFailure(job, o.error, now);
      }
    }

    method FinishJob(job: Job, text: string, settings: Storage.Settings, services: Services, now: int)
      returns (o: Outcome<string>)
      requires Valid()
      modifies queue, store, events
      ensures Valid()
      ensures After(Snapshot(), o) == Finish(old(Snapshot()), job, text, settings, services, now)
    {
      o := UpdateTranscriptRecord(job.transcriptId, TranscribedPatch(text));
      if o.Fail? {
        o := HandleFailure(job, o.error, now);
        return;
      }
      AnnounceTranscript(job.transcriptId, text, settings, services, now);
      o := CompleteJob(job, now);
    }

    /** `processJob`: the run described by `ProcessJobSpec` for the
      transcription outcome the chunks actually produced. */
    method ProcessJob(job: Job, settings: Storage.Settings, services: Services, now: int)
      returns (r: Outcome<string>, ghost transcription: Result<string, string>)
      requires Valid()
      modifies queue, store, events
      ensures Valid()
      ensures Begin(old(Snapshot()), job, now).outcome.Pass? ==>
        TranscriptionOutcome(job.chunks, settings, services, transcription)
      ensures After(Snapshot(), r) == ProcessJobSpec(old(Snapshot()), job, settings, services, transcription, now)
      ensures Progress(old(Snapshot()), Snapshot()) && Dequeued(old(Snapshot()), Snapshot(), job.id)
    {
      ghost var w0 := Snapshot();
      transcription := Failure("");
      var o := BeginJob(job, now);
      if o.Fail? {
        r := HandleFailure(job, o.error, now);
      } else {
        var t := TranscribeChunks(job.chunks, settings, services);
        transcription := t;
        if t.Failure? {
          r := HandleFailure(job, t.error, now);
        } else {
          r := FinishJob(job, t.value, settings, services, now);
        }
      }
      ProcessJobProgress(w0, job, settings, services, transcription, now);
    }

    /** `processQueue`: runs the oldest queued job until none is left; a
      job's failure is swallowed and the loop goes on. The ghost results
      name the states between the turns, the jobs run and the outcome of
      each transcription. */
    method ProcessQueue(settings: Storage.Settings, services: Services, now: int)
      returns (ghost worlds: seq<World>, ghost runs: seq<Job>, ghost transcriptions: seq<Result<string, string>>)
      requires Valid() && currentJobId.None?
      modifies this, queue, store, events
      ensures Valid() && currentJobId.None?
      ensures isRunning == old(isRunning) && keepAlive == old(keepAlive)
      ensures Drain(worlds, runs, transcriptions, settings, services, now)
      ensures worlds[0] == old(Snapshot()) && worlds[|runs|] == Snapshot()
      ensures |queue.jobs| == |old(queue.jobs)|
      ensures forall i :: 0 <= i < |queue.jobs| ==> queue.jobs[i].id == old(queue.jobs)[i].id
      ensures forall i :: 0 <= i < |queue.jobs| ==> queue.jobs[i].status != Queued
      ensures forall i :: 0 <= i < |queue.jobs| && old(queue.jobs)[i].status != Queued ==> queue.jobs[i] == old(queue.jobs)[i]
      ensures forall i :: 0 <= i < |queue.jobs| ==> (old(queue.jobs)[i].status == Queued <==> old(queue.jobs)[i].id in Ids(runs))
      ensures forall i :: 0 <= i < |runs| - 1 ==> runs[i].createdAt <= runs[i + 1].createdAt
      ensures old(events.effects) <= events.effects
    {
      worlds := [Snapshot()];
      runs := [];
      transcriptions := [];
      while true
        invariant Valid() && currentJobId.None?
        invariant isRunning == old(isRunning) && keepAlive == old(keepAlive)
        invariant Turns(worlds, runs, transcriptions, settings, services, now)
        invariant worlds[0] == old(Snapshot()) && worlds[|runs|] == Snapshot()
        decreases QueuedCount(queue.jobs)
      {
        var next := GetNextJob(queue.jobs);
        if next.None? {
          break;
        }
        var job := next.value;
        currentJobId := Some(job.id);
        worlds, runs, transcriptions := RunSwallowingErrors(job, settings, services, now, worlds, runs, transcriptions);
        currentJobId := None;
      }
      DrainDone(worlds, runs, transcriptions, settings, services, now);
      DrainOldestFirst(worlds, runs, transcriptions, settings, services, now);
    }

    /** One turn of the loop of `processQueue`: the job `getNextJob` picked
      is run and whatever it throws is dropped. */
    method RunSwallowingErrors(job: Job, settings: Storage.Settings, services: Services, now: int,
                               ghost worlds: seq<World>, ghost runs: seq<Job>, ghost transcriptions: seq<Result<string, string>>)
      returns (ghost worlds': seq<World>, ghost runs': seq<Job>, ghost transcriptions': seq<Result<string, string>>)
      requires Valid() && GetNextJob(queue.jobs) == Some(job)
      requires Turns(worlds, runs, transcriptions, settings, services, now) && worlds[|runs|] == Snapshot()
      modifies queue, store, events
      ensures Valid()
      ensures Turns(worlds', runs', transcriptions', settings, services, now)
      ensures worlds' == worlds + [Snapshot()] && runs' == runs + [job] && |transcriptions'| == |transcriptions| + 1
      ensures transcriptions'[..|transcriptions|] == transcriptions
      ensures QueuedCount(queue.jobs) < QueuedCount(old(queue.jobs))
    {
      NextJobQueued(queue.jobs);
      var thrown;
      ghost var t;
      thrown, t := ProcessJob(job, settings, services, now);
      TurnsSnoc(worlds, runs, transcriptions, job, t, Snapshot(), settings, services, now);
      worlds', runs', transcriptions' := worlds + [Snapshot()], runs + [job], transcriptions + [t];
    }

    /** `start`: a no-op while already running; otherwise puts the jobs a
      previous run left processing back into the queue, turns keep-alive on,
      drains the queue, and finally turns keep-alive off and clears the
      running flag. */
    method Start(settings: Storage.Settings, services: Services, now: int)
      returns (ghost worlds: seq<World>, ghost runs: seq<Job>, ghost transcriptions: seq<Result<string, string>>)
      requires Valid() && (!isRunning ==> currentJobId.None?)
      modifies this, queue, store, events
      ensures Valid()
      ensures old(isRunning) ==>
        isRunning && keepAlive == old(keepAlive) && currentJobId == old(currentJobId) && Snapshot() == old(Snapshot())
      ensures !old(isRunning) ==>
        !isRunning && !keepAlive && currentJobId.None? && Drain(worlds, runs, transcriptions, settings, services, now) &&
        worlds[0] == World(Recovered(old(queue.jobs)), old(store.transcripts), old(events.effects)) &&
        worlds[|runs|] == Snapshot()
    {
      if isRunning {
        worlds, runs, transcriptions := [Snapshot()], [], [];
        return;
      }
      isRunning := true;
      var count := queue.RecoverProcessingJobs(now);
      StartKeepAlive();
      worlds, runs, transcriptions := ProcessQueue(settings, services, now);
      isRunning := false;
      StopKeepAlive();
    }

    /** `getCurrentJobId`. */
    method GetCurrentJobId() returns (r: Option<string>)
      ensures r == currentJobId
    {
      r := currentJobId;
    }

    /** `isProcessing`. */
    method IsProcessing() returns (r: bool)
      ensures r == isRunning
    {
      r := isRunning;
    }

    method StartKeepAlive()
      modifies this
      ensures keepAlive
      ensures isRunning == old(isRunning) && currentJobId == old(currentJobId)
    {
      if keepAlive {
        return;
      }
      keepAlive := true;
    }

    method StopKeepAlive()
      modifies this
      ensures !keepAlive
      ensures isRunning == old(isRunning) && currentJobId == old(currentJobId)
    {
      if keepAlive {
        keepAlive := false;
      }
    }
  }
}
