# KoeMoji transcription core, modelled in Dafny

KoeMoji is a browser extension that records meetings and transcribes them.
The recording is cut into chunks and each chunk is sent to OpenAI's
transcription endpoint. The texts are joined into one transcript, which is
optionally summarised and then kept in a history of at most twenty entries.
This project models the part of the extension that does that work:

- **the job queue** (`JobQueue`): a persisted list of jobs with four
  statuses. It has duplicate and validity checks, an oldest-first pick of the
  next job, status transitions with time stamps, recovery after a restart,
  and age-based cleanup;
- **the job processor** (`JobProcessor`): drains the queue one job at a time.
  Each job's chunks are transcribed with at most three requests in flight
  (`Parallel`, the `limitedParallel` scheduler). Every storage write and popup
  message of a run is recorded in order. A run whose job and transcript both
  exist ends with the job completed or failed. When the job's record has gone
  missing, the first status write throws `Job not found`; the catch block
  still marks the transcript failed with that message, and its own status
  write throws the same error again. When the transcript has gone missing,
  the job is left processing (the not-found error is thrown again inside
  the catch block);
- **the transcript history** (`Storage`): front insertion with a cap of
  twenty, shallow-merge updates, filter deletes, lookups, and defaults for new
  records and for missing settings;
- **the OpenAI client** (`OpenAI`): the 25 MiB upload check, the upload file
  name, prompt assembly, and the HTTP status to error message classification.
  The rate-limit retry policy (`Retry`) exists only in the copy of the client
  defined inside the test file, and is modelled from there;
- **the audio encoder** (`AudioEncoder`): the 44-byte RIFF/WAVE PCM header and
  the little-endian sample bytes that `encodeWAV` writes, the chunk arithmetic
  of `splitAudio`, the pass-through rule of `encode`, and the two size
  helpers;
- **the audio store** (`Recordings`): an IndexedDB object store modelled as a
  map. Records are saved with an expiry date. Expired records are removed, and
  so are the oldest records beyond a count cap;
- **the popup helpers** (`Popup`): the duration text, the recording clock,
  file-name sanitising, download names, and the test that marks a history
  entry as failed.

The clock (`Date.now()`), the random id of a new transcript, the decoding of a
chunk's data URL and the server's replies are parameters. `Services` holds a
reply function per request, and the completion order of concurrent tasks is
a nondeterministic choice inside `Parallel.LimitedParallel`. JavaScript
exceptions become `Result`/`Outcome` values. These carry the thrown message,
except where a missing reply field would raise a `TypeError`: that case is
`MissingField` and carries the name of the field.

What is proved, in brief:

- **Queue:**
  - `getNextJob` picks the oldest queued job, and ties go to the one added first.
  - Recovery is idempotent.
  - Cleanup partitions the queue.
- **Processor:**
  - A successful job writes its transcript updates in the source's order and
    sets the job's status last, to completed.
  - A failed job carries the `エラー: ` marker that the popup recognises.
  - The summary step can never make a job fail.
  - Every run takes its job out of the queued ones and changes no other job.
    So `processQueue` runs exactly the jobs queued when it starts, each once
    and oldest first, and ends with no job queued.
- **Scheduler:**
  - Never more than `max(1, limit)` tasks run at once.
  - Results come back in input order.
  - A limit of one runs the tasks strictly one after another.
- **WAV:** a reader of the layout gets back the sample rate and every sample.
- **Popup:**
  - The clock reads back as the elapsed seconds.
  - `sanitizeFilename` always yields a safe name and is idempotent.

One consequence worth knowing: with the default ten-minute chunks, a WAV chunk
fits the 25 MiB upload limit only at sample rates up to 21845 Hz
(`AudioEncoder.DefaultChunkFits`). In the shipped code nothing calls
`splitAudio`, so this is recorded as a property, not as a defect.

Facts of the code worth knowing:

- The error marker written on a failed transcript is `エラー: `
  (lib/job-processor.js:199), and the popup tests for `エラー:`.
- The summary is generated before the transcript and the job are marked
  completed (lib/job-processor.js:175-191). Completion is not written first.
- There is no request timeout anywhere, so none is modelled.
- The library client has no retry. The back-off lives only in the test file's
  own class (`__tests__/openai-client.test.js:14-27`).

## Model

| member | source | states |
|---|---|---|
| Strings.NatToString | popup/popup.js:729 | `String(n)` of a non-negative integer is a non-empty string of decimal digits without a leading zero; one digit exactly below 10, at most two exactly below 100 |
| Strings.NatToStringRoundTrip | popup/popup.js:729 | reading the decimal text of `n` back gives `n` |
| Strings.Pad2 | popup/popup.js:157 | `String(n).padStart(2, '0')` is at least two digits, exactly two below 100, and denotes `n` |
| Strings.Join | lib/job-processor.js:281 | `join` of a single part is that part |
| Strings.JoinSnoc | lib/job-processor.js:281 | joining one more part onto a non-empty list appends the separator and that part |
| Sorting.InsertionSort | lib/job-processor.js:278 | the stable sort keeps the length of its input |
| Sorting.InsertionSortSorted | lib/job-processor.js:278 | the sort's output is ordered by the key |
| Sorting.InsertionSortPermutes | lib/job-processor.js:278 | the sort's output is a permutation of its input |
| Sorting.SortByKey | lib/job-processor.js:278 | the in-place array sort leaves exactly the stable sort of the array's old contents |
| Sorting.SortedPermutationUnique | lib/job-processor.js:278 | two key-sorted arrangements of the same elements with distinct keys are equal, so the order of arrival does not matter |
| Sorting.InsertionSortHead | lib/job-queue.js:81-89 | the first element after sorting is the element with the smallest key that comes first among those with that key (stability) |
| Parallel.Cap | lib/job-processor.js:369 | the number of tasks that may run at once is `limit`, and at least one since the wait follows every start when `limit` is below one |
| Parallel.LimitedParallel | lib/job-processor.js:356-375 | success exactly when every task succeeds, with task i's value at position i (`[]` for no tasks); on failure the last step settles a task that rejected with that error; at no point do more than `Cap(limit)` tasks run; tasks start in input order; a limit of one gives the strictly sequential schedule; with no more tasks than the limit all of them start before anything settles |
| Parallel.StartAll | lib/job-processor.js:360-372 | the `for` loop starts tasks 0..i-1 in order within the cap; it either reaches the end or stops at a rejection seen by `Promise.race`; it runs to the end when there are no more tasks than the limit |
| Parallel.StartNext | lib/job-processor.js:361-371 | one turn starts task i; it waits for a settle only once `limit` or more are executing, and otherwise appends only the start |
| Parallel.AwaitAll | lib/job-processor.js:374 | `Promise.all` settles every task still running, extends the trace, and either leaves nothing running with every result filled or ends at a rejection |
| Parallel.Schedule | lib/job-processor.js:356-374 | the loop followed by the final wait: all tasks started, none running and every result settled, or a run ending in a rejection |
| Parallel.AdmissiblePrefixes | lib/job-processor.js:369-371 | in an admissible schedule every prefix has at most `cap` running tasks |
| Parallel.CapOneIsSequential | lib/job-processor.js:369-371 | a schedule with room for one task that starts tasks in order and ends with none running is start 0, settle 0, start 1, settle 1, ... |
| Parallel.CapOneRun | lib/job-processor.js:369-371 | under a cap of one, a run that ended or stopped at a settle is the sequential schedule |
| Parallel.RunningWereLaunched | lib/job-processor.js:366-367 | only started tasks are executing |
| Parallel.SettledValues | lib/job-processor.js:374 | once every task has settled, every task succeeded and the values are the tasks' values in input order |
| Parallel.FailedRunHasFailure | lib/job-processor.js:370 | a run that ends in a rejection had a failing task |
| JobQueue.ParseStatus | lib/job-queue.js:105-107 | a status name is accepted exactly when it is one of the four names, and maps to the status with that name |
| JobQueue.StatusNameParses | lib/job-queue.js:8-13 | every status's stored name is accepted as that status |
| JobQueue.NewJob | lib/job-queue.js:37-47 | a new job has id = transcriptId, status queued, createdAt = now, and no startedAt, completedAt or error |
| JobQueue.Transition | lib/job-queue.js:116-127 | the update keeps id, transcriptId, chunks, metadata and createdAt and sets the requested status |
| JobQueue.TransitionStamps | lib/job-queue.js:119-127 | processing stamps startedAt; completed and failed stamp completedAt; queued stamps nothing; any field in the extra data overrides the stamp |
| JobQueue.IndexOf | lib/job-queue.js:110 | `findIndex` by id returns -1 exactly when no job has the id, and otherwise the first position holding it |
| JobQueue.IndexOfReplace | lib/job-queue.js:117-127 | changing a job's fields in place leaves every lookup by id where it was |
| JobQueue.IndexOfMember | lib/job-queue.js:53 | with unique ids, looking up a stored job's id finds that job |
| JobQueue.GetJob | lib/job-queue.js:144-153 | `getJob` returns null exactly when no job has the id, and otherwise the first job with it |
| JobQueue.WithStatusConcat | lib/job-queue.js:82 | the status filter distributes over concatenation |
| JobQueue.WithStatusMembers | lib/job-queue.js:82 | the status filter keeps exactly the jobs in that status |
| JobQueue.WithStatusReplace | lib/job-queue.js:117 | changing one job changes a status count only by what the old and new records contribute |
| JobQueue.GetProcessingJobs | lib/job-queue.js:191-199 | `getProcessingJobs` holds exactly the jobs whose status is processing |
| JobQueue.GetNextJob | lib/job-queue.js:76-94 | `getNextJob` is null exactly when no job is queued, and otherwise returns a stored job that is queued |
| JobQueue.GetNextJobSpec | lib/job-queue.js:76-94 | `getNextJob` is null exactly when no job is queued; otherwise it is the queued job with the smallest createdAt, and among equal createdAt the one added first |
| JobQueue.FirstOldest | lib/job-queue.js:81-83 | when some job is queued, there is a position holding the oldest queued job added first |
| JobQueue.QueuedSplit | lib/job-queue.js:81-82 | the queued jobs before a queued job come first in the filtered list, immediately followed by it |
| JobQueue.NextIsSortedHead | lib/job-queue.js:81-89 | the oldest queued job added first is the head of the sorted queued jobs |
| JobQueue.RequeueAnyTime | lib/job-queue.js:217-223 | putting a job back in the queue with startedAt and error cleared does not depend on the clock |
| JobQueue.RecoverStep | lib/job-queue.js:217-223 | each status update of the recovery loop requeues one more processing job and changes nothing else |
| JobQueue.Recovered | lib/job-queue.js:205-230 | after recovery every processing job is queued with startedAt and error null and completedAt kept; every other job is unchanged, position by position |
| JobQueue.Requeue | lib/job-queue.js:217-220 | a recovered job is queued again with `startedAt` and `error` null, and every other field, `completedAt` included, kept |
| JobQueue.RecoverTwice | lib/job-queue.js:205-230 | after a recovery no job is processing, so a second recovery returns 0 and changes nothing |
| JobQueue.ExpiredJobs | lib/job-queue.js:242-246 | the jobs removed are exactly the completed or failed ones whose completedAt is set, non-zero, and more than maxAge before now |
| JobQueue.Unexpired | lib/job-queue.js:254 | the jobs kept are exactly the ones not expired |
| JobQueue.CleanupPartition | lib/job-queue.js:242-257 | every job is either removed or kept, so the count returned is the number removed; with none expired the queue is unchanged |
| JobQueue.WithoutId | lib/job-queue.js:176 | the delete filter keeps exactly the jobs with another id, and is a no-op when no job has the id |
| JobQueue.WithStatusUnique | lib/job-queue.js:82 | filtering keeps ids unique |
| JobQueue.WithoutIdUnique | lib/job-queue.js:176 | deleting keeps ids unique |
| JobQueue.UnexpiredUnique | lib/job-queue.js:254 | cleanup keeps ids unique |
| JobQueue.Queue.constructor | lib/job-queue.js:272 | a queue with nothing stored reads as empty |
| JobQueue.Queue.AddJob | lib/job-queue.js:28-70 | invalid data leaves the queue unchanged and returns the invalid-data error; an id already present leaves it unchanged and returns the duplicate error; otherwise exactly one new queued job is appended and its id returned; ids stay unique |
| JobQueue.Queue.UpdateJobStatus | lib/job-queue.js:103-137 | an unknown status name or an absent id returns its error and writes nothing; otherwise only the first job with the id changes, to the status-and-stamp transition with the extra data merged over it |
| JobQueue.Queue.GetAllJobs | lib/job-queue.js:159-166 | returns the stored jobs in insertion order |
| JobQueue.Queue.DeleteJob | lib/job-queue.js:173-185 | the stored queue becomes every job with another id, in order |
| JobQueue.Queue.RequeueOne | lib/job-queue.js:217-223 | one turn of the recovery loop: the `updateJobStatus` call requeues that job and keeps the recovery invariant |
| JobQueue.Queue.RecoverProcessingJobs | lib/job-queue.js:205-230 | the stored queue becomes the recovered queue and the count is the number of jobs that were processing |
| JobQueue.Queue.CleanupCompletedJobs | lib/job-queue.js:237-262 | with `maxAge` defaulting to 24 hours, the stored queue keeps exactly the unexpired jobs in order, and the count is the number removed |
| Storage.LoadSettings | lib/storage.js:24-40 | the stored settings are returned as they are; when none are stored the defaults are an empty key, an empty device, language `ja`, auto-summarize on, and model `gpt-4o-mini` |
| Storage.CreateTranscript | lib/storage.js:203-214 | every falsy input takes its default: title `無題`, duration 0, transcript empty, summary null, audioSize 0, platform `unknown`; present values are kept |
| Storage.FindIndex | lib/storage.js:95 | `findIndex` by id: -1 exactly when absent, otherwise the first position holding the id |
| Storage.FindIndexReplace | lib/storage.js:102 | replacing a record by one with the same id leaves every lookup by id where it was |
| Storage.GetTranscript | lib/storage.js:136-144 | `getTranscript` is null exactly when no record has the id, otherwise the first record with it |
| Storage.MergePatch | lib/storage.js:102 | the object spread keeps every field the updates do not carry and takes every field they do |
| Storage.Prepend | lib/storage.js:50-59 | the new record comes first and the old ones follow in order; the list is cut at twenty, dropping the oldest |
| Storage.WithoutTranscript | lib/storage.js:121 | the delete filter keeps exactly the records with another id |
| Storage.SaveThenGet | lib/storage.js:50-53 | a saved record is what the next lookup of its id finds, even when an older record has the same id |
| Storage.DeleteAbsent | lib/storage.js:118-123 | deleting an id no record has changes nothing |
| Storage.DeleteRemovesId | lib/storage.js:118-123 | after a delete no record has the id |
| Storage.GetTranscriptCons | lib/storage.js:139 | a lookup tries the first record, then the rest |
| Storage.DeleteKeepsOthers | lib/storage.js:121 | after a delete, a lookup of any other id finds what it found before |
| Storage.UpdateThenGet | lib/storage.js:95-105 | an update replaces the first record with the id by the merge; the length and every other position are unchanged, and a lookup finds the merged record |
| Storage.TranscriptStore.constructor | lib/storage.js:77 | an empty store reads as `[]` |
| Storage.TranscriptStore.LoadTranscripts | lib/storage.js:74-84 | returns the stored records, newest first |
| Storage.TranscriptStore.SaveTranscript | lib/storage.js:47-68 | the stored list becomes the new record followed by the old ones, cut at twenty, with no duplicate-id check |
| Storage.TranscriptStore.UpdateTranscript | lib/storage.js:92-111 | an absent id throws the not-found message and writes nothing; otherwise the first record with the id becomes the merge, with the updates winning |
| Storage.TranscriptStore.DeleteTranscript | lib/storage.js:118-129 | the stored list keeps exactly the records with another id |
| OpenAI.CentiMegabytes | lib/openai-client.js:34 | the size in hundredths of a MiB is rounded to the nearest, with ties up |
| OpenAI.Megabytes | lib/openai-client.js:34 | `(size / 1024 / 1024).toFixed(2)` is digits, a point and two digits denoting the rounded size in MiB |
| OpenAI.IndexOfChar | lib/openai-client.js:40 | the first position of a character, or -1 exactly when it is absent |
| OpenAI.Extension | lib/openai-client.js:40 | the extension is never empty and has no slash; without a slash in the MIME type it is `webm` |
| OpenAI.ExtensionOfSubtype | lib/openai-client.js:40 | a `type/subtype` MIME type gives its subtype |
| OpenAI.FileName | lib/openai-client.js:41 | the uploaded file is named `audio.` followed by the extension |
| OpenAI.TranscriptionRequestFor | lib/openai-client.js:18-57 | rejects with the size error exactly when the size exceeds 25·1024·1024 bytes; otherwise the form carries the blob, its file name, model `whisper-1`, the language (default `ja`), the temperature (default 0), and a prompt only when one is non-empty |
| OpenAI.ApiErrorMessage | lib/openai-client.js:156-179 | 401, 429, 413 and 503 map to their fixed messages whatever the body says; any other status gives the body's error message when present, else `APIエラー: ` and the status |
| OpenAI.RateLimitOnly429 | lib/openai-client.js:168-178 | among the messages `handleAPIError` composes itself, only the one for 429 contains the rate-limit words; otherwise only a server message can carry them |
| OpenAI.RateLimitMessageIsMarked | lib/openai-client.js:171 | the 429 message contains `レート制限` |
| OpenAI.InvalidKeyUnmarked | lib/openai-client.js:169 | the 401 message does not contain `レート制限` |
| OpenAI.PayloadTooLargeUnmarked | lib/openai-client.js:173 | the 413 message does not contain `レート制限` |
| OpenAI.UnavailableUnmarked | lib/openai-client.js:175 | the 503 message does not contain `レート制限` |
| OpenAI.FallbackUnmarked | lib/openai-client.js:157 | the `APIエラー: <status>` fallback does not contain `レート制限` |
| OpenAI.Language | lib/openai-client.js:20-21 | the language sent is the one in the options, or `ja` when the options give none |
| OpenAI.Transcribe | lib/openai-client.js:18-76 | an oversized blob fails with the size error; a non-OK reply fails with the `handleAPIError` message; a success returns the reply's text and the requested language |
| OpenAI.OversizedNeverSent | lib/openai-client.js:33-35 | for an oversized blob the outcome does not depend on any server reply, so no request is made |
| OpenAI.UserPrompt | lib/openai-client.js:99-108 | the custom prompt and its heading, or else the default prompt and a blank line, come before the transcript, which ends the message |
| OpenAI.SummaryRequest | lib/openai-client.js:86-127 | the model defaults to `gpt-4o-mini`; the system prompt is fixed; max tokens is 1000; the user message is the assembled prompt |
| OpenAI.Summarize | lib/openai-client.js:84-150 | a non-OK reply fails with the `handleAPIError` message; an unreadable body fails; a 2xx reply without the message content, or with content but no `usage` object, fails with a missing-field error; a success needs content and `usage` and returns the content as the summary and `usage.total_tokens` as the token count |
| Retry.RetryFrom | __tests__/openai-client.test.js:14-27 | the call is made between 1 and retries + 1 times; every call but the last failed with a rate-limit message; the run stops early only on success or on another error; the k-th wait is 1000·k ms from the full three retries on |
| Retry.RetryWithBackoff | __tests__/openai-client.test.js:14 | with the default three retries a function is called at most four times |
| Retry.FirstTrySucceeds | __tests__/openai-client.test.js:14-16 | a function that succeeds at once is called once and its value returned |
| Retry.OtherErrorsNotRetried | __tests__/openai-client.test.js:18-25 | an error without the rate-limit words is thrown after one call |
| Retry.AlwaysRateLimited | __tests__/openai-client.test.js:18-23 | an always rate-limited function is called four times, with waits of 1000, 2000 and 3000 ms, and the last error is thrown |
| Retry.TwoRateLimitsThenSuccess | __tests__/openai-client.test.js:18-23 | two rate limits and then success return the success value after three calls and waits of 1000 and 2000 ms |
| Retry.TestTranscribe | __tests__/openai-client.test.js:31-64 | the test-local `transcribe` succeeds exactly when the blob is within 25 MiB and the reply is 2xx with a JSON body; it then returns the reply's `text`, which may be absent, and the language asked for |
| Retry.TestTranscribeAgrees | __tests__/openai-client.test.js:31-64 | the test-local reading agrees with the library client except on a 2xx reply without `text`: the library fails with a missing-field error where the test copy succeeds with no text |
| Retry.TranscribeWithRetry | __tests__/openai-client.test.js:29-66 | the test-local `transcribe` makes one to four requests, and the run's result is what the test-local reading makes of the reply to its last request |
| Retry.MegabytesUnmarked | __tests__/openai-client.test.js:34 | the size text has no kana, so it cannot hold the rate-limit words |
| Retry.TooLargeUnmarked | __tests__/openai-client.test.js:34 | the size error is not a rate-limit error |
| Retry.OversizedTriedOnce | __tests__/openai-client.test.js:33-35 | an oversized blob fails once with the size error and is not retried |
| Retry.RateLimitedThenTranscribed | __tests__/openai-client.test.js:56-64 | a 429 reply and then a good one give two requests, the second reply's text, and one wait of 1000 ms |
| Retry.MissingTextResolves | __tests__/openai-client.test.js:59-63 | a first 2xx JSON reply without `text` ends the run after one request, successfully and with no text |
| Retry.OtherStatusTriedOnce | __tests__/openai-client.test.js:56-58 | any other failing status whose server message lacks the rate-limit words ends the run after one request |
| JobProcessor.Texts | lib/job-processor.js:281 | one text per piece, in order |
| JobProcessor.ChunkTask | lib/job-processor.js:243-272 | a chunk's successful task keeps the chunk's index, start time and duration with the transcribed text |
| JobProcessor.Tasks | lib/job-processor.js:243 | one task per chunk, in chunk order |
| JobProcessor.Succeeded | lib/job-processor.js:275 | the values of tasks that all succeeded, in task order |
| JobProcessor.JoinedTranscript | lib/job-processor.js:277-281 | no pieces give the empty transcript, and a single piece gives its own text |
| JobProcessor.TranscriptInIndexOrder | lib/job-processor.js:277-281 | however the pieces arrived, the transcript is the join of the one index-sorted arrangement of them |
| JobProcessor.TranscribeChunks | lib/job-processor.js:226-286 | an undecodable chunk fails with its decoding error; otherwise the result is the texts sorted by chunk index and joined with a blank line when every transcription succeeds, or the error of one that failed |
| JobProcessor.TranscribeDecoded | lib/job-processor.js:242-285 | once every chunk has decoded, the tasks run under the concurrency cap of three and the result is the same outcome |
| JobProcessor.JoinPieces | lib/job-processor.js:277-281 | sorting the pieces in place by index and joining their texts gives the joined transcript |
| JobProcessor.SetStatus | lib/job-queue.js:103-137 | the processor's `updateJobStatus` leaves transcripts alone, fails with the not-found message for an absent id, and otherwise applies the transition and logs the write |
| JobProcessor.UpdateTranscript | lib/storage.js:92-111 | the processor's `updateTranscript` leaves jobs alone, fails with the not-found message for an absent id, and otherwise applies the merge and logs the write |
| JobProcessor.SummaryOptionsFor | lib/job-processor.js:305-311 | a custom prompt and a model are passed only when the settings hold non-empty ones |
| JobProcessor.SummaryResult | lib/job-processor.js:312 | the summary request can only succeed on a 2xx reply |
| JobProcessor.Summarize | lib/job-processor.js:295-348 | the summary step never touches jobs, transcript texts or statuses; it only appends effects, none of them a job status write |
| JobProcessor.SummaryEffects | lib/job-processor.js:312-347 | on success the summary is saved and the completion flag and notice follow; a failure, including a missing transcript, becomes only an error notice with the `要約生成に失敗しました: ` prefix |
| JobProcessor.Catch | lib/job-processor.js:194-216 | the catch block always ends in a thrown error; if the transcript is missing it rethrows the not-found error and writes nothing |
| JobProcessor.Announce | lib/job-processor.js:159-177 | after the text is saved, the completion flag and the notice come first, then the summary step if asked for; no job status is written and texts and statuses are kept |
| JobProcessor.Begin | lib/job-processor.js:134-148 | when the job's record is missing, the first status write throws the job-not-found error and nothing is written |
| JobProcessor.Complete | lib/job-processor.js:179-191 | when the transcript is missing, the last steps end in a thrown error |
| JobProcessor.Finish | lib/job-processor.js:151-191 | when the transcript is missing, the steps after a transcription end in a thrown error |
| JobProcessor.ProcessJobSpec | lib/job-processor.js:131-217 | a run of `processJob` can only end without an error when the transcription of the chunks succeeded |
| JobProcessor.BeginRuns | lib/job-processor.js:134-148 | with the job and transcript present, the job is marked processing, the transcript is marked processing, and the popup is told the chunk count, in that order |
| JobProcessor.CatchRuns | lib/job-processor.js:196-215 | with the job and transcript present, the catch block writes the marked error text and failed status, fails the job with the message, tells the popup, and rethrows the message |
| JobProcessor.CompleteRuns | lib/job-processor.js:179-191 | with the job and transcript present, the last steps mark the transcript completed, write the flag, and then mark the job completed |
| JobProcessor.FinishState | lib/job-processor.js:151-191 | after a transcription the transcript holds the text with status completed, and only the job changes, to completed |
| JobProcessor.FinishLog | lib/job-processor.js:154-191 | after a transcription the effects are the text write, the flag and the notice, then the summary step's effects, then the completion writes with the job's status last |
| JobProcessor.ProcessJobSucceeds | lib/job-processor.js:131-193 | a job whose record and transcript exist and whose chunks transcribe ends completed with the transcript holding the text and status completed; no other job changes |
| JobProcessor.ProcessJobSucceedsLog | lib/job-processor.js:134-191 | the writes of a successful run come in the source's order: job processing, transcript processing, notice, transcript text, flag, notice, summary effects when enabled, transcript completed, flag, and job completed last; without auto-summarize there is nothing in between |
| JobProcessor.ProcessJobFails | lib/job-processor.js:194-216 | a failed transcription leaves the transcript with `エラー: ` and the message and status failed, and the job failed with that error; no other job changes; the effects are exactly the first steps and the catch block's, and the message is rethrown |
| JobProcessor.ProcessJobMissingTranscript | lib/job-processor.js:136-141 | when the transcript is missing, the job is left processing, nothing else is written, and the not-found error is thrown |
| JobProcessor.ProcessJobMissingJob | lib/job-processor.js:136-204 | when the job record is missing, the transcript alone is marked failed with `Job not found: <id>`, the queue is unchanged, and that error is thrown |
| JobProcessor.SummaryNeverThrows | lib/job-processor.js:335-347 | whether a run throws never depends on the summary request's reply |
| JobProcessor.NextJobQueued | lib/job-processor.js:104-109 | the job `getNextJob` picks is stored and queued; when it picks none, no job is queued |
| JobProcessor.SetStatusProgress | lib/job-queue.js:117 | a status write other than queued takes the job out of the queued ones and requeues nothing |
| JobProcessor.CatchProgress | lib/job-processor.js:194-216 | the catch block requeues nothing and only appends effects |
| JobProcessor.CompleteProgress | lib/job-processor.js:179-191 | the completion steps requeue nothing and only append effects |
| JobProcessor.AnnounceProgress | lib/job-processor.js:159-177 | the announcement and summary step requeue nothing and only append effects |
| JobProcessor.FinishProgress | lib/job-processor.js:154-191 | the steps after a transcription requeue nothing and only append effects |
| JobProcessor.ProcessJobProgress | lib/job-processor.js:131-217 | every run of `processJob` keeps the earlier effects, requeues no job, and leaves its own job no longer queued |
| JobProcessor.ProcessJobTouches | lib/job-processor.js:131-217 | a run of `processJob` changes at most the stored job with the run's id, keeps every job id in its place, and leaves that job not queued |
| JobProcessor.TurnEffect | lib/job-processor.js:104-119 | one turn of the loop picks the oldest queued job, changes only that stored job, takes it out of the queue, and only appends effects |
| JobProcessor.TurnsSnoc | lib/job-processor.js:102-122 | a trace of turns extended by one more turn from its last state is still a trace of turns |
| JobProcessor.DrainDone | lib/job-processor.js:99-123 | after a drain the queue has the same ids in the same places and no queued job; the jobs run are exactly the ones queued at the start, each once; every job not queued at the start is unchanged; earlier effects are kept |
| JobProcessor.DrainOldestFirst | lib/job-processor.js:104-109 | the jobs of a drain run in order of creation time |
| JobProcessor.RecoveredDrain | lib/job-processor.js:65-92 | a drain that starts from the recovered queue runs exactly the jobs that were queued or processing, each once, and leaves completed and failed jobs as they were |
| JobProcessor.EventLog.constructor | lib/job-processor.js:392-399 | the log of posted effects starts empty |
| JobProcessor.EventLog.Append | lib/job-processor.js:392-399 | posting appends exactly one effect |
| JobProcessor.Processor.constructor | lib/job-processor.js:52-58 | the processor starts not running, with no current job and no keep-alive |
| JobProcessor.Processor.SetJobStatus | lib/job-processor.js:136 | the queue call matches `SetStatus` on the stored state |
| JobProcessor.Processor.UpdateTranscriptRecord | lib/job-processor.js:139-141 | the store call matches `UpdateTranscript` on the stored state |
| JobProcessor.Processor.GenerateSummary | lib/job-processor.js:295-348 | the stored state after `generateSummary` is the one `Summarize` describes |
| JobProcessor.Processor.HandleFailure | lib/job-processor.js:194-216 | the stored state and outcome after the catch block are the ones `Catch` describes |
| JobProcessor.Processor.BeginJob | lib/job-processor.js:136-148 | the first steps match `Begin` |
| JobProcessor.Processor.AnnounceTranscript | lib/job-processor.js:159-177 | the announcement matches `Announce` |
| JobProcessor.Processor.CompleteJob | lib/job-processor.js:179-191 | the last steps match `Complete` |
| JobProcessor.Processor.FinishJob | lib/job-processor.js:154-191 | the steps after a transcription match `Finish` |
| JobProcessor.Processor.ProcessJob | lib/job-processor.js:131-217 | the run matches the value-level `processJob` for the transcription outcome the chunks produced, keeps earlier effects, requeues nothing, and takes its job out of the queue |
| JobProcessor.Processor.ProcessQueue | lib/job-processor.js:99-123 | the loop is a trace of turns from the entry state to the final state, each turn running the job `getNextJob` picks with the outcome `processJob` has, until `getNextJob` finds none; the queue keeps its ids in place, ends with no job queued, and every job not queued at entry is unchanged; the jobs run are exactly those queued at entry, oldest first; earlier effects are kept; there is no current job and the running and keep-alive flags are unchanged |
| JobProcessor.Processor.RunSwallowingErrors | lib/job-processor.js:114-119 | one turn: the job `getNextJob` picked is run and its failure dropped; the trace grows by that turn, whose end state is the stored state, and the number of queued jobs drops |
| JobProcessor.Processor.Start | lib/job-processor.js:65-92 | while already running, even with a job in progress, nothing changes and the current job id is kept; otherwise the queue is drained starting from the recovered queue, and afterwards the processor is not running and keep-alive is off |
| JobProcessor.Processor.GetCurrentJobId | lib/job-processor.js:432-434 | returns the current job id |
| JobProcessor.Processor.IsProcessing | lib/job-processor.js:440-442 | returns the running flag |
| JobProcessor.Processor.StartKeepAlive | lib/job-processor.js:404-415 | keep-alive is on afterwards and is set only when it was off; the running flag and the current job are unchanged |
| JobProcessor.Processor.StopKeepAlive | lib/job-processor.js:420-426 | keep-alive is off afterwards |
| AudioEncoder.Ascii | lib/audio-encoder.js:108-112 | one byte per character |
| AudioEncoder.Le16 | lib/audio-encoder.js:122 | `setUint16(_, v, true)` writes two bytes |
| AudioEncoder.Le32 | lib/audio-encoder.js:116 | `setUint32(_, v, true)` writes four bytes |
| AudioEncoder.WavHeader | lib/audio-encoder.js:114-131 | the header is 44 bytes |
| AudioEncoder.Pcm | lib/audio-encoder.js:133-140 | the sample bytes are two per sample |
| AudioEncoder.WavBytes | lib/audio-encoder.js:103-104 | the buffer is 44 + 2·(sample count) bytes |
| AudioEncoder.Le16RoundTrip | lib/audio-encoder.js:122 | reading back a 16-bit field gives the value modulo 2^16 |
| AudioEncoder.Le32RoundTrip | lib/audio-encoder.js:116 | reading back a 32-bit field gives the value modulo 2^32 |
| AudioEncoder.Int16RoundTrip | lib/audio-encoder.js:138 | `setInt16` followed by `getInt16` gives the sample back |
| AudioEncoder.PcmRoundTrip | lib/audio-encoder.js:136-140 | decoding the sample bytes gives every sample back |
| AudioEncoder.HeaderFields | lib/audio-encoder.js:114-131 | the header holds `RIFF`, 36 + dataLength, `WAVE`, `fmt `, 16, 1 (PCM), 1 channel, the sample rate, sampleRate·2, 2, 16, `data` and dataLength, at their offsets |
| AudioEncoder.HeaderRoundTrip | lib/audio-encoder.js:114-131 | a reader of the header gets back the sample rate and the data length, and finds PCM, one channel, byte rate sampleRate·2, block align 2 and 16 bits |
| AudioEncoder.WavRoundTrip | lib/audio-encoder.js:83-143 | a reader of the buffer gets back the sample rate and every sample |
| AudioEncoder.WriteString | lib/audio-encoder.js:108-112 | `writeString` sets one byte per character at the offset, after the bytes already written |
| AudioEncoder.SetUint16 | lib/audio-encoder.js:122 | writes the value's two little-endian bytes at the offset |
| AudioEncoder.SetUint32 | lib/audio-encoder.js:116 | writes the value's four little-endian bytes at the offset |
| AudioEncoder.WriteHeader | lib/audio-encoder.js:114-131 | the first 44 bytes of the view are the header |
| AudioEncoder.WriteSamples | lib/audio-encoder.js:134-140 | the sample loop writes each sample little-endian from offset 44 on, and keeps the header |
| AudioEncoder.EncodeWav | lib/audio-encoder.js:83-143 | `encodeWAV` returns a buffer of exactly 44 + 2·n bytes holding the header and the samples |
| AudioEncoder.MakeChunk | lib/audio-encoder.js:178-206 | one chunk object: its index, its first sample and count, and a WAV buffer of exactly its own samples |
| AudioEncoder.SplitAudio | lib/audio-encoder.js:151-218 | a zero chunk length with samples to split fails with the error that creating an empty buffer raises; otherwise the chunks are numbered 0, 1, 2, ... and cover the samples one after the other; each but the last holds chunkDurationSeconds·sampleRate samples (default 600 s); each carries its own samples; the counts add up to the buffer length |
| AudioEncoder.ChunkLayout | lib/audio-encoder.js:173-209 | chunk i is numbered i, starts at i·chunkSamples, holds at most chunkSamples, and exactly chunkSamples unless it is the last |
| AudioEncoder.ContiguousTotal | lib/audio-encoder.js:173-208 | the chunks' sample counts add up to the samples covered |
| AudioEncoder.ChunkSizes | lib/audio-encoder.js:175 | each chunk holds min(chunkSamples, remaining) samples |
| AudioEncoder.ChunkCount | lib/audio-encoder.js:173-210 | a split has ceil(length / chunkSamples) chunks |
| AudioEncoder.ThreeChunksForHalfAnHour | lib/audio-encoder.js:151 | thirty minutes at the default length give three chunks |
| AudioEncoder.FifteenMinutesSplit | lib/audio-encoder.js:151 | fifteen minutes give a ten-minute chunk and a five-minute chunk |
| AudioEncoder.ConvertToWav | lib/audio-encoder.js:54-76 | the converted blob is `audio/wav` with 44 + 2·n bytes |
| AudioEncoder.Encode | lib/audio-encoder.js:16-47 | the input comes back unchanged for format `webm` (the default), for a webm blob, or for an unsupported format; `wav` gives the converted blob, or the decoding error |
| AudioEncoder.EstimateFileSize | lib/audio-encoder.js:226-228 | the estimate is the bit count divided by 8, rounded up (default bitrate 128000) |
| AudioEncoder.IsWithinSizeLimit | lib/audio-encoder.js:236-239 | with the default limit a size passes exactly when it is within the client's 25 MiB upload limit; with a given limit of L, a size passes exactly when it is at most L·1048576 bytes, the boundary included |
| AudioEncoder.DefaultLimitIsUploadLimit | lib/audio-encoder.js:236-239 | with the default 25 MB, `isWithinSizeLimit` holds exactly when the client's upload check passes, including the inclusive boundary |
| AudioEncoder.DefaultChunkFits | lib/audio-encoder.js:236-239 | a default ten-minute WAV chunk is within the default limit exactly when the sample rate is at most 21845 Hz |
| Recordings.ExpiryDate | lib/audio-storage.js:321-326 | the expiry is retentionHours hours from now, or 24 hours when the argument is missing or 0 |
| Recordings.NewRecord | lib/audio-storage.js:65-75 | the record is keyed and indexed by the transcript id, with the blob, its size and type, the time, the duration (default 0), and the expiry |
| Recordings.Expired | lib/audio-storage.js:205 | a record without an expiry date never counts as expired |
| Recordings.ExpiredIds | lib/audio-storage.js:205 | exactly the keys whose record has an expiry strictly before now |
| Recordings.SavedRecordExpiry | lib/audio-storage.js:73 | a just-saved record with a non-negative retention is not expired, and expires exactly once the clock passes its expiry |
| Recordings.ExpiredStaysExpired | lib/audio-storage.js:205 | once expired, always expired |
| Recordings.CleanupExpiredLeavesNone | lib/audio-storage.js:196-220 | after removing the expired records, none is expired at that time |
| Recordings.DistinctIdsCard | lib/audio-storage.js:174 | a listing with distinct ids has as many ids as records |
| Recordings.PermutedEnumeration | lib/audio-storage.js:238 | reordering a listing is still a listing of the store |
| Recordings.ListedAll | lib/audio-storage.js:174 | a finished cursor lists every record once |
| Recordings.SortedListing | lib/audio-storage.js:238 | the listing sorted by timestamp is a sorted listing of the store |
| Recordings.PrefixIds | lib/audio-storage.js:241 | the first `cut` records of a listing are `cut` distinct keys of the store |
| Recordings.PrefixOlder | lib/audio-storage.js:238-241 | a record in the deleted prefix of the sorted listing is no newer than any kept record |
| Recordings.RemoveOldest | lib/audio-storage.js:238-247 | deleting the first `cut` sorted records keeps exactly `|store| - cut` records, each at least as new as every deleted one |
| Recordings.OldestCut | lib/audio-storage.js:238-247 | deleting the oldest `cut` records of the sorted listing leaves the store less its `cut` oldest records |
| Recordings.ExpiredInIds | lib/audio-storage.js:204-209 | the ids the loop deletes are exactly those of the expired records of the listing |
| Recordings.ExpiredInListing | lib/audio-storage.js:204-209 | the ids deleted while walking a listing are the expired keys of the store |
| Recordings.FreshId | lib/audio-storage.js:204-209 | the next record of a listing has an id not seen before, so each delete counts once |
| Recordings.TotalSize | lib/audio-storage.js:267 | the total is at least the size of every record, and 0 when no record has a size |
| Recordings.TotalSizeOrderFree | lib/audio-storage.js:267 | the total size does not depend on the order of the listing |
| Recordings.TotalSizeRemove | lib/audio-storage.js:267 | taking a record out of a listing lowers the total by its size, with a missing size counting as 0 |
| Recordings.Entry | lib/audio-storage.js:273-279 | a usage entry reports the record's id, size, time stamp and expiry |
| Recordings.Entries | lib/audio-storage.js:273-279 | one usage entry per record, in listing order |
| Recordings.ListStep | lib/audio-storage.js:174 | one cursor step lists one more record and takes its key out of the rest |
| Recordings.ListRecords | lib/audio-storage.js:174-179 | `getAll` lists every record of the store exactly once, in some order |
| Recordings.SortByTimestamp | lib/audio-storage.js:238 | the in-place sort gives the stable sort of the listing by timestamp |
| Recordings.AudioStorage.constructor | lib/audio-storage.js:10-12 | a new instance has no open handle over whatever is stored |
| Recordings.AudioStorage.Init | lib/audio-storage.js:18-52 | `init` opens the database only when no handle is cached, so repeated calls open it once |
| Recordings.AudioStorage.Close | lib/audio-storage.js:331-337 | `close` drops the handle and keeps the records |
| Recordings.AudioStorage.SaveAudio | lib/audio-storage.js:61-96 | put semantics: the record under the transcript id is replaced by the new one and nothing else changes |
| Recordings.AudioStorage.GetAudio | lib/audio-storage.js:103-131 | returns the stored record for the id, or null |
| Recordings.AudioStorage.DeleteAudio | lib/audio-storage.js:138-161 | removes that key and nothing else |
| Recordings.AudioStorage.ClearAll | lib/audio-storage.js:291-314 | the store is empty afterwards |
| Recordings.AudioStorage.GetAllAudios | lib/audio-storage.js:167-190 | lists every record once and changes nothing |
| Recordings.AudioStorage.CleanupExpiredAudios | lib/audio-storage.js:196-220 | deletes exactly the records whose expiry is strictly before now and returns that count |
| Recordings.AudioStorage.DeleteExpired | lib/audio-storage.js:204-209 | the loop deletes each expired record of the listing once and counts it |
| Recordings.AudioStorage.DeleteEach | lib/audio-storage.js:244-247 | the loop deletes every listed id and counts each |
| Recordings.AudioStorage.CleanupOldAudios | lib/audio-storage.js:227-258 | with at most maxCount records (default 20) nothing is deleted and 0 is returned; otherwise the count − maxCount oldest records by timestamp (every record when maxCount is negative) are deleted, the newer ones kept unchanged, and the number deleted returned |
| Recordings.AudioStorage.GetStorageUsage | lib/audio-storage.js:264-285 | the count is the number of records; the total is the sum of their sizes, a missing size counting as 0; there is one entry per record; the total in MB is the `toFixed(2)` text |
| Recordings.SizeText | lib/audio-storage.js:276 | a missing size reads `NaN`; a present size reads as whole digits, a dot and two digits that together give the size in hundredths of a MiB |
| Popup.IntToString | popup/popup.js:729 | `String(n)`: the decimal digits, with a minus sign for a negative number |
| Popup.JsRem | popup/popup.js:725-726 | JavaScript's `%`: the mathematical remainder for a non-negative dividend, and a result in (-b, 0] for a negative one |
| Popup.DurationParts | popup/popup.js:723-726 | for s ≥ 0, h = s div 3600, m = (s mod 3600) div 60 and sec = s mod 60, with m and sec below 60, and s = 3600h + 60m + sec |
| Popup.FormatDuration | popup/popup.js:723-735 | the duration text ends in `分` exactly from an hour on, and in `秒` otherwise |
| Popup.FormatDurationCases | popup/popup.js:723-735 | the text is `h時間m分` from an hour on, `m分sec秒` from a minute on, `sec秒` below a minute, and uses the truncated remainder for a negative input |
| Popup.ClockField | popup/popup.js:157 | each clock field is at least two characters |
| Popup.ClockParts | popup/popup.js:152-154 | the timer's minute and second fields are the elapsed minutes and seconds modulo 60, and together with the hours they make up the elapsed whole seconds |
| Popup.TimerText | popup/popup.js:150-157 | the clock text is at least eight characters, and for a non-negative elapsed time has the `H…H:MM:SS` shape |
| Popup.TimerFields | popup/popup.js:150-157 | the timer text is the hours, minutes and seconds of the elapsed time, each padded to two digits and separated by colons, with the hours uncapped |
| Popup.TimerRoundTrip | popup/popup.js:150-157 | the timer text is clock-shaped and reads back as the elapsed whole seconds |
| Popup.ReplaceForbidden | popup/popup.js:574 | each of `/ \ ? % * : \| " < >` becomes `-` and every other character is kept |
| Popup.DropSpaces | popup/popup.js:575 | dropping a whitespace run leaves a suffix that does not start with whitespace |
| Popup.CollapseSpaces | popup/popup.js:575 | collapsing whitespace runs never lengthens the text |
| Popup.CollapsedHasNoSpace | popup/popup.js:575 | after the whitespace runs become `_` no whitespace is left |
| Popup.CollapsedFromInput | popup/popup.js:575 | every character of the result is `_` or comes from the input |
| Popup.CollapseKeepsSpaceless | popup/popup.js:575 | text without whitespace is unchanged |
| Popup.StripTrailingDotsSpec | popup/popup.js:576 | the result is a prefix, only dots were removed, and it does not end with a dot |
| Popup.DropTrailingSpaces | popup/popup.js:577 | the result is a prefix that does not end with whitespace |
| Popup.Trim | popup/popup.js:577 | `trim` leaves whitespace-free text unchanged |
| Popup.SanitizeFilename | popup/popup.js:571-578 | the sanitised name has none of the forbidden characters, no whitespace and no trailing dot, and is no longer than the input |
| Popup.SanitizeKeepsSafe | popup/popup.js:571-578 | an already safe name is unchanged |
| Popup.SanitizeIdempotent | popup/popup.js:571-578 | sanitising twice equals sanitising once |
| Popup.TranscriptFileName | popup/popup.js:597-598 | the transcript download name is a safe stem followed by `.txt` |
| Popup.AudioFileName | popup/popup.js:795-796 | the audio download name is a safe stem followed by `_audio.webm` |
| Popup.DownloadNames | popup/popup.js:597-598 | a title, or its fallback, that is already a safe name is used as the stem unchanged |
| Popup.FallbacksSafe | popup/popup.js:795 | the fallbacks `transcript` and `audio` are safe names |
| Popup.IsFailedEntry | popup/popup.js:253 | an entry counts as failed exactly when its text starts with `エラー:`; the non-empty test adds nothing |
| Popup.ErrorTextIsMarked | popup/popup.js:253 | the processor's error text `エラー: ` + message starts with the popup's `エラー:` test |
| Popup.FailedRunShownFailed | popup/popup.js:253 | after a failed run of `processJob` the history entry counts as failed in the popup |

## Left out

- Browser and extension I/O is not modelled: chrome.storage, runtime messaging, IndexedDB callbacks and their error messages, fetch, FormData and Blob contents. The stores are fields and maps, the server's replies are `Services` functions, and the popup messages and `lastCompleted…` flags are entries of the event log.
- `getDependencies`, `base64ToBlob` and `notifyPopup` are replaced by explicit collaborators. Decoding a data URL is a function that may fail. The `chunkTranscribed` progress notice is not logged.
- Keep-alive is a flag: the 20-second interval and its console pings are not modelled.
- Timing is not modelled: the event loop, promise scheduling, and the back-off sleeps (recorded as a list of waits). Which running task settles first is a nondeterministic choice.
- Floating point is not modelled:
  - the stereo-to-mono mix and the quantisation of samples (the model starts from 16-bit mono samples);
  - the millisecond `startTime`/`duration` of split chunks;
  - `estimateCost`;
  - the summary temperature 0.7.
- `generateUUID` (random), `createTranscript`'s ISO time stamp, `formatDate`, `escapeHtml`, and the popup's DOM, clipboard and dialog code are not modelled.
- `testConnection`, `saveSettings`, `Storage.clearAll` and `Storage.getStorageUsage` are thin wrappers around one browser call each, and are not modelled.
- `Recordings.AudioStorage.SaveAudio`: the spread of `metadata` over the record is modelled only for `duration` and `retentionHours`; any other metadata key is dropped. The failure of `indexedDB.open` is not modelled.
- `Recordings.ListRecords`: the order in which `getAll` returns records is left open, so a listing is any order of the stored records.
- `Recordings.ExpiryDate`: hours are added as 3600000 ms each; daylight-saving shifts of `setHours` are not modelled.
- `JobQueue.Transition`: only the three fields that callers pass (`startedAt`, `completedAt`, `error`) can be merged. Other keys of the extra data are not modelled.
- `Storage.MergePatch`: only the fields the processor writes (`transcript`, `summary`, `status`) can be updated.
- `AudioEncoder.SplitAudio`: the chunk duration is a whole number of seconds. Fractional durations, and the negative ones for which creating the buffer throws, are not modelled.
- `OpenAI.Summarize`, `OpenAI.Transcribe`: a 2xx reply that lacks a field the client reads makes the source throw a `TypeError` whose message is the engine's text. The model fails with `MissingField`, whose message is the name of the field instead.
- `JobProcessor.Processor.Start`, `JobProcessor.Processor.ProcessQueue`, `JobProcessor.Processor.ProcessJob`: one `now` serves the whole run. The source reads `Date.now()` afresh at each write, so its time stamps of different writes may differ where the model's are equal.
- `JobProcessor.Processor.Start`: the status writes of the recovery are applied to the queue but are not entries of the event log; the drain's trace starts from the recovered queue. The failure of the recovery, which the source catches, cannot happen in the model.
- `Parallel.StartNext`: each wait on a race settles exactly one running task. In the source every task removes itself from `executing` when it settles, so several may leave before the awaited race resumes; those schedules are not generated by the model, and the cap is proved only for the schedules it generates (freeing several slots at once cannot exceed the cap either).
- `Popup.IsFailedEntry`: the retry button's extra condition, `audioStored`, is DOM-side and not modelled.
- Strings are sequences of Unicode scalar values, not UTF-16 code units. `\s` is modelled as the JavaScript whitespace set of `IsSpace`.
- background.js, offscreen.js, content.js, lib/audio-recorder.js and settings/settings.js are not part of this model.
