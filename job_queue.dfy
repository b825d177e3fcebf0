/** The persisted job queue (`JobQueue` in lib/job-queue.js). The stored
    array of job records is the field `jobs` of a `Queue`; every mutation
    replaces it with the array the source writes back. `Date.now()` is the
    parameter `now`. */
module JobQueue {
  import opened Wrappers
  import Sorting

  datatype Status = Queued | Processing | Completed | Failed

  /** The string each status is stored as. */
  function StatusName(s: Status): string {
    match s
    case Queued => "queued"
    case Processing => "processing"
    case Completed => "completed"
    case Failed => "failed"
  }

  /** The check `Object.values(STATUS).includes(status)`, returning the
      status it names. */
  function ParseStatus(name: string): (r: Option<Status>)
    ensures r.Some? ==> StatusName(r.value) == name
    ensures r.None? ==> forall s: Status :: StatusName(s) != name
  {
    if name == "queued" then Some(Queued)
    else if name == "processing" then Some(Processing)
    else if name == "completed" then Some(Completed)
    else if name == "failed" then Some(Failed)
    else None
  }

  /** One piece of a recording: its position, its audio as a base64 data URL,
      and where it lies in the recording. */
  datatype Chunk = Chunk(index: int, audioBlob: string, startTime: int, duration: int)

  /** Recording information the queue carries without looking at it. */
  datatype Metadata = Metadata(title: string, duration: int, platform: string, size: int)

  /** The argument of `addJob`; `None` is a missing field. */
  datatype JobData = JobData(transcriptId: Option<string>, chunks: Option<seq<Chunk>>, metadata: Option<Metadata>)

  datatype Job = Job(
    id: string,
    status: Status,
    transcriptId: string,
    chunks: seq<Chunk>,
    metadata: Metadata,
    createdAt: int,
    startedAt: Option<int>,
    completedAt: Option<int>,
    error: Option<string>)

  datatype QueueError =
    | InvalidJobData
    | DuplicateJob(id: string)
    | InvalidStatus(status: string)
    | JobNotFound(id: string)
  {
    function Message(): string {
      match this
      case InvalidJobData => "Invalid job data: transcriptId, chunks, and metadata are required"
      case DuplicateJob(id) => "Job with ID " + id + " already exists"
      case InvalidStatus(s) => "Invalid status: " + s
      case JobNotFound(id) => "Job not found: " + id
    }
  }

  /** A field of the extra data merged by `updateJobStatus`: left as it is, or
      set to a value (`null` is `Set(None)`). */
  datatype Field<T> = Keep | Set(value: T)

  /** The extra data of `updateJobStatus`, limited to the fields the
      processor and the recovery pass write. */
  datatype JobPatch = JobPatch(startedAt: Field<Option<int>>, completedAt: Field<Option<int>>, error: Field<Option<string>>)

  const NoPatch := JobPatch(Keep, Keep, Keep)

  /** Default age after which finished jobs are removed: 24 hours in ms. */
  const DefaultMaxAge := 24 * 60 * 60 * 1000

  function Merge<T>(f: Field<T>, current: T): T {
    if f.Set? then f.value else current
  }

  /** A string is truthy when it is present and not empty; an array or an
      object is truthy when present. */
  predicate WellFormed(data: JobData) {
    data.transcriptId.Some? && data.transcriptId.value != "" && data.chunks.Some? && data.metadata.Some?
  }

  function NewJob(data: JobData, now: int): (job: Job)
    requires WellFormed(data)
    ensures job.id == job.transcriptId == data.transcriptId.value
    ensures job.status == Queued && job.createdAt == now
    ensures job.startedAt.None? && job.completedAt.None? && job.error.None?
  {
    Job(data.transcriptId.value, Queued, data.transcriptId.value, data.chunks.value, data.metadata.value,
        now, None, None, None)
  }

  /** What `updateJobStatus` does to the record it finds: set the status,
      stamp the time the status calls for, then merge the extra data over it. */
  function Transition(job: Job, status: Status, patch: JobPatch, now: int): (r: Job)
    ensures r.id == job.id && r.transcriptId == job.transcriptId && r.chunks == job.chunks
    ensures r.metadata == job.metadata && r.createdAt == job.createdAt
    ensures r.status == status
  {
    var started := if status == Processing then Some(now) else job.startedAt;
    var completed := if status == Completed || status == Failed then Some(now) else job.completedAt;
    job.(status := status,
         startedAt := Merge(patch.startedAt, started),
         completedAt := Merge(patch.completedAt, completed),
         error := Merge(patch.error, job.error))
  }

  /** Without extra data, the stamps follow the status: processing stamps
      `startedAt`, completed and failed stamp `completedAt`, queued stamps
      nothing. Extra data wins over a stamp. */
  lemma TransitionStamps(job: Job, status: Status, patch: JobPatch, now: int)
    ensures var r := Transition(job, status, NoPatch, now);
      (r.startedAt == if status == Processing then Some(now) else job.startedAt) &&
      (r.completedAt == if status in {Completed, Failed} then Some(now) else job.completedAt) &&
      r.error == job.error
    ensures patch.startedAt.Set? ==> Transition(job, status, patch, now).startedAt == patch.startedAt.value
    ensures patch.completedAt.Set? ==> Transition(job, status, patch, now).completedAt == patch.completedAt.value
    ensures patch.error.Set? ==> Transition(job, status, patch, now).error == patch.error.value
  {
  }

  ghost predicate UniqueIds(js: seq<Job>) {
    forall a, b :: 0 <= a < b < |js| ==> js[a].id != js[b].id
  }

  /** `findIndex` by id: the first position holding `id`, or -1. The
      transcript history has its own search over its own record type. */
  function IndexOf(js: seq<Job>, id: string): (k: int)
    ensures -1 <= k < |js|
    ensures k == -1 <==> forall i :: 0 <= i < |js| ==> js[i].id != id
    ensures k >= 0 ==> js[k].id == id && forall i :: 0 <= i < k ==> js[i].id != id
  {
    if js == [] then -1
    else if js[0].id == id then 0
    else
      var k := IndexOf(js[1..], id);
      if k == -1 then -1 else k + 1
  }

  /** Replacing a job by a record with the same id leaves every lookup by id
      where it was. */
  lemma IndexOfReplace(js: seq<Job>, k: int, x: Job, id: string)
    requires 0 <= k < |js| && x.id == js[k].id
    ensures IndexOf(js[k := x], id) == IndexOf(js, id)
  {
    var r := js[k := x];
    assert forall i :: 0 <= i < |js| ==> r[i].id == js[i].id;
    var a := IndexOf(r, id);
    var b := IndexOf(js, id);
    if a != -1 && b != -1 {
      assert !(a < b) && !(b < a);
    }
  }

  /** In a queue without duplicate ids, the lookup of a stored job's id
      finds that job. */
  lemma IndexOfMember(js: seq<Job>, job: Job)
    requires UniqueIds(js) && job in js
    ensures IndexOf(js, job.id) >= 0 && js[IndexOf(js, job.id)] == job
  {
  }

  lemma StatusNameParses(s: Status)
    ensures ParseStatus(StatusName(s)) == Some(s)
  {
  }

  /** `getJob`: the first job with that id, or null. */
  function GetJob(js: seq<Job>, id: string): (r: Option<Job>)
    ensures r.None? <==> forall i :: 0 <= i < |js| ==> js[i].id != id
    ensures r.Some? ==>
      r.value.id == id && exists k :: 0 <= k < |js| && js[k] == r.value && (forall i :: 0 <= i < k ==> js[i].id != id)
  {
    var k := IndexOf(js, id);
    if k == -1 then None else Some(js[k])
  }

  /** `queue.filter(job => job.status === status)`. */
  function WithStatus(js: seq<Job>, status: Status): (r: seq<Job>)
    ensures |r| <= |js|
  {
    if js == [] then []
    else
      var last := js[|js| - 1];
      WithStatus(js[..|js| - 1], status) + (if last.status == status then [last] else [])
  }

  /** Filtering distributes over concatenation. */
  lemma {:induction false} WithStatusConcat(a: seq<Job>, b: seq<Job>, status: Status)
    ensures WithStatus(a + b, status) == WithStatus(a, status) + WithStatus(b, status)
  {
    if b == [] {
      assert a + b == a;
    } else {
      var init := b[..|b| - 1];
      var x := b[|b| - 1];
      var tail := if x.status == status then [x] else [];
      calc {
        WithStatus(a + b, status);
        { assert a + b == (a + init) + [x]; }
        WithStatus((a + init) + [x], status);
        { WithStatusSnoc(a + init, x, status); }
        WithStatus(a + init, status) + tail;
        { WithStatusConcat(a, init, status); }
        WithStatus(a, status) + WithStatus(init, status) + tail;
        { WithStatusSnoc(init, x, status); assert b == init + [x]; }
        WithStatus(a, status) + WithStatus(b, status);
      }
    }
  }

  lemma {:induction false} WithStatusMembers(js: seq<Job>, status: Status)
    ensures forall j :: j in WithStatus(js, status) <==> j in js && j.status == status
  {
    if js != [] {
      var init := js[..|js| - 1];
      WithStatusMembers(init, status);
      assert js == init + [js[|js| - 1]];
    }
  }

  /** With no job in that status the filter is empty. */
  lemma {:induction false} WithStatusNone(js: seq<Job>, status: Status)
    requires forall k :: 0 <= k < |js| ==> js[k].status != status
    ensures WithStatus(js, status) == []
  {
    if js != [] {
      WithStatusNone(js[..|js| - 1], status);
    }
  }

  lemma WithStatusSnoc(s: seq<Job>, x: Job, status: Status)
    ensures WithStatus(s + [x], status) == WithStatus(s, status) + (if x.status == status then [x] else [])
  {
    assert (s + [x])[..|s|] == s;
  }

  /** Replacing one job changes the size of a status's filter only by what
      the old and the new record contribute. */
  lemma WithStatusReplace(js: seq<Job>, k: int, x: Job, status: Status)
    requires 0 <= k < |js|
    ensures |WithStatus(js[k := x], status)| ==
      |WithStatus(js, status)| - (if js[k].status == status then 1 else 0) + (if x.status == status then 1 else 0)
  {
    var pre := js[..k];
    var post := js[k + 1..];
    assert js == pre + [js[k]] + post;
    assert js[k := x] == pre + [x] + post;
    WithStatusConcat(pre + [js[k]], post, status);
    WithStatusConcat(pre + [x], post, status);
    WithStatusSnoc(pre, js[k], status);
    WithStatusSnoc(pre, x, status);
  }

  lemma {:induction false} WithStatusUnique(js: seq<Job>, status: Status)
    requires UniqueIds(js)
    ensures UniqueIds(WithStatus(js, status))
  {
    if js != [] {
      var init := js[..|js| - 1];
      WithStatusUnique(init, status);
      WithStatusMembers(init, status);
      var last := js[|js| - 1];
      forall j | j in WithStatus(init, status) ensures j.id != last.id {
        var a :| 0 <= a < |init| && init[a] == j;
      }
    }
  }

  lemma {:induction false} WithoutIdUnique(js: seq<Job>, id: string)
    requires UniqueIds(js)
    ensures UniqueIds(WithoutId(js, id))
  {
    if js != [] {
      var init := js[..|js| - 1];
      WithoutIdUnique(init, id);
      var last := js[|js| - 1];
      forall j | j in WithoutId(init, id) ensures j.id != last.id {
        var a :| 0 <= a < |init| && init[a] == j;
      }
    }
  }

  lemma {:induction false} UnexpiredUnique(js: seq<Job>, maxAge: int, now: int)
    requires UniqueIds(js)
    ensures UniqueIds(Unexpired(js, maxAge, now))
  {
    if js != [] {
      var init := js[..|js| - 1];
      UnexpiredUnique(init, maxAge, now);
      var last := js[|js| - 1];
      forall j | j in Unexpired(init, maxAge, now) ensures j.id != last.id {
        var a :| 0 <= a < |init| && init[a] == j;
      }
    }
  }

  /** `getProcessingJobs`. */
  function GetProcessingJobs(js: seq<Job>): (r: seq<Job>)
    ensures forall j :: j in r <==> j in js && j.status == Processing
  {
    WithStatusMembers(js, Processing);
    WithStatus(js, Processing)
  }

  function CreatedAt(job: Job): int {
    job.createdAt
  }

  /** `getNextJob`: the queued jobs sorted by `createdAt` (a stable sort),
      and the first of them, or null when none is queued. */
  function GetNextJob(js: seq<Job>): (r: Option<Job>)
    ensures r.None? <==> forall k :: 0 <= k < |js| ==> js[k].status != Queued
    ensures r.Some? ==> r.value in js && r.value.status == Queued
  {
    var queued := WithStatus(js, Queued);
    WithStatusMembers(js, Queued);
    if queued == [] then None
    else
      var sorted := Sorting.InsertionSort(queued, CreatedAt);
      Sorting.InsertionSortPermutes(queued, CreatedAt);
      assert queued[0] in queued && sorted[0] in multiset(queued);
      Some(sorted[0])
  }

  /** The job at `p` is the one to run next: it is queued, no queued job was
      created earlier, and every queued job before it was created later. */
  ghost predicate IsNext(js: seq<Job>, p: int) {
    0 <= p < |js| && js[p].status == Queued &&
    (forall k :: 0 <= k < |js| && js[k].status == Queued ==> js[p].createdAt <= js[k].createdAt) &&
    (forall k :: 0 <= k < p && js[k].status == Queued ==> js[k].createdAt > js[p].createdAt)
  }

  /** `getNextJob` returns null exactly when no job is queued, and otherwise
      the oldest queued job, ties going to the one added first. */
  lemma GetNextJobSpec(js: seq<Job>)
    ensures GetNextJob(js).None? <==> forall k :: 0 <= k < |js| ==> js[k].status != Queued
    ensures forall p :: IsNext(js, p) ==> GetNextJob(js) == Some(js[p])
    ensures GetNextJob(js).Some? ==> exists p :: IsNext(js, p) && GetNextJob(js) == Some(js[p])
  {
    WithStatusMembers(js, Queued);
    forall p | IsNext(js, p) ensures GetNextJob(js) == Some(js[p]) {
      NextIsSortedHead(js, p);
    }
    if GetNextJob(js).Some? {
      var q := WithStatus(js, Queued);
      assert q[0] in q;
      var p := FirstOldest(js);
      NextIsSortedHead(js, p);
    }
  }

  /** The position of the oldest queued job added first; exists as soon as
      one job is queued. */
  lemma FirstOldest(js: seq<Job>) returns (p: int)
    requires exists k :: 0 <= k < |js| && js[k].status == Queued
    ensures IsNext(js, p)
  {
    var k0 :| 0 <= k0 < |js| && js[k0].status == Queued;
    // the smallest creation time among queued jobs
    var m := k0;
    var i := 0;
    while i < |js|
      invariant 0 <= i <= |js| && 0 <= m < |js| && js[m].status == Queued
      invariant forall k :: 0 <= k < i && js[k].status == Queued ==> js[m].createdAt <= js[k].createdAt
    {
      if js[i].status == Queued && js[i].createdAt < js[m].createdAt {
        m := i;
      }
      i := i + 1;
    }
    // the first queued job with that time
    p := 0;
    while !(js[p].status == Queued && js[p].createdAt == js[m].createdAt)
      invariant 0 <= p <= m
      invariant forall k :: 0 <= k < p && js[k].status == Queued ==> js[k].createdAt > js[m].createdAt
      decreases m - p
    {
      p := p + 1;
    }
  }

  /** The queued jobs before position `p` come first in the filtered list,
      immediately followed by the job at `p` when it is queued. */
  lemma QueuedSplit(js: seq<Job>, p: int)
    requires 0 <= p < |js| && js[p].status == Queued
    ensures var q := WithStatus(js, Queued); var pre := WithStatus(js[..p], Queued);
      |pre| < |q| && q[|pre|] == js[p] && q[..|pre|] == pre
  {
    var before := js[..p];
    var after := js[p..];
    assert js == before + after;
    WithStatusConcat(before, after, Queued);
    assert after == [js[p]] + after[1..];
    WithStatusConcat([js[p]], after[1..], Queued);
    assert WithStatus([js[p]], Queued) == [js[p]] by {
      assert [js[p]][..0] == [];
    }
  }

  lemma NextIsSortedHead(js: seq<Job>, p: int)
    requires IsNext(js, p)
    ensures GetNextJob(js) == Some(js[p])
  {
    QueuedSplit(js, p);
    WithStatusMembers(js, Queued);
    WithStatusMembers(js[..p], Queued);
    var q := WithStatus(js, Queued);
    var pre := WithStatus(js[..p], Queued);
    var p' := |pre|;
    forall k | 0 <= k < |q| ensures CreatedAt(q[p']) <= CreatedAt(q[k]) {
      assert q[k] in q;
    }
    forall k | 0 <= k < p' ensures CreatedAt(q[k]) > CreatedAt(q[p']) {
      assert q[k] == pre[k];
      assert pre[k] in pre;
      var i :| 0 <= i < p && js[..p][i] == pre[k];
    }
    Sorting.InsertionSortHead(q, CreatedAt, p');
  }

  /** The record a processing job becomes when recovered: queued again,
      `startedAt` and `error` cleared, `completedAt` kept. */
  function Requeue(job: Job): (r: Job)
    ensures r == job.(status := Queued, startedAt := None, error := None)
  {
    Transition(job, Queued, RecoverPatch, 0)
  }

  /** The extra data `recoverProcessingJobs` merges: `startedAt` and
      `error` set to null. */
  const RecoverPatch := JobPatch(Set(None), Keep, Set(None))

  lemma RequeueAnyTime(job: Job, now: int)
    ensures Transition(job, Queued, RecoverPatch, now) == Requeue(job)
  {
  }

  /** Midway through a recovery: the processing jobs whose ids are in `done`
      have been put back, nothing else has changed. */
  ghost predicate RecoveredUpTo(js0: seq<Job>, js: seq<Job>, done: set<string>) {
    |js| == |js0| &&
    forall k :: 0 <= k < |js| ==>
      js[k] == if js0[k].status == Processing && js0[k].id in done then Requeue(js0[k]) else js0[k]
  }

  lemma RecoverStep(js0: seq<Job>, js: seq<Job>, done: set<string>, k0: int)
    requires UniqueIds(js0) && RecoveredUpTo(js0, js, done)
    requires 0 <= k0 < |js0| && js0[k0].status == Processing && js0[k0].id !in done
    ensures RecoveredUpTo(js0, js[k0 := Requeue(js[k0])], done + {js0[k0].id})
  {
  }

  /** The queue after `recoverProcessingJobs`. */
  function Recovered(js: seq<Job>): (r: seq<Job>)
    ensures |r| == |js|
    ensures forall k :: 0 <= k < |js| ==> r[k] == if js[k].status == Processing then Requeue(js[k]) else js[k]
  {
    seq(|js|, k requires 0 <= k < |js| => if js[k].status == Processing then Requeue(js[k]) else js[k])
  }

  /** After a recovery no job is processing, so a second recovery finds
      nothing to do and changes nothing. */
  lemma RecoverTwice(js: seq<Job>)
    ensures GetProcessingJobs(Recovered(js)) == []
    ensures Recovered(Recovered(js)) == Recovered(js)
  {
    WithStatusNone(Recovered(js), Processing);
  }

  /** A finished job whose `completedAt` is set (and, being truthy, not 0) and
      lies more than `maxAge` before `now`. */
  predicate Expired(job: Job, maxAge: int, now: int) {
    (job.status == Completed || job.status == Failed) &&
    job.completedAt.Some? && job.completedAt.value != 0 &&
    now - job.completedAt.value > maxAge
  }

  /** `oldCompletedJobs` in `cleanupCompletedJobs`. */
  function ExpiredJobs(js: seq<Job>, maxAge: int, now: int): (r: seq<Job>)
    ensures forall j :: j in r <==> j in js && Expired(j, maxAge, now)
  {
    if js == [] then []
    else
      var last := js[|js| - 1];
      ExpiredJobs(js[..|js| - 1], maxAge, now) + (if Expired(last, maxAge, now) then [last] else [])
  }

  /** The jobs `cleanupCompletedJobs` keeps, in their order. */
  function Unexpired(js: seq<Job>, maxAge: int, now: int): (r: seq<Job>)
    ensures forall j :: j in r <==> j in js && !Expired(j, maxAge, now)
  {
    if js == [] then []
    else
      var last := js[|js| - 1];
      Unexpired(js[..|js| - 1], maxAge, now) + (if Expired(last, maxAge, now) then [] else [last])
  }

  lemma LastSplit(js: seq<Job>)
    requires js != []
    ensures js == js[..|js| - 1] + [js[|js| - 1]]
  {
  }

  /** Every job is either removed or kept, so the count returned is the
      number of jobs removed; with none expired the queue is unchanged. */
  lemma {:induction false} CleanupPartition(js: seq<Job>, maxAge: int, now: int)
    ensures |ExpiredJobs(js, maxAge, now)| + |Unexpired(js, maxAge, now)| == |js|
    ensures ExpiredJobs(js, maxAge, now) == [] ==> Unexpired(js, maxAge, now) == js
  {
    if js != [] {
      var init := js[..|js| - 1];
      var last := js[|js| - 1];
      CleanupPartition(init, maxAge, now);
      if Expired(last, maxAge, now) {
        assert ExpiredJobs(js, maxAge, now) == ExpiredJobs(init, maxAge, now) + [last];
        assert Unexpired(js, maxAge, now) == Unexpired(init, maxAge, now);
      } else {
        assert ExpiredJobs(js, maxAge, now) == ExpiredJobs(init, maxAge, now);
        assert Unexpired(js, maxAge, now) == Unexpired(init, maxAge, now) + [last];
        if ExpiredJobs(js, maxAge, now) == [] {
          LastSplit(js);
        }
      }
    }
  }

  /** `deleteJob`: every job with another id, in order. */
  function WithoutId(js: seq<Job>, id: string): (r: seq<Job>)
    ensures forall j :: j in r <==> j in js && j.id != id
    ensures (forall i :: 0 <= i < |js| ==> js[i].id != id) ==> r == js
  {
    if js == [] then []
    else
      var init := js[..|js| - 1];
      var last := js[|js| - 1];
      assert js == init + [last];
      WithoutId(init, id) + (if last.id == id then [] else [last])
  }

  class Queue {
    var jobs: seq<Job>

    ghost predicate Valid()
      reads this
    {
      UniqueIds(jobs)
    }

    constructor()
      ensures Valid() && jobs == []
    {
      jobs := [];
    }

    /** `addJob`: rejects incomplete data and duplicate ids without writing;
        otherwise appends one queued job and returns its id. */
    method AddJob(data: JobData, now: int) returns (r: Result<string, QueueError>)
      requires Valid()
      modifies this
      ensures Valid()
      ensures !WellFormed(data) ==> r == Failure(InvalidJobData) && jobs == old(jobs)
      ensures WellFormed(data) && IndexOf(old(jobs), data.transcriptId.value) >= 0 ==>
        r == Failure(DuplicateJob(data.transcriptId.value)) && jobs == old(jobs)
      ensures WellFormed(data) && IndexOf(old(jobs), data.transcriptId.value) == -1 ==>
        r == Success(data.transcriptId.value) && jobs == old(jobs) + [NewJob(data, now)]
    {
      if !WellFormed(data) {
        return Failure(InvalidJobData);
      }
      var job := NewJob(data, now);
      if IndexOf(jobs, job.id) >= 0 {
        return Failure(DuplicateJob(job.id));
      }
      jobs := jobs + [job];
      r := Success(job.id);
    }

    /** `updateJobStatus`: rejects an unknown status or id without writing;
        otherwise changes the first job with that id and no other. */
    method UpdateJobStatus(id: string, status: string, patch: JobPatch, now: int) returns (r: Outcome<QueueError>)
      requires Valid()
      modifies this
      ensures Valid()
      ensures ParseStatus(status).None? ==> r == Fail(InvalidStatus(status)) && jobs == old(jobs)
      ensures ParseStatus(status).Some? && IndexOf(old(jobs), id) == -1 ==>
        r == Fail(JobNotFound(id)) && jobs == old(jobs)
      ensures ParseStatus(status).Some? && IndexOf(old(jobs), id) >= 0 ==>
        var k := IndexOf(old(jobs), id);
        r == Pass && jobs == old(jobs)[k := Transition(old(jobs)[k], ParseStatus(status).value, patch, now)]
    {
      var st := ParseStatus(status);
      if st.None? {
        return Fail(InvalidStatus(status));
      }
      var k := IndexOf(jobs, id);
      if k == -1 {
        return Fail(JobNotFound(id));
      }
      jobs := jobs[k := Transition(jobs[k], st.value, patch, now)];
      r := Pass;
    }

    /** `getAllJobs`: the stored jobs, in the order they were added. */
    method GetAllJobs() returns (r: seq<Job>)
      ensures r == jobs
    {
      r := jobs;
    }

    /** `deleteJob`: removes the job with that id; no-op when absent. */
    method DeleteJob(id: string)
      requires Valid()
      modifies this
      ensures Valid()
      ensures jobs == WithoutId(old(jobs), id)
    {
      WithoutIdUnique(jobs, id);
      jobs := WithoutId(jobs, id);
    }

    /** One turn of the loop of `recoverProcessingJobs`: the status update
        that puts `job` back in the queue. */
    method RequeueOne(job: Job, now: int, ghost js0: seq<Job>, ghost done: set<string>, ghost k0: nat)
      requires Valid() && UniqueIds(js0) && RecoveredUpTo(js0, jobs, done)
      requires k0 < |js0| && js0[k0] == job && job.status == Processing && job.id !in done
      modifies this
      ensures Valid() && RecoveredUpTo(js0, jobs, done + {job.id})
    {
      ghost var before := jobs;
      assert IndexOf(before, job.id) == k0 by {
        forall i | 0 <= i < k0 ensures before[i].id != job.id {
          assert before[i].id == js0[i].id;
        }
      }
      var r := UpdateJobStatus(job.id, StatusName(Queued), RecoverPatch, now);
      RequeueAnyTime(before[k0], now);
      RecoverStep(js0, before, done, k0);
    }

    /** `recoverProcessingJobs`: puts every job that was processing back in
        the queue, one `updateJobStatus` call each, and returns how many. */
    method RecoverProcessingJobs(now: int) returns (count: nat)
      requires Valid()
      modifies this
      ensures Valid()
      ensures jobs == Recovered(old(jobs))
      ensures count == |GetProcessingJobs(old(jobs))|
    {
      ghost var js0 := jobs;
      var procs := GetProcessingJobs(jobs);
      if |procs| == 0 {
        forall k | 0 <= k < |js0| ensures js0[k].status != Processing {
          assert js0[k] in js0;
        }
        assert jobs == Recovered(js0);
        return 0;
      }
      WithStatusUnique(js0, Processing);
      ghost var done: set<string> := {};
      var i := 0;
      while i < |procs|
        invariant 0 <= i <= |procs|
        invariant Valid() && RecoveredUpTo(js0, jobs, done)
        invariant forall m :: 0 <= m < |procs| ==> (procs[m].id in done <==> m < i)
      {
        var job := procs[i];
        assert job in procs;
        ghost var k0 :| 0 <= k0 < |js0| && js0[k0] == job;
        RequeueOne(job, now, js0, done, k0);
        done := done + {job.id};
        i := i + 1;
      }
      forall k | 0 <= k < |js0| && js0[k].status == Processing ensures js0[k].id in done {
        assert js0[k] in procs;
      }
      count := |procs|;
    }

    /** `cleanupCompletedJobs`: removes the finished jobs older than `maxAge`
        (24 hours when the argument is omitted) and returns how many it
        removed. */
    method CleanupCompletedJobs(maxAgeArg: Option<int>, now: int) returns (count: nat)
      requires Valid()
      modifies this
      ensures Valid()
      ensures var maxAge := maxAgeArg.GetOr(DefaultMaxAge);
        jobs == Unexpired(old(jobs), maxAge, now) &&
        count == |ExpiredJobs(old(jobs), maxAge, now)| == |old(jobs)| - |jobs|
    {
      var maxAge := maxAgeArg.GetOr(DefaultMaxAge);
      var expired := ExpiredJobs(jobs, maxAge, now);
      CleanupPartition(jobs, maxAge, now);
      if |expired| == 0 {
        return 0;
      }
      UnexpiredUnique(jobs, maxAge, now);
      jobs := Unexpired(jobs, maxAge, now);
      count := |expired|;
    }
  }

  function Ids(js: seq<Job>): set<string> {
    set i | 0 <= i < |js| :: js[i].id
  }
}
