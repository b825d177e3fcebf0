/** The transcript history and the settings (`Storage` in lib/storage.js).
    The array stored under `transcripts` is the field `transcripts` of a
    `TranscriptStore`; every mutation replaces it with the array the source
    writes back. The random id and the ISO time stamp of a new record are
    parameters. */
module Storage {
  import opened Wrappers

  /** The processing stage the job processor records on a transcript. */
  datatype TranscriptStatus = Processing | Transcribed | Completed | Failed

  datatype Transcript = Transcript(
    id: string,
    timestamp: string,
    title: string,
    duration: int,
    transcript: string,
    summary: Option<string>,
    audioSize: int,
    platform: string,
    status: Option<TranscriptStatus>)

  /** The `updates` object of `updateTranscript`, limited to the fields the
      processor writes; `None` is a field the object does not carry. */
  datatype TranscriptPatch = TranscriptPatch(
    transcript: Option<string>,
    summary: Option<string>,
    status: Option<TranscriptStatus>)

  /** The argument of `createTranscript`; `None` is a missing field. */
  datatype TranscriptInput = TranscriptInput(
    title: Option<string>,
    duration: Option<int>,
    transcript: Option<string>,
    summary: Option<string>,
    audioSize: Option<int>,
    platform: Option<string>)

  datatype Settings = Settings(
    apiKey: string,
    recordingDevice: string,
    language: Option<string>,
    autoSummarize: bool,
    summaryModel: Option<string>,
    summaryPrompt: Option<string>)

  /** How many records the history keeps. */
  const MaxTranscripts := 20

  const NotFoundMessage := "文字起こし結果が見つかりません"

  /** `s || d` for a string that may be missing. */
  function OrString(s: Option<string>, d: string): string {
    if s.Some? && s.value != "" then s.value else d
  }

  /** `n || 0` for a number that may be missing. */
  function OrZero(n: Option<int>): int {
    if n.Some? then n.value else 0
  }

  /** `loadSettings`: the stored settings object, or the defaults when none
      is stored. */
  function LoadSettings(stored: Option<Settings>): (r: Settings)
    ensures stored.Some? ==> r == stored.value
    ensures stored.None? ==>
      r.apiKey == "" && r.recordingDevice == "" && r.language == Some("ja") &&
      r.autoSummarize && r.summaryModel == Some("gpt-4o-mini") && r.summaryPrompt.None?
  {
    match stored
    case Some(s) => s
    case None => Settings("", "", Some("ja"), true, Some("gpt-4o-mini"), None)
  }

  /** `createTranscript` with the generated id and time stamp given: every
      falsy input is replaced by its default. */
  function CreateTranscript(id: string, timestamp: string, data: TranscriptInput): (r: Transcript)
    ensures r.id == id && r.timestamp == timestamp && r.status.None?
    ensures r.title != "" && r.platform != ""
    ensures data.title.Some? && data.title.value != "" ==> r.title == data.title.value
    ensures data.title.None? || data.title.value == "" ==> r.title == "無題"
    ensures data.platform.Some? && data.platform.value != "" ==> r.platform == data.platform.value
    ensures data.platform.None? || data.platform.value == "" ==> r.platform == "unknown"
    ensures data.transcript.Some? ==> r.transcript == data.transcript.value
    ensures data.transcript.None? ==> r.transcript == ""
    ensures r.summary.None? <==> data.summary.None? || data.summary.value == ""
    ensures r.summary.Some? ==> r.summary == data.summary
    ensures data.duration.Some? ==> r.duration == data.duration.value
    ensures data.duration.None? ==> r.duration == 0
    ensures data.audioSize.Some? ==> r.audioSize == data.audioSize.value
    ensures data.audioSize.None? ==> r.audioSize == 0
  {
    Transcript(
      id, timestamp,
      OrString(data.title, "無題"),
      OrZero(data.duration),
      OrString(data.transcript, ""),
      if data.summary.Some? && data.summary.value != "" then data.summary else None,
      OrZero(data.audioSize),
      OrString(data.platform, "unknown"),
      None)
  }

  /** `findIndex` by id: the first position holding `id`, or -1. Kept apart
      from the job queue's own search because each module owns its record
      type and its lookup, as the two source files do. */
  function FindIndex(ts: seq<Transcript>, id: string): (k: int)
    ensures -1 <= k < |ts|
    ensures k == -1 <==> forall i :: 0 <= i < |ts| ==> ts[i].id != id
    ensures k >= 0 ==> ts[k].id == id && forall i :: 0 <= i < k ==> ts[i].id != id
  {
    if ts == [] then -1
    else if ts[0].id == id then 0
    else
      var k := FindIndex(ts[1..], id);
      if k == -1 then -1 else k + 1
  }

  /** Replacing a record by one with the same id leaves every lookup by id
      where it was. */
  lemma FindIndexReplace(ts: seq<Transcript>, k: int, x: Transcript, id: string)
    requires 0 <= k < |ts| && x.id == ts[k].id
    ensures FindIndex(ts[k := x], id) == FindIndex(ts, id)
  {
    var r := ts[k := x];
    assert forall i :: 0 <= i < |ts| ==> r[i].id == ts[i].id;
    var a := FindIndex(r, id);
    var b := FindIndex(ts, id);
    if a != -1 && b != -1 {
      assert !(a < b) && !(b < a);
    }
  }

  /** `getTranscript`: the first record with the id, or null. */
  function GetTranscript(ts: seq<Transcript>, id: string): (r: Option<Transcript>)
    ensures r.None? <==> forall i :: 0 <= i < |ts| ==> ts[i].id != id
    ensures r.Some? ==>
              r.value.id == id &&
              exists k :: 0 <= k < |ts| && ts[k] == r.value && forall i :: 0 <= i < k ==> ts[i].id != id
  {
    var k := FindIndex(ts, id);
    if k == -1 then None else Some(ts[k])
  }

  /** The object spread `{ ...t, ...updates }`: every field the updates carry
      wins, every other field keeps its value. */
  function MergePatch(t: Transcript, p: TranscriptPatch): (r: Transcript)
    ensures r.id == t.id && r.timestamp == t.timestamp && r.title == t.title
    ensures r.duration == t.duration && r.audioSize == t.audioSize && r.platform == t.platform
    ensures r.transcript == p.transcript.GetOr(t.transcript)
    ensures r.summary == (if p.summary.Some? then p.summary else t.summary)
    ensures r.status == (if p.status.Some? then p.status else t.status)
  {
    t.(transcript := p.transcript.GetOr(t.transcript),
       summary := if p.summary.Some? then p.summary else t.summary,
       status := if p.status.Some? then p.status else t.status)
  }

  /** `unshift` followed by `splice(20)`: the new record first, the oldest
      dropped once the list is over the cap. */
  function Prepend(ts: seq<Transcript>, t: Transcript): (r: seq<Transcript>)
    ensures |r| == if |ts| < MaxTranscripts then |ts| + 1 else MaxTranscripts
    ensures r[0] == t && r[1..] == ts[..|r| - 1]
  {
    var all := [t] + ts;
    assert all[1..] == ts;
    if |all| > MaxTranscripts then all[..MaxTranscripts] else all
  }

  /** The filter of `deleteTranscript`: every record without the id, in order. */
  function WithoutTranscript(ts: seq<Transcript>, id: string): (r: seq<Transcript>)
    ensures |r| <= |ts|
    ensures forall t :: t in r <==> t in ts && t.id != id
  {
    if ts == [] then []
    else (if ts[0].id == id then [] else [ts[0]]) + WithoutTranscript(ts[1..], id)
  }

  /** A saved record is what a lookup of its id finds next, whether or not
      another record already had that id. */
  lemma SaveThenGet(ts: seq<Transcript>, t: Transcript)
    ensures GetTranscript(Prepend(ts, t), t.id) == Some(t)
  {
    assert FindIndex(Prepend(ts, t), t.id) == 0;
  }

  /** The filter is a no-op when no record has the id. */
  lemma {:induction false} DeleteAbsent(ts: seq<Transcript>, id: string)
    requires forall i :: 0 <= i < |ts| ==> ts[i].id != id
    ensures WithoutTranscript(ts, id) == ts
  {
    if ts != [] {
      DeleteAbsent(ts[1..], id);
    }
  }

  /** After a delete the id is gone. */
  lemma DeleteRemovesId(ts: seq<Transcript>, id: string)
    ensures GetTranscript(WithoutTranscript(ts, id), id).None?
  {
    var r := WithoutTranscript(ts, id);
    forall i | 0 <= i < |r| ensures r[i].id != id {
      assert r[i] in r;
    }
  }

  /** A lookup looks at the first record, then at the rest. */
  lemma GetTranscriptCons(ts: seq<Transcript>, id: string)
    requires ts != []
    ensures GetTranscript(ts, id) == if ts[0].id == id then Some(ts[0]) else GetTranscript(ts[1..], id)
  {
  }

  /** After a delete, a lookup of any other id finds what it found before. */
  lemma {:induction false} DeleteKeepsOthers(ts: seq<Transcript>, id: string, other: string)
    requires other != id
    ensures GetTranscript(WithoutTranscript(ts, id), other) == GetTranscript(ts, other)
  {
    if ts != [] {
      DeleteKeepsOthers(ts[1..], id, other);
      GetTranscriptCons(ts, other);
      var rest := WithoutTranscript(ts[1..], id);
      var r := WithoutTranscript(ts, id);
      if ts[0].id != id {
        assert r == [ts[0]] + rest;
        assert r[1..] == rest;
        GetTranscriptCons(r, other);
      } else {
        assert r == rest;
      }
    }
  }

  /** A successful update replaces the first record with the id by the
      merge; the list keeps its length and every other position. */
  lemma UpdateThenGet(ts: seq<Transcript>, id: string, p: TranscriptPatch)
    requires FindIndex(ts, id) >= 0
    ensures var k := FindIndex(ts, id);
      var r := ts[k := MergePatch(ts[k], p)];
      |r| == |ts| && GetTranscript(r, id) == Some(MergePatch(ts[k], p)) &&
      forall i :: 0 <= i < |ts| && i != k ==> r[i] == ts[i]
  {
    var k := FindIndex(ts, id);
    var r := ts[k := MergePatch(ts[k], p)];
    assert FindIndex(r, id) == k by {
      assert r[k].id == id;
      assert forall i :: 0 <= i < k ==> r[i] == ts[i];
    }
  }

  class TranscriptStore {
    var transcripts: seq<Transcript>

    /** The history never holds more than the cap. */
    ghost predicate Valid()
      reads this
    {
      |transcripts| <= MaxTranscripts
    }

    /** Nothing stored yet: `loadTranscripts` reads `[]`. */
    constructor()
      ensures Valid() && transcripts == []
    {
      transcripts := [];
    }

    /** `loadTranscripts`: the stored records, newest first. */
    method LoadTranscripts() returns (r: seq<Transcript>)
      ensures r == transcripts
    {
      r := transcripts;
    }

    /** `saveTranscript`: puts the record first and keeps the newest twenty;
        no duplicate-id check. */
    method SaveTranscript(t: Transcript)
      requires Valid()
      modifies this
      ensures Valid()
      ensures transcripts == Prepend(old(transcripts), t)
    {
      var all := [t] + transcripts;
      if |all| > MaxTranscripts {
        all := all[..MaxTranscripts];
      }
      transcripts := all;
    }

    /** `updateTranscript`: fails without writing when no record has the id;
        otherwise merges the updates into the first record with it. */
    method UpdateTranscript(id: string, p: TranscriptPatch) returns (r: Outcome<string>)
      requires Valid()
      modifies this
      ensures Valid()
      ensures FindIndex(old(transcripts), id) == -1 ==>
        r == Fail(NotFoundMessage) && transcripts == old(transcripts)
      ensures FindIndex(old(transcripts), id) >= 0 ==>
        var k := FindIndex(old(transcripts), id);
        r == Pass && transcripts == old(transcripts)[k := MergePatch(old(transcripts)[k], p)]
    {
      var k := FindIndex(transcripts, id);
      if k == -1 {
        return Fail(NotFoundMessage);
      }
      transcripts := transcripts[k := MergePatch(transcripts[k], p)];
      r := Pass;
    }

    /** `deleteTranscript`: keeps every record without the id. */
    method DeleteTranscript(id: string)
      requires Valid()
      modifies this
      ensures Valid()
      ensures transcripts == WithoutTranscript(old(transcripts), id)
    {
      transcripts := WithoutTranscript(transcripts, id);
    }
  }
}
