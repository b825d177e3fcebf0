/** The recorded audio kept for download (`AudioStorage` in
    lib/audio-storage.js). The IndexedDB object store, keyed by `id`, is the
    map field `records`; the cached `this.db` handle is the flag `isOpen`.
    Dates are millisecond counts and the clock is a parameter. */
module Recordings {
  import opened Wrappers
  import opened Blobs
  import Sorting
  import OpenAI
  import Strings

  const DefaultRetentionHours: int := 24
  const DefaultMaxCount: int := 20
  const HourMs: int := 3600000

  /** The `metadata` argument of `saveAudio`, limited to the two keys the
      record reads; `None` is a key the object does not carry. */
  datatype AudioMetadata = AudioMetadata(duration: Option<int>, retentionHours: Option<int>)

  /** One stored recording. `size` and `expiresAt` are optional because
      `getStorageUsage` and `cleanupExpiredAudios` read them as such. */
  datatype AudioRecord = AudioRecord(
    id: string,
    transcriptId: string,
    audioBlob: Blob,
    timestamp: int,
    size: Option<nat>,
    mimeType: string,
    duration: int,
    expiresAt: Option<int>,
    retentionHours: Option<int>)

  function Timestamp(r: AudioRecord): int {
    r.timestamp
  }

  /** `calculateExpiryDate`: `retentionHours` hours from `now`, or 24 when
      the argument is missing or 0. */
  function ExpiryDate(retentionHours: Option<int>, now: int): (t: int)
    ensures retentionHours.None? || retentionHours.value == 0 ==> t == now + DefaultRetentionHours * HourMs
    ensures retentionHours.Some? && retentionHours.value != 0 ==> t == now + retentionHours.value * HourMs
  {
    var hours := if retentionHours.Some? && retentionHours.value != 0 then retentionHours.value else DefaultRetentionHours;
    now + hours * HourMs
  }

  /** The record `saveAudio` puts: keyed and indexed by the transcript id,
      with the blob's size and type, and the metadata's duration (0 when
      missing) and retention. */
  function NewRecord(transcriptId: string, blob: Blob, metadata: AudioMetadata, now: int): (r: AudioRecord)
    ensures r.id == transcriptId && r.transcriptId == transcriptId && r.audioBlob == blob
    ensures r.timestamp == now && r.size == Some(blob.size) && r.mimeType == blob.mimeType
    ensures r.duration == metadata.duration.GetOr(0)
    ensures r.expiresAt == Some(ExpiryDate(metadata.retentionHours, now))
  {
    AudioRecord(transcriptId, transcriptId, blob, now, Some(blob.size), blob.mimeType,
                metadata.duration.GetOr(0), Some(ExpiryDate(metadata.retentionHours, now)),
                metadata.retentionHours)
  }

  /** The test of `cleanupExpiredAudios`: an expiry date strictly before now. */
  predicate Expired(r: AudioRecord, now: int): (b: bool)
    ensures r.expiresAt.None? ==> !b
  {
    r.expiresAt.Some? && r.expiresAt.value < now
  }

  /** The keys of the records that are expired at `now`. */
  function ExpiredIds(m: map<string, AudioRecord>, now: int): (ids: set<string>)
    ensures ids <= m.Keys
    ensures forall k :: k in ids <==> k in m && Expired(m[k], now)
  {
    set k | k in m && Expired(m[k], now)
  }

  /** A saved recording with a positive retention expires exactly once the
      clock passes its expiry date, and never at the moment it is saved. */
  lemma SavedRecordExpiry(transcriptId: string, blob: Blob, metadata: AudioMetadata, now: int, later: int)
    requires metadata.retentionHours.None? || metadata.retentionHours.value >= 0
    ensures !Expired(NewRecord(transcriptId, blob, metadata, now), now)
    ensures Expired(NewRecord(transcriptId, blob, metadata, now), later) <==> later > ExpiryDate(metadata.retentionHours, now)
  {
  }

  /** Once expired, always expired. */
  lemma ExpiredStaysExpired(r: AudioRecord, now: int, later: int)
    requires Expired(r, now) && now <= later
    ensures Expired(r, later)
  {
  }

  /** After the expired records are deleted, none is left at that time. */
  lemma CleanupExpiredLeavesNone(m: map<string, AudioRecord>, now: int)
    ensures ExpiredIds(m - ExpiredIds(m, now), now) == {}
  {
    var r := m - ExpiredIds(m, now);
    forall k | k in r ensures !Expired(r[k], now) {
      assert r[k] == m[k];
    }
  }

  // ---------------------------------------------------------------------------
  // Listings of the store

  /** Every key is the `id` and the `transcriptId` of its record, as the
      store's key path and `saveAudio` make it. */
  ghost predicate Keyed(m: map<string, AudioRecord>) {
    forall k :: k in m ==> m[k].id == k && m[k].transcriptId == k
  }

  ghost predicate DistinctIds(s: seq<AudioRecord>) {
    forall i, j :: 0 <= i < j < |s| ==> s[i].id != s[j].id
  }

  function Ids(s: seq<AudioRecord>): set<string> {
    set i | 0 <= i < |s| :: s[i].id
  }

  /** `s` lists every record of `m` once, in some order. */
  ghost predicate Enumerates(s: seq<AudioRecord>, m: map<string, AudioRecord>) {
    |s| == |m| && DistinctIds(s) &&
    (forall i :: 0 <= i < |s| ==> s[i].id in m && m[s[i].id] == s[i]) &&
    Ids(s) == m.Keys
  }

  lemma IdsSnoc(s: seq<AudioRecord>, x: AudioRecord)
    ensures Ids(s + [x]) == Ids(s) + {x.id}
  {
    var t := s + [x];
    assert t[|s|] == x;
    forall k | k in Ids(s) ensures k in Ids(t) {
      var i :| 0 <= i < |s| && s[i].id == k;
      assert t[i] == s[i];
    }
  }

  lemma {:induction false} DistinctIdsCard(s: seq<AudioRecord>)
    requires DistinctIds(s)
    ensures |Ids(s)| == |s|
    decreases |s|
  {
    if s != [] {
      var init := s[..|s| - 1];
      assert s == init + [s[|s| - 1]];
      DistinctIdsCard(init);
      IdsSnoc(init, s[|s| - 1]);
      assert s[|s| - 1].id !in Ids(init);
    }
  }

  /** Two positions of a sequence holding `x`, when its multiset counts `x`
      at least twice. */
  lemma {:induction false} TwoCopies(s: seq<AudioRecord>, x: AudioRecord) returns (i: nat, j: nat)
    requires multiset(s)[x] >= 2
    ensures i < j < |s| && s[i] == x && s[j] == x
    decreases |s|
  {
    assert s == [s[0]] + s[1..];
    if s[0] == x {
      assert x in multiset(s[1..]);
      var j' :| 0 <= j' < |s[1..]| && s[1..][j'] == x;
      i, j := 0, j' + 1;
    } else {
      var i', j' := TwoCopies(s[1..], x);
      i, j := i' + 1, j' + 1;
    }
  }

  /** Two equal positions count twice in the multiset. */
  lemma CountsTwice(t: seq<AudioRecord>, i: nat, j: nat)
    requires i < j < |t| && t[i] == t[j]
    ensures multiset(t)[t[i]] >= 2
  {
    assert t == t[..j] + t[j..];
    assert t[..j][i] == t[i];
    assert t[j..][0] == t[i];
    assert multiset(t) == multiset(t[..j]) + multiset(t[j..]);
  }

  /** A reordering of a sequence with distinct ids has distinct ids. */
  lemma PermutedDistinct(s: seq<AudioRecord>, t: seq<AudioRecord>, m: map<string, AudioRecord>)
    requires DistinctIds(s) && multiset(s) == multiset(t)
    requires forall i :: 0 <= i < |t| ==> t[i].id in m && m[t[i].id] == t[i]
    ensures DistinctIds(t)
  {
    forall i, j | 0 <= i < j < |t| ensures t[i].id != t[j].id {
      if t[i].id == t[j].id {
        CountsTwice(t, i, j);
        var a, b := TwoCopies(s, t[i]);
        assert false;
      }
    }
  }

  /** A reordering of a listing is a listing. */
  lemma PermutedEnumeration(s: seq<AudioRecord>, t: seq<AudioRecord>, m: map<string, AudioRecord>)
    requires Enumerates(s, m) && multiset(s) == multiset(t)
    ensures Enumerates(t, m)
  {
    assert |t| == |multiset(t)| == |s|;
    forall i | 0 <= i < |t| ensures t[i].id in m && m[t[i].id] == t[i] {
      assert t[i] in multiset(s);
    }
    PermutedDistinct(s, t, m);
    forall k | k in m.Keys ensures k in Ids(t) {
      var i :| 0 <= i < |s| && s[i].id == k;
      assert s[i] in multiset(t);
    }
  }

  lemma ListedAll(s: seq<AudioRecord>, m: map<string, AudioRecord>)
    requires Keyed(m) && Listed(s, {}, m)
    ensures Enumerates(s, m)
    ensures forall i :: 0 <= i < |s| ==> s[i].transcriptId == s[i].id
  {
  }

  /** The listing sorted oldest first, as `cleanupOldAudios` sorts it. */
  lemma SortedListing(s: seq<AudioRecord>, m: map<string, AudioRecord>)
    requires Enumerates(s, m)
    ensures Enumerates(Sorting.InsertionSort(s, Timestamp), m)
    ensures Sorting.SortedBy(Sorting.InsertionSort(s, Timestamp), Timestamp)
    ensures Keyed(m) ==> forall i :: 0 <= i < |s| ==> Sorting.InsertionSort(s, Timestamp)[i].transcriptId == Sorting.InsertionSort(s, Timestamp)[i].id
  {
    Sorting.InsertionSortSorted(s, Timestamp);
    Sorting.InsertionSortPermutes(s, Timestamp);
    PermutedEnumeration(s, Sorting.InsertionSort(s, Timestamp), m);
  }

  /** The ids of a prefix of a listing are that many keys of the map. */
  lemma PrefixIds(sorted: seq<AudioRecord>, m: map<string, AudioRecord>, cut: nat)
    requires Enumerates(sorted, m) && cut <= |sorted|
    ensures Ids(sorted[..cut]) <= m.Keys && |Ids(sorted[..cut])| == cut
  {
    assert DistinctIds(sorted[..cut]);
    DistinctIdsCard(sorted[..cut]);
  }

  /** A deleted record of a sorted listing is no newer than a kept one. */
  lemma PrefixOlder(sorted: seq<AudioRecord>, m: map<string, AudioRecord>, cut: nat, d: string, k: string)
    requires Enumerates(sorted, m) && Sorting.SortedBy(sorted, Timestamp) && cut <= |sorted|
    requires d in Ids(sorted[..cut]) && k in m && k !in Ids(sorted[..cut])
    ensures m[d].timestamp <= m[k].timestamp
  {
    var i :| 0 <= i < cut && sorted[..cut][i].id == d;
    var j :| 0 <= j < |sorted| && sorted[j].id == k;
    if j < cut {
      assert false;
    }
    assert Timestamp(sorted[i]) <= Timestamp(sorted[j]);
  }

  /** Deleting the first `cut` records of a listing sorted by time keeps the
      newest: the map shrinks by `cut`, and every deleted record is no newer
      than any kept one. */
  lemma RemoveOldest(m: map<string, AudioRecord>, sorted: seq<AudioRecord>, cut: nat)
    requires Enumerates(sorted, m) && Sorting.SortedBy(sorted, Timestamp) && cut <= |sorted|
    ensures var r := m - Ids(sorted[..cut]);
      |r| == |m| - cut && r.Keys <= m.Keys &&
      forall d, k :: d in m && d !in r && k in r ==> m[d].timestamp <= m[k].timestamp
  {
    var gone := Ids(sorted[..cut]);
    var r := m - gone;
    PrefixIds(sorted, m, cut);
    assert r.Keys == m.Keys - gone;
    forall d, k | d in m && d !in r && k in r ensures m[d].timestamp <= m[k].timestamp {
      PrefixOlder(sorted, m, cut, d, k);
    }
  }

  /** `after` is `before` less `count` of its oldest records, the others
      untouched. */
  ghost predicate KeepsNewest(before: map<string, AudioRecord>, after: map<string, AudioRecord>, count: nat) {
    |after| == |before| - count && after.Keys <= before.Keys &&
    (forall k :: k in after ==> after[k] == before[k]) &&
    forall d, k :: d in before && d !in after && k in after ==> before[d].timestamp <= before[k].timestamp
  }

  /** What the deletes of `cleanupOldAudios` leave: the oldest `cut` records
      gone, each deleted by the key it is stored under. */
  lemma OldestCut(m: map<string, AudioRecord>, listing: seq<AudioRecord>, cut: nat)
    requires Keyed(m) && Enumerates(listing, m) && cut <= |listing|
    ensures var toDelete := Sorting.InsertionSort(listing, Timestamp)[..cut];
      (forall i :: 0 <= i < |toDelete| ==> toDelete[i].transcriptId == toDelete[i].id) &&
      KeepsNewest(m, m - Ids(toDelete), cut)
  {
    var sorted := Sorting.InsertionSort(listing, Timestamp);
    SortedListing(listing, m);
    RemoveOldest(m, sorted, cut);
  }

  /** The ids of the expired records of a listing, in listing order. */
  function ExpiredIn(s: seq<AudioRecord>, now: int): set<string> {
    if s == [] then {}
    else ExpiredIn(s[..|s| - 1], now) + (if Expired(s[|s| - 1], now) then {s[|s| - 1].id} else {})
  }

  lemma ExpiredInSnoc(s: seq<AudioRecord>, x: AudioRecord, now: int)
    ensures ExpiredIn(s + [x], now) == ExpiredIn(s, now) + (if Expired(x, now) then {x.id} else {})
  {
    assert (s + [x])[..|s|] == s;
  }

  lemma {:induction false} ExpiredInIds(s: seq<AudioRecord>, now: int)
    ensures forall k :: k in ExpiredIn(s, now) ==> exists i :: 0 <= i < |s| && s[i].id == k && Expired(s[i], now)
    ensures forall i :: 0 <= i < |s| && Expired(s[i], now) ==> s[i].id in ExpiredIn(s, now)
    decreases |s|
  {
    if s != [] {
      var init := s[..|s| - 1];
      ExpiredInIds(init, now);
      forall k | k in ExpiredIn(s, now) ensures exists i :: 0 <= i < |s| && s[i].id == k && Expired(s[i], now) {
        if k in ExpiredIn(init, now) {
          var i :| 0 <= i < |init| && init[i].id == k && Expired(init[i], now);
          assert s[i] == init[i];
        }
      }
      forall i | 0 <= i < |s| && Expired(s[i], now) ensures s[i].id in ExpiredIn(s, now) {
        if i < |init| {
          assert s[i] == init[i];
        }
      }
    }
  }

  /** The expired ids of a listing are the expired keys of the map. */
  lemma ExpiredInListing(s: seq<AudioRecord>, m: map<string, AudioRecord>, now: int)
    requires Enumerates(s, m)
    ensures ExpiredIn(s, now) == ExpiredIds(m, now)
  {
    ExpiredInIds(s, now);
    forall k | k in ExpiredIds(m, now) ensures k in ExpiredIn(s, now) {
      assert k in Ids(s);
      var i :| 0 <= i < |s| && s[i].id == k;
    }
  }

  /** The next record of a listing has an id not seen before. */
  lemma FreshId(s: seq<AudioRecord>, i: nat, now: int)
    requires DistinctIds(s) && i < |s|
    ensures s[i].id !in ExpiredIn(s[..i], now)
  {
    ExpiredInIds(s[..i], now);
  }

  /** `audio.size || 0`. */
  function SizeOrZero(r: AudioRecord): nat {
    if r.size.Some? then r.size.value else 0
  }

  /** The `reduce` of `getStorageUsage`. */
  function TotalSize(s: seq<AudioRecord>): (total: nat)
    ensures forall i :: 0 <= i < |s| ==> SizeOrZero(s[i]) <= total
    ensures (forall i :: 0 <= i < |s| ==> s[i].size.None?) ==> total == 0
  {
    if s == [] then 0 else TotalSize(s[..|s| - 1]) + SizeOrZero(s[|s| - 1])
  }

  /** The total does not depend on the order the records are listed in. */
  lemma {:induction false} TotalSizeOrderFree(s: seq<AudioRecord>, t: seq<AudioRecord>)
    requires multiset(s) == multiset(t)
    ensures TotalSize(s) == TotalSize(t)
    decreases |s|
  {
    if s != [] {
      var x := s[|s| - 1];
      assert x in multiset(t);
      var j :| 0 <= j < |t| && t[j] == x;
      var t' := t[..j] + t[j + 1..];
      assert t == t[..j] + [x] + t[j + 1..];
      assert multiset(t) == multiset(t[..j]) + multiset{x} + multiset(t[j + 1..]);
      assert s == s[..|s| - 1] + [x];
      assert multiset(s) == multiset(s[..|s| - 1]) + multiset{x};
      assert multiset(t') == multiset(t[..j]) + multiset(t[j + 1..]);
      assert multiset(t') == multiset(t) - multiset{x};
      assert multiset(s[..|s| - 1]) == multiset(s) - multiset{x};
      TotalSizeOrderFree(s[..|s| - 1], t');
      TotalSizeRemove(t, j);
    }
  }

  lemma {:induction false} TotalSizeRemove(t: seq<AudioRecord>, j: nat)
    requires j < |t|
    ensures TotalSize(t) == TotalSize(t[..j] + t[j + 1..]) + SizeOrZero(t[j])
    decreases |t|
  {
    if j < |t| - 1 {
      var init := t[..|t| - 1];
      TotalSizeRemove(init, j);
      assert init[..j] + init[j + 1..] + [t[|t| - 1]] == t[..j] + t[j + 1..];
      assert (t[..j] + t[j + 1..])[..|t| - 2] == init[..j] + init[j + 1..];
    } else {
      assert t[..j] + t[j + 1..] == t[..|t| - 1];
    }
  }

  /** One element of the `audios` list of `getStorageUsage`. */
  datatype UsageEntry = UsageEntry(id: string, size: Option<nat>, sizeMB: string, timestamp: int, expiresAt: Option<int>)

  /** What `getStorageUsage` reports. */
  datatype Usage = Usage(count: nat, totalSize: nat, totalSizeMB: string, audios: seq<UsageEntry>)

  /** `(audio.size / 1024 / 1024).toFixed(2)`, which reads "NaN" when the
      size is missing. */
  function SizeText(size: Option<nat>): (t: string)
    ensures size.None? <==> t == "NaN"
    ensures size.Some? ==>
      |t| >= 4 && t[|t| - 3] == '.' && Strings.AllDigits(t[..|t| - 3]) && Strings.AllDigits(t[|t| - 2..]) &&
      Strings.DigitsValue(t[..|t| - 3]) * 100 + Strings.DigitsValue(t[|t| - 2..]) == OpenAI.CentiMegabytes(size.value)
  {
    if size.Some? then
      var m := OpenAI.Megabytes(size.value);
      assert |m| != |"NaN"|;
      m
    else "NaN"
  }

  function Entry(r: AudioRecord): (e: UsageEntry)
    ensures e.id == r.transcriptId && e.size == r.size && e.timestamp == r.timestamp && e.expiresAt == r.expiresAt
  {
    UsageEntry(r.transcriptId, r.size, SizeText(r.size), r.timestamp, r.expiresAt)
  }

  function Entries(s: seq<AudioRecord>): (es: seq<UsageEntry>)
    ensures |es| == |s| && forall i :: 0 <= i < |s| ==> es[i] == Entry(s[i])
  {
    seq(|s|, i requires 0 <= i < |s| => Entry(s[i]))
  }

  /** The state of the `getAll` cursor: `s` lists the records of the keys
      already visited, `keys` are the ones left. */
  ghost predicate Listed(s: seq<AudioRecord>, keys: set<string>, m: map<string, AudioRecord>) {
    keys <= m.Keys && Ids(s) + keys == m.Keys && Ids(s) !! keys &&
    |s| + |keys| == |m| && DistinctIds(s) &&
    forall i :: 0 <= i < |s| ==> s[i].id in m && m[s[i].id] == s[i]
  }

  lemma DistinctSnoc(s: seq<AudioRecord>, r: AudioRecord)
    requires DistinctIds(s) && forall i :: 0 <= i < |s| ==> s[i].id != r.id
    ensures DistinctIds(s + [r])
  {
    var t := s + [r];
    forall i, j | 0 <= i < j < |t| ensures t[i].id != t[j].id {
      assert t[i] == s[i];
      if j < |s| {
        assert t[j] == s[j];
      }
    }
  }

  lemma ListStep(s: seq<AudioRecord>, keys: set<string>, m: map<string, AudioRecord>, k: string)
    requires Keyed(m) && Listed(s, keys, m) && k in keys
    ensures Listed(s + [m[k]], keys - {k}, m)
  {
    var r := m[k];
    var t := s + [r];
    assert Ids(t) == Ids(s) + {k} by {
      IdsSnoc(s, r);
    }
    forall i | 0 <= i < |s| ensures s[i].id != r.id {
      assert s[i].id in Ids(s);
    }
    DistinctSnoc(s, r);
    var rest := keys - {k};
    assert |rest| == |keys| - 1;
    assert Ids(s) + {k} + rest == Ids(s) + keys;
    assert (Ids(s) + {k}) !! rest;
    assert forall i :: 0 <= i < |t| ==> t[i].id in m && m[t[i].id] == t[i] by {
      forall i | 0 <= i < |t| ensures t[i].id in m && m[t[i].id] == t[i] {
        if i < |s| {
          assert t[i] == s[i];
        }
      }
    }
  }

  lemma RemoveOneMore(m: map<string, AudioRecord>, gone: set<string>, k: string)
    requires k !in gone
    ensures (m - gone) - {k} == m - (gone + {k}) && |gone + {k}| == |gone| + 1
  {
  }

  /** The cursor of `getAll`: takes the keys one at a time, in an order the
      model leaves open. */
  method ListRecords(m: map<string, AudioRecord>) returns (s: seq<AudioRecord>)
    requires Keyed(m)
    ensures Enumerates(s, m)
    ensures forall i :: 0 <= i < |s| ==> s[i].transcriptId == s[i].id
  {
    var keys := m.Keys;
    s := [];
    while keys != {}
      invariant Listed(s, keys, m)
      decreases |keys|
    {
      var k :| k in keys;
      ListStep(s, keys, m, k);
      s := s + [m[k]];
      keys := keys - {k};
    }
    ListedAll(s, m);
  }

  /** The `sort` of `cleanupOldAudios`, on a copy of the listing. */
  method SortByTimestamp(audios: seq<AudioRecord>) returns (sorted: seq<AudioRecord>)
    ensures sorted == Sorting.InsertionSort(audios, Timestamp)
  {
    var a := new AudioRecord[|audios|](i requires 0 <= i < |audios| => audios[i]);
    assert a[..] == audios;
    Sorting.SortByKey(a, Timestamp);
    sorted := a[..];
  }

  // ---------------------------------------------------------------------------
  // The store

  class AudioStorage {
    /** The object store: recordings by id. */
    var records: map<string, AudioRecord>
    /** Whether `this.db` holds an open handle. */
    var isOpen: bool
    /** How many times `indexedDB.open` was called. */
    var opens: nat

    ghost predicate Valid()
      reads this
    {
      Keyed(records)
    }

    /** A new instance over whatever the browser already stores. */
    constructor(stored: map<string, AudioRecord>)
      requires Keyed(stored)
      ensures Valid() && records == stored && !isOpen && opens == 0
    {
      records := stored;
      isOpen := false;
      opens := 0;
    }

    /** `init`: opens the database once and reuses the handle afterwards. */
    method Init()
      modifies this
      ensures isOpen && records == old(records)
      ensures opens == if old(isOpen) then old(opens) else old(opens) + 1
    {
      if isOpen {
        return;
      }
      opens := opens + 1;
      isOpen := true;
    }

    /** `close`: drops the handle, so that the next `init` opens again. */
    method Close()
      modifies this
      ensures !isOpen && records == old(records) && opens == old(opens)
    {
      isOpen := false;
    }

    /** `saveAudio`: `put` semantics, replacing any record with that id. */
    method SaveAudio(transcriptId: string, blob: Blob, metadata: AudioMetadata, now: int)
      requires Valid()
      modifies this
      ensures Valid() && isOpen
      ensures records == old(records)[transcriptId := NewRecord(transcriptId, blob, metadata, now)]
    {
      Init();
      records := records[transcriptId := NewRecord(transcriptId, blob, metadata, now)];
    }

    /** `getAudio`: the record with that id, or null. */
    method GetAudio(transcriptId: string) returns (r: Option<AudioRecord>)
      modifies this
      ensures isOpen && records == old(records)
      ensures transcriptId in records ==> r == Some(records[transcriptId])
      ensures transcriptId !in records ==> r.None?
    {
      Init();
      if transcriptId in records {
        r := Some(records[transcriptId]);
      } else {
        r := None;
      }
    }

    /** `deleteAudio`: removes that key and nothing else. */
    method DeleteAudio(transcriptId: string)
      requires Valid()
      modifies this
      ensures Valid() && isOpen
      ensures records == old(records) - {transcriptId}
    {
      Init();
      records := records - {transcriptId};
    }

    /** `clearAll`. */
    method ClearAll()
      modifies this
      ensures Valid() && isOpen && records == map[]
    {
      Init();
      records := map[];
    }

    /** `getAllAudios`: every record once, in the order the store lists them
        (not modelled: any order is allowed). */
    method GetAllAudios() returns (audios: seq<AudioRecord>)
      requires Valid()
      modifies this
      ensures Valid() && isOpen && records == old(records)
      ensures Enumerates(audios, records)
      ensures forall i :: 0 <= i < |audios| ==> audios[i].transcriptId == audios[i].id
    {
      Init();
      audios := ListRecords(records);
    }

    /** `cleanupExpiredAudios`: deletes exactly the records whose expiry
        date is strictly before `now` and returns how many there were. */
    method CleanupExpiredAudios(now: int) returns (deletedCount: nat)
      requires Valid()
      modifies this
      ensures Valid() && isOpen
      ensures records == old(records) - ExpiredIds(old(records), now)
      ensures deletedCount == |ExpiredIds(old(records), now)|
    {
      var audios := GetAllAudios();
      ExpiredInListing(audios, records, now);
      deletedCount := DeleteExpired(audios, now);
    }

    /** The loop of `cleanupExpiredAudios`: deletes each listed record that
        is expired, counting them. */
    method DeleteExpired(audios: seq<AudioRecord>, now: int) returns (deletedCount: nat)
      requires Valid() && isOpen && DistinctIds(audios)
      requires forall i :: 0 <= i < |audios| ==> audios[i].transcriptId == audios[i].id
      modifies this
      ensures Valid() && isOpen
      ensures records == old(records) - ExpiredIn(audios, now)
      ensures deletedCount == |ExpiredIn(audios, now)|
    {
      deletedCount := 0;
      for i := 0 to |audios|
        invariant Valid() && isOpen
        invariant records == old(records) - ExpiredIn(audios[..i], now)
        invariant deletedCount == |ExpiredIn(audios[..i], now)|
      {
        var audio := audios[i];
        assert audios[..i + 1] == audios[..i] + [audio];
        ExpiredInSnoc(audios[..i], audio, now);
        if Expired(audio, now) {
          FreshId(audios, i, now);
          RemoveOneMore(old(records), ExpiredIn(audios[..i], now), audio.id);
          DeleteAudio(audio.transcriptId);
          deletedCount := deletedCount + 1;
        }
      }
      assert audios[..|audios|] == audios;
    }

    /** The delete loop of `cleanupOldAudios`: removes every listed id. */
    method DeleteEach(toDelete: seq<AudioRecord>) returns (deletedCount: nat)
      requires Valid()
      requires forall i :: 0 <= i < |toDelete| ==> toDelete[i].transcriptId == toDelete[i].id
      modifies this
      ensures Valid() && isOpen
      ensures records == old(records) - Ids(toDelete) && deletedCount == |toDelete|
    {
      Init();
      deletedCount := 0;
      for i := 0 to |toDelete|
        invariant Valid() && isOpen
        invariant records == old(records) - Ids(toDelete[..i])
        invariant deletedCount == i
      {
        IdsSnoc(toDelete[..i], toDelete[i]);
        assert toDelete[..i + 1] == toDelete[..i] + [toDelete[i]];
        DeleteAudio(toDelete[i].transcriptId);
        deletedCount := deletedCount + 1;
      }
      assert toDelete[..|toDelete|] == toDelete;
    }

    /** `cleanupOldAudios`: with more than `maxCount` (default 20) records,
        sorts them oldest first and deletes the surplus; otherwise deletes
        nothing. */
    method CleanupOldAudios(maxCount: Option<int>) returns (deletedCount: nat)
      requires Valid()
      modifies this
      ensures Valid() && isOpen
      ensures var max := maxCount.GetOr(DefaultMaxCount);
        |old(records)| <= max ==> deletedCount == 0 && records == old(records)
      ensures var max := maxCount.GetOr(DefaultMaxCount);
        |old(records)| > max ==>
          deletedCount == (if max < 0 then |old(records)| else |old(records)| - max) &&
          KeepsNewest(old(records), records, deletedCount)
    {
      var audios := GetAllAudios();
      ghost var all := records;
      var max := maxCount.GetOr(DefaultMaxCount);
      if |audios| <= max {
        return 0;
      }
      var sorted := SortByTimestamp(audios);
      var cut := |audios| - max;
      if cut > |audios| {
        cut := |audios|;
      }
      OldestCut(all, audios, cut);
      deletedCount := DeleteEach(sorted[..cut]);
    }

    /** `getStorageUsage`: the number of records, the sum of their sizes
        (a missing size counting 0), and one entry per record. */
    method GetStorageUsage() returns (usage: Usage)
      requires Valid()
      modifies this
      ensures Valid() && isOpen && records == old(records)
      ensures usage.count == |records| && |usage.audios| == usage.count
      ensures exists s :: Enumerates(s, records) && usage.audios == Entries(s) && usage.totalSize == TotalSize(s)
      ensures usage.totalSizeMB == OpenAI.Megabytes(usage.totalSize)
    {
      var audios := GetAllAudios();
      var totalSize := TotalSize(audios);
      usage := Usage(|audios|, totalSize, OpenAI.Megabytes(totalSize), Entries(audios));
    }
  }
}
