/** `AudioEncoder` (lib/audio-encoder.js) on integers: the canonical 44-byte
    RIFF/WAVE PCM container that `encodeWAV` writes into a `DataView`, the
    sample-count arithmetic of `splitAudio`, the format dispatch of `encode`
    and the two size helpers. Samples are 16-bit PCM values, already mixed
    down to one channel and quantised. */
module AudioEncoder {
  import opened Wrappers
  import opened Blobs
  import opened Strings
  import OpenAI

  newtype Byte = b: int | 0 <= b < 0x100
  newtype Int16 = x: int | -0x8000 <= x < 0x8000

  const HeaderSize: nat := 44
  const PcmFormat: nat := 1
  const BitDepth: nat := 16
  /** `bitDepth / 8`: the bytes of one sample, and the block alignment. */
  const BytesPerSample: nat := 2
  const Uint16Range: nat := 0x1_0000
  const Uint32Range: nat := 0x1_0000_0000

  // ---------------------------------------------------------------------------
  // Byte layout

  /** What `setUint8` stores for each character code of `writeString`. */
  function Ascii(s: string): (r: seq<Byte>)
    ensures |r| == |s|
  {
    seq(|s|, i requires 0 <= i < |s| => (s[i] as int % 0x100) as Byte)
  }

  /** The low `n` bytes of `v`, least significant first. */
  function LeBytes(v: nat, n: nat): (r: seq<Byte>)
    ensures |r| == n
  {
    if n == 0 then [] else [(v % 0x100) as Byte] + LeBytes(v / 0x100, n - 1)
  }

  /** `setUint16(_, v, true)`: the value modulo 2^16, low byte first. A
      negative `setInt16` value lands here as its two's complement. */
  function Le16(v: int): (r: seq<Byte>)
    ensures |r| == 2
  {
    LeBytes(v % Uint16Range, 2)
  }

  /** `setUint32(_, v, true)`: the value modulo 2^32, low byte first. */
  function Le32(v: int): (r: seq<Byte>)
    ensures |r| == 4
  {
    LeBytes(v % Uint32Range, 4)
  }

  /** The header `encodeWAV` writes for `dataLength` bytes of samples: the
      RIFF chunk, the `fmt ` chunk of a mono 16-bit PCM stream, and the head
      of the `data` chunk. */
  function WavHeader(sampleRate: nat, dataLength: nat): (h: seq<Byte>)
    ensures |h| == HeaderSize
  {
    Ascii("RIFF") + Le32(36 + dataLength) + Ascii("WAVE") +
    Ascii("fmt ") + Le32(16) + Le16(PcmFormat) + Le16(1) + Le32(sampleRate) +
    Le32(sampleRate * BytesPerSample) + Le16(BytesPerSample) + Le16(BitDepth) +
    Ascii("data") + Le32(dataLength)
  }

  /** The sample bytes: each sample as a little-endian 16-bit value. */
  function Pcm(samples: seq<Int16>): (r: seq<Byte>)
    ensures |r| == BytesPerSample * |samples|
  {
    if samples == [] then []
    else Pcm(samples[..|samples| - 1]) + Le16(samples[|samples| - 1] as int)
  }

  lemma PcmSnoc(samples: seq<Int16>, i: nat)
    requires i < |samples|
    ensures Pcm(samples[..i + 1]) == Pcm(samples[..i]) + Le16(samples[i] as int)
  {
    assert samples[..i + 1][..i] == samples[..i];
  }

  /** The whole buffer `encodeWAV` wraps in its Blob. */
  function WavBytes(sampleRate: nat, samples: seq<Int16>): (r: seq<Byte>)
    ensures |r| == HeaderSize + BytesPerSample * |samples|
  {
    WavHeader(sampleRate, BytesPerSample * |samples|) + Pcm(samples)
  }

  // ---------------------------------------------------------------------------
  // Reading the layout back

  function ReadUint16(bs: seq<Byte>, at: nat): (v: nat)
    requires at + 2 <= |bs|
    ensures v < Uint16Range
  {
    bs[at] as nat + 0x100 * bs[at + 1] as nat
  }

  function ReadUint32(bs: seq<Byte>, at: nat): (v: nat)
    requires at + 4 <= |bs|
    ensures v < Uint32Range
  {
    bs[at] as nat + 0x100 * (bs[at + 1] as nat + 0x100 * (bs[at + 2] as nat + 0x100 * bs[at + 3] as nat))
  }

  function ReadInt16(bs: seq<Byte>, at: nat): Int16
    requires at + 2 <= |bs|
  {
    var u := ReadUint16(bs, at);
    (if u >= 0x8000 then u - Uint16Range else u) as Int16
  }

  function DecodePcm(bs: seq<Byte>): (r: seq<Int16>)
    requires |bs| % 2 == 0
    ensures 2 * |r| == |bs|
  {
    if bs == [] then []
    else DecodePcm(bs[..|bs| - 2]) + [ReadInt16(bs, |bs| - 2)]
  }

  /** What a WAV reader takes out of a buffer. */
  datatype Wav = Wav(sampleRate: nat, samples: seq<Int16>)

  /** The two values a header carries besides its constants. */
  datatype HeaderInfo = HeaderInfo(sampleRate: nat, dataLength: nat)

  /** A reader of the single header layout `encodeWAV` produces: every field
      must hold the value that layout gives it. */
  function DecodeHeader(h: seq<Byte>): (r: Option<HeaderInfo>)
    requires |h| == HeaderSize
  {
    if h[..4] != Ascii("RIFF") || ReadUint32(h, 4) != ReadUint32(h, 40) + 36 || h[8..12] != Ascii("WAVE") then None
    else if h[12..16] != Ascii("fmt ") || ReadUint32(h, 16) != 16 || ReadUint16(h, 20) != PcmFormat then None
    else if ReadUint16(h, 22) != 1 || ReadUint32(h, 28) != ReadUint32(h, 24) * BytesPerSample then None
    else if ReadUint16(h, 32) != BytesPerSample || ReadUint16(h, 34) != BitDepth || h[36..40] != Ascii("data") then None
    else Some(HeaderInfo(ReadUint32(h, 24), ReadUint32(h, 40)))
  }

  /** The header, then as many samples as it announces. */
  function DecodeWav(bs: seq<Byte>): (r: Option<Wav>)
    ensures r.Some? ==> |bs| == HeaderSize + BytesPerSample * |r.value.samples|
  {
    if |bs| < HeaderSize then None
    else match DecodeHeader(bs[..HeaderSize])
      case None => None
      case Some(info) =>
        if info.dataLength != |bs| - HeaderSize || info.dataLength % 2 != 0 then None
        else Some(Wav(info.sampleRate, DecodePcm(bs[HeaderSize..])))
  }

  lemma Le16RoundTrip(v: int)
    ensures ReadUint16(Le16(v), 0) == v % Uint16Range
  {
    var w := v % Uint16Range;
    assert LeBytes(w, 2) == [(w % 0x100) as Byte] + LeBytes(w / 0x100, 1);
    assert LeBytes(w / 0x100, 1) == [(w / 0x100 % 0x100) as Byte] + LeBytes(w / 0x100 / 0x100, 0);
  }

  lemma Le32RoundTrip(v: int)
    ensures ReadUint32(Le32(v), 0) == v % Uint32Range
  {
    var w := v % Uint32Range;
    var q1 := w / 0x100;
    var q2 := q1 / 0x100;
    var q3 := q2 / 0x100;
    assert LeBytes(w, 4) == [(w % 0x100) as Byte] + LeBytes(q1, 3);
    assert LeBytes(q1, 3) == [(q1 % 0x100) as Byte] + LeBytes(q2, 2);
    assert LeBytes(q2, 2) == [(q2 % 0x100) as Byte] + LeBytes(q3, 1);
    assert LeBytes(q3, 1) == [(q3 % 0x100) as Byte] + LeBytes(q3 / 0x100, 0);
  }

  /** `setInt16` followed by `getInt16` gives the sample back. */
  lemma Int16RoundTrip(x: Int16)
    ensures ReadInt16(Le16(x as int), 0) == x
  {
    Le16RoundTrip(x as int);
  }

  lemma {:induction false} PcmRoundTrip(samples: seq<Int16>)
    ensures DecodePcm(Pcm(samples)) == samples
  {
    if samples != [] {
      var init := samples[..|samples| - 1];
      var last := samples[|samples| - 1];
      var bs := Pcm(samples);
      assert bs == Pcm(init) + Le16(last as int);
      assert bs[..|bs| - 2] == Pcm(init);
      assert bs[|bs| - 2..] == Le16(last as int);
      assert ReadInt16(bs, |bs| - 2) == ReadInt16(Le16(last as int), 0);
      Int16RoundTrip(last);
      PcmRoundTrip(init);
    }
  }

  /** Reading a header field at its offset reads the bytes written there. */
  lemma ReadUint32At(bs: seq<Byte>, at: nat, v: int)
    requires at + 4 <= |bs| && bs[at..at + 4] == Le32(v)
    ensures ReadUint32(bs, at) == v % Uint32Range
  {
    assert forall k :: 0 <= k < 4 ==> bs[at + k] == Le32(v)[k];
    Le32RoundTrip(v);
  }

  lemma ReadUint16At(bs: seq<Byte>, at: nat, v: int)
    requires at + 2 <= |bs| && bs[at..at + 2] == Le16(v)
    ensures ReadUint16(bs, at) == v % Uint16Range
  {
    assert forall k :: 0 <= k < 2 ==> bs[at + k] == Le16(v)[k];
    Le16RoundTrip(v);
  }

  /** Where each of thirteen consecutive fields of the given widths sits in
      their concatenation. */
  lemma Slices(p1: seq<Byte>, p2: seq<Byte>, p3: seq<Byte>, p4: seq<Byte>, p5: seq<Byte>, p6: seq<Byte>, p7: seq<Byte>,
               p8: seq<Byte>, p9: seq<Byte>, p10: seq<Byte>, p11: seq<Byte>, p12: seq<Byte>, p13: seq<Byte>)
    requires |p1| == |p2| == |p3| == |p4| == |p5| == |p8| == |p9| == |p12| == |p13| == 4
    requires |p6| == |p7| == |p10| == |p11| == 2
    ensures var h := p1 + p2 + p3 + p4 + p5 + p6 + p7 + p8 + p9 + p10 + p11 + p12 + p13;
      h[..4] == p1 && h[4..8] == p2 && h[8..12] == p3 && h[12..16] == p4 && h[16..20] == p5 &&
      h[20..22] == p6 && h[22..24] == p7 && h[24..28] == p8 && h[28..32] == p9 && h[32..34] == p10 &&
      h[34..36] == p11 && h[36..40] == p12 && h[40..44] == p13
  {
  }

  /** `h` holds the header fields of `encodeWAV` at their offsets. */
  ghost predicate Laid(h: seq<Byte>, sampleRate: nat, dataLength: nat)
    requires |h| == HeaderSize
  {
    h[..4] == Ascii("RIFF") && h[8..12] == Ascii("WAVE") && h[12..16] == Ascii("fmt ") &&
    h[36..40] == Ascii("data") && LaidNumbers(h, sampleRate, dataLength)
  }

  /** The numeric fields of `Laid`. */
  ghost predicate LaidNumbers(h: seq<Byte>, sampleRate: nat, dataLength: nat)
    requires |h| == HeaderSize
  {
    h[4..8] == Le32(36 + dataLength) && h[16..20] == Le32(16) && h[20..22] == Le16(PcmFormat) &&
    h[22..24] == Le16(1) && h[24..28] == Le32(sampleRate) && h[28..32] == Le32(sampleRate * BytesPerSample) &&
    h[32..34] == Le16(BytesPerSample) && h[34..36] == Le16(BitDepth) && h[40..44] == Le32(dataLength)
  }

  /** Where each field of the header sits. */
  lemma HeaderFields(sampleRate: nat, dataLength: nat)
    ensures Laid(WavHeader(sampleRate, dataLength), sampleRate, dataLength)
  {
    Slices(Ascii("RIFF"), Le32(36 + dataLength), Ascii("WAVE"), Ascii("fmt "), Le32(16), Le16(PcmFormat), Le16(1),
           Le32(sampleRate), Le32(sampleRate * BytesPerSample), Le16(BytesPerSample), Le16(BitDepth),
           Ascii("data"), Le32(dataLength));
  }

  /** The numbers a reader takes out of the RIFF and format fields. */
  lemma FormatValues(h: seq<Byte>, dataLength: nat)
    requires |h| == HeaderSize && 36 + dataLength < Uint32Range
    requires h[4..8] == Le32(36 + dataLength) && h[16..20] == Le32(16)
    requires h[20..22] == Le16(PcmFormat) && h[22..24] == Le16(1) && h[40..44] == Le32(dataLength)
    ensures ReadUint32(h, 4) == 36 + dataLength && ReadUint32(h, 16) == 16
    ensures ReadUint16(h, 20) == PcmFormat && ReadUint16(h, 22) == 1 && ReadUint32(h, 40) == dataLength
  {
    ReadUint32At(h, 4, 36 + dataLength);
    ReadUint32At(h, 16, 16);
    ReadUint16At(h, 20, PcmFormat);
    ReadUint16At(h, 22, 1);
    ReadUint32At(h, 40, dataLength);
  }

  /** The numbers a reader takes out of the rate and sample-size fields. */
  lemma RateValues(h: seq<Byte>, sampleRate: nat)
    requires |h| == HeaderSize && sampleRate * BytesPerSample < Uint32Range
    requires h[24..28] == Le32(sampleRate) && h[28..32] == Le32(sampleRate * BytesPerSample)
    requires h[32..34] == Le16(BytesPerSample) && h[34..36] == Le16(BitDepth)
    ensures ReadUint32(h, 24) == sampleRate && ReadUint32(h, 28) == sampleRate * BytesPerSample
    ensures ReadUint16(h, 32) == BytesPerSample && ReadUint16(h, 34) == BitDepth
  {
    ReadUint32At(h, 24, sampleRate);
    ReadUint32At(h, 28, sampleRate * BytesPerSample);
    ReadUint16At(h, 32, BytesPerSample);
    ReadUint16At(h, 34, BitDepth);
  }

  /** A header reader gets back the sample rate and the data length, as
      long as both fit the 32-bit fields. */
  lemma HeaderRoundTrip(sampleRate: nat, dataLength: nat)
    requires sampleRate * BytesPerSample < Uint32Range
    requires 36 + dataLength < Uint32Range
    ensures DecodeHeader(WavHeader(sampleRate, dataLength)) == Some(HeaderInfo(sampleRate, dataLength))
  {
    var h := WavHeader(sampleRate, dataLength);
    HeaderFields(sampleRate, dataLength);
    FormatValues(h, dataLength);
    RateValues(h, sampleRate);
  }

  /** A buffer made of a header that reads back and the samples it announces
      reads back as those. */
  lemma DecodeWavParts(h: seq<Byte>, p: seq<Byte>, sampleRate: nat, samples: seq<Int16>)
    requires |h| == HeaderSize && |p| % 2 == 0
    requires DecodeHeader(h) == Some(HeaderInfo(sampleRate, |p|)) && DecodePcm(p) == samples
    ensures DecodeWav(h + p) == Some(Wav(sampleRate, samples))
  {
    var bs := h + p;
    assert bs[..HeaderSize] == h && bs[HeaderSize..] == p;
  }

  /** A reader of the layout gets back the sample rate and every sample. */
  lemma WavRoundTrip(sampleRate: nat, samples: seq<Int16>)
    requires sampleRate * BytesPerSample < Uint32Range
    requires 36 + BytesPerSample * |samples| < Uint32Range
    ensures DecodeWav(WavBytes(sampleRate, samples)) == Some(Wav(sampleRate, samples))
  {
    var dl := BytesPerSample * |samples|;
    HeaderRoundTrip(sampleRate, dl);
    PcmRoundTrip(samples);
    DecodeWavParts(WavHeader(sampleRate, dl), Pcm(samples), sampleRate, samples);
  }

  // ---------------------------------------------------------------------------
  // encodeWAV

  /** `writeString`: one `setUint8` per character. */
  method WriteString(view: array<Byte>, offset: nat, s: string)
    requires offset + |s| <= view.Length
    modifies view
    ensures view[..offset + |s|] == old(view[..offset]) + Ascii(s)
  {
    ghost var before := view[..offset];
    for i := 0 to |s|
      invariant view[..offset + i] == before + Ascii(s)[..i]
    {
      view[offset + i] := (s[i] as int % 0x100) as Byte;
      assert view[..offset + i + 1] == view[..offset + i] + [view[offset + i]];
    }
  }

  /** `setUint16(offset, v, true)`. */
  method SetUint16(view: array<Byte>, offset: nat, v: int)
    requires offset + 2 <= view.Length
    modifies view
    ensures view[..offset + 2] == old(view[..offset]) + Le16(v)
  {
    var bs := Le16(v);
    view[offset] := bs[0];
    view[offset + 1] := bs[1];
    assert view[..offset + 2] == view[..offset] + [bs[0], bs[1]];
  }

  /** `setUint32(offset, v, true)`. */
  method SetUint32(view: array<Byte>, offset: nat, v: int)
    requires offset + 4 <= view.Length
    modifies view
    ensures view[..offset + 4] == old(view[..offset]) + Le32(v)
  {
    var bs := Le32(v);
    view[offset] := bs[0];
    view[offset + 1] := bs[1];
    view[offset + 2] := bs[2];
    view[offset + 3] := bs[3];
    assert view[..offset + 4] == view[..offset] + [bs[0], bs[1], bs[2], bs[3]];
  }

  /** The header writes of `encodeWAV`, in their order. */
  method WriteHeader(view: array<Byte>, sampleRate: nat, dataLength: nat)
    requires HeaderSize <= view.Length
    modifies view
    ensures view[..HeaderSize] == WavHeader(sampleRate, dataLength)
  {
    WriteString(view, 0, "RIFF");
    ghost var p := Ascii("RIFF");
    SetUint32(view, 4, 36 + dataLength);
    p := p + Le32(36 + dataLength);
    assert view[..8] == p;
    WriteString(view, 8, "WAVE");
    p := p + Ascii("WAVE");
    assert view[..12] == p;
    WriteString(view, 12, "fmt ");
    p := p + Ascii("fmt ");
    assert view[..16] == p;
    SetUint32(view, 16, 16);
    p := p + Le32(16);
    assert view[..20] == p;
    SetUint16(view, 20, PcmFormat);
    p := p + Le16(PcmFormat);
    assert view[..22] == p;
    SetUint16(view, 22, 1);
    p := p + Le16(1);
    assert view[..24] == p;
    SetUint32(view, 24, sampleRate);
    p := p + Le32(sampleRate);
    assert view[..28] == p;
    SetUint32(view, 28, sampleRate * BytesPerSample);
    p := p + Le32(sampleRate * BytesPerSample);
    assert view[..32] == p;
    SetUint16(view, 32, BytesPerSample);
    p := p + Le16(BytesPerSample);
    assert view[..34] == p;
    SetUint16(view, 34, BitDepth);
    p := p + Le16(BitDepth);
    assert view[..36] == p;
    WriteString(view, 36, "data");
    p := p + Ascii("data");
    assert view[..40] == p;
    SetUint32(view, 40, dataLength);
    p := p + Le32(dataLength);
    assert view[..44] == p;
  }

  /** The sample loop of `encodeWAV`: one `setInt16` per sample, advancing
      `offset` by two from the end of the header. */
  method WriteSamples(view: array<Byte>, samples: seq<Int16>)
    requires view.Length == HeaderSize + BytesPerSample * |samples|
    modifies view
    ensures view[..] == old(view[..HeaderSize]) + Pcm(samples)
  {
    ghost var header := view[..HeaderSize];
    assert header + Pcm(samples[..0]) == header;
    var offset := HeaderSize;
    for i := 0 to |samples|
      invariant offset == HeaderSize + BytesPerSample * i
      invariant view[..offset] == header + Pcm(samples[..i])
    {
      SetUint16(view, offset, samples[i] as int);
      PcmSnoc(samples, i);
      offset := offset + BytesPerSample;
    }
    assert samples[..|samples|] == samples;
    assert view[..] == view[..offset];
  }

  /** `encodeWAV`: a buffer of exactly 44 + 2·n bytes holding the header and
      then the samples, which a WAV reader takes back out unchanged. */
  method EncodeWav(sampleRate: nat, samples: seq<Int16>) returns (view: array<Byte>)
    ensures view.Length == HeaderSize + BytesPerSample * |samples|
    ensures view[..] == WavBytes(sampleRate, samples)
  {
    var dataLength := |samples| * BytesPerSample;
    view := new Byte[HeaderSize + dataLength];
    WriteHeader(view, sampleRate, dataLength);
    WriteSamples(view, samples);
  }

  // ---------------------------------------------------------------------------
  // splitAudio

  const DefaultChunkSeconds: nat := 600

  /** One element of `splitAudio`'s result; `firstSample` and `sampleCount`
      are what its millisecond `startTime` and `duration` are computed from. */
  datatype AudioChunk = AudioChunk(index: nat, firstSample: nat, sampleCount: nat, wav: seq<Byte>, size: nat)

  function Min(a: int, b: int): int {
    if a < b then a else b
  }

  /** The chunk carries, as a WAV buffer of its own, the samples it claims. */
  ghost predicate EncodesSlice(samples: seq<Int16>, sampleRate: nat, c: AudioChunk) {
    c.firstSample + c.sampleCount <= |samples| &&
    c.wav == WavBytes(sampleRate, samples[c.firstSample..c.firstSample + c.sampleCount]) &&
    c.size == |c.wav|
  }

  /** Every chunk carries its own samples. */
  ghost predicate AllEncodeSlices(samples: seq<Int16>, sampleRate: nat, chunks: seq<AudioChunk>) {
    chunks == [] ||
    (AllEncodeSlices(samples, sampleRate, chunks[..|chunks| - 1]) && EncodesSlice(samples, sampleRate, chunks[|chunks| - 1]))
  }

  lemma {:induction false} EncodesSliceAt(samples: seq<Int16>, sampleRate: nat, chunks: seq<AudioChunk>, i: nat)
    requires AllEncodeSlices(samples, sampleRate, chunks) && i < |chunks|
    ensures EncodesSlice(samples, sampleRate, chunks[i])
    decreases |chunks|
  {
    if i < |chunks| - 1 {
      EncodesSliceAt(samples, sampleRate, chunks[..|chunks| - 1], i);
    }
  }

  /** Chunks numbered from 0 that cover `[0, end)` one after the other, each
      of at most `chunkSamples` samples and all but the last of exactly that
      many. */
  ghost predicate Contiguous(chunks: seq<AudioChunk>, end: nat, chunkSamples: nat)
    decreases |chunks|
  {
    if chunks == [] then end == 0
    else
      var init := chunks[..|chunks| - 1];
      var last := chunks[|chunks| - 1];
      last.index == |init| && 0 < last.sampleCount <= chunkSamples &&
      last.firstSample + last.sampleCount == end &&
      Contiguous(init, last.firstSample, chunkSamples) &&
      (init != [] ==> init[|init| - 1].sampleCount == chunkSamples)
  }

  /** The sum of the chunks' sample counts. */
  function TotalSamples(chunks: seq<AudioChunk>): nat {
    if chunks == [] then 0
    else TotalSamples(chunks[..|chunks| - 1]) + chunks[|chunks| - 1].sampleCount
  }

  /** One more chunk, starting where the split ends, extends it. */
  lemma ContiguousSnoc(chunks: seq<AudioChunk>, end: nat, chunkSamples: nat, c: AudioChunk)
    requires Contiguous(chunks, end, chunkSamples)
    requires chunks != [] ==> chunks[|chunks| - 1].sampleCount == chunkSamples
    requires c.index == |chunks| && c.firstSample == end && 0 < c.sampleCount <= chunkSamples
    ensures Contiguous(chunks + [c], end + c.sampleCount, chunkSamples)
  {
    assert (chunks + [c])[..|chunks|] == chunks;
  }

  /** The `encodeWAV` call and the object pushed for one chunk. */
  method MakeChunk(samples: seq<Int16>, sampleRate: nat, index: nat, firstSample: nat, sampleCount: nat)
    returns (c: AudioChunk)
    requires firstSample + sampleCount <= |samples|
    ensures c.index == index && c.firstSample == firstSample && c.sampleCount == sampleCount
    ensures EncodesSlice(samples, sampleRate, c)
  {
    var view := EncodeWav(sampleRate, samples[firstSample..firstSample + sampleCount]);
    c := AudioChunk(index, firstSample, sampleCount, view[..], view.Length);
  }

  /** The error `createBuffer` throws when asked for a buffer of no samples. */
  const EmptyBufferError := "NotSupportedError"

  /** `splitAudio` on the decoded samples: consecutive chunks numbered from
      0, each of `min(chunkSamples, remaining)` samples and encoded as a WAV
      buffer of its own, whose sample counts add up to the recording. A chunk
      length of zero samples leaves an empty recording as no chunks and
      otherwise makes the first `createBuffer` throw. */
  method SplitAudio(samples: seq<Int16>, sampleRate: nat, chunkDurationSeconds: Option<nat>)
    returns (r: Result<seq<AudioChunk>, string>)
    requires sampleRate > 0
    ensures var chunkSamples := chunkDurationSeconds.GetOr(DefaultChunkSeconds) * sampleRate;
      r.Failure? <==> chunkSamples == 0 && |samples| > 0
    ensures r.Failure? ==> r.error == EmptyBufferError
    ensures r.Success? ==>
      var chunkSamples := chunkDurationSeconds.GetOr(DefaultChunkSeconds) * sampleRate;
      Contiguous(r.value, |samples|, chunkSamples) &&
      AllEncodeSlices(samples, sampleRate, r.value) &&
      TotalSamples(r.value) == |samples|
  {
    var chunkSamples := chunkDurationSeconds.GetOr(DefaultChunkSeconds) * sampleRate;
    var length := |samples|;
    var chunks := [];
    var offset := 0;
    var chunkIndex := 0;
    while offset < length
      invariant chunkIndex == |chunks| && offset <= length
      invariant Contiguous(chunks, offset, chunkSamples)
      invariant chunks != [] && offset < length ==> chunks[|chunks| - 1].sampleCount == chunkSamples
      invariant AllEncodeSlices(samples, sampleRate, chunks)
      invariant chunkSamples == 0 ==> offset == 0
      decreases length - offset
    {
      var remainingSamples := length - offset;
      var currentChunkSamples := Min(chunkSamples, remainingSamples);
      if currentChunkSamples == 0 {
        return Failure(EmptyBufferError);
      }
      var chunk := MakeChunk(samples, sampleRate, chunkIndex, offset, currentChunkSamples);
      ContiguousSnoc(chunks, offset, chunkSamples, chunk);
      assert AllEncodeSlices(samples, sampleRate, chunks + [chunk]);
      chunks := chunks + [chunk];
      offset := offset + currentChunkSamples;
      chunkIndex := chunkIndex + 1;
    }
    ContiguousTotal(chunks, length, chunkSamples);
    r := Success(chunks);
  }

  lemma {:induction false} MulLe(a: nat, b: nat, c: nat)
    requires a <= b
    ensures a * c <= b * c
    decreases b - a
  {
    if a < b {
      MulLe(a, b - 1, c);
      assert b * c == (b - 1) * c + c;
    }
  }

  /** Chunk i of a contiguous split is numbered i, starts at sample
      i·chunkSamples and ends by `end`; all chunks but the last are full. */
  lemma {:induction false} ChunkLayout(chunks: seq<AudioChunk>, end: nat, chunkSamples: nat, i: nat)
    requires Contiguous(chunks, end, chunkSamples) && i < |chunks|
    ensures chunks[i].index == i && 0 < chunks[i].sampleCount <= chunkSamples
    ensures chunks[i].firstSample == i * chunkSamples && chunks[i].firstSample + chunks[i].sampleCount <= end
    ensures i < |chunks| - 1 ==> chunks[i].sampleCount == chunkSamples
    decreases |chunks|
  {
    var init := chunks[..|chunks| - 1];
    var last := chunks[|chunks| - 1];
    if i < |init| {
      ChunkLayout(init, last.firstSample, chunkSamples, i);
    } else if init != [] {
      ChunkLayout(init, last.firstSample, chunkSamples, |init| - 1);
      assert i * chunkSamples == (i - 1) * chunkSamples + chunkSamples;
    }
  }

  /** The chunks' sample counts add up to the samples covered. */
  lemma {:induction false} ContiguousTotal(chunks: seq<AudioChunk>, end: nat, chunkSamples: nat)
    requires Contiguous(chunks, end, chunkSamples)
    ensures TotalSamples(chunks) == end
    decreases |chunks|
  {
    if chunks != [] {
      ContiguousTotal(chunks[..|chunks| - 1], chunks[|chunks| - 1].firstSample, chunkSamples);
    }
  }

  /** Each chunk holds `min(chunkSamples, end - firstSample)` samples, the
      count `splitAudio` computes from the samples remaining. */
  lemma ChunkSizes(chunks: seq<AudioChunk>, end: nat, chunkSamples: nat)
    requires Contiguous(chunks, end, chunkSamples)
    ensures forall i :: 0 <= i < |chunks| ==> chunks[i].sampleCount == Min(chunkSamples, end - chunks[i].firstSample)
  {
    forall i | 0 <= i < |chunks| - 1
      ensures chunks[i].sampleCount == Min(chunkSamples, end - chunks[i].firstSample)
    {
      ChunkLayout(chunks, end, chunkSamples, i);
      ChunkLayout(chunks, end, chunkSamples, |chunks| - 1);
      MulLe(i + 1, |chunks| - 1, chunkSamples);
      assert (i + 1) * chunkSamples == i * chunkSamples + chunkSamples;
    }
  }

  /** A contiguous split has `ceil(end / chunkSamples)` chunks: the last one
      starts below `end`, and all of them together reach at least `end`. */
  lemma ChunkCount(chunks: seq<AudioChunk>, end: nat, chunkSamples: nat)
    requires chunkSamples > 0 && Contiguous(chunks, end, chunkSamples)
    ensures (|chunks| - 1) * chunkSamples < end <= |chunks| * chunkSamples
  {
    var k: int := |chunks|;
    if k > 0 {
      ChunkLayout(chunks, end, chunkSamples, k - 1);
      assert k * chunkSamples == (k - 1) * chunkSamples + chunkSamples;
    } else {
      assert (k - 1) * chunkSamples + chunkSamples == 0;
    }
  }

  /** Thirty minutes in ten-minute chunks make three chunks, whatever the
      sample rate. */
  lemma ThreeChunksForHalfAnHour(chunks: seq<AudioChunk>, sampleRate: nat)
    requires sampleRate > 0
    requires Contiguous(chunks, 1800 * sampleRate, DefaultChunkSeconds * sampleRate)
    ensures |chunks| == 3
  {
    var cs := DefaultChunkSeconds * sampleRate;
    var k := |chunks|;
    ChunkCount(chunks, 1800 * sampleRate, cs);
    if k <= 2 {
      MulLe(k, 2, cs);
    } else if k >= 4 {
      MulLe(3, k - 1, cs);
    }
  }

  /** Fifteen minutes make a full ten-minute chunk and a five-minute one. */
  lemma FifteenMinutesSplit(chunks: seq<AudioChunk>, sampleRate: nat)
    requires sampleRate > 0
    requires Contiguous(chunks, 900 * sampleRate, DefaultChunkSeconds * sampleRate)
    ensures |chunks| == 2
    ensures chunks[0].sampleCount == 600 * sampleRate && chunks[1].sampleCount == 300 * sampleRate
  {
    var cs := DefaultChunkSeconds * sampleRate;
    var k := |chunks|;
    ChunkCount(chunks, 900 * sampleRate, cs);
    if k <= 1 {
      MulLe(k, 1, cs);
    } else if k >= 3 {
      MulLe(2, k - 1, cs);
    } else {
      ChunkLayout(chunks, 900 * sampleRate, cs, 0);
      ChunkLayout(chunks, 900 * sampleRate, cs, 1);
    }
  }

  // ---------------------------------------------------------------------------
  // encode and the size helpers

  const DefaultFormat := "webm"
  const WavMimeType := "audio/wav"

  /** `convertToWAV` once the browser has decoded the audio. */
  function ConvertToWav(audio: Wav): (r: Blob)
    ensures r.mimeType == WavMimeType && r.size == HeaderSize + BytesPerSample * |audio.samples|
  {
    Blob(|WavBytes(audio.sampleRate, audio.samples)|, WavMimeType)
  }

  /** Whether `encode` hands its input back untouched. */
  predicate PassesThrough(blob: Blob, format: string) {
    format == "webm" || Contains(blob.mimeType, "webm") || format != "wav"
  }

  /** `encode(blob, { format })`, with `decoded` the browser's decoding of the
      blob (or the error it throws): WebM input or a WebM request comes back
      as it is, a WAV request is converted, any other format comes back as it
      is. */
  function Encode(blob: Blob, format: Option<string>, decoded: Result<Wav, string>): (r: Result<Blob, string>)
    ensures PassesThrough(blob, format.GetOr(DefaultFormat)) ==> r == Success(blob)
    ensures format.None? ==> r == Success(blob)
    ensures !PassesThrough(blob, format.GetOr(DefaultFormat)) ==>
      (r.Failure? <==> decoded.Failure?) &&
      (r.Failure? ==> r.error == decoded.error) &&
      (r.Success? ==> r.value.mimeType == WavMimeType && r.value.size == HeaderSize + BytesPerSample * |decoded.value.samples|)
  {
    var f := format.GetOr(DefaultFormat);
    if f == "webm" || Contains(blob.mimeType, "webm") then Success(blob)
    else if f == "wav" then
      match decoded
      case Success(audio) => Success(ConvertToWav(audio))
      case Failure(e) => Failure(e)
    else Success(blob)
  }

  const DefaultBitrate: nat := 128000
  const DefaultLimitMegabytes: int := 25

  /** `estimateFileSize`: the byte count of `durationSeconds` at `bitrate`
      bits per second, rounded up. */
  function EstimateFileSize(durationSeconds: nat, bitrate: Option<nat>): (r: nat)
    ensures var bits := durationSeconds * bitrate.GetOr(DefaultBitrate);
      bits <= 8 * r < bits + 8
  {
    (durationSeconds * bitrate.GetOr(DefaultBitrate) + 7) / 8
  }

  /** `isWithinSizeLimit`: at most `limitMB` binary megabytes, inclusive. */
  function IsWithinSizeLimit(size: int, limitMB: Option<int>): (r: bool)
    ensures limitMB.None? ==> (r <==> size <= OpenAI.MaxFileSize)
    ensures limitMB.Some? ==> (r <==> size <= limitMB.value * 1048576)
  {
    size <= limitMB.GetOr(DefaultLimitMegabytes) * 1024 * 1024
  }

  /** With the default limit the helper agrees with the upload check of the
      transcription client, including the boundary. */
  lemma DefaultLimitIsUploadLimit(apiKey: string, blob: Blob, options: OpenAI.TranscribeOptions)
    ensures IsWithinSizeLimit(blob.size, None) <==> OpenAI.TranscriptionRequestFor(apiKey, blob, options).Success?
  {
  }

  /** A default-length WAV chunk fits the default limit only for sample rates
      up to 21845 Hz: at 44.1 or 48 kHz a ten-minute mono chunk is larger
      than the upload limit. */
  lemma DefaultChunkFits(sampleRate: nat)
    ensures IsWithinSizeLimit(HeaderSize + BytesPerSample * DefaultChunkSeconds * sampleRate, None) <==> sampleRate <= 21845
  {
  }
}
