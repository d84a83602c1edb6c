/** WAV headers and data: the chunk walker and the concatenator. */
module Wav {
  import opened Tokens

  type Byte = n: nat | n < 0x100
  type U16 = n: nat | n < 0x1_0000
  type U32 = n: nat | n < 0x1_0000_0000

  type Bytes = seq<Byte>

  const RIFF: Bytes := [0x52, 0x49, 0x46, 0x46]
  const WAVE: Bytes := [0x57, 0x41, 0x56, 0x45]
  const FMT: Bytes := [0x66, 0x6d, 0x74, 0x20]
  const DATA: Bytes := [0x64, 0x61, 0x74, 0x61]
  const HEADER_SIZE := 44

  function FromLe16(a: Byte, b: Byte): U16 {
    a + 0x100 * b
  }

  function FromLe32(a: Byte, b: Byte, c: Byte, d: Byte): U32 {
    a + 0x100 * b + 0x1_0000 * c + 0x100_0000 * d
  }

  function Le16(n: U16): (b: Bytes)
    ensures |b| == 2 && FromLe16(b[0], b[1]) == n
  {
    [n % 0x100, n / 0x100]
  }

  function Le32(n: U32): (b: Bytes)
    ensures |b| == 4 && FromLe32(b[0], b[1], b[2], b[3]) == n
  {
    assert n / 0x100 / 0x100 == n / 0x1_0000 && n / 0x1_0000 / 0x100 == n / 0x100_0000;
    [n % 0x100, n / 0x100 % 0x100, n / 0x1_0000 % 0x100, n / 0x100_0000]
  }

  datatype Format = Format(audioFormat: U16, channels: U16, sampleRate: U32, bits: U16)

  datatype WavInfo = WavInfo(format: Format, offset: nat, size: nat)

  // ---------- parsing ----------

  function ChunkSize(data: Bytes, pos: nat): U32
    requires pos + 8 <= |data|
  {
    FromLe32(data[pos + 4], data[pos + 5], data[pos + 6], data[pos + 7])
  }

  function FormatAt(data: Bytes, at: nat): Format
    requires at + 16 <= |data|
  {
    Format(FromLe16(data[at], data[at + 1]), FromLe16(data[at + 2], data[at + 3]),
           FromLe32(data[at + 4], data[at + 5], data[at + 6], data[at + 7]), FromLe16(data[at + 14], data[at + 15]))
  }

  function Visit(data: Bytes, pos: nat, info: WavInfo): WavInfo
    requires pos + 8 <= |data|
  {
    if data[pos..pos + 4] == FMT && pos + 24 <= |data| then info.(format := FormatAt(data, pos + 8))
    else if data[pos..pos + 4] == DATA then info.(offset := pos + 8, size := ChunkSize(data, pos))
    else info
  }

  /** Chunk after chunk until one is empty or the buffer ends; odd chunks are not padded. */
  function Walk(data: Bytes, pos: nat, info: WavInfo): WavInfo
    decreases |data| - pos
  {
    if pos + 8 > |data| then info
    else
      var size := ChunkSize(data, pos);
      if size == 0 then Visit(data, pos, info) else Walk(data, pos + 8 + size, Visit(data, pos, info))
  }

  const UNREAD := WavInfo(Format(0, 1, 44100, 16), 0, 0)

  predicate IsRiffWave(data: Bytes) {
    |data| >= HEADER_SIZE && data[0..4] == RIFF && data[8..12] == WAVE
  }

  function Parse(data: Bytes): (r: Option<WavInfo>)
    ensures r.Some? ==> 0 < r.value.size && r.value.offset + r.value.size <= |data|
  {
    if !IsRiffWave(data) then None
    else
      var info := Walk(data, 12, UNREAD);
      if info.offset == 0 || info.size == 0 || info.offset + info.size > |data| then None else Some(info)
  }

  method ParseWavInfo(data: Bytes) returns (r: Option<WavInfo>)
    ensures r == Parse(data)
  {
    if |data| < 44 || data[0..4] != RIFF || data[8..12] != WAVE {
      return None;
    }
    var info := UNREAD;
    var pos := 12;
    while pos + 8 <= |data|
      invariant Walk(data, 12, UNREAD) == Walk(data, pos, info)
      decreases |data| - pos
    {
      var id := data[pos..pos + 4];
      var size := FromLe32(data[pos + 4], data[pos + 5], data[pos + 6], data[pos + 7]);
      var start := pos + 8;
      if id == FMT && start + 16 <= |data| {
        info := info.(format := FormatAt(data, start));
      } else if id == DATA {
        info := info.(offset := start, size := size);
      }
      pos := pos + 8 + size;
      if size == 0 { break; }
    }
    if info.offset == 0 || info.size == 0 || info.offset + info.size > |data| {
      return None;
    }
    return Some(info);
  }

  // ---------- concatenating ----------

  function Payload(data: Bytes): Bytes
    requires Parse(data).Some?
  {
    var info := Parse(data).value;
    data[info.offset..info.offset + info.size]
  }

  predicate AllParse(buffers: seq<Bytes>) {
    forall i | 0 <= i < |buffers| :: Parse(buffers[i]).Some?
  }

  function Payloads(buffers: seq<Bytes>): Bytes
    requires AllParse(buffers)
  {
    if buffers == [] then [] else Payloads(buffers[..|buffers| - 1]) + Payload(buffers[|buffers| - 1])
  }

  predicate Matches(a: Format, b: Format) {
    a.channels == b.channels && a.sampleRate == b.sampleRate && a.bits == b.bits
  }

  predicate SameFormat(buffers: seq<Bytes>)
    requires AllParse(buffers)
  {
    buffers != [] ==> AllMatch(buffers, Parse(buffers[0]).value.format)
  }

  function RiffHead(total: nat): Bytes {
    RIFF + Le32((36 + total % 0x1_0000_0000) % 0x1_0000_0000) + WAVE
  }

  /** Sizes and rates wrap at their field widths, as unchecked arithmetic does. */
  function FormatChunk(f: Format): Bytes {
    var align: U16 := f.channels * (f.bits / 8) % 0x1_0000;
    FMT + Le32(16) + (Le16(f.audioFormat) + Le16(f.channels) + Le32(f.sampleRate)
                      + Le32(f.sampleRate * align % 0x1_0000_0000) + Le16(align) + Le16(f.bits))
  }

  function DataHead(total: nat): Bytes {
    DATA + Le32(total % 0x1_0000_0000)
  }

  function File(f: Format, payload: Bytes): Bytes {
    RiffHead(|payload|) + FormatChunk(f) + DataHead(|payload|) + payload
  }

  function Concat(buffers: seq<Bytes>): Option<Bytes> {
    if buffers == [] || !AllParse(buffers) || !SameFormat(buffers) then None
    else Some(File(Parse(buffers[0]).value.format, Payloads(buffers)))
  }

  method ConcatWavBuffers(buffers: seq<Bytes>) returns (r: Option<Bytes>)
    ensures r == Concat(buffers)
  {
    hide Parse, File, Payload;
    if buffers == [] {
      return None;
    }
    var infos: seq<WavInfo> := [];
    for i := 0 to |buffers|
      invariant |infos| == i && forall k | 0 <= k < i :: Parse(buffers[k]) == Some(infos[k])
    {
      var info := ParseWavInfo(buffers[i]);
      if info == None { return None; }
      infos := infos + [info.value];
    }
    for i := 0 to |infos|
      invariant forall k | 0 <= k < i :: Matches(infos[k].format, infos[0].format)
    {
      if !Matches(infos[i].format, infos[0].format) { return None; }
    }
    var payload := [];
    for i := 0 to |buffers|
      invariant payload == Payloads(buffers[..i])
    {
      payload := payload + Payload(buffers[i]);
      assert buffers[..i + 1][..i] == buffers[..i];
    }
    assert buffers[..|buffers|] == buffers;
    return Some(File(infos[0].format, payload));
  }

  // ---------- parsing what was printed ----------

  lemma HeadSizes(f: Format, total: nat)
    ensures |RiffHead(total)| == 12 && |FormatChunk(f)| == 24 && |DataHead(total)| == 8
    ensures RiffHead(total)[0..4] == RIFF && RiffHead(total)[8..12] == WAVE
  {
  }

  lemma FormatChunkReads(f: Format)
    ensures var c := FormatChunk(f);
            |c| == 24 && c[0..4] == FMT && FormatAt(c, 8) == f && ChunkSize(c, 0) == 16
  {
    hide Le16, Le32, FromLe16, FromLe32;
    var c := FormatChunk(f);
    assert c[4..8] == Le32(16) && c[8..10] == Le16(f.audioFormat) && c[10..12] == Le16(f.channels);
    assert c[12..16] == Le32(f.sampleRate) && c[22..24] == Le16(f.bits);
    assert c[4] == c[4..8][0] && c[5] == c[4..8][1] && c[6] == c[4..8][2] && c[7] == c[4..8][3];
    assert c[8] == c[8..10][0] && c[9] == c[8..10][1] && c[10] == c[10..12][0] && c[11] == c[10..12][1];
    assert c[12] == c[12..16][0] && c[13] == c[12..16][1] && c[14] == c[12..16][2] && c[15] == c[12..16][3];
    assert c[22] == c[22..24][0] && c[23] == c[22..24][1];
  }

  lemma DataHeadReads(total: nat)
    requires total < 0x1_0000_0000
    ensures var c := DataHead(total); |c| == 8 && c[0..4] == DATA && ChunkSize(c, 0) == total
  {
    hide Le32, FromLe32;
    var c := DataHead(total);
    assert total % 0x1_0000_0000 == total;
    assert c[4..8] == Le32(total);
    assert c[4] == c[4..8][0] && c[5] == c[4..8][1] && c[6] == c[4..8][2] && c[7] == c[4..8][3];
  }

  /** A chunk read in place is the chunk. */
  lemma ReadInPlace(data: Bytes, pos: nat, chunk: Bytes)
    requires 8 <= |chunk| && pos + |chunk| <= |data| && data[pos..pos + |chunk|] == chunk
    ensures data[pos..pos + 4] == chunk[0..4] && ChunkSize(data, pos) == ChunkSize(chunk, 0)
    ensures |chunk| == 24 ==> FormatAt(data, pos + 8) == FormatAt(chunk, 8)
  {
    assert forall i | pos <= i < pos + |chunk| :: data[i] == chunk[i - pos];
  }

  /** A printed file parses to its own format, with the payload right after the 44 header bytes. */
  lemma ParseFile(f: Format, payload: Bytes)
    requires 0 < |payload| < 0x1_0000_0000
    ensures Parse(File(f, payload)) == Some(WavInfo(f, HEADER_SIZE, |payload|))
    ensures Payload(File(f, payload)) == payload
  {
    hide RiffHead, FormatChunk, DataHead, FormatAt, ChunkSize;
    var data := File(f, payload);
    var a, b, c := RiffHead(|payload|), FormatChunk(f), DataHead(|payload|);
    HeadSizes(f, |payload|);
    FormatChunkReads(f);
    DataHeadReads(|payload|);
    assert data[0..12] == a && data[0..4] == a[0..4] && data[8..12] == a[8..12];
    assert data[12..36] == b && data[36..44] == c && data[44..] == payload;
    ReadInPlace(data, 12, b);
    ReadInPlace(data, 36, c);
    WalkFile(data, f, |payload|);
  }

  lemma WalkFile(data: Bytes, f: Format, total: nat)
    requires 0 < total < 0x1_0000_0000 && |data| == HEADER_SIZE + total
    requires data[12..16] == FMT && ChunkSize(data, 12) == 16 && FormatAt(data, 20) == f
    requires data[36..40] == DATA && ChunkSize(data, 36) == total
    ensures Walk(data, 12, UNREAD) == WavInfo(f, HEADER_SIZE, total)
  {
    hide FormatAt, ChunkSize;
    assert FMT != DATA by { assert FMT[0] != DATA[0]; }
    var one := UNREAD.(format := f);
    assert Visit(data, 12, UNREAD) == one;
    assert Visit(data, 36, one) == WavInfo(f, HEADER_SIZE, total);
    assert Walk(data, HEADER_SIZE + total, WavInfo(f, HEADER_SIZE, total)) == WavInfo(f, HEADER_SIZE, total);
    assert Walk(data, 36, one) == WavInfo(f, HEADER_SIZE, total);
  }

  lemma {:induction false} PayloadsNotEmpty(buffers: seq<Bytes>)
    requires AllParse(buffers) && buffers != []
    ensures Payloads(buffers) != []
  {
    hide Parse, Walk;
    assert |Payload(buffers[|buffers| - 1])| > 0;
  }

  /**
    The printed total is read back exactly when it fits its 32-bit field; then the parse of a concatenation is
    the first buffer's format and precisely the concatenated payloads at offset 44.
   */
  lemma ParseOfConcat(buffers: seq<Bytes>)
    ensures Concat(buffers).Some? ==>
              var out, total := Concat(buffers).value, |Payloads(buffers)|;
              && (total < 0x1_0000_0000 <==>
                  Parse(out) == Some(WavInfo(Parse(buffers[0]).value.format, HEADER_SIZE, total)))
              && (total < 0x1_0000_0000 ==> Parse(out).Some? && Payload(out) == Payloads(buffers))
  {
    hide Parse, File, Walk;
    if Concat(buffers).Some? {
      PayloadsNotEmpty(buffers);
      var out, total := Concat(buffers).value, |Payloads(buffers)|;
      if total < 0x1_0000_0000 {
        ParseFile(Parse(buffers[0]).value.format, Payloads(buffers));
      } else if Parse(out).Some? {
        SizeFitsField(out);
      }
    }
  }

  /**
    The audio format is not compared: the output has the format of every input exactly when all inputs carry the
    audio format of the first.
   */
  lemma FormatKeptIffAudioFormatsAgree(buffers: seq<Bytes>)
    requires AllParse(buffers) && SameFormat(buffers) && buffers != [] && |Payloads(buffers)| < 0x1_0000_0000
    ensures var out := Concat(buffers);
            && out.Some? && Parse(out.value).Some?
            && ((forall i | 0 <= i < |buffers| :: Parse(buffers[i]).value.format == Parse(out.value).value.format) <==>
                (forall i | 0 <= i < |buffers| ::
                   Parse(buffers[i]).value.format.audioFormat == Parse(buffers[0]).value.format.audioFormat))
  {
    hide Parse, File, Walk, Payload, Payloads;
    ParseOfConcat(buffers);
    var f := Parse(buffers[0]).value.format;
    forall i | 0 <= i < |buffers|
      ensures Parse(buffers[i]).value.format == f <==> Parse(buffers[i]).value.format.audioFormat == f.audioFormat
    {
      assert Matches(Parse(buffers[i]).value.format, f);
    }
    assert Parse(Concat(buffers).value).value.format == f;
  }

  /** It does happen: integer and floating-point samples of one shape concatenate, and come out labelled integer. */
  lemma IntegerAndFloatConcatenate(channels: U16, rate: U32, bits: U16, p: Bytes, q: Bytes)
    requires p != [] && q != [] && |p| + |q| < 0x1_0000_0000
    ensures var a, b := File(Format(1, channels, rate, bits), p), File(Format(3, channels, rate, bits), q);
            Concat([a, b]) == Some(File(Format(1, channels, rate, bits), p + q))
  {
    hide Parse, File, Walk, Payload, Concat;
    var f, g := Format(1, channels, rate, bits), Format(3, channels, rate, bits);
    ParseFile(f, p);
    ParseFile(g, q);
    ConcatTwo(File(f, p), File(g, q));
  }

  lemma ConcatTwo(a: Bytes, b: Bytes)
    requires Parse(a).Some? && Parse(b).Some? && Matches(Parse(b).value.format, Parse(a).value.format)
    ensures Concat([a, b]) == Some(File(Parse(a).value.format, Payload(a) + Payload(b)))
  {
    hide Parse, File, Walk, Payload;
    var none: seq<Bytes> := [];
    assert [a, b][..1] == [a] && [a][..0] == none;
    assert Payloads([a]) == Payload(a);
    assert Payloads([a, b]) == Payload(a) + Payload(b);
  }

  lemma {:induction false} WalkSize(data: Bytes, pos: nat, info: WavInfo)
    requires info.size < 0x1_0000_0000
    ensures Walk(data, pos, info).size < 0x1_0000_0000
    decreases |data| - pos
  {
    hide FormatAt, FromLe32;
    if pos + 8 <= |data| && ChunkSize(data, pos) != 0 {
      WalkSize(data, pos + 8 + ChunkSize(data, pos), Visit(data, pos, info));
    }
  }

  lemma SizeFitsField(data: Bytes)
    requires Parse(data).Some?
    ensures Parse(data).value.size < 0x1_0000_0000
  {
    WalkSize(data, 12, UNREAD);
  }

  /**
    Without overflow the printed header is consistent: total size, frame size and byte rate are what the format
    implies.
   */
  lemma HeaderIsConsistent(f: Format, payload: Bytes)
    requires 36 + |payload| < 0x1_0000_0000
    requires f.channels * (f.bits / 8) < 0x1_0000 && f.sampleRate * (f.channels * (f.bits / 8)) < 0x1_0000_0000
    ensures var out := File(f, payload);
            && |out| == HEADER_SIZE + |payload|
            && FromLe32(out[4], out[5], out[6], out[7]) == |out| - 8
            && FromLe32(out[28], out[29], out[30], out[31]) == f.sampleRate * (f.channels * (f.bits / 8))
            && FromLe16(out[32], out[33]) == f.channels * (f.bits / 8)
  {
    hide RiffHead, FormatChunk, DataHead, FromLe16, FromLe32;
    var out, a, b := File(f, payload), RiffHead(|payload|), FormatChunk(f);
    HeadSizes(f, |payload|);
    RiffHeadSize(|payload|);
    FormatRates(f);
    assert out[0..12] == a && out[12..36] == b;
    SameBytes(out, 0, a);
    SameBytes(out, 12, b);
  }

  lemma RiffHeadSize(total: nat)
    requires 36 + total < 0x1_0000_0000
    ensures var a := RiffHead(total); |a| == 12 && FromLe32(a[4], a[5], a[6], a[7]) == 36 + total
  {
    hide Le32, FromLe32;
    var a := RiffHead(total);
    assert a[4..8] == Le32(36 + total);
    SameBytes(a, 4, Le32(36 + total));
  }

  lemma FormatRates(f: Format)
    requires f.channels * (f.bits / 8) < 0x1_0000 && f.sampleRate * (f.channels * (f.bits / 8)) < 0x1_0000_0000
    ensures var b := FormatChunk(f);
            && |b| == 24 && FromLe32(b[16], b[17], b[18], b[19]) == f.sampleRate * (f.channels * (f.bits / 8))
            && FromLe16(b[20], b[21]) == f.channels * (f.bits / 8)
  {
    hide Le16, Le32, FromLe16, FromLe32;
    var b, align: U16 := FormatChunk(f), f.channels * (f.bits / 8);
    assert b[16..20] == Le32(f.sampleRate * align) && b[20..22] == Le16(align);
    SameBytes(b, 16, Le32(f.sampleRate * align));
    SameBytes(b, 20, Le16(align));
  }

  lemma SameBytes(data: Bytes, pos: nat, chunk: Bytes)
    requires pos + |chunk| <= |data| && data[pos..pos + |chunk|] == chunk
    ensures forall i | pos <= i < pos + |chunk| :: data[i] == chunk[i - pos]
  {
  }

  // ---------- nested concatenation ----------

  ghost function Flatten(groups: seq<seq<Bytes>>): seq<Bytes> {
    if groups == [] then [] else Flatten(groups[..|groups| - 1]) + groups[|groups| - 1]
  }

  lemma {:induction false} PayloadsConcat(a: seq<Bytes>, b: seq<Bytes>)
    requires AllParse(a) && AllParse(b)
    ensures AllParse(a + b) && Payloads(a + b) == Payloads(a) + Payloads(b)
    decreases |b|
  {
    hide Parse, Payload;
    if b == [] {
      assert a + b == a;
    } else {
      PayloadsConcat(a, b[..|b| - 1]);
      assert (a + b)[..|a + b| - 1] == a + b[..|b| - 1];
    }
  }

  /** Each file is the concatenation of its group, and each group's payload fits the header of its file. */
  ghost predicate Nested(groups: seq<seq<Bytes>>, files: seq<Bytes>) {
    && |files| == |groups|
    && (forall i | 0 <= i < |groups| :: Concat(groups[i]) == Some(files[i]))
    && (forall i | 0 <= i < |groups| :: |Payloads(groups[i])| < 0x1_0000_0000)
  }

  lemma FileOfGroup(groups: seq<seq<Bytes>>, files: seq<Bytes>, i: nat)
    requires Nested(groups, files) && i < |files|
    ensures groups[i] != [] && AllParse(groups[i]) && SameFormat(groups[i])
    ensures Parse(files[i]).Some? && Parse(files[i]).value.format == Parse(groups[i][0]).value.format
    ensures Payload(files[i]) == Payloads(groups[i])
  {
    hide Parse, File, Walk;
    ParseOfConcat(groups[i]);
  }

  lemma {:induction false} NestedPayloads(groups: seq<seq<Bytes>>, files: seq<Bytes>)
    requires Nested(groups, files)
    ensures AllParse(files) && AllParse(Flatten(groups)) && Payloads(files) == Payloads(Flatten(groups))
    ensures groups != [] ==> Flatten(groups) != [] && Flatten(groups)[0] == groups[0][0]
    decreases |groups|
  {
    hide Parse, File, Payload, Concat, SameFormat;
    if groups != [] {
      var n := |groups| - 1;
      NestedPayloads(groups[..n], files[..n]);
      FileOfGroup(groups, files, n);
      PayloadsConcat(Flatten(groups[..n]), groups[n]);
      assert files == files[..n] + [files[n]];
    }
  }

  predicate AllMatch(buffers: seq<Bytes>, f: Format)
    requires AllParse(buffers)
  {
    forall i | 0 <= i < |buffers| :: Matches(Parse(buffers[i]).value.format, f)
  }

  lemma AllMatchConcat(a: seq<Bytes>, b: seq<Bytes>, f: Format)
    requires AllParse(a) && AllParse(b)
    ensures AllParse(a + b) && (AllMatch(a + b, f) <==> AllMatch(a, f) && AllMatch(b, f))
  {
    hide Parse, Matches;
    var c := a + b;
    assert forall i | 0 <= i < |a| :: c[i] == a[i];
    assert forall i | |a| <= i < |c| :: c[i] == b[i - |a|];
    if AllMatch(c, f) {
      forall i | 0 <= i < |b| ensures Matches(Parse(b[i]).value.format, f) {
        assert c[|a| + i] == b[i];
      }
    }
  }

  lemma GroupMatches(group: seq<Bytes>, f: Format)
    requires group != [] && AllParse(group) && SameFormat(group)
    ensures AllMatch(group, f) <==> Matches(Parse(group[0]).value.format, f)
  {
    hide Parse;
  }

  /** All files share a format exactly when all the buffers inside them do. */
  lemma {:induction false} NestedFormats(groups: seq<seq<Bytes>>, files: seq<Bytes>, f: Format)
    requires Nested(groups, files)
    ensures AllParse(files) && AllParse(Flatten(groups)) && (AllMatch(files, f) <==> AllMatch(Flatten(groups), f))
    decreases |groups|
  {
    hide Parse, File, Payload, Concat, Matches, AllMatch, SameFormat;
    NestedPayloads(groups, files);
    if groups == [] {
      NothingToMatch(f);
    } else {
      var n := |groups| - 1;
      NestedFormats(groups[..n], files[..n], f);
      FileOfGroup(groups, files, n);
      GroupMatches(groups[n], f);
      AllMatchConcat(Flatten(groups[..n]), groups[n], f);
      AllMatchConcat(files[..n], [files[n]], f);
      OneMatches(files[n], f);
      assert files == files[..n] + [files[n]];
    }
  }

  lemma NothingToMatch(f: Format)
    ensures AllMatch([], f)
  {
  }

  lemma OneMatches(b: Bytes, f: Format)
    requires Parse(b).Some?
    ensures AllMatch([b], f) <==> Matches(Parse(b).value.format, f)
  {
    hide Parse;
    assert [b][0] == b;
  }

  /** Concatenating concatenations is concatenating everything at once, byte for byte, and fails on the same inputs. */
  lemma NestedConcatFlattens(groups: seq<seq<Bytes>>, files: seq<Bytes>)
    requires Nested(groups, files)
    ensures Concat(files) == Concat(Flatten(groups))
  {
    hide Parse, File, Payload, Matches;
    NestedPayloads(groups, files);
    if groups != [] {
      FileOfGroup(groups, files, 0);
      NestedFormats(groups, files, Parse(files[0]).value.format);
    }
  }

  // ---------- files with any chunks ----------

  datatype Chunk = Chunk(id: Bytes, body: Bytes)

  /** A chunk that is there in full; a format chunk has its sixteen bytes. */
  ghost predicate WholeChunk(c: Chunk) {
    |c.id| == 4 && |c.body| < 0x1_0000_0000 && (c.id == [0x66, 0x6d, 0x74, 0x20] ==> |c.body| >= 16)
  }

  ghost predicate WholeChunks(cs: seq<Chunk>) {
    forall i | 0 <= i < |cs| :: WholeChunk(cs[i])
  }

  ghost function ChunkBytes(c: Chunk): Bytes
    requires WholeChunk(c)
  {
    c.id + Le32(|c.body|) + c.body
  }

  ghost function Chunks(cs: seq<Chunk>): Bytes
    requires WholeChunks(cs)
  {
    if cs == [] then [] else ChunkBytes(cs[0]) + Chunks(cs[1..])
  }

  /** What one chunk says: `fmt ` the format, `data` where the samples are, any other nothing. */
  ghost function SaidBy(c: Chunk, pos: nat, info: WavInfo): WavInfo
    requires WholeChunk(c)
  {
    if c.id == [0x66, 0x6d, 0x74, 0x20] then info.(format := FormatAt(c.body, 0))
    else if c.id == [0x64, 0x61, 0x74, 0x61] then info.(offset := pos + 8, size := |c.body|)
    else info
  }

  /** Chunk by chunk, the last word counts; an empty chunk ends the walk. */
  ghost function SaidByAll(cs: seq<Chunk>, pos: nat, info: WavInfo): WavInfo
    requires WholeChunks(cs)
  {
    if cs == [] then info
    else if cs[0].body == [] then SaidBy(cs[0], pos, info)
    else SaidByAll(cs[1..], pos + 8 + |cs[0].body|, SaidBy(cs[0], pos, info))
  }

  lemma ChunkParts(c: Chunk)
    requires WholeChunk(c)
    ensures var b := ChunkBytes(c);
            |b| == 8 + |c.body| && b[0..4] == c.id && b[8..] == c.body && ChunkSize(b, 0) == |c.body|
  {
    hide FromLe32;
    var b, size := ChunkBytes(c), Le32(|c.body|);
    assert b[4..8] == size;
    SameBytes(b, 4, size);
  }

  lemma VisitChunk(data: Bytes, pos: nat, c: Chunk, info: WavInfo)
    requires WholeChunk(c) && pos + 8 + |c.body| <= |data| && data[pos..pos + 8 + |c.body|] == ChunkBytes(c)
    ensures ChunkSize(data, pos) == |c.body| && Visit(data, pos, info) == SaidBy(c, pos, info)
  {
    hide ChunkBytes, ChunkSize, FormatAt;
    var b := ChunkBytes(c);
    ChunkParts(c);
    ReadInPlace(data, pos, b);
    if c.id == FMT {
      SameFormatThere(data, pos + 8, c.body);
    }
  }

  lemma SameFormatThere(data: Bytes, at: nat, body: Bytes)
    requires 16 <= |body| && at + |body| <= |data| && at >= 8
    requires forall i | 0 <= i < |body| :: data[at + i] == body[i]
    ensures FormatAt(data, at) == FormatAt(body, 0)
  {
  }

  lemma {:induction false} WalkChunks(data: Bytes, pos: nat, cs: seq<Chunk>, info: WavInfo)
    requires WholeChunks(cs) && pos <= |data| && data[pos..] == Chunks(cs)
    ensures Walk(data, pos, info) == SaidByAll(cs, pos, info)
    decreases |cs|
  {
    hide Visit, SaidBy, ChunkBytes, ChunkSize;
    if cs != [] {
      var c, rest := cs[0], Chunks(cs[1..]);
      ChunkParts(c);
      var next := pos + 8 + |c.body|;
      assert data[pos..][..8 + |c.body|] == ChunkBytes(c) && data[pos..][8 + |c.body|..] == rest;
      assert data[pos..next] == ChunkBytes(c) && data[next..] == rest;
      VisitChunk(data, pos, c, info);
      if c.body != [] {
        WalkChunks(data, next, cs[1..], SaidBy(c, pos, info));
      }
    }
  }

  lemma {:induction false} SaidInBounds(cs: seq<Chunk>, pos: nat, info: WavInfo, limit: nat)
    requires WholeChunks(cs) && pos + |Chunks(cs)| <= limit && info.offset + info.size <= limit
    ensures SaidByAll(cs, pos, info).offset + SaidByAll(cs, pos, info).size <= limit
    decreases |cs|
  {
    hide ChunkBytes, FormatAt;
    if cs != [] {
      ChunkParts(cs[0]);
      if cs[0].body != [] {
        SaidInBounds(cs[1..], pos + 8 + |cs[0].body|, SaidBy(cs[0], pos, info), limit);
      }
    }
  }

  ghost function ChunkFile(size: Bytes, cs: seq<Chunk>): Bytes
    requires WholeChunks(cs)
  {
    [0x52, 0x49, 0x46, 0x46] + size + [0x57, 0x41, 0x56, 0x45] + Chunks(cs)
  }

  /**
    Any file made of whole chunks, in any order and number and whatever its size field says, parses to what its
    chunks say; it is refused exactly when it is shorter than 44 bytes or no samples are found.
   */
  lemma {:induction false} ParseOfChunks(size: Bytes, cs: seq<Chunk>)
    requires |size| == 4 && WholeChunks(cs)
    ensures var data, info := ChunkFile(size, cs), SaidByAll(cs, 12, WavInfo(Format(0, 1, 44100, 16), 0, 0));
            Parse(data) == if |data| >= 44 && info.offset > 0 && info.size > 0 then Some(info) else None
  {
    hide Chunks, Walk, SaidByAll;
    var data := ChunkFile(size, cs);
    assert data[0..4] == RIFF && data[8..12] == WAVE && data[12..] == Chunks(cs);
    WalkChunks(data, 12, cs, UNREAD);
    SaidInBounds(cs, 12, UNREAD, |data|);
  }

  lemma {:induction false} FirstChunk(a: seq<Chunk>, pos: nat, info: WavInfo)
    requires WholeChunks(a) && a != [] && a[0].body != []
    ensures Chunks(a) == ChunkBytes(a[0]) + Chunks(a[1..])
    ensures SaidByAll(a, pos, info) == SaidByAll(a[1..], pos + 8 + |a[0].body|, SaidBy(a[0], pos, info))
  {
    hide SaidBy, ChunkBytes;
  }

  lemma {:induction false} SaidConcat(a: seq<Chunk>, c: Chunk, pos: nat, info: WavInfo)
    requires WholeChunks(a) && WholeChunk(c) && forall i | 0 <= i < |a| :: a[i].body != []
    ensures WholeChunks(a + [c])
    ensures SaidByAll(a + [c], pos, info) == SaidBy(c, pos + |Chunks(a)|, SaidByAll(a, pos, info))
    ensures Chunks(a + [c]) == Chunks(a) + ChunkBytes(c)
    decreases |a|
  {
    hide SaidBy, ChunkBytes;
    if a == [] {
      assert a + [c] == [c];
    } else {
      hide Chunks, SaidByAll;
      assert (a + [c])[1..] == a[1..] + [c] && (a + [c])[0] == a[0];
      ChunkParts(a[0]);
      SaidConcat(a[1..], c, pos + 8 + |a[0].body|, SaidBy(a[0], pos, info));
      FirstChunk(a, pos, info);
      FirstChunk(a + [c], pos, info);
      assert ChunkBytes(a[0]) + (Chunks(a[1..]) + ChunkBytes(c)) == ChunkBytes(a[0]) + Chunks(a[1..]) + ChunkBytes(c);
    }
  }

  /** So any further chunks before the samples are stepped over, and the samples are found where they are. */
  lemma {:induction false} SamplesFoundBehindOtherChunks(size: Bytes, before: seq<Chunk>, samples: Bytes)
    requires |size| == 4 && WholeChunks(before) && 0 < |samples| < 0x1_0000_0000
    requires forall i | 0 <= i < |before| :: before[i].body != []
    requires var c := Chunk([0x64, 0x61, 0x74, 0x61], samples);
             WholeChunks(before + [c]) && |ChunkFile(size, before + [c])| >= 44
    ensures var c := Chunk([0x64, 0x61, 0x74, 0x61], samples);
            var data := ChunkFile(size, before + [c]);
            && Parse(data).Some? && Payload(data) == samples
            && Parse(data).value.format == SaidByAll(before, 12, WavInfo(Format(0, 1, 44100, 16), 0, 0)).format
  {
    hide Chunks, Walk, SaidByAll, Parse, FormatAt;
    var c := Chunk([0x64, 0x61, 0x74, 0x61], samples);
    var data, b := ChunkFile(size, before + [c]), Chunks(before);
    ParseOfChunks(size, before + [c]);
    SaidConcat(before, c, 12, UNREAD);
    assert c.id != [0x66, 0x6d, 0x74, 0x20] by { assert c.id[0] != 0x66; }
    ChunkParts(c);
    var head := [0x52, 0x49, 0x46, 0x46] + size + [0x57, 0x41, 0x56, 0x45];
    assert data == head + (b + ChunkBytes(c)) == head + b + ChunkBytes(c);
    assert data[12 + |b|..] == ChunkBytes(c);
    assert data[20 + |b|..20 + |b| + |samples|] == ChunkBytes(c)[8..] == samples;
  }

  /** Which lists of buffers concatenate: some, all parseable, and any two alike in channels, rate and depth. */
  lemma {:induction false} ConcatAcceptsIff(buffers: seq<Bytes>)
    ensures Concat(buffers).Some? <==>
            && buffers != [] && (forall i | 0 <= i < |buffers| :: Parse(buffers[i]).Some?)
            && forall i, j | 0 <= i < |buffers| && 0 <= j < |buffers| ::
                 var f, g := Parse(buffers[i]).value.format, Parse(buffers[j]).value.format;
                 f.channels == g.channels && f.sampleRate == g.sampleRate && f.bits == g.bits
  {
    hide Parse, File, Payloads;
    if Concat(buffers).Some? {
      assert forall i | 0 <= i < |buffers| ::
          Matches(Parse(buffers[i]).value.format, Parse(buffers[0]).value.format);
    }
  }
}
