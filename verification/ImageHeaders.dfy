/** Image sizes read from bounded headers, before a renderer allocates pixels. */
module ImageHeaders {
  import opened Common

  type Byte = b: int | 0 <= b < 256
  type Bytes = seq<Byte>

  datatype Size = Size(width: nat, height: nat)

  // ---------------------------------------------------------------- numbers in bytes

  function Be16(b: Bytes, at: nat): (n: nat)
    requires at + 2 <= |b|
    ensures n < 0x1_0000
  {
    b[at] as nat * 256 + b[at + 1] as nat
  }

  function Be32(b: Bytes, at: nat): nat
    requires at + 4 <= |b|
  {
    Be16(b, at) * 0x1_0000 + Be16(b, at + 2)
  }

  function Le16(b: Bytes, at: nat): nat
    requires at + 2 <= |b|
  {
    b[at] as nat + b[at + 1] as nat * 256
  }

  function Le24(b: Bytes, at: nat): nat
    requires at + 3 <= |b|
  {
    Le16(b, at) + b[at + 2] as nat * 0x1_0000
  }

  function Le32(b: Bytes, at: nat): nat
    requires at + 4 <= |b|
  {
    Le16(b, at) + Le16(b, at + 2) * 0x1_0000
  }

  function PutBe16(n: nat): (b: Bytes)
    requires n < 0x1_0000
    ensures |b| == 2 && Be16(b, 0) == n
  {
    [n / 256, n % 256]
  }

  function PutLe16(n: nat): (b: Bytes)
    requires n < 0x1_0000
    ensures |b| == 2 && Le16(b, 0) == n
  {
    [n % 256, n / 256]
  }

  function PutLe24(n: nat): (b: Bytes)
    requires n < 0x100_0000
    ensures |b| == 3 && Le24(b, 0) == n
  {
    PutLe16(n % 0x1_0000) + [n / 0x1_0000]
  }

  function PutLe32(n: nat): (b: Bytes)
    requires n < 0x1_0000_0000
    ensures |b| == 4 && Le32(b, 0) == n
  {
    PutLe16(n % 0x1_0000) + PutLe16(n / 0x1_0000)
  }

  // ---------------------------------------------------------------- JPEG (ITU-T T.81, section B.1.1)

  const FILL: Byte := 0xFF

  predicate Standalone(marker: Byte) { marker == 0x01 || 0xD0 <= marker <= 0xD8 }
  predicate Stops(marker: Byte) { marker == 0xDA || marker == 0xD9 }
  predicate FrameHeader(marker: Byte) { 0xC0 <= marker <= 0xCF && marker != 0xC4 && marker != 0xC8 && marker != 0xCC }

  function Fills(b: Bytes): (n: nat)
    ensures n <= |b| && (n < |b| ==> b[n] != FILL) && forall i :: 0 <= i < n ==> b[i] == FILL
  {
    if b == [] || b[0] != FILL then 0 else 1 + Fills(b[1..])
  }

  /** What one round of a walk does: give up, find a size, or move on by so many bytes. */
  datatype Step = Stop | Found(size: Size) | Skip(width: nat)

  /** The marker at `at`, after its fill bytes. */
  function MarkerStep(b: Bytes, at: nat): (step: Step)
    ensures step.Skip? ==> at < step.width <= |b|
  {
    if at >= |b| || Stops(b[at]) then Stop
    else if Standalone(b[at]) then Skip(at + 1)
    else if at + 3 > |b| || Be16(b, at + 1) < 2 || at + 1 + Be16(b, at + 1) > |b| then Stop
    else if FrameHeader(b[at]) && Be16(b, at + 1) >= 8 then Found(Size(Be16(b, at + 6), Be16(b, at + 4)))
    else Skip(at + 1 + Be16(b, at + 1))
  }

  function JpegStep(rest: Bytes): (step: Step)
    ensures step.Skip? ==> 1 <= step.width <= |rest|
  {
    if |rest| < 4 || rest[0] != FILL then Stop else MarkerStep(rest, 1 + Fills(rest[1..]))
  }

  function JpegWalk(rest: Bytes): Option<Size>
    decreases |rest|
  {
    match JpegStep(rest)
    case Stop => None
    case Found(size) => Some(size)
    case Skip(n) => JpegWalk(rest[n..])
  }

  method JpegSize(bytes: Bytes) returns (size: Option<Size>)
    ensures size == if |bytes| < 2 then None else JpegWalk(bytes[2..])
  {
    var offset := 2;
    while offset + 4 <= |bytes|
      invariant |bytes| >= 2 ==> 2 <= offset <= |bytes| && JpegWalk(bytes[2..]) == JpegWalk(bytes[offset..])
      decreases |bytes| - offset
    {
      var step := ReadMarker(bytes, offset);
      match step {
        case Stop => return None;
        case Found(found) => return Some(found);
        case Skip(n) =>
          assert bytes[offset..][n..] == bytes[offset + n..];
          offset := offset + n;
      }
    }
    size := None;
  }

  /** The body of the walk's loop; every read lies inside the file. */
  method ReadMarker(bytes: Bytes, start: nat) returns (step: Step)
    requires start + 4 <= |bytes|
    ensures step == JpegStep(bytes[start..])
  {
    if bytes[start] != FILL {
      return Stop;
    }
    var offset := start + 1;
    while offset < |bytes| && bytes[offset] == FILL
      invariant start + 1 <= offset <= |bytes|
      invariant Fills(bytes[start + 1..]) == offset - start - 1 + Fills(bytes[offset..])
    {
      assert bytes[offset..][1..] == bytes[offset + 1..];
      offset := offset + 1;
    }
    assert bytes[start..][1..] == bytes[start + 1..];
    if offset >= |bytes| {
      return Stop;
    }
    var marker := bytes[offset];
    offset := offset + 1;
    if Stops(marker) {
      return Stop;
    }
    if Standalone(marker) {
      return Skip(offset - start);
    }
    if offset + 2 > |bytes| {
      return Stop;
    }
    var length := Be16(bytes, offset);
    if length < 2 || offset + length > |bytes| {
      return Stop;
    }
    if FrameHeader(marker) && length >= 8 {
      return Found(Size(Be16(bytes, offset + 5), Be16(bytes, offset + 3)));
    }
    step := Skip(offset + length - start);
  }

  /** One marker with its fill bytes; a segment also has a two-byte length and its parameters. */
  datatype Part = Single(fill: nat, marker: Byte) | Segment(fill: nat, marker: Byte, payload: Bytes)

  predicate PartOk(p: Part) {
    match p
    case Single(_, marker) => Standalone(marker)
    case Segment(_, marker, payload) =>
      !Standalone(marker) && !Stops(marker) && marker != FILL && |payload| + 2 < 0x1_0000
  }

  function FillBytes(n: nat): (b: Bytes)
    ensures |b| == n && forall i :: 0 <= i < n ==> b[i] == FILL
  {
    seq(n, _ => FILL)
  }

  function PutPart(p: Part): Bytes
    requires PartOk(p)
  {
    [FILL] + FillBytes(p.fill) + PutMarker(p)
  }

  function PutMarker(p: Part): Bytes
    requires PartOk(p)
  {
    match p
    case Single(_, marker) => [marker]
    case Segment(_, marker, payload) => [marker] + PutBe16(|payload| + 2) + payload
  }

  predicate PartsOk(parts: seq<Part>) { forall i :: 0 <= i < |parts| ==> PartOk(parts[i]) }

  function PutParts(parts: seq<Part>): Bytes
    requires PartsOk(parts)
  {
    if parts == [] then [] else PutPart(parts[0]) + PutParts(parts[1..])
  }

  /** The size in a frame header: lines at the second, samples per line at the fourth byte of its parameters. */
  function FrameSize(p: Part): Option<Size>
    requires PartOk(p)
  {
    if p.Segment? && FrameHeader(p.marker) && |p.payload| >= 6 then Some(Size(Be16(p.payload, 3), Be16(p.payload, 1)))
    else None
  }

  function FirstFrame(parts: seq<Part>): Option<Size>
    requires PartsOk(parts)
  {
    if parts == [] then None
    else if FrameSize(parts[0]).Some? then FrameSize(parts[0])
    else FirstFrame(parts[1..])
  }

  lemma {:induction false} FillsCounted(n: nat, rest: Bytes)
    requires rest == [] || rest[0] != FILL
    ensures Fills(FillBytes(n) + rest) == n
  {
    if n == 0 {
      assert FillBytes(0) + rest == rest;
    } else {
      assert (FillBytes(n) + rest)[1..] == FillBytes(n - 1) + rest;
      FillsCounted(n - 1, rest);
    }
  }

  /** The walk reads a marker right behind its fill bytes. */
  lemma StepSkipsFill(n: nat, rest: Bytes, file: Bytes)
    requires rest != [] && rest[0] != FILL && file == [FILL] + FillBytes(n) + rest
    ensures JpegStep(file) == if |file| < 4 then Stop else MarkerStep(file, 1 + n)
  {
    assert file[1..] == FillBytes(n) + rest;
    FillsCounted(n, rest);
  }

  /** Where the pieces of a segment end up behind its fill bytes. */
  lemma SegmentLayout(head: Bytes, marker: Byte, payload: Bytes, rest: Bytes, file: Bytes)
    requires |payload| + 2 < 0x1_0000
    requires file == head + ([marker] + PutBe16(|payload| + 2) + payload) + rest
    ensures var at := |head|;
            && |file| >= at + 3 + |payload| && file[at] == marker
            && Be16(file, at + 1) == |payload| + 2
            && file[at + 3..at + 3 + |payload|] == payload
  {
    var at, length := |head|, PutBe16(|payload| + 2);
    assert file[at + 1] == length[0] && file[at + 2] == length[1];
  }

  /** One part of a well-formed sequence: its frame size, or a step to what follows it. */
  lemma StepReadsPart(p: Part, rest: Bytes)
    requires PartOk(p)
    ensures JpegStep(PutPart(p) + rest) ==
            if FrameSize(p).Some? then Found(FrameSize(p).value)
            else if |PutPart(p)| + |rest| < 4 then Stop else Skip(|PutPart(p)|)
  {
    var at, file := 1 + p.fill, PutPart(p) + rest;
    assert file == [FILL] + FillBytes(p.fill) + (PutMarker(p) + rest);
    StepSkipsFill(p.fill, PutMarker(p) + rest, file);
    match p {
      case Single(_, marker) =>
        assert file[at] == marker;
      case Segment(_, marker, payload) =>
        SegmentLayout([FILL] + FillBytes(p.fill), marker, payload, rest, file);
        MarkerReadsSegment(p, file, at);
    }
  }

  lemma MarkerReadsSegment(p: Part, file: Bytes, at: nat)
    requires PartOk(p) && p.Segment? && |file| >= at + 3 + |p.payload| && file[at] == p.marker
    requires Be16(file, at + 1) == |p.payload| + 2 && file[at + 3..at + 3 + |p.payload|] == p.payload
    ensures MarkerStep(file, at) ==
            if FrameSize(p).Some? then Found(FrameSize(p).value) else Skip(at + 3 + |p.payload|)
  {
    if |p.payload| >= 6 {
      assert forall i :: 0 <= i < 6 ==> file[at + 3 + i] == p.payload[i];
    }
  }

  lemma WalkReadsPart(p: Part, rest: Bytes)
    requires PartOk(p)
    ensures JpegWalk(PutPart(p) + rest) == if FrameSize(p).Some? then FrameSize(p) else JpegWalk(rest)
  {
    StepReadsPart(p, rest);
    assert (PutPart(p) + rest)[|PutPart(p)|..] == rest;
  }

  /** On any well-formed marker sequence the walk finds exactly the first frame header before SOS or EOI. */
  lemma {:induction false} WalkFindsFirstFrame(parts: seq<Part>, fill: nat, stop: Byte, rest: Bytes, tail: Bytes)
    requires PartsOk(parts) && Stops(stop) && tail == [FILL] + FillBytes(fill) + ([stop] + rest)
    ensures JpegWalk(PutParts(parts) + tail) == FirstFrame(parts)
    decreases |parts|
  {
    if parts == [] {
      StepSkipsFill(fill, [stop] + rest, tail);
      assert PutParts(parts) + tail == tail;
      assert tail[1 + fill] == stop;
    } else {
      var others := PutParts(parts[1..]) + tail;
      WalkReadsPart(parts[0], others);
      Regroup(PutPart(parts[0]), PutParts(parts[1..]), tail);
      WalkFindsFirstFrame(parts[1..], fill, stop, rest, tail);
    }
  }

  lemma Regroup(a: Bytes, b: Bytes, c: Bytes)
    ensures (a + b) + c == a + (b + c)
  {
  }

  // ---------------------------------------------------------------- WebP (RFC 9649, sections 2.3 to 2.7 and 3.4)

  type Kind = k: Bytes | |k| == 4 witness [0, 0, 0, 0]

  const RIFF: Kind := [0x52, 0x49, 0x46, 0x46]
  const WEBP: Kind := [0x57, 0x45, 0x42, 0x50]
  const VP8X: Kind := [0x56, 0x50, 0x38, 0x58]
  const VP8L: Kind := [0x56, 0x50, 0x38, 0x4C]
  const VP8: Kind := [0x56, 0x50, 0x38, 0x20]
  const KEY_FRAME: Bytes := [0x9D, 0x01, 0x2A]

  /** The size a chunk declares, if it is one of the three that do. */
  function ChunkSize(kind: Bytes, data: Bytes): Option<Size> {
    if kind == VP8X && |data| >= 10 then Some(Size(Le24(data, 4) + 1, Le24(data, 7) + 1))
    else if kind == VP8L && |data| >= 5 && data[0] == 0x2F then
      Some(Size(Le32(data, 1) % 0x4000 + 1, Le32(data, 1) / 0x4000 % 0x4000 + 1))
    else if kind == VP8 && |data| >= 10 && data[0] % 2 == 0 && data[3..6] == KEY_FRAME then
      Some(Size(Le16(data, 6) % 0x4000, Le16(data, 8) % 0x4000))
    else None
  }

  function ChunkStep(rest: Bytes): (step: Step)
    ensures step.Skip? ==> 1 <= step.width <= |rest|
  {
    if |rest| < 8 || 8 + Le32(rest, 4) > |rest| then Stop
    else
      var size := Le32(rest, 4);
      match ChunkSize(rest[..4], rest[8..8 + size])
      case Some(found) => Found(found)
      case None => if 8 + size + size % 2 > |rest| then Stop else Skip(8 + size + size % 2)
  }

  /** The walk over the chunks that are left in the RIFF payload. */
  function ChunkWalk(rest: Bytes): Option<Size>
    decreases |rest|
  {
    match ChunkStep(rest)
    case Stop => None
    case Found(size) => Some(size)
    case Skip(n) => ChunkWalk(rest[n..])
  }

  method WebpChunks(bytes: Bytes, end: nat) returns (size: Option<Size>)
    requires 12 <= end <= |bytes|
    ensures size == ChunkWalk(bytes[12..end])
  {
    var offset := 12;
    while offset + 8 <= end
      invariant 12 <= offset <= end
      invariant ChunkWalk(bytes[12..end]) == ChunkWalk(bytes[offset..end])
    {
      var step := ReadChunk(bytes, offset, end);
      match step {
        case Stop => return None;
        case Found(found) => return Some(found);
        case Skip(n) =>
          assert bytes[offset..end][n..] == bytes[offset + n..end];
          offset := offset + n;
      }
    }
    size := None;
  }

  /** The body of the walk's loop; every read lies inside the RIFF payload. */
  method ReadChunk(bytes: Bytes, offset: nat, end: nat) returns (step: Step)
    requires offset + 8 <= end <= |bytes|
    ensures step == ChunkStep(bytes[offset..end])
  {
    var kind := bytes[offset..offset + 4];
    var length := Le32(bytes, offset + 4);
    var start := offset + 8;
    SliceOfSlice(bytes, offset, end - offset, 0, 4);
    if start + length > end {
      return Stop;
    }
    SliceOfSlice(bytes, offset, end - offset, 8, 8 + length);
    var found := ReadSize(bytes, kind, start, length, bytes[start..start + length]);
    if found.Some? {
      return Found(found.value);
    }
    step := if start + length + length % 2 > end then Stop else Skip(start + length + length % 2 - offset);
  }

  method ReadSize(bytes: Bytes, kind: Bytes, start: nat, length: nat, ghost data: Bytes) returns (size: Option<Size>)
    requires start + length <= |bytes| && data == bytes[start..start + length]
    ensures size == ChunkSize(kind, data)
  {
    if kind == VP8X && length >= 10 {
      return Some(Size(Le24(bytes, start + 4) + 1, Le24(bytes, start + 7) + 1));
    }
    if kind == VP8L && length >= 5 && bytes[start] == 0x2F {
      var bits := Le32(bytes, start + 1);
      return Some(Size(bits % 0x4000 + 1, bits / 0x4000 % 0x4000 + 1));
    }
    if length >= 10 {
      SliceOfSlice(bytes, start, length, 3, 6);
    }
    if kind == VP8 && length >= 10 && bytes[start] % 2 == 0 && bytes[start + 3..start + 6] == KEY_FRAME {
      return Some(Size(Le16(bytes, start + 6) % 0x4000, Le16(bytes, start + 8) % 0x4000));
    }
    size := None;
  }

  lemma SliceOfSlice(b: Bytes, start: nat, length: nat, i: nat, j: nat)
    requires i <= j <= length && start + length <= |b|
    ensures b[start..start + length][i..j] == b[start + i..start + j]
  {
    var c := b[start..start + length];
    assert forall k :: 0 <= k < length ==> c[k] == b[start + k];
    assert forall k :: 0 <= k < j - i ==> c[i..j][k] == c[i + k] == b[start + i..start + j][k];
  }

  datatype Chunk = Chunk(kind: Kind, data: Bytes)

  predicate ChunksOk(chunks: seq<Chunk>) { forall i :: 0 <= i < |chunks| ==> |chunks[i].data| < 0x1_0000_0000 }

  function PutChunk(c: Chunk): Bytes
    requires |c.data| < 0x1_0000_0000
  {
    c.kind + PutLe32(|c.data|) + c.data + (if |c.data| % 2 == 1 then [0] else [])
  }

  function PutChunks(chunks: seq<Chunk>): Bytes
    requires ChunksOk(chunks)
  {
    if chunks == [] then [] else PutChunk(chunks[0]) + PutChunks(chunks[1..])
  }

  function FirstSize(chunks: seq<Chunk>): Option<Size> {
    if chunks == [] then None
    else if ChunkSize(chunks[0].kind, chunks[0].data).Some? then ChunkSize(chunks[0].kind, chunks[0].data)
    else FirstSize(chunks[1..])
  }

  lemma StepReadsChunk(c: Chunk, rest: Bytes)
    requires |c.data| < 0x1_0000_0000
    ensures ChunkStep(PutChunk(c) + rest) ==
            if ChunkSize(c.kind, c.data).Some? then Found(ChunkSize(c.kind, c.data).value) else Skip(|PutChunk(c)|)
  {
    var t, size := PutChunk(c) + rest, |c.data|;
    assert t[..4] == c.kind;
    assert t[4..8] == PutLe32(size);
    assert Le32(t, 4) == Le32(PutLe32(size), 0);
    assert t[8..8 + size] == c.data;
  }

  lemma WalkReadsChunk(c: Chunk, rest: Bytes)
    requires |c.data| < 0x1_0000_0000
    ensures ChunkWalk(PutChunk(c) + rest)
         == if ChunkSize(c.kind, c.data).Some? then ChunkSize(c.kind, c.data) else ChunkWalk(rest)
  {
    StepReadsChunk(c, rest);
    assert (PutChunk(c) + rest)[|PutChunk(c)|..] == rest;
  }

  /** The walk visits exactly the padded chunk boundaries and stops at the first chunk that declares a size. */
  lemma {:induction false} WalkFindsFirstChunk(chunks: seq<Chunk>)
    requires ChunksOk(chunks)
    ensures ChunkWalk(PutChunks(chunks)) == FirstSize(chunks)
  {
    if chunks != [] {
      WalkReadsChunk(chunks[0], PutChunks(chunks[1..]));
      WalkFindsFirstChunk(chunks[1..]);
    }
  }

  /** Section 2.7: canvas width and height minus one, in 24 bits each. */
  lemma Vp8xIsInverted(flags: Bytes, w: nat, h: nat, rest: Bytes)
    requires |flags| == 4 && 1 <= w <= 0x100_0000 && 1 <= h <= 0x100_0000
    ensures ChunkSize(VP8X, flags + PutLe24(w - 1) + PutLe24(h - 1) + rest) == Some(Size(w, h))
  {
    var data := flags + PutLe24(w - 1) + PutLe24(h - 1) + rest;
    assert data[4..7] == PutLe24(w - 1) && data[7..10] == PutLe24(h - 1);
    assert Le24(data, 4) == Le24(PutLe24(w - 1), 0) && Le24(data, 7) == Le24(PutLe24(h - 1), 0);
  }

  /** Section 3.4: fourteen bits each for width and height minus one, then the alpha hint and the version. */
  lemma Vp8lIsInverted(w: nat, h: nat, hint: nat, rest: Bytes)
    requires 1 <= w <= 0x4000 && 1 <= h <= 0x4000 && hint < 16
    ensures (w - 1) + (h - 1) * 0x4000 + hint * 0x1000_0000 < 0x1_0000_0000
    ensures ChunkSize(VP8L, [0x2F] + PutLe32((w - 1) + (h - 1) * 0x4000 + hint * 0x1000_0000) + rest)
            == Some(Size(w, h))
  {
    var bits := (w - 1) + (h - 1) * 0x4000 + hint * 0x1000_0000;
    BitFields(w - 1, h - 1, hint, bits);
    LosslessLayout(PutLe32(bits), rest);
  }

  lemma BitFields(low: nat, middle: nat, high: nat, bits: nat)
    requires low < 0x4000 && middle < 0x4000 && bits == low + middle * 0x4000 + high * 0x1000_0000
    ensures bits % 0x4000 == low && bits / 0x4000 % 0x4000 == middle
  {
    assert bits / 0x4000 == middle + high * 0x4000;
  }

  lemma LosslessLayout(word: Bytes, rest: Bytes)
    requires |word| == 4
    ensures var data := [0x2F] + word + rest; |data| >= 5 && data[0] == 0x2F && Le32(data, 1) == Le32(word, 0)
  {
  }

  /** Section 9.1 of RFC 6386: a key frame tag, the start code, then fourteen bits and a scale for each side. */
  lemma Vp8IsInverted(tag: Bytes, w: nat, h: nat, scaleW: nat, scaleH: nat, rest: Bytes)
    requires |tag| == 3 && tag[0] % 2 == 0 && w < 0x4000 && h < 0x4000 && scaleW < 4 && scaleH < 4
    ensures ChunkSize(VP8, tag + KEY_FRAME + PutLe16(w + scaleW * 0x4000) + PutLe16(h + scaleH * 0x4000) + rest)
         == Some(Size(w, h))
  {
    var a, b := PutLe16(w + scaleW * 0x4000), PutLe16(h + scaleH * 0x4000);
    KeyFrameLayout(tag, a, b, rest);
    ScaledSide(w, scaleW);
    ScaledSide(h, scaleH);
    KeyFrameSize(tag + KEY_FRAME + a + b + rest, w, h);
  }

  lemma ScaledSide(side: nat, scale: nat)
    requires side < 0x4000
    ensures (side + scale * 0x4000) % 0x4000 == side
  {
  }

  lemma KeyFrameSize(data: Bytes, w: nat, h: nat)
    requires |data| >= 10 && data[0] % 2 == 0 && data[3..6] == KEY_FRAME
    requires Le16(data, 6) % 0x4000 == w && Le16(data, 8) % 0x4000 == h
    ensures ChunkSize(VP8, data) == Some(Size(w, h))
  {
  }

  lemma KeyFrameLayout(tag: Bytes, a: Bytes, b: Bytes, rest: Bytes)
    requires |tag| == 3 && |a| == 2 && |b| == 2
    ensures var data := tag + KEY_FRAME + a + b + rest;
            && |data| >= 10 && data[0] == tag[0] && data[3..6] == KEY_FRAME
            && Le16(data, 6) == Le16(a, 0) && Le16(data, 8) == Le16(b, 0)
  {
    var data := tag + KEY_FRAME + a + b + rest;
    assert data[6..8] == a && data[8..10] == b;
  }

  // ---------------------------------------------------------------- all formats

  datatype MediaType = Png | Jpeg | Webp

  const MAX_SIDE := 8192
  const MAX_PIXELS := 32_000_000
  const IHDR: Bytes := [0x49, 0x48, 0x44, 0x52]

  function DeclaredSize(bytes: Bytes, media: MediaType): Option<Size> {
    match media
    case Png =>
      if |bytes| >= 33 && Be32(bytes, 8) == 13 && bytes[12..16] == IHDR
        then Some(Size(Be32(bytes, 16), Be32(bytes, 20)))
      else None
    case Jpeg => if |bytes| < 2 then None else JpegWalk(bytes[2..])
    case Webp =>
      if |bytes| < 20 then None
      else
        var end := Le32(bytes, 4) + 8;
        if 20 <= end <= |bytes| then ChunkWalk(bytes[12..end]) else None
  }

  datatype Check = Accepted(size: Size) | NoHeader | TooLarge

  /** Accepts exactly the files whose declared size is positive and within both limits. */
  method AssertBackgroundImageDimensions(bytes: Bytes, media: MediaType) returns (check: Check)
    ensures check.NoHeader? <==> DeclaredSize(bytes, media).None?
    ensures check.Accepted? <==>
              exists size :: DeclaredSize(bytes, media) == Some(size) && 1 <= size.width <= MAX_SIDE
                             && 1 <= size.height <= MAX_SIDE && size.width * size.height <= MAX_PIXELS
    ensures check.Accepted? ==> DeclaredSize(bytes, media) == Some(check.size)
  {
    var size: Option<Size> := None;
    match media {
      case Png =>
        if |bytes| >= 33 && Be32(bytes, 8) == 13 && bytes[12..16] == IHDR {
          size := Some(Size(Be32(bytes, 16), Be32(bytes, 20)));
        }
      case Jpeg => size := JpegSize(bytes);
      case Webp =>
        if |bytes| >= 20 {
          var end := Le32(bytes, 4) + 8;
          if 20 <= end <= |bytes| {
            size := WebpChunks(bytes, end);
          }
        }
    }
    if size.None? {
      return NoHeader;
    }
    var Size(width, height) := size.value;
    if width == 0 || height == 0 || width > MAX_SIDE || height > MAX_SIDE || width * height > MAX_PIXELS {
      return TooLarge;
    }
    check := Accepted(size.value);
  }

  /** A complete JPEG file: start of image, marker sequence, then the scan or the end of the image. */
  lemma JpegFileIsRead(soi: Bytes, parts: seq<Part>, fill: nat, stop: Byte, rest: Bytes, file: Bytes)
    requires |soi| == 2 && PartsOk(parts) && Stops(stop)
    requires file == soi + (PutParts(parts) + ([FILL] + FillBytes(fill) + ([stop] + rest)))
    ensures DeclaredSize(file, Jpeg) == FirstFrame(parts)
  {
    assert file[2..] == PutParts(parts) + ([FILL] + FillBytes(fill) + ([stop] + rest));
    WalkFindsFirstFrame(parts, fill, stop, rest, [FILL] + FillBytes(fill) + ([stop] + rest));
  }

  /** A complete WebP file: whatever follows the RIFF payload is ignored. */
  lemma WebpFileIsRead(chunks: seq<Chunk>, file: Bytes, trailing: Bytes)
    requires chunks != [] && ChunksOk(chunks) && |PutChunks(chunks)| + 4 < 0x1_0000_0000
    requires file == RIFF + PutLe32(|PutChunks(chunks)| + 4) + WEBP + PutChunks(chunks) + trailing
    ensures DeclaredSize(file, Webp) == FirstSize(chunks)
  {
    var payload := PutChunks(chunks);
    assert |payload| >= 8;
    assert file[4..8] == PutLe32(|payload| + 4);
    assert Le32(file, 4) == Le32(PutLe32(|payload| + 4), 0);
    assert file[12..12 + |payload|] == payload;
    WalkFindsFirstChunk(chunks);
  }
}
