// WebP files as lists of chunks (internal/sticker/metadata.go, internal/sticker/limits.go;
// the container of RFC 9649, section 2): reading them, and writing one back with sticker
// metadata in an EXIF chunk.
module Riff {
  import opened Prelude

  const EXIF: Bytes := [69, 88, 73, 70]
  const VP8X: Bytes := [86, 80, 56, 88]
  const VP8: Bytes := [86, 80, 56, 32]
  const VP8L: Bytes := [86, 80, 56, 76]
  const ANMF: Bytes := [65, 78, 77, 70]
  const RIFF: Bytes := [82, 73, 70, 70]
  const WEBP: Bytes := [87, 69, 66, 80]

  const U24: nat := 0x100_0000
  const U32: nat := 0x1_0000_0000

  datatype Chunk = Chunk(id: Bytes, data: Bytes)

  // ---- Little-endian numbers --------------------------------------------------------

  /** The low `width` bytes of n, least significant first. */
  function Le(n: nat, width: nat): (b: Bytes)
    ensures |b| == width
  {
    if width == 0 then [] else [(n % 256) as Byte] + Le(n / 256, width - 1)
  }

  function FromLe(b: Bytes): nat {
    if b == [] then 0 else b[0] as nat + 256 * FromLe(b[1..])
  }

  function Pow256(k: nat): (p: nat)
    ensures p > 0
  {
    if k == 0 then 1 else 256 * Pow256(k - 1)
  }

  /** Reading back what was written gives the number cut to the width. */
  lemma {:induction false} LeReadsBack(n: nat, width: nat)
    ensures FromLe(Le(n, width)) == n % Pow256(width)
  {
    if width > 0 {
      LeReadsBack(n / 256, width - 1);
      CutByByte(n, Pow256(width - 1));
      assert Le(n, width)[1..] == Le(n / 256, width - 1);
    }
  }

  lemma CutByByte(n: nat, p: nat)
    requires p > 0
    ensures n % (256 * p) == n % 256 + 256 * ((n / 256) % p)
  {
    var q, r := n / 256, n % 256;
    assert q == p * (q / p) + q % p;
    assert n == 256 * q + r;
    assert n == (256 * p) * (q / p) + (256 * (q % p) + r);
    assert 0 <= 256 * (q % p) + r < 256 * p;
    RemainderIs(n, 256 * p, q / p, 256 * (q % p) + r);
  }

  lemma RemainderIs(n: nat, d: nat, q: nat, r: nat)
    requires d > 0 && n == d * q + r && r < d
    ensures n % d == r
  {
    assert n / d == q by {
      assert d * q <= n < d * (q + 1);
      QuotientIs(n, d, q);
    }
  }

  lemma QuotientIs(n: nat, d: nat, q: nat)
    requires d > 0 && d * q <= n < d * (q + 1)
    ensures n / d == q
  {
    var k := n / d;
    assert n == d * k + n % d;
    assert k < q ==> d * (k + 1) <= d * q;
    assert k > q ==> d * (q + 1) <= d * k;
  }

  lemma {:induction false} FromLeBound(b: Bytes)
    ensures FromLe(b) < Pow256(|b|)
  {
    if b != [] {
      FromLeBound(b[1..]);
    }
  }

  lemma Widths()
    ensures Pow256(3) == U24 && Pow256(4) == U32
  {
    assert Pow256(1) == 256 && Pow256(2) == 65536;
  }

  // ---- Reading chunks ----------------------------------------------------------------

  /** riffChunks as a function. */
  function Parsed(data: Bytes): (r: Option<seq<Chunk>>)
    decreases |data|
  {
    if data == [] then Some([])
    else if |data| < 8 then None
    else
      var size := FromLe(data[4..8]);
      if size > |data| - 8 then None
      else
        var rest := data[8 + size..];
        match Parsed(if size % 2 == 1 && rest != [] then rest[1..] else rest)
        case None => None
        case Some(chunks) => Some([Chunk(data[..4], data[8..8 + size])] + chunks)
  }

  function Joined(chunks: seq<Chunk>, rest: Option<seq<Chunk>>): Option<seq<Chunk>> {
    if rest.Some? then Some(chunks + rest.value) else None
  }

  method RiffChunks(input: Bytes) returns (result: Option<seq<Chunk>>)
    ensures result == Parsed(input)
  {
    var data := input;
    var chunks: seq<Chunk> := [];
    assert Joined([], Parsed(input)) == Parsed(input) by {
      if Parsed(input).Some? {
        assert [] + Parsed(input).value == Parsed(input).value;
      }
    }
    while |data| > 0
      invariant Parsed(input) == Joined(chunks, Parsed(data))
      decreases |data|
    {
      if |data| < 8 {
        return None;
      }
      var size := FromLe(data[4..8]);
      if size > |data| - 8 {
        return None;
      }
      var chunk := Chunk(data[..4], data[8..8 + size]);
      var rest := data[8 + size..];
      if size % 2 == 1 && |rest| > 0 {
        rest := rest[1..];
      }
      if Parsed(rest).Some? {
        assert chunks + ([chunk] + Parsed(rest).value) == chunks + [chunk] + Parsed(rest).value;
      }
      chunks := chunks + [chunk];
      data := rest;
    }
    assert chunks + [] == chunks;
    return Some(chunks);
  }

  // ---- Writing chunks -----------------------------------------------------------------

  function Printed(c: Chunk): Bytes {
    c.id + Le(|c.data|, 4) + c.data + if |c.data| % 2 == 1 then [0] else []
  }

  function PrintedAll(chunks: seq<Chunk>): Bytes {
    if chunks == [] then [] else Printed(chunks[0]) + PrintedAll(chunks[1..])
  }

  predicate Storable(c: Chunk) {
    |c.id| == 4 && |c.data| < U32
  }

  /** What was written is read back, chunk for chunk. */
  lemma {:induction false} PrintedIsParsed(chunks: seq<Chunk>)
    requires forall c | c in chunks :: Storable(c)
    ensures Parsed(PrintedAll(chunks)) == Some(chunks)
    decreases |chunks|
  {
    if chunks != [] {
      PrintedIsParsed(chunks[1..]);
      FirstIsParsed(chunks[0], PrintedAll(chunks[1..]));
      assert [chunks[0]] + chunks[1..] == chunks;
    }
  }

  lemma Middle(a: Bytes, b: Bytes, c: Bytes)
    ensures (a + b + c)[|a|..|a| + |b|] == b && (a + b + c)[|a| + |b|..] == c && (a + b + c)[..|a|] == a
  {
  }

  lemma PrintedParts(c: Chunk, rest: Bytes)
    requires |c.id| == 4
    ensures var data, size := Printed(c) + rest, |c.data|;
            && |data| >= 8 + size && data[..4] == c.id && data[4..8] == Le(size, 4) && data[8..8 + size] == c.data
            && data[8 + size..] == if size % 2 == 1 then [0] + rest else rest
  {
    var size := |c.data|;
    var tail := if size % 2 == 1 then [0] + rest else rest;
    var len := Le(size, 4);
    var data := Printed(c) + rest;
    assert data == c.id + len + (c.data + tail);
    Middle(c.id, len, c.data + tail);
    assert data == (c.id + len) + c.data + tail;
    Middle(c.id + len, c.data, tail);
  }

  lemma FirstIsParsed(c: Chunk, rest: Bytes)
    requires Storable(c)
    ensures Parsed(Printed(c) + rest) == Joined([c], Parsed(rest))
  {
    PrintedParts(c, rest);
    hide Printed;
    LeReadsBack(|c.data|, 4);
    Widths();
    var data := Printed(c) + rest;
    assert FromLe(data[4..8]) == |c.data|;
    var tail := data[8 + |c.data|..];
    assert |c.data| % 2 == 1 ==> tail[1..] == rest;
  }

  /** Chunks that were read can be written. */
  lemma {:induction false} ParsedIsStorable(data: Bytes)
    ensures Parsed(data).Some? ==> forall c | c in Parsed(data).value :: Storable(c)
    decreases |data|
  {
    if |data| >= 8 {
      var size := FromLe(data[4..8]);
      FromLeBound(data[4..8]);
      Widths();
      if size <= |data| - 8 {
        var rest := data[8 + size..];
        ParsedIsStorable(if size % 2 == 1 && rest != [] then rest[1..] else rest);
      }
    }
  }

  // ---- Sticker metadata -----------------------------------------------------------------

  predicate IsWebP(file: Bytes) {
    |file| >= 12 && file[..4] == RIFF && file[8..12] == WEBP
  }

  datatype Header = Header(chunk: Chunk) | Unusable

  /** The 14-bit number in two little-endian bytes. */
  function Low14(b: Bytes): nat
    requires |b| == 2
  {
    FromLe(b) % 0x4000
  }

  /** putUint24 of one less than a size; a size of zero wraps around. */
  function SizeBytes(size: nat): Bytes {
    Le((size + U24 - 1) % U24, 3)
  }

  function HeaderData(alpha: bool, width: nat, height: nat): Bytes {
    [if alpha then 0x10 else 0] + [0, 0, 0] + SizeBytes(width) + SizeBytes(height)
  }

  /** extendedHeader: a header made up for an image that came without one. */
  function ExtendedHeader(image: Chunk): Header {
    if image.id == VP8 then
      if |image.data| < 10 || image.data[3..6] != [0x9d, 0x01, 0x2a] then Unusable
      else Header(Chunk(VP8X, HeaderData(false, Low14(image.data[6..8]), Low14(image.data[8..10]))))
    else if image.id == VP8L then
      if |image.data| < 5 || image.data[0] != 0x2f then Unusable
      else
        var bits := FromLe(image.data[1..5]);
        Header(Chunk(VP8X, HeaderData((bits / 0x1000_0000) % 2 == 1, bits % 0x4000 + 1, (bits / 0x4000) % 0x4000 + 1)))
    else Unusable
  }

  /** The width and height a simple image declares. */
  function Declared(image: Chunk): Option<(nat, nat)> {
    if image.id == VP8 && |image.data| >= 10 && image.data[3..6] == [0x9d, 0x01, 0x2a] then
      Some((Low14(image.data[6..8]), Low14(image.data[8..10])))
    else if image.id == VP8L && |image.data| >= 5 && image.data[0] == 0x2f then
      var bits := FromLe(image.data[1..5]);
      Some((bits % 0x4000 + 1, (bits / 0x4000) % 0x4000 + 1))
    else None
  }

  /** Bit 3 of the flags: EXIF metadata present. */
  function WithExifBit(b: Byte): Byte {
    if (b / 8) % 2 == 1 then b else b + 8
  }

  /** The chunks other than EXIF, in order. */
  function Kept(chunks: seq<Chunk>): (r: seq<Chunk>)
    ensures forall c :: c in r <==> c in chunks && c.id != EXIF
  {
    if chunks == [] then []
    else
      var last := chunks[|chunks| - 1];
      var front := Kept(chunks[..|chunks| - 1]);
      assert chunks == chunks[..|chunks| - 1] + [last];
      if last.id == EXIF then front else front + [last]
  }

  /** The TIFF header WhatsApp expects, and the payload it announces. */
  function ExifData(payload: Bytes): Bytes {
    [0x49, 0x49, 0x2A, 0x00, 0x08, 0x00, 0x00, 0x00, 0x01, 0x00, 0x41, 0x57, 0x07, 0x00]
    + Le(|payload|, 4) + [0x16, 0x00, 0x00, 0x00] + payload
  }

  datatype Outcome = Done(file: Bytes) | NotWebP | Truncated | NoImage | BadHeader | EmptyHeader

  /** The chunks of the new file, or why there is none. */
  datatype Plan = Chunks(chunks: seq<Chunk>) | Refused(outcome: Outcome)

  /** The kept chunks behind a VP8X chunk with the EXIF bit set. An empty VP8X chunk has no
      flags to set: the program indexes past its end. */
  function Extended(kept: seq<Chunk>): Plan {
    if kept == [] then Refused(NoImage)
    else
      var header := if kept[0].id == VP8X then Header(kept[0]) else ExtendedHeader(kept[0]);
      if header.Unusable? then Refused(BadHeader)
      else if header.chunk.data == [] then Refused(EmptyHeader)
      else
        var flagged := Chunk(VP8X, [WithExifBit(header.chunk.data[0])] + header.chunk.data[1..]);
        Chunks([flagged] + if kept[0].id == VP8X then kept[1..] else kept)
  }

  function File(chunks: seq<Chunk>): Bytes {
    var body := WEBP + PrintedAll(chunks);
    RIFF + Le(|body|, 4) + body
  }

  function Metadata(file: Bytes, payload: Bytes): Outcome {
    if !IsWebP(file) then NotWebP
    else
      match Parsed(file[12..])
      case None => Truncated
      case Some(chunks) =>
        match Extended(Kept(chunks))
        case Refused(outcome) => outcome
        case Chunks(extended) => Done(File(extended + [Chunk(EXIF, ExifData(payload))]))
  }

  /** The program indexes past the end of an empty header exactly when the first chunk that is not
      EXIF is an empty VP8X chunk. */
  lemma EmptyHeaderExactly(file: Bytes, payload: Bytes)
    ensures Metadata(file, payload) == EmptyHeader <==>
            && IsWebP(file) && Parsed(file[12..]).Some?
            && var kept := Kept(Parsed(file[12..]).value);
               kept != [] && kept[0].id == VP8X && kept[0].data == []
  {
    hide Parsed, Kept;
    if IsWebP(file) && Parsed(file[12..]).Some? {
      var kept := Kept(Parsed(file[12..]).value);
      if kept != [] && kept[0].id != VP8X {
        MadeHeaderHasFlags(kept[0]);
      }
    }
  }

  lemma MadeHeaderHasFlags(image: Chunk)
    ensures ExtendedHeader(image).Header? ==> |ExtendedHeader(image).chunk.data| == 10 && ExtendedHeader(image).chunk.id == VP8X
  {
  }

  /** The loop that drops EXIF chunks. */
  method KeepChunks(chunks: seq<Chunk>) returns (kept: seq<Chunk>)
    ensures kept == Kept(chunks)
  {
    kept := [];
    for k := 0 to |chunks|
      invariant kept == Kept(chunks[..k])
    {
      assert chunks[..k + 1][..k] == chunks[..k];
      if chunks[k].id != EXIF {
        kept := kept + [chunks[k]];
      }
    }
    assert chunks[..|chunks|] == chunks;
  }

  /** The loop that writes the chunks behind the form type. */
  /** Appending a chunk's parts one by one appends the chunk. */
  lemma Appended(body: Bytes, start: Bytes, chunks: seq<Chunk>, c: Chunk)
    requires body == start + PrintedAll(chunks)
    ensures body + c.id + Le(|c.data|, 4) + c.data + (if |c.data| % 2 == 1 then [0] else []) == start + (PrintedAll(chunks) + Printed(c))
  {
  }

  method WriteChunks(all: seq<Chunk>) returns (body: Bytes)
    ensures body == WEBP + PrintedAll(all)
  {
    body := WEBP;
    assert WEBP + PrintedAll(all[..0]) == WEBP;
    for k := 0 to |all|
      invariant body == WEBP + PrintedAll(all[..k])
    {
      PrintedOneMore(all[..k], all[k]);
      assert all[..k + 1] == all[..k] + [all[k]];
      Appended(body, WEBP, all[..k], all[k]);
      body := body + all[k].id + Le(|all[k].data|, 4) + all[k].data;
      if |all[k].data| % 2 == 1 {
        body := body + [0];
      } else {
        assert body + [] == body;
      }
    }
    assert all[..|all|] == all;
  }

  /** WithMetadata. */
  method WithMetadata(file: Bytes, payload: Bytes) returns (outcome: Outcome)
    ensures outcome == Metadata(file, payload)
  {
    if !IsWebP(file) {
      return NotWebP;
    }
    var chunks := RiffChunks(file[12..]);
    if chunks == None {
      return Truncated;
    }
    var kept := KeepChunks(chunks.value);
    if |kept| == 0 {
      return NoImage;
    }
    var rest := kept;
    var header := kept[0];
    if kept[0].id != VP8X {
      var made := ExtendedHeader(kept[0]);
      if made.Unusable? {
        return BadHeader;
      }
      header := made.chunk;
    } else {
      rest := kept[1..];
    }
    if |header.data| == 0 {
      return EmptyHeader;
    }
    var flagged := Chunk(VP8X, [WithExifBit(header.data[0])] + header.data[1..]);
    var all := [flagged] + rest + [Chunk(EXIF, ExifData(payload))];
    var body := WriteChunks(all);
    return Done(RIFF + Le(|body|, 4) + body);
  }

  lemma {:induction false} PrintedOneMore(chunks: seq<Chunk>, c: Chunk)
    ensures PrintedAll(chunks + [c]) == PrintedAll(chunks) + Printed(c)
  {
    if chunks == [] {
      assert chunks + [c] == [c] && [c][1..] == [];
    } else {
      PrintedOneMore(chunks[1..], c);
      assert (chunks + [c])[1..] == chunks[1..] + [c];
    }
  }

  // ---- What the written file is ------------------------------------------------------------

  lemma FileParts(chunks: seq<Chunk>)
    ensures var f := File(chunks);
            && IsWebP(f) && f[12..] == PrintedAll(chunks) && |f| == 12 + |PrintedAll(chunks)|
            && f[4..8] == Le(|f| - 8, 4)
  {
    var body := WEBP + PrintedAll(chunks);
    var len := Le(|body|, 4);
    Middle(RIFF, len, body);
    var f := File(chunks);
    assert f == (RIFF + len) + WEBP + PrintedAll(chunks);
    Middle(RIFF + len, WEBP, PrintedAll(chunks));
  }

  /** The size field counts what follows it. */
  lemma SizeFieldIsExact(chunks: seq<Chunk>)
    requires |PrintedAll(chunks)| + 4 < U32
    ensures FromLe(File(chunks)[4..8]) == |File(chunks)| - 8
  {
    hide Le, FromLe, Pow256, PrintedAll, File;
    FileParts(chunks);
    LeReadsBack(|File(chunks)| - 8, 4);
    Widths();
  }

  lemma {:induction false} KeptSplits(a: seq<Chunk>, b: seq<Chunk>)
    ensures Kept(a + b) == Kept(a) + Kept(b)
  {
    if b == [] {
      assert a + b == a && Kept(a) + [] == Kept(a);
    } else {
      var n := |b| - 1;
      assert (a + b)[..|a + b| - 1] == a + b[..n];
      KeptSplits(a, b[..n]);
    }
  }

  lemma {:induction false} KeptAll(chunks: seq<Chunk>)
    requires forall c | c in chunks :: c.id != EXIF
    ensures Kept(chunks) == chunks
  {
    if chunks != [] {
      var n := |chunks| - 1;
      KeptAll(chunks[..n]);
      assert chunks == chunks[..n] + [chunks[n]];
    }
  }

  lemma ExtendedShape(kept: seq<Chunk>)
    requires Extended(kept).Chunks? && (forall c | c in kept :: Storable(c) && c.id != EXIF)
    ensures var e := Extended(kept).chunks;
            && (forall c | c in e :: Storable(c) && c.id != EXIF)
            && e[0].id == VP8X && e[0].data != [] && (e[0].data[0] / 8) % 2 == 1
            && (if kept[0].id == VP8X then e[1..] == kept[1..] && e[0].data[1..] == kept[0].data[1..] && |e[0].data| == |kept[0].data|
                else e[1..] == kept)
  {
    if kept[0].id == VP8X {
      assert kept[0] in kept;
    }
  }

  /** Setting the bit again changes nothing. */
  lemma ExtendedTwice(e: seq<Chunk>)
    requires e != [] && e[0].id == VP8X && e[0].data != [] && (e[0].data[0] / 8) % 2 == 1
    ensures Extended(e) == Chunks(e)
  {
    assert [e[0].data[0]] + e[0].data[1..] == e[0].data;
    assert [e[0]] + e[1..] == e;
  }

  /** Reading the written file gives the chunks that were not EXIF, in order, behind a VP8X chunk
      that was there (with its EXIF bit set and nothing else changed) or was added first,
      followed by the one new EXIF chunk. */
  lemma WrittenIsReadBack(file: Bytes, payload: Bytes)
    requires Metadata(file, payload).Done? && |payload| + 22 < U32
    ensures var out := Metadata(file, payload).file;
            var kept := Kept(Parsed(file[12..]).value);
            && IsWebP(out) && kept != [] && Extended(kept).Chunks?
            && Parsed(out[12..]) == Some(Extended(kept).chunks + [Chunk(EXIF, ExifData(payload))])
            && Kept(Parsed(out[12..]).value) == Extended(kept).chunks
            && var e := Extended(kept).chunks;
            && e[0].id == VP8X && e[0].data != [] && (e[0].data[0] / 8) % 2 == 1
            && (if kept[0].id == VP8X then e[1..] == kept[1..] && e[0].data[1..] == kept[0].data[1..] else e[1..] == kept)
  {
    var chunks := Parsed(file[12..]).value;
    ParsedIsStorable(file[12..]);
    var kept := Kept(chunks);
    ExtendedShape(kept);
    var e := Extended(kept).chunks;
    var exif := Chunk(EXIF, ExifData(payload));
    assert |exif.data| == 22 + |payload|;
    hide Extended, Parsed, Kept, ExifData, Printed;
    FileParts(e + [exif]);
    PrintedIsParsed(e + [exif]);
    KeptWithExif(e, exif);
  }

  lemma KeptWithExif(e: seq<Chunk>, exif: Chunk)
    requires exif.id == EXIF && forall c | c in e :: c.id != EXIF
    ensures Kept(e + [exif]) == e
  {
    KeptSplits(e, [exif]);
    KeptAll(e);
    assert [exif][..0] == [] && e + [] == e;
  }

  /** Writing the same metadata again gives the same file. */
  lemma RepeatingIsIdentity(file: Bytes, payload: Bytes)
    requires Metadata(file, payload).Done? && |payload| + 22 < U32
    ensures Metadata(Metadata(file, payload).file, payload) == Metadata(file, payload)
  {
    WrittenIsReadBack(file, payload);
    ExtendedTwice(Extended(Kept(Parsed(file[12..]).value)).chunks);
  }

  // ---- Reading the size back --------------------------------------------------------------

  datatype Canvas = Canvas(width: nat, height: nat, frames: nat)

  /** What checkDecodedSize reads from the chunks: the last usable VP8X, and the frames. */
  function Read(chunks: seq<Chunk>): Canvas {
    if chunks == [] then Canvas(0, 0, 0)
    else
      var before, c := Read(chunks[..|chunks| - 1]), chunks[|chunks| - 1];
      if c.id == VP8X && |c.data| >= 10 then before.(width := FromLe(c.data[4..7]) + 1, height := FromLe(c.data[7..10]) + 1)
      else if c.id == ANMF then before.(frames := before.frames + 1)
      else before
  }

  const MAX_STILL_PIXELS := 25 * 0x10_0000
  const MAX_ANIMATION_PIXELS := 32 * 0x10_0000
  const MAX_SOURCE_FRAMES := 1000

  datatype Verdict = Fits | TooLarge | Unsupported

  function Judged(canvas: Canvas): Verdict {
    var pixels, frames := canvas.width * canvas.height, if canvas.frames > 1 then canvas.frames else 1;
    if pixels > MAX_STILL_PIXELS || frames > MAX_SOURCE_FRAMES || (frames > 1 && pixels * frames > MAX_ANIMATION_PIXELS) then TooLarge else Fits
  }

  /** checkDecodedSize for a WebP file; `decoded` is the size another decoder finds, if it can. */
  method CheckDecodedSize(file: Bytes, decoded: Option<(nat, nat)>) returns (verdict: Verdict)
    requires IsWebP(file)
    ensures verdict ==
            match Parsed(file[12..])
            case None => Unsupported
            case Some(chunks) =>
              var canvas := Read(chunks);
              if canvas.width != 0 then Judged(canvas)
              else if decoded == None then Fits
              else Judged(canvas.(width := decoded.value.0, height := decoded.value.1))
  {
    var chunks := RiffChunks(file[12..]);
    if chunks == None {
      return Unsupported;
    }
    var width: nat, height: nat, frames: nat := 0, 0, 0;
    for k := 0 to |chunks.value|
      invariant Canvas(width, height, frames) == Read(chunks.value[..k])
    {
      var c := chunks.value[k];
      assert chunks.value[..k + 1][..k] == chunks.value[..k];
      if c.id == VP8X {
        if |c.data| >= 10 {
          width := FromLe(c.data[4..7]) + 1;
          height := FromLe(c.data[7..10]) + 1;
        }
      } else if c.id == ANMF {
        frames := frames + 1;
      }
    }
    assert chunks.value[..|chunks.value|] == chunks.value;
    if width == 0 {
      if decoded == None {
        return Fits;
      }
      width, height := decoded.value.0, decoded.value.1;
    }
    return Judged(Canvas(width, height, frames));
  }

  lemma SizeReadsBack(size: nat)
    ensures size < U24 ==> FromLe(SizeBytes(size)) + 1 == if size == 0 then U24 else size
  {
    hide Le, FromLe, Pow256;
    LeReadsBack((size + U24 - 1) % U24, 3);
    Widths();
  }

  lemma HeaderParts(alpha: bool, width: nat, height: nat)
    ensures var d := HeaderData(alpha, width, height);
            |d| == 10 && d[4..7] == SizeBytes(width) && d[7..10] == SizeBytes(height)
  {
  }

  lemma DeclaredBounds(image: Chunk)
    ensures Declared(image).Some? ==> Declared(image).value.0 <= 0x4000 && Declared(image).value.1 <= 0x4000
    ensures Declared(image).Some? && image.id == VP8L ==> Declared(image).value.0 > 0 && Declared(image).value.1 > 0
  {
  }

  /** The size written into the new header is read back as the image declared it, except that a
      lossy image's size of zero comes back as the largest there is. */
  lemma HeaderSizeReadsBack(image: Chunk)
    requires ExtendedHeader(image).Header?
    ensures Declared(image).Some?
    ensures var c := ExtendedHeader(image).chunk;
            var (width, height) := Declared(image).value;
            && c.id == VP8X && |c.data| >= 10
            && FromLe(c.data[4..7]) + 1 == (if width == 0 then U24 else width)
            && FromLe(c.data[7..10]) + 1 == (if height == 0 then U24 else height)
            && (image.id == VP8L ==> width > 0 && height > 0)
  {
    DeclaredBounds(image);
    var (width, height) := Declared(image).value;
    SizeReadsBack(width);
    SizeReadsBack(height);
    HeaderParts(false, width, height);
    HeaderParts(true, width, height);
    hide HeaderData, SizeBytes, FromLe;
  }

  predicate Usable(c: Chunk) {
    c.id == VP8X && |c.data| >= 10
  }

  function SizeIn(c: Chunk): (nat, nat)
    requires Usable(c)
  {
    (FromLe(c.data[4..7]) + 1, FromLe(c.data[7..10]) + 1)
  }

  /** The size in the last usable VP8X chunk. */
  function LastSize(chunks: seq<Chunk>): Option<(nat, nat)> {
    if chunks == [] then None
    else if Usable(chunks[|chunks| - 1]) then Some(SizeIn(chunks[|chunks| - 1]))
    else LastSize(chunks[..|chunks| - 1])
  }

  lemma {:induction false} ReadIsLastSize(chunks: seq<Chunk>)
    ensures (Read(chunks).width, Read(chunks).height) == if LastSize(chunks).Some? then LastSize(chunks).value else (0, 0)
  {
    hide FromLe;
    if chunks != [] {
      ReadIsLastSize(chunks[..|chunks| - 1]);
    }
  }

  lemma {:induction false} LastSizeAfter(header: Chunk, rest: seq<Chunk>)
    requires Usable(header)
    ensures LastSize([header] + rest) == if LastSize(rest).Some? then LastSize(rest) else Some(SizeIn(header))
  {
    hide FromLe;
    var all := [header] + rest;
    if rest == [] {
      assert all[..0] == [];
    } else {
      var n := |rest| - 1;
      assert all[..|all| - 1] == [header] + rest[..n] && all[|all| - 1] == rest[n];
      LastSizeAfter(header, rest[..n]);
    }
  }

  lemma HeaderComesFirst(kept: seq<Chunk>)
    requires kept != [] && kept[0].id != VP8X && Extended(kept).Chunks?
    ensures Declared(kept[0]).Some?
    ensures var e, (width, height) := Extended(kept).chunks, Declared(kept[0]).value;
            && e != [] && e == [e[0]] + kept && Usable(e[0])
            && SizeIn(e[0]) == (if width == 0 then U24 else width, if height == 0 then U24 else height)
  {
    HeaderSizeReadsBack(kept[0]);
    var header := ExtendedHeader(kept[0]).chunk;
    var flagged := Extended(kept).chunks[0];
    hide ExtendedHeader, Declared, FromLe;
    assert flagged.data[4..7] == header.data[4..7] && flagged.data[7..10] == header.data[7..10];
  }

  lemma DoneMeansParsed(file: Bytes, payload: Bytes)
    requires Metadata(file, payload).Done?
    ensures |file| >= 12 && Parsed(file[12..]).Some? && Kept(Parsed(file[12..]).value) != []
  {
    hide Parsed, Kept;
  }

  /** What a simple image is measured at once it has its metadata: the size a later header chunk
      gives, if there is a usable one, and otherwise the size it declared, where a zero has
      become the largest size there is. */
  lemma MeasuredSize(file: Bytes, payload: Bytes)
    requires Metadata(file, payload).Done? && |payload| + 22 < U32 && Kept(Parsed(file[12..]).value)[0].id != VP8X
    ensures var out, kept := Metadata(file, payload).file, Kept(Parsed(file[12..]).value);
            && Declared(kept[0]).Some? && Parsed(out[12..]).Some?
            && var (canvas, (width, height)) := (Read(Parsed(out[12..]).value), Declared(kept[0]).value);
               (canvas.width, canvas.height) == if LastSize(kept).Some? then LastSize(kept).value
                                                else (if width == 0 then U24 else width, if height == 0 then U24 else height)
  {
    hide Parsed, Kept, Extended, Declared, Metadata, Read, FromLe, ExifData, ExtendedHeader;
    DoneMeansParsed(file, payload);
    var kept := Kept(Parsed(file[12..]).value);
    var exif := Chunk(EXIF, ExifData(payload));
    WrittenIsReadBack(file, payload);
    HeaderComesFirst(kept);
    var e := Extended(kept).chunks;
    assert e + [exif] == [e[0]] + (kept + [exif]);
    assert EXIF[0] != VP8X[0] && (kept + [exif])[..|kept|] == kept;
    ReadIsLastSize(e + [exif]);
    LastSizeAfter(e[0], kept + [exif]);
  }

  /** A simple image that gets its metadata is measured at exactly the size it declared, if and
      only if no later header chunk says otherwise and neither side was declared as zero. */
  lemma MeasuredAsDeclared(file: Bytes, payload: Bytes)
    requires Metadata(file, payload).Done? && |payload| + 22 < U32 && Kept(Parsed(file[12..]).value)[0].id != VP8X
    ensures var out, kept := Metadata(file, payload).file, Kept(Parsed(file[12..]).value);
            && Declared(kept[0]).Some? && Parsed(out[12..]).Some?
            && var canvas, declared := Read(Parsed(out[12..]).value), Declared(kept[0]).value;
               (canvas.width, canvas.height) == declared <==>
                 if LastSize(kept).Some? then LastSize(kept).value == declared else declared.0 > 0 && declared.1 > 0
  {
    hide Parsed, Kept, Extended, Metadata, Read, FromLe, LastSize;
    DoneMeansParsed(file, payload);
    MeasuredSize(file, payload);
    DeclaredBounds(Kept(Parsed(file[12..]).value)[0]);
    hide Declared;
  }

  /** The shortest file whose header the program indexes past the end of. */
  lemma EmptyHeaderFile(payload: Bytes)
    ensures var file := RIFF + [12, 0, 0, 0] + WEBP + VP8X + [0, 0, 0, 0];
            file == File([Chunk(VP8X, [])]) && Metadata(file, payload) == EmptyHeader
  {
    hide Parsed, Kept, Metadata, File;
    var empty := Chunk(VP8X, []);
    FileOfEmptyHeader();
    FileParts([empty]);
    PrintedIsParsed([empty]);
    KeptAll([empty]);
    EmptyHeaderExactly(File([empty]), payload);
  }

  lemma FileOfEmptyHeader()
    ensures File([Chunk(VP8X, [])]) == RIFF + [12, 0, 0, 0] + WEBP + VP8X + [0, 0, 0, 0]
  {
    var empty := Chunk(VP8X, []);
    assert Le(0, 4) == [0, 0, 0, 0] && Le(12, 4) == [12, 0, 0, 0];
    assert Printed(empty) == VP8X + [0, 0, 0, 0] && PrintedAll([empty]) == Printed(empty) + [];
    assert |WEBP + PrintedAll([empty])| == 12;
  }

  /** A lossy image that declares no width and no height. */
  const NO_SIZE: Chunk := Chunk(VP8, [0, 0, 0, 0x9d, 0x01, 0x2a, 0, 0, 0, 0])

  lemma ZeroSizeHeader()
    ensures Declared(NO_SIZE) == Some((0, 0))
    ensures ExtendedHeader(NO_SIZE) == Header(Chunk(VP8X, [0, 0, 0, 0, 255, 255, 255, 255, 255, 255]))
  {
    assert NO_SIZE.data[3..6] == [0x9d, 0x01, 0x2a] && NO_SIZE.data[6..8] == [0, 0] && NO_SIZE.data[8..10] == [0, 0];
    assert [0, 0][1..] == [0] && [0][1..] == [];
    assert FromLe([0]) == 0 && FromLe([0, 0]) == 0;
    assert Le(0xFF, 1) == [255] && Le(0xFFFF, 2) == [255, 255] && Le(0xFFFFFF, 3) == [255, 255, 255];
    assert SizeBytes(0) == [255, 255, 255];
  }

  /** As a file: it gets its metadata, and the header says it is as large as can be. */
  lemma ZeroSizeIsMeasuredLargest(payload: Bytes)
    requires |payload| + 22 < U32
    ensures var out := Metadata(File([NO_SIZE]), payload);
            && out.Done? && Parsed(out.file[12..]).Some?
            && var canvas := Read(Parsed(out.file[12..]).value); (canvas.width, canvas.height) == (U24, U24)
  {
    FileParts([NO_SIZE]);
    PrintedIsParsed([NO_SIZE]);
    KeptAll([NO_SIZE]);
    ZeroSizeHeader();
    var file := File([NO_SIZE]);
    assert [NO_SIZE][..0] == [] && LastSize([NO_SIZE]) == None by {
      assert VP8[3] != VP8X[3];
    }
    hide Parsed, Kept, File, FromLe, ExifData, Le, Declared, ExtendedHeader;
    assert Metadata(file, payload).Done?;
    hide Metadata, Read;
    MeasuredSize(file, payload);
  }
}
