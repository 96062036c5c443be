// Counting the frames of a GIF without decoding it (internal/sticker/limits.go), against the
// block structure of a GIF stream.
module GifFrames {
  import opened Prelude

  const EXTENSION: Byte := 0x21
  const IMAGE: Byte := 0x2C

  function Doubled(n: nat): nat {
    if n == 0 then 1 else 2 * Doubled(n - 1)
  }

  /** The size of the color table that the packed flags announce. */
  function TableSize(flags: Byte): nat {
    if flags >= 0x80 then 3 * Doubled((flags % 8) as nat + 1) else 0
  }

  // ---- The walk ----------------------------------------------------------------------------

  /** Where the chain of sub-blocks that starts at p ends; none if the data ends first. */
  function ChainEnd(data: Bytes, p: nat): (r: Option<nat>)
    ensures r.Some? ==> p < r.value <= |data|
    decreases |data| - p
  {
    if p >= |data| then None
    else if data[p] == 0 then Some(p + 1)
    else ChainEnd(data, p + 1 + data[p] as nat)
  }

  /** The image descriptors met from position p on. */
  function FramesFrom(data: Bytes, p: nat): nat
    decreases |data| - p
  {
    if p >= |data| then 0
    else if data[p] == EXTENSION then FramesBehind(data, p, ChainEnd(data, p + 2))
    else if data[p] == IMAGE && p + 10 <= |data| then
      1 + FramesBehind(data, p, ChainEnd(data, p + 10 + TableSize(data[p + 9]) + 1))
    else 0
  }

  function FramesBehind(data: Bytes, p: nat, end: Option<nat>): nat
    requires end.Some? ==> p < end.value <= |data|
    decreases |data| - p, 0
  {
    if end.Some? then FramesFrom(data, end.value) else 0
  }

  function Frames(data: Bytes): nat {
    if |data| < 13 then 0 else FramesFrom(data, 13 + TableSize(data[10]))
  }

  /** skipSubBlocks. */
  method SkipSubBlocks(data: Bytes, start: nat) returns (ended: bool, position: nat)
    ensures ended == ChainEnd(data, start).Some?
    ensures ended ==> position == ChainEnd(data, start).value
  {
    position := start;
    while position < |data|
      invariant ChainEnd(data, position) == ChainEnd(data, start)
      decreases |data| - position
    {
      var size := data[position] as nat;
      position := position + 1;
      if size == 0 {
        return true, position;
      }
      position := position + size;
    }
    return false, position;
  }

  /** countGIFFrames. */
  method CountGIFFrames(data: Bytes) returns (frames: nat)
    ensures frames == Frames(data)
  {
    if |data| < 13 {
      return 0;
    }
    var position := 13 + TableSize(data[10]);
    frames := 0;
    while position < |data|
      invariant frames + FramesFrom(data, position) == Frames(data)
      decreases |data| - position
    {
      var ended;
      if data[position] == EXTENSION {
        ended, position := SkipSubBlocks(data, position + 2);
        if !ended {
          return;
        }
      } else if data[position] == IMAGE {
        if position + 10 > |data| {
          return;
        }
        frames := frames + 1;
        var flags := data[position + 9];
        ended, position := SkipSubBlocks(data, position + 10 + TableSize(flags) + 1);
        if !ended {
          return;
        }
      } else {
        return;
      }
    }
  }

  // ---- Well-formed streams -------------------------------------------------------------------

  /** A block of a GIF stream: its data comes in parts of 1 to 255 bytes. */
  datatype Block =
    | Extension(name: Byte, parts: seq<Bytes>)
    | Image(place: Bytes, flags: Byte, table: Bytes, codeSize: Byte, parts: seq<Bytes>)

  predicate PartsOk(parts: seq<Bytes>) {
    forall p | p in parts :: 0 < |p| < 256
  }

  predicate BlockOk(block: Block) {
    PartsOk(block.parts) && (block.Image? ==> |block.place| == 8 && |block.table| == TableSize(block.flags))
  }

  function PrintParts(parts: seq<Bytes>): Bytes
    requires PartsOk(parts)
  {
    if parts == [] then [0] else [|parts[0]| as Byte] + parts[0] + PrintParts(parts[1..])
  }

  /** What stands before the parts. */
  function PrintFront(block: Block): Bytes {
    match block
    case Extension(name, _) => [EXTENSION, name]
    case Image(place, flags, table, codeSize, _) => [IMAGE] + place + [flags] + table + [codeSize]
  }

  predicate AllOk(blocks: seq<Block>) {
    forall k | 0 <= k < |blocks| :: BlockOk(blocks[k])
  }

  function Print(blocks: seq<Block>): Bytes
    requires AllOk(blocks)
  {
    if blocks == [] then [] else PrintFront(blocks[0]) + PrintParts(blocks[0].parts) + Print(blocks[1..])
  }

  function Images(blocks: seq<Block>): nat {
    if blocks == [] then 0 else (if blocks[0].Image? then 1 else 0) + Images(blocks[1..])
  }

  lemma {:induction false} PartsEnd(before: Bytes, parts: seq<Bytes>, after: Bytes)
    requires PartsOk(parts)
    ensures ChainEnd(before + PrintParts(parts) + after, |before|) == Some(|before| + |PrintParts(parts)|)
    decreases |parts|
  {
    var data := before + PrintParts(parts) + after;
    if parts != [] {
      var front := before + ([|parts[0]| as Byte] + parts[0]);
      assert front + PrintParts(parts[1..]) + after == data;
      assert data[|before|] == |parts[0]| as Byte;
      PartsEnd(front, parts[1..], after);
    }
  }

  lemma FrontIsRead(before: Bytes, block: Block, rest: Bytes)
    requires BlockOk(block)
    ensures var data, p, front := before + PrintFront(block) + rest, |before|, |PrintFront(block)|;
            if block.Image? then front == 10 + TableSize(block.flags) + 1 && p + front <= |data| && data[p] == IMAGE && data[p + 9] == block.flags
            else front == 2 && p + front <= |data| && data[p] == EXTENSION
  {
    hide TableSize;
    var data, front := before + PrintFront(block) + rest, PrintFront(block);
    assert forall k | 0 <= k < |front| :: data[|before| + k] == front[k];
    assert block.Image? ==> front[0] == IMAGE && front[9] == block.flags;
  }

  lemma ImageStep(data: Bytes, p: nat, end: nat)
    requires p + 10 <= |data| && data[p] == IMAGE && ChainEnd(data, p + 10 + TableSize(data[p + 9]) + 1) == Some(end)
    ensures FramesFrom(data, p) == 1 + FramesFrom(data, end)
  {
    hide ChainEnd, TableSize;
  }

  lemma ExtensionStep(data: Bytes, p: nat, end: nat)
    requires p < |data| && data[p] == EXTENSION && ChainEnd(data, p + 2) == Some(end)
    ensures FramesFrom(data, p) == FramesFrom(data, end)
  {
    hide ChainEnd;
  }

  lemma BlockIsWalked(before: Bytes, block: Block, after: Bytes)
    requires BlockOk(block)
    ensures var front := before + PrintFront(block);
            var data := front + PrintParts(block.parts) + after;
            FramesFrom(data, |before|) == (if block.Image? then 1 else 0) + FramesFrom(data, |front| + |PrintParts(block.parts)|)
  {
    hide ChainEnd, TableSize, PrintParts, PrintFront, FramesFrom;
    var front, parts := before + PrintFront(block), PrintParts(block.parts);
    var data := front + parts + after;
    assert data == front + (parts + after);
    PartsEnd(front, block.parts, after);
    FrontIsRead(before, block, parts + after);
    if block.Image? {
      ImageStep(data, |before|, |front| + |parts|);
    } else {
      ExtensionStep(data, |before|, |front| + |parts|);
    }
  }

  lemma TailEndsWalk(before: Bytes, tail: Bytes)
    requires tail != [] ==> tail[0] != EXTENSION && tail[0] != IMAGE
    ensures FramesFrom(before + tail, |before|) == 0
  {
    assert tail != [] ==> (before + tail)[|before|] == tail[0];
  }

  lemma {:induction false} BlocksAreWalked(before: Bytes, blocks: seq<Block>, tail: Bytes)
    requires AllOk(blocks)
    requires tail != [] ==> tail[0] != EXTENSION && tail[0] != IMAGE
    ensures FramesFrom(before + Print(blocks) + tail, |before|) == Images(blocks)
    decreases |blocks|
  {
    hide FramesFrom, PrintParts, PrintFront;
    var data := before + Print(blocks) + tail;
    if blocks == [] {
      assert data == before + tail;
      TailEndsWalk(before, tail);
    } else {
      var rest := Print(blocks[1..]) + tail;
      BlockIsWalked(before, blocks[0], rest);
      var next := before + PrintFront(blocks[0]) + PrintParts(blocks[0].parts);
      BlocksAreWalked(next, blocks[1..], tail);
      SamePieces(before, PrintFront(blocks[0]), PrintParts(blocks[0].parts), Print(blocks[1..]), tail);
    }
  }

  lemma SamePieces(a: Bytes, b: Bytes, c: Bytes, d: Bytes, e: Bytes)
    ensures a + (b + c + d) + e == a + b + c + (d + e) == a + b + c + d + e
  {
  }

  /** A well-formed stream, with anything behind its trailer, is counted exactly: one frame for
      every image, whatever its color tables, extensions and image data contain. */
  lemma EveryImageIsCounted(header: Bytes, table: Bytes, blocks: seq<Block>, tail: Bytes)
    requires |header| == 13 && |table| == TableSize(header[10]) && AllOk(blocks)
    requires tail != [] ==> tail[0] != EXTENSION && tail[0] != IMAGE
    ensures Frames(header + table + Print(blocks) + tail) == Images(blocks)
  {
    var data := header + table + Print(blocks) + tail;
    assert data[10] == header[10];
    BlocksAreWalked(header + table, blocks, tail);
  }

  // ---- Malformed streams -----------------------------------------------------------------------

  lemma {:induction false} ChainOfPrefix(data: Bytes, n: nat, p: nat)
    requires n <= |data| && ChainEnd(data[..n], p).Some?
    ensures ChainEnd(data, p) == ChainEnd(data[..n], p)
    decreases |data| - p
  {
    if data[p] != 0 {
      ChainOfPrefix(data, n, p + 1 + data[p] as nat);
    }
  }

  lemma {:induction false} PrefixWalk(data: Bytes, n: nat, p: nat)
    requires n <= |data|
    ensures FramesFrom(data[..n], p) <= FramesFrom(data, p)
    decreases |data| - p
  {
    if p < n && (data[p] == EXTENSION || (data[p] == IMAGE && p + 10 <= n)) {
      var from := if data[p] == EXTENSION then p + 2 else p + 10 + TableSize(data[p + 9]) + 1;
      if ChainEnd(data[..n], from).Some? {
        ChainOfPrefix(data, n, from);
        PrefixWalk(data, n, ChainEnd(data, from).value);
      }
    }
  }

  /** Whatever the data, cutting it off never adds a frame, so a truncated file is not refused
      for frames the whole file would not be refused for. */
  lemma TruncationAddsNoFrames(data: Bytes, n: nat)
    requires n <= |data|
    ensures Frames(data[..n]) <= Frames(data)
  {
    if n >= 13 {
      PrefixWalk(data, n, 13 + TableSize(data[10]));
    }
  }
}
