/** A log file as a byte sequence: positioned writes, truncation, the 8-byte header, the blocks behind it. */
module Disk {
  import opened Bytes
  import opened Blocks

  const HEADER_BYTES := 8

  /** File.WriteAt: a write behind the end fills the gap with zeros. */
  function WriteAt(f: seq<byte>, off: nat, b: seq<byte>): (r: seq<byte>)
    ensures |r| == if off + |b| > |f| then off + |b| else |f|
  {
    var g := if |f| < off + |b| then f + Zeros(off + |b| - |f|) else f;
    g[..off] + b + g[off + |b|..]
  }

  function Truncate(f: seq<byte>, n: nat): (r: seq<byte>)
    ensures |r| == n
  {
    if |f| >= n then f[..n] else f + Zeros(n - |f|)
  }

  /** readUint32: a short read counts as zero. */
  function ReadUint32(f: seq<byte>, off: nat): (v: uint32) {
    if off + 4 > |f| then 0
    else
      Pow256Widths();
      PutGet(f[off..off + 4]);
      GetLE(f[off..off + 4])
  }

  /** writeUint32 of a Go int: the value goes through uint32. */
  function WriteUint32(f: seq<byte>, v: nat, off: nat): seq<byte> {
    WriteAt(f, off, PutLE(v % 0x1_0000_0000, 4))
  }

  lemma WriteAtPuts(f: seq<byte>, off: nat, b: seq<byte>)
    ensures WriteAt(f, off, b)[off..off + |b|] == b
  {
  }

  lemma WriteAtKeeps(f: seq<byte>, off: nat, b: seq<byte>, lo: nat, hi: nat)
    requires lo <= hi <= |f| && (hi <= off || off + |b| <= lo)
    ensures WriteAt(f, off, b)[lo..hi] == f[lo..hi]
  {
  }

  lemma GapIsZero(off: nat, b: seq<byte>, i: nat)
    requires i + 4 <= off
    ensures WriteAt([], off, b)[i..i + 4] == Zeros(4)
  {
    var g := WriteAt([], off, b);
    assert g == [] + Zeros(off) + b;
  }

  lemma ZeroBytes()
    ensures GetLE(Zeros(4)) == 0
  {
    assert Zeros(4) == [0, 0, 0, 0];
  }

  /** The file was never written, or at least its header is there. */
  predicate Shaped(f: seq<byte>) {
    f == [] || |f| >= HEADER_BYTES
  }

  lemma HeaderWrite(f: seq<byte>, v: nat, off: nat)
    requires Shaped(f) && off in {0, 4}
    ensures var g := WriteUint32(f, v, off);
            && ReadUint32(g, off) == v % 0x1_0000_0000
            && ReadUint32(g, 4 - off) == ReadUint32(f, 4 - off)
  {
    var b := PutLE(v % 0x1_0000_0000, 4);
    var g := WriteUint32(f, v, off);
    WriteAtPuts(f, off, b);
    Pow256Widths();
    GetPut(v % 0x1_0000_0000, 4);
    if f == [] {
      if off == 4 {
        GapIsZero(off, b, 0);
        ZeroBytes();
      }
    } else {
      WriteAtKeeps(f, off, b, 4 - off, 8 - off);
    }
  }

  /** Block i starts 8 + i * 4096 bytes into the file. */
  function BlockAt(f: seq<byte>, i: nat): (b: seq<byte>)
    requires HEADER_BYTES + (i + 1) * BLOCK_SIZE <= |f|
    ensures |b| == BLOCK_SIZE
  {
    f[HEADER_BYTES + i * BLOCK_SIZE..HEADER_BYTES + (i + 1) * BLOCK_SIZE]
  }

  /** The file reaches to the end of block w - 1. */
  predicate Reaches(f: seq<byte>, w: nat) {
    w == 0 || HEADER_BYTES + w * BLOCK_SIZE <= |f|
  }

  function FileBlocks(f: seq<byte>, r: nat, w: nat): (bs: seq<seq<byte>>)
    requires r <= w && Reaches(f, w)
    ensures |bs| == w - r && forall k :: 0 <= k < |bs| ==> |bs[k]| == BLOCK_SIZE
    decreases w - r
  {
    if r == w then [] else [BlockAt(f, r)] + FileBlocks(f, r + 1, w)
  }

  lemma {:induction false} FileBlocksSnoc(f: seq<byte>, r: nat, w: nat)
    requires r <= w && Reaches(f, w + 1)
    ensures FileBlocks(f, r, w + 1) == FileBlocks(f, r, w) + [BlockAt(f, w)]
    decreases w - r
  {
    if r < w {
      FileBlocksSnoc(f, r + 1, w);
    }
  }

  lemma {:induction false} FileBlocksKept(f: seq<byte>, g: seq<byte>, r: nat, w: nat)
    requires r <= w && Reaches(f, w) && Reaches(g, w)
    requires forall i :: r <= i < w ==> BlockAt(f, i) == BlockAt(g, i)
    ensures FileBlocks(f, r, w) == FileBlocks(g, r, w)
    decreases w - r
  {
    if r < w {
      FileBlocksKept(f, g, r + 1, w);
    }
  }

  /** A write that stays inside the header leaves every block alone. */
  lemma HeaderWriteKeepsBlocks(f: seq<byte>, v: nat, off: nat, r: nat, w: nat)
    requires off in {0, 4} && r <= w && Reaches(f, w)
    ensures Reaches(WriteUint32(f, v, off), w)
    ensures FileBlocks(WriteUint32(f, v, off), r, w) == FileBlocks(f, r, w)
  {
    var g := WriteUint32(f, v, off);
    forall i | r <= i < w
      ensures BlockAt(f, i) == BlockAt(g, i)
    {
      WriteAtKeeps(f, off, PutLE(v % 0x1_0000_0000, 4), HEADER_BYTES + i * BLOCK_SIZE, HEADER_BYTES + (i + 1) * BLOCK_SIZE);
    }
    FileBlocksKept(f, g, r, w);
  }

  /** Writing block w behind the others adds it to them and leaves the header alone. */
  lemma BlockWrite(f: seq<byte>, b: seq<byte>, r: nat, w: nat)
    requires |b| == BLOCK_SIZE && r <= w && Reaches(f, w) && Shaped(f)
    ensures var g := WriteAt(f, w * BLOCK_SIZE + HEADER_BYTES, b);
            && Reaches(g, w + 1) && Reaches(g, w) && Shaped(g)
            && FileBlocks(g, r, w) == FileBlocks(f, r, w)
            && FileBlocks(g, r, w + 1) == FileBlocks(f, r, w) + [b]
            && ReadUint32(g, 0) == ReadUint32(f, 0) && ReadUint32(g, 4) == ReadUint32(f, 4)
  {
    var off := w * BLOCK_SIZE + HEADER_BYTES;
    var g := WriteAt(f, off, b);
    forall i | r <= i < w
      ensures BlockAt(f, i) == BlockAt(g, i)
    {
      WriteAtKeeps(f, off, b, HEADER_BYTES + i * BLOCK_SIZE, HEADER_BYTES + (i + 1) * BLOCK_SIZE);
    }
    FileBlocksKept(f, g, r, w);
    WriteAtPuts(f, off, b);
    FileBlocksSnoc(g, r, w);
    if f == [] {
      GapIsZero(off, b, 0);
      GapIsZero(off, b, 4);
      ZeroBytes();
    } else {
      WriteAtKeeps(f, off, b, 0, 4);
      WriteAtKeeps(f, off, b, 4, 8);
    }
  }
}
