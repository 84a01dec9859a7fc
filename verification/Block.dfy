/** The 4 KiB record block: uint16 packing, in-place writes and destructive reads (filelog/filelog.go). */
module Blocks {
  import opened Bytes

  const BLOCK_SIZE := 4096
  const MODE_READ: byte := 1
  const MODE_WRITE: byte := 2
  /** The longest record an empty block accepts. */
  const MAX_RECORD := 4092

  // ---------------------------------------------------------- slices of bytes

  lemma SliceOfSlice(b: seq<byte>, lo: nat, hi: nat, i: nat, j: nat)
    requires lo <= hi <= |b| && i <= j <= hi - lo
    ensures b[lo..hi][i..j] == b[lo + i..lo + j]
  {
    var s, t := b[lo..hi][i..j], b[lo + i..lo + j];
    assert |s| == |t|;
    forall k | 0 <= k < |s|
      ensures s[k] == t[k]
    {
      assert s[k] == b[lo..hi][i + k] == b[lo + i + k];
    }
  }

  lemma ThreeParts(x: seq<byte>, y: seq<byte>, z: seq<byte>)
    ensures var p := x + (y + z);
            p[..|x|] == x && p[|x|..|x| + |y|] == y && p[|x| + |y|..] == z
  {
  }

  lemma CopyPuts(dst: seq<byte>, off: nat, src: seq<byte>)
    requires off + |src| <= |dst|
    ensures CopyInto(dst, off, src)[off..off + |src|] == src
  {
  }

  lemma CopyKeeps(dst: seq<byte>, off: nat, src: seq<byte>, lo: nat, hi: nat)
    requires off + |src| <= |dst| && lo <= hi <= |dst|
    requires hi <= off || off + |src| <= lo
    ensures CopyInto(dst, off, src)[lo..hi] == dst[lo..hi]
  {
  }

  // ------------------------------------------------------------- packed form

  function Framed(r: seq<byte>): seq<byte> {
    PutLE(|r| % 0x1_0000, 2) + r
  }

  function Pack(rs: seq<seq<byte>>): seq<byte> {
    if rs == [] then [] else Framed(rs[0]) + Pack(rs[1..])
  }

  lemma {:induction false} PackSnoc(rs: seq<seq<byte>>, r: seq<byte>)
    ensures Pack(rs + [r]) == Pack(rs) + Framed(r)
  {
    if rs == [] {
      assert [r][1..] == [] && [] + [r] == [r];
      assert Pack([r]) == Framed(r) + Pack([]);
    } else {
      var t := rs[1..];
      PackSnoc(t, r);
      assert rs + [r] == [rs[0]] + (t + [r]);
      assert Pack([rs[0]] + (t + [r])) == Framed(rs[0]) + Pack(t + [r]);
    }
  }

  /** What a reader of a block sees: the counted records from off on, stopping at a frame that overruns. */
  function Parse(b: seq<byte>, off: nat, n: nat): seq<seq<byte>>
    decreases n
  {
    if n == 0 || off + 2 > |b| then []
    else
      var len := GetLE(b[off..off + 2]);
      if off + 2 + len > |b| then []
      else [b[off + 2..off + 2 + len]] + Parse(b, off + 2 + len, n - 1)
  }

  /** b[off..] starts with the packed records. */
  predicate PackedAt(b: seq<byte>, off: nat, rs: seq<seq<byte>>) {
    && off + |Pack(rs)| <= |b| < 0x1_0000
    && b[off..off + |Pack(rs)|] == Pack(rs)
  }

  /** A slice that is three parts: each part is a slice. */
  lemma CutThree(b: seq<byte>, off: nat, x: seq<byte>, y: seq<byte>, z: seq<byte>)
    requires off + |x| + |y| + |z| <= |b| && b[off..off + |x| + |y| + |z|] == x + (y + z)
    ensures b[off..off + |x|] == x && b[off + |x|..off + |x| + |y|] == y
    ensures b[off + |x| + |y|..off + |x| + |y| + |z|] == z
  {
    var n := |x| + |y| + |z|;
    ThreeParts(x, y, z);
    SliceOfSlice(b, off, off + n, 0, |x|);
    SliceOfSlice(b, off, off + n, |x|, |x| + |y|);
    SliceOfSlice(b, off, off + n, |x| + |y|, n);
  }

  /** The packed form starts with the length of its first record and the record. */
  lemma PackHead(rs: seq<seq<byte>>)
    requires rs != [] && |rs[0]| < 0x1_0000
    ensures Pack(rs) == PutLE(|rs[0]|, 2) + (rs[0] + Pack(rs[1..]))
  {
    hide PutLE;
    AppendAssoc(PutLE(|rs[0]|, 2), rs[0], Pack(rs[1..]));
  }

  lemma FirstFits(b: seq<byte>, off: nat, rs: seq<seq<byte>>)
    requires PackedAt(b, off, rs) && rs != []
    ensures |rs[0]| < 0x1_0000
  {
    hide PutLE;
  }

  lemma PackedAtHead(b: seq<byte>, off: nat, rs: seq<seq<byte>>)
    requires PackedAt(b, off, rs) && rs != []
    ensures var r := rs[0];
            && off + 2 + |r| <= |b|
            && GetLE(b[off..off + 2]) == |r|
            && b[off + 2..off + 2 + |r|] == r
            && PackedAt(b, off + 2 + |r|, rs[1..])
  {
    hide PutLE, GetLE, Pack;
    FirstFits(b, off, rs);
    PackHead(rs);
    CutThree(b, off, PutLE(|rs[0]|, 2), rs[0], Pack(rs[1..]));
    assert |rs[0]| < Pow256(2) by { Pow256Widths(); }
    GetPut(|rs[0]|, 2);
  }

  lemma {:induction false} ParsePacked(b: seq<byte>, off: nat, rs: seq<seq<byte>>)
    requires PackedAt(b, off, rs)
    ensures Parse(b, off, |rs|) == rs
    decreases |rs|
  {
    if rs != [] {
      PackedAtHead(b, off, rs);
      ParsePacked(b, off + 2 + |rs[0]|, rs[1..]);
      assert rs == [rs[0]] + rs[1..];
    }
  }

  lemma {:induction false} PackLength(rs: seq<seq<byte>>)
    ensures |Pack(rs)| >= 2 * |rs|
  {
    if rs != [] { PackLength(rs[1..]); }
  }

  /** A full block holding exactly rs: a record count, the packed records, and don't-care bytes behind them. */
  predicate Sealed(b: seq<byte>, rs: seq<seq<byte>>) {
    && |b| == BLOCK_SIZE
    && |rs| < 0x1_0000
    && b[..2] == PutLE(|rs|, 2)
    && PackedAt(b, 2, rs)
  }

  /** The records a block's bytes denote. */
  function Unpack(b: seq<byte>): seq<seq<byte>>
    requires |b| == BLOCK_SIZE
  {
    Parse(b, 2, GetLE(b[..2]))
  }

  /** The bytes behind the packed records, stale ones from before a reset included, do not matter. */
  lemma UnpackSealed(b: seq<byte>, rs: seq<seq<byte>>)
    requires Sealed(b, rs)
    ensures Unpack(b) == rs
  {
    Pow256Widths();
    GetPut(|rs|, 2);
    ParsePacked(b, 2, rs);
  }

  // ------------------------------------------------------ operations on values

  datatype BlockState = BlockState(buf: seq<byte>, offset: uint16, cap: uint16, length: uint16, mode: byte)

  /** Panic: the source slices its buffer out of range. */
  datatype WriteResult = Written(st: BlockState) | LackOfSpace | WrongMode | Panic

  function Space(st: BlockState): uint16 {
    (st.cap - st.offset) % 0x1_0000
  }

  function HasSpace(st: BlockState, space: uint16): bool {
    Space(st) >= space
  }

  /** Block.write, every uint16 conversion and sum taken modulo 2^16. */
  function WriteRecord(st: BlockState, rec: seq<byte>): WriteResult {
    var blen := |rec| % 0x1_0000;
    if st.mode != MODE_WRITE then WrongMode
    else if Space(st) < (blen + 2) % 0x1_0000 then LackOfSpace
    else if st.offset > |st.buf| || (st.offset + 2) % 0x1_0000 > |st.buf| then Panic
    else Written(AfterWrite(st, rec))
  }

  /** The three copies of a write, each as far as the buffer reaches, and the new cursor and count. */
  function AfterWrite(st: BlockState, rec: seq<byte>): BlockState
    requires st.offset <= |st.buf| && (st.offset + 2) % 0x1_0000 <= |st.buf|
  {
    var blen := |rec| % 0x1_0000;
    var offset1 := (st.offset + 2) % 0x1_0000;
    var length := (st.length + 1) % 0x1_0000;
    var buf := CopyInto(CopyInto(st.buf, st.offset, PutLE(blen, 2)), offset1, rec);
    BlockState(CopyInto(buf, 0, PutLE(length, 2)), (offset1 + blen) % 0x1_0000, st.cap, length, st.mode)
  }

  function Reset(st: BlockState): BlockState {
    st.(offset := 2, length := 0, buf := CopyInto(st.buf, 0, PutLE(0, 2)))
  }

  /** A write-mode block holding exactly the records rs. */
  predicate Holds(st: BlockState, rs: seq<seq<byte>>) {
    && st.mode == MODE_WRITE
    && |st.buf| == st.cap >= 2
    && st.offset == 2 + |Pack(rs)| <= st.cap
    && st.length == |rs|
    && st.buf[..2] == PutLE(|rs|, 2)
    && PackedAt(st.buf, 2, rs)
  }

  lemma HoldsSealed(st: BlockState, rs: seq<seq<byte>>)
    requires Holds(st, rs) && st.cap == BLOCK_SIZE
    ensures Sealed(st.buf, rs)
  {
  }

  lemma HoldsUnique(st: BlockState, rs: seq<seq<byte>>, rs': seq<seq<byte>>)
    requires Holds(st, rs) && Holds(st, rs')
    ensures rs == rs'
  {
    ParsePacked(st.buf, 2, rs);
    ParsePacked(st.buf, 2, rs');
  }

  lemma ResetHolds(st: BlockState)
    requires st.mode == MODE_WRITE && |st.buf| == st.cap >= 2
    ensures Holds(Reset(st), [])
  {
    assert Reset(st).buf[..2] == PutLE(0, 2);
    assert Reset(st).buf[2..2] == [];
  }

  /** The buffer after the three copies of a write of a record that fits. */
  function Stored(buf: seq<byte>, off: nat, rec: seq<byte>, count: nat): (r: seq<byte>)
    requires 2 <= off && off + 2 + |rec| <= |buf|
    ensures |r| == |buf|
  {
    CopyInto(CopyInto(CopyInto(buf, off, PutLE(|rec|, 2)), off + 2, rec), 0, PutLE(count, 2))
  }

  lemma StoredParts(buf: seq<byte>, off: nat, rec: seq<byte>, count: nat)
    requires 2 <= off && off + 2 + |rec| <= |buf|
    ensures var b := Stored(buf, off, rec, count);
            && b[..2] == PutLE(count, 2)
            && b[2..off + 2 + |rec|] == buf[2..off] + (PutLE(|rec|, 2) + rec)
  {
    hide PutLE, CopyInto;
    var n := |rec|;
    var buf1 := CopyInto(buf, off, PutLE(n, 2));
    var buf2 := CopyInto(buf1, off + 2, rec);
    var b := Stored(buf, off, rec, count);
    CopyKeeps(buf, off, PutLE(n, 2), 2, off);
    CopyPuts(buf, off, PutLE(n, 2));
    CopyKeeps(buf1, off + 2, rec, 2, off);
    CopyKeeps(buf1, off + 2, rec, off, off + 2);
    CopyPuts(buf1, off + 2, rec);
    CopyKeeps(buf2, 0, PutLE(count, 2), 2, off + 2 + n);
    CopyPuts(buf2, 0, PutLE(count, 2));
    assert buf2[2..off + 2 + n] == buf2[2..off] + (buf2[off..off + 2] + buf2[off + 2..off + 2 + n]);
  }

  lemma WriteStores(st: BlockState, rec: seq<byte>)
    requires st.mode == MODE_WRITE && |st.buf| == st.cap && 2 <= st.offset <= st.cap
    requires |rec| + 2 <= st.cap - st.offset && st.length < 0xFFFF
    ensures WriteRecord(st, rec)
         == Written(BlockState(Stored(st.buf, st.offset, rec, st.length + 1),
                               st.offset + 2 + |rec|, st.cap, st.length + 1, st.mode))
  {
    hide CopyInto, PutLE;
    var n := |rec|;
    assert n % 0x1_0000 == n && (n + 2) % 0x1_0000 == n + 2;
    assert (st.offset + 2) % 0x1_0000 == st.offset + 2;
    assert (st.offset + 2 + n) % 0x1_0000 == st.offset + 2 + n;
    assert (st.length + 1) % 0x1_0000 == st.length + 1;
    assert Space(st) == st.cap - st.offset;
    assert WriteRecord(st, rec) == Written(AfterWrite(st, rec));
  }

  /** A block whose buffer grew by one frame holds one record more. */
  lemma HoldsOneMore(st: BlockState, rs: seq<seq<byte>>, rec: seq<byte>, st': BlockState)
    requires Holds(st, rs)
    requires |rec| + 2 <= st.cap - st.offset
    requires st'.mode == st.mode && st'.cap == st.cap == |st'.buf|
    requires st'.offset == st.offset + 2 + |rec| && st'.length == |rs| + 1
    requires st'.buf[..2] == PutLE(|rs| + 1, 2)
    requires st'.buf[2..st'.offset] == st.buf[2..st.offset] + (PutLE(|rec|, 2) + rec)
    ensures Holds(st', rs + [rec])
  {
    hide PutLE;
    PackSnoc(rs, rec);
    assert |st'.buf[2..st'.offset]| == st'.offset - 2;
  }

  lemma HoldsFewRecords(st: BlockState, rs: seq<seq<byte>>)
    requires Holds(st, rs)
    ensures st.length < 0xFFFF
  {
    PackLength(rs);
  }

  lemma FittingWrite(st: BlockState, rs: seq<seq<byte>>, rec: seq<byte>)
    requires Holds(st, rs) && |rec| + 2 <= st.cap - st.offset
    ensures WriteRecord(st, rec).Written? && Holds(WriteRecord(st, rec).st, rs + [rec])
  {
    hide AfterWrite, Stored, PutLE;
    HoldsFewRecords(st, rs);
    WriteStores(st, rec);
    StoredParts(st.buf, st.offset, rec, |rs| + 1);
    HoldsOneMore(st, rs, rec, WriteRecord(st, rec).st);
  }

  /** What the guard of a write decides. */
  lemma WriteGuard(st: BlockState, rec: seq<byte>)
    requires st.mode == MODE_WRITE
    ensures WriteRecord(st, rec).LackOfSpace? <==> Space(st) < (|rec| % 0x1_0000 + 2) % 0x1_0000
    ensures !WriteRecord(st, rec).WrongMode?
  {
    hide AfterWrite;
  }

  lemma TooLongToHold(st: BlockState, rs: seq<seq<byte>>, rec: seq<byte>)
    requires |rec| > 65533
    ensures !Holds(st, rs + [rec])
  {
    PackSnoc(rs, rec);
  }

  /** The record is appended intact, or refused (which leaves the block as it was). */
  predicate IntactOrRefused(st: BlockState, rs: seq<seq<byte>>, rec: seq<byte>) {
    var r := WriteRecord(st, rec);
    r.LackOfSpace? || (r.Written? && Holds(r.st, rs + [rec]))
  }

  /**
   * A write keeps its promise exactly when the record is at most 65533 bytes long or the 16-bit sum
   * of its length and two still exceeds the space left; at 65534 that sum wraps to zero.
   */
  lemma WriteIntactOrRefused(st: BlockState, rs: seq<seq<byte>>, rec: seq<byte>)
    requires Holds(st, rs)
    ensures IntactOrRefused(st, rs, rec)
       <==> |rec| <= 65533 || (|rec| % 0x1_0000 + 2) % 0x1_0000 > st.cap - st.offset
  {
    hide AfterWrite, Pack;
    WriteGuard(st, rec);
    assert Space(st) == st.cap - st.offset;
    if |rec| > 65533 {
      if WriteRecord(st, rec).Written? {
        TooLongToHold(WriteRecord(st, rec).st, rs, rec);
      }
    } else if |rec| + 2 <= st.cap - st.offset {
      FittingWrite(st, rs, rec);
    }
  }

  /** The smallest length that breaks the promise, in an empty block: 65534 bytes are neither refused nor stored. */
  lemma WrappedLengthIsNotRefused(st: BlockState)
    requires Holds(st, []) && st.cap == BLOCK_SIZE
    ensures var rec := Zeros(65534);
            && WriteRecord(st, rec).Written?
            && WriteRecord(st, rec).st.offset == 2
            && !Holds(WriteRecord(st, rec).st, [rec])
  {
    var rec := Zeros(65534);
    assert [] + [rec] == [rec];
    WriteIntactOrRefused(st, [], rec);
  }

  /** Up to 65533 bytes, a write succeeds exactly when two length bytes and the record fit. */
  lemma WriteAcceptsIff(st: BlockState, rs: seq<seq<byte>>, rec: seq<byte>)
    requires Holds(st, rs) && |rec| <= 65533
    ensures WriteRecord(st, rec).Written? <==> |rec| + 2 <= st.cap - st.offset
    ensures WriteRecord(st, rec).Written? ==> Holds(WriteRecord(st, rec).st, rs + [rec])
    ensures !WriteRecord(st, rec).Written? ==> WriteRecord(st, rec).LackOfSpace?
  {
    hide AfterWrite, Pack;
    if |rec| + 2 <= st.cap - st.offset {
      FittingWrite(st, rs, rec);
    } else {
      WriteGuard(st, rec);
    }
  }

  /** A block that is not in write mode refuses every write. */
  lemma WriteNeedsMode(st: BlockState, rec: seq<byte>)
    ensures WriteRecord(st, rec).WrongMode? <==> st.mode != MODE_WRITE
  {
    hide AfterWrite;
  }

  // ---------------------------------------------------------------- reading

  datatype ReadResult = Record(bytes: seq<byte>) | BlockEmpty | ReadWrongMode

  /** The bounds the slice expressions of Block.read need. */
  predicate ReadInBounds(st: BlockState) {
    && |st.buf| >= 2
    && (st.mode == MODE_READ && st.offset < st.cap && st.length > 0
        ==> st.offset + 2 <= |st.buf| < 0x1_0000 && st.offset + 2 + GetLE(st.buf[st.offset..st.offset + 2]) < 0x1_0000)
  }

  /** Block.read: a zero-length record advances the offset but keeps the count and reports an empty block. */
  function ReadRecord(st: BlockState): (BlockState, ReadResult)
    requires ReadInBounds(st)
  {
    if st.mode != MODE_READ then (st, ReadWrongMode)
    else if st.offset >= st.cap || st.length == 0 then (st, BlockEmpty)
    else
      var blen := GetLE(st.buf[st.offset..st.offset + 2]);
      var offset1 := st.offset + 2;
      if blen == 0 then (st.(offset := offset1), BlockEmpty)
      else
        var rec := CopyInto(Zeros(blen), 0, st.buf[offset1..]);
        (st.(offset := offset1 + blen, length := st.length - 1,
             buf := CopyInto(st.buf, 0, PutLE(st.length - 1, 2))), Record(rec))
  }

  /** A block that is not in read mode refuses every read and stays as it is. */
  lemma ReadNeedsMode(st: BlockState)
    requires ReadInBounds(st)
    ensures ReadRecord(st).1.ReadWrongMode? <==> st.mode != MODE_READ
    ensures st.mode != MODE_READ ==> ReadRecord(st).0 == st
  {
    hide CopyInto, PutLE, GetLE;
  }

  /** A read-mode block with the records rs still in front of its cursor. */
  predicate Reading(st: BlockState, rs: seq<seq<byte>>) {
    && st.mode == MODE_READ
    && |st.buf| == st.cap
    && 2 <= st.offset <= st.cap
    && |rs| <= st.length
    && PackedAt(st.buf, st.offset, rs)
  }

  /** What the list given to the subscriber holds for a record: nothing for an empty one. */
  function Slot(r: seq<byte>): Option<seq<byte>> {
    if r == [] then None else Some(r)
  }

  function Slots(rs: seq<seq<byte>>): (s: seq<Option<seq<byte>>>)
    ensures |s| == |rs|
  {
    seq(|rs|, i requires 0 <= i < |rs| => Slot(rs[i]))
  }

  /** One read returns the next record, or leaves a nil slot for an empty one, and moves past it either way. */
  lemma ReadNext(st: BlockState, rs: seq<seq<byte>>)
    requires Reading(st, rs) && rs != []
    ensures ReadInBounds(st)
    ensures var r := ReadRecord(st);
            && Reading(r.0, rs[1..])
            && r.1 == (if rs[0] == [] then BlockEmpty else Record(rs[0]))
  {
    hide PutLE, GetLE, Pack, CopyInto;
    PackedAtHead(st.buf, st.offset, rs);
    if rs[0] != [] {
      ReadsRecord(st, rs[0]);
      var off, p := st.offset + 2 + |rs[0]|, |Pack(rs[1..])|;
      CopyKeeps(st.buf, 0, PutLE(st.length - 1, 2), off, off + p);
    }
  }

  lemma ReadsRecord(st: BlockState, r: seq<byte>)
    requires st.mode == MODE_READ && |st.buf| == st.cap && st.length > 0 && r != []
    requires 2 <= st.offset && st.offset + 2 + |r| <= st.cap
    requires GetLE(st.buf[st.offset..st.offset + 2]) == |r|
    requires st.buf[st.offset + 2..st.offset + 2 + |r|] == r
    ensures ReadInBounds(st)
    ensures ReadRecord(st) == (st.(offset := st.offset + 2 + |r|, length := st.length - 1,
                                   buf := CopyInto(st.buf, 0, PutLE(st.length - 1, 2))), Record(r))
  {
    CopyTail(st.buf, st.offset + 2, |r|);
  }

  /** Filling a fresh n-byte buffer from off on takes the n bytes there. */
  lemma CopyTail(buf: seq<byte>, off: nat, n: nat)
    requires off + n <= |buf|
    ensures CopyInto(Zeros(n), 0, buf[off..]) == buf[off..off + n]
  {
  }

  // -------------------------------------------------------------- the class

  method Copy(buf: array<byte>, off: nat, src: seq<byte>)
    requires off <= buf.Length
    modifies buf
    ensures buf[..] == CopyInto(old(buf[..]), off, src)
  {
    var n := Min(buf.Length - off, |src|);
    for i := 0 to n
      invariant forall k :: 0 <= k < buf.Length ==>
        buf[k] == if off <= k < off + i then src[k - off] else old(buf[k])
    {
      buf[off + i] := src[i];
    }
    assert buf[..] == CopyInto(old(buf[..]), off, src);
  }

  class Block {
    const buf: array<byte>
    var offset: uint16
    const cap: uint16
    var length: uint16
    const mode: byte

    /** The value the object stands for. */
    ghost function State(): BlockState
      reads this, buf
    {
      BlockState(buf[..], offset, cap, length, mode)
    }

    /** newBlock on a non-empty slice; the callers pass whole blocks. */
    constructor (b: array<byte>, mode: byte)
      requires 2 <= b.Length < 0x1_0000
      ensures buf == b && cap == b.Length && offset == 2 && length == GetLE(b[..2]) && this.mode == mode
    {
      Pow256Widths();
      PutGet(b[..2]);
      this.buf, offset, cap, length, this.mode := b, 2, b.Length, GetLE(b[..2]), mode;
    }

    method WriteUint16(val: uint16, off: uint16)
      requires off <= buf.Length
      modifies buf
      ensures buf[..] == CopyInto(old(buf[..]), off, PutLE(val, 2))
    {
      Copy(buf, off, PutLE(val, 2));
    }

    function ReadUint16(off: uint16): (v: uint16)
      requires off + 2 <= buf.Length
      reads buf
      ensures v == GetLE(buf[off..off + 2])
    {
      Pow256Widths();
      PutGet(buf[off..off + 2]);
      GetLE(buf[off..off + 2])
    }

    /** The three copies of Block.write and the fields they move. */
    method Store(b: seq<byte>)
      requires offset <= buf.Length && (offset + 2) % 0x1_0000 <= buf.Length
      modifies this`offset, this`length, buf
      ensures State() == AfterWrite(old(State()), b)
    {
      hide CopyInto, PutLE;
      var blen := |b| % 0x1_0000;
      WriteUint16(blen, offset);
      offset := (offset + 2) % 0x1_0000;
      Copy(buf, offset, b);
      offset := (offset + blen) % 0x1_0000;
      length := (length + 1) % 0x1_0000;
      WriteUint16(length, 0);
    }

    /** Block.write, in place; what it stores or refuses is WriteRecord's business. */
    method Write(b: seq<byte>) returns (err: Option<WriteResult>)
      requires !WriteRecord(State(), b).Panic?
      modifies this`offset, this`length, buf
      ensures var r := WriteRecord(old(State()), b);
              if r.Written? then err == None && State() == r.st
              else err == Some(r) && State() == old(State())
    {
      hide AfterWrite;
      if mode != MODE_WRITE {
        return Some(WrongMode);
      }
      var blen := |b| % 0x1_0000;
      if (cap - offset) % 0x1_0000 < (blen + 2) % 0x1_0000 {
        return Some(LackOfSpace);
      }
      Store(b);
      err := None;
    }

    /** Block.read, which also counts down the record count inside the buffer. */
    method Read() returns (r: ReadResult)
      requires ReadInBounds(State())
      modifies this`offset, this`length, buf
      ensures (State(), r) == ReadRecord(old(State()))
    {
      hide PutLE;
      if mode != MODE_READ {
        return ReadWrongMode;
      }
      if offset >= cap || length == 0 {
        return BlockEmpty;
      }
      SliceOfSlice(buf[..], 0, buf.Length, offset, offset + 2);
      var blen := ReadUint16(offset);
      offset := offset + 2;
      if blen == 0 {
        return BlockEmpty;
      }
      var rec := new byte[blen](_ => 0);
      assert rec[..] == Zeros(blen);
      assert buf[offset..] == buf[..][offset..];
      Copy(rec, 0, buf[offset..]);
      offset := offset + blen;
      length := length - 1;
      WriteUint16(length, 0);
      r := Record(rec[..]);
    }

    method ResetBlock()
      requires buf.Length >= 2
      modifies this`offset, this`length, buf
      ensures State() == Reset(old(State()))
    {
      offset := 2;
      length := 0;
      WriteUint16(length, 0);
    }

    function HasRoom(space: uint16): (r: bool)
      reads this, buf
      ensures r == HasSpace(State(), space)
    {
      (cap - offset) % 0x1_0000 >= space
    }
  }

  /** The inner loop of readloop: read as many slots as the count says, errors leaving nil. */
  method ReadSlots(b: array<byte>, ghost rs: seq<seq<byte>>) returns (list: seq<Option<seq<byte>>>)
    requires Sealed(b[..], rs)
    modifies b
    ensures list == Slots(rs)
  {
    hide PutLE, Pack, ReadRecord;
    Pow256Widths();
    GetPut(|rs|, 2);
    assert b[..][..2] == b[..2];
    var block := new Block(b, MODE_READ);
    var blockLength := block.length;
    list := [];
    for i := 0 to blockLength
      invariant fresh(block) && block.buf == b
      invariant list == Slots(rs[..i])
      invariant Reading(block.State(), rs[i..])
    {
      ReadNext(block.State(), rs[i..]);
      var r := block.Read();
      assert rs[i..][1..] == rs[i + 1..];
      list := list + [match r case Record(bytes) => Some(bytes) case _ => None];
      assert Slots(rs[..i + 1]) == Slots(rs[..i]) + [Slot(rs[i])];
    }
    assert rs[..|rs|] == rs;
  }
}
