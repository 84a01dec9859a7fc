/**
 * The file log as a transition system: its writer and its reader goroutine interleave freely, each
 * step being one lock region or one stretch of goroutine-local work (filelog/filelog.go).
 */
module LogModel {
  import opened Bytes
  import opened Blocks
  import opened Disk

  /** Where writeloop stands. */
  datatype WriterPc =
    | WIdle
    | WFlush(next: Option<seq<byte>>)   // about to append the open block
    | WReset(next: Option<seq<byte>>)   // appended, not yet reset
    | WStore(rec: seq<byte>)            // about to write the record into the open block

  /** Where readloop stands. RStuck: getBlock failed and left the lock held. */
  datatype ReaderPc = RIdle | RReady | RHold(block: seq<byte>) | RStuck

  datatype Log = Log(
    file: seq<byte>,
    readblock: nat,
    writeblock: nat,
    open: BlockState,
    writer: WriterPc,
    reader: ReaderPc,
    offered: seq<seq<byte>>,                // records passed to Write so far
    accepted: seq<seq<byte>>,               // those Write reported no error for
    delivered: seq<seq<Option<seq<byte>>>>  // the lists handed to the subscriber
  )

  datatype Event =
    | Offer(rec: seq<byte>)  // writeloop receives a record
    | Tick                   // its ticker fires
    | Append                 // appendBlock
    | ResetOpen              // block.reset
    | Store                  // block.write and the answer
    | Poll                   // nextBlock
    | Get                    // getBlock
    | Deliver                // the slots are read and handed over

  const FRESH_BLOCK := BlockState(Zeros(BLOCK_SIZE), 2, BLOCK_SIZE, 0, MODE_WRITE)

  /** NewFileLog over a file that may hold blocks from before. */
  function Open(f: seq<byte>): Log {
    Log(f, ReadUint32(f, 0), ReadUint32(f, 4), FRESH_BLOCK, WIdle, RIdle, [], [], [])
  }

  /** The file after each of appendBlock's writes. */
  function AppendDisk(f: seq<byte>, writeblock: nat, b: seq<byte>): seq<seq<byte>> {
    var f1 := WriteAt(f, writeblock * BLOCK_SIZE + HEADER_BYTES, b);
    [f, f1, WriteUint32(f1, writeblock + 1, 4)]
  }

  /** The file after each of getBlock's writes; the reader that catches up resets and truncates. */
  function GetDisk(f: seq<byte>, readblock: nat, writeblock: nat): (fs: seq<seq<byte>>)
    ensures |fs| == if readblock + 1 == writeblock then 4 else 2
  {
    if readblock + 1 == writeblock then
      var f1 := WriteUint32(f, 0, 4);
      var f2 := Truncate(f1, HEADER_BYTES);
      [f, f1, f2, WriteUint32(f2, 0, 0)]
    else
      [f, WriteUint32(f, readblock + 1, 0)]
  }

  function AppendStep(s: Log): Log
    requires s.writer.WFlush?
  {
    s.(file := AppendDisk(s.file, s.writeblock, s.open.buf)[2],
       writeblock := s.writeblock + 1,
       writer := WReset(s.writer.next))
  }

  function GetStep(s: Log): Log {
    var end := HEADER_BYTES + (s.readblock + 1) * BLOCK_SIZE;
    if s.readblock == s.writeblock then s.(reader := RIdle)
    else if |s.file| < end then s.(reader := RStuck)
    else
      var fs := GetDisk(s.file, s.readblock, s.writeblock);
      var drained := s.readblock + 1 == s.writeblock;
      s.(file := fs[|fs| - 1],
         readblock := if drained then 0 else s.readblock + 1,
         writeblock := if drained then 0 else s.writeblock,
         reader := RHold(BlockAt(s.file, s.readblock)))
  }

  /** One step; an event whose goroutine is elsewhere, or waits for a held lock, changes nothing. */
  function Next(s: Log, e: Event): Log {
    match e
    case Offer(rec) =>
      if !s.writer.WIdle? then s
      else s.(offered := s.offered + [rec],
              writer := if HasSpace(s.open, (|rec| + 2) % 0x1_0000) then WStore(rec) else WFlush(Some(rec)))
    case Tick =>
      if s.writer.WIdle? && s.open.length > 0 then s.(writer := WFlush(None)) else s
    case Append =>
      if s.writer.WFlush? && !s.reader.RStuck? then AppendStep(s) else s
    case ResetOpen =>
      if !s.writer.WReset? || |s.open.buf| != BLOCK_SIZE then s
      else s.(open := Reset(s.open),
              writer := match s.writer.next case None => WIdle case Some(rec) => WStore(rec))
    case Store =>
      if !s.writer.WStore? then s
      else
        var r := WriteRecord(s.open, s.writer.rec);
        if r.Written? then s.(open := r.st, writer := WIdle, accepted := s.accepted + [s.writer.rec])
        else s.(writer := WIdle)
    case Poll =>
      if s.reader.RIdle? && s.readblock != s.writeblock then s.(reader := RReady) else s
    case Get =>
      if s.reader.RReady? then GetStep(s) else s
    case Deliver =>
      if !s.reader.RHold? || |s.reader.block| != BLOCK_SIZE then s
      else s.(delivered := s.delivered + [Slots(Unpack(s.reader.block))], reader := RIdle)
  }

  function Run(s: Log, evs: seq<Event>): Log
    decreases |evs|
  {
    if evs == [] then s else Run(Next(s, evs[0]), evs[1..])
  }

  /** A caller may offer any record of up to 65533 bytes; beyond that the length field wraps. */
  predicate Admissible(e: Event) {
    e.Offer? ==> |e.rec| <= 65533
  }

  // -------------------------------------------------------------- invariant

  predicate SealedBlock(b: seq<byte>) {
    |b| == BLOCK_SIZE && Sealed(b, Unpack(b))
  }

  predicate AllSealed(bs: seq<seq<byte>>) {
    forall b :: b in bs ==> SealedBlock(b)
  }

  function Records(bs: seq<seq<byte>>): seq<seq<byte>>
    requires forall b :: b in bs ==> |b| == BLOCK_SIZE
  {
    if bs == [] then [] else Unpack(bs[0]) + Records(bs[1..])
  }

  lemma {:induction false} RecordsSnoc(bs: seq<seq<byte>>, b: seq<byte>)
    requires |b| == BLOCK_SIZE && forall c :: c in bs ==> |c| == BLOCK_SIZE
    ensures Records(bs + [b]) == Records(bs) + Unpack(b)
  {
    hide Unpack;
    if bs == [] {
      assert [] + [b] == [b] && [b][1..] == [];
    } else {
      RecordsSnoc(bs[1..], b);
      assert (bs + [b])[1..] == bs[1..] + [b];
    }
  }

  /** A file whose header and unread blocks make sense: what a reopening process needs. */
  predicate GoodFile(f: seq<byte>) {
    var r, w := ReadUint32(f, 0), ReadUint32(f, 4);
    && Shaped(f)
    && r <= w && Reaches(f, w)
    && AllSealed(FileBlocks(f, r, w))
  }

  /** The blocks a process opening the file would deliver. */
  function UnreadOf(f: seq<byte>): seq<seq<byte>>
    requires GoodFile(f)
  {
    FileBlocks(f, ReadUint32(f, 0), ReadUint32(f, 4))
  }

  /** The on-disk indices are the in-memory ones, and every unread block is whole. */
  predicate DiskInv(s: Log) {
    && Shaped(s.file)
    && ReadUint32(s.file, 0) == s.readblock % 0x1_0000_0000
    && ReadUint32(s.file, 4) == s.writeblock % 0x1_0000_0000
    && s.readblock <= s.writeblock
    && Reaches(s.file, s.writeblock)
    && AllSealed(FileBlocks(s.file, s.readblock, s.writeblock))
  }

  predicate OpenInv(s: Log) {
    && s.open.cap == BLOCK_SIZE == |s.open.buf|
    && Holds(s.open, Unpack(s.open.buf))
    && match s.writer
       case WIdle => true
       case WFlush(next) => next.Some? ==> |next.value| <= 65533
       case WReset(next) => next.Some? ==> |next.value| <= 65533
       case WStore(rec) => |rec| <= 65533 && (|rec| + 2 <= s.open.cap - s.open.offset || s.open.length == 0)
  }

  predicate ReaderInv(s: Log) {
    match s.reader
    case RIdle => true
    case RReady => s.readblock < s.writeblock
    case RHold(b) => SealedBlock(b)
    case RStuck => false
  }

  /** Everything accepted and not yet handed over, in queue order: reader's hands, file, open block. */
  function Queued(s: Log): seq<seq<byte>>
    requires s.readblock <= s.writeblock && Reaches(s.file, s.writeblock)
    requires |s.open.buf| == BLOCK_SIZE && ReaderInv(s)
  {
    (if s.reader.RHold? then Unpack(s.reader.block) else [])
    + (Records(FileBlocks(s.file, s.readblock, s.writeblock))
    + (if s.writer.WReset? then [] else Unpack(s.open.buf)))
  }

  predicate Inv(s: Log) {
    DiskInv(s) && OpenInv(s) && ReaderInv(s)
  }

  /** old ++ records handed over ++ queued records is old ++ the accepted records. */
  predicate Fifo(s: Log, old_: seq<seq<byte>>)
    requires Inv(s)
  {
    Flatten(s.delivered) + Slots(Queued(s)) == Slots(old_ + s.accepted)
  }

  /** The offered records of at most 4092 bytes. */
  function Acceptable(rs: seq<seq<byte>>): seq<seq<byte>> {
    if rs == [] then []
    else if |rs[0]| <= MAX_RECORD then [rs[0]] + Acceptable(rs[1..])
    else Acceptable(rs[1..])
  }

  /** The record writeloop has received and not answered yet. */
  function InHand(w: WriterPc): seq<seq<byte>> {
    match w
    case WFlush(Some(rec)) => [rec]
    case WReset(Some(rec)) => [rec]
    case WStore(rec) => [rec]
    case _ => []
  }

  predicate Answered(s: Log) {
    s.accepted + Acceptable(InHand(s.writer)) == Acceptable(s.offered)
  }

  // --------------------------------------------------------------- the steps

  lemma SlotsAppend(a: seq<seq<byte>>, b: seq<seq<byte>>)
    ensures Slots(a + b) == Slots(a) + Slots(b)
  {
  }

  lemma {:induction false} AcceptableAppend(a: seq<seq<byte>>, b: seq<seq<byte>>)
    ensures Acceptable(a + b) == Acceptable(a) + Acceptable(b)
    decreases |a|
  {
    if a == [] {
      assert a + b == b;
    } else {
      AcceptableAppend(a[1..], b);
      assert (a + b)[1..] == a[1..] + b;
    }
  }

  /** A sealed block appended: the unread blocks gain it, and the header follows. */
  lemma AppendKeepsDisk(s: Log)
    requires DiskInv(s) && s.writer.WFlush? && SealedBlock(s.open.buf)
    ensures DiskInv(AppendStep(s))
    ensures FileBlocks(AppendStep(s).file, s.readblock, s.writeblock + 1)
         == FileBlocks(s.file, s.readblock, s.writeblock) + [s.open.buf]
  {
    hide Sealed, Unpack, WriteAt, ReadUint32, BlockAt, PutLE;
    var f1 := AppendDisk(s.file, s.writeblock, s.open.buf)[1];
    BlockWrite(s.file, s.open.buf, s.readblock, s.writeblock);
    HeaderWrite(f1, s.writeblock + 1, 4);
    HeaderWriteKeepsBlocks(f1, s.writeblock + 1, 4, s.readblock, s.writeblock + 1);
  }

  lemma AppendKeeps(s: Log, old_: seq<seq<byte>>)
    requires Inv(s) && s.writer.WFlush? && Fifo(s, old_)
    ensures Inv(AppendStep(s)) && Fifo(AppendStep(s), old_)
  {
    hide AppendDisk, ReadUint32, FileBlocks, Unpack, Pack, Reaches, Shaped, Sealed;
    var b := s.open.buf;
    HoldsSealed(s.open, Unpack(b));
    AppendKeepsDisk(s);
    var bs := FileBlocks(s.file, s.readblock, s.writeblock);
    RecordsSnoc(bs, b);
    assert Records(bs + [b]) + [] == Records(bs) + Unpack(b);
  }

  /** A read index moved past one block: one block fewer, or an empty file of eight bytes. */
  lemma GetKeepsDisk(s: Log)
    requires DiskInv(s) && s.readblock < s.writeblock
    ensures GetStep(s).reader == RHold(BlockAt(s.file, s.readblock))
    ensures DiskInv(GetStep(s))
    ensures FileBlocks(GetStep(s).file, GetStep(s).readblock, GetStep(s).writeblock)
         == FileBlocks(s.file, s.readblock, s.writeblock)[1..]
  {
    hide Sealed, Unpack, WriteAt, BlockAt, PutLE;
    var r, w := s.readblock, s.writeblock;
    if r + 1 == w {
      var f1 := WriteUint32(s.file, 0, 4);
      HeaderWrite(s.file, 0, 4);
      var f2 := Truncate(f1, HEADER_BYTES);
      assert f2[4..8] == f1[4..8];
      HeaderWrite(f2, 0, 0);
      assert FileBlocks(s.file, r, w)[1..] == FileBlocks(s.file, r + 1, w) == [];
    } else {
      HeaderWrite(s.file, r + 1, 0);
      HeaderWriteKeepsBlocks(s.file, r + 1, 0, r + 1, w);
    }
  }

  lemma GetKeeps(s: Log, old_: seq<seq<byte>>)
    requires Inv(s) && s.reader.RReady? && Fifo(s, old_)
    ensures Inv(GetStep(s)) && Fifo(GetStep(s), old_)
  {
    hide GetDisk, ReadUint32, Unpack, Pack, Shaped, Sealed, BlockAt;
    GetKeepsDisk(s);
    var bs := FileBlocks(s.file, s.readblock, s.writeblock);
    assert bs[0] == BlockAt(s.file, s.readblock);
    assert bs[0] in bs;
    var tail := if s.writer.WReset? then [] else Unpack(s.open.buf);
    assert [] + ((Unpack(bs[0]) + Records(bs[1..])) + tail) == Unpack(bs[0]) + (Records(bs[1..]) + tail);
  }

  lemma ResetKeeps(s: Log, old_: seq<seq<byte>>)
    requires Inv(s) && s.writer.WReset? && Fifo(s, old_)
    ensures Inv(Next(s, ResetOpen)) && Fifo(Next(s, ResetOpen), old_)
  {
    hide ReadUint32, FileBlocks, Unpack, Pack, PutLE, CopyInto, Sealed;
    ResetHolds(s.open);
    var st := Reset(s.open);
    HoldsSealed(st, []);
    UnpackSealed(st.buf, []);
  }

  /** After the space check or the flush, a record is taken exactly when it is at most 4092 bytes long. */
  lemma StoreAccepts(s: Log)
    requires OpenInv(s) && s.writer.WStore?
    ensures WriteRecord(s.open, s.writer.rec).Written? <==> |s.writer.rec| <= MAX_RECORD
  {
    hide WriteRecord, PutLE;
    WriteAcceptsIff(s.open, Unpack(s.open.buf), s.writer.rec);
    PackLength(Unpack(s.open.buf));
  }

  lemma StoreKeeps(s: Log, old_: seq<seq<byte>>)
    requires Inv(s) && s.writer.WStore? && Fifo(s, old_)
    ensures Inv(Next(s, Store)) && Fifo(Next(s, Store), old_)
  {
    hide ReadUint32, FileBlocks, Unpack, Pack, PutLE, WriteRecord, Sealed, Slots, Records;
    var rec, rs := s.writer.rec, Unpack(s.open.buf);
    var r := WriteRecord(s.open, rec);
    WriteAcceptsIff(s.open, rs, rec);
    if r.Written? {
      WrittenCap(s.open, rec);
      HoldsSealed(r.st, rs + [rec]);
      UnpackSealed(r.st.buf, rs + [rec]);
      QueuedGrows(s, rec);
      SlotsAppend(Queued(s), [rec]);
      SlotsAppend(old_ + s.accepted, [rec]);
      assert (old_ + s.accepted) + [rec] == old_ + (s.accepted + [rec]);
      assert Flatten(s.delivered) + (Slots(Queued(s)) + Slots([rec]))
          == (Flatten(s.delivered) + Slots(Queued(s))) + Slots([rec]);
    }
  }

  lemma WrittenCap(st: BlockState, rec: seq<byte>)
    requires WriteRecord(st, rec).Written?
    ensures WriteRecord(st, rec).st.cap == st.cap && |WriteRecord(st, rec).st.buf| == |st.buf|
  {
    hide PutLE;
  }

  lemma QueuedGrows(s: Log, rec: seq<byte>)
    requires Inv(s) && s.writer == WStore(rec) && WriteRecord(s.open, rec).Written?
    requires var b := WriteRecord(s.open, rec).st.buf; |b| == BLOCK_SIZE && Unpack(b) == Unpack(s.open.buf) + [rec]
    ensures Queued(Next(s, Store)) == Queued(s) + [rec]
  {
    hide ReadUint32, FileBlocks, Unpack, Pack, PutLE, WriteRecord, Sealed, Records, Holds, AllSealed;
  }

  lemma DeliverKeeps(s: Log, old_: seq<seq<byte>>)
    requires Inv(s) && s.reader.RHold? && Fifo(s, old_)
    ensures Inv(Next(s, Deliver)) && Fifo(Next(s, Deliver), old_)
  {
    hide ReadUint32, FileBlocks, Unpack, Pack, PutLE, Sealed, Slots, Records, Holds;
    var rs := Unpack(s.reader.block);
    var rest := Queued(Next(s, Deliver));
    assert rest == [] + Queued(s)[|rs|..];
    assert Queued(s) == rs + rest;
    SlotsAppend(rs, rest);
    FlattenAppend(s.delivered, [Slots(rs)]);
    assert Flatten([Slots(rs)]) == Slots(rs) + Flatten([]) == Slots(rs);
    assert (Flatten(s.delivered) + Slots(rs)) + Slots(rest) == Flatten(s.delivered) + (Slots(rs) + Slots(rest));
  }

  lemma OfferKeeps(s: Log, e: Event, old_: seq<seq<byte>>)
    requires Inv(s) && Fifo(s, old_) && Admissible(e) && (e.Offer? || e.Tick? || e.Poll?)
    ensures Inv(Next(s, e)) && Fifo(Next(s, e), old_)
  {
    hide ReadUint32, FileBlocks, Unpack, Pack, PutLE, Sealed, Slots, Records, WriteRecord;
  }

  lemma StepKeeps(s: Log, e: Event, old_: seq<seq<byte>>)
    requires Inv(s) && Fifo(s, old_) && Admissible(e)
    ensures Inv(Next(s, e)) && Fifo(Next(s, e), old_)
  {
    hide Inv, Fifo, AppendStep, GetStep, WriteRecord, Unpack;
    match e
    case Append => if s.writer.WFlush? && !s.reader.RStuck? { AppendKeeps(s, old_); }
    case Get => if s.reader.RReady? { GetKeeps(s, old_); }
    case ResetOpen => if s.writer.WReset? { ResetKeeps(s, old_); }
    case Store => if s.writer.WStore? { StoreKeeps(s, old_); }
    case Deliver => if s.reader.RHold? { DeliverKeeps(s, old_); }
    case _ => OfferKeeps(s, e, old_);
  }

  lemma StepAnswers(s: Log, e: Event)
    requires Inv(s) && Answered(s) && Admissible(e)
    ensures Answered(Next(s, e))
  {
    hide DiskInv, ReaderInv, Holds, WriteRecord, Unpack, AppendDisk, GetDisk;
    match e
    case Offer(rec) =>
      AcceptableAppend(s.offered, [rec]);
      if s.writer.WIdle? {
        assert s.accepted + [] == s.accepted;
      }
    case Store =>
      if s.writer.WStore? {
        StoreAccepts(s);
        var rec := s.writer.rec;
        var one := [rec];
        assert one[1..] == [];
        assert Acceptable([rec]) == if |rec| <= MAX_RECORD then [rec] else [];
        assert s.accepted + [] == s.accepted && (s.accepted + [rec]) + [] == s.accepted + [rec];
      }
    case _ =>
  }

  // ------------------------------------------------- answers, for any length

  /** The 16-bit sum both guards of the writer compare with the space left. */
  function Needed(len: nat): uint16 {
    (len + 2) % 0x1_0000
  }

  /** What every step keeps about the open block, whatever the records: a wrapped length spoils its contents, not its cursor. */
  predicate OpenShape(s: Log) {
    && s.open.mode == MODE_WRITE && s.open.cap == BLOCK_SIZE == |s.open.buf|
    && 2 <= s.open.offset <= BLOCK_SIZE
    && (s.writer.WStore? ==> HasSpace(s.open, Needed(|s.writer.rec|)) || s.open.offset == 2)
  }

  /** A sum that wraps in two additions comes out as in one. */
  lemma WrapSum(offset: nat, len: nat)
    requires offset <= BLOCK_SIZE && (len % 0x1_0000 + 2) % 0x1_0000 <= BLOCK_SIZE - offset
    ensures (len % 0x1_0000 + 2) % 0x1_0000 == Needed(len)
    ensures ((offset + 2) % 0x1_0000 + len % 0x1_0000) % 0x1_0000 == offset + Needed(len)
  {
    var b := len % 0x1_0000;
    assert (offset + 2) % 0x1_0000 == offset + 2;
    assert (len + 2) % 0x1_0000 == if b + 2 < 0x1_0000 then b + 2 else b + 2 - 0x1_0000;
  }

  lemma WrittenShape(st: BlockState, rec: seq<byte>)
    requires st.mode == MODE_WRITE && st.cap == BLOCK_SIZE == |st.buf| && 2 <= st.offset <= BLOCK_SIZE
    requires WriteRecord(st, rec).Written?
    ensures var r := WriteRecord(st, rec).st;
            && r.mode == st.mode && r.cap == st.cap && |r.buf| == |st.buf| && r.offset == st.offset + Needed(|rec|) <= BLOCK_SIZE
  {
    hide PutLE, CopyInto, Needed;
    assert Space(st) == BLOCK_SIZE - st.offset;
    WrapSum(st.offset, |rec|);
  }

  lemma ShapeKept(s: Log, e: Event)
    requires OpenShape(s)
    ensures OpenShape(Next(s, e))
  {
    hide PutLE, AppendDisk, GetDisk, WriteRecord, Unpack;
    if e.Store? && s.writer.WStore? && WriteRecord(s.open, s.writer.rec).Written? {
      WrittenShape(s.open, s.writer.rec);
    }
  }

  lemma {:induction false} RunShape(s: Log, evs: seq<Event>)
    requires OpenShape(s)
    ensures OpenShape(Run(s, evs))
    decreases |evs|
  {
    hide OpenShape, Next;
    if evs != [] {
      ShapeKept(s, evs[0]);
      RunShape(Next(s, evs[0]), evs[1..]);
    }
  }

  /**
   * The answer to a Write, for a record of any length: an error exactly when the 16-bit sum exceeds what an empty block has
   * to give. Where that sum is zero or one and the block is full the source panics instead of answering.
   */
  lemma StoreAnswers(s: Log)
    requires OpenShape(s) && s.writer.WStore?
    ensures var r := WriteRecord(s.open, s.writer.rec);
            && (r.LackOfSpace? <==> Needed(|s.writer.rec|) > BLOCK_SIZE - 2)
            && (!r.LackOfSpace? <==> r.Written? || r.Panic?)
            && (r.Panic? ==> Needed(|s.writer.rec|) <= 1)
  {
    hide AfterWrite;
    assert Space(s.open) == BLOCK_SIZE - s.open.offset;
    assert (|s.writer.rec| % 0x1_0000 + 2) % 0x1_0000 == Needed(|s.writer.rec|);
  }

  // ------------------------------------------------------------ main results

  /**
   * In every interleaving, what was handed to the subscriber, then the block in the reader's hands, the unread file
   * blocks and the open block, make up exactly the accepted records in order, behind whatever the file
   * held at the start; the accepted records are those offered and answered that are at most 4092 bytes long.
   */
  lemma {:induction false} LogRefinesFifo(s: Log, evs: seq<Event>, old_: seq<seq<byte>>)
    requires Inv(s) && Fifo(s, old_) && Answered(s)
    requires forall e :: e in evs ==> Admissible(e)
    ensures Inv(Run(s, evs)) && Fifo(Run(s, evs), old_) && Answered(Run(s, evs))
    decreases |evs|
  {
    hide Inv, Fifo, Answered, Next;
    if evs != [] {
      StepKeeps(s, evs[0], old_);
      StepAnswers(s, evs[0]);
      LogRefinesFifo(Next(s, evs[0]), evs[1..], old_);
    }
  }

  lemma FreshBlockHolds()
    ensures Holds(FRESH_BLOCK, []) && Unpack(FRESH_BLOCK.buf) == []
  {
    assert Pack([]) == [];
    ZeroCount();
    assert FRESH_BLOCK.buf[..2] == Zeros(2);
    assert FRESH_BLOCK.buf[2..2] == [];
    HoldsSealed(FRESH_BLOCK, []);
    UnpackSealed(FRESH_BLOCK.buf, []);
  }

  lemma ZeroCount()
    ensures PutLE(0, 2) == Zeros(2)
  {
    var z := Zeros(2);
    assert Fill(0, z) == [0] + Fill(0, z[1..]);
    assert Fill(0, z[1..]) == [0] + Fill(0, z[1..][1..]);
    assert z[1..][1..] == [];
  }

  /** Opening a good file starts out correct, with the file's unread records as the old ones. */
  lemma OpenEstablishes(f: seq<byte>)
    requires GoodFile(f)
    ensures Inv(Open(f)) && Answered(Open(f)) && Fifo(Open(f), Records(UnreadOf(f)))
    ensures FileBlocks(f, Open(f).readblock, Open(f).writeblock) == UnreadOf(f)
  {
    hide ReadUint32, Unpack, Pack, PutLE, Sealed, Holds, FileBlocks, Records, Shaped, Reaches;
    FreshBlockHolds();
    var rs := Records(UnreadOf(f));
    assert Queued(Open(f)) == [] + (rs + []) == rs == rs + [];
    assert [] + Slots(rs) == Slots(rs);
  }

  /** The whole life of a log over a good file. */
  lemma LogLife(f: seq<byte>, evs: seq<Event>)
    requires GoodFile(f) && forall e :: e in evs ==> Admissible(e)
    ensures var s := Run(Open(f), evs);
            && Inv(s)
            && Flatten(s.delivered) + Slots(Queued(s)) == Slots(Records(UnreadOf(f)) + s.accepted)
            && s.accepted + Acceptable(InHand(s.writer)) == Acceptable(s.offered)
  {
    hide Inv, Next, Records;
    OpenEstablishes(f);
    LogRefinesFifo(Open(f), evs, Records(UnreadOf(f)));
  }

  /** A block that nextBlock announced is always read: getBlock neither fails nor keeps the lock. */
  lemma AnnouncedBlockIsRead(s: Log)
    requires Inv(s) && s.reader.RReady?
    ensures Next(s, Get).reader.RHold? && SealedBlock(Next(s, Get).reader.block)
  {
    hide Unpack, Sealed, GetDisk, ReadUint32;
    var bs := FileBlocks(s.file, s.readblock, s.writeblock);
    assert bs[0] == BlockAt(s.file, s.readblock) && bs[0] in bs;
  }

  // --------------------------------------------------------------- recovery

  /** Between steps, reopening the file yields the same unread blocks. */
  lemma ReopenBetweenSteps(s: Log)
    requires Inv(s) && s.writeblock < 0x1_0000_0000
    ensures GoodFile(s.file) && UnreadOf(s.file) == FileBlocks(s.file, s.readblock, s.writeblock)
  {
    hide Unpack, Sealed, ReadUint32, FileBlocks;
  }

  /** Stopping after k of appendBlock's writes loses at most the block being appended. */
  lemma ReopenInsideAppend(s: Log, k: nat)
    requires Inv(s) && s.writer.WFlush? && s.writeblock + 1 < 0x1_0000_0000 && k <= 2
    ensures var f := AppendDisk(s.file, s.writeblock, s.open.buf)[k];
            && GoodFile(f)
            && UnreadOf(f) == FileBlocks(s.file, s.readblock, s.writeblock) + (if k == 2 then [s.open.buf] else [])
  {
    hide Unpack, Sealed, ReadUint32, FileBlocks, WriteAt, WriteUint32, Pack;
    var bs := FileBlocks(s.file, s.readblock, s.writeblock);
    ReopenBetweenSteps(s);
    BlockWrite(s.file, s.open.buf, s.readblock, s.writeblock);
    HoldsSealed(s.open, Unpack(s.open.buf));
    AppendKeepsDisk(s);
    assert bs + [] == bs;
  }

  /** Between the first and the last write of the catching-up reset, only the write index is zero on disk. */
  lemma HeaderInsideReset(f: seq<byte>, k: nat)
    requires Shaped(f) && k in {1, 2}
    ensures var f1 := WriteUint32(f, 0, 4);
            var g := if k == 1 then f1 else Truncate(f1, HEADER_BYTES);
            && Shaped(g) && ReadUint32(g, 4) == 0 && ReadUint32(g, 0) == ReadUint32(f, 0)
  {
    hide PutLE, WriteAt;
    HeaderWrite(f, 0, 4);
    var f1 := WriteUint32(f, 0, 4);
    var f2 := Truncate(f1, HEADER_BYTES);
    assert f2[0..4] == f1[0..4] && f2[4..8] == f1[4..8];
  }

  /** After all of getBlock's writes, reopening finds the rest of the unread blocks. */
  lemma ReopenAfterGet(s: Log)
    requires Inv(s) && s.readblock < s.writeblock < 0x1_0000_0000
    ensures var fs := GetDisk(s.file, s.readblock, s.writeblock);
            var f := fs[|fs| - 1];
            GoodFile(f) && UnreadOf(f) == FileBlocks(s.file, s.readblock, s.writeblock)[1..]
  {
    hide Unpack, Sealed, WriteUint32, Truncate, Pack, ReadUint32, BlockAt, Holds, HasSpace, FileBlocks, OpenInv, ReaderInv;
    GetKeepsDisk(s);
  }

  /** Inside the catching-up reset the header reads r unread of none: a good file only for r == 0. */
  lemma ReopenInsideReset(s: Log, k: nat)
    requires Inv(s) && s.readblock + 1 == s.writeblock < 0x1_0000_0000 && k in {1, 2}
    ensures var f := GetDisk(s.file, s.readblock, s.writeblock)[k];
            && (GoodFile(f) <==> s.readblock == 0)
            && (GoodFile(f) ==> UnreadOf(f) == FileBlocks(s.file, s.readblock, s.writeblock)[1..])
  {
    hide Unpack, Sealed, WriteUint32, Truncate, Pack, ReadUint32, BlockAt, OpenInv, ReaderInv;
    HeaderInsideReset(s.file, k);
    assert |FileBlocks(s.file, s.readblock, s.writeblock)[1..]| == 0;
  }

  /**
   * Stopping after k of getBlock's writes: recovery finds the unread blocks with or without the one being
   * read, except strictly inside the catching-up reset of a file whose read index was not zero.
   */
  lemma ReopenInsideGet(s: Log, k: nat)
    requires Inv(s) && s.readblock < s.writeblock < 0x1_0000_0000
    requires k < |GetDisk(s.file, s.readblock, s.writeblock)|
    ensures var f := GetDisk(s.file, s.readblock, s.writeblock)[k];
            var bs := FileBlocks(s.file, s.readblock, s.writeblock);
            (GoodFile(f) && (UnreadOf(f) == bs || UnreadOf(f) == bs[1..]))
            <==> !(s.readblock + 1 == s.writeblock && s.readblock > 0 && k in {1, 2})
  {
    hide WriteUint32, Truncate, ReadUint32, OpenInv, ReaderInv, GoodFile, UnreadOf, DiskInv, FileBlocks;
    if k == 0 {
      ReopenBetweenSteps(s);
    } else if k == |GetDisk(s.file, s.readblock, s.writeblock)| - 1 {
      ReopenAfterGet(s);
    } else {
      ReopenInsideReset(s, k);
    }
  }

  /** After such a stop the reopened log's reader fails its first getBlock and keeps the lock for good. */
  lemma StopInsideResetSticks(s: Log)
    requires Inv(s) && 0 < s.readblock && s.readblock + 1 == s.writeblock < 0x1_0000_0000
    ensures var t := Open(GetDisk(s.file, s.readblock, s.writeblock)[2]);
            Next(Next(t, Poll), Get).reader == RStuck
  {
    hide Unpack, Sealed, WriteUint32, Pack, ReadUint32;
    HeaderInsideReset(s.file, 2);
  }
}
