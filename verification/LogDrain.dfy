/**
 * The file log makes progress: an announced block is handed over, and from any reachable state a bounded number of steps
 * hands over everything that was ever accepted (filelog/filelog.go).
 */
module LogDrain {
  import opened Bytes
  import opened Blocks
  import opened Disk
  import opened LogModel

  /** The steps of one round of readloop. */
  const ROUND := [Poll, Get, Deliver]

  ghost predicate NoOffers(evs: seq<Event>) {
    forall e :: e in evs ==> !e.Offer?
  }

  lemma {:induction false} RunAppend(s: Log, a: seq<Event>, b: seq<Event>)
    ensures Run(s, a + b) == Run(Run(s, a), b)
    decreases |a|
  {
    hide Next;
    if a == [] {
      assert a + b == b;
    } else {
      RunAppend(Next(s, a[0]), a[1..], b);
      assert (a + b)[1..] == a[1..] + b;
    }
  }

  lemma RunOne(s: Log, e: Event)
    ensures Run(s, [e]) == Next(s, e)
  {
    hide Next;
    var one := [e];
    assert one[1..] == [];
    assert Run(s, one) == Run(Next(s, e), one[1..]);
  }

  lemma RunThree(s: Log, a: Event, b: Event, c: Event)
    ensures Run(s, [a, b, c]) == Next(Next(Next(s, a), b), c)
  {
    hide Next;
    var es := [a, b, c];
    assert es[1..] == [b, c] && es[1..][1..] == [c] && es[1..][1..][1..] == [];
    var s1 := Next(s, a);
    var s2 := Next(s1, b);
    assert Run(s, es) == Run(s1, es[1..]) == Run(s2, es[1..][1..]) == Run(Next(s2, c), es[1..][1..][1..]);
  }

  // ------------------------------------------------------------- the reader

  /** What one getBlock on an announced block leaves. */
  lemma GetTakes(s: Log)
    requires Inv(s) && s.reader.RReady?
    ensures var t := Next(s, Get);
            && t.reader == RHold(BlockAt(s.file, s.readblock))
            && t.writeblock - t.readblock == s.writeblock - s.readblock - 1
            && SealedBlock(BlockAt(s.file, s.readblock))
            && t == s.(file := t.file, readblock := t.readblock, writeblock := t.writeblock, reader := t.reader)
  {
    hide Unpack, Sealed, ReadUint32, BlockAt, OpenInv;
    var bs := FileBlocks(s.file, s.readblock, s.writeblock);
    assert bs[0] == BlockAt(s.file, s.readblock) && bs[0] in bs;
    GetKeepsDisk(s);
  }

  /**
   * One round of readloop on a log with an unread block: it hands over exactly the records of the first unread block, and
   * one block fewer is left.
   */
  lemma RoundDelivers(s: Log)
    requires Inv(s) && s.reader.RIdle? && s.readblock < s.writeblock
    ensures var t := Run(s, ROUND);
            && Reaches(s.file, s.readblock + 1)
            && t.delivered == s.delivered + [Slots(Unpack(BlockAt(s.file, s.readblock)))]
            && t.reader.RIdle? && t.writeblock - t.readblock == s.writeblock - s.readblock - 1
            && t == s.(file := t.file, readblock := t.readblock, writeblock := t.writeblock, delivered := t.delivered)
  {
    var s1 := Next(s, Poll);
    assert s1 == s.(reader := RReady);
    assert Inv(s1) by { hide DiskInv, OpenInv; }
    hide Inv, Unpack;
    GetTakes(s1);
    RunThree(s, Poll, Get, Deliver);
    hide GetStep, Run;
    var s2 := Next(s1, Get);
    assert |s2.reader.block| == BLOCK_SIZE;
  }

  // -------------------------------------------------------------- the drain

  /** Nothing in the open block, and writeloop waits for a record. */
  predicate WriterQuiet(s: Log) {
    s.writer.WIdle? && s.open.length == 0
  }

  /** Steps writeloop still has to take before it is quiet, if no record is offered. */
  function WriterLeft(s: Log): nat {
    match s.writer
    case WIdle => if s.open.length == 0 then 0 else 3
    case WFlush(next) => if next.None? then 2 else 6
    case WReset(next) => if next.None? then 1 else 5
    case WStore(_) => 4
  }

  /** The blocks it still has to append on the way. */
  function Appends(s: Log): nat {
    match s.writer
    case WIdle => if s.open.length == 0 then 0 else 1
    case WFlush(next) => if next.None? then 1 else 2
    case WReset(next) => if next.None? then 0 else 1
    case WStore(_) => 1
  }

  /** Steps both loops still have to take: three for each block, one of them done at RReady, two at RHold. */
  function Left(s: Log): int {
    WriterLeft(s) + 3 * (s.writeblock - s.readblock + Appends(s))
    + (match s.reader case RIdle => 0 case RReady => -1 case RHold(_) => 1 case RStuck => 0)
  }

  predicate Drained(s: Log) {
    WriterQuiet(s) && s.reader.RIdle? && s.readblock == s.writeblock
  }

  /** The writer first, then the reader. */
  function DrainMove(s: Log): Event {
    match s.writer
    case WFlush(_) => Append
    case WReset(_) => ResetOpen
    case WStore(_) => Store
    case WIdle =>
      if s.open.length != 0 then Tick
      else match s.reader case RIdle => Poll case RReady => Get case _ => Deliver
  }

  lemma MoveDrains(s: Log)
    requires Inv(s) && !Drained(s)
    ensures !DrainMove(s).Offer? && Next(s, DrainMove(s)).offered == s.offered
    ensures 0 <= Left(Next(s, DrainMove(s))) < Left(s)
  {
    hide WriteRecord, Unpack, AppendDisk, ReadUint32, AllSealed, FileBlocks, GetStep, Holds, CopyInto;
    if s.writer.WIdle? && s.open.length == 0 {
      if s.reader.RReady? { GetTakes(s); }
    } else {
      assert s.reader.RReady? ==> s.readblock < s.writeblock;
    }
  }

  lemma DrainedQueue(s: Log, old_: seq<seq<byte>>)
    requires Inv(s) && Fifo(s, old_) && Answered(s) && Drained(s)
    ensures Flatten(s.delivered) == Slots(old_ + s.accepted) && s.accepted == Acceptable(s.offered)
  {
    hide Unpack, ReadUint32, AllSealed, Slots, Flatten;
    HoldsNothing(s.open, Unpack(s.open.buf));
    assert Queued(s) == [];
    var none: seq<seq<byte>> := [];
    assert Slots(none) == [];
    assert Flatten(s.delivered) + [] == Flatten(s.delivered);
    assert s.accepted + [] == s.accepted;
  }

  lemma HoldsNothing(st: BlockState, rs: seq<seq<byte>>)
    requires Holds(st, rs) && st.length == 0
    ensures rs == []
  {
  }

  lemma LeftBound(s: Log)
    requires Inv(s)
    ensures Left(s) <= 3 * (s.writeblock - s.readblock) + 13
  {
  }

  /**
   * From any state of the invariant, a bounded number of steps of the two loops, with nothing new offered, hands over every
   * record that was ever accepted: those are then all acceptable records ever offered, in order, behind the old ones.
   */
  lemma {:induction false} LogDrains(s: Log, old_: seq<seq<byte>>) returns (evs: seq<Event>)
    requires Inv(s) && Fifo(s, old_) && Answered(s)
    ensures NoOffers(evs) && |evs| <= Left(s) <= 3 * (s.writeblock - s.readblock) + 13
    ensures var t := Run(s, evs);
            && Inv(t) && Drained(t) && t.offered == s.offered
            && Flatten(t.delivered) == Slots(old_ + t.accepted) == Slots(old_ + Acceptable(s.offered))
    decreases Left(s)
  {
    hide Inv, Fifo, Answered, Drained, Left, Next, DrainMove, Flatten, Slots, Acceptable;
    LeftBound(s);
    if Drained(s) {
      DrainedQueue(s, old_);
      LeftNothing(s);
      evs := [];
    } else {
      var e := DrainMove(s);
      MoveDrains(s);
      MoveOk(s);
      StepKeeps(s, e, old_);
      StepAnswers(s, e);
      var rest := LogDrains(Next(s, e), old_);
      evs := [e] + rest;
      assert evs[1..] == rest;
    }
  }

  lemma LeftNothing(s: Log)
    requires Drained(s)
    ensures Left(s) == 0
  {
  }

  lemma MoveOk(s: Log)
    ensures Admissible(DrainMove(s))
  {
  }

  /**
   * The whole life of a log over a good file: whatever happened so far, steps of the two loops alone hand over the records
   * that were in the file and every acceptable record offered since.
   */
  lemma NothingStays(f: seq<byte>, evs: seq<Event>) returns (more: seq<Event>)
    requires GoodFile(f) && forall e :: e in evs ==> Admissible(e)
    ensures NoOffers(more)
    ensures var s := Run(Open(f), evs);
            && |more| <= 3 * (s.writeblock - s.readblock) + 13
            && Flatten(Run(Open(f), evs + more).delivered) == Slots(Records(UnreadOf(f)) + Acceptable(s.offered))
  {
    hide Inv, Fifo, Answered, Open, Records, UnreadOf, GoodFile, Flatten, Slots, Acceptable, Left, Run;
    OpenEstablishes(f);
    var old_ := Records(UnreadOf(f));
    LogRefinesFifo(Open(f), evs, old_);
    more := LogDrains(Run(Open(f), evs), old_);
    RunAppend(Open(f), evs, more);
  }
}
