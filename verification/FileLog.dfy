/** FileLog as the source writes it: one object, its methods the atomic stretches of the two goroutines. */
module FileLogs {
  import opened Bytes
  import opened Blocks
  import opened Disk
  import opened LogModel

  class FileLog {
    var file: seq<byte>
    var writeblock: nat
    var readblock: nat
    const block: Block               // writeloop's local block
    var writer: WriterPc             // where writeloop stands
    var reader: ReaderPc             // where readloop stands
    ghost var offered: seq<seq<byte>>
    ghost var accepted: seq<seq<byte>>
    ghost var delivered: seq<seq<Option<seq<byte>>>>

    ghost function State(): Log
      reads this, block, block.buf
    {
      Log(file, readblock, writeblock, block.State(), writer, reader, offered, accepted, delivered)
    }

    /** NewFileLog. */
    constructor (f: seq<byte>)
      ensures State() == Open(f) && fresh(block) && fresh(block.buf)
    {
      var buf := new byte[BLOCK_SIZE](_ => 0);
      assert buf[..] == Zeros(BLOCK_SIZE);
      assert GetLE(buf[..2]) == 0 by {
        assert buf[..2] == Zeros(2);
        ZeroCount();
        Pow256Widths();
        GetPut(0, 2);
      }
      block := new Block(buf, MODE_WRITE);
      file, readblock, writeblock := f, ReadUint32(f, 0), ReadUint32(f, 4);
      writer, reader := WIdle, RIdle;
      offered, accepted, delivered := [], [], [];
    }

    /** The first half of writeloop's record case: receive, and flush first if the block lacks space. */
    method Offer(rec: seq<byte>)
      requires writer.WIdle?
      modifies this
      ensures State() == Next(old(State()), Event.Offer(rec))
    {
      offered := offered + [rec];
      if !block.HasRoom((|rec| + 2) % 0x1_0000) {
        writer := WFlush(Some(rec));
      } else {
        writer := WStore(rec);
      }
    }

    /** writeloop's ticker case. */
    method Tick()
      requires writer.WIdle?
      modifies this
      ensures State() == Next(old(State()), Event.Tick)
    {
      if block.length > 0 {
        writer := WFlush(None);
      }
    }

    /** appendBlock, under the lock: the block first, then the write index. */
    method AppendBlock()
      requires writer.WFlush? && !reader.RStuck?
      modifies this
      ensures State() == Next(old(State()), Append)
    {
      var offset := writeblock * BLOCK_SIZE + HEADER_BYTES;
      file := WriteAt(file, offset, block.buf[..]);
      writeblock := writeblock + 1;
      file := WriteUint32(file, writeblock, 4);
      writer := WReset(writer.next);
    }

    /** block.reset after an append. */
    method ResetOpen()
      requires writer.WReset? && block.buf.Length == BLOCK_SIZE
      modifies this, block, block.buf
      ensures State() == Next(old(State()), Event.ResetOpen)
    {
      block.ResetBlock();
      match writer.next
      case None => writer := WIdle;
      case Some(rec) => writer := WStore(rec);
    }

    /** The second half of writeloop's record case: the write whose result answers the caller. */
    method Store() returns (err: Option<WriteResult>)
      requires writer.WStore? && !WriteRecord(block.State(), writer.rec).Panic?
      modifies this, block, block.buf
      ensures State() == Next(old(State()), Event.Store)
      ensures err.None? <==> WriteRecord(old(block.State()), old(writer).rec).Written?
    {
      hide WriteRecord;
      err := block.Write(writer.rec);
      if err == None {
        accepted := accepted + [writer.rec];
      }
      writer := WIdle;
    }

    /** nextBlock, under the lock. */
    method NextBlock() returns (more: bool)
      requires reader.RIdle?
      modifies this
      ensures State() == Next(old(State()), Poll)
      ensures more == (readblock != writeblock)
    {
      more := readblock != writeblock;
      if more {
        reader := RReady;
      }
    }

    /** getBlock, under the lock; a failed read returns with the lock still held. */
    method GetBlock() returns (buf: Option<seq<byte>>)
      requires reader.RReady?
      modifies this
      ensures State() == Next(old(State()), Get)
      ensures buf.Some? ==> reader == RHold(buf.value)
    {
      if readblock == writeblock {
        reader := RIdle;
        return None;
      }
      if |file| < HEADER_BYTES + (readblock + 1) * BLOCK_SIZE {
        reader := RStuck;
        return None;
      }
      buf := Some(BlockAt(file, readblock));
      readblock := readblock + 1;
      if readblock == writeblock {
        readblock := 0;
        writeblock := 0;
        file := WriteUint32(file, 0, 4);
        file := Truncate(file, HEADER_BYTES);
      }
      file := WriteUint32(file, readblock, 0);
      reader := RHold(buf.value);
    }

    /** The rest of readloop's body: read every slot of the block and hand the list over. */
    method Deliver() returns (list: seq<Option<seq<byte>>>)
      requires reader.RHold? && SealedBlock(reader.block)
      modifies this
      ensures State() == Next(old(State()), Event.Deliver)
      ensures list == Slots(Unpack(old(reader).block))
    {
      hide Unpack, Sealed;
      var bytes := reader.block;
      var buf := new byte[BLOCK_SIZE](i requires 0 <= i < BLOCK_SIZE => bytes[i]);
      assert buf[..] == bytes;
      list := ReadSlots(buf, Unpack(bytes));
      delivered := delivered + [list];
      reader := RIdle;
    }
  }
}
