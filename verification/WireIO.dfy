/** Encode and Decode as the source runs them: field by field over a stateful writer and reader. */
module WireIO {
  import opened Bytes
  import opened Addresses
  import opened Wire

  /** An in-memory writer (bytes.Buffer): a Write never fails. */
  class Writer {
    var bytes: seq<byte>

    constructor ()
      ensures bytes == []
    {
      bytes := [];
    }

    method Write(b: seq<byte>)
      modifies this
      ensures bytes == old(bytes) + b
    {
      bytes := bytes + b;
    }

    method WriteBytes(b: seq<byte>)
      modifies this
      ensures bytes == old(bytes) + EncodeBytes(b)
    {
      Write(PutLE(|b| % 0x1_0000_0000, 4));
      Write(b);
    }

    method WriteAddrs(addrs: seq<Addr>)
      modifies this
      ensures bytes == old(bytes) + EncodeAddrs(addrs)
    {
      for i := 0 to |addrs|
        invariant bytes + EncodeAddrs(addrs[i..]) == old(bytes) + EncodeAddrs(addrs)
      {
        assert addrs[i..][1..] == addrs[i + 1..];
        AppendAssoc(bytes, addrs[i], EncodeAddrs(addrs[i + 1..]));
        Write(addrs[i]);
      }
    }

    method EncodeHeader(h: Header)
      modifies this
      ensures bytes == old(bytes) + Wire.EncodeHeader(h)
    {
      Write(h.source);
      Write(h.dest);
      Write(PutLE(h.seqNo, 4));
      Write(PutLE(h.ackSeq, 4));
      Write([h.command]);
      Write([h.status]);
      HeaderAppend(h, []);
    }

    method EncodeGroupInOut(b: Body)
      requires b.GroupInOut?
      modifies this
      ensures bytes == old(bytes) + Wire.EncodeBody(b)
    {
      Write([b.inOut]);
      Write([|b.groups| % 0x100]);
      WriteAddrs(b.groups);
    }

    method EncodeOffline(b: Body)
      requires b.Offline?
      modifies this
      ensures bytes == old(bytes) + Wire.EncodeBody(b)
    {
      Write(b.gone);
      Write([b.notice]);
      Write(PutLE(|b.targets| % 0x1_0000, 2));
      WriteAddrs(b.targets);
    }

    method EncodeLoc(b: Body)
      requires b.Loc?
      modifies this
      ensures bytes == old(bytes) + Wire.EncodeBody(b)
    {
      Write(b.target);
      Write(b.peer);
      Write(b.inServer);
    }

    method EncodeChat(b: Body)
      requires b.Chat?
      modifies this
      ensures bytes == old(bytes) + Wire.EncodeBody(b)
    {
      Write([b.typ]);
      WriteBytes(b.text);
      WriteBytes(b.extra);
    }

    method EncodeChatResp(b: Body)
      requires b.ChatResp?
      modifies this
      ensures bytes == old(bytes) + Wire.EncodeBody(b)
    {
      Write([b.state]);
      WriteBytes(b.err);
    }

    method EncodeLoginAck(b: Body)
      requires b.LoginAck?
      modifies this
      ensures bytes == old(bytes) + Wire.EncodeBody(b)
    {
      WriteBytes(b.remoteAddr);
      Write(PutLE(b.loginAt, 8));
    }

    method EncodeBody(b: Body)
      modifies this
      ensures bytes == old(bytes) + Wire.EncodeBody(b)
    {
      match b
      case LoginAck(_, _) => EncodeLoginAck(b);
      case Chat(_, _, _) => EncodeChat(b);
      case ChatResp(_, _) => EncodeChatResp(b);
      case GroupInOut(_, _) => EncodeGroupInOut(b);
      case Kill(at) => Write(PutLE(at, 8));
      case Loc(_, _, _) => EncodeLoc(b);
      case Offline(_, _, _) => EncodeOffline(b);
      case OfflineNotice(p) => Write(p);
      case QueryClient(p) => Write(p);
      case QueryServers => 
      case Empty => 
    }

    method EncodeMessage(m: Message)
      modifies this
      ensures bytes == old(bytes) + Encode(m)
    {
      EncodeHeader(m.header);
      EncodeBody(m.body);
    }
  }

  /** An in-memory reader (bytes.Reader, bytes.Buffer). */
  class Reader {
    const data: seq<byte>
    var pos: nat

    ghost predicate Valid() reads this { pos <= |data| }

    function Rest(): seq<byte>
      requires Valid()
      reads this
    {
      data[pos..]
    }

    constructor (data: seq<byte>)
      ensures Valid() && Rest() == data
    {
      this.data := data;
      pos := 0;
    }

    /** One Read into a zeroed buffer of n bytes: short at the end of the data, an error when nothing is left. */
    method Read(n: nat) returns (buf: seq<byte>, eof: bool)
      requires Valid()
      modifies this
      ensures Valid()
      ensures var got := Min(n, |old(Rest())|);
              && buf == old(Rest())[..got] + Zeros(n - got)
              && Rest() == old(Rest())[got..]
              && eof == (old(Rest()) == [])
    {
      var got := Min(n, |data| - pos);
      eof := pos == |data|;
      buf := data[pos..pos + got] + Zeros(n - got);
      pos := pos + got;
    }

    /** io.ReadFull: all n bytes or an error, after which nothing is left to read. */
    method ReadFull(n: nat) returns (buf: Option<seq<byte>>)
      requires Valid()
      modifies this
      ensures Valid()
      ensures buf == if |old(Rest())| < n then None else Some(old(Rest())[..n])
      ensures Rest() == if |old(Rest())| < n then [] else old(Rest())[n..]
    {
      if |data| - pos < n {
        pos := |data|;
        return None;
      }
      assert data[pos..pos + n] == data[pos..][..n];
      buf := Some(data[pos..pos + n]);
      pos := pos + n;
    }

    /** The result and the bytes left agree with the specification. */
    ghost predicate Agrees<T>(res: Option<T>, spec: Parsed<T>)
      reads this
    {
      && Valid()
      && match spec
         case Fail => res.None?
         case Ok(v, rest) => res == Some(v) && Rest() == rest
    }

    method ReadUint8() returns (v: Option<byte>)
      requires Valid()
      modifies this
      ensures Agrees(v, ReadByte(old(Rest())))
      ensures v.None? ==> Rest() == [] && old(Rest()) == []
    {
      var buf := ReadFull(1);
      v := if buf.None? then None else Some(buf.value[0]);
    }

    method ReadUint16() returns (v: Option<uint16>)
      requires Valid()
      modifies this
      ensures Agrees(v, Wire.ReadUint16(old(Rest())))
    {
      var buf := ReadFull(2);
      Pow256Widths();
      if buf.Some? { PutGet(buf.value); }
      v := if buf.None? then None else Some(GetLE(buf.value));
    }

    method ReadUint32() returns (v: Option<uint32>)
      requires Valid()
      modifies this
      ensures Agrees(v, Wire.ReadUint32(old(Rest())))
    {
      var buf := ReadFull(4);
      Pow256Widths();
      if buf.Some? { PutGet(buf.value); }
      v := if buf.None? then None else Some(GetLE(buf.value));
    }

    method ReadUint64() returns (v: Option<uint64>)
      requires Valid()
      modifies this
      ensures Agrees(v, Wire.ReadUint64(old(Rest())))
    {
      var buf := ReadFull(8);
      Pow256Widths();
      if buf.Some? { PutGet(buf.value); }
      v := if buf.None? then None else Some(GetLE(buf.value));
    }

    method ReadBytes() returns (b: Option<seq<byte>>)
      requires Valid()
      modifies this
      ensures Agrees(b, Wire.ReadBytes(old(Rest())))
    {
      var n := ReadUint32();
      if n.None? {
        return None;
      }
      b := ReadFull(n.value);
    }

    /** Addr.Decode: the address read, and whether an error was returned. */
    method ReadAddr() returns (a: Addr, eof: bool)
      requires Valid()
      modifies this
      ensures Valid()
      ensures (a, Rest()) == TakeAddr(old(Rest()))
      ensures eof == Wire.ReadAddr(old(Rest())).Fail?
    {
      a, eof := Read(32);
    }

    method DecodeHeader() returns (h: Option<Header>)
      requires Valid()
      modifies this
      ensures Agrees(h, Wire.DecodeHeader(old(Rest())))
    {
      var source, eof := ReadAddr();
      if eof { return None; }
      var dest, eof' := ReadAddr();
      if eof' { return None; }
      var seqNo := ReadUint32();
      if seqNo.None? { return None; }
      var ackSeq := ReadUint32();
      if ackSeq.None? { return None; }
      var command := ReadUint8();
      if command.None? { return None; }
      var status := ReadUint8();
      if status.None? { return None; }
      h := Some(Header(source, dest, seqNo.value, ackSeq.value, command.value, status.value));
    }

    /** The counted loop of MsgGroupInOut.Decode, which appends one decoded address at a time. */
    method ReadGroups(num: nat) returns (list: Option<seq<Addr>>)
      requires Valid()
      modifies this
      ensures Agrees(list, ReadAddrs(num, old(Rest())))
    {
      ghost var spec := ReadAddrs(num, Rest());
      var groups: seq<Addr> := [];
      AfterNothing(spec);
      for i := 0 to num
        invariant Valid()
        invariant spec == After(groups, ReadAddrs(num - i, Rest()))
      {
        ghost var tail := ReadAddrs(num - i, Rest());
        var addr, eof := ReadAddr();
        if eof { return None; }
        AfterStep(groups, addr, ReadAddrs(num - i - 1, Rest()), tail);
        groups := groups + [addr];
      }
      assert groups + [] == groups;
      list := Some(groups);
    }

    /** The counted loop of MsgOffline.Decode, which fills a slice made to size, index by index. */
    method ReadTargets(n: nat) returns (list: Option<seq<Addr>>)
      requires Valid()
      modifies this
      ensures Agrees(list, ReadAddrs(n, old(Rest())))
    {
      ghost var spec := ReadAddrs(n, Rest());
      var targets := new Addr[n](_ => ZERO_ADDR);
      AfterNothing(spec);
      for i := 0 to n
        invariant Valid()
        invariant spec == After(targets[..i], ReadAddrs(n - i, Rest()))
      {
        ghost var tail := ReadAddrs(n - i, Rest());
        ghost var done := targets[..i];
        var addr, eof := ReadAddr();
        if eof { return None; }
        AfterStep(done, addr, ReadAddrs(n - i - 1, Rest()), tail);
        targets[i] := addr;
        assert targets[..i + 1] == done + [addr];
      }
      list := Some(targets[..]);
      assert targets[..n] + [] == targets[..];
    }

    method DecodeGroupInOut() returns (b: Option<Body>)
      requires Valid()
      modifies this
      ensures Agrees(b, Wire.DecodeGroupInOut(old(Rest())))
    {
      var inOut := ReadUint8();
      if inOut.None? { return None; }
      var counted := ReadUint8();
      var num := if counted.None? then 0 else counted.value;
      var groups := ReadGroups(num);
      if groups.None? { return None; }
      b := Some(GroupInOut(inOut.value, groups.value));
    }

    method DecodeOffline() returns (b: Option<Body>)
      requires Valid()
      modifies this
      ensures Agrees(b, Wire.DecodeOffline(old(Rest())))
    {
      var peer, _ := ReadAddr();
      var notice := ReadUint8();
      if notice.None? { return None; }
      var num := ReadUint16();
      if num.None? { return None; }
      var targets := ReadTargets(num.value);
      if targets.None? { return None; }
      b := Some(Offline(peer, notice.value, targets.value));
    }

    method DecodeLoc() returns (b: Option<Body>)
      requires Valid()
      modifies this
      ensures Agrees(b, Wire.DecodeLoc(old(Rest())))
    {
      var target, _ := ReadAddr();
      var peer, _ := ReadAddr();
      var inServer, _ := ReadAddr();
      b := Some(Loc(target, peer, inServer));
    }

    method DecodeChat() returns (b: Option<Body>)
      requires Valid()
      modifies this
      ensures Agrees(b, Wire.DecodeChat(old(Rest())))
    {
      var typ := ReadUint8();
      if typ.None? { return None; }
      var text := ReadBytes();
      if text.None? { return None; }
      var extra := ReadBytes();
      if extra.None? { return None; }
      b := Some(Chat(typ.value, text.value, extra.value));
    }

    method DecodeChatResp() returns (b: Option<Body>)
      requires Valid()
      modifies this
      ensures Agrees(b, Wire.DecodeChatResp(old(Rest())))
    {
      var state := ReadUint8();
      if state.None? { return None; }
      var err := ReadBytes();
      if err.None? { return None; }
      b := Some(ChatResp(state.value, err.value));
    }

    method DecodeLoginAck() returns (b: Option<Body>)
      requires Valid()
      modifies this
      ensures Agrees(b, Wire.DecodeLoginAck(old(Rest())))
    {
      var remote := ReadBytes();
      if remote.None? { return None; }
      var at := ReadUint64();
      if at.None? { return None; }
      b := Some(LoginAck(remote.value, at.value));
    }

    method DecodeBody(command: byte) returns (b: Option<Body>)
      requires Valid()
      modifies this
      ensures Agrees(b, Wire.DecodeBody(command, old(Rest())))
    {
      if command == MSG_CHAT {
        b := DecodeChat();
      } else if command == MSG_CHAT_RESP {
        b := DecodeChatResp();
      } else if command == MSG_GROUP_IN_OUT {
        b := DecodeGroupInOut();
      } else if command == MSG_KILL {
        var at := ReadUint64();
        b := if at.None? then None else Some(Kill(at.value));
      } else if command == MSG_LOGIN_ACK {
        b := DecodeLoginAck();
      } else if command == MSG_LOC {
        b := DecodeLoc();
      } else if command == MSG_OFFLINE {
        b := DecodeOffline();
      } else if command == MSG_OFFLINE_NOTICE {
        var peer, _ := ReadAddr();
        b := Some(OfflineNotice(peer));
      } else if command == MSG_QUERY_CLIENT {
        var peer, _ := ReadAddr();
        b := Some(QueryClient(peer));
      } else if command == MSG_QUERY_SERVERS {
        b := Some(QueryServers);
      } else if command == MSG_EMPTY {
        b := Some(Empty);
      } else {
        b := None;
      }
    }

    method DecodeMessage() returns (m: Option<Message>)
      requires Valid()
      modifies this
      ensures Agrees(m, Decode(old(Rest())))
    {
      var h := DecodeHeader();
      if h.None? { return None; }
      var b := DecodeBody(h.value.command);
      if b.None? { return None; }
      m := Some(Message(h.value, b.value));
    }
  }

  /** The list decoded so far in front of what decoding the rest yields. */
  ghost function After(done: seq<Addr>, rest: Parsed<seq<Addr>>): Parsed<seq<Addr>> {
    if rest.Fail? then Fail else Ok(done + rest.value, rest.rest)
  }

  lemma AfterNothing(rest: Parsed<seq<Addr>>)
    ensures After([], rest) == rest
  {
    if rest.Ok? {
      assert [] + rest.value == rest.value;
    }
  }

  lemma AfterStep(done: seq<Addr>, a: Addr, tail: Parsed<seq<Addr>>, whole: Parsed<seq<Addr>>)
    requires whole == if tail.Fail? then Fail else Ok([a] + tail.value, tail.rest)
    ensures After(done, whole) == After(done + [a], tail)
  {
    if tail.Ok? {
      assert done + ([a] + tail.value) == (done + [a]) + tail.value;
    }
  }

  lemma DecodeAllStep(ms: seq<Message>, s: seq<byte>)
    requires Decode(s).Ok?
    ensures |Decode(s).rest| < |s|
    ensures ms + DecodeAll(s) == (ms + [Decode(s).value]) + DecodeAll(Decode(s).rest)
  {
    hide Decode, Encode, Covers;
    DecodeThenEncode(s);
    AppendAssoc(ms, [Decode(s).value], DecodeAll(Decode(s).rest));
  }

  /** The receive loop of a peer over one non-empty websocket frame (peer/peer.go). */
  method ReceiveFrame(frame: seq<byte>) returns (ms: seq<Message>)
    ensures ms == DecodeAll(frame)
    ensures |ms| * HEADER_SIZE <= |frame|
  {
    var buf := new Reader(frame);
    ms := [];
    while true
      invariant buf.Valid()
      invariant ms + DecodeAll(buf.Rest()) == DecodeAll(frame)
      decreases |buf.Rest()|
    {
      ghost var before := buf.Rest();
      var m := buf.DecodeMessage();
      if m.None? {
        break;
      }
      DecodeAllStep(ms, before);
      ms := ms + [m.value];
    }
    DecodeAllBounded(frame);
  }
}
