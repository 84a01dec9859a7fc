/** The message format: what every Encode writes and every Decode reads (wire/message.go, wire/msg_*.go). */
module Wire {
  import opened Bytes
  import opened Addresses

  const MSG_LOGIN_ACK: byte := 1
  const MSG_CHAT: byte := 3
  const MSG_CHAT_RESP: byte := 4
  const MSG_GROUP_IN_OUT: byte := 5
  const MSG_KILL: byte := 7
  const MSG_LOC: byte := 9
  const MSG_OFFLINE: byte := 11
  const MSG_OFFLINE_NOTICE: byte := 13
  const MSG_QUERY_CLIENT: byte := 15
  const MSG_QUERY_SERVERS: byte := 17
  const MSG_EMPTY: byte := 200

  const GROUP_IN: byte := 1
  const GROUP_OUT: byte := 0
  const STATUS_OK: byte := 200
  const STATUS_EXCEPTION: byte := 100

  const HEADER_SIZE := 74

  datatype Header = Header(source: Addr, dest: Addr, seqNo: uint32, ackSeq: uint32, command: byte, status: byte)

  datatype Body =
    | LoginAck(remoteAddr: seq<byte>, loginAt: uint64)
    | Chat(typ: byte, text: seq<byte>, extra: seq<byte>)
    | ChatResp(state: byte, err: seq<byte>)
    | GroupInOut(inOut: byte, groups: seq<Addr>)
    | Kill(killAt: uint64)
    | Loc(target: Addr, peer: Addr, inServer: Addr)
    | Offline(gone: Addr, notice: byte, targets: seq<Addr>)
    | OfflineNotice(left: Addr)
    | QueryClient(queried: Addr)
    | QueryServers
    | Empty

  datatype Message = Message(header: Header, body: Body)

  /** The command whose MakeEmptyBody case makes this kind of body. */
  function CommandOf(b: Body): byte {
    match b
    case LoginAck(_, _) => MSG_LOGIN_ACK
    case Chat(_, _, _) => MSG_CHAT
    case ChatResp(_, _) => MSG_CHAT_RESP
    case GroupInOut(_, _) => MSG_GROUP_IN_OUT
    case Kill(_) => MSG_KILL
    case Loc(_, _, _) => MSG_LOC
    case Offline(_, _, _) => MSG_OFFLINE
    case OfflineNotice(_) => MSG_OFFLINE_NOTICE
    case QueryClient(_) => MSG_QUERY_CLIENT
    case QueryServers => MSG_QUERY_SERVERS
    case Empty => MSG_EMPTY
  }

  /** The lengths and counts of the body fit the fields they are written to. */
  predicate Fits(b: Body) {
    match b
    case LoginAck(r, _) => |r| < 0x1_0000_0000
    case Chat(_, t, e) => |t| < 0x1_0000_0000 && |e| < 0x1_0000_0000
    case ChatResp(_, e) => |e| < 0x1_0000_0000
    case GroupInOut(_, gs) => |gs| < 0x100
    case Offline(_, _, ts) => |ts| < 0x1_0000
    case _ => true
  }

  predicate WellFormed(m: Message) {
    m.header.command == CommandOf(m.body) && Fits(m.body)
  }

  // --------------------------------------------------------------- encoding

  /** WriteBytes and WriteString: the length goes through uint32. */
  function EncodeBytes(b: seq<byte>): seq<byte> {
    PutLE(|b| % 0x1_0000_0000, 4) + b
  }

  function EncodeAddrs(addrs: seq<Addr>): (s: seq<byte>)
    ensures |s| == 32 * |addrs|
  {
    if addrs == [] then [] else addrs[0] + EncodeAddrs(addrs[1..])
  }

  function EncodeHeader(h: Header): (s: seq<byte>)
    ensures |s| == HEADER_SIZE
  {
    h.source + (h.dest + (PutLE(h.seqNo, 4) + (PutLE(h.ackSeq, 4) + ([h.command] + [h.status]))))
  }

  /** Counts are truncated as the source's uint8(len(..)) and uint16(len(..)) conversions do. */
  function EncodeBody(b: Body): seq<byte> {
    match b
    case LoginAck(r, at) => EncodeBytes(r) + PutLE(at, 8)
    case Chat(t, text, extra) => [t] + (EncodeBytes(text) + EncodeBytes(extra))
    case ChatResp(st, e) => [st] + EncodeBytes(e)
    case GroupInOut(io, gs) => [io] + ([|gs| % 0x100] + EncodeAddrs(gs))
    case Kill(at) => PutLE(at, 8)
    case Loc(t, p, i) => t + (p + i)
    case Offline(p, n, ts) => p + ([n] + (PutLE(|ts| % 0x1_0000, 2) + EncodeAddrs(ts)))
    case OfflineNotice(p) => p
    case QueryClient(p) => p
    case QueryServers => []
    case Empty => []
  }

  function Encode(m: Message): seq<byte> {
    EncodeHeader(m.header) + EncodeBody(m.body)
  }

  // --------------------------------------------------------------- decoding

  /** A read either fails or yields a value and the bytes left in the reader. */
  datatype Parsed<+T> = Fail | Ok(value: T, rest: seq<byte>) {
    predicate IsFailure() { Fail? }
    function PropagateFailure<U>(): Parsed<U> requires Fail? { Fail }
    function Extract(): (T, seq<byte>) requires Ok? { (value, rest) }
  }

  /** io.ReadFull of n bytes, read as a little-endian number. */
  function ReadUint(n: nat, s: seq<byte>): (r: Parsed<nat>)
    ensures r.Ok? <==> |s| >= n
    ensures r.Ok? ==> r.value < Pow256(n) && s == PutLE(r.value, n) + r.rest
  {
    if |s| < n then Fail
    else
      PutGet(s[..n]);
      assert s == s[..n] + s[n..];
      Ok(GetLE(s[..n]), s[n..])
  }

  function ReadByte(s: seq<byte>): (r: Parsed<byte>)
    ensures r.Ok? ==> s == [r.value] + r.rest
  {
    if s == [] then Fail else Ok(s[0], s[1..])
  }

  function ReadUint16(s: seq<byte>): (r: Parsed<uint16>)
    ensures r.Ok? ==> s == PutLE(r.value, 2) + r.rest
  {
    Pow256Widths();
    var (v, rest) :- ReadUint(2, s);
    Ok(v, rest)
  }

  function ReadUint32(s: seq<byte>): (r: Parsed<uint32>)
    ensures r.Ok? ==> s == PutLE(r.value, 4) + r.rest
  {
    Pow256Widths();
    var (v, rest) :- ReadUint(4, s);
    Ok(v, rest)
  }

  function ReadUint64(s: seq<byte>): (r: Parsed<uint64>)
    ensures r.Ok? ==> s == PutLE(r.value, 8) + r.rest
  {
    Pow256Widths();
    var (v, rest) :- ReadUint(8, s);
    Ok(v, rest)
  }

  lemma CutBytes(n: uint32, rest: seq<byte>)
    requires n <= |rest|
    ensures PutLE(n, 4) + rest == EncodeBytes(rest[..n]) + rest[n..]
  {
    assert |rest[..n]| == n;
    assert rest == rest[..n] + rest[n..];
  }

  function ReadBytes(s: seq<byte>): (r: Parsed<seq<byte>>)
    ensures r.Ok? ==> |r.value| < 0x1_0000_0000 && s == EncodeBytes(r.value) + r.rest
  {
    var (n, rest) :- ReadUint32(s);
    if |rest| < n then Fail
    else
      CutBytes(n, rest);
      Ok(rest[..n], rest[n..])
  }

  /** Addr.Decode with its error dropped: one Read, a short one leaving the tail of the address zero. */
  function TakeAddr(s: seq<byte>): (Addr, seq<byte>) {
    var n := Min(32, |s|);
    (s[..n] + Zeros(32 - n), s[n..])
  }

  /** Addr.Decode: only an exhausted reader is an error. */
  function ReadAddr(s: seq<byte>): Parsed<Addr> {
    if s == [] then Fail else var (a, rest) := TakeAddr(s); Ok(a, rest)
  }

  function ReadAddrs(n: nat, s: seq<byte>): (r: Parsed<seq<Addr>>)
    ensures r.Ok? ==> |r.value| == n
  {
    if n == 0 then Ok([], s)
    else
      var (a, s1) :- ReadAddr(s);
      var (as_, s2) :- ReadAddrs(n - 1, s1);
      Ok([a] + as_, s2)
  }

  function DecodeHeader(s: seq<byte>): Parsed<Header> {
    var (source, s1) :- ReadAddr(s);
    var (dest, s2) :- ReadAddr(s1);
    var (seqNo, s3) :- ReadUint32(s2);
    var (ackSeq, s4) :- ReadUint32(s3);
    var (command, s5) :- ReadByte(s4);
    var (status, s6) :- ReadByte(s5);
    Ok(Header(source, dest, seqNo, ackSeq, command, status), s6)
  }

  function DecodeGroupInOut(s: seq<byte>): Parsed<Body> {
    var (inOut, s1) :- ReadByte(s);
    // the error of this read is dropped: a missing count reads as zero
    var num := if s1 == [] then 0 else s1[0];
    var s2 := if s1 == [] then [] else s1[1..];
    var (groups, s3) :- ReadAddrs(num, s2);
    Ok(GroupInOut(inOut, groups), s3)
  }

  function DecodeOffline(s: seq<byte>): Parsed<Body> {
    var (peer, s1) := TakeAddr(s);
    var (notice, s2) :- ReadByte(s1);
    var (num, s3) :- ReadUint16(s2);
    var (targets, s4) :- ReadAddrs(num, s3);
    Ok(Offline(peer, notice, targets), s4)
  }

  function DecodeLoc(s: seq<byte>): Parsed<Body> {
    var (target, s1) := TakeAddr(s);
    var (peer, s2) := TakeAddr(s1);
    var (inServer, s3) := TakeAddr(s2);
    Ok(Loc(target, peer, inServer), s3)
  }

  function DecodeChat(s: seq<byte>): Parsed<Body> {
    var (typ, s1) :- ReadByte(s);
    var (text, s2) :- ReadBytes(s1);
    var (extra, s3) :- ReadBytes(s2);
    Ok(Chat(typ, text, extra), s3)
  }

  function DecodeChatResp(s: seq<byte>): Parsed<Body> {
    var (state, s1) :- ReadByte(s);
    var (err, s2) :- ReadBytes(s1);
    Ok(ChatResp(state, err), s2)
  }

  function DecodeLoginAck(s: seq<byte>): Parsed<Body> {
    var (remote, s1) :- ReadBytes(s);
    var (at, s2) :- ReadUint64(s1);
    Ok(LoginAck(remote, at), s2)
  }

  function DecodeKill(s: seq<byte>): Parsed<Body> {
    var (at, s1) :- ReadUint64(s);
    Ok(Kill(at), s1)
  }

  /** MakeEmptyBody and the Decode of the body it makes; an unknown command is an error. */
  function DecodeBody(command: byte, s: seq<byte>): Parsed<Body> {
    if command == MSG_CHAT then DecodeChat(s)
    else if command == MSG_CHAT_RESP then DecodeChatResp(s)
    else if command == MSG_GROUP_IN_OUT then DecodeGroupInOut(s)
    else if command == MSG_KILL then DecodeKill(s)
    else if command == MSG_LOGIN_ACK then DecodeLoginAck(s)
    else if command == MSG_LOC then DecodeLoc(s)
    else if command == MSG_OFFLINE then DecodeOffline(s)
    else if command == MSG_OFFLINE_NOTICE then Ok(OfflineNotice(TakeAddr(s).0), TakeAddr(s).1)
    else if command == MSG_QUERY_CLIENT then Ok(QueryClient(TakeAddr(s).0), TakeAddr(s).1)
    else if command == MSG_QUERY_SERVERS then Ok(QueryServers, s)
    else if command == MSG_EMPTY then Ok(Empty, s)
    else Fail
  }

  function Decode(s: seq<byte>): Parsed<Message> {
    var (h, s1) :- DecodeHeader(s);
    var (b, s2) :- DecodeBody(h.command, s1);
    Ok(Message(h, b), s2)
  }

  // -------------------------------------------- decoding what was encoded

  lemma ReadUintPut(v: nat, n: nat, rest: seq<byte>)
    requires v < Pow256(n)
    ensures ReadUint(n, PutLE(v, n) + rest) == Ok(v, rest)
  {
    var s := PutLE(v, n) + rest;
    assert s[..n] == PutLE(v, n) && s[n..] == rest;
    GetPut(v, n);
  }

  lemma ReadUint16Put(v: uint16, rest: seq<byte>)
    ensures ReadUint16(PutLE(v, 2) + rest) == Ok(v, rest)
  {
    Pow256Widths();
    ReadUintPut(v, 2, rest);
  }

  lemma ReadUint32Put(v: uint32, rest: seq<byte>)
    ensures ReadUint32(PutLE(v, 4) + rest) == Ok(v, rest)
  {
    Pow256Widths();
    ReadUintPut(v, 4, rest);
  }

  lemma ReadUint64Put(v: uint64, rest: seq<byte>)
    ensures ReadUint64(PutLE(v, 8) + rest) == Ok(v, rest)
  {
    Pow256Widths();
    ReadUintPut(v, 8, rest);
  }

  lemma ReadBytePut(b: byte, rest: seq<byte>)
    ensures ReadByte([b] + rest) == Ok(b, rest)
  {
    assert ([b] + rest)[1..] == rest;
  }

  lemma ReadBytesEncoded(b: seq<byte>, rest: seq<byte>)
    requires |b| < 0x1_0000_0000
    ensures ReadBytes(EncodeBytes(b) + rest) == Ok(b, rest)
  {
    var s := b + rest;
    assert s[..|b|] == b && s[|b|..] == rest;
    assert EncodeBytes(b) + rest == PutLE(|b|, 4) + s by {
      CutBytes(|b|, s);
    }
    ReadUint32Put(|b|, s);
  }

  lemma TakeAddrEncoded(a: Addr, rest: seq<byte>)
    ensures TakeAddr(a + rest) == (a, rest)
    ensures ReadAddr(a + rest) == Ok(a, rest)
  {
    var s := a + rest;
    assert s[..32] == a && s[32..] == rest;
    assert a + Zeros(0) == a;
  }

  lemma {:induction false} ReadAddrsEncoded(addrs: seq<Addr>, rest: seq<byte>)
    ensures ReadAddrs(|addrs|, EncodeAddrs(addrs) + rest) == Ok(addrs, rest)
  {
    if addrs == [] {
      assert EncodeAddrs(addrs) + rest == rest;
    } else {
      var a, tail := addrs[0], addrs[1..];
      AppendAssoc(a, EncodeAddrs(tail), rest);
      TakeAddrEncoded(a, EncodeAddrs(tail) + rest);
      ReadAddrsEncoded(tail, rest);
      assert [a] + tail == addrs;
    }
  }

  lemma HeaderRoundTrip(h: Header, rest: seq<byte>)
    ensures DecodeHeader(EncodeHeader(h) + rest) == Ok(h, rest)
  {
    var s5 := [h.status] + rest;
    var s4 := [h.command] + s5;
    var s3 := PutLE(h.ackSeq, 4) + s4;
    var s2 := PutLE(h.seqNo, 4) + s3;
    var s1 := h.dest + s2;
    assert EncodeHeader(h) + rest == h.source + s1;
    TakeAddrEncoded(h.source, s1);
    TakeAddrEncoded(h.dest, s2);
    ReadUint32Put(h.seqNo, s3);
    ReadUint32Put(h.ackSeq, s4);
    ReadBytePut(h.command, s5);
    ReadBytePut(h.status, rest);
  }

  lemma GroupInOutRoundTrip(b: Body, rest: seq<byte>)
    requires b.GroupInOut? && Fits(b)
    ensures DecodeGroupInOut(EncodeBody(b) + rest) == Ok(b, rest)
  {
    var n := |b.groups|;
    var s2 := EncodeAddrs(b.groups) + rest;
    assert EncodeBody(b) + rest == [b.inOut] + ([n] + s2);
    ReadBytePut(b.inOut, [n] + s2);
    ReadBytePut(n, s2);
    ReadAddrsEncoded(b.groups, rest);
  }

  lemma OfflineRoundTrip(b: Body, rest: seq<byte>)
    requires b.Offline? && Fits(b)
    ensures DecodeOffline(EncodeBody(b) + rest) == Ok(b, rest)
  {
    var n := |b.targets|;
    var s3 := EncodeAddrs(b.targets) + rest;
    var s2 := PutLE(n, 2) + s3;
    assert EncodeBody(b) + rest == b.gone + ([b.notice] + s2);
    TakeAddrEncoded(b.gone, [b.notice] + s2);
    ReadBytePut(b.notice, s2);
    ReadUint16Put(n, s3);
    ReadAddrsEncoded(b.targets, rest);
  }

  lemma LocRoundTrip(b: Body, rest: seq<byte>)
    requires b.Loc?
    ensures DecodeLoc(EncodeBody(b) + rest) == Ok(b, rest)
  {
    assert EncodeBody(b) + rest == b.target + (b.peer + (b.inServer + rest));
    TakeAddrEncoded(b.target, b.peer + (b.inServer + rest));
    TakeAddrEncoded(b.peer, b.inServer + rest);
    TakeAddrEncoded(b.inServer, rest);
  }

  lemma ChatRoundTrip(b: Body, rest: seq<byte>)
    requires b.Chat? && Fits(b)
    ensures DecodeChat(EncodeBody(b) + rest) == Ok(b, rest)
  {
    var s2 := EncodeBytes(b.extra) + rest;
    assert EncodeBody(b) + rest == [b.typ] + (EncodeBytes(b.text) + s2);
    ReadBytePut(b.typ, EncodeBytes(b.text) + s2);
    ReadBytesEncoded(b.text, s2);
    ReadBytesEncoded(b.extra, rest);
  }

  lemma ChatRespRoundTrip(b: Body, rest: seq<byte>)
    requires b.ChatResp? && Fits(b)
    ensures DecodeChatResp(EncodeBody(b) + rest) == Ok(b, rest)
  {
    AppendAssoc([b.state], EncodeBytes(b.err), rest);
    ReadBytePut(b.state, EncodeBytes(b.err) + rest);
    ReadBytesEncoded(b.err, rest);
  }

  lemma LoginAckRoundTrip(b: Body, rest: seq<byte>)
    requires b.LoginAck? && Fits(b)
    ensures DecodeLoginAck(EncodeBody(b) + rest) == Ok(b, rest)
  {
    AppendAssoc(EncodeBytes(b.remoteAddr), PutLE(b.loginAt, 8), rest);
    ReadBytesEncoded(b.remoteAddr, PutLE(b.loginAt, 8) + rest);
    ReadUint64Put(b.loginAt, rest);
  }

  lemma BodyRoundTrip(b: Body, rest: seq<byte>)
    requires Fits(b)
    ensures DecodeBody(CommandOf(b), EncodeBody(b) + rest) == Ok(b, rest)
  {
    hide PutLE, EncodeAddrs, EncodeBytes, TakeAddr;
    match b
    case LoginAck(_, _) => LoginAckRoundTrip(b, rest);
    case Chat(_, _, _) => ChatRoundTrip(b, rest);
    case ChatResp(_, _) => ChatRespRoundTrip(b, rest);
    case GroupInOut(_, _) => GroupInOutRoundTrip(b, rest);
    case Kill(at) => ReadUint64Put(at, rest);
    case Loc(_, _, _) => LocRoundTrip(b, rest);
    case Offline(_, _, _) => OfflineRoundTrip(b, rest);
    case OfflineNotice(p) => TakeAddrEncoded(p, rest);
    case QueryClient(p) => TakeAddrEncoded(p, rest);
    case QueryServers => assert [] + rest == rest;
    case Empty => assert [] + rest == rest;
  }

  // ------------------------------------------- re-encoding what was decoded

  /**
   * enc is the part of s in front of rest, or, when the reader ran dry (rest is empty),
   * all of s padded with the zeros a short read leaves behind.
   */
  predicate Covers(enc: seq<byte>, s: seq<byte>, rest: seq<byte>) {
    || s == enc + rest
    || (rest == [] && |enc| > |s| && enc == s + Zeros(|enc| - |s|))
  }

  lemma CoversThen(e1: seq<byte>, e2: seq<byte>, s: seq<byte>, r1: seq<byte>, r2: seq<byte>)
    requires Covers(e1, s, r1) && Covers(e2, r1, r2)
    ensures Covers(e1 + e2, s, r2)
  {
    var n := |e1 + e2| - |s|;
    if s == e1 + r1 {
      if r1 == e2 + r2 {
        assert s == (e1 + e2) + r2;
      } else {
        assert e1 + e2 == (e1 + r1) + Zeros(|e2| - |r1|);
      }
    } else if r1 == e2 + r2 {
      assert e2 == [] && e1 + e2 == e1;
    } else {
      assert e1 + e2 == s + Zeros(n);
    }
  }

  lemma TakeAddrCovers(s: seq<byte>)
    ensures Covers(TakeAddr(s).0, s, TakeAddr(s).1)
  {
    var n := Min(32, |s|);
    if n == 32 {
      assert s[..n] + Zeros(0) == s[..n];
      assert s == s[..n] + s[n..];
    } else {
      assert s[..n] == s && s[n..] == [];
    }
  }

  lemma {:induction false} ReadAddrsCovers(n: nat, s: seq<byte>)
    ensures var r := ReadAddrs(n, s); r.Ok? ==> Covers(EncodeAddrs(r.value), s, r.rest)
  {
    if n == 0 {
      assert s == [] + s;
    } else if ReadAddrs(n, s).Ok? {
      var a, s1 := TakeAddr(s).0, TakeAddr(s).1;
      var tail := ReadAddrs(n - 1, s1);
      TakeAddrCovers(s);
      ReadAddrsCovers(n - 1, s1);
      CoversThen(a, EncodeAddrs(tail.value), s, s1, tail.rest);
      assert ([a] + tail.value)[1..] == tail.value;
    }
  }

  lemma ReadWholeAddr(s: seq<byte>)
    requires |s| >= 32
    ensures ReadAddr(s) == Ok(s[..32], s[32..]) && s == s[..32] + s[32..]
  {
    assert s == s[..32] + s[32..];
    TakeAddrEncoded(s[..32], s[32..]);
  }

  lemma HeaderDecodes(s: seq<byte>)
    requires |s| >= HEADER_SIZE
    ensures DecodeHeader(s).Ok? && s == EncodeHeader(DecodeHeader(s).value) + DecodeHeader(s).rest
  {
    ReadWholeAddr(s);
    ReadWholeAddr(s[32..]);
    var s2 := s[32..][32..];
    var seqNo, s3 := ReadUint32(s2).value, ReadUint32(s2).rest;
    var ackSeq, s4 := ReadUint32(s3).value, ReadUint32(s3).rest;
    var h := Header(s[..32], s[32..][..32], seqNo, ackSeq, s4[0], s4[1..][0]);
    var rest := s4[1..][1..];
    assert DecodeHeader(s) == Ok(h, rest);
    assert s4 == ([h.command] + [h.status]) + rest;
    HeaderAppend(h, rest);
  }

  lemma ShortHeader(s: seq<byte>)
    requires |s| < HEADER_SIZE
    ensures DecodeHeader(s).Fail?
  {
  }

  /** A header that decodes took exactly its 74 bytes, although an address read alone may fall short. */
  lemma HeaderConsumes(s: seq<byte>)
    ensures DecodeHeader(s).Ok? <==> |s| >= HEADER_SIZE
    ensures DecodeHeader(s).Ok? ==> s == EncodeHeader(DecodeHeader(s).value) + DecodeHeader(s).rest
  {
    if |s| >= HEADER_SIZE {
      HeaderDecodes(s);
    } else {
      ShortHeader(s);
    }
  }

  lemma HeaderAppend(h: Header, rest: seq<byte>)
    ensures EncodeHeader(h) + rest
         == h.source + (h.dest + (PutLE(h.seqNo, 4) + (PutLE(h.ackSeq, 4) + (([h.command] + [h.status]) + rest))))
  {
    var t5 := [h.command] + [h.status];
    var t4 := PutLE(h.ackSeq, 4) + t5;
    var t3 := PutLE(h.seqNo, 4) + t4;
    AppendAssoc(h.source, h.dest + t3, rest);
    AppendAssoc(h.dest, t3, rest);
    AppendAssoc(PutLE(h.seqNo, 4), t4, rest);
    AppendAssoc(PutLE(h.ackSeq, 4), t5, rest);
  }

  lemma CountByteCovers(s1: seq<byte>)
    ensures var num := if s1 == [] then 0 else s1[0];
            Covers([num], s1, if s1 == [] then [] else s1[1..])
  {
    if s1 != [] {
      assert s1 == [s1[0]] + s1[1..];
    } else {
      assert [0] == s1 + Zeros(1);
    }
  }

  lemma GroupInOutCovers(s: seq<byte>)
    ensures var r := DecodeGroupInOut(s); r.Ok? ==> Covers(EncodeBody(r.value), s, r.rest)
  {
    hide ReadAddrs, EncodeAddrs;
    var r := DecodeGroupInOut(s);
    if r.Ok? {
      var s1 := s[1..];
      var num := if s1 == [] then 0 else s1[0];
      var s2 := if s1 == [] then [] else s1[1..];
      var list := EncodeAddrs(r.value.groups);
      CountByteCovers(s1);
      ReadAddrsCovers(num, s2);
      CoversThen([num], list, s1, s2, r.rest);
      CoversThen([r.value.inOut], [num] + list, s, s1, r.rest);
    }
  }

  lemma CountedAddrsCovers(notice: byte, n: uint16, s: seq<byte>)
    requires ReadAddrs(n, s).Ok?
    ensures var r := ReadAddrs(n, s);
            Covers([notice] + (PutLE(n, 2) + EncodeAddrs(r.value)), [notice] + (PutLE(n, 2) + s), r.rest)
  {
    var list, rest := EncodeAddrs(ReadAddrs(n, s).value), ReadAddrs(n, s).rest;
    ReadAddrsCovers(n, s);
    var counted := PutLE(n, 2) + s;
    CoversThen(PutLE(n, 2), list, counted, s, rest);
    CoversThen([notice], PutLE(n, 2) + list, [notice] + counted, counted, rest);
  }

  /** What a decoded Offline body was read from. */
  lemma OfflineParts(s: seq<byte>)
    requires DecodeOffline(s).Ok?
    ensures var r := DecodeOffline(s);
            var (peer, s1) := TakeAddr(s);
            var n, s3 := ReadUint16(s1[1..]).value, ReadUint16(s1[1..]).rest;
            && s1 != [] && ReadUint16(s1[1..]).Ok? && ReadAddrs(n, s3).Ok?
            && r == Ok(Offline(peer, s1[0], ReadAddrs(n, s3).value), ReadAddrs(n, s3).rest)
            && s1 == [s1[0]] + (PutLE(n, 2) + s3)
            && n == |r.value.targets|
  {
    hide PutLE, ReadAddrs, EncodeAddrs, TakeAddr;
  }

  lemma OfflineBodyCovers(b: Body, s: seq<byte>, s1: seq<byte>, n: uint16, s3: seq<byte>, rest: seq<byte>)
    requires b.Offline? && TakeAddr(s) == (b.gone, s1) && s1 == [b.notice] + (PutLE(n, 2) + s3)
    requires ReadAddrs(n, s3) == Ok(b.targets, rest) && n == |b.targets|
    ensures Covers(EncodeBody(b), s, rest)
  {
    hide PutLE, ReadAddrs, EncodeAddrs, TakeAddr, Covers;
    CountedAddrsCovers(b.notice, n, s3);
    TakeAddrCovers(s);
    CoversThen(b.gone, [b.notice] + (PutLE(n, 2) + EncodeAddrs(b.targets)), s, s1, rest);
  }

  lemma OfflineCovers(s: seq<byte>)
    ensures var r := DecodeOffline(s); r.Ok? ==> Covers(EncodeBody(r.value), s, r.rest)
  {
    var r := DecodeOffline(s);
    if r.Ok? {
      OfflineParts(s);
      var s1 := TakeAddr(s).1;
      var n, s3 := ReadUint16(s1[1..]).value, ReadUint16(s1[1..]).rest;
      hide PutLE, ReadAddrs, EncodeBody, TakeAddr, DecodeOffline, ReadUint16, Covers;
      OfflineBodyCovers(r.value, s, s1, n, s3, r.rest);
    }
  }

  lemma LocCovers(s: seq<byte>)
    ensures var r := DecodeLoc(s); r.Ok? && Covers(EncodeBody(r.value), s, r.rest)
  {
    var r := DecodeLoc(s);
    var s1 := TakeAddr(s).1;
    var s2 := TakeAddr(s1).1;
    TakeAddrCovers(s);
    TakeAddrCovers(s1);
    TakeAddrCovers(s2);
    CoversThen(r.value.peer, r.value.inServer, s1, s2, r.rest);
    CoversThen(r.value.target, r.value.peer + r.value.inServer, s, s1, r.rest);
  }

  /** No address is read at the end of such a body, so no short read can pad it. */
  predicate Exact(command: byte) {
    command in {MSG_LOGIN_ACK, MSG_CHAT, MSG_CHAT_RESP, MSG_KILL, MSG_QUERY_SERVERS, MSG_EMPTY}
  }

  lemma ExactBodyCovers(command: byte, s: seq<byte>)
    requires Exact(command)
    ensures var r := DecodeBody(command, s); r.Ok? ==> s == EncodeBody(r.value) + r.rest
  {
    var r := DecodeBody(command, s);
    if r.Ok? {
      var b := r.value;
      if command == MSG_LOGIN_ACK {
        AppendAssoc(EncodeBytes(b.remoteAddr), PutLE(b.loginAt, 8), r.rest);
      } else if command == MSG_CHAT {
        AppendAssoc([b.typ], EncodeBytes(b.text) + EncodeBytes(b.extra), r.rest);
        AppendAssoc(EncodeBytes(b.text), EncodeBytes(b.extra), r.rest);
      } else if command == MSG_CHAT_RESP {
        AppendAssoc([b.state], EncodeBytes(b.err), r.rest);
      } else if command != MSG_KILL {
        assert [] + r.rest == r.rest;
      }
    }
  }

  lemma BodyKind(command: byte, s: seq<byte>)
    ensures var r := DecodeBody(command, s); r.Ok? ==> CommandOf(r.value) == command && Fits(r.value)
  {
    hide PutLE, TakeAddr, EncodeBytes;
  }

  lemma BodyCovers(command: byte, s: seq<byte>)
    ensures var r := DecodeBody(command, s); r.Ok? ==> Covers(EncodeBody(r.value), s, r.rest)
  {
    if Exact(command) {
      ExactBodyCovers(command, s);
    } else if command == MSG_GROUP_IN_OUT {
      GroupInOutCovers(s);
    } else if command == MSG_LOC {
      LocCovers(s);
    } else if command == MSG_OFFLINE {
      OfflineCovers(s);
    } else {
      TakeAddrCovers(s);
    }
  }

  // ------------------------------------------------------------ main results

  /**
   * Whatever bytes arrive, a decoded message is well formed, its encoding is the consumed bytes
   * (padded with zeros only where the reader ran dry), at least 74 bytes were consumed, and for the
   * exact commands the encoding is precisely what was consumed.
   */
  lemma DecodeThenEncode(s: seq<byte>)
    requires Decode(s).Ok?
    ensures var m, rest := Decode(s).value, Decode(s).rest;
            && WellFormed(m)
            && Covers(Encode(m), s, rest)
            && |rest| + HEADER_SIZE <= |s|
            && (Exact(m.header.command) ==> s == Encode(m) + rest)
  {
    HeaderConsumes(s);
    var h, s1 := DecodeHeader(s).value, DecodeHeader(s).rest;
    var m, rest := Decode(s).value, Decode(s).rest;
    BodyKind(h.command, s1);
    BodyCovers(h.command, s1);
    CoversThen(EncodeHeader(h), EncodeBody(m.body), s, s1, rest);
    assert |rest| <= |s1|;
    if Exact(h.command) {
      ExactBodyCovers(h.command, s1);
      AppendAssoc(EncodeHeader(h), EncodeBody(m.body), rest);
    }
  }

  /** A message is read back from in front of any other bytes exactly when it is well formed. */
  lemma RoundTrip(m: Message, rest: seq<byte>)
    ensures Decode(Encode(m) + rest) == Ok(m, rest) <==> WellFormed(m)
  {
    var s := Encode(m) + rest;
    if WellFormed(m) {
      AppendAssoc(EncodeHeader(m.header), EncodeBody(m.body), rest);
      HeaderRoundTrip(m.header, EncodeBody(m.body) + rest);
      BodyRoundTrip(m.body, rest);
    } else if Decode(s) == Ok(m, rest) {
      DecodeThenEncode(s);
    }
  }

  /** No encoding is a proper prefix of another, so the format is self-delimiting. */
  lemma PrefixFree(m: Message, m': Message, tail: seq<byte>)
    requires WellFormed(m) && WellFormed(m') && Encode(m) + tail == Encode(m')
    ensures m == m' && tail == []
  {
    RoundTrip(m, tail);
    RoundTrip(m', []);
    assert Encode(m') + [] == Encode(m');
  }

  /** The receive loop over one websocket frame: decode until the first error. */
  function DecodeAll(s: seq<byte>): (ms: seq<Message>)
    decreases |s|
  {
    if Decode(s).Fail? then []
    else
      DecodeThenEncode(s);
      [Decode(s).value] + DecodeAll(Decode(s).rest)
  }

  function EncodeAll(ms: seq<Message>): seq<byte> {
    if ms == [] then [] else Encode(ms[0]) + EncodeAll(ms[1..])
  }

  function EncodeEach(ms: seq<Message>): (es: seq<seq<byte>>)
    ensures |es| == |ms|
  {
    seq(|ms|, i requires 0 <= i < |ms| => Encode(ms[i]))
  }

  lemma ShortDoesNotDecode(s: seq<byte>)
    requires |s| < HEADER_SIZE
    ensures Decode(s).Fail?
  {
    HeaderConsumes(s);
  }

  /** A frame of concatenated encodings, trailed by less than a header, yields exactly those messages. */
  lemma {:induction false} StreamRoundTrip(ms: seq<Message>, tail: seq<byte>)
    requires forall m :: m in ms ==> WellFormed(m)
    requires |tail| < HEADER_SIZE
    ensures DecodeAll(EncodeAll(ms) + tail) == ms
    decreases |ms|
  {
    if ms == [] {
      assert EncodeAll(ms) + tail == tail;
      ShortDoesNotDecode(tail);
    } else {
      var rest := EncodeAll(ms[1..]) + tail;
      AppendAssoc(Encode(ms[0]), EncodeAll(ms[1..]), tail);
      RoundTrip(ms[0], rest);
      StreamRoundTrip(ms[1..], tail);
      assert [ms[0]] + ms[1..] == ms;
    }
  }

  /** On arbitrary bytes the receive loop yields at most one well-formed message per 74 bytes. */
  lemma {:induction false} DecodeAllBounded(s: seq<byte>)
    ensures |DecodeAll(s)| * HEADER_SIZE <= |s|
    ensures forall m :: m in DecodeAll(s) ==> WellFormed(m)
    decreases |s|
  {
    if Decode(s).Ok? {
      DecodeThenEncode(s);
      DecodeAllBounded(Decode(s).rest);
    }
  }

  /** MakeEmptyRespMessage swaps the two ends, acknowledges the sequence number, and survives the wire. */
  function MakeEmptyRespMessage(from: Header, status: byte): (m: Message)
    ensures WellFormed(m) && m.header.source == from.dest && m.header.dest == from.source
    ensures m.header.ackSeq == from.seqNo && m.header.status == status
  {
    Message(Header(from.dest, from.source, 0, from.seqNo, MSG_EMPTY, status), Empty)
  }

  // ------------------------------------------------------- the byte layout

  /** Where everything of a header lies, and that the body follows at byte 74. */
  lemma HeaderLayout(m: Message)
    ensures var s := Encode(m);
            && |s| == 74 + |EncodeBody(m.body)|
            && s[0..32] == m.header.source && s[32..64] == m.header.dest
            && s[64..68] == PutLE(m.header.seqNo, 4) && s[68..72] == PutLE(m.header.ackSeq, 4)
            && s[72] == m.header.command && s[73] == m.header.status
            && s[74..] == EncodeBody(m.body)
  {
    hide PutLE, EncodeBody;
  }

  lemma {:induction false} AddrsLayout(addrs: seq<Addr>, i: nat)
    requires i < |addrs|
    ensures EncodeAddrs(addrs)[32 * i..32 * i + 32] == addrs[i]
    decreases i
  {
    var s := EncodeAddrs(addrs);
    if i > 0 {
      AddrsLayout(addrs[1..], i - 1);
      assert s[32..] == EncodeAddrs(addrs[1..]);
      assert s[32..][32 * (i - 1)..32 * (i - 1) + 32] == s[32 * i..32 * i + 32];
    }
  }

  /** The command number of every kind of body. */
  lemma CommandNumbers(b: Body)
    ensures CommandOf(b) == match b
              case LoginAck(_, _) => 1
              case Chat(_, _, _) => 3
              case ChatResp(_, _) => 4
              case GroupInOut(_, _) => 5
              case Kill(_) => 7
              case Loc(_, _, _) => 9
              case Offline(_, _, _) => 11
              case OfflineNotice(_) => 13
              case QueryClient(_) => 15
              case QueryServers => 17
              case Empty => 200
  {
  }

  /** Where the parts of a chat lie: type, then each string behind its length. */
  lemma ChatLayout(typ: byte, text: seq<byte>, extra: seq<byte>)
    requires |text| < 0x1_0000_0000 && |extra| < 0x1_0000_0000
    ensures var s, n := EncodeBody(Chat(typ, text, extra)), |text|;
            && |s| == 9 + n + |extra| && s[0] == typ
            && s[1..5] == PutLE(n, 4) && s[5..5 + n] == text
            && s[5 + n..9 + n] == PutLE(|extra|, 4) && s[9 + n..] == extra
  {
    hide PutLE;
    var s, n := EncodeBody(Chat(typ, text, extra)), |text|;
    assert s == [typ] + ((PutLE(n, 4) + text) + (PutLE(|extra|, 4) + extra));
  }

  /** Where the parts of the answers to a chat and to a login lie. */
  lemma AnswerLayout(b: Body)
    ensures b.ChatResp? && |b.err| < 0x1_0000_0000 ==>
              var s := EncodeBody(b);
              && |s| == 5 + |b.err| && s[0] == b.state && s[1..5] == PutLE(|b.err|, 4) && s[5..] == b.err
    ensures b.LoginAck? && |b.remoteAddr| < 0x1_0000_0000 ==>
              var s, n := EncodeBody(b), |b.remoteAddr|;
              && |s| == 12 + n && s[0..4] == PutLE(n, 4) && s[4..4 + n] == b.remoteAddr && s[4 + n..] == PutLE(b.loginAt, 8)
  {
    hide PutLE;
  }

  /** Where the parts of a group command lie. */
  lemma GroupInOutLayout(inOut: byte, groups: seq<Addr>, i: nat)
    requires i < |groups| < 0x100
    ensures var s := EncodeBody(GroupInOut(inOut, groups));
            && |s| == 2 + 32 * |groups| && s[0] == inOut && s[1] == |groups| && s[2 + 32 * i..34 + 32 * i] == groups[i]
  {
    hide EncodeAddrs;
    AddrsLayout(groups, i);
    var s := EncodeBody(GroupInOut(inOut, groups));
    assert s[2..] == EncodeAddrs(groups);
    assert s[2 + 32 * i..34 + 32 * i] == EncodeAddrs(groups)[32 * i..32 * i + 32];
  }

  /** Where the parts of an Offline message lie. */
  lemma OfflineLayout(gone: Addr, notice: byte, targets: seq<Addr>, i: nat)
    requires i < |targets| < 0x1_0000
    ensures var s := EncodeBody(Offline(gone, notice, targets));
            && |s| == 35 + 32 * |targets| && s[0..32] == gone && s[32] == notice
            && s[33..35] == PutLE(|targets|, 2) && s[35 + 32 * i..67 + 32 * i] == targets[i]
  {
    hide PutLE, EncodeAddrs;
    AddrsLayout(targets, i);
    var s := EncodeBody(Offline(gone, notice, targets));
    assert s[35..] == EncodeAddrs(targets);
    assert s[35 + 32 * i..67 + 32 * i] == EncodeAddrs(targets)[32 * i..32 * i + 32];
  }

  /** Where the parts of the other messages hubs make lie. */
  lemma HubMessageLayout(b: Body)
    ensures b.Loc? ==>
              var s := EncodeBody(b); |s| == 96 && s[0..32] == b.target && s[32..64] == b.peer && s[64..96] == b.inServer
    ensures b.Kill? ==> EncodeBody(b) == PutLE(b.killAt, 8)
    ensures b.OfflineNotice? ==> EncodeBody(b) == b.left
  {
    hide PutLE, EncodeAddrs;
  }

  // ------------------------------------------------- which bodies decode

  lemma {:induction false} ReadAddrsWhen(n: nat, s: seq<byte>)
    ensures ReadAddrs(n, s).Ok? <==> n == 0 || |s| > 32 * (n - 1)
    decreases n
  {
    if n > 0 && s != [] {
      ReadAddrsWhen(n - 1, TakeAddr(s).1);
    }
  }

  lemma ReadBytesWhen(s: seq<byte>)
    ensures ReadBytes(s).Ok? <==> |s| >= 4 && |s| >= 4 + GetLE(s[..4])
    ensures ReadBytes(s).Ok? ==> ReadBytes(s).rest == s[4 + GetLE(s[..4])..]
  {
    hide GetLE, PutLE;
  }

  /** A chat: its type, and each of the two strings whole behind its length. */
  predicate ChatWhole(s: seq<byte>) {
    && |s| >= 5
    && var n := GetLE(s[1..5]);
    && |s| >= 9 + n
    && |s| >= 9 + n + GetLE(s[5 + n..9 + n])
  }

  /**
   * The bodies that decode, for every command and whatever bytes are there. Addresses alone never fail; a list of them only when
   * the reader is empty before its last one, so that a cut-off group command without its count is an empty list.
   */
  lemma BodyDecodesWhen(command: byte, s: seq<byte>)
    ensures DecodeBody(command, s).Ok? <==>
              if command == 3 then ChatWhole(s)
              else if command == 4 then |s| >= 5 && |s| >= 5 + GetLE(s[1..5])
              else if command == 5 then s != [] && (|s| == 1 || s[1] == 0 || |s| > 2 + 32 * (s[1] as int - 1))
              else if command == 7 then |s| >= 8
              else if command == 1 then |s| >= 4 && |s| >= 12 + GetLE(s[..4])
              else if command == 11 then
                |s| >= 35 && (GetLE(s[33..35]) == 0 || |s| > 35 + 32 * (GetLE(s[33..35]) - 1))
              else command == 9 || command == 13 || command == 15 || command == 17 || command == 200
  {
    hide GetLE, ReadBytes, ReadAddrs, DecodeLoc, DecodeChat, DecodeChatResp, DecodeLoginAck, DecodeOffline, DecodeGroupInOut;
    match command
    case 1 => LoginAckWhen(s);
    case 3 => ChatWhen(s);
    case 4 => ChatRespWhen(s);
    case 5 => GroupInOutWhen(s);
    case 9 => LocAlways(s);
    case 11 => OfflineWhen(s);
    case _ =>
  }

  lemma LoginAckWhen(s: seq<byte>)
    ensures DecodeLoginAck(s).Ok? <==> |s| >= 4 && |s| >= 12 + GetLE(s[..4])
  {
    hide GetLE, ReadBytes;
    ReadBytesWhen(s);
  }

  lemma ChatRespWhen(s: seq<byte>)
    ensures DecodeChatResp(s).Ok? <==> |s| >= 5 && |s| >= 5 + GetLE(s[1..5])
  {
    hide GetLE, ReadBytes;
    if s != [] {
      ReadBytesWhen(s[1..]);
      assert |s| >= 5 ==> s[1..][..4] == s[1..5];
    }
  }

  lemma ChatWhen(s: seq<byte>)
    ensures DecodeChat(s).Ok? <==> ChatWhole(s)
  {
    hide GetLE, ReadBytes;
    if s != [] {
      ReadBytesWhen(s[1..]);
      if |s| >= 5 {
        assert s[1..][..4] == s[1..5];
        var n := GetLE(s[1..5]);
        if |s| >= 5 + n {
          assert s[1..][4 + n..] == s[5 + n..];
          ReadBytesWhen(s[5 + n..]);
          assert |s| >= 9 + n ==> s[5 + n..][..4] == s[5 + n..9 + n];
        }
      }
    }
  }

  lemma GroupInOutWhen(s: seq<byte>)
    ensures DecodeGroupInOut(s).Ok? <==> s != [] && (|s| == 1 || s[1] == 0 || |s| > 2 + 32 * (s[1] as int - 1))
  {
    hide ReadAddrs;
    if |s| == 1 {
      ReadAddrsWhen(0, []);
    } else if |s| > 1 {
      ReadAddrsWhen(s[1], s[1..][1..]);
    }
  }

  lemma LocAlways(s: seq<byte>)
    ensures DecodeLoc(s).Ok?
  {
  }

  lemma OfflineWhen(s: seq<byte>)
    ensures DecodeOffline(s).Ok? <==>
              |s| >= 35 && (GetLE(s[33..35]) == 0 || |s| > 35 + 32 * (GetLE(s[33..35]) - 1))
  {
    hide ReadAddrs, GetLE;
    if |s| >= 35 {
      var s1 := s[32..];
      assert TakeAddr(s).1 == s1;
      var s2 := s1[1..];
      assert s2[..2] == s[33..35] && s2[2..] == s[35..];
      ReadAddrsWhen(GetLE(s[33..35]), s[35..]);
    }
  }
}
