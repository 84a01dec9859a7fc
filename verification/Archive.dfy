/**
 * The archive behind the hub: every logged message comes back out of the file log as bytes, is decoded, and becomes a
 * database row if it is a chat message to a client or to a group (saveMessagesToDb in hub/hub.go).
 */
module Archive {
  import opened Bytes
  import opened Addresses
  import opened Wire
  import opened Blocks
  import L = LogModel
  import LogDrain
  import HubLoop
  import J = LoggedHub
  import HubModel
  import Dispatch

  /** A ChatMsg or GroupMsg row; the time of insertion is left out. */
  datatype Row = Row(fromDomain: uint32, toDomain: uint32, source: seq<byte>, dest: seq<byte>,
                     typ: byte, text: seq<byte>, extra: seq<byte>)

  /** What is stored so far: two append-only tables. */
  datatype Tables = Tables(chats: seq<Row>, groupChats: seq<Row>)

  datatype Outcome = Saved | StoreFailed | Panicked

  predicate ToClient(m: Message) {
    m.body.Chat? && Type(m.header.dest) == ADDR_CLIENT
  }

  predicate ToGroup(m: Message) {
    m.body.Chat? && Type(m.header.dest) == ADDR_GROUP
  }

  /** Both address strings can be sliced out of the 32 bytes. */
  predicate Sliceable(m: Message) {
    Address(m.header.source).Some? && Address(m.header.dest).Some?
  }

  /** The address string; slicing out of range ends the process before a row is made, so that case is never stored. */
  function Text(a: Addr): seq<byte> {
    match Address(a) case Some(s) => s case None => []
  }

  function RowOf(m: Message): Row
    requires m.body.Chat?
  {
    Row(Domain(m.header.source), Domain(m.header.dest), Text(m.header.source), Text(m.header.dest),
        m.body.typ, m.body.text, m.body.extra)
  }

  // ----------------------------------------------------------- specification

  /** The message a buffer holds, if it holds one. */
  ghost function OfBuffer(buf: Option<seq<byte>>): seq<Message> {
    if buf.Some? && Decode(buf.value).Ok? then [Decode(buf.value).value] else []
  }

  /** The buffers that hold a message, decoded. */
  ghost function Readable(bufs: seq<Option<seq<byte>>>): seq<Message> {
    if bufs == [] then []
    else
      var n := |bufs| - 1;
      Readable(bufs[..n])
      + OfBuffer(bufs[n])
  }

  predicate Archivable(m: Message) {
    ToClient(m) || ToGroup(m) ==> Sliceable(m)
  }

  ghost function ChatRows(ms: seq<Message>): seq<Row> {
    if ms == [] then []
    else
      var n := |ms| - 1;
      ChatRows(ms[..n]) + (if ToClient(ms[n]) then [RowOf(ms[n])] else [])
  }

  ghost function GroupRows(ms: seq<Message>): seq<Row> {
    if ms == [] then []
    else
      var n := |ms| - 1;
      GroupRows(ms[..n]) + (if ToGroup(ms[n]) then [RowOf(ms[n])] else [])
  }

  /** A nil buffer, or a chat message with an address that claims more than 26 bytes: either ends the process. */
  predicate Breaks(buf: Option<seq<byte>>) {
    buf.None? || (Decode(buf.value).Ok? && !Archivable(Decode(buf.value).value))
  }

  ghost predicate NoneBreaks(bufs: seq<Option<seq<byte>>>) {
    forall i :: 0 <= i < |bufs| ==> !Breaks(bufs[i])
  }

  /** One batch: chats are stored first, group chats only after they were; a failed store call ends the batch. */
  ghost function SaveBatch(t: Tables, bufs: seq<Option<seq<byte>>>, chatsOk: bool, groupsOk: bool): (Tables, Outcome) {
    if !NoneBreaks(bufs) then (t, Panicked)
    else
      var cs, gs := ChatRows(Readable(bufs)), GroupRows(Readable(bufs));
      if cs != [] && !chatsOk then (t, StoreFailed)
      else if gs != [] && !groupsOk then (Tables(t.chats + cs, t.groupChats), StoreFailed)
      else (Tables(t.chats + cs, t.groupChats + gs), Saved)
  }

  // -------------------------------------------------------------- the method

  /** The message store: two tables that only grow. */
  class Store {
    var tables: Tables

    constructor ()
      ensures tables == Tables([], [])
    {
      tables := Tables([], []);
    }

    method SaveChatMsg(rows: seq<Row>)
      modifies this
      ensures tables == Tables(old(tables).chats + rows, old(tables).groupChats)
    {
      tables := tables.(chats := tables.chats + rows);
    }

    method SaveGroupMsg(rows: seq<Row>)
      modifies this
      ensures tables == Tables(old(tables).chats, old(tables).groupChats + rows)
    {
      tables := tables.(groupChats := tables.groupChats + rows);
    }
  }

  /** What one buffer does to the two lists the loop builds. */
  lemma ReadableSnoc(bufs: seq<Option<seq<byte>>>, i: nat)
    requires i < |bufs|
    ensures Readable(bufs[..i + 1])
         == Readable(bufs[..i]) + OfBuffer(bufs[i])
  {
    hide OfBuffer;
    assert bufs[..i + 1][..i] == bufs[..i];
  }

  lemma RowsSnoc(ms: seq<Message>, m: Message)
    ensures ChatRows(ms + [m]) == ChatRows(ms) + (if ToClient(m) then [RowOf(m)] else [])
    ensures GroupRows(ms + [m]) == GroupRows(ms) + (if ToGroup(m) then [RowOf(m)] else [])
  {
    hide RowOf;
    assert (ms + [m])[..|ms|] == ms;
  }

  /** What one more buffer adds to the two tables: the row of its message, if it holds one that gets a row. */
  lemma RowsStep(bufs: seq<Option<seq<byte>>>, i: nat)
    requires i < |bufs|
    ensures var before, after := Readable(bufs[..i]), Readable(bufs[..i + 1]);
            if bufs[i].Some? && Decode(bufs[i].value).Ok? then
              var m := Decode(bufs[i].value).value;
              && ChatRows(after) == ChatRows(before) + (if ToClient(m) then [RowOf(m)] else [])
              && GroupRows(after) == GroupRows(before) + (if ToGroup(m) then [RowOf(m)] else [])
            else after == before
  {
    hide Decode, Readable, RowOf, ToClient, ToGroup;
    ReadableSnoc(bufs, i);
    var before := Readable(bufs[..i]);
    if bufs[i].Some? && Decode(bufs[i].value).Ok? {
      RowsSnoc(before, Decode(bufs[i].value).value);
    } else {
      assert before + [] == before;
    }
  }

  /** The loop of saveMessagesToDb over the batch: the rows so far are those of the buffers so far. */
  method CollectRows(bufs: seq<Option<seq<byte>>>) returns (panicked: bool, chatmsgs: seq<Row>, groupmsgs: seq<Row>)
    ensures panicked <==> !NoneBreaks(bufs)
    ensures !panicked ==>
              chatmsgs == ChatRows(Readable(bufs)) && groupmsgs == GroupRows(Readable(bufs))
  {
    hide Decode, RowOf, Type, Readable, ChatRows, GroupRows, OfBuffer;
    chatmsgs, groupmsgs := [], [];
    NoRows();
    for i := 0 to |bufs|
      invariant forall k :: 0 <= k < i ==> !Breaks(bufs[k])
      invariant chatmsgs == ChatRows(Readable(bufs[..i])) && groupmsgs == GroupRows(Readable(bufs[..i]))
    {
      RowsStep(bufs, i);
      if bufs[i].None? {
        assert Breaks(bufs[i]);
        return true, [], [];
      }
      var decoded := Decode(bufs[i].value);
      if decoded.Fail? {
        continue;
      }
      var packet := decoded.value;
      CommandTellsBody(bufs[i].value);
      if Breaks(bufs[i]) {
        return true, [], [];
      }
      if packet.header.command != MSG_CHAT {
        continue;
      }
      if Type(packet.header.dest) == ADDR_CLIENT {
        chatmsgs := chatmsgs + [RowOf(packet)];
      } else if Type(packet.header.dest) == ADDR_GROUP {
        groupmsgs := groupmsgs + [RowOf(packet)];
      }
    }
    assert bufs[..|bufs|] == bufs;
    panicked := false;
  }

  lemma CommandTellsBody(s: seq<byte>)
    requires Decode(s).Ok?
    ensures Decode(s).value.header.command == MSG_CHAT <==> Decode(s).value.body.Chat?
  {
    DecodeThenEncode(s);
  }

  /** saveMessagesToDb; whether each store call succeeds is given. */
  method SaveMessagesToDb(store: Store, bufs: seq<Option<seq<byte>>>, chatsOk: bool, groupsOk: bool) returns (r: Outcome)
    modifies store
    ensures (store.tables, r) == SaveBatch(old(store.tables), bufs, chatsOk, groupsOk)
  {
    hide Readable, ChatRows, GroupRows, Breaks, NoneBreaks;
    ghost var t := store.tables;
    assert t.chats + [] == t.chats && t.groupChats + [] == t.groupChats;
    var panicked, chatmsgs, groupmsgs := CollectRows(bufs);
    if panicked {
      return Panicked;
    }
    if |chatmsgs| > 0 {
      if !chatsOk {
        return StoreFailed;
      }
      store.SaveChatMsg(chatmsgs);
    }
    if |groupmsgs| > 0 {
      if !groupsOk {
        return StoreFailed;
      }
      store.SaveGroupMsg(groupmsgs);
    }
    r := Saved;
  }

  /** The first byte claims a length that runs past the 32 bytes, or a type whose mask lets bit 7 through. */
  predicate Overlong(a: Addr) {
    a[0] >= 128 || a[0] % 32 > 26
  }

  /**
   * When a batch ends the process: exactly when a buffer is nil, or holds a chat to a client or group one of whose addresses
   * cannot be sliced. Nothing of the batch is stored then.
   */
  lemma PanicsWhen(t: Tables, bufs: seq<Option<seq<byte>>>, chatsOk: bool, groupsOk: bool)
    ensures var (t', r) := SaveBatch(t, bufs, chatsOk, groupsOk);
            && (r.Panicked? <==> exists i :: 0 <= i < |bufs| &&
                                   (bufs[i].None?
                                    || (Decode(bufs[i].value).Ok?
                                        && var m := Decode(bufs[i].value).value;
                                        && m.body.Chat? && (m.header.dest[0] / 32 == 1 || m.header.dest[0] / 32 == 3)
                                        && (Overlong(m.header.source) || Overlong(m.header.dest)))))
            && (r.Panicked? ==> t' == t)
  {
    hide Decode, Readable, ChatRows, GroupRows;
    forall i | 0 <= i < |bufs|
      ensures Breaks(bufs[i]) <==>
                (bufs[i].None?
                 || (Decode(bufs[i].value).Ok?
                     && var m := Decode(bufs[i].value).value;
                     && m.body.Chat? && (m.header.dest[0] / 32 == 1 || m.header.dest[0] / 32 == 3)
                     && (Overlong(m.header.source) || Overlong(m.header.dest))))
    {
    }
    hide Breaks;
  }

  /**
   * What failing store calls leave: chats are stored first and completely or not at all, group chats only behind them; a batch is
   * saved exactly when no call it needs fails.
   */
  lemma FailuresLeave(t: Tables, bufs: seq<Option<seq<byte>>>, chatsOk: bool, groupsOk: bool)
    requires NoneBreaks(bufs)
    ensures var (t', r) := SaveBatch(t, bufs, chatsOk, groupsOk);
            var cs, gs := ChatsTo(Readable(bufs), ADDR_CLIENT), ChatsTo(Readable(bufs), ADDR_GROUP);
            && t.chats <= t'.chats && t.groupChats <= t'.groupChats
            && |t'.chats| == |t.chats| + (if chatsOk then cs else 0)
            && |t'.groupChats| == |t.groupChats| + (if groupsOk && (cs == 0 || chatsOk) then gs else 0)
            && (r.Saved? <==> (cs == 0 || chatsOk) && (gs == 0 || groupsOk))
            && (r.StoreFailed? <==> !r.Saved?)
  {
    hide Readable, ChatRows, GroupRows, NoneBreaks, ChatsTo;
    RowsCounted(Readable(bufs));
  }

  // --------------------------------------------------------------- end to end

  /** Encodings come back as the messages themselves: none is empty, none fails to decode. */
  lemma {:induction false} ReadableEncodings(ms: seq<Message>)
    requires forall m :: m in ms ==> WellFormed(m) && Archivable(m)
    ensures Readable(Slots(EncodeEach(ms))) == ms && NoneBreaks(Slots(EncodeEach(ms)))
  {
    hide Decode, Encode, Archivable, WellFormed;
    var bufs := Slots(EncodeEach(ms));
    forall i | 0 <= i < |ms|
      ensures bufs[i] == Some(Encode(ms[i])) && Decode(Encode(ms[i])) == Ok(ms[i], [])
    {
      assert ms[i] in ms;
      EncodingIsLong(ms[i]);
      RoundTrip(ms[i], []);
      assert Encode(ms[i]) + [] == Encode(ms[i]);
    }
    if ms != [] {
      var n := |ms| - 1;
      ReadableEncodings(ms[..n]);
      assert bufs[..n] == Slots(EncodeEach(ms[..n]));
      assert ms == ms[..n] + [ms[n]];
    }
  }

  lemma EncodingIsLong(m: Message)
    ensures |Encode(m)| >= HEADER_SIZE
  {
    hide EncodeBody;
  }

  lemma {:induction false} ReadableAppend(a: seq<Option<seq<byte>>>, b: seq<Option<seq<byte>>>)
    ensures Readable(a + b) == Readable(a) + Readable(b)
    decreases |b|
  {
    hide OfBuffer;
    if b == [] {
      assert a + b == a;
      assert Readable(a) + [] == Readable(a);
    } else {
      var n := |b| - 1;
      ReadableAppend(a, b[..n]);
      assert (a + b)[..|a| + n] == a + b[..n];
      AppendAssoc(Readable(a), Readable(b[..n]), OfBuffer(b[n]));
    }
  }

  lemma {:induction false} RowsAppend(a: seq<Message>, b: seq<Message>)
    ensures ChatRows(a + b) == ChatRows(a) + ChatRows(b) && GroupRows(a + b) == GroupRows(a) + GroupRows(b)
    decreases |b|
  {
    hide RowOf, Type;
    if b == [] {
      assert a + b == a;
      assert ChatRows(a) + [] == ChatRows(a) && GroupRows(a) + [] == GroupRows(a);
    } else {
      var n := |b| - 1;
      assert a + b == (a + b[..n]) + [b[n]];
      assert b == b[..n] + [b[n]];
      RowsAppend(a, b[..n]);
      RowsSnoc(a + b[..n], b[n]);
    }
  }

  // ---------------------------------------------------------- what a row holds

  /** How many of these are chats to an address of this type. */
  ghost function ChatsTo(ms: seq<Message>, kind: byte): nat {
    if ms == [] then 0
    else
      var n := |ms| - 1;
      ChatsTo(ms[..n], kind) + (if ms[n].body.Chat? && Type(ms[n].header.dest) == kind then 1 else 0)
  }

  lemma {:induction false} RowsCounted(ms: seq<Message>)
    ensures |ChatRows(ms)| == ChatsTo(ms, ADDR_CLIENT) && |GroupRows(ms)| == ChatsTo(ms, ADDR_GROUP)
  {
    hide RowOf, Type;
    if ms != [] {
      RowsCounted(ms[..|ms| - 1]);
    }
  }

  /** Each row stays where the messages before it put it. */
  lemma {:induction false} RowsAt(ms: seq<Message>, i: nat)
    requires i < |ms|
    ensures ToClient(ms[i]) ==>
              var k := ChatsTo(ms[..i], ADDR_CLIENT); k < |ChatRows(ms)| && ChatRows(ms)[k] == RowOf(ms[i])
    ensures ToGroup(ms[i]) ==>
              var k := ChatsTo(ms[..i], ADDR_GROUP); k < |GroupRows(ms)| && GroupRows(ms)[k] == RowOf(ms[i])
  {
    hide RowOf, Type;
    var n := |ms| - 1;
    RowsCounted(ms[..n]);
    if i < n {
      RowsAt(ms[..n], i);
      assert ms[..n][..i] == ms[..i] && ms[..n][i] == ms[i];
    }
  }

  /**
   * The row of a chat, in terms of what its two addresses were built from: sender and receiver on their own sides, and the
   * text as it was sent. It lies in the table of its kind, behind the rows of the earlier chats of that kind.
   */
  lemma RowHolds(ms: seq<Message>, i: nat, typ1: byte, d1: uint32, v1: byte, s1: seq<byte>,
                 d2: uint32, v2: byte, s2: seq<byte>, t: byte, text: seq<byte>, extra: seq<byte>, toGroup: bool)
    requires i < |ms| && typ1 < 4 && |s1| <= MAX_ADDRESS && |s2| <= MAX_ADDRESS
    requires ms[i].header.source == PackAddr(typ1, d1, v1, s1).value
    requires ms[i].header.dest == PackAddr(if toGroup then 3 else 1, d2, v2, s2).value
    requires ms[i].body == Chat(t, text, extra)
    ensures var rows := if toGroup then GroupRows(ms) else ChatRows(ms);
            var k := ChatsTo(ms[..i], if toGroup then 3 else 1);
            k < |rows| && rows[k] == Row(d1, d2, s1, s2, t, text, extra)
  {
    AccessorsInvertPack(typ1, d1, v1, s1);
    AccessorsInvertPack(if toGroup then 3 else 1, d2, v2, s2);
    hide PackAddr, Type, Address, Domain, ChatRows, GroupRows, ChatsTo;
    RowsAt(ms, i);
  }

  /** One chat in the log: its row is appended to the table of its kind, and the other table stays as it is. */
  lemma ChatIsStored(tables: Tables, header: Header, typ1: byte, d1: uint32, v1: byte, s1: seq<byte>,
                     d2: uint32, v2: byte, s2: seq<byte>, t: byte, text: seq<byte>, extra: seq<byte>, toGroup: bool)
    requires typ1 < 4 && |s1| <= MAX_ADDRESS && |s2| <= MAX_ADDRESS && |text| < 0x1_0000_0000 && |extra| < 0x1_0000_0000
    requires header.source == PackAddr(typ1, d1, v1, s1).value && header.command == MSG_CHAT
    requires header.dest == PackAddr(if toGroup then 3 else 1, d2, v2, s2).value
    ensures var row := Row(d1, d2, s1, s2, t, text, extra);
            var after := if toGroup then Tables(tables.chats, tables.groupChats + [row]) else Tables(tables.chats + [row], tables.groupChats);
            SaveBatch(tables, [Some(Encode(Message(header, Chat(t, text, extra))))], true, true) == (after, Saved)
  {
    var m := Message(header, Chat(t, text, extra));
    ChatFits(header, typ1, d1, v1, s1, d2, v2, s2, t, text, extra, toGroup);
    hide *;
    RowHolds([m], 0, typ1, d1, v1, s1, d2, v2, s2, t, text, extra, toGroup);
    OneRow(m, Row(d1, d2, s1, s2, t, text, extra), toGroup);
    SavedAlone(tables, m);
    AddNothing(tables);
  }

  lemma AddNothing(tables: Tables)
    ensures tables.chats + [] == tables.chats && tables.groupChats + [] == tables.groupChats
  {
  }

  lemma OneRow(m: Message, row: Row, toGroup: bool)
    requires m.body.Chat? && Type(m.header.dest) == if toGroup then 3 else 1
    requires var rows := if toGroup then GroupRows([m]) else ChatRows([m]);
             var k := ChatsTo([m][..0], if toGroup then 3 else 1); k < |rows| && rows[k] == row
    ensures ChatRows([m]) == (if toGroup then [] else [row]) && GroupRows([m]) == if toGroup then [row] else []
  {
    hide RowOf, Type, ChatRows, GroupRows;
    RowsCounted([m]);
    OneChat(m);
    assert toGroup ==> GroupRows([m]) == [GroupRows([m])[0]];
    assert !toGroup ==> ChatRows([m]) == [ChatRows([m])[0]];
  }

  lemma ChatFits(header: Header, typ1: byte, d1: uint32, v1: byte, s1: seq<byte>,
                 d2: uint32, v2: byte, s2: seq<byte>, t: byte, text: seq<byte>, extra: seq<byte>, toGroup: bool)
    requires typ1 < 4 && |s1| <= MAX_ADDRESS && |s2| <= MAX_ADDRESS && |text| < 0x1_0000_0000 && |extra| < 0x1_0000_0000
    requires header.source == PackAddr(typ1, d1, v1, s1).value && header.command == MSG_CHAT
    requires header.dest == PackAddr(if toGroup then 3 else 1, d2, v2, s2).value
    ensures var m := Message(header, Chat(t, text, extra));
            WellFormed(m) && Archivable(m) && Type(m.header.dest) == if toGroup then 3 else 1
  {
    AccessorsInvertPack(typ1, d1, v1, s1);
    AccessorsInvertPack(if toGroup then 3 else 1, d2, v2, s2);
    hide PackAddr, Address;
  }

  lemma SavedAlone(tables: Tables, m: Message)
    requires WellFormed(m) && Archivable(m)
    ensures SaveBatch(tables, [Some(Encode(m))], true, true)
         == (Tables(tables.chats + ChatRows([m]), tables.groupChats + GroupRows([m])), Saved)
  {
    hide Encode, Decode, Readable, NoneBreaks, ChatRows, GroupRows, WellFormed, Archivable;
    var ms := [m];
    EncodingIsLong(m);
    ReadableEncodings(ms);
    assert Slots(EncodeEach(ms)) == [Some(Encode(m))];
  }

  lemma OneChat(m: Message)
    requires m.body.Chat?
    ensures ChatsTo([m], ADDR_CLIENT) == (if Type(m.header.dest) == ADDR_CLIENT then 1 else 0)
    ensures ChatsTo([m], ADDR_GROUP) == (if Type(m.header.dest) == ADDR_GROUP then 1 else 0)
    ensures forall kind: byte :: ChatsTo([m][..0], kind) == 0
  {
    var one := [m];
    assert one[..0] == [];
  }

  /** Every batch handed to the subscriber, in order, with no store failure. */
  ghost function SaveAll(t: Tables, batches: seq<seq<Option<seq<byte>>>>): (Tables, Outcome) {
    if batches == [] then (t, Saved)
    else
      var n := |batches| - 1;
      var (t1, r) := SaveAll(t, batches[..n]);
      if r.Saved? then SaveBatch(t1, batches[n], true, true) else (t1, r)
  }

  lemma NoneBreaksAppend(a: seq<Option<seq<byte>>>, b: seq<Option<seq<byte>>>)
    requires NoneBreaks(a + b)
    ensures NoneBreaks(a) && NoneBreaks(b)
  {
    hide Breaks;
    assert forall i :: 0 <= i < |a| ==> (a + b)[i] == a[i];
    assert forall i :: 0 <= i < |b| ==> (a + b)[|a| + i] == b[i];
  }

  /** Cutting the stream of buffers into batches makes no difference to the rows. */
  lemma {:induction false} SaveAllIsOneBatch(batches: seq<seq<Option<seq<byte>>>>)
    requires NoneBreaks(Flatten(batches))
    ensures var ms := Readable(Flatten(batches)); SaveAll(Tables([], []), batches) == (Tables(ChatRows(ms), GroupRows(ms)), Saved)
    decreases |batches|
  {
    hide Readable, NoneBreaks, ChatRows, GroupRows;
    if batches == [] {
      NoRows();
    } else {
      var n := |batches| - 1;
      var front, last := Flatten(batches[..n]), batches[n];
      FlattenSnoc(batches);
      NoneBreaksAppend(front, last);
      SaveAllIsOneBatch(batches[..n]);
      ReadableAppend(front, last);
      RowsAppend(Readable(front), Readable(last));
    }
  }

  lemma NoRows()
    ensures Readable([]) == [] && ChatRows([]) == [] && GroupRows([]) == []
  {
  }

  lemma FlattenSnoc<T>(ss: seq<seq<T>>)
    requires ss != []
    ensures Flatten(ss) == Flatten(ss[..|ss| - 1]) + ss[|ss| - 1]
  {
    var n := |ss| - 1;
    var one := [ss[n]];
    assert ss == ss[..n] + one;
    FlattenAppend(ss[..n], one);
    assert one[1..] == [];
    assert Flatten(one) == ss[n] + [] == ss[n];
  }

  /**
   * What a log that holds encodings of messages hands over, batch by batch, becomes exactly the rows of a first part of
   * those messages, in order: chats to clients in one table, chats to groups in the other. No buffer is nil, none fails
   * to decode, nothing panics.
   */
  lemma RowsAreFilters(f: seq<byte>, evs: seq<L.Event>, ms: seq<Message>)
    requires L.GoodFile(f) && forall e :: e in evs ==> L.Admissible(e)
    requires L.Records(L.UnreadOf(f)) + L.Run(L.Open(f), evs).accepted == EncodeEach(ms)
    requires forall m :: m in ms ==> WellFormed(m) && Archivable(m)
    ensures var s := L.Run(L.Open(f), evs);
            var n := |Flatten(s.delivered)|;
            && n <= |ms|
            && SaveAll(Tables([], []), s.delivered) == (Tables(ChatRows(ms[..n]), GroupRows(ms[..n])), Saved)
  {
    hide L.Run, L.Open, L.Records, L.GoodFile, L.UnreadOf, L.Admissible, SaveAll, ChatRows, GroupRows, Readable, Archivable,
         WellFormed, Flatten, NoneBreaks;
    var rest := DeliveredFirst(f, evs);
    var s := L.Run(L.Open(f), evs);
    var out := Flatten(s.delivered);
    FirstPart(out, rest, ms);
    ReadableEncodings(ms[..|out|]);
    SaveAllIsOneBatch(s.delivered);
  }

  lemma DeliveredFirst(f: seq<byte>, evs: seq<L.Event>) returns (rest: seq<Option<seq<byte>>>)
    requires L.GoodFile(f) && forall e :: e in evs ==> L.Admissible(e)
    ensures var s := L.Run(L.Open(f), evs);
            Flatten(s.delivered) + rest == Slots(L.Records(L.UnreadOf(f)) + s.accepted)
  {
    L.LogLife(f, evs);
    var s := L.Run(L.Open(f), evs);
    hide L.Run, L.Open, L.GoodFile, Flatten, L.Records, L.Admissible;
    rest := Slots(L.Queued(s));
  }

  lemma FirstPart(out: seq<Option<seq<byte>>>, rest: seq<Option<seq<byte>>>, ms: seq<Message>)
    requires out + rest == Slots(EncodeEach(ms))
    ensures |out| <= |ms| && out == Slots(EncodeEach(ms[..|out|]))
  {
    hide Encode;
    assert |out + rest| == |ms|;
    forall i | 0 <= i < |out|
      ensures out[i] == Slots(EncodeEach(ms[..|out|]))[i]
    {
      assert out[i] == (out + rest)[i];
    }
  }

  /** A message that fits the log's length field and whose row, if it gets one, can be made. */
  ghost predicate Loggable(m: Message) {
    WellFormed(m) && Archivable(m) && |Encode(m)| <= 65533
  }

  /**
   * From the dispatcher to the database, over every run of hub and log together. If the messages that entered have well-formed
   * bodies and sliceable addresses and fit the log's length field, the rows stored so far are the chat rows, in order, of a
   * first part of: the messages the log file held at the start, then those the hub kept, in the order it handles them.
   */
  lemma EndToEnd(h: HubModel.Hub, f: seq<byte>, before: seq<Message>, evs: seq<J.Event>)
    requires L.GoodFile(f) && L.Records(L.UnreadOf(f)) == EncodeEach(before)
    requires forall m :: m in before ==> WellFormed(m) && Archivable(m)
    requires var s := J.Run(J.Start(h, f), evs);
             forall j :: j in s.hub.d.entered && j.content.content.RelayMessage? ==> Loggable(j.content.content.env.msg)
    ensures var s := J.Run(J.Start(h, f), evs);
            var all := before + HubLoop.Messages(Dispatch.Kept(s.hub.d.received));
            var n := |Flatten(s.log.delivered)|;
            && n <= |all|
            && SaveAll(Tables([], []), s.log.delivered) == (Tables(ChatRows(all[..n]), GroupRows(all[..n])), Saved)
  {
    hide *;
    J.LogFollowsHub(h, f, evs);
    var s := J.Run(J.Start(h, f), evs);
    var kept := HubLoop.Messages(Dispatch.Kept(s.hub.d.received));
    EachKeptFits(h, f, before, evs);
    TraceAdmits(h, f, evs);
    EncodeBoth(before, kept);
    RowsAreFilters(f, s.logTrace, before + kept);
  }

  /** Every step the log took is one its own results speak of. */
  lemma TraceAdmits(h: HubModel.Hub, f: seq<byte>, evs: seq<J.Event>)
    requires var s := J.Run(J.Start(h, f), evs);
             forall j :: j in s.hub.d.entered && j.content.content.RelayMessage? ==> Loggable(j.content.content.env.msg)
    ensures forall e :: e in J.Run(J.Start(h, f), evs).logTrace ==> L.Admissible(e)
  {
    hide *;
    forall e | e in J.Run(J.Start(h, f), evs).logTrace
      ensures L.Admissible(e)
    {
      if e.Offer? {
        var j := J.OfferedEntered(h, f, evs, e);
        LoggableParts(j.content.content.env.msg);
      }
      Admits(e);
    }
  }

  lemma LoggableParts(m: Message)
    requires Loggable(m)
    ensures WellFormed(m) && Archivable(m) && |Encode(m)| <= 65533
  {
  }

  lemma Admits(e: L.Event)
    requires e.Offer? ==> |e.rec| <= 65533
    ensures L.Admissible(e)
  {
  }

  // ------------------------------------------------------- every row arrives

  /** The log's own steps as steps of the joint system; the answer to a Write is one of both parts. */
  ghost function Lifted(evs: seq<L.Event>): (js: seq<J.Event>)
    ensures |js| == |evs|
  {
    seq(|evs|, i requires 0 <= i < |evs| => if evs[i].Store? then J.Reply else J.Log(evs[i]))
  }

  lemma LiftedStep(s: J.Joint, e: L.Event)
    requires J.Coupled(s) && L.Inv(s.log) && !e.Offer?
    ensures J.Coupled(J.Next(s, Lifted([e])[0])) && J.Next(s, Lifted([e])[0]).log == L.Next(s.log, e)
  {
    hide Encode, WriteRecord, L.Inv, L.OpenShape, HubLoop.Next, J.Coupled;
    J.NoPanic(s.log);
    J.CoupledStep(s, Lifted([e])[0]);
    if e.Store? && s.log.writer.WStore? { HandHeld(s); }
  }

  lemma HandHeld(s: J.Joint)
    requires J.Coupled(s) && s.log.writer.WStore?
    ensures J.MustLog(s.hub)
  {
  }

  lemma {:induction false} LiftedRun(s: J.Joint, evs: seq<L.Event>, old_: seq<seq<byte>>)
    requires J.Coupled(s) && L.Inv(s.log) && L.Fifo(s.log, old_) && LogDrain.NoOffers(evs)
    ensures J.Run(s, Lifted(evs)).log == L.Run(s.log, evs)
    decreases |evs|
  {
    hide J.Coupled, J.Next, L.Inv, L.Fifo, L.Next;
    if evs != [] {
      var e := evs[0];
      LiftedStep(s, e);
      L.StepKeeps(s.log, e, old_);
      assert Lifted(evs)[1..] == Lifted(evs[1..]);
      LiftedRun(J.Next(s, Lifted(evs)[0]), evs[1..], old_);
    }
  }

  /** What the invariants of both parts say where a drain starts. */
  lemma DrainStarts(h: HubModel.Hub, f: seq<byte>, evs: seq<J.Event>)
    requires L.GoodFile(f)
    requires var s := J.Run(J.Start(h, f), evs);
             forall j :: j in s.hub.d.entered && j.content.content.RelayMessage? ==> Loggable(j.content.content.env.msg)
    ensures var s := J.Run(J.Start(h, f), evs);
            && J.Coupled(s) && L.Inv(s.log) && L.Answered(s.log) && L.Fifo(s.log, L.Records(L.UnreadOf(f)))
  {
    hide J.Run, J.Start, L.Inv, L.Fifo, L.Answered, L.Open, L.GoodFile, L.Records, L.UnreadOf, Loggable, J.Coupled, J.OffersEntered, L.Admissible;
    J.InvAt(h, f, evs);
    var s := J.Run(J.Start(h, f), evs);
    TraceAdmits(h, f, evs);
    L.OpenEstablishes(f);
    L.LogRefinesFifo(L.Open(f), s.logTrace, L.Records(L.UnreadOf(f)));
  }

  /**
   * Nothing the hub kept stays out of the database: from any moment of a run of hub and log, steps of the log's two loops
   * alone (and the answer to a Write under way) lead to tables that hold the rows of all messages in the file at the start
   * and of all those the hub kept.
   */
  lemma EveryRowArrives(h: HubModel.Hub, f: seq<byte>, before: seq<Message>, evs: seq<J.Event>) returns (more: seq<J.Event>)
    requires L.GoodFile(f) && L.Records(L.UnreadOf(f)) == EncodeEach(before)
    requires forall m :: m in before ==> WellFormed(m) && Archivable(m)
    requires var s := J.Run(J.Start(h, f), evs);
             forall j :: j in s.hub.d.entered && j.content.content.RelayMessage? ==> Loggable(j.content.content.env.msg)
    ensures forall e :: e in more ==> e.Reply? || (e.Log? && !e.le.Offer?)
    ensures var s := J.Run(J.Start(h, f), evs).log; |more| <= 3 * (s.writeblock - s.readblock) + 13
    ensures var t := J.Run(J.Start(h, f), evs + more);
            var all := before + HubLoop.Messages(Dispatch.Kept(t.hub.d.received));
            && SaveAll(Tables([], []), t.log.delivered) == (Tables(ChatRows(all), GroupRows(all)), Saved)
            && J.Run(J.Start(h, f), evs).hub.d.entered == t.hub.d.entered
  {
    hide *;
    DrainStarts(h, f, evs);
    var s := J.Run(J.Start(h, f), evs);
    var old_ := EncodeEach(before);
    var drain := LogDrain.LogDrains(s.log, old_);
    more := Lifted(drain);
    LiftedRun(s, drain, old_);
    LiftedShape(drain);
    JointAppend(J.Start(h, f), evs, more);
    LiftedEntered(s, more);
    J.LogFollowsHub(h, f, evs + more);
    var t := J.Run(s, more);
    var kept := HubLoop.Messages(Dispatch.Kept(t.hub.d.received));
    EachKeptFits(h, f, before, evs + more);
    EncodeBoth(before, kept);
    ReadableEncodings(before + kept);
    SaveAllIsOneBatch(t.log.delivered);
  }

  lemma EncodeBoth(a: seq<Message>, b: seq<Message>)
    ensures EncodeEach(a + b) == EncodeEach(a) + EncodeEach(b)
  {
    hide Encode;
  }

  lemma LiftedShape(evs: seq<L.Event>)
    requires LogDrain.NoOffers(evs)
    ensures forall e :: e in Lifted(evs) ==> e.Reply? || (e.Log? && !e.le.Offer?)
  {
  }

  lemma {:induction false} JointAppend(s: J.Joint, a: seq<J.Event>, b: seq<J.Event>)
    ensures J.Run(s, a + b) == J.Run(J.Run(s, a), b)
    decreases |a|
  {
    hide J.Next;
    if a == [] {
      assert a + b == b;
    } else {
      JointAppend(J.Next(s, a[0]), a[1..], b);
      assert (a + b)[1..] == a[1..] + b;
    }
  }

  lemma {:induction false} LiftedEntered(s: J.Joint, evs: seq<J.Event>)
    requires forall e :: e in evs ==> e.Reply? || (e.Log? && !e.le.Offer?)
    ensures J.Run(s, evs).hub.d.entered == s.hub.d.entered
    decreases |evs|
  {
    hide J.Next;
    if evs != [] {
      EnteredStays(s, evs[0]);
      LiftedEntered(J.Next(s, evs[0]), evs[1..]);
    }
  }

  lemma EnteredStays(s: J.Joint, e: J.Event)
    requires e.Reply? || e.Log?
    ensures J.Next(s, e).hub.d.entered == s.hub.d.entered
  {
    hide L.Next, WriteRecord, HubLoop.LogSays, HubLoop.Tables;
  }

  lemma EachKeptFits(h: HubModel.Hub, f: seq<byte>, before: seq<Message>, evs: seq<J.Event>)
    requires forall m :: m in before ==> WellFormed(m) && Archivable(m)
    requires var s := J.Run(J.Start(h, f), evs);
             forall j :: j in s.hub.d.entered && j.content.content.RelayMessage? ==> Loggable(j.content.content.env.msg)
    ensures var all := before + HubLoop.Messages(Dispatch.Kept(J.Run(J.Start(h, f), evs).hub.d.received));
            forall m :: m in all ==> WellFormed(m) && Archivable(m)
  {
    hide *;
    var kept := HubLoop.Messages(Dispatch.Kept(J.Run(J.Start(h, f), evs).hub.d.received));
    forall m | m in before + kept
      ensures WellFormed(m) && Archivable(m)
    {
      if m in kept {
        var j := J.KeptEntered(h, f, evs, m);
        LoggableParts(m);
      }
    }
  }
}
