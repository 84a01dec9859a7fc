/**
 * Runs from start-up that end where the code fails: a hub that dereferences a nil peer, a dispatcher that stops for good,
 * and a group dropped while a client still has it recorded.
 */
module Incidents {
  import opened Bytes
  import opened Addresses
  import opened Wire
  import opened HubModel
  import opened HubFacts
  import C = Cluster
  import Delivery
  import Quiescence
  import Sessions
  import Blocks
  import H = HubLoop
  import D = Dispatch

  // --------------------------------------------------------------- addresses

  ghost function ServerNo(i: uint32): Addr { PackAddr(ADDR_SERVER, i, 0, []).value }

  ghost function ClientNo(i: uint32, device: byte): Addr { PackAddr(ADDR_CLIENT, i, device, []).value }

  ghost function GroupNo(i: uint32): Addr { PackAddr(ADDR_GROUP, i, 0, []).value }

  lemma Types(i: uint32, device: byte)
    ensures Type(ServerNo(i)) == ADDR_SERVER && Type(ClientNo(i, device)) == ADDR_CLIENT && Type(GroupNo(i)) == ADDR_GROUP
  {
    AccessorsInvertPack(ADDR_SERVER, i, 0, []);
    AccessorsInvertPack(ADDR_CLIENT, i, device, []);
    AccessorsInvertPack(ADDR_GROUP, i, 0, []);
  }

  lemma Distinct(i: uint32, j: uint32, device: byte, device': byte)
    ensures ServerNo(i) == ServerNo(j) <==> i == j
    ensures GroupNo(i) == GroupNo(j) <==> i == j
    ensures ClientNo(i, device) == ClientNo(j, device') <==> i == j && device == device'
  {
    PackInjective(ADDR_SERVER, i, 0, [], ADDR_SERVER, j, 0, []);
    PackInjective(ADDR_GROUP, i, 0, [], ADDR_GROUP, j, 0, []);
    PackInjective(ADDR_CLIENT, i, device, [], ADDR_CLIENT, j, device', []);
  }

  const ANY := Choice(0, [], [])

  ghost function Chatting(source: Addr, dest: Addr): Message {
    Message(Header(source, dest, 0, 0, MSG_CHAT, 0), Chat(0, [], []))
  }

  // ------------------------------------------------------------ a crashed hub

  /** Two servers, and a client connecting to each: w to a, r to b. */
  datatype Cast = Cast(a: Addr, b: Addr, w: Conn, r: Conn)

  ghost predicate Fit(x: Cast) {
    && x.a != x.b && x.w.addr != x.r.addr
    && Type(x.a) == Type(x.b) == ADDR_SERVER && Type(x.w.addr) == Type(x.r.addr) == ADDR_CLIENT
  }

  ghost function Greeting(x: Cast): Env { Env(1, 0, Chatting(x.w.addr, x.r.addr)) }

  ghost function Killing(c: Conn): Env { System(c.addr, c.addr, Kill(0)) }

  /** What the reader's hub answers the greeting with. */
  ghost function Located(x: Cast): Env { System(x.b, x.a, Loc(x.w.addr, x.r.addr, x.b)) }

  /** The orders in which the writer's one session and its one server are walked. */
  ghost function Leaving(x: Cast): Choice { Choice(0, [x.r.addr], [x.a]) }

  ghost function Registered(x: Cast, self: Addr, c: Conn): Hub {
    Handle(C.EmptyHub(self, {x.a, x.b}), Packet(self, AddClient(c), None), ANY)
  }

  lemma RegisteredIs(x: Cast, self: Addr, other: Addr, c: Conn)
    requires Fit(x)
    requires (self == x.a && other == x.b) || (self == x.b && other == x.a)
    ensures var h := Registered(x, self, c);
            && h.self == self && h.links.Keys == {other} && h.links[other] == [Killing(c)] && h.clients == map[c.addr := Client(c, map[], {})]
            && h.location == map[] && h.groups == map[] && h.queued == [] && !h.crashed
  {
    hide Register;
    var h := C.EmptyHub(self, {x.a, x.b});
    assert h.links.Keys == {other} && h.links[other] == [];
    RegisterFrame(h, c, 0);
    assert [] + [Killing(c)] == [Killing(c)];
  }

  /** Hub A after the writer's greeting went out to all servers. */
  ghost function Greeted(x: Cast): Hub {
    Handle(Registered(x, x.a, x.w), Packet(x.w.addr, RelayMessage(Greeting(x)), None), ANY)
  }

  lemma GreetedIs(x: Cast)
    requires Fit(x)
    ensures var h := Greeted(x);
            && h.self == x.a && h.links.Keys == {x.b} && h.links[x.b] == [Killing(x.w), Greeting(x)]
            && h.clients.Keys == {x.w.addr}
            && h.clients[x.w.addr] == Client(x.w, map[x.r.addr := x.a], {})
            && h.location == map[] && h.groups == map[] && h.queued == [] && !h.crashed
  {
    RegisteredIs(x, x.a, x.b, x.w);
    var h, w := Registered(x, x.a, x.w), x.w.addr;
    var header := Greeting(x).msg.header;
    Sessions.RecordedSessions(h, w, header);
    Sessions.RoutedSessions(h, w, Greeting(x), None);
    RelayedClients(h, w, Greeting(x), None);
    RecordFrame(h, w, header);
    Delivery.RelayedLocations(h, w, Greeting(x));
    RelayedLink(h, w, Greeting(x), None, x.b);
    RelayedKeys(h, w, Greeting(x), None);
    RouteKeepsGroups(h, w, Greeting(x));
    hide Registered, Relayed, Record, Type;
    assert [Killing(x.w)] + ([] + [Greeting(x)]) == [Killing(x.w), Greeting(x)];
  }

  /** A message to a client touches no group. */
  lemma RouteKeepsGroups(h: Hub, from: Addr, env: Env)
    requires Type(env.msg.header.dest) == ADDR_CLIENT && env.msg.header.dest != h.self
    ensures Relayed(h, from, env, None).groups == h.groups
  {
    hide Record, Type, Broadcast, PushLink;
    RecordFrame(h, from, env.msg.header);
    var h1 := Record(h, from, env.msg.header);
    BroadcastLinks(h1, env);
    if env.msg.header.dest in h1.location { PushLinkLinks(h1, h1.location[env.msg.header.dest], env); }
  }

  /** Hub B after it pushed the greeting to the reader. */
  ghost function Delivered(x: Cast): Hub {
    Handle(Registered(x, x.b, x.r), Packet(x.a, RelayMessage(C.Arrived(Greeting(x))), None), ANY)
  }

  lemma DeliveredIs(x: Cast)
    requires Fit(x)
    ensures var h := Delivered(x);
            && h.self == x.b && h.links.Keys == {x.a} && h.links[x.a] == [Killing(x.r), Located(x)]
            && h.queued == [] && !h.crashed
  {
    RegisteredIs(x, x.b, x.a, x.r);
    var h, env := Registered(x, x.b, x.r), C.Arrived(Greeting(x));
    RelayedClients(h, x.a, env, None);
    RelayedLink(h, x.a, env, None, x.a);
    RelayedKeys(h, x.a, env, None);
    hide Registered, Relayed, Type;
    assert [Killing(x.r)] + ([Located(x)] + []) == [Killing(x.r), Located(x)];
  }

  /** Hub A once the greeting has left its link. */
  ghost function Sent(x: Cast): Hub { Greeted(x).(links := Greeted(x).links[x.b := [Killing(x.w)]]) }

  ghost function Departed(x: Cast): Hub {
    Handle(Sent(x), Packet(x.w.addr, DelClient(x.w), None), Leaving(x))
  }

  /** The Offline packet hub A queues to itself. */
  ghost function OwnOffline(x: Cast): Packet { Sessions.ToSelf(x.a, x.w, [x.r.addr]) }

  lemma DepartedIs(x: Cast)
    requires Fit(x)
    ensures var h := Departed(x); h.self == x.a && h.clients == map[] && h.queued == [OwnOffline(x)] && !h.crashed
  {
    GreetedIs(x);
    var h, w, r := Sent(x), x.w, x.r.addr;
    UnregisterFrame(h, w, Leaving(x));
    UnregisterOut(h, w, Leaving(x));
    assert h.clients[w.addr].sessions == map[r := x.a];
    OneSession(r, x.a);
    OneSelfOut(h, x.a, map[x.a := [r]], w);
    hide Greeted, Unregister, SessionServers, SelfOut;
    assert [] + [OwnOffline(x)] == [OwnOffline(x)];
    assert h.clients - {w.addr} == map[];
  }

  lemma OneSession(p: Addr, server: Addr)
    ensures SessionServers(map[p := server], [p]) == map[server := [p]]
  {
    var one := [p];
    var none: seq<Addr> := [];
    assert one[..|one| - 1] == none && none + one == one;
    assert SessionServers(map[p := server], none) == map[];
    assert SessionServers(map[p := server], one) == map[server := none + [p]];
  }

  lemma OneSelfOut(h: Hub, server: Addr, m: map<Addr, seq<Addr>>, peer: Conn)
    requires server in m && server !in h.links
    ensures SelfOut(h, [server], m, peer) == [Sessions.ToSelf(h.self, peer, m[server])]
  {
    var one := [server];
    assert one[..0] == [];
    assert SelfOut(h, one[..0], m, peer) == [];
  }

  /** Both hubs and their queues. */
  ghost predicate Are(x: Cast, s: C.State, ha: Hub, hb: Hub, qa: seq<Packet>, qb: seq<Packet>) {
    && s.hubs.Keys == s.inbox.Keys == {x.a, x.b}
    && s.hubs[x.a] == ha && s.hubs[x.b] == hb && s.inbox[x.a] == qa && s.inbox[x.b] == qb
  }

  lemma ArriveA(x: Cast, s: C.State, ha: Hub, hb: Hub, qb: seq<Packet>, e: C.Event, p: Packet)
    requires Are(x, s, ha, hb, [], qb) && x.a != x.b && C.Enabled(s, e)
    requires || (e.Connect? && e.at == x.a && p == Packet(x.a, AddClient(e.peer), None))
             || (e.Disconnect? && e.at == x.a && p == Packet(e.peer.addr, DelClient(e.peer), None))
             || (e.Send? && e.at == x.a && p == Packet(e.from, RelayMessage(Env(e.tag, 0, C.Stamped(x.a, e.from, e.msg))), None))
    ensures Are(x, C.Next(s, e), ha, hb, [p], qb) && (!e.Send? ==> C.Next(s, e).sent == s.sent)
  {
    hide C.Stamped, Type;
    assert [] + [p] == [p];
  }

  lemma ArriveB(x: Cast, s: C.State, ha: Hub, hb: Hub, qa: seq<Packet>, c: Conn)
    requires Are(x, s, ha, hb, qa, []) && x.a != x.b && Type(c.addr) == ADDR_CLIENT
    ensures Are(x, C.Next(s, C.Connect(x.b, c)), ha, hb, qa, [Packet(x.b, AddClient(c), None)])
    ensures C.Next(s, C.Connect(x.b, c)).sent == s.sent
  {
    hide Type;
    var p := Packet(x.b, AddClient(c), None);
    assert [] + [p] == [p];
  }

  lemma ProcessNext(s: C.State, i: Addr, ch: Choice)
    requires C.Enabled(s, C.Process(i, ch))
    ensures var t, r := C.Next(s, C.Process(i, ch)), Handle(s.hubs[i], s.inbox[i][0], ch);
            && t.hubs == s.hubs[i := r.(queued := [])] && t.inbox == s.inbox[i := s.inbox[i][1..] + r.queued] && t.sent == s.sent
  {
    hide Handle;
  }

  /** Hub A handles its next packet. */
  lemma ProcessA(x: Cast, s: C.State, ha: Hub, hb: Hub, p: Packet, qa: seq<Packet>, qb: seq<Packet>, ch: Choice)
    requires Are(x, s, ha, hb, [p] + qa, qb) && x.a != x.b && !ha.crashed
    ensures var r := Handle(ha, p, ch);
            Are(x, C.Next(s, C.Process(x.a, ch)), r.(queued := []), hb, qa + r.queued, qb)
    ensures C.Next(s, C.Process(x.a, ch)).sent == s.sent
  {
    ProcessNext(s, x.a, ch);
    hide Handle, C.Next;
    assert ([p] + qa)[1..] == qa;
  }

  lemma ProcessB(x: Cast, s: C.State, ha: Hub, hb: Hub, p: Packet, qa: seq<Packet>, ch: Choice)
    requires Are(x, s, ha, hb, qa, [p]) && x.a != x.b && !hb.crashed && Handle(hb, p, ch).queued == []
    ensures Are(x, C.Next(s, C.Process(x.b, ch)), ha, Handle(hb, p, ch), qa, []) && C.Next(s, C.Process(x.b, ch)).sent == s.sent
  {
    hide Handle, C.DeliverStep, C.Stamped, GroupStep, Type;
    var q := [p];
    assert q[1..] + [] == [];
  }

  /** Hub A handles its only packet, and queues nothing to itself. */
  lemma ProcessLastA(x: Cast, s: C.State, ha: Hub, hb: Hub, p: Packet, qb: seq<Packet>, ch: Choice)
    requires Are(x, s, ha, hb, [p], qb) && x.a != x.b && !ha.crashed && Handle(ha, p, ch).queued == []
    ensures Are(x, C.Next(s, C.Process(x.a, ch)), Handle(ha, p, ch), hb, [], qb) && C.Next(s, C.Process(x.a, ch)).sent == s.sent
  {
    hide Handle, C.Next;
    assert [p] + [] == [p];
    ProcessA(x, s, ha, hb, p, [], qb, ch);
  }

  lemma DeliverNext(s: C.State, i: Addr, j: Addr, first: Env, second: Env)
    requires i in s.hubs && j in s.inbox && j in s.hubs[i].links && s.hubs[i].links[j] == [first, second]
    ensures var t := C.Next(s, C.Deliver(i, j, 1));
            && t.hubs == s.hubs[i := s.hubs[i].(links := s.hubs[i].links[j := [first]])]
            && t.inbox == s.inbox[j := s.inbox[j] + [Packet(i, RelayMessage(C.Arrived(second)), None)]]
  {
    hide C.Arrived, C.ProcessStep, C.Stamped, GroupStep, Type;
    var q := [first, second];
    assert q[..1] + q[2..] == [first];
  }

  lemma DeliverAB(x: Cast, s: C.State, ha: Hub, hb: Hub, qa: seq<Packet>, qb: seq<Packet>, first: Env, second: Env)
    requires Are(x, s, ha, hb, qa, qb) && x.a != x.b && x.b in ha.links && ha.links[x.b] == [first, second]
    ensures Are(x, C.Next(s, C.Deliver(x.a, x.b, 1)), ha.(links := ha.links[x.b := [first]]), hb, qa,
                qb + [Packet(x.a, RelayMessage(C.Arrived(second)), None)])
  {
    hide C.Arrived, C.Next;
    DeliverNext(s, x.a, x.b, first, second);
  }

  lemma DeliverBA(x: Cast, s: C.State, ha: Hub, hb: Hub, qa: seq<Packet>, qb: seq<Packet>, first: Env, second: Env)
    requires Are(x, s, ha, hb, qa, qb) && x.a != x.b && x.a in hb.links && hb.links[x.a] == [first, second]
    ensures Are(x, C.Next(s, C.Deliver(x.b, x.a, 1)), ha, hb.(links := hb.links[x.a := [first]]),
                qa + [Packet(x.b, RelayMessage(C.Arrived(second)), None)], qb)
  {
    hide C.Arrived, C.Next;
    DeliverNext(s, x.b, x.a, first, second);
  }

  lemma {:induction false} RunAppend(s: C.State, a: seq<C.Event>, b: seq<C.Event>)
    ensures C.Run(s, a + b) == C.Run(C.Run(s, a), b)
    decreases |a|
  {
    hide C.Next;
    if a == [] {
      assert a + b == b;
    } else {
      RunAppend(C.Next(s, a[0]), a[1..], b);
      assert (a + b)[1..] == a[1..] + b;
    }
  }

  lemma RunOne(s: C.State, e: C.Event, rest: seq<C.Event>)
    ensures C.Run(s, [e] + rest) == C.Run(C.Next(s, e), rest)
  {
    hide C.Next;
    assert ([e] + rest)[1..] == rest;
  }

  /** The greeting as the peer's reader stamps it is the greeting. */
  lemma GreetingStamped(x: Cast, s: C.State)
    requires Fit(x)
    requires x.a in s.hubs && x.a in s.inbox && s.sent == map[]
    ensures C.Enabled(s, C.Send(x.a, x.w.addr, Greeting(x).msg, 1))
    ensures C.Stamped(x.a, x.w.addr, Greeting(x).msg) == Greeting(x).msg
  {
        assert x.r.addr[0] != 0;
  }

  lemma FourSteps(s: C.State, e0: C.Event, e1: C.Event, e2: C.Event, e3: C.Event)
    ensures C.Run(s, [e0, e1, e2, e3]) == C.Next(C.Next(C.Next(C.Next(s, e0), e1), e2), e3)
  {
    hide C.Next;
    RunOne(s, e0, [e1, e2, e3]);
    RunOne(C.Next(s, e0), e1, [e2, e3]);
    RunOne(C.Next(C.Next(s, e0), e1), e2, [e3]);
    RunOne(C.Next(C.Next(C.Next(s, e0), e1), e2), e3, []);
    assert [e0] + [e1, e2, e3] == [e0, e1, e2, e3] && [e1] + [e2, e3] == [e1, e2, e3] && [e2] + [e3] == [e2, e3];
    assert [e3] + [] == [e3];
  }

  lemma StartAre(x: Cast)
    ensures Are(x, C.Start({x.a, x.b}), C.EmptyHub(x.a, {x.a, x.b}), C.EmptyHub(x.b, {x.a, x.b}), [], [])
    ensures C.Start({x.a, x.b}).sent == map[]
  {
    hide C.EmptyHub;
  }

  lemma BothConnect(x: Cast, s: C.State)
    requires Fit(x)
    requires s == C.Start({x.a, x.b})
    ensures var t := C.Run(s, [C.Connect(x.a, x.w), C.Process(x.a, ANY), C.Connect(x.b, x.r), C.Process(x.b, ANY)]);
            Are(x, t, Registered(x, x.a, x.w), Registered(x, x.b, x.r), [], []) && t.sent == map[]
  {
    StartAre(x);
    RegisteredIs(x, x.a, x.b, x.w);
    RegisteredIs(x, x.b, x.a, x.r);
    var ha, hb := C.EmptyHub(x.a, {x.a, x.b}), C.EmptyHub(x.b, {x.a, x.b});
    var e0, e1, e2, e3 := C.Connect(x.a, x.w), C.Process(x.a, ANY), C.Connect(x.b, x.r), C.Process(x.b, ANY);
    hide C.Next, Handle, C.Run, Type, C.Start;
    FourSteps(s, e0, e1, e2, e3);
    var s1 := C.Next(s, e0);
    var s2 := C.Next(s1, e1);
    var s3 := C.Next(s2, e2);
    ArriveA(x, s, ha, hb, [], e0, Packet(x.a, AddClient(x.w), None));
    ProcessLastA(x, s1, ha, hb, Packet(x.a, AddClient(x.w), None), [], ANY);
    ArriveB(x, s2, Registered(x, x.a, x.w), hb, [], x.r);
    ProcessB(x, s3, Registered(x, x.a, x.w), hb, Packet(x.b, AddClient(x.r), None), [], ANY);
  }

  lemma GreetingTravels(x: Cast, s: C.State)
    requires Fit(x)
    requires Are(x, s, Registered(x, x.a, x.w), Registered(x, x.b, x.r), [], []) && s.sent == map[]
    ensures var t := C.Run(s, [C.Send(x.a, x.w.addr, Greeting(x).msg, 1), C.Process(x.a, ANY),
                               C.Deliver(x.a, x.b, 1), C.Process(x.b, ANY)]);
            Are(x, t, Sent(x), Delivered(x), [], [])
  {
    RegisteredIs(x, x.a, x.b, x.w);
    RegisteredIs(x, x.b, x.a, x.r);
    GreetedIs(x);
    DeliveredIs(x);
    GreetingStamped(x, s);
    var ha, hb := Registered(x, x.a, x.w), Registered(x, x.b, x.r);
    var e0, e1, e2, e3 := C.Send(x.a, x.w.addr, Greeting(x).msg, 1), C.Process(x.a, ANY), C.Deliver(x.a, x.b, 1), C.Process(x.b, ANY);
    hide C.Next, Handle, C.Run, Type, Registered, Killing, C.Stamped, C.Arrived;
    FourSteps(s, e0, e1, e2, e3);
    var s1 := C.Next(s, e0);
    var s2 := C.Next(s1, e1);
    var s3 := C.Next(s2, e2);
    var p := Packet(x.w.addr, RelayMessage(Greeting(x)), None);
    var q := Packet(x.a, RelayMessage(C.Arrived(Greeting(x))), None);
    ArriveA(x, s, ha, hb, [], e0, p);
    ProcessLastA(x, s1, ha, hb, p, [], ANY);
    DeliverAB(x, s2, Greeted(x), hb, [], [], Killing(x.w), Greeting(x));
    assert [] + [q] == [q];
    ProcessB(x, s3, Sent(x), hb, q, [], ANY);
  }

  /** The two packets left at hub A are its own Offline and the Loc for the client that left. */
  lemma LastTwo(x: Cast, h: Hub)
    requires Fit(x)
    requires h.self == x.a && h.clients == map[] && h.queued == [] && !h.crashed
    ensures var r := Handle(h, OwnOffline(x), ANY);
            && r.queued == [] && !r.crashed
            && Handle(r, LateLoc(x), ANY).crashed
  {
    var own := OwnOffline(x);
    RelayedClients(h, x.a, own.content.env, None);
    RelayedKeys(h, x.a, own.content.env, None);
    var r := Handle(h, own, ANY);
    Quiescence.CrashCondition(r, Packet(x.b, RelayMessage(C.Arrived(Located(x))), None), ANY);
    hide Relayed, Type;
  }

  /** Hub A when only the late Loc message is left. */
  ghost function Alone(x: Cast): Hub {
    Handle(Departed(x).(queued := []), OwnOffline(x), ANY)
  }

  ghost function LateLoc(x: Cast): Packet { Packet(x.b, RelayMessage(C.Arrived(Located(x))), None) }

  lemma WriterLeaves(x: Cast, s: C.State) returns (hb: Hub)
    requires Fit(x)
    requires Are(x, s, Sent(x), Delivered(x), [], [])
    ensures var t := C.Run(s, [C.Disconnect(x.a, x.w), C.Process(x.a, Leaving(x)), C.Deliver(x.b, x.a, 1), C.Process(x.a, ANY)]);
            Are(x, t, Alone(x), hb, [LateLoc(x)], [])
  {
    DeliveredIs(x);
    DepartedIs(x);
    var e0, e1, e2, e3 := C.Disconnect(x.a, x.w), C.Process(x.a, Leaving(x)), C.Deliver(x.b, x.a, 1), C.Process(x.a, ANY);
    var p := Packet(x.w.addr, DelClient(x.w), None);
    var own, loc := OwnOffline(x), LateLoc(x);
    var h := Departed(x).(queued := []);
    LastTwo(x, h);
    SentIs(x);
    hide C.Next, Handle, C.Run, Type, Greeted, Killing, C.Arrived, OwnOffline, Located, Delivered, Leaving, Sent;
    FourSteps(s, e0, e1, e2, e3);
    var s1 := C.Next(s, e0);
    var s2 := C.Next(s1, e1);
    var s3 := C.Next(s2, e2);
    CanLeave(x, s);
    ArriveA(x, s, Sent(x), Delivered(x), [], e0, p);
    assert [p] + [] == [p];
    ProcessA(x, s1, Sent(x), Delivered(x), p, [], [], Leaving(x));
    assert [] + [own] == [own] && [own] + [] == [own];
    DeliverBA(x, s2, h, Delivered(x), [own], [], Killing(x.r), Located(x));
    hb := Delivered(x).(links := Delivered(x).links[x.a := [Killing(x.r)]]);
    ProcessA(x, s3, h, hb, own, [loc], [], ANY);
    var r := Alone(x);
    assert [loc] + [] == [loc] && r.(queued := []) == r;
  }

  lemma LocArrives(x: Cast, s: C.State, hb: Hub)
    requires Fit(x) && Are(x, s, Alone(x), hb, [LateLoc(x)], [])
    ensures var t := C.Run(s, [C.Process(x.a, ANY)]); x.a in t.hubs && t.hubs[x.a].crashed
  {
    DepartedIs(x);
    LastTwo(x, Departed(x).(queued := []));
    hide C.Next, Handle, C.Run, Type, OwnOffline, Departed, Located, C.Arrived;
    assert [LateLoc(x)] + [] == [LateLoc(x)];
    ProcessA(x, s, Alone(x), hb, LateLoc(x), [], [], ANY);
    OneStep(s, C.Process(x.a, ANY));
  }

  lemma OneStep(s: C.State, e: C.Event)
    ensures C.Run(s, [e]) == C.Next(s, e)
  {
    hide C.Next;
    RunOne(s, e, []);
    assert [e] + [] == [e];
  }

  lemma SentIs(x: Cast)
    requires Fit(x)
    ensures !Sent(x).crashed
  {
    GreetedIs(x);
    hide Greeted;
  }

  lemma CanLeave(x: Cast, s: C.State)
    requires Fit(x)
    requires Are(x, s, Sent(x), Delivered(x), [], [])
    ensures C.Enabled(s, C.Disconnect(x.a, x.w))
  {
    hide Sent, Delivered, Type;
  }

  /**
   * Two clients connect at two hubs; one writes to the other and leaves before the answer to its hub arrives. Its hub then
   * dereferences a nil peer.
   */
  lemma LateLocCrashes(x: Cast) returns (evs: seq<C.Event>)
    requires Fit(x)
    ensures var t := C.Run(C.Start({x.a, x.b}), evs); x.a in t.hubs && t.hubs[x.a].crashed
  {
    var s := C.Start({x.a, x.b});
    var first := [C.Connect(x.a, x.w), C.Process(x.a, ANY), C.Connect(x.b, x.r), C.Process(x.b, ANY)];
    var second := [C.Send(x.a, x.w.addr, Greeting(x).msg, 1), C.Process(x.a, ANY), C.Deliver(x.a, x.b, 1), C.Process(x.b, ANY)];
    var third := [C.Disconnect(x.a, x.w), C.Process(x.a, Leaving(x)), C.Deliver(x.b, x.a, 1), C.Process(x.a, ANY)];
    var last := [C.Process(x.a, ANY)];
    hide C.Run, C.Start, Are, Greeting, Leaving, Sent, Delivered, Alone, LateLoc, Registered, Fit;
    BothConnect(x, s);
    var s1 := C.Run(s, first);
    GreetingTravels(x, s1);
    var s2 := C.Run(s1, second);
    var hb := WriterLeaves(x, s2);
    var s3 := C.Run(s2, third);
    LocArrives(x, s3, hb);
    evs := first + second + third + last;
    RunAppend(s, first, second);
    RunAppend(s, first + second, third);
    RunAppend(s, first + second + third, last);
  }

  /** Such servers and clients exist. */
  lemma CastExists()
    ensures Fit(Cast(ServerNo(0), ServerNo(1), Conn(1, ClientNo(0, 0), [1], 0), Conn(2, ClientNo(1, 0), [2], 0)))
  {
    Types(0, 0);
    Types(1, 0);
    Distinct(0, 1, 0, 0);
  }

  // ----------------------------------------------------- a stopped dispatcher

  /** Nothing on the hub's queue and nobody at work. */
  ghost predicate Idle(s: H.Sys) {
    && s.d.queue == [] && s.d.front.Selecting? && s.d.pending == [] && !s.d.waiting && s.d.relay == []
    && s.d.running.None? && s.d.done == 0 && s.toSend == []
  }

  /** One packet on its way through an idle hub. */
  ghost function Cycle(p: Packet, ch: Choice): seq<H.Event> {
    [H.Arrive(p), H.Receive, H.Logged(true), H.Pass, H.Begin(ch), H.Finish, H.TakeDone]
  }

  lemma {:induction false} HubRunAppend(s: H.Sys, a: seq<H.Event>, b: seq<H.Event>)
    ensures H.Run(true, s, a + b) == H.Run(true, H.Run(true, s, a), b)
    decreases |a|
  {
    hide H.Next;
    if a == [] {
      assert a + b == b;
    } else {
      HubRunAppend(H.Next(true, s, a[0]), a[1..], b);
      assert (a + b)[1..] == a[1..] + b;
    }
  }

  /** A packet the log takes, up to the point where the handler has it: the hub's tables are already changed. */
  lemma Begun(s: H.Sys, p: Packet, ch: Choice)
    requires Idle(s) && H.LogSays(true, p, true)
    ensures var t := H.Run(true, s, Cycle(p, ch)[..5]);
            && t.h == H.Tables(s.h, p, ch) && t.toSend == Handle(s.h.(queued := [], replies := []), p, ch).queued
            && t.d.running == Some(H.JobOf(p)) && t.d.queue == [] && t.d.front.Selecting? && t.d.pending == []
            && t.d.waiting && t.d.relay == [] && t.d.done == 0
  {
    hide H.LogSays, Handle, H.Tables;
    var j := H.JobOf(p);
    var s1 := H.Next(true, s, H.Arrive(p));
    assert s1.d.queue == [j];
    var s2 := H.Next(true, s1, H.Receive);
    assert s2.d.queue == [];
    var s3 := H.Next(true, s2, H.Logged(true));
    var s4 := H.Next(true, s3, H.Pass);
    assert s4.d.relay == [j];
    var s5 := H.Next(true, s4, H.Begin(ch));
    FiveSteps(s, H.Arrive(p), H.Receive, H.Logged(true), H.Pass, H.Begin(ch));
    assert Cycle(p, ch)[..5] == [H.Arrive(p), H.Receive, H.Logged(true), H.Pass, H.Begin(ch)];
  }

  lemma FiveSteps(s: H.Sys, a: H.Event, b: H.Event, c: H.Event, d: H.Event, e: H.Event)
    ensures H.Run(true, s, [a, b, c, d, e]) == H.Next(true, H.Next(true, H.Next(true, H.Next(true, H.Next(true, s, a), b), c), d), e)
  {
    hide H.Next;
    var es := [a, b, c, d, e];
    var e4, e3, e2, e1 := es[1..], es[2..], es[3..], es[4..];
    assert e4[1..] == e3 && e3[1..] == e2 && e2[1..] == e1 && e1[1..] == [];
    var s1 := H.Next(true, s, a);
    var s2 := H.Next(true, s1, b);
    var s3 := H.Next(true, s2, c);
    var s4 := H.Next(true, s3, d);
    assert H.Run(true, s, es) == H.Run(true, s1, e4) == H.Run(true, s2, e3) == H.Run(true, s3, e2) == H.Run(true, s4, e1);
    assert H.Run(true, s4, e1) == H.Run(true, H.Next(true, s4, e), []);
  }

  /** A packet that makes the hub send nothing to itself passes through, and the hub is idle again. */
  lemma CycleRuns(s: H.Sys, p: Packet, ch: Choice)
    requires Idle(s) && H.LogSays(true, p, true) && Handle(s.h.(queued := [], replies := []), p, ch).queued == []
    ensures var t := H.Run(true, s, Cycle(p, ch)); Idle(t) && t.h == H.Tables(s.h, p, ch)
  {
    Begun(s, p, ch);
    var t := H.Run(true, s, Cycle(p, ch)[..5]);
    var last := [H.Finish, H.TakeDone];
    assert Cycle(p, ch)[..5] + last == Cycle(p, ch);
    hide H.LogSays, Handle, H.Tables, Cycle, H.Run, Idle;
    Ends(t, H.JobOf(p));
    HubRunAppend(s, Cycle(p, ch)[..5], last);
  }

  /** The handler ends and the token comes back. */
  lemma Ends(t: H.Sys, job: D.Job<Packet>)
    requires t.d.running == Some(job) && t.toSend == [] && t.d.queue == [] && t.d.front.Selecting? && t.d.pending == []
    requires t.d.waiting && t.d.relay == [] && t.d.done == 0
    ensures var u := H.Run(true, t, [H.Finish, H.TakeDone]); Idle(u) && u.h == t.h
  {
    hide Handle, H.Tables, H.LogSays;
    var t1 := H.Next(true, t, H.Finish);
    var t2 := H.Next(true, t1, H.TakeDone);
    var last := [H.Finish, H.TakeDone];
    assert last[1..] == [H.TakeDone] && last[1..][1..] == [];
    assert H.Run(true, t, last) == H.Run(true, t1, last[1..]) == H.Run(true, t2, last[1..][1..]) == t2;
  }

  const SELF := 7

  ghost function Lone(): Addr { ServerNo(SELF) }

  ghost function Talker(): Conn { Conn(1, ClientNo(SELF, 0), [1], 0) }

  /** The i-th client the talker writes to; nobody is registered under it. */
  ghost function Friend(i: uint32): Addr { ClientNo(i, 1) }

  ghost function Friends(n: uint32): (fs: seq<Addr>)
    ensures |fs| == n
  {
    seq(n, i requires 0 <= i < n => Friend(i))
  }

  ghost function Note(i: uint32): Packet {
    Packet(Talker().addr, RelayMessage(Env(1, 0, Chatting(Talker().addr, Friend(i)))), Some(0))
  }

  /** The first n of them. */
  ghost function Met(n: uint32): set<Addr> {
    set i: int | 0 <= i < n :: ClientNo(i, 1)
  }

  /** The hub after the talker registered and wrote to n clients: one session each, all with the hub itself. */
  ghost predicate Talked(h: Hub, n: uint32) {
    && h.self == Lone() && h.links == map[] && h.location == map[]
    && h.clients.Keys == {Talker().addr} && h.clients[Talker().addr].conn == Talker()
    && h.clients[Talker().addr].sessions.Keys == Met(n)
    && forall d :: d in h.clients[Talker().addr].sessions ==> h.clients[Talker().addr].sessions[d] == Lone()
  }

  lemma TalkerIs(i: uint32)
    ensures Type(Lone()) == ADDR_SERVER && Type(Talker().addr) == Type(Friend(i)) == ADDR_CLIENT
    ensures Friend(i) != Talker().addr && Friend(i) != Lone() && Talker().addr != Lone()
  {
    Types(SELF, 0);
    Types(i, 1);
    Distinct(i, SELF, 1, 0);
  }

  lemma FriendIsNew(n: uint32)
    ensures Friend(n) !in Met(n)
  {
    forall i: int | 0 <= i < n
      ensures ClientNo(i, 1) != Friend(n)
    {
      Distinct(i, n, 1, 1);
    }
  }

  lemma NoteTaken(h: Hub, i: uint32)
    ensures H.LogSays(true, Note(i), true)
  {
    assert |Encode(Chatting(Talker().addr, Friend(i)))| == 83;
  }

  lemma NoteHandled(h: Hub, n: uint32)
    requires Talked(h, n) && h.queued == [] && n < 0xFFFF_FFFF
    ensures Talked(H.Tables(h, Note(n), ANY), n + 1) && Handle(h.(queued := [], replies := []), Note(n), ANY).queued == []
  {
    TalkerIs(n);
    FriendIsNew(n);
    var h0 := h.(queued := [], replies := []);
    NoteSession(h0, n);
    NoteElsewhere(h0, n);
    OneMoreFriend(n);
    hide Handle, Lone, Talker, Type, Friend, Met;
  }

  /** The talker's new session, and nobody else's. */
  lemma NoteSession(h: Hub, n: uint32)
    requires Talked(h, n)
    ensures var r, t := Handle(h, Note(n), ANY), Talker().addr;
            && r.clients.Keys == {t} && r.clients[t].conn == Talker()
            && r.clients[t].sessions == h.clients[t].sessions[Friend(n) := Lone()]
  {
    TalkerIs(n);
    FriendIsNew(n);
    var env, t := Note(n).content.env, Talker().addr;
    assert Type(t) == ADDR_CLIENT && env.msg.header == Header(t, Friend(n), 0, 0, MSG_CHAT, 0);
    hide Relayed, Record, Lone, Talker, Type, Friend, Met;
    Sessions.RecordedSessions(h, t, env.msg.header);
    Sessions.RoutedSessions(h, t, env, Some(0));
    RelayedClients(h, t, env, Some(0));
  }

  lemma NoteElsewhere(h: Hub, n: uint32)
    requires Talked(h, n) && h.queued == []
    ensures var r := Handle(h, Note(n), ANY); r.self == Lone() && r.links == map[] && r.location == map[] && r.queued == []
  {
    TalkerIs(n);
    var env, t := Note(n).content.env, Talker().addr;
    RelayedKeys(h, t, env, Some(0));
    Delivery.RelayedLocations(h, t, env);
    OtherReply(h, t, env);
    hide Relayed, Lone, Talker, Type, Friend;
    assert Handle(h, Note(n), ANY).links == map[];
  }

  lemma OneMoreFriend(n: uint32)
    requires n < 0xFFFF_FFFF
    ensures Met(n + 1) == Met(n) + {Friend(n)}
  {
  }

  /** Whether somebody waits for the answer changes no table. */
  lemma OtherReply(h: Hub, from: Addr, env: Env)
    ensures Relayed(h, from, env, Some(0)).location == Relayed(h, from, env, None).location
  {
    hide Record, Route, Logic, Type;
  }

  ghost function TalkEvents(n: uint32): seq<H.Event> {
    if n == 0 then Cycle(Packet(Lone(), AddClient(Talker()), Some(0)), ANY)
    else TalkEvents(n - 1) + Cycle(Note(n - 1), ANY)
  }

  lemma {:induction false} Talks(n: uint32)
    ensures var s := H.Run(true, H.Init(C.EmptyHub(Lone(), {})), TalkEvents(n)); Idle(s) && Talked(s.h, n) && s.h.queued == []
    decreases n
  {
    hide H.Run, Cycle, Handle, Idle, Talked, H.Tables;
    var s0 := H.Init(C.EmptyHub(Lone(), {}));
    if n == 0 {
      TalkerEnters();
    } else {
      Talks(n - 1);
      var s := H.Run(true, s0, TalkEvents(n - 1));
      NoteTaken(s.h, n - 1);
      NoteHandled(s.h, n - 1);
      CycleRuns(s, Note(n - 1), ANY);
      HubRunAppend(s0, TalkEvents(n - 1), Cycle(Note(n - 1), ANY));
      TablesClean(s.h, Note(n - 1), ANY);
    }
  }

  lemma TablesClean(h: Hub, p: Packet, ch: Choice)
    ensures H.Tables(h, p, ch).queued == []
  {
    hide Handle;
  }

  /** A client's entry into a hub without links. */
  lemma Enters(h: Hub, peer: Conn)
    requires h.links == map[] && h.queued == []
    ensures var r := Handle(h, Packet(h.self, AddClient(peer), Some(0)), ANY);
            && r.self == h.self && r.links == map[] && r.location == h.location && r.queued == []
            && r.clients == h.clients[peer.addr := Client(peer, map[], {})]
  {
    RegisterFrame(h, peer, 0);
    hide Register;
    assert Register(h, peer, 0).links == map[];
  }

  /** A hub with the talker only, who has not written yet. */
  lemma NobodyMet(h: Hub)
    requires h.self == Lone() && h.links == map[] && h.location == map[]
    requires h.clients == map[Talker().addr := Client(Talker(), map[], {})]
    ensures Talked(h, 0)
  {
    assert Met(0) == {};
    hide Lone, Talker, Met;
  }

  lemma EmptyIs(self: Addr)
    ensures var h := C.EmptyHub(self, {});
            && h.self == self && h.links == map[] && h.location == map[] && h.clients == map[]
            && h.queued == [] && h.replies == [] && Idle(H.Init(h)) && H.Init(h).h == h
  {
    assert C.EmptyHub(self, {}).links == map[];
  }

  lemma EntryRuns(self: Addr, peer: Conn)
    ensures var s := H.Run(true, H.Init(C.EmptyHub(self, {})), Cycle(Packet(self, AddClient(peer), Some(0)), ANY));
            && Idle(s) && s.h.self == self && s.h.links == map[] && s.h.location == map[] && s.h.queued == []
            && s.h.clients == map[peer.addr := Client(peer, map[], {})]
  {
    var h, p := C.EmptyHub(self, {}), Packet(self, AddClient(peer), Some(0));
    EmptyIs(self);
    Enters(h, peer);
    assert h.(queued := [], replies := []) == h;
    hide H.Run, Cycle, C.EmptyHub, Handle, Idle;
    CycleRuns(H.Init(h), p, ANY);
  }

  lemma TalkerEnters()
    ensures var s := H.Run(true, H.Init(C.EmptyHub(Lone(), {})), Cycle(Packet(Lone(), AddClient(Talker()), Some(0)), ANY));
            Idle(s) && Talked(s.h, 0) && s.h.queued == []
  {
    hide *;
    EntryRuns(Lone(), Talker());
    NobodyMet(H.Run(true, H.Init(C.EmptyHub(Lone(), {})), Cycle(Packet(Lone(), AddClient(Talker()), Some(0)), ANY)).h);
  }

  lemma {:induction false} ThroughAll(sessions: map<Addr, Addr>, ps: seq<Addr>, s: Addr)
    requires forall p :: p in ps ==> p in sessions && sessions[p] == s
    ensures Sessions.Through(sessions, ps, s) == ps
  {
    if ps != [] {
      var n := |ps| - 1;
      ThroughAll(sessions, ps[..n], s);
      assert ps == ps[..n] + [ps[n]];
    }
  }

  ghost function LeaveChoice(n: uint32): Choice { Choice(0, Friends(n), [Lone()]) }

  /** The hub's own Offline packet: every friend is a target. */
  ghost function Farewell(n: uint32): Packet { Sessions.ToSelf(Lone(), Talker(), Friends(n)) }

  /** A client all of whose sessions are with the hub itself leaves: one Offline packet for all of them. */
  lemma LeaverHandled(h: Hub, peer: Conn, ps: seq<Addr>)
    requires peer.addr in h.clients && h.clients[peer.addr].conn == peer && h.links == map[] && h.queued == [] && ps != []
    requires forall p :: p in ps ==> p in h.clients[peer.addr].sessions && h.clients[peer.addr].sessions[p] == h.self
    ensures Handle(h, Packet(peer.addr, DelClient(peer), Some(0)), Choice(0, ps, [h.self])).queued == [Sessions.ToSelf(h.self, peer, ps)]
  {
    hide *;
    var ch := Choice(0, ps, [h.self]);
    OneOffline(h, peer, ps);
    LeaverLeaves(h, peer, ch);
    assert [] + [Sessions.ToSelf(h.self, peer, ps)] == [Sessions.ToSelf(h.self, peer, ps)];
  }

  lemma LeaverLeaves(h: Hub, peer: Conn, ch: Choice)
    requires peer.addr in h.clients && h.clients[peer.addr].conn == peer
    ensures Handle(h, Packet(peer.addr, DelClient(peer), Some(0)), ch).queued
         == h.queued + SelfOut(h, ch.serverOrder, SessionServers(h.clients[peer.addr].sessions, ch.sessionOrder), peer)
  {
    UnregisterOut(h, peer, ch);
    hide Unregister, SessionServers, SelfOut;
  }

  lemma OneOffline(h: Hub, peer: Conn, ps: seq<Addr>)
    requires peer.addr in h.clients && h.links == map[] && ps != []
    requires forall p :: p in ps ==> p in h.clients[peer.addr].sessions && h.clients[peer.addr].sessions[p] == h.self
    ensures SelfOut(h, [h.self], SessionServers(h.clients[peer.addr].sessions, ps), peer) == [Sessions.ToSelf(h.self, peer, ps)]
  {
    hide *;
    var sessions := h.clients[peer.addr].sessions;
    ThroughAll(sessions, ps, h.self);
    Sessions.ServersThrough(sessions, ps, h.self);
    OneSelfOut(h, h.self, SessionServers(sessions, ps), peer);
  }

  lemma FriendsMet(n: uint32)
    ensures forall p :: p in Friends(n) ==> p in Met(n)
  {
  }

  lemma TalkerHandled(h: Hub, n: uint32)
    requires Talked(h, n) && h.queued == [] && n > 0
    ensures Handle(h, Quit(), LeaveChoice(n)).queued == [Farewell(n)]
  {
    FriendsMet(n);
    assert Friends(n) != [];
    hide Handle, Lone, Talker, Friends, Met;
    LeaverHandled(h, Talker(), Friends(n));
  }

  /** The farewell's 16-bit record length plus two fits an empty block. */
  ghost predicate Fits(n: uint32) { (111 + 32 * n) % 0x1_0000 <= 4094 }

  lemma FarewellAnswer(n: uint32)
    ensures H.LogSays(true, Farewell(n), Fits(n))
  {
    var env := System(Lone(), Lone(), Offline(Talker().addr, Talker().notice, Friends(n)));
    H.OfflineLength(env.msg.header, Talker().addr, Talker().notice, Friends(n));
    hide Encode, Friends;
  }

  lemma FarewellSent(s: H.Sys, n: uint32)
    requires s.d.running.Some? && s.toSend == [Farewell(n)] && s.d.queue == [] && s.d.front.Selecting?
    ensures var t := H.Run(true, s, [H.SelfSend, H.Receive, H.Logged(Fits(n))]); D.Stalled(t.d) <==> !Fits(n)
  {
    FarewellAnswer(n);
    assert Farewell(n).resp.None?;
    hide *;
    OwnPacketAnswered(s, Farewell(n), Fits(n));
  }

  /** A packet the hub sends to itself without a response channel stalls it if the log refuses it. */
  lemma OwnPacketAnswered(s: H.Sys, f: Packet, ok: bool)
    requires s.d.running.Some? && s.toSend == [f] && s.d.queue == [] && s.d.front.Selecting?
    requires f.resp.None? && H.LogSays(true, f, ok)
    ensures D.Stalled(H.Run(true, s, [H.SelfSend, H.Receive, H.Logged(ok)]).d) <==> !ok
  {
    hide H.LogSays, Handle, H.Tables;
    var s1 := H.Next(true, s, H.SelfSend);
    assert s1.d.queue == [H.JobOf(f)];
    ThreeSteps(s, H.SelfSend, H.Receive, H.Logged(ok));
  }

  lemma ThreeSteps(s: H.Sys, a: H.Event, b: H.Event, c: H.Event)
    ensures H.Run(true, s, [a, b, c]) == H.Next(true, H.Next(true, H.Next(true, s, a), b), c)
  {
    hide H.Next;
    var es := [a, b, c];
    assert es[1..] == [b, c] && es[1..][1..] == [c] && es[1..][1..][1..] == [];
    var s1 := H.Next(true, s, a);
    var s2 := H.Next(true, s1, b);
    assert H.Run(true, s, es) == H.Run(true, s1, es[1..]) == H.Run(true, s2, es[1..][1..]);
    assert H.Run(true, s2, es[1..][1..]) == H.Run(true, H.Next(true, s2, c), []);
  }

  lemma FitsUpTo(n: uint32)
    ensures Fits(n) <==> (111 + 32 * n) % 0x1_0000 <= 4094
    ensures n <= 2044 ==> (Fits(n) <==> n <= 124)
  {
  }

  ghost function Quit(): Packet { Packet(Talker().addr, DelClient(Talker()), Some(0)) }

  /** The talker registers, writes to n clients and leaves; the farewell is queued, received and offered to the log. */
  ghost function TalkAndLeave(n: uint32): seq<H.Event> {
    TalkEvents(n) + Cycle(Quit(), LeaveChoice(n))[..5] + [H.SelfSend, H.Receive, H.Logged(Fits(n))]
  }

  /**
   * A client writes to n clients this hub has no server for, and leaves. The hub's dispatcher then stops for good exactly when
   * the wrapped record length does not fit a block: up to 2044 clients, exactly when there are more than 124.
   */
  lemma TalkativeClientStops(n: uint32)
    requires 0 < n
    ensures var t := H.Run(true, H.Init(C.EmptyHub(Lone(), {})), TalkAndLeave(n));
            && (D.Stalled(t.d) <==> (111 + 32 * n) % 0x1_0000 > 4094)
            && (n <= 2044 ==> (D.Stalled(t.d) <==> n > 124))
  {
    var s0 := H.Init(C.EmptyHub(Lone(), {}));
    var first := Cycle(Quit(), LeaveChoice(n))[..5];
    var second := [H.SelfSend, H.Receive, H.Logged(Fits(n))];
    hide H.Run, Cycle, Handle, Idle, Talked, H.Tables, TalkEvents, LeaveChoice, Quit, Lone, Farewell, Fits, H.Init, C.EmptyHub;
    FitsUpTo(n);
    Talks(n);
    var s := H.Run(true, s0, TalkEvents(n));
    LeavesTalked(s, n);
    var s1 := H.Run(true, s, first);
    FarewellSent(s1, n);
    HubRunAppend(s0, TalkEvents(n), first);
    HubRunAppend(s0, TalkEvents(n) + first, second);
  }

  lemma LeavesTalked(s: H.Sys, n: uint32)
    requires Idle(s) && Talked(s.h, n) && n > 0
    ensures var t := H.Run(true, s, Cycle(Quit(), LeaveChoice(n))[..5]);
            t.d.running.Some? && t.toSend == [Farewell(n)] && t.d.queue == [] && t.d.front.Selecting?
  {
    TalkerHandled(s.h.(queued := [], replies := []), n);
    hide H.Run, Cycle, Handle, H.Tables, LeaveChoice, Farewell, Talked, Quit;
    Begun(s, Quit(), LeaveChoice(n));
  }

  // ------------------------------------------------------------ a lost group

  ghost function Leaver(): Conn { Conn(1, ClientNo(0, 0), [1], 0) }

  ghost function Joiner(): Conn { Conn(2, ClientNo(1, 0), [2], 0) }

  ghost function Command(source: Addr, inOut: byte, g: Addr): HubStep {
    Take(Packet(source, RelayMessage(Env(1, 0, Message(Header(source, Lone(), 0, 0, MSG_GROUP_IN_OUT, 0), GroupInOut(inOut, [g])))), None), ANY)
  }

  /** Two clients register; the second joins n groups. No group's loop has come to run yet. */
  ghost function JoinSteps(n: uint32): seq<HubStep> {
    if n == 0
    then [Take(Packet(Lone(), AddClient(Leaver()), None), ANY), Take(Packet(Lone(), AddClient(Joiner()), None), ANY)]
    else JoinSteps(n - 1) + [Command(Joiner().addr, GROUP_IN, GroupNo(n - 1))]
  }

  /** The first n groups. */
  ghost function Made(n: uint32): set<Addr> {
    set i: int | 0 <= i < n :: GroupNo(i)
  }

  ghost predicate Joined(h: Hub, n: uint32) {
    && h.self == Lone() && |h.groups| == n
    && h.groups.Keys == Made(n)
    && (forall g :: g in h.groups ==> h.groups[g].memCount == 0)
    && Leaver().addr in h.clients
    && Joiner().addr in h.clients && h.clients[Joiner().addr].conn == Joiner()
    && Made(n) <= h.clients[Joiner().addr].groups
  }

  lemma {:induction false} StepsSnoc(h: Hub, steps: seq<HubStep>, step: HubStep)
    ensures HubRun(h, steps + [step]) == HubDo(HubRun(h, steps), step)
    decreases |steps|
  {
    hide HubDo;
    if steps == [] {
      var one := [step];
      assert steps + one == one && one[1..] == [];
      assert HubRun(HubDo(h, step), []) == HubDo(h, step);
    } else {
      StepsSnoc(HubDo(h, steps[0]), steps[1..], step);
      assert (steps + [step])[1..] == steps[1..] + [step];
    }
  }

  /** A group command to the hub: the record of it, then the join or leave. */
  lemma CommandIs(h: Hub, source: Addr, inOut: byte, g: Addr)
    requires source in h.clients && h.self == Lone() && Type(source) == ADDR_CLIENT
    ensures var h1 := RecordSession(h, source, Header(source, Lone(), 0, 0, MSG_GROUP_IN_OUT, 0));
            source in h1.clients && HubDo(h, Command(source, inOut, g)) == InOutGroup(h1, source, inOut, g)
  {
    hide RecordSession, InOutGroup, Lone;
    var header := Header(source, Lone(), 0, 0, MSG_GROUP_IN_OUT, 0);
    RecordSessionFrame(h, source, header);
    var one := [g];
    var none: seq<Addr> := [];
    assert one[..|one| - 1] == none;
    assert InOutGroups(RecordSession(h, source, header), source, inOut, none) == RecordSession(h, source, header);
  }

  /** Joining a group that is not there yet: it is made, counts nobody, and is recorded. */
  lemma FirstJoin(h: Hub, j: Addr, g: Addr)
    requires j in h.clients && g !in h.groups
    ensures var r := InOutGroup(h, j, GROUP_IN, g);
            && r.self == h.self && r.groups.Keys == h.groups.Keys + {g} && |r.groups| == |h.groups| + 1
            && (forall k :: k in h.groups ==> r.groups[k] == h.groups[k]) && r.groups[g].memCount == 0
            && SameConns(h.clients, r.clients) && r.clients[j].groups == h.clients[j].groups + {g}
  {
  }

  lemma JoinIs(h: Hub, n: uint32)
    requires Joined(h, n) && n < 0xFFFF_FFFF
    ensures Joined(HubDo(h, Command(Joiner().addr, GROUP_IN, GroupNo(n))), n + 1)
  {
    Types(1, 0);
    var j, g := Joiner().addr, GroupNo(n);
    CommandIs(h, j, GROUP_IN, g);
    var header := Header(j, Lone(), 0, 0, MSG_GROUP_IN_OUT, 0);
    RecordSessionFrame(h, j, header);
    var h1 := RecordSession(h, j, header);
    NewGroup(n);
    hide RecordSession, HubDo, Lone, Joiner, Leaver, Command, InOutGroup, GroupNo, Type, Made;
    FirstJoin(h1, j, g);
    JoinedBy(h, h1, InOutGroup(h1, j, GROUP_IN, g), n);
  }

  lemma JoinedBy(h: Hub, h1: Hub, r: Hub, n: uint32)
    requires Joined(h, n) && n < 0xFFFF_FFFF && h1.self == h.self && h1.groups == h.groups && SamePeers(h.clients, h1.clients)
    requires r.self == h1.self && r.groups.Keys == h1.groups.Keys + {GroupNo(n)} && |r.groups| == |h1.groups| + 1
    requires (forall k :: k in h1.groups ==> r.groups[k] == h1.groups[k]) && r.groups[GroupNo(n)].memCount == 0
    requires SameConns(h1.clients, r.clients) && r.clients[Joiner().addr].groups == h1.clients[Joiner().addr].groups + {GroupNo(n)}
    ensures Joined(r, n + 1)
  {
    NewGroup(n);
    hide Lone, Joiner, Leaver, GroupNo, Made;
  }

  lemma NewGroup(n: uint32)
    requires n < 0xFFFF_FFFF
    ensures GroupNo(n) !in Made(n) && Made(n + 1) == Made(n) + {GroupNo(n)}
  {
    forall i: int | 0 <= i < n
      ensures GroupNo(i) != GroupNo(n)
    {
      Distinct(i, n, 0, 0);
    }
  }

  lemma BothRegister()
    ensures Joined(HubRun(C.EmptyHub(Lone(), {}), JoinSteps(0)), 0)
  {
    var h := C.EmptyHub(Lone(), {});
    Distinct(0, 1, 0, 0);
    RegisterFrame(h, Leaver(), 0);
    var h1 := Register(h, Leaver(), 0);
    RegisterFrame(h1, Joiner(), 0);
    var h2 := Register(h1, Joiner(), 0);
    hide Register, Lone, C.EmptyHub;
    var a, b := Take(Packet(Lone(), AddClient(Leaver()), None), ANY), Take(Packet(Lone(), AddClient(Joiner()), None), ANY);
    assert HubDo(h, a) == h1 && HubDo(h1, b) == h2;
    var steps := [a, b];
    assert steps[1..] == [b] && steps[1..][1..] == [];
    assert HubRun(h, steps) == HubRun(h1, steps[1..]) == HubRun(h2, steps[1..][1..]) == h2;
  }

  lemma {:induction false} Joins(n: uint32)
    ensures Joined(HubRun(C.EmptyHub(Lone(), {}), JoinSteps(n)), n)
    decreases n
  {
    hide Joined, HubDo, HubRun, Command;
    if n == 0 {
      BothRegister();
    } else {
      Joins(n - 1);
      StepsSnoc(C.EmptyHub(Lone(), {}), JoinSteps(n - 1), Command(Joiner().addr, GROUP_IN, GroupNo(n - 1)));
      JoinIs(HubRun(C.EmptyHub(Lone(), {}), JoinSteps(n - 1)), n - 1);
    }
  }

  /** Leaving a group whose loop has not counted anybody yet: the group is gone exactly when there are too many groups. */
  lemma LastLeave(h: Hub, l: Addr, g: Addr)
    requires l in h.clients && g in h.groups && h.groups[g].memCount == 0
    ensures var r := InOutGroup(h, l, GROUP_OUT, g);
            && (g !in r.groups <==> |h.groups| > 1000) && r.clients.Keys == h.clients.Keys
            && forall a :: a in h.clients && a != l ==> r.clients[a] == h.clients[a]
  {
  }

  lemma LeaveIs(h: Hub, n: uint32)
    requires Joined(h, n) && n > 0
    ensures var r := HubDo(h, Command(Leaver().addr, GROUP_OUT, GroupNo(0)));
            && Joiner().addr in r.clients && GroupNo(0) in r.clients[Joiner().addr].groups
            && (GroupNo(0) !in r.groups <==> n > 1000)
  {
    Types(0, 0);
    Distinct(0, 1, 0, 0);
    var l, g := Leaver().addr, GroupNo(0);
    CommandIs(h, l, GROUP_OUT, g);
    var header := Header(l, Lone(), 0, 0, MSG_GROUP_IN_OUT, 0);
    RecordSessionFrame(h, l, header);
    var h1 := RecordSession(h, l, header);
    assert Joiner().addr != l;
    assert g in Made(n) by { assert GroupNo(0) in Made(n); }
    hide RecordSession, HubDo, Lone, Command, InOutGroup, GroupNo, Leaver, Joiner, Type, Made;
    assert g in h.groups;
    LastLeave(h1, l, g);
  }

  /**
   * One client joins n groups, another leaves the first of them before any group's loop has run. The first client has the
   * group recorded; the group is dropped, with the join still on its channel, exactly when there are more than 1000.
   */
  lemma CleanUpLosesMember(n: uint32)
    requires n > 0
    ensures var h := HubRun(C.EmptyHub(Lone(), {}), JoinSteps(n) + [Command(Leaver().addr, GROUP_OUT, GroupNo(0))]);
            && Joiner().addr in h.clients && GroupNo(0) in h.clients[Joiner().addr].groups
            && (GroupNo(0) !in h.groups <==> n > 1000)
  {
    hide Joined, HubDo, HubRun, Command, JoinSteps;
    Joins(n);
    StepsSnoc(C.EmptyHub(Lone(), {}), JoinSteps(n), Command(Leaver().addr, GROUP_OUT, GroupNo(0)));
    LeaveIs(HubRun(C.EmptyHub(Lone(), {}), JoinSteps(n)), n);
  }
}
