/**
 * A full mesh of hubs as a transition system. A hub's inbox stands for its dispatcher, which hands packets over in
 * the order they entered (Dispatch); a link holds what was pushed to a server peer and not yet arrived, in any order,
 * because every decoded message gets its own goroutine (peer/peer.go). Clients connect, send and leave at will.
 */
module Cluster {
  import opened Bytes
  import opened Addresses
  import opened Wire
  import opened HubModel
  import opened HubFacts
  import opened Maps

  /** Where a client's message entered the cluster and whom it is for. */
  datatype Origin = Origin(hub: Addr, dest: Addr)

  datatype State = State(
    hubs: map<Addr, Hub>,
    inbox: map<Addr, seq<Packet>>,
    ever: set<(Addr, Addr)>,       // (client, server): registered there at some point so far
    sent: map<nat, Origin>         // the clients' messages by tag
  )

  datatype Event =
    | Connect(at: Addr, peer: Conn)                 // a websocket client asks to register
    | Disconnect(at: Addr, peer: Conn)              // its connection ends
    | Send(at: Addr, from: Addr, msg: Message, tag: nat)
    | Deliver(src: Addr, dst: Addr, k: nat)         // the k-th message in flight on a link arrives
    | Process(at: Addr, ch: Choice)                 // a hub handles its next packet
    | GroupTurn(at: Addr, group: Addr)              // a group loop takes its next packet

  /** The peer's reader sets the source; an empty destination becomes the hub itself. */
  ghost function Stamped(at: Addr, from: Addr, msg: Message): Message {
    var dest := if msg.header.dest[0] == 0 then at else msg.header.dest;
    Message(msg.header.(source := from, dest := dest), msg.body)
  }

  ghost predicate Enabled(s: State, e: Event) {
    match e
    case Connect(i, peer) => i in s.hubs && i in s.inbox && Type(peer.addr) == ADDR_CLIENT
    case Disconnect(i, peer) => i in s.hubs && i in s.inbox && Type(peer.addr) == ADDR_CLIENT
    case Send(i, from, _, tag) =>
      i in s.hubs && i in s.inbox && Type(from) == ADDR_CLIENT && tag > 0 && tag !in s.sent
    case Deliver(i, j, k) =>
      i in s.hubs && j in s.inbox && j in s.hubs[i].links && k < |s.hubs[i].links[j]|
    case Process(i, _) => i in s.hubs && i in s.inbox && s.inbox[i] != [] && !s.hubs[i].crashed
    case GroupTurn(i, g) => i in s.hubs && g in s.hubs[i].groups && s.hubs[i].groups[g].queue != []
  }

  ghost function Enqueue(s: State, i: Addr, p: Packet): State
    requires i in s.inbox
  {
    s.(inbox := s.inbox[i := s.inbox[i] + [p]])
  }

  ghost function Arrived(env: Env): Env {
    env.(hops := env.hops + 1)
  }

  /** The hub with the k-th message on the link to j gone. */
  ghost function Without(h: Hub, j: Addr, k: nat): Hub
    requires j in h.links && k < |h.links[j]|
  {
    h.(links := h.links[j := h.links[j][..k] + h.links[j][k + 1..]])
  }

  ghost function DeliverStep(s: State, i: Addr, j: Addr, k: nat): State
    requires Enabled(s, Deliver(i, j, k))
  {
    Enqueue(s.(hubs := s.hubs[i := Without(s.hubs[i], j, k)]), j,
            Packet(i, RelayMessage(Arrived(s.hubs[i].links[j][k])), None))
  }

  ghost function ProcessStep(s: State, i: Addr, ch: Choice): State
    requires Enabled(s, Process(i, ch))
  {
    var p := s.inbox[i][0];
    var h := Handle(s.hubs[i], p, ch);
    s.(hubs := s.hubs[i := h.(queued := [])],
       inbox := s.inbox[i := s.inbox[i][1..] + h.queued],
       ever := if p.content.AddClient? then s.ever + {(p.content.peer.addr, i)} else s.ever)
  }

  ghost function Next(s: State, e: Event): State {
    if !Enabled(s, e) then s else
      match e
      case Connect(i, peer) => Enqueue(s, i, Packet(i, AddClient(peer), None))
      case Disconnect(i, peer) => Enqueue(s, i, Packet(peer.addr, DelClient(peer), None))
      case Send(i, from, msg, tag) =>
        var m := Stamped(i, from, msg);
        Enqueue(s.(sent := s.sent[tag := Origin(i, m.header.dest)]), i, Packet(from, RelayMessage(Env(tag, 0, m)), None))
      case Deliver(i, j, k) => DeliverStep(s, i, j, k)
      case Process(i, ch) => ProcessStep(s, i, ch)
      case GroupTurn(i, g) => s.(hubs := s.hubs[i := GroupStep(s.hubs[i], g)])
  }

  ghost function Run(s: State, evs: seq<Event>): State
    decreases |evs|
  {
    if evs == [] then s else Run(Next(s, evs[0]), evs[1..])
  }

  ghost function EmptyHub(self: Addr, servers: set<Addr>): Hub {
    Hub(self, map[], Tabulate(servers - {self}, _ => []), map[], map[], [], [], [], false)
  }

  /** A full mesh right after start-up. */
  ghost function Start(servers: set<Addr>): State {
    State(Tabulate(servers, i => EmptyHub(i, servers)), Tabulate(servers, _ => []), {}, map[])
  }

  // ------------------------------------------------- the mesh and loop freedom

  /** A packet on hub i's queue: by use, and for messages by where they came from. */
  ghost predicate PacketOk(servers: set<Addr>, i: Addr, p: Packet) {
    match p.content
    case AddClient(peer) => Type(peer.addr) == ADDR_CLIENT
    case DelClient(peer) => Type(peer.addr) == ADDR_CLIENT
    case AddServer(_) => false
    case DelServer(_) => false
    case RelayMessage(env) =>
      || (Type(p.from) == ADDR_CLIENT && env.hops == 0 && env.msg.header.source == p.from)
      || (p.from in servers && p.from != i && env.hops == 1)
      || (p.from == i && env.hops == 0 && env.tag == 0 && env.msg.header.dest == i && env.msg.header.source == i)
  }

  ghost predicate HubOk(servers: set<Addr>, i: Addr, h: Hub) {
    && h.self == i
    && h.links.Keys == servers - {i}
    && h.queued == []
    && forall j, k :: j in h.links && 0 <= k < |h.links[j]| ==> h.links[j][k].hops == 0
  }

  /** A full mesh in which no message in flight has crossed a link before. */
  ghost predicate MeshInv(s: State) {
    && s.hubs.Keys == s.inbox.Keys
    && (forall i :: i in s.hubs ==> Type(i) == ADDR_SERVER && HubOk(s.hubs.Keys, i, s.hubs[i]))
    && (forall i, k :: i in s.inbox && 0 <= k < |s.inbox[i]| ==> PacketOk(s.hubs.Keys, i, s.inbox[i][k]))
  }

  /** The four kinds of message that handling p can put on the link to server j. */
  datatype Kind = Killing | Offlining | Locating | Forwarding

  ghost predicate OutOf(h: Hub, p: Packet, j: Addr, env: Env, kind: Kind) {
    match kind
    case Killing => p.content.AddClient? && exists now :: env == System(p.content.peer.addr, p.content.peer.addr, Kill(now))
    case Offlining => p.content.DelClient? && exists b: Body :: b.Offline? && env == System(h.self, j, b)
    case Locating =>
      && p.content.RelayMessage?
      && var header := p.content.env.msg.header;
      && Learns(h, p.from, header) && header.dest in h.clients && p.from == j
      && env == System(h.self, j, Loc(header.source, header.dest, h.self))
    case Forwarding =>
      p.content.RelayMessage? && env == p.content.env && Forwards(h, p.from, env.msg.header, j)
  }

  lemma {:induction false} OfflineOutShape(h: Hub, servers: seq<Addr>, m: map<Addr, seq<Addr>>, peer: Conn, j: Addr, env: Env)
    requires env in OfflineOut(h, servers, m, peer, j)
    ensures exists b: Body :: b.Offline? && env == System(h.self, j, b)
  {
    var n := |servers| - 1;
    if env in OfflineOut(h, servers[..n], m, peer, j) {
      OfflineOutShape(h, servers[..n], m, peer, j, env);
    } else {
      var b := Offline(peer.addr, peer.notice, m[j]);
      assert b.Offline? && env == System(h.self, j, b);
    }
  }

  lemma {:induction false} SelfOutShape(h: Hub, servers: seq<Addr>, m: map<Addr, seq<Addr>>, peer: Conn, p: Packet)
    requires p in SelfOut(h, servers, m, peer)
    ensures exists b: Body :: b.Offline? && p == Packet(h.self, RelayMessage(System(h.self, h.self, b)), None)
  {
    var n := |servers| - 1;
    if p in SelfOut(h, servers[..n], m, peer) {
      SelfOutShape(h, servers[..n], m, peer, p);
    } else {
      var b := Offline(peer.addr, peer.notice, m[servers[n]]);
      assert b.Offline? && p == Packet(h.self, RelayMessage(System(h.self, h.self, b)), None);
    }
  }

  lemma LinkOutShape(h: Hub, p: Packet, ch: Choice, j: Addr, env: Env) returns (kind: Kind)
    requires env in LinkOut(h, p, ch, j)
    ensures OutOf(h, p, j, env, kind)
  {
    hide Learns, Forwards, SessionServers, OfflineOut;
    match p.content
    case AddClient(peer) =>
      kind := Killing;
    case DelClient(peer) =>
      kind := Offlining;
      OfflineOutShape(h, ch.serverOrder, SessionServers(h.clients[peer.addr].sessions, ch.sessionOrder), peer, j, env);
    case RelayMessage(e) =>
      kind := if env in LocOut(h, p.from, e.msg.header, j) then Locating else Forwarding;
  }

  lemma QueueOutShape(h: Hub, p: Packet, ch: Choice, q: Packet)
    requires q in QueueOut(h, p, ch)
    ensures p.content.DelClient?
    ensures exists b: Body :: b.Offline? && q == Packet(h.self, RelayMessage(System(h.self, h.self, b)), None)
  {
    hide SessionServers, SelfOut;
    SelfOutShape(h, ch.serverOrder, SessionServers(h.clients[p.content.peer.addr].sessions, ch.sessionOrder), p.content.peer, q);
  }

  /** A message that came through a link is never put on a link again. */
  lemma OutHops(h: Hub, p: Packet, j: Addr, env: Env, kind: Kind, servers: set<Addr>, i: Addr)
    requires PacketOk(servers, i, p) && OutOf(h, p, j, env, kind)
    requires forall s :: s in servers ==> Type(s) == ADDR_SERVER
    requires i in servers
    ensures env.hops == 0
  {
  }

  lemma ProcessKeepsHub(s: State, i: Addr, ch: Choice)
    requires MeshInv(s) && Enabled(s, Process(i, ch))
    ensures HubOk(s.hubs.Keys, i, ProcessStep(s, i, ch).hubs[i])
  {
    hide Handle, LinkOut, QueueOut, Type, OutOf;
    var p := s.inbox[i][0];
    var h := s.hubs[i];
    HandleOut(h, p, ch);
    var r := Handle(h, p, ch);
    forall j, k | j in r.links && 0 <= k < |r.links[j]|
      ensures r.links[j][k].hops == 0
    {
      if k >= |h.links[j]| {
        var env := LinkOut(h, p, ch, j)[k - |h.links[j]|];
        assert r.links[j][k] == env;
        var kind := LinkOutShape(h, p, ch, j, env);
        OutHops(h, p, j, env, kind, s.hubs.Keys, i);
      }
    }
  }

  lemma ProcessKeepsInbox(s: State, i: Addr, ch: Choice)
    requires MeshInv(s) && Enabled(s, Process(i, ch))
    ensures var q := ProcessStep(s, i, ch).inbox[i]; forall k :: 0 <= k < |q| ==> PacketOk(s.hubs.Keys, i, q[k])
  {
    hide Handle, LinkOut, QueueOut, PacketOk, HubOk, Type;
    var p := s.inbox[i][0];
    var h := s.hubs[i];
    assert HubOk(s.hubs.Keys, i, h);
    assert h.self == i && h.queued == [] by { OkParts(s.hubs.Keys, i, h); }
    InMesh(s.hubs.Keys, i, p);
    HandleOut(h, p, ch);
    var out := QueueOut(h, p, ch);
    assert h.queued + out == out;
    var q := ProcessStep(s, i, ch).inbox[i];
    forall k | 0 <= k < |q|
      ensures PacketOk(s.hubs.Keys, i, q[k])
    {
      if k >= |s.inbox[i]| - 1 {
        assert q[k] == out[k - (|s.inbox[i]| - 1)];
        QueueOutShape(h, p, ch, q[k]);
        OwnPacketOk(s.hubs.Keys, i, q[k]);
      } else {
        assert q[k] == s.inbox[i][k + 1];
      }
    }
  }

  lemma InMesh(servers: set<Addr>, i: Addr, p: Packet)
    requires PacketOk(servers, i, p)
    ensures !p.content.AddServer? && !p.content.DelServer?
  {
  }

  lemma OkParts(servers: set<Addr>, i: Addr, h: Hub)
    requires HubOk(servers, i, h)
    ensures h.self == i && h.queued == []
  {
  }

  lemma OwnPacketOk(servers: set<Addr>, i: Addr, p: Packet)
    requires exists b: Body :: b.Offline? && p == Packet(i, RelayMessage(System(i, i, b)), None)
    ensures PacketOk(servers, i, p)
  {
  }

  lemma EnqueueKeeps(s: State, i: Addr, p: Packet)
    requires MeshInv(s) && i in s.inbox && PacketOk(s.hubs.Keys, i, p)
    ensures MeshInv(Enqueue(s, i, p))
  {
    hide PacketOk, HubOk, Type;
  }

  lemma GroupStepFrame(h: Hub, g: Addr)
    ensures GroupStep(h, g) == h.(groups := GroupStep(h, g).groups)
  {
  }

  lemma UpdateKeeps(s: State, i: Addr, h: Hub)
    requires MeshInv(s) && i in s.hubs && HubOk(s.hubs.Keys, i, h)
    ensures MeshInv(s.(hubs := s.hubs[i := h])) && s.hubs[i := h].Keys == s.hubs.Keys
  {
    hide PacketOk, HubOk, Type;
    assert s.hubs[i := h].Keys == s.hubs.Keys;
  }

  lemma DeliverKeepsMesh(s: State, i: Addr, j: Addr, k: nat)
    requires MeshInv(s) && Enabled(s, Deliver(i, j, k))
    ensures MeshInv(DeliverStep(s, i, j, k)) && DeliverStep(s, i, j, k).hubs.Keys == s.hubs.Keys
  {
    hide Type, PacketOk, MeshInv;
    var h := s.hubs[i];
    var q := h.links[j];
    var h' := h.(links := h.links[j := q[..k] + q[k + 1..]]);
    assert HubOk(s.hubs.Keys, i, h) by { MeshParts(s, i); }
    assert HubOk(s.hubs.Keys, i, h');
    UpdateKeeps(s, i, h');
    var t := s.(hubs := s.hubs[i := h']);
    var p := Packet(i, RelayMessage(Arrived(q[k])), None);
    assert q[k].hops == 0;
    assert PacketOk(t.hubs.Keys, j, p) by { LinkPacketOk(t.hubs.Keys, i, j, q[k]); }
    EnqueueKeeps(t, j, p);
  }

  lemma MeshParts(s: State, i: Addr)
    requires MeshInv(s) && i in s.hubs
    ensures HubOk(s.hubs.Keys, i, s.hubs[i]) && i in s.inbox && Type(i) == ADDR_SERVER
  {
  }

  /** A link leads to another hub of the mesh. */
  lemma LinkTarget(s: State, i: Addr, j: Addr)
    requires MeshInv(s) && i in s.hubs && j in s.hubs[i].links
    ensures i != j && j in s.hubs
  {
    hide Type, PacketOk;
    assert HubOk(s.hubs.Keys, i, s.hubs[i]);
  }

  lemma LinkPacketOk(servers: set<Addr>, i: Addr, j: Addr, env: Env)
    requires i in servers && i != j && env.hops == 0
    ensures PacketOk(servers, j, Packet(i, RelayMessage(Arrived(env)), None))
  {
  }

  lemma ProcessKeepsMesh(s: State, i: Addr, ch: Choice)
    requires MeshInv(s) && Enabled(s, Process(i, ch))
    ensures MeshInv(ProcessStep(s, i, ch)) && ProcessStep(s, i, ch).hubs.Keys == s.hubs.Keys
  {
    hide Handle, Type, PacketOk, HubOk, MeshInv;
    ProcessKeepsHub(s, i, ch);
    ProcessKeepsInbox(s, i, ch);
    var t := ProcessStep(s, i, ch);
    UpdateKeeps(s, i, t.hubs[i]);
    InboxKeeps(s.(hubs := t.hubs), i, t.inbox[i], t.ever);
  }

  lemma InboxKeeps(s: State, i: Addr, q: seq<Packet>, ever: set<(Addr, Addr)>)
    requires MeshInv(s) && i in s.hubs
    requires forall k :: 0 <= k < |q| ==> PacketOk(s.hubs.Keys, i, q[k])
    ensures MeshInv(s.(inbox := s.inbox[i := q], ever := ever))
  {
    hide PacketOk, HubOk, Type;
  }

  lemma SendKeepsMesh(s: State, i: Addr, from: Addr, msg: Message, tag: nat)
    requires MeshInv(s) && Enabled(s, Send(i, from, msg, tag))
    ensures MeshInv(Next(s, Send(i, from, msg, tag)))
  {
    hide Type, HubOk;
    var m := Stamped(i, from, msg);
    var t := s.(sent := s.sent[tag := Origin(i, m.header.dest)]);
    assert MeshInv(t) by { hide PacketOk; }
    EnqueueKeeps(t, i, Packet(from, RelayMessage(Env(tag, 0, m)), None));
  }

  lemma StepKeepsMesh(s: State, e: Event)
    requires MeshInv(s)
    ensures MeshInv(Next(s, e)) && Next(s, e).hubs.Keys == s.hubs.Keys
  {
    hide MeshInv, Type, GroupStep, ProcessStep, DeliverStep, HubOk;
    if Enabled(s, e) {
      match e
      case Connect(i, peer) => EnqueueKeeps(s, i, Packet(i, AddClient(peer), None));
      case Disconnect(i, peer) => EnqueueKeeps(s, i, Packet(peer.addr, DelClient(peer), None));
      case Send(i, from, msg, tag) => SendKeepsMesh(s, i, from, msg, tag);
      case Deliver(i, j, k) => DeliverKeepsMesh(s, i, j, k);
      case Process(i, ch) => ProcessKeepsMesh(s, i, ch);
      case GroupTurn(i, g) => GroupTurnKeepsMesh(s, i, g);
    }
  }

  lemma GroupTurnKeepsMesh(s: State, i: Addr, g: Addr)
    requires MeshInv(s) && i in s.hubs
    ensures var h := GroupStep(s.hubs[i], g);
            MeshInv(s.(hubs := s.hubs[i := h])) && s.hubs[i := h].Keys == s.hubs.Keys
  {
    hide MeshInv, Type, GroupStep;
    MeshParts(s, i);
    GroupStepFrame(s.hubs[i], g);
    UpdateKeeps(s, i, GroupStep(s.hubs[i], g));
  }

  lemma StartMesh(servers: set<Addr>)
    requires forall i :: i in servers ==> Type(i) == ADDR_SERVER
    ensures MeshInv(Start(servers))
  {
  }

  lemma {:induction false} RunKeepsMesh(s: State, evs: seq<Event>)
    requires MeshInv(s)
    ensures MeshInv(Run(s, evs)) && Run(s, evs).hubs.Keys == s.hubs.Keys
    decreases |evs|
  {
    hide MeshInv, Next;
    if evs != [] {
      StepKeepsMesh(s, evs[0]);
      RunKeepsMesh(Next(s, evs[0]), evs[1..]);
    }
  }

  /**
   * No forwarding loops: over every run of a full mesh, a message waiting on a link has crossed none before, and a
   * message on a hub's queue has crossed at most one.
   */
  lemma LoopFree(servers: set<Addr>, evs: seq<Event>)
    requires forall i :: i in servers ==> Type(i) == ADDR_SERVER
    ensures var s := Run(Start(servers), evs);
            && (forall i, j, k :: i in s.hubs && j in s.hubs[i].links && 0 <= k < |s.hubs[i].links[j]|
                  ==> s.hubs[i].links[j][k].hops == 0)
            && (forall i, k :: i in s.inbox && 0 <= k < |s.inbox[i]| && s.inbox[i][k].content.RelayMessage?
                  ==> s.inbox[i][k].content.env.hops <= 1)
  {
    hide Next, MeshInv;
    StartMesh(servers);
    RunKeepsMesh(Start(servers), evs);
    HopsFromMesh(Run(Start(servers), evs));
  }

  lemma HopsFromMesh(s: State)
    requires MeshInv(s)
    ensures forall i, j, k :: i in s.hubs && j in s.hubs[i].links && 0 <= k < |s.hubs[i].links[j]|
              ==> s.hubs[i].links[j][k].hops == 0
    ensures forall i, k :: i in s.inbox && 0 <= k < |s.inbox[i]| && s.inbox[i][k].content.RelayMessage?
              ==> s.inbox[i][k].content.env.hops <= 1
  {
    hide Type;
    forall i, j, k | i in s.hubs && j in s.hubs[i].links && 0 <= k < |s.hubs[i].links[j]|
      ensures s.hubs[i].links[j][k].hops == 0
    {
      assert HubOk(s.hubs.Keys, i, s.hubs[i]);
    }
    forall i, k | i in s.inbox && 0 <= k < |s.inbox[i]| && s.inbox[i][k].content.RelayMessage?
      ensures s.inbox[i][k].content.env.hops <= 1
    {
      assert PacketOk(s.hubs.Keys, i, s.inbox[i][k]);
    }
  }
}
