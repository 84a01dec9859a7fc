/** Where location entries come from: a hub only ever believes a client to be where it once registered. */
module Provenance {
  import opened Bytes
  import opened Addresses
  import opened Wire
  import opened HubModel
  import opened HubFacts
  import opened Cluster

  /** A client registers at a hub before it sends there, and sends only chats and group commands. */
  ghost predicate Behaved(s: State, e: Event) {
    e.Send? ==> (e.from, e.at) in s.ever && (e.msg.body.Chat? || e.msg.body.GroupInOut?)
  }

  ghost predicate AllBehaved(s: State, evs: seq<Event>)
    decreases |evs|
  {
    evs == [] || (Behaved(s, evs[0]) && AllBehaved(Next(s, evs[0]), evs[1..]))
  }

  // -------------------------------------------------------------- invariant

  ghost predicate LocationsOk(servers: set<Addr>, ever: set<(Addr, Addr)>, i: Addr, h: Hub) {
    && (forall c :: c in h.location ==> h.location[c] in servers && h.location[c] != i && (c, h.location[c]) in ever)
    && (forall c :: c in h.clients ==> (c, i) in ever)
  }

  /** A message sent by server i: a client source registered there, and a Loc speaks of i itself. */
  ghost predicate EnvOk(ever: set<(Addr, Addr)>, i: Addr, env: Env) {
    && (Type(env.msg.header.source) == ADDR_CLIENT ==> (env.msg.header.source, i) in ever)
    && (env.msg.body.Loc? ==> env.msg.body.inServer == i && (env.msg.body.peer, i) in ever)
  }

  ghost predicate LinksOk(ever: set<(Addr, Addr)>, i: Addr, h: Hub) {
    forall j, k :: j in h.links && 0 <= k < |h.links[j]| ==> EnvOk(ever, i, h.links[j][k])
  }

  ghost predicate TraceOk(ever: set<(Addr, Addr)>, i: Addr, p: Packet) {
    match p.content
    case RelayMessage(env) =>
      if p.from == i then !env.msg.body.Loc?
      else if Type(p.from) == ADDR_CLIENT
      then (p.from, i) in ever && (env.msg.body.Chat? || env.msg.body.GroupInOut?)
      else EnvOk(ever, p.from, env)
    case _ => true
  }

  ghost predicate QueueOk(ever: set<(Addr, Addr)>, i: Addr, q: seq<Packet>) {
    forall k :: 0 <= k < |q| ==> TraceOk(ever, i, q[k])
  }

  /** All of that for one hub. */
  ghost predicate NodeOk(servers: set<Addr>, ever: set<(Addr, Addr)>, i: Addr, h: Hub, q: seq<Packet>) {
    LocationsOk(servers, ever, i, h) && LinksOk(ever, i, h) && QueueOk(ever, i, q)
  }

  ghost predicate Inv(s: State) {
    && MeshInv(s)
    && forall i :: i in s.hubs && i in s.inbox ==> NodeOk(s.hubs.Keys, s.ever, i, s.hubs[i], s.inbox[i])
  }

  // ------------------------------------------------------- handled packets

  /** Every location entry after a packet was there before, or was learnt from a relayed message or from a Loc. */
  lemma HandleLocation(h: Hub, p: Packet, ch: Choice, c: Addr)
    requires c in Handle(h, p, ch).location
    ensures var srv := Handle(h, p, ch).location[c];
            || (c in h.location && srv == h.location[c])
            || (p.content.RelayMessage? && Learns(h, p.from, p.content.env.msg.header)
                && c == p.content.env.msg.header.source && srv == p.from)
            || (p.content.RelayMessage? && p.content.env.msg.body.Loc?
                && c == p.content.env.msg.body.peer && srv == p.content.env.msg.body.inServer)
  {
    hide Relayed, Unregister, Register, Learns;
    match p.content
    case AddClient(peer) => RegisterFrame(h, peer, ch.now);
    case DelClient(peer) => UnregisterFrame(h, peer, ch);
    case RelayMessage(env) => RelayedLocation(h, p.from, env, p.resp);
    case _ =>
  }

  lemma LogicLocation(h: Hub, env: Env)
    ensures forall c :: c in Logic(h, env).location ==>
              || (c in h.location && Logic(h, env).location[c] == h.location[c])
              || (env.msg.body.Loc? && c == env.msg.body.peer && Logic(h, env).location[c] == env.msg.body.inServer)
  {
    hide OfflineTargets, InOutGroups, WithSession;
    match env.msg.body
    case GroupInOut(inOut, gs) =>
      if env.msg.header.source in h.clients { InOutGroupsFrame(h, env.msg.header.source, inOut, gs); }
    case Loc(target, peer, inServer) =>
      WithSessionFrame(h.(location := h.location[peer := inServer]), target, peer, inServer);
    case Offline(gone, notice, ts) => OfflineTargetsFrame(h.(location := h.location - {gone}), gone, notice, ts);
    case _ =>
  }

  lemma RelayedLocation(h: Hub, from: Addr, env: Env, resp: Option<nat>)
    ensures var r := Relayed(h, from, env, resp);
            var header := env.msg.header;
            forall c :: c in r.location ==>
              || (c in h.location && r.location[c] == h.location[c])
              || (Learns(h, from, header) && c == header.source && r.location[c] == from)
              || (env.msg.body.Loc? && c == env.msg.body.peer && r.location[c] == env.msg.body.inServer)
  {
    hide Record, Route, Logic, Learns, Type, LocOut;
    RecordFrame(h, from, env.msg.header);
    var h1 := Record(h, from, env.msg.header);
    RouteKeys(h1, from, env);
    LogicLocation(h1, env);
  }

  lemma HandleClients(h: Hub, p: Packet, ch: Choice)
    ensures Handle(h, p, ch).clients.Keys
         == if p.content.AddClient? then h.clients.Keys + {p.content.peer.addr}
            else if p.content.DelClient? && Live(h, p.content.peer) then h.clients.Keys - {p.content.peer.addr}
            else h.clients.Keys
  {
    hide Relayed, Unregister, Register, Live;
    match p.content
    case AddClient(peer) => RegisterFrame(h, peer, ch.now);
    case DelClient(peer) => UnregisterFrame(h, peer, ch);
    case RelayMessage(env) => RelayedClients(h, p.from, env, p.resp);
    case _ =>
  }

  lemma EverGrows(servers: set<Addr>, ever: set<(Addr, Addr)>, more: set<(Addr, Addr)>, i: Addr, h: Hub, q: seq<Packet>)
    requires ever <= more && NodeOk(servers, ever, i, h, q)
    ensures NodeOk(servers, more, i, h, q)
  {
    hide Type;
  }

  /** A client-sourced message arriving from a server was sent by a hub where the client once registered. */
  lemma LearntOk(s: State, i: Addr, p: Packet)
    requires Inv(s) && i in s.hubs && p in s.inbox[i] && p.content.RelayMessage?
    requires Learns(s.hubs[i], p.from, p.content.env.msg.header)
    ensures p.from in s.hubs && p.from != i && (p.content.env.msg.header.source, p.from) in s.ever
  {
    PacketParts(s, i, p);
  }

  lemma PacketParts(s: State, i: Addr, p: Packet)
    requires Inv(s) && i in s.hubs && p in s.inbox[i]
    ensures PacketOk(s.hubs.Keys, i, p) && TraceOk(s.ever, i, p) && Type(i) == ADDR_SERVER
    ensures HubOk(s.hubs.Keys, i, s.hubs[i])
    ensures LocationsOk(s.hubs.Keys, s.ever, i, s.hubs[i]) && LinksOk(s.ever, i, s.hubs[i])
    ensures p.from in s.hubs ==> Type(p.from) == ADDR_SERVER
  {
    hide PacketOk, TraceOk, Type, HubOk, LocationsOk, LinksOk;
    var k :| 0 <= k < |s.inbox[i]| && s.inbox[i][k] == p;
  }

  lemma LocOk(s: State, i: Addr, p: Packet)
    requires Inv(s) && i in s.hubs && p in s.inbox[i] && p.content.RelayMessage? && p.content.env.msg.body.Loc?
    ensures var b := p.content.env.msg.body; b.inServer in s.hubs && b.inServer != i && (b.peer, b.inServer) in s.ever
  {
    PacketParts(s, i, p);
  }

  lemma ProcessLocations(s: State, i: Addr, ch: Choice)
    requires Inv(s) && Enabled(s, Process(i, ch))
    ensures var t := ProcessStep(s, i, ch); LocationsOk(s.hubs.Keys, t.ever, i, t.hubs[i])
  {
    hide Handle, Inv, Learns, PacketOk, TraceOk, LinksOk, HubOk, Type;
    var p, h := s.inbox[i][0], s.hubs[i];
    var t := ProcessStep(s, i, ch);
    PacketParts(s, i, p);
    HandleClients(h, p, ch);
    forall c | c in t.hubs[i].location
      ensures t.hubs[i].location[c] in s.hubs.Keys && t.hubs[i].location[c] != i && (c, t.hubs[i].location[c]) in t.ever
    {
      HandleLocation(h, p, ch, c);
      if p.content.RelayMessage? {
        if Learns(h, p.from, p.content.env.msg.header) { LearntOk(s, i, p); }
        if p.content.env.msg.body.Loc? { LocOk(s, i, p); }
      }
    }
  }

  lemma OutOk(s: State, i: Addr, ch: Choice, j: Addr, env: Env)
    requires Inv(s) && Enabled(s, Process(i, ch)) && env in LinkOut(s.hubs[i], s.inbox[i][0], ch, j)
    ensures EnvOk(ProcessStep(s, i, ch).ever, i, env)
  {
    hide Handle, Inv, LinkOut, LinksOk;
    var p, h := s.inbox[i][0], s.hubs[i];
    PacketParts(s, i, p);
    var kind := LinkOutShape(h, p, ch, j, env);
  }

  lemma ProcessLinksOk(s: State, i: Addr, ch: Choice)
    requires Inv(s) && Enabled(s, Process(i, ch))
    ensures var t := ProcessStep(s, i, ch); LinksOk(t.ever, i, t.hubs[i])
  {
    hide Handle, Inv, LinkOut, QueueOut, EnvOk, PacketOk, TraceOk, Type, LocationsOk;
    var p, h := s.inbox[i][0], s.hubs[i];
    var t := ProcessStep(s, i, ch);
    PacketParts(s, i, p);
    InMesh(s.hubs.Keys, i, p);
    HandleOut(h, p, ch);
    forall j, k | j in t.hubs[i].links && 0 <= k < |t.hubs[i].links[j]|
      ensures EnvOk(t.ever, i, t.hubs[i].links[j][k])
    {
      var env := t.hubs[i].links[j][k];
      if k >= |h.links[j]| {
        assert env == LinkOut(h, p, ch, j)[k - |h.links[j]|];
        OutOk(s, i, ch, j, env);
      } else {
        assert env == h.links[j][k];
        EnvOkGrows(s.ever, t.ever, i, env);
      }
    }
  }

  lemma EnvOkGrows(ever: set<(Addr, Addr)>, more: set<(Addr, Addr)>, i: Addr, env: Env)
    requires ever <= more && EnvOk(ever, i, env)
    ensures EnvOk(more, i, env)
  {
  }

  lemma ProcessQueueOk(s: State, i: Addr, ch: Choice)
    requires Inv(s) && Enabled(s, Process(i, ch))
    ensures var t := ProcessStep(s, i, ch); QueueOk(t.ever, i, t.inbox[i])
  {
    hide Handle, Inv, LinkOut, QueueOut, EnvOk, PacketOk, TraceOk, Type, LocationsOk, LinksOk;
    var p, h := s.inbox[i][0], s.hubs[i];
    var t := ProcessStep(s, i, ch);
    PacketParts(s, i, p);
    InMesh(s.hubs.Keys, i, p);
    OkParts(s.hubs.Keys, i, h);
    HandleOut(h, p, ch);
    var out := QueueOut(h, p, ch);
    assert h.queued + out == out;
    Node(s, i);
    var n := |s.inbox[i]| - 1;
    forall k | 0 <= k < |t.inbox[i]|
      ensures TraceOk(t.ever, i, t.inbox[i][k])
    {
      var q := t.inbox[i][k];
      if k >= n {
        assert q == out[k - n];
        QueueOutShape(h, p, ch, q);
        OwnOfflineOk(t.ever, i, q);
      } else {
        assert q == s.inbox[i][k + 1];
        TraceGrows(s.ever, t.ever, i, q);
      }
    }
  }

  lemma OwnOfflineOk(ever: set<(Addr, Addr)>, i: Addr, p: Packet)
    requires exists b: Body :: b.Offline? && p == Packet(i, RelayMessage(System(i, i, b)), None)
    ensures TraceOk(ever, i, p)
  {
  }

  lemma TraceGrows(ever: set<(Addr, Addr)>, more: set<(Addr, Addr)>, i: Addr, p: Packet)
    requires ever <= more && TraceOk(ever, i, p)
    ensures TraceOk(more, i, p)
  {
  }

  // --------------------------------------------------------------- the steps

  /** One hub and its queue replaced, the history grown. */
  lemma UpdateNode(s: State, t: State, i: Addr)
    requires Inv(s) && MeshInv(t) && i in s.hubs && s.ever <= t.ever
    requires t.hubs.Keys == s.hubs.Keys && t.inbox.Keys == s.inbox.Keys && i in t.inbox
    requires forall a :: a in s.hubs && a in s.inbox && a != i ==> t.hubs[a] == s.hubs[a] && t.inbox[a] == s.inbox[a]
    requires NodeOk(s.hubs.Keys, t.ever, i, t.hubs[i], t.inbox[i])
    ensures Inv(t)
  {
    hide MeshInv, NodeOk;
    forall a | a in t.hubs && a in t.inbox
      ensures NodeOk(t.hubs.Keys, t.ever, a, t.hubs[a], t.inbox[a])
    {
      if a != i {
        EverGrows(s.hubs.Keys, s.ever, t.ever, a, s.hubs[a], s.inbox[a]);
      }
    }
  }

  lemma Node(s: State, i: Addr)
    requires Inv(s) && i in s.hubs
    ensures i in s.inbox && NodeOk(s.hubs.Keys, s.ever, i, s.hubs[i], s.inbox[i])
    ensures s.hubs.Keys == s.inbox.Keys
  {
    hide NodeOk, HubOk, PacketOk;
  }

  lemma LongerQueueOk(servers: set<Addr>, ever: set<(Addr, Addr)>, i: Addr, h: Hub, q: seq<Packet>, p: Packet)
    requires NodeOk(servers, ever, i, h, q) && TraceOk(ever, i, p)
    ensures NodeOk(servers, ever, i, h, q + [p])
  {
    hide TraceOk, LocationsOk, LinksOk;
  }

  lemma EnqueueKeepsTrace(s: State, i: Addr, p: Packet)
    requires Inv(s) && i in s.hubs && i in s.inbox && PacketOk(s.hubs.Keys, i, p) && TraceOk(s.ever, i, p)
    ensures Inv(Enqueue(s, i, p))
  {
    hide MeshInv, PacketOk, TraceOk, NodeOk, Inv;
    InvMesh(s);
    EnqueueKeeps(s, i, p);
    Node(s, i);
    LongerQueueOk(s.hubs.Keys, s.ever, i, s.hubs[i], s.inbox[i], p);
    UpdateNode(s, Enqueue(s, i, p), i);
  }

  lemma ProcessKeeps(s: State, i: Addr, ch: Choice)
    requires Inv(s) && Enabled(s, Process(i, ch))
    ensures Inv(ProcessStep(s, i, ch))
  {
    hide MeshInv, LocationsOk, LinksOk, QueueOk, Handle, Inv;
    InvMesh(s);
    ProcessKeepsMesh(s, i, ch);
    ProcessLocations(s, i, ch);
    ProcessLinksOk(s, i, ch);
    ProcessQueueOk(s, i, ch);
    Node(s, i);
    UpdateNode(s, ProcessStep(s, i, ch), i);
  }

  lemma InvMesh(s: State)
    requires Inv(s)
    ensures MeshInv(s)
  {
  }

  lemma ShorterLinkOk(servers: set<Addr>, ever: set<(Addr, Addr)>, i: Addr, h: Hub, q: seq<Packet>, j: Addr, k: nat)
    requires NodeOk(servers, ever, i, h, q) && HubOk(servers, i, h) && j in h.links && k < |h.links[j]|
    ensures NodeOk(servers, ever, i, Without(h, j, k), q) && HubOk(servers, i, Without(h, j, k))
  {
    hide EnvOk, QueueOk;
    var h' := Without(h, j, k);
    forall l, n | l in h'.links && 0 <= n < |h'.links[l]|
      ensures EnvOk(ever, i, h'.links[l][n]) && h'.links[l][n].hops == 0
    {
      if l == j {
        assert h'.links[j][n] == h.links[j][if n < k then n else n + 1];
      } else {
        assert h'.links[l][n] == h.links[l][n];
      }
    }
    assert h'.links.Keys == h.links.Keys;
  }

  /** A message taken off a link leaves the rest of the hub as it was. */
  lemma TakenKeeps(s: State, i: Addr, j: Addr, k: nat)
    requires Inv(s) && Enabled(s, Deliver(i, j, k))
    ensures Inv(s.(hubs := s.hubs[i := Without(s.hubs[i], j, k)]))
  {
    var h' := Without(s.hubs[i], j, k);
    hide Inv, MeshInv, Type, NodeOk, HubOk, Without;
    InvMesh(s);
    MeshParts(s, i);
    Node(s, i);
    ShorterLinkOk(s.hubs.Keys, s.ever, i, s.hubs[i], s.inbox[i], j, k);
    UpdateKeeps(s, i, h');
    UpdateNode(s, s.(hubs := s.hubs[i := h']), i);
  }

  lemma DeliverKeeps(s: State, i: Addr, j: Addr, k: nat)
    requires Inv(s) && Enabled(s, Deliver(i, j, k))
    ensures Inv(DeliverStep(s, i, j, k))
  {
    hide MeshInv, Type, PacketOk, Inv, TraceOk;
    var q := s.hubs[i].links[j];
    InvMesh(s);
    TakenKeeps(s, i, j, k);
    ArrivedOk(s, i, j, k);
    var t := s.(hubs := s.hubs[i := Without(s.hubs[i], j, k)]);
    assert t.hubs.Keys == s.hubs.Keys;
    EnqueueKeepsTrace(t, j, Packet(i, RelayMessage(Arrived(q[k])), None));
  }

  lemma ArrivedOk(s: State, i: Addr, j: Addr, k: nat)
    requires Inv(s) && Enabled(s, Deliver(i, j, k))
    ensures var p := Packet(i, RelayMessage(Arrived(s.hubs[i].links[j][k])), None);
            TraceOk(s.ever, j, p) && PacketOk(s.hubs.Keys, j, p) && j in s.hubs
  {
    hide MeshInv, QueueOk, LocationsOk, Inv;
    InvMesh(s);
    MeshParts(s, i);
    Node(s, i);
    assert EnvOk(s.ever, i, s.hubs[i].links[j][k]);
  }

  lemma GroupTurnKeeps(s: State, i: Addr, g: Addr)
    requires Inv(s) && i in s.hubs
    ensures Inv(s.(hubs := s.hubs[i := GroupStep(s.hubs[i], g)]))
  {
    hide MeshInv, GroupStep, Inv, EnvOk, QueueOk;
    InvMesh(s);
    Node(s, i);
    GroupTurnKeepsMesh(s, i, g);
    GroupStepFrame(s.hubs[i], g);
    UpdateNode(s, s.(hubs := s.hubs[i := GroupStep(s.hubs[i], g)]), i);
  }

  lemma SendKeeps(s: State, i: Addr, from: Addr, msg: Message, tag: nat)
    requires Inv(s) && Enabled(s, Send(i, from, msg, tag)) && Behaved(s, Send(i, from, msg, tag))
    ensures Inv(Next(s, Send(i, from, msg, tag)))
  {
    SendKeepsMesh(s, i, from, msg, tag);
    hide MeshInv, LocationsOk, LinksOk, Inv;
    InvMesh(s);
    Node(s, i);
    var m := Stamped(i, from, msg);
    var p := Packet(from, RelayMessage(Env(tag, 0, m)), None);
    ServerIsNoClient(s, i, from);
    assert TraceOk(s.ever, i, p);
    hide TraceOk, NodeOk;
    LongerQueueOk(s.hubs.Keys, s.ever, i, s.hubs[i], s.inbox[i], p);
    UpdateNode(s, Next(s, Send(i, from, msg, tag)), i);
  }

  lemma ServerIsNoClient(s: State, i: Addr, c: Addr)
    requires MeshInv(s) && i in s.hubs && Type(c) == ADDR_CLIENT
    ensures c != i
  {
  }

  lemma StepKeeps(s: State, e: Event)
    requires Inv(s) && Behaved(s, e)
    ensures Inv(Next(s, e))
  {
    hide Inv, ProcessStep, DeliverStep, GroupStep, Type;
    if Enabled(s, e) {
      match e
      case Connect(i, peer) => EnqueueKeepsTrace(s, i, Packet(i, AddClient(peer), None));
      case Disconnect(i, peer) => EnqueueKeepsTrace(s, i, Packet(peer.addr, DelClient(peer), None));
      case Send(i, from, msg, tag) => SendKeeps(s, i, from, msg, tag);
      case Deliver(i, j, k) => DeliverKeeps(s, i, j, k);
      case Process(i, ch) => ProcessKeeps(s, i, ch);
      case GroupTurn(i, g) => GroupTurnKeeps(s, i, g);
    }
  }

  lemma {:induction false} RunKeeps(s: State, evs: seq<Event>)
    requires Inv(s) && AllBehaved(s, evs)
    ensures Inv(Run(s, evs))
    decreases |evs|
  {
    hide Inv, Next, Behaved;
    if evs != [] {
      StepKeeps(s, evs[0]);
      RunKeeps(Next(s, evs[0]), evs[1..]);
    }
  }

  lemma StartOk(servers: set<Addr>)
    requires forall i :: i in servers ==> Type(i) == ADDR_SERVER
    ensures Inv(Start(servers))
  {
    StartMesh(servers);
    hide MeshInv, Type, EnvOk, TraceOk;
    forall i | i in servers
      ensures NodeOk(Start(servers).hubs.Keys, {}, i, EmptyHub(i, servers), [])
    {
    }
  }

  // ------------------------------------------------------------- main result

  /**
   * Over every run from start-up in which clients register before they send and send only chats and group commands:
   * an entry location[c] == srv of a hub names another hub of the mesh, and c was registered there at an earlier point.
   */
  lemma LocationProvenance(servers: set<Addr>, evs: seq<Event>)
    requires forall i :: i in servers ==> Type(i) == ADDR_SERVER
    requires AllBehaved(Start(servers), evs)
    ensures var s := Run(Start(servers), evs);
            forall i, c :: i in s.hubs && c in s.hubs[i].location ==>
              var srv := s.hubs[i].location[c];
              srv in s.hubs && srv != i && (c, srv) in s.ever
  {
    hide Next, MeshInv, AllBehaved, Inv;
    StartOk(servers);
    RunKeeps(Start(servers), evs);
    var s := Run(Start(servers), evs);
    forall i, c | i in s.hubs && c in s.hubs[i].location
      ensures var srv := s.hubs[i].location[c]; srv in s.hubs && srv != i && (c, srv) in s.ever
    {
      Node(s, i);
    }
  }
}
