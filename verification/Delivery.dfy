/** How often a client's message to another client is delivered, across the whole mesh. */
module Delivery {
  import opened Bytes
  import opened Addresses
  import opened Wire
  import opened HubModel
  import opened HubFacts
  import opened Cluster

  // ---------------------------------------------------------------- counting

  ghost function CountTag(es: seq<Env>, t: nat): nat {
    if es == [] then 0 else (if es[0].tag == t then 1 else 0) + CountTag(es[1..], t)
  }

  ghost predicate Carries(p: Packet, t: nat) {
    p.content.RelayMessage? && p.content.env.tag == t
  }

  ghost function BoxCount(q: seq<Packet>, t: nat): nat {
    if q == [] then 0 else (if Carries(q[0], t) then 1 else 0) + BoxCount(q[1..], t)
  }

  ghost function PushCount(ps: seq<Push>, t: nat): nat {
    if ps == [] then 0 else (if ps[0].env.tag == t then 1 else 0) + PushCount(ps[1..], t)
  }

  ghost function LinkCount(h: Hub, j: Addr, t: nat): nat {
    if j in h.links then CountTag(h.links[j], t) else 0
  }

  lemma {:induction false} CountTagAppend(a: seq<Env>, b: seq<Env>, t: nat)
    ensures CountTag(a + b, t) == CountTag(a, t) + CountTag(b, t)
    decreases |a|
  {
    if a == [] {
      assert a + b == b;
    } else {
      CountTagAppend(a[1..], b, t);
      assert (a + b)[1..] == a[1..] + b;
    }
  }

  lemma {:induction false} BoxCountAppend(a: seq<Packet>, b: seq<Packet>, t: nat)
    ensures BoxCount(a + b, t) == BoxCount(a, t) + BoxCount(b, t)
    decreases |a|
  {
    hide Carries;
    if a == [] {
      assert a + b == b;
    } else {
      BoxCountAppend(a[1..], b, t);
      assert (a + b)[1..] == a[1..] + b;
    }
  }

  lemma {:induction false} PushCountAppend(a: seq<Push>, b: seq<Push>, t: nat)
    ensures PushCount(a + b, t) == PushCount(a, t) + PushCount(b, t)
    decreases |a|
  {
    if a == [] {
      assert a + b == b;
    } else {
      PushCountAppend(a[1..], b, t);
      assert (a + b)[1..] == a[1..] + b;
    }
  }

  lemma {:induction false} CountTagNone(es: seq<Env>, t: nat)
    requires forall e :: e in es ==> e.tag != t
    ensures CountTag(es, t) == 0
  {
    if es != [] { CountTagNone(es[1..], t); }
  }

  lemma {:induction false} BoxCountNone(q: seq<Packet>, t: nat)
    requires forall p :: p in q ==> !Carries(p, t)
    ensures BoxCount(q, t) == 0
  {
    if q != [] { BoxCountNone(q[1..], t); }
  }

  lemma {:induction false} PushCountNone(ps: seq<Push>, t: nat)
    requires forall p :: p in ps ==> p.env.tag != t
    ensures PushCount(ps, t) == 0
  {
    if ps != [] { PushCountNone(ps[1..], t); }
  }

  lemma CountTagOut(q: seq<Env>, k: nat, t: nat)
    requires k < |q|
    ensures CountTag(q, t) == CountTag(q[..k] + q[k + 1..], t) + (if q[k].tag == t then 1 else 0)
  {
    CountTagAppend(q[..k], q[k + 1..], t);
    CountTagAppend(q[..k], q[k..], t);
    assert q == q[..k] + q[k..];
    assert q[k..][1..] == q[k + 1..];
  }

  // ------------------------------------------- what handling does to a tag

  /** The relayed message is pushed to clients of this hub. */
  ghost predicate Pushed(h: Hub, header: Header) {
    header.dest != h.self
    && (if Type(header.dest) == ADDR_CLIENT then header.dest in h.clients else Type(header.dest) == ADDR_BROADCAST)
  }

  ghost function PushTarget(h: Hub, header: Header): set<Conn> {
    if header.dest in h.clients then {h.clients[header.dest].conn} else DomainConns(h, header.dest)
  }

  lemma RoutePushes(h: Hub, from: Addr, env: Env)
    requires env.msg.header.dest != h.self
    ensures Type(env.msg.header.dest) == ADDR_CLIENT ==>
              Route(h, from, env).pushes
              == h.pushes + (if env.msg.header.dest in h.clients then [Push(PushTarget(h, env.msg.header), env)] else [])
    ensures Type(env.msg.header.dest) != ADDR_CLIENT && !Pushed(h, env.msg.header) ==> Route(h, from, env).pushes == h.pushes
    ensures Type(env.msg.header.dest) != ADDR_CLIENT && Pushed(h, env.msg.header) ==>
              exists to :: Route(h, from, env).pushes == h.pushes + [Push(to, env)]
  {
    hide Type, DomainConns;
    assert h.pushes + [] == h.pushes;
  }

  /** One relayed message adds one push when it is for a client here, none when it is for one elsewhere. */
  lemma RelayedPushes(h: Hub, from: Addr, env: Env, resp: Option<nat>, t: nat)
    requires t > 0
    ensures PushCount(Relayed(h, from, env, resp).pushes, t)
         == PushCount(h.pushes, t) + (if env.tag == t && Pushed(h, env.msg.header) then 1 else 0)
  {
    hide Record, Logic, Route, Type, DomainConns, PushCount, LocOut;
    var header := env.msg.header;
    RecordFrame(h, from, header);
    var h1 := Record(h, from, header);
    if header.dest == h.self {
      LogicFrame(h1, env);
      SystemPushCount(h1.pushes, Logic(h1, env).pushes, t);
    } else {
      RoutePushes(h1, from, env);
      var after := Route(h1, from, env).pushes;
      if Type(header.dest) == ADDR_CLIENT && header.dest !in h1.clients {
        assert h1.pushes + [] == h1.pushes;
      } else if Pushed(h1, header) {
        var to :| after == h1.pushes + [Push(to, env)];
        OnePush(h1.pushes, to, env, t);
      }
    }
  }

  lemma OnePush(ps: seq<Push>, to: set<Conn>, env: Env, t: nat)
    ensures PushCount(ps + [Push(to, env)], t) == PushCount(ps, t) + (if env.tag == t then 1 else 0)
  {
    var one := [Push(to, env)];
    PushCountAppend(ps, one, t);
    assert one[1..] == [];
  }

  lemma SystemPushCount(before: seq<Push>, after: seq<Push>, t: nat)
    requires SystemPushes(before, after) && t > 0
    ensures PushCount(after, t) == PushCount(before, t)
  {
    var more := after[|before|..];
    assert after == before + more;
    PushCountAppend(before, more, t);
    PushCountNone(more, t);
  }

  lemma HandlePushes(h: Hub, p: Packet, ch: Choice, t: nat)
    requires t > 0
    ensures PushCount(Handle(h, p, ch).pushes, t)
         == PushCount(h.pushes, t) + (if Carries(p, t) && Pushed(h, p.content.env.msg.header) then 1 else 0)
  {
    hide Relayed, Unregister, Register, Pushed, PushCount;
    match p.content
    case AddClient(peer) =>
      RegisterFrame(h, peer, ch.now);
      SystemPushCount(h.pushes, Register(h, peer, ch.now).pushes, t);
    case DelClient(peer) => UnregisterFrame(h, peer, ch);
    case RelayMessage(env) => RelayedPushes(h, p.from, env, p.resp, t);
    case _ =>
  }

  lemma {:induction false} OfflineOutTags(h: Hub, servers: seq<Addr>, m: map<Addr, seq<Addr>>, peer: Conn, j: Addr, t: nat)
    requires t > 0
    ensures CountTag(OfflineOut(h, servers, m, peer, j), t) == 0
  {
    forall e | e in OfflineOut(h, servers, m, peer, j)
      ensures e.tag != t
    {
      OfflineOutShape(h, servers, m, peer, j, e);
    }
    CountTagNone(OfflineOut(h, servers, m, peer, j), t);
  }

  lemma LinkOutTags(h: Hub, p: Packet, ch: Choice, j: Addr, t: nat)
    requires t > 0
    ensures CountTag(LinkOut(h, p, ch, j), t)
         == if Carries(p, t) && Forwards(h, p.from, p.content.env.msg.header, j) then 1 else 0
  {
    hide Forwards, Learns, OfflineOut, SessionServers;
    match p.content
    case DelClient(peer) =>
      if Live(h, peer) {
        OfflineOutTags(h, ch.serverOrder, SessionServers(h.clients[peer.addr].sessions, ch.sessionOrder), peer, j, t);
      }
    case RelayMessage(env) =>
      var loc := LocOut(h, p.from, env.msg.header, j);
      var fwd := if Forwards(h, p.from, env.msg.header, j) then [env] else [];
      CountTagAppend(loc, fwd, t);
      CountTagNone(loc, t);
      assert fwd != [] ==> fwd[1..] == [];
    case _ =>
      CountTagNone(LinkOut(h, p, ch, j), t);
  }

  lemma QueueOutTags(h: Hub, p: Packet, ch: Choice, t: nat)
    requires t > 0
    ensures BoxCount(QueueOut(h, p, ch), t) == 0
  {
    hide QueueOut;
    forall q | q in QueueOut(h, p, ch)
      ensures !Carries(q, t)
    {
      QueueOutShape(h, p, ch, q);
    }
    BoxCountNone(QueueOut(h, p, ch), t);
  }

  /** All three counts of the hub that handles a packet. */
  lemma ProcessCounts(s: State, i: Addr, ch: Choice, t: nat)
    requires MeshInv(s) && Enabled(s, Process(i, ch)) && t > 0
    ensures var h, p, n := s.hubs[i], s.inbox[i][0], ProcessStep(s, i, ch);
            var here := Carries(p, t);
            && BoxCount(n.inbox[i], t) + (if here then 1 else 0) == BoxCount(s.inbox[i], t)
            && PushCount(n.hubs[i].pushes, t)
               == PushCount(h.pushes, t) + (if here && Pushed(h, p.content.env.msg.header) then 1 else 0)
            && forall j :: j in h.links ==>
                 LinkCount(n.hubs[i], j, t)
                 == LinkCount(h, j, t) + (if here && Forwards(h, p.from, p.content.env.msg.header, j) then 1 else 0)
  {
    hide Handle, LinkOut, QueueOut, Pushed, Forwards, HubOk, PacketOk, Type, PushCount, CountTag, MeshInv;
    var h, p := s.hubs[i], s.inbox[i][0];
    MeshParts(s, i);
    OkParts(s.hubs.Keys, i, h);
    HeadOk(s, i);
    InMesh(s.hubs.Keys, i, p);
    HandleOut(h, p, ch);
    HandlePushes(h, p, ch, t);
    var out := QueueOut(h, p, ch);
    assert h.queued + out == out;
    QueueOutTags(h, p, ch, t);
    BoxCountAppend(s.inbox[i][1..], out, t);
    forall j | j in h.links
      ensures LinkCount(ProcessStep(s, i, ch).hubs[i], j, t)
           == LinkCount(h, j, t) + (if Carries(p, t) && Forwards(h, p.from, p.content.env.msg.header, j) then 1 else 0)
    {
      LinkOutTags(h, p, ch, j, t);
      CountTagAppend(h.links[j], LinkOut(h, p, ch, j), t);
    }
  }

  lemma HeadOk(s: State, i: Addr)
    requires MeshInv(s) && i in s.hubs && i in s.inbox && s.inbox[i] != []
    ensures PacketOk(s.hubs.Keys, i, s.inbox[i][0])
  {
    hide PacketOk, HubOk;
  }

  // -------------------------------------------------------------- invariant

  /** A message with a tag: a client's message, for the destination it was sent to. */
  ghost predicate Known(sent: map<nat, Origin>, env: Env) {
    env.tag > 0 ==> env.tag in sent && env.msg.header.dest == sent[env.tag].dest
  }

  /** A push of a client's message to a client hits exactly one connection, one with the destination's address. */
  ghost predicate PushOk(sent: map<nat, Origin>, p: Push) {
    && Known(sent, p.env)
    && (p.env.tag > 0 && Type(p.env.msg.header.dest) == ADDR_CLIENT ==> OneConn(p.to, p.env.msg.header.dest))
  }

  /** Exactly one connection, with this address. */
  ghost predicate OneConn(to: set<Conn>, a: Addr) {
    exists c :: to == {c} && c.addr == a
  }

  ghost predicate BoxOk(sent: map<nat, Origin>, i: Addr, p: Packet) {
    p.content.RelayMessage? ==>
      && Known(sent, p.content.env)
      && (p.content.env.tag > 0 ==> sent[p.content.env.tag].hub == if Type(p.from) == ADDR_CLIENT then i else p.from)
  }

  ghost predicate LinkTagOk(sent: map<nat, Origin>, i: Addr, env: Env) {
    Known(sent, env) && (env.tag > 0 ==> sent[env.tag].hub == i)
  }

  /** Tagged messages leave a hub's links only at the hub they entered. */
  ghost predicate NodeTags(sent: map<nat, Origin>, i: Addr, h: Hub, q: seq<Packet>) {
    && (forall j, k :: j in h.links && 0 <= k < |h.links[j]| ==>
          LinkTagOk(sent, i, h.links[j][k]))
    && (forall k :: 0 <= k < |q| ==> BoxOk(sent, i, q[k]))
    && (forall k :: 0 <= k < |h.pushes| ==> PushOk(sent, h.pushes[k]))
    && (forall a :: a in h.clients ==> h.clients[a].conn.addr == a)
  }

  ghost predicate TagInv(s: State) {
    MeshInv(s) && forall i :: i in s.hubs && i in s.inbox ==> NodeTags(s.sent, i, s.hubs[i], s.inbox[i])
  }

  /** The message is on the queue of the hub it entered, or was pushed there. */
  ghost function AtOrigin(s: State, o: Addr, t: nat): nat
    requires o in s.hubs && o in s.inbox
  {
    BoxCount(s.inbox[o], t) + PushCount(s.hubs[o].pushes, t)
  }

  /** It is on the way to hub k, on k's queue, or was pushed there. */
  ghost function Towards(s: State, o: Addr, k: Addr, t: nat): nat
    requires o in s.hubs && k in s.hubs && k in s.inbox
  {
    LinkCount(s.hubs[o], k, t) + BoxCount(s.inbox[k], t) + PushCount(s.hubs[k].pushes, t)
  }

  /**
   * A client's message: never two chances to be pushed at the same hub. One for a client has a single chance at the hub it
   * entered and behind each link; others are spread, and pushed at the hub they entered besides.
   */
  ghost predicate AtMostOnce(s: State, t: nat)
    requires t in s.sent && s.hubs.Keys == s.inbox.Keys
  {
    var o := s.sent[t].hub;
    && o in s.hubs
    && AtOrigin(s, o, t) <= 1
    && forall k :: k in s.hubs && k != o ==>
         (if Type(s.sent[t].dest) == ADDR_CLIENT then AtOrigin(s, o, t) else BoxCount(s.inbox[o], t)) + Towards(s, o, k, t) <= 1
  }

  // -------------------------------------------------------- tags are kept

  lemma TagNode(s: State, i: Addr)
    requires TagInv(s) && i in s.hubs
    ensures i in s.inbox && NodeTags(s.sent, i, s.hubs[i], s.inbox[i])
    ensures s.hubs.Keys == s.inbox.Keys && Type(i) == ADDR_SERVER && HubOk(s.hubs.Keys, i, s.hubs[i])
  {
    hide NodeTags, HubOk, PacketOk;
  }

  lemma TagMesh(s: State)
    requires TagInv(s)
    ensures MeshInv(s) && s.hubs.Keys == s.inbox.Keys
  {
  }

  lemma SentGrows(sent: map<nat, Origin>, tag: nat, origin: Origin, i: Addr, h: Hub, q: seq<Packet>)
    requires NodeTags(sent, i, h, q) && tag !in sent
    ensures NodeTags(sent[tag := origin], i, h, q)
  {
    hide Type;
  }

  lemma UpdateNode(s: State, t: State, i: Addr)
    requires TagInv(s) && MeshInv(t) && i in s.hubs && s.sent == t.sent
    requires t.hubs.Keys == s.hubs.Keys && t.inbox.Keys == s.inbox.Keys && i in t.inbox
    requires forall a :: a in s.hubs && a in s.inbox && a != i ==> t.hubs[a] == s.hubs[a] && t.inbox[a] == s.inbox[a]
    requires NodeTags(s.sent, i, t.hubs[i], t.inbox[i])
    ensures TagInv(t)
  {
    hide MeshInv, NodeTags;
  }

  lemma HandleConns(h: Hub, p: Packet, ch: Choice)
    requires forall a :: a in h.clients ==> h.clients[a].conn.addr == a
    ensures forall a :: a in Handle(h, p, ch).clients ==> Handle(h, p, ch).clients[a].conn.addr == a
  {
    hide Relayed, Unregister, Register, Live;
    match p.content
    case AddClient(peer) => RegisterFrame(h, peer, ch.now);
    case DelClient(peer) => UnregisterFrame(h, peer, ch);
    case RelayMessage(env) => RelayedClients(h, p.from, env, p.resp);
    case _ =>
  }

  lemma SystemPushesOk(sent: map<nat, Origin>, before: seq<Push>, after: seq<Push>)
    requires SystemPushes(before, after)
    requires forall k :: 0 <= k < |before| ==> PushOk(sent, before[k])
    ensures forall k :: 0 <= k < |after| ==> PushOk(sent, after[k])
  {
    hide Type;
    forall k | 0 <= k < |after|
      ensures PushOk(sent, after[k])
    {
      if k < |before| {
        assert after[k] == after[..|before|][k] == before[k];
      }
    }
  }

  lemma RelayedPushesOk(sent: map<nat, Origin>, h: Hub, from: Addr, env: Env, resp: Option<nat>)
    requires Known(sent, env)
    requires forall k :: 0 <= k < |h.pushes| ==> PushOk(sent, h.pushes[k])
    requires forall a :: a in h.clients ==> h.clients[a].conn.addr == a
    ensures var r := Relayed(h, from, env, resp); forall k :: 0 <= k < |r.pushes| ==> PushOk(sent, r.pushes[k])
  {
    hide Record, Logic, Route, Type, DomainConns, LocOut, PushOk, Known;
    var header := env.msg.header;
    RecordFrame(h, from, header);
    var h1 := Record(h, from, header);
    if header.dest == h.self {
      LogicFrame(h1, env);
      SystemPushesOk(sent, h1.pushes, Logic(h1, env).pushes);
    } else {
      RoutePushes(h1, from, env);
      var after := Route(h1, from, env).pushes;
      if Type(header.dest) == ADDR_CLIENT && header.dest !in h1.clients {
        assert h1.pushes + [] == h1.pushes;
      } else if Pushed(h1, header) {
        var to :| after == h1.pushes + [Push(to, env)] && (Type(header.dest) == ADDR_CLIENT ==> to == PushTarget(h1, header));
        assert PushOk(sent, Push(to, env)) by { RoutedPushOk(sent, h1, env, to); }
      }
    }
  }

  lemma RoutedPushOk(sent: map<nat, Origin>, h: Hub, env: Env, to: set<Conn>)
    requires Known(sent, env) && Pushed(h, env.msg.header)
    requires Type(env.msg.header.dest) == ADDR_CLIENT ==> to == PushTarget(h, env.msg.header)
    requires forall a :: a in h.clients ==> h.clients[a].conn.addr == a
    ensures PushOk(sent, Push(to, env))
  {
    hide Type, Known, DomainConns;
    var dest := env.msg.header.dest;
    if Type(dest) == ADDR_CLIENT {
      var c := h.clients[dest].conn;
      assert to == {c} && c.addr == dest;
    }
  }

  lemma HandlePushesOk(sent: map<nat, Origin>, h: Hub, p: Packet, ch: Choice, i: Addr)
    requires BoxOk(sent, i, p)
    requires forall k :: 0 <= k < |h.pushes| ==> PushOk(sent, h.pushes[k])
    requires forall a :: a in h.clients ==> h.clients[a].conn.addr == a
    ensures var r := Handle(h, p, ch); forall k :: 0 <= k < |r.pushes| ==> PushOk(sent, r.pushes[k])
  {
    hide Relayed, Unregister, Register, PushOk, Known;
    match p.content
    case AddClient(peer) =>
      RegisterFrame(h, peer, ch.now);
      SystemPushesOk(sent, h.pushes, Register(h, peer, ch.now).pushes);
    case DelClient(peer) => UnregisterFrame(h, peer, ch);
    case RelayMessage(env) => RelayedPushesOk(sent, h, p.from, env, p.resp);
    case _ =>
  }

  /** A tagged message put on a link is the handled one, and the hub handling it is the one it entered. */
  lemma OutKnown(s: State, i: Addr, p: Packet, ch: Choice, j: Addr, env: Env)
    requires TagInv(s) && i in s.hubs && PacketOk(s.hubs.Keys, i, p) && BoxOk(s.sent, i, p)
    requires env in LinkOut(s.hubs[i], p, ch, j)
    ensures LinkTagOk(s.sent, i, env)
  {
    TagMesh(s);
    MeshParts(s, i);
    hide LinkOut, TagInv, MeshInv, NodeTags, HubOk;
    if p.from in s.hubs { ServerType(s, p.from); }
    var kind := LinkOutShape(s.hubs[i], p, ch, j, env);
  }

  lemma ServerType(s: State, i: Addr)
    requires MeshInv(s) && i in s.hubs
    ensures Type(i) == ADDR_SERVER
  {
  }

  lemma ProcessNode(s: State, i: Addr, ch: Choice)
    requires TagInv(s) && Enabled(s, Process(i, ch))
    ensures var t := ProcessStep(s, i, ch); NodeTags(s.sent, i, t.hubs[i], t.inbox[i])
  {
    hide Handle, LinkOut, QueueOut, Known, PushOk, PacketOk, TagInv, MeshInv, Type;
    TagMesh(s);
    TagNode(s, i);
    HeadOk(s, i);
    var h, p := s.hubs[i], s.inbox[i][0];
    assert BoxOk(s.sent, i, p);
    InMesh(s.hubs.Keys, i, p);
    HandleOut(h, p, ch);
    HandleConns(h, p, ch);
    HandlePushesOk(s.sent, h, p, ch, i);
    ProcessLinkTags(s, i, ch);
    ProcessBoxTags(s, i, ch);
  }

  lemma ProcessLinkTags(s: State, i: Addr, ch: Choice)
    requires TagInv(s) && Enabled(s, Process(i, ch))
    ensures var r := ProcessStep(s, i, ch).hubs[i];
            forall j, k :: j in r.links && 0 <= k < |r.links[j]| ==> LinkTagOk(s.sent, i, r.links[j][k])
  {
    hide Handle, LinkOut, QueueOut, LinkTagOk, PushOk, PacketOk, BoxOk, TagInv, MeshInv, Type;
    TagMesh(s);
    TagNode(s, i);
    HeadOk(s, i);
    var h, p := s.hubs[i], s.inbox[i][0];
    assert BoxOk(s.sent, i, p);
    InMesh(s.hubs.Keys, i, p);
    HandleOut(h, p, ch);
    var r := ProcessStep(s, i, ch).hubs[i];
    forall j, k | j in r.links && 0 <= k < |r.links[j]|
      ensures LinkTagOk(s.sent, i, r.links[j][k])
    {
      var env := r.links[j][k];
      if k >= |h.links[j]| {
        assert env == LinkOut(h, p, ch, j)[k - |h.links[j]|];
        OutKnown(s, i, p, ch, j, env);
      } else {
        assert env == h.links[j][k];
      }
    }
  }

  lemma ProcessBoxTags(s: State, i: Addr, ch: Choice)
    requires TagInv(s) && Enabled(s, Process(i, ch))
    ensures var q := ProcessStep(s, i, ch).inbox[i]; forall k :: 0 <= k < |q| ==> BoxOk(s.sent, i, q[k])
  {
    hide Handle, LinkOut, QueueOut, PacketOk, BoxOk, TagInv, MeshInv, Type, HubOk, NodeTags;
    var h, p, box := s.hubs[i], s.inbox[i][0], s.inbox[i];
    assert forall k :: 0 <= k < |box| ==> BoxOk(s.sent, i, box[k]) by { BoxTags(s, i); }
    TagMesh(s);
    TagNode(s, i);
    HeadOk(s, i);
    InMesh(s.hubs.Keys, i, p);
    OkParts(s.hubs.Keys, i, h);
    NewInbox(s, i, ch);
    forall q | q in QueueOut(h, p, ch)
      ensures BoxOk(s.sent, i, q)
    {
      QueueOutShape(h, p, ch, q);
      UntaggedOk(s.sent, i, q);
    }
  }

  lemma BoxTags(s: State, i: Addr)
    requires TagInv(s) && i in s.hubs && i in s.inbox
    ensures forall k :: 0 <= k < |s.inbox[i]| ==> BoxOk(s.sent, i, s.inbox[i][k])
  {
    hide BoxOk, MeshInv, PushOk, LinkTagOk;
  }

  /** The queue of a hub after one packet: the rest, then what the hub put there itself, on its own account. */
  lemma NewInbox(s: State, i: Addr, ch: Choice)
    requires Enabled(s, Process(i, ch)) && s.hubs[i].queued == []
    requires !s.inbox[i][0].content.AddServer? && !s.inbox[i][0].content.DelServer?
    ensures ProcessStep(s, i, ch).inbox[i] == s.inbox[i][1..] + QueueOut(s.hubs[i], s.inbox[i][0], ch)
  {
    hide Handle, LinkOut, QueueOut, Type;
    var h, p := s.hubs[i], s.inbox[i][0];
    HandleOut(h, p, ch);
    var out := QueueOut(h, p, ch);
    assert h.queued + out == out;
  }

  lemma UntaggedOk(sent: map<nat, Origin>, i: Addr, p: Packet)
    requires exists b: Body :: b.Offline? && p == Packet(i, RelayMessage(System(i, i, b)), None)
    ensures BoxOk(sent, i, p)
  {
  }

  lemma LongerBox(sent: map<nat, Origin>, i: Addr, h: Hub, q: seq<Packet>, p: Packet)
    requires NodeTags(sent, i, h, q) && BoxOk(sent, i, p)
    ensures NodeTags(sent, i, h, q + [p])
  {
    hide BoxOk, Known, PushOk;
  }

  lemma EnqueueKeepsTags(s: State, i: Addr, p: Packet)
    requires TagInv(s) && i in s.hubs && i in s.inbox && PacketOk(s.hubs.Keys, i, p) && BoxOk(s.sent, i, p)
    ensures TagInv(Enqueue(s, i, p))
  {
    hide MeshInv, PacketOk, BoxOk, NodeTags, TagInv;
    TagMesh(s);
    EnqueueKeeps(s, i, p);
    TagNode(s, i);
    LongerBox(s.sent, i, s.hubs[i], s.inbox[i], p);
    UpdateNode(s, Enqueue(s, i, p), i);
  }

  lemma SendKeepsTags(s: State, i: Addr, from: Addr, msg: Message, tag: nat)
    requires TagInv(s) && Enabled(s, Send(i, from, msg, tag))
    ensures TagInv(Next(s, Send(i, from, msg, tag)))
  {
    hide MeshInv, NodeTags, TagInv;
    TagMesh(s);
    var m := Stamped(i, from, msg);
    var origin := Origin(i, m.header.dest);
    var t := s.(sent := s.sent[tag := origin]);
    assert MeshInv(t) by { SentIsIrrelevant(s, t.sent); }
    forall a | a in s.hubs && a in s.inbox
      ensures NodeTags(t.sent, a, s.hubs[a], s.inbox[a])
    {
      TagNode(s, a);
      SentGrows(s.sent, tag, origin, a, s.hubs[a], s.inbox[a]);
    }
    assert TagInv(t) by { TagsFromNodes(t); }
    EnqueueKeepsTags(t, i, Packet(from, RelayMessage(Env(tag, 0, m)), None));
  }

  lemma TagsFromNodes(s: State)
    requires MeshInv(s) && forall i :: i in s.hubs && i in s.inbox ==> NodeTags(s.sent, i, s.hubs[i], s.inbox[i])
    ensures TagInv(s)
  {
  }

  lemma SentIsIrrelevant(s: State, sent: map<nat, Origin>)
    requires MeshInv(s)
    ensures MeshInv(s.(sent := sent))
  {
    hide PacketOk, HubOk, Type;
  }

  lemma ShorterLink(servers: set<Addr>, sent: map<nat, Origin>, i: Addr, h: Hub, q: seq<Packet>, j: Addr, k: nat)
    requires NodeTags(sent, i, h, q) && HubOk(servers, i, h) && j in h.links && k < |h.links[j]|
    ensures NodeTags(sent, i, Without(h, j, k), q) && HubOk(servers, i, Without(h, j, k))
  {
    hide BoxOk, Known, PushOk;
    var h' := Without(h, j, k);
    forall l, n | l in h'.links && 0 <= n < |h'.links[l]|
      ensures h'.links[l][n] in h.links[l]
    {
      if l == j {
        assert h'.links[j][n] == h.links[j][if n < k then n else n + 1];
      } else {
        assert h'.links[l][n] == h.links[l][n];
      }
    }
    assert h'.links.Keys == h.links.Keys;
  }

  lemma DeliverKeepsTags(s: State, i: Addr, j: Addr, k: nat)
    requires TagInv(s) && Enabled(s, Deliver(i, j, k))
    ensures TagInv(DeliverStep(s, i, j, k))
  {
    hide MeshInv, PacketOk, BoxOk, NodeTags, TagInv, HubOk, Without;
    TagMesh(s);
    TagNode(s, i);
    var h' := Without(s.hubs[i], j, k);
    ShorterLink(s.hubs.Keys, s.sent, i, s.hubs[i], s.inbox[i], j, k);
    UpdateKeeps(s, i, h');
    var t := s.(hubs := s.hubs[i := h']);
    UpdateNode(s, t, i);
    ArrivedTags(s, i, j, k);
    EnqueueKeepsTags(t, j, Packet(i, RelayMessage(Arrived(s.hubs[i].links[j][k])), None));
    assert DeliverStep(s, i, j, k) == Enqueue(t, j, Packet(i, RelayMessage(Arrived(s.hubs[i].links[j][k])), None)) by {
      WithoutIs(s, i, j, k);
    }
  }

  lemma WithoutIs(s: State, i: Addr, j: Addr, k: nat)
    requires Enabled(s, Deliver(i, j, k))
    ensures DeliverStep(s, i, j, k)
         == Enqueue(s.(hubs := s.hubs[i := Without(s.hubs[i], j, k)]), j,
                    Packet(i, RelayMessage(Arrived(s.hubs[i].links[j][k])), None))
  {
  }

  lemma ArrivedTags(s: State, i: Addr, j: Addr, k: nat)
    requires TagInv(s) && Enabled(s, Deliver(i, j, k))
    ensures var p := Packet(i, RelayMessage(Arrived(s.hubs[i].links[j][k])), None);
            BoxOk(s.sent, j, p) && PacketOk(s.hubs.Keys, j, p) && j in s.hubs && i != j
  {
    hide TagInv, PacketOk, MeshInv, Type;
    TagMesh(s);
    TagNode(s, i);
    LinkTarget(s, i, j);
    var env := s.hubs[i].links[j][k];
    assert LinkTagOk(s.sent, i, env) && env.hops == 0;
    hide NodeTags, HubOk;
    LinkPacketOk(s.hubs.Keys, i, j, env);
  }

  lemma StepKeepsTags(s: State, e: Event)
    requires TagInv(s)
    ensures TagInv(Next(s, e)) && Next(s, e).hubs.Keys == s.hubs.Keys && s.sent.Keys <= Next(s, e).sent.Keys
    ensures forall t :: t in s.sent ==> Next(s, e).sent[t] == s.sent[t]
  {
    hide TagInv, MeshInv, ProcessStep, DeliverStep, GroupStep, Type, NodeTags;
    TagMesh(s);
    StepKeepsMesh(s, e);
    if Enabled(s, e) {
      match e
      case Connect(i, peer) => EnqueueKeepsTags(s, i, Packet(i, AddClient(peer), None));
      case Disconnect(i, peer) => EnqueueKeepsTags(s, i, Packet(peer.addr, DelClient(peer), None));
      case Send(i, from, msg, tag) => SendKeepsTags(s, i, from, msg, tag);
      case Deliver(i, j, k) =>
        DeliverKeepsTags(s, i, j, k);
        DeliverSent(s, i, j, k);
      case Process(i, ch) =>
        ProcessNode(s, i, ch);
        ProcessSent(s, i, ch);
        UpdateNode(s, ProcessStep(s, i, ch), i);
      case GroupTurn(i, g) => GroupTurnTags(s, i, g);
    }
  }

  lemma DeliverSent(s: State, i: Addr, j: Addr, k: nat)
    requires Enabled(s, Deliver(i, j, k))
    ensures DeliverStep(s, i, j, k).sent == s.sent
  {
  }

  lemma ProcessSent(s: State, i: Addr, ch: Choice)
    requires Enabled(s, Process(i, ch))
    ensures var t := ProcessStep(s, i, ch);
            && t.sent == s.sent && t.hubs == s.hubs[i := t.hubs[i]] && t.inbox == s.inbox[i := t.inbox[i]]
  {
    hide Handle;
  }

  lemma GroupTurnTags(s: State, i: Addr, g: Addr)
    requires TagInv(s) && i in s.hubs
    ensures TagInv(s.(hubs := s.hubs[i := GroupStep(s.hubs[i], g)]))
  {
    hide TagInv, MeshInv, GroupStep, BoxOk, PushOk, Known;
    TagMesh(s);
    TagNode(s, i);
    GroupTurnKeepsMesh(s, i, g);
    GroupStepFrame(s.hubs[i], g);
    UpdateNode(s, s.(hubs := s.hubs[i := GroupStep(s.hubs[i], g)]), i);
  }

  // ------------------------------------------------------ counts are kept

  /** No trace of a tag nobody used yet. */
  lemma UnsentIsAbsent(s: State, i: Addr, j: Addr, t: nat)
    requires TagInv(s) && i in s.hubs && t > 0 && t !in s.sent
    ensures BoxCount(s.inbox[i], t) == 0 && PushCount(s.hubs[i].pushes, t) == 0 && LinkCount(s.hubs[i], j, t) == 0
  {
    hide TagInv, PushCount, BoxCount, CountTag, Type;
    TagNode(s, i);
    BoxCountNone(s.inbox[i], t);
    PushCountNone(s.hubs[i].pushes, t);
    if j in s.hubs[i].links { CountTagNone(s.hubs[i].links[j], t); }
  }

  /** Only the hub a message entered puts it on links. */
  lemma OthersDoNotCarry(s: State, i: Addr, j: Addr, t: nat)
    requires TagInv(s) && i in s.hubs && t > 0 && t in s.sent && s.sent[t].hub != i
    ensures LinkCount(s.hubs[i], j, t) == 0
  {
    hide TagInv, CountTag, Type;
    TagNode(s, i);
    if j in s.hubs[i].links { CountTagNone(s.hubs[i].links[j], t); }
  }

  /** The packet with the tag that hub i is about to handle: what it is and where it came from. */
  lemma CarriedPacket(s: State, i: Addr, t: nat)
    requires TagInv(s) && i in s.hubs && i in s.inbox && s.inbox[i] != [] && t > 0 && Carries(s.inbox[i][0], t)
    ensures var p := s.inbox[i][0];
            && t in s.sent
            && p.content.env.msg.header.dest == s.sent[t].dest
            && (s.sent[t].hub == i ==> Type(p.from) == ADDR_CLIENT)
            && (s.sent[t].hub != i ==> Type(p.from) == ADDR_SERVER)
            && s.hubs[i].self == i && Type(i) == ADDR_SERVER
  {
    TagMesh(s);
    TagNode(s, i);
    HeadOk(s, i);
    var p := s.inbox[i][0];
    hide TagInv, MeshInv, PushOk;
    assert BoxOk(s.sent, i, p);
    if p.from in s.hubs { ServerType(s, p.from); }
  }

  /** From s to n, hub i has handled its next packet: what that does to every count of message t. */
  ghost predicate Handled(s: State, n: State, i: Addr, t: nat) {
    && s.hubs.Keys == s.inbox.Keys && n.hubs.Keys == n.inbox.Keys == s.hubs.Keys && i in s.hubs && s.inbox[i] != []
    && n.sent == s.sent
    && (forall k :: k in s.hubs && k != i ==> n.hubs[k] == s.hubs[k] && n.inbox[k] == s.inbox[k])
    && BoxCount(n.inbox[i], t) + (if Carries(s.inbox[i][0], t) then 1 else 0) == BoxCount(s.inbox[i], t)
    && PushCount(n.hubs[i].pushes, t) == PushCount(s.hubs[i].pushes, t) + (if Lands(s, i, t) then 1 else 0)
    && forall k :: k in s.hubs && k != i ==>
         LinkCount(n.hubs[i], k, t) == LinkCount(s.hubs[i], k, t) + (if GoesOn(s, i, k, t) then 1 else 0)
  }

  /** The packet hub i handles next carries message t, and t is pushed here. */
  ghost predicate Lands(s: State, i: Addr, t: nat) {
    && i in s.hubs && i in s.inbox && s.inbox[i] != [] && Carries(s.inbox[i][0], t)
    && Pushed(s.hubs[i], s.inbox[i][0].content.env.msg.header)
  }

  /** It carries message t, and t is forwarded to server k. */
  ghost predicate GoesOn(s: State, i: Addr, k: Addr, t: nat) {
    && i in s.hubs && i in s.inbox && s.inbox[i] != [] && Carries(s.inbox[i][0], t)
    && Forwards(s.hubs[i], s.inbox[i][0].from, s.inbox[i][0].content.env.msg.header, k)
  }

  lemma ProcessHandled(s: State, i: Addr, ch: Choice, t: nat)
    requires TagInv(s) && Enabled(s, Process(i, ch)) && t > 0
    ensures Handled(s, ProcessStep(s, i, ch), i, t)
  {
    hide TagInv, MeshInv, ProcessStep, BoxCount, PushCount, Type, CountTag, NodeTags, Pushed, Forwards;
    TagMesh(s);
    ProcessCounts(s, i, ch, t);
    ProcessSent(s, i, ch);
    TagNode(s, i);
  }

  /** Only the hub a message entered forwards it, and not if it is for a client registered there. */
  lemma ForwardingHub(s: State, i: Addr, t: nat)
    requires TagInv(s) && t > 0
    ensures forall k :: GoesOn(s, i, k, t) ==> t in s.sent && s.sent[t].hub == i
    ensures forall k :: GoesOn(s, i, k, t) && Lands(s, i, t) ==> t in s.sent && Type(s.sent[t].dest) != ADDR_CLIENT
    ensures Lands(s, i, t) ==> t in s.sent
  {
    hide TagInv, Type;
    if i in s.hubs && i in s.inbox && s.inbox[i] != [] && Carries(s.inbox[i][0], t) {
      CarriedPacket(s, i, t);
    }
  }

  lemma ProcessKeepsCount(s: State, i: Addr, ch: Choice, t: nat)
    requires TagInv(s) && s.hubs.Keys == s.inbox.Keys && Enabled(s, Process(i, ch)) && t > 0 && t in s.sent && AtMostOnce(s, t)
    ensures var n := ProcessStep(s, i, ch);
            n.sent == s.sent && n.hubs.Keys == n.inbox.Keys == s.hubs.Keys && AtMostOnce(n, t)
  {
    hide TagInv, Enabled, ProcessStep, BoxCount, PushCount, LinkCount, Type, Carries, Lands, GoesOn;
    ProcessHandled(s, i, ch, t);
    ForwardingHub(s, i, t);
    LandsCarries(s, i, t);
  }

  /** What lands or goes on is what the packet carries. */
  lemma LandsCarries(s: State, i: Addr, t: nat)
    requires i in s.inbox && s.inbox[i] != []
    ensures Lands(s, i, t) ==> Carries(s.inbox[i][0], t)
    ensures forall k :: GoesOn(s, i, k, t) ==> Carries(s.inbox[i][0], t)
  {
    hide Pushed, Forwards;
  }

  lemma DeliverCounts(s: State, i: Addr, j: Addr, k: nat, t: nat)
    requires MeshInv(s) && Enabled(s, Deliver(i, j, k))
    ensures var n := DeliverStep(s, i, j, k);
            var hit := if s.hubs[i].links[j][k].tag == t then 1 else 0;
            && i != j && j in s.hubs && n.sent == s.sent
            && n.hubs.Keys == s.hubs.Keys && n.inbox.Keys == s.inbox.Keys
            && LinkCount(n.hubs[i], j, t) + hit == LinkCount(s.hubs[i], j, t)
            && BoxCount(n.inbox[j], t) == BoxCount(s.inbox[j], t) + hit
            && (forall a :: a in s.hubs ==> n.hubs[a].pushes == s.hubs[a].pushes
                                            && n.hubs[a].clients == s.hubs[a].clients
                                            && n.hubs[a].location == s.hubs[a].location)
            && (forall a, b :: a in s.hubs && (a != i || b != j) ==> LinkCount(n.hubs[a], b, t) == LinkCount(s.hubs[a], b, t))
            && (forall a :: a in s.inbox && a != j ==> n.inbox[a] == s.inbox[a])
  {
    hide CountTag, BoxCount, MeshInv, Type, HubOk;
    MeshParts(s, i);
    assert HubOk(s.hubs.Keys, i, s.hubs[i]);
    LinkTarget(s, i, j);
    var q := s.hubs[i].links[j];
    CountTagOut(q, k, t);
    var p := Packet(i, RelayMessage(Arrived(q[k])), None);
    BoxCountAppend(s.inbox[j], [p], t);
    BoxCountOne(p, t);
  }

  lemma BoxCountOne(p: Packet, t: nat)
    ensures BoxCount([p], t) == if Carries(p, t) then 1 else 0
  {
    var q := [p];
    assert q[1..] == [];
  }

  lemma DeliverKeepsCount(s: State, i: Addr, j: Addr, k: nat, t: nat)
    requires TagInv(s) && s.hubs.Keys == s.inbox.Keys && Enabled(s, Deliver(i, j, k)) && t > 0 && t in s.sent && AtMostOnce(s, t)
    ensures var n := DeliverStep(s, i, j, k);
            n.sent == s.sent && n.hubs.Keys == n.inbox.Keys == s.hubs.Keys && AtMostOnce(n, t)
  {
    hide TagInv, MeshInv, DeliverStep, BoxCount, PushCount, Type, CountTag, Carries, LinkCount;
    TagMesh(s);
    DeliverCounts(s, i, j, k, t);
    if s.sent[t].hub != i {
      OthersDoNotCarry(s, i, j, t);
    }
  }

  lemma EnqueueKeepsCount(s: State, n: State, i: Addr, p: Packet, t: nat)
    requires s.hubs.Keys == s.inbox.Keys && i in s.inbox && t in s.sent && t in n.sent && n.sent[t] == s.sent[t]
    requires n.hubs == s.hubs && n.inbox == s.inbox[i := s.inbox[i] + [p]] && !Carries(p, t)
    requires AtMostOnce(s, t)
    ensures n.hubs.Keys == n.inbox.Keys && AtMostOnce(n, t)
  {
    hide BoxCount, PushCount, Type, LinkCount;
    BoxCountAppend(s.inbox[i], [p], t);
    BoxCountOne(p, t);
  }

  lemma FreshTagCounts(s: State, i: Addr, from: Addr, msg: Message, t: nat)
    requires TagInv(s) && s.hubs.Keys == s.inbox.Keys && Enabled(s, Send(i, from, msg, t))
    ensures var n := Next(s, Send(i, from, msg, t));
            && n.hubs == s.hubs && n.hubs.Keys == n.inbox.Keys
            && t in n.sent && n.sent[t] == Origin(i, Stamped(i, from, msg).header.dest)
            && AtOrigin(n, i, t) == 1 && BoxCount(n.inbox[i], t) == 1
            && forall k :: k in n.hubs && k != i ==> Towards(n, i, k, t) == 0
  {
    hide TagInv, BoxCount, PushCount, Type, LinkCount;
    var p := Packet(from, RelayMessage(Env(t, 0, Stamped(i, from, msg))), None);
    UnsentIsAbsent(s, i, i, t);
    BoxCountAppend(s.inbox[i], [p], t);
    BoxCountOne(p, t);
    var n := Next(s, Send(i, from, msg, t));
    forall k | k in n.hubs && k != i
      ensures Towards(n, i, k, t) == 0
    {
      UnsentIsAbsent(s, i, k, t);
      UnsentIsAbsent(s, k, i, t);
    }
  }

  lemma GroupTurnKeepsCount(s: State, i: Addr, g: Addr, t: nat)
    requires s.hubs.Keys == s.inbox.Keys && i in s.hubs && t in s.sent && AtMostOnce(s, t)
    ensures var n := s.(hubs := s.hubs[i := GroupStep(s.hubs[i], g)]); n.hubs.Keys == n.inbox.Keys && AtMostOnce(n, t)
  {
    hide BoxCount, PushCount, Type, CountTag, GroupStep;
    GroupStepFrame(s.hubs[i], g);
  }

  lemma StepKeepsCount(s: State, e: Event, t: nat)
    requires TagInv(s) && s.hubs.Keys == s.inbox.Keys && t > 0
    requires t in s.sent ==> AtMostOnce(s, t)
    ensures var n := Next(s, e); n.hubs.Keys == n.inbox.Keys && (t in n.sent ==> AtMostOnce(n, t))
  {
    hide TagInv, MeshInv, ProcessStep, DeliverStep, AtMostOnce, Type, GroupStep, Carries;
    StepKeepsTags(s, e);
    TagMesh(Next(s, e));
    if Enabled(s, e) {
      match e
      case Connect(i, peer) =>
        if t in s.sent { NoCarry(i, AddClient(peer), t); EnqueueKeepsCount(s, Next(s, e), i, Packet(i, AddClient(peer), None), t); }
      case Disconnect(i, peer) =>
        if t in s.sent { NoCarry(peer.addr, DelClient(peer), t); EnqueueKeepsCount(s, Next(s, e), i, Packet(peer.addr, DelClient(peer), None), t); }
      case Send(i, from, msg, tag) => SendKeepsCount(s, i, from, msg, tag, t);
      case Deliver(i, j, k) => DeliverSent(s, i, j, k); if t in s.sent { DeliverKeepsCount(s, i, j, k, t); }
      case Process(i, ch) => ProcessSent(s, i, ch); if t in s.sent { ProcessKeepsCount(s, i, ch, t); }
      case GroupTurn(i, g) => if t in s.sent { GroupTurnKeepsCount(s, i, g, t); }
    }
  }

  lemma NoCarry(from: Addr, c: Content, t: nat)
    requires !c.RelayMessage?
    ensures !Carries(Packet(from, c, None), t)
  {
  }

  lemma SendKeepsCount(s: State, i: Addr, from: Addr, msg: Message, tag: nat, t: nat)
    requires TagInv(s) && s.hubs.Keys == s.inbox.Keys && t > 0 && Enabled(s, Send(i, from, msg, tag))
    requires t in s.sent ==> AtMostOnce(s, t)
    ensures var n := Next(s, Send(i, from, msg, tag)); n.hubs.Keys == n.inbox.Keys && (t in n.sent ==> AtMostOnce(n, t))
  {
    hide TagInv, Type, BoxCount, PushCount, LinkCount;
    if t == tag {
      FreshTagCounts(s, i, from, msg, t);
    } else if t in s.sent {
      var p := Packet(from, RelayMessage(Env(tag, 0, Stamped(i, from, msg))), None);
      EnqueueKeepsCount(s, Next(s, Send(i, from, msg, tag)), i, p, t);
    }
  }

  lemma {:induction false} RunKeepsCount(s: State, evs: seq<Event>, t: nat)
    requires TagInv(s) && s.hubs.Keys == s.inbox.Keys && t > 0
    requires t in s.sent ==> AtMostOnce(s, t)
    ensures var n := Run(s, evs);
            TagInv(n) && n.hubs.Keys == n.inbox.Keys && (t in n.sent ==> AtMostOnce(n, t))
    decreases |evs|
  {
    hide TagInv, Next, AtMostOnce;
    if evs != [] {
      StepKeepsTags(s, evs[0]);
      StepKeepsCount(s, evs[0], t);
      RunKeepsCount(Next(s, evs[0]), evs[1..], t);
    }
  }

  lemma StartTags(servers: set<Addr>)
    requires forall i :: i in servers ==> Type(i) == ADDR_SERVER
    ensures TagInv(Start(servers))
  {
    StartMesh(servers);
    hide MeshInv, Type;
  }

  // ------------------------------------------------------------ main results

  /**
   * Over every run, each hub makes at most one round of pushes for a client's message, whatever it is addressed to; one
   * for a client goes to a single connection, with that client's address.
   */
  lemma DeliveredAtMostOnce(servers: set<Addr>, evs: seq<Event>, t: nat, k: Addr)
    requires forall i :: i in servers ==> Type(i) == ADDR_SERVER
    requires var s := Run(Start(servers), evs); t > 0 && t in s.sent && k in s.hubs
    ensures var s := Run(Start(servers), evs);
            && PushCount(s.hubs[k].pushes, t) <= 1
            && (Type(s.sent[t].dest) == ADDR_CLIENT ==>
                  forall p :: p in s.hubs[k].pushes && p.env.tag == t ==> OneConn(p.to, s.sent[t].dest))
  {
    hide TagInv, Next, PushCount, BoxCount, LinkCount, Type;
    StartTags(servers);
    RunKeepsCount(Start(servers), evs, t);
    var s := Run(Start(servers), evs);
    TagNode(s, k);
    hide NodeTags;
    if Type(s.sent[t].dest) == ADDR_CLIENT {
      forall p | p in s.hubs[k].pushes && p.env.tag == t
        ensures OneConn(p.to, s.sent[t].dest)
      {
        PushedTo(s, k, p, t);
      }
    }
  }

  lemma PushedTo(s: State, k: Addr, p: Push, t: nat)
    requires k in s.hubs && k in s.inbox && NodeTags(s.sent, k, s.hubs[k], s.inbox[k])
    requires p in s.hubs[k].pushes && p.env.tag == t > 0 && t in s.sent && Type(s.sent[t].dest) == ADDR_CLIENT
    ensures OneConn(p.to, s.sent[t].dest)
  {
    var n :| 0 <= n < |s.hubs[k].pushes| && s.hubs[k].pushes[n] == p;
    assert PushOk(s.sent, p);
  }

  /** At this moment d is registered at hub j and nowhere else, and what hub o believes about it is not wrong. */
  ghost predicate Settled(s: State, d: Addr, j: Addr, o: Addr) {
    && j in s.hubs && o in s.hubs
    && d in s.hubs[j].clients
    && (forall k :: k in s.hubs && k != j ==> d !in s.hubs[k].clients)
    && (d in s.hubs[o].location ==> s.hubs[o].location[d] == j)
  }

  ghost predicate StaysSettled(s: State, evs: seq<Event>, d: Addr, j: Addr, o: Addr)
    decreases |evs|
  {
    Settled(s, d, j, o) && (evs == [] || StaysSettled(Next(s, evs[0]), evs[1..], d, j, o))
  }

  /** Exactly one chance at the hub where the destination is, and no push anywhere else. */
  ghost predicate OneChance(s: State, t: nat, j: Addr, o: Addr)
    requires s.hubs.Keys == s.inbox.Keys && j in s.hubs && o in s.hubs
  {
    && (if j == o then AtOrigin(s, o, t) else BoxCount(s.inbox[o], t) + Towards(s, o, j, t)) == 1
    && forall k :: k in s.hubs && k != j ==> PushCount(s.hubs[k].pushes, t) == 0
  }

  /** Where message t for client d goes, d being registered at hub j only: it lands at j, and hub o puts it on the link to j. */
  lemma SettledRoute(s: State, i: Addr, t: nat, d: Addr, j: Addr, o: Addr)
    requires TagInv(s) && i in s.hubs && i in s.inbox && s.inbox[i] != [] && t > 0
    requires t in s.sent && s.sent[t] == Origin(o, d) && Type(d) == ADDR_CLIENT && Settled(s, d, j, o)
    ensures Lands(s, i, t) <==> i == j && Carries(s.inbox[i][0], t)
    ensures i == o && o != j ==> (GoesOn(s, i, j, t) <==> Carries(s.inbox[i][0], t))
    ensures i != o ==> forall k :: !GoesOn(s, i, k, t)
  {
    hide TagInv, Type;
    if Carries(s.inbox[i][0], t) { CarriedPacket(s, i, t); }
  }

  lemma ProcessKeepsChance(s: State, i: Addr, ch: Choice, t: nat, d: Addr, j: Addr, o: Addr)
    requires TagInv(s) && s.hubs.Keys == s.inbox.Keys && Enabled(s, Process(i, ch)) && t > 0
    requires t in s.sent && s.sent[t] == Origin(o, d) && Type(d) == ADDR_CLIENT
    requires Settled(s, d, j, o) && OneChance(s, t, j, o)
    ensures var n := ProcessStep(s, i, ch); n.hubs.Keys == n.inbox.Keys == s.hubs.Keys && OneChance(n, t, j, o)
  {
    hide TagInv, Enabled, ProcessStep, BoxCount, PushCount, LinkCount, Type, Carries, Lands, GoesOn, Settled;
    ProcessHandled(s, i, ch, t);
    SettledRoute(s, i, t, d, j, o);
    SettledHubs(s, d, j, o);
  }

  lemma DeliverKeepsChance(s: State, i: Addr, b: Addr, k: nat, t: nat, d: Addr, j: Addr, o: Addr)
    requires TagInv(s) && s.hubs.Keys == s.inbox.Keys && Enabled(s, Deliver(i, b, k)) && t > 0
    requires t in s.sent && s.sent[t] == Origin(o, d)
    requires j in s.hubs && o in s.hubs && OneChance(s, t, j, o)
    ensures var n := DeliverStep(s, i, b, k); n.hubs.Keys == n.inbox.Keys == s.hubs.Keys && OneChance(n, t, j, o)
  {
    hide TagInv, MeshInv, DeliverStep, BoxCount, PushCount, Type, CountTag, Carries, LinkCount;
    TagMesh(s);
    DeliverCounts(s, i, b, k, t);
    if i != o {
      OthersDoNotCarry(s, i, b, t);
    }
  }

  lemma EnqueueKeepsChance(s: State, n: State, i: Addr, p: Packet, t: nat, j: Addr, o: Addr)
    requires s.hubs.Keys == s.inbox.Keys && i in s.inbox && j in s.hubs && o in s.hubs
    requires n.hubs == s.hubs && n.inbox == s.inbox[i := s.inbox[i] + [p]] && !Carries(p, t)
    requires OneChance(s, t, j, o)
    ensures n.hubs.Keys == n.inbox.Keys && OneChance(n, t, j, o)
  {
    hide BoxCount, PushCount, LinkCount;
    BoxCountAppend(s.inbox[i], [p], t);
    BoxCountOne(p, t);
  }

  lemma GroupTurnKeepsChance(s: State, i: Addr, g: Addr, t: nat, j: Addr, o: Addr)
    requires s.hubs.Keys == s.inbox.Keys && i in s.hubs && j in s.hubs && o in s.hubs && OneChance(s, t, j, o)
    ensures var n := s.(hubs := s.hubs[i := GroupStep(s.hubs[i], g)]); n.hubs.Keys == n.inbox.Keys && OneChance(n, t, j, o)
  {
    hide BoxCount, PushCount, CountTag, GroupStep;
    GroupStepFrame(s.hubs[i], g);
  }

  lemma StepKeepsChance(s: State, e: Event, t: nat, d: Addr, j: Addr, o: Addr)
    requires TagInv(s) && s.hubs.Keys == s.inbox.Keys && t > 0
    requires t in s.sent && s.sent[t] == Origin(o, d) && Type(d) == ADDR_CLIENT
    requires Settled(s, d, j, o) && OneChance(s, t, j, o)
    ensures var n := Next(s, e);
            && n.hubs.Keys == n.inbox.Keys && j in n.hubs && o in n.hubs
            && t in n.sent && n.sent[t] == s.sent[t] && OneChance(n, t, j, o)
  {
    hide TagInv, MeshInv, ProcessStep, DeliverStep, OneChance, Type, GroupStep, Carries;
    StepKeepsTags(s, e);
    TagMesh(Next(s, e));
    if Enabled(s, e) {
      match e
      case Connect(i, peer) =>
        NoCarry(i, AddClient(peer), t);
        EnqueueKeepsChance(s, Next(s, e), i, Packet(i, AddClient(peer), None), t, j, o);
      case Disconnect(i, peer) =>
        NoCarry(peer.addr, DelClient(peer), t);
        EnqueueKeepsChance(s, Next(s, e), i, Packet(peer.addr, DelClient(peer), None), t, j, o);
      case Send(i, from, msg, tag) =>
        var p := Packet(from, RelayMessage(Env(tag, 0, Stamped(i, from, msg))), None);
        OtherTag(p, t);
        EnqueueKeepsChance(s, Next(s, e), i, p, t, j, o);
      case Deliver(i, b, k) => DeliverKeepsChance(s, i, b, k, t, d, j, o);
      case Process(i, ch) => ProcessKeepsChance(s, i, ch, t, d, j, o);
      case GroupTurn(i, g) => GroupTurnKeepsChance(s, i, g, t, j, o);
    }
  }

  lemma OtherTag(p: Packet, t: nat)
    requires p.content.RelayMessage? && p.content.env.tag != t
    ensures !Carries(p, t)
  {
  }

  lemma {:induction false} RunKeepsChance(s: State, evs: seq<Event>, t: nat, d: Addr, j: Addr, o: Addr)
    requires TagInv(s) && s.hubs.Keys == s.inbox.Keys && t > 0
    requires t in s.sent && s.sent[t] == Origin(o, d) && Type(d) == ADDR_CLIENT
    requires StaysSettled(s, evs, d, j, o) && OneChance(s, t, j, o)
    ensures var n := Run(s, evs); TagInv(n) && n.hubs.Keys == n.inbox.Keys && j in n.hubs && o in n.hubs && OneChance(n, t, j, o)
    decreases |evs|
  {
    hide TagInv, Next, OneChance, Settled;
    assert j in s.hubs && o in s.hubs by { SettledHubs(s, d, j, o); }
    if evs != [] {
      StepKeepsTags(s, evs[0]);
      StepKeepsChance(s, evs[0], t, d, j, o);
      RunKeepsChance(Next(s, evs[0]), evs[1..], t, d, j, o);
    }
  }

  lemma SettledHubs(s: State, d: Addr, j: Addr, o: Addr)
    requires Settled(s, d, j, o)
    ensures j in s.hubs && o in s.hubs
  {
  }

  /**
   * A client sends to client d at hub o. If, from then on, d stays registered at exactly one hub j and hub o's location
   * entry for d is absent or j, then however the run interleaves, by the time everything in flight is used up d has been
   * pushed the message exactly once, at j, whether it went directly or by broadcast, and no other hub pushed it.
   */
  lemma DeliveredExactlyOnce(servers: set<Addr>, before: seq<Event>, o: Addr, from: Addr, msg: Message, t: nat,
                             after: seq<Event>, d: Addr, j: Addr)
    requires forall i :: i in servers ==> Type(i) == ADDR_SERVER
    requires var s := Run(Start(servers), before);
             && Enabled(s, Send(o, from, msg, t)) && d == Stamped(o, from, msg).header.dest && Type(d) == ADDR_CLIENT
             && StaysSettled(Next(s, Send(o, from, msg, t)), after, d, j, o)
    requires var n := Run(Next(Run(Start(servers), before), Send(o, from, msg, t)), after);
             && (o in n.inbox ==> n.inbox[o] == []) && (j in n.inbox ==> n.inbox[j] == [])
             && (o in n.hubs && j in n.hubs[o].links ==> n.hubs[o].links[j] == [])
    ensures var n := Run(Next(Run(Start(servers), before), Send(o, from, msg, t)), after);
            && j in n.hubs && PushCount(n.hubs[j].pushes, t) == 1
            && forall k :: k in n.hubs && k != j ==> PushCount(n.hubs[k].pushes, t) == 0
  {
    hide TagInv, Next, PushCount, Type, Stamped, Enabled;
    StartTags(servers);
    RunKeepsTags(Start(servers), before);
    DeliveredFrom(Run(Start(servers), before), o, from, msg, t, after, d, j);
  }

  lemma DeliveredFrom(s: State, o: Addr, from: Addr, msg: Message, t: nat, after: seq<Event>, d: Addr, j: Addr)
    requires TagInv(s) && Enabled(s, Send(o, from, msg, t)) && d == Stamped(o, from, msg).header.dest && Type(d) == ADDR_CLIENT
    requires StaysSettled(Next(s, Send(o, from, msg, t)), after, d, j, o)
    requires var n := Run(Next(s, Send(o, from, msg, t)), after);
             && (o in n.inbox ==> n.inbox[o] == []) && (j in n.inbox ==> n.inbox[j] == [])
             && (o in n.hubs && j in n.hubs[o].links ==> n.hubs[o].links[j] == [])
    ensures var n := Run(Next(s, Send(o, from, msg, t)), after);
            && j in n.hubs && PushCount(n.hubs[j].pushes, t) == 1
            && forall k :: k in n.hubs && k != j ==> PushCount(n.hubs[k].pushes, t) == 0
  {
    hide TagInv, PushCount, Next, Type, Stamped, Settled, AtOrigin, Towards, OneChance;
    TagMesh(s);
    var e := Send(o, from, msg, t);
    StepKeepsTags(s, e);
    FreshTagCounts(s, o, from, msg, t);
    var s1 := Next(s, e);
    SettledHubs(s1, d, j, o);
    FreshChance(s1, t, j, o);
    RunKeepsChance(s1, after, t, d, j, o);
    AllUsedUp(Run(s1, after), t, j, o);
  }

  lemma AllUsedUp(n: State, t: nat, j: Addr, o: Addr)
    requires n.hubs.Keys == n.inbox.Keys && j in n.hubs && o in n.hubs && OneChance(n, t, j, o)
    requires n.inbox[o] == [] && n.inbox[j] == [] && (j in n.hubs[o].links ==> n.hubs[o].links[j] == [])
    ensures PushCount(n.hubs[j].pushes, t) == 1
    ensures forall k :: k in n.hubs && k != j ==> PushCount(n.hubs[k].pushes, t) == 0
  {
    hide PushCount;
  }

  lemma FreshChance(s: State, t: nat, j: Addr, o: Addr)
    requires s.hubs.Keys == s.inbox.Keys && j in s.hubs && o in s.hubs
    requires AtOrigin(s, o, t) == 1 && BoxCount(s.inbox[o], t) == 1
    requires forall k :: k in s.hubs && k != o ==> Towards(s, o, k, t) == 0
    ensures OneChance(s, t, j, o)
  {
    hide BoxCount, PushCount, LinkCount;
    forall k | k in s.hubs && k != j
      ensures PushCount(s.hubs[k].pushes, t) == 0
    {
      if k != o { assert Towards(s, o, k, t) == 0; }
    }
  }

  lemma {:induction false} RunKeepsTags(s: State, evs: seq<Event>)
    requires TagInv(s)
    ensures TagInv(Run(s, evs))
    decreases |evs|
  {
    hide TagInv, Next;
    if evs != [] {
      StepKeepsTags(s, evs[0]);
      RunKeepsTags(Next(s, evs[0]), evs[1..]);
    }
  }

  // --------------------------------------------------------- learning routes

  /**
   * Client a at hub x writes to client b at hub y, neither hub knowing where the other's client is. Hub y answers with one
   * Loc message; once hub x has handled it, a message from x's clients to b is put on the link to y and on no other.
   */
  lemma ReplyMakesRouteDirect(x: Hub, y: Hub, env: Env, next: Header, j: Addr)
    requires var a, b := env.msg.header.source, env.msg.header.dest;
             && Type(a) == ADDR_CLIENT && Type(b) == ADDR_CLIENT && Type(x.self) == ADDR_SERVER && Type(y.self) == ADDR_SERVER
             && b in y.clients && a !in y.location && x.self in y.links
             && b !in x.clients && next.dest == b && Type(next.source) == ADDR_CLIENT
    ensures var a, b := env.msg.header.source, env.msg.header.dest;
            var loc := System(y.self, x.self, Loc(a, b, y.self));
            var y1 := Relayed(y, x.self, env, None);
            var x1 := Relayed(x, y.self, Arrived(loc), None);
            && x.self in y1.links && y1.links[x.self] == y.links[x.self] + [loc]
            && y1.location == y.location[a := x.self]
            && x1.location == x.location[b := y.self]
            && (Forwards(x1, next.source, next, j) <==> j == y.self)
  {
    var a, b := env.msg.header.source, env.msg.header.dest;
    var loc := System(y.self, x.self, Loc(a, b, y.self));
    AnswersWithLoc(y, x.self, env);
    RelayedLocations(y, x.self, env);
    RelayedLocations(x, y.self, Arrived(loc));
    RelayedClients(x, y.self, Arrived(loc), None);
    RelayedKeys(x, y.self, Arrived(loc), None);
    hide Relayed, Type, LocOut;
  }

  /** A hub that has the destination answers the first message from a client elsewhere with one Loc message to that server. */
  lemma AnswersWithLoc(y: Hub, from: Addr, env: Env)
    requires Learns(y, from, env.msg.header) && env.msg.header.dest in y.clients && from in y.links
    requires Type(env.msg.header.dest) == ADDR_CLIENT
    ensures var y1 := Relayed(y, from, env, None);
            from in y1.links && y1.links[from] == y.links[from] + [System(y.self, from, Loc(env.msg.header.source, env.msg.header.dest, y.self))]
  {
    hide Relayed, Type;
    RelayedLink(y, from, env, None, from);
    var loc := System(y.self, from, Loc(env.msg.header.source, env.msg.header.dest, y.self));
    assert [loc] + [] == [loc];
  }

  /** The location table after a relayed message, in closed form. */
  lemma RelayedLocations(h: Hub, from: Addr, env: Env)
    requires !env.msg.body.Offline? || env.msg.header.dest != h.self
    ensures var learnt := if Learns(h, from, env.msg.header) then h.location[env.msg.header.source := from] else h.location;
            Relayed(h, from, env, None).location
            == if env.msg.header.dest == h.self && env.msg.body.Loc?
               then learnt[env.msg.body.peer := env.msg.body.inServer] else learnt
  {
    hide Record, Route, Type, Learns, Logic;
    RecordFrame(h, from, env.msg.header);
    var h1 := Record(h, from, env.msg.header);
    RouteKeys(h1, from, env);
    if !env.msg.body.Offline? { CommandLocations(h1, env); }
  }

  lemma CommandLocations(h: Hub, env: Env)
    requires !env.msg.body.Offline?
    ensures Logic(h, env).location
         == if env.msg.body.Loc? then h.location[env.msg.body.peer := env.msg.body.inServer] else h.location
  {
    hide InOutGroups, WithSession;
    match env.msg.body
    case GroupInOut(inOut, gs) =>
      if env.msg.header.source in h.clients { InOutGroupsFrame(h, env.msg.header.source, inOut, gs); }
    case Loc(target, peer, inServer) =>
      WithSessionFrame(h.(location := h.location[peer := inServer]), target, peer, inServer);
    case _ =>
  }

  // ---------------------------------------------------------- second logins

  /** A push to the connection registered under a, if there is one. */
  ghost function ToRegistered(h: Hub, a: Addr, env: Env): seq<Push> {
    if a in h.clients then [Push({h.clients[a].conn}, env)] else []
  }

  /**
   * A client that registers is announced by one Kill message: it is pushed to the connection registered before under
   * the same address, here and, put once on every link, at any hub k it arrives at. Here the new connection takes the old
   * one's place in the table; hub k keeps the old one.
   */
  lemma SecondLoginIsTold(h: Hub, peer: Conn, now: uint64, k: Hub, from: Addr)
    requires Type(peer.addr) == ADDR_CLIENT && Type(from) == ADDR_SERVER && Type(k.self) == ADDR_SERVER
    ensures var kill := System(peer.addr, peer.addr, Kill(now));
            var here := Register(h, peer, now);
            var there := Relayed(k, from, Arrived(kill), None);
            && here.pushes == h.pushes + ToRegistered(h, peer.addr, kill)
            && here.clients == h.clients[peer.addr := Client(peer, map[], {})]
            && (forall j :: j in h.links ==> here.links[j] == h.links[j] + [kill])
            && there.pushes == k.pushes + ToRegistered(k, peer.addr, Arrived(kill))
            && SameConns(k.clients, there.clients)
  {
    var kill := System(peer.addr, peer.addr, Kill(now));
    RegisterFrame(h, peer, now);
    assert h.pushes + [] == h.pushes;
    hide Type, Record, Route, Register, DomainConns;
    RelayedClients(k, from, Arrived(kill), None);
    RecordFrame(k, from, kill.msg.header);
    RoutePushes(Record(k, from, kill.msg.header), from, Arrived(kill));
  }
}
