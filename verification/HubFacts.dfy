/** Closed forms of what one handled packet does to each part of a hub. */
module HubFacts {
  import opened Bytes
  import opened Addresses
  import opened Wire
  import opened HubModel

  // ------------------------------------------------------------ frame lemmas

  /** The same connections are registered; sessions and groups may differ. */
  ghost predicate SameConns(m: map<Addr, Client>, n: map<Addr, Client>) {
    m.Keys == n.Keys && forall a :: a in m ==> m[a].conn == n[a].conn
  }

  /** Only sessions may differ. */
  ghost predicate SamePeers(m: map<Addr, Client>, n: map<Addr, Client>) {
    m.Keys == n.Keys && forall a :: a in m ==> m[a].conn == n[a].conn && m[a].groups == n[a].groups
  }

  lemma WithSessionFrame(h: Hub, at: Addr, peer: Addr, server: Addr)
    ensures var r := WithSession(h, at, peer, server); r == h.(clients := r.clients) && SamePeers(h.clients, r.clients)
  {
  }

  lemma RecordSessionFrame(h: Hub, from: Addr, header: Header)
    ensures var r := RecordSession(h, from, header); r == h.(clients := r.clients) && SamePeers(h.clients, r.clients)
  {
    hide WithSession, Type;
    WithSessionFrame(h, header.source, header.dest, h.self);
    var h1 := if Type(header.source) == ADDR_CLIENT then WithSession(h, header.source, header.dest, h.self) else h;
    WithSessionFrame(h1, header.dest, header.source, if Type(from) == ADDR_CLIENT then h.self else from);
  }

  lemma JoinGroupFrame(h: Hub, source: Addr, g: Addr)
    requires source in h.clients
    ensures var r := JoinGroup(h, source, g);
            r == h.(clients := r.clients, groups := r.groups) && SameConns(h.clients, r.clients)
  {
  }

  lemma LeaveGroupFrame(h: Hub, source: Addr, g: Addr)
    requires source in h.clients
    ensures var r := LeaveGroup(h, source, g);
            r == h.(clients := r.clients, groups := r.groups) && SameConns(h.clients, r.clients)
  {
  }

  lemma InOutGroupFrame(h: Hub, source: Addr, inOut: byte, g: Addr)
    requires source in h.clients
    ensures var r := InOutGroup(h, source, inOut, g);
            r == h.(clients := r.clients, groups := r.groups) && SameConns(h.clients, r.clients)
  {
    hide JoinGroup, LeaveGroup;
    JoinGroupFrame(h, source, g);
    LeaveGroupFrame(h, source, g);
  }

  lemma {:induction false} InOutGroupsFrame(h: Hub, source: Addr, inOut: byte, gs: seq<Addr>)
    requires source in h.clients
    ensures var r := InOutGroups(h, source, inOut, gs);
            r == h.(clients := r.clients, groups := r.groups) && SameConns(h.clients, r.clients)
  {
    if gs != [] {
      InOutGroupsFrame(h, source, inOut, gs[..|gs| - 1]);
      var h1 := InOutGroups(h, source, inOut, gs[..|gs| - 1]);
      InOutGroupFrame(h1, source, inOut, gs[|gs| - 1]);
      hide InOutGroup;
    }
  }

  /** Every push a list of offline targets causes carries tag zero. */
  ghost predicate SystemPushes(before: seq<Push>, after: seq<Push>) {
    |before| <= |after| && after[..|before|] == before && forall k :: |before| <= k < |after| ==> after[k].env.tag == 0
  }

  lemma DelSessionFrame(c: Client, peer: Addr)
    ensures var r := DelSession(c, peer); r.conn == c.conn && r.groups == c.groups
  {
  }

  lemma SystemTag(source: Addr, dest: Addr, body: Body)
    ensures System(source, dest, body).tag == 0
  {
  }

  lemma OfflineTargetFrame(h: Hub, gone: Addr, notice: byte, t: Addr)
    ensures var r := OfflineTarget(h, gone, notice, t);
            && r == h.(clients := r.clients, pushes := r.pushes)
            && SamePeers(h.clients, r.clients) && SystemPushes(h.pushes, r.pushes)
  {
    hide DelSession, System;
    if t in h.clients {
      DelSessionFrame(h.clients[t], gone);
      SystemTag(ZERO_ADDR, t, OfflineNotice(gone));
    }
  }

  lemma {:induction false} OfflineTargetsFrame(h: Hub, gone: Addr, notice: byte, ts: seq<Addr>)
    ensures var r := OfflineTargets(h, gone, notice, ts);
            && r == h.(clients := r.clients, pushes := r.pushes)
            && SamePeers(h.clients, r.clients) && SystemPushes(h.pushes, r.pushes)
  {
    hide OfflineTarget;
    if ts != [] {
      var n := |ts| - 1;
      OfflineTargetsFrame(h, gone, notice, ts[..n]);
      OfflineTargetFrame(OfflineTargets(h, gone, notice, ts[..n]), gone, notice, ts[n]);
    }
  }

  lemma LogicFrame(h: Hub, env: Env)
    ensures var r := Logic(h, env);
            && r == h.(clients := r.clients, location := r.location, groups := r.groups, pushes := r.pushes, crashed := r.crashed)
            && SameConns(h.clients, r.clients) && SystemPushes(h.pushes, r.pushes)
  {
    hide OfflineTargets, InOutGroups;
    match env.msg.body
    case GroupInOut(inOut, gs) =>
      if env.msg.header.source in h.clients { InOutGroupsFrame(h, env.msg.header.source, inOut, gs); }
    case Offline(gone, notice, ts) =>
      OfflineTargetsFrame(h.(location := h.location - {gone}), gone, notice, ts);
    case _ =>
  }

  // ---------------------------------------------------------------- replies

  lemma {:induction false} SendOfflinesFrame(h: Hub, servers: seq<Addr>, targets: map<Addr, seq<Addr>>, peer: Conn)
    ensures var r := SendOfflines(h, servers, targets, peer);
            r == h.(links := r.links, queued := r.queued) && r.links.Keys == h.links.Keys
  {
    if servers != [] {
      SendOfflinesFrame(h, servers[..|servers| - 1], targets, peer);
    }
  }

  /** One more reply on this channel, with this content, or none when there is no channel. */
  ghost predicate AnsweredOnce(before: seq<Reply>, resp: Option<nat>, notFound: bool, after: seq<Reply>) {
    after == before + (if resp.Some? then [Reply(resp.value, 200, notFound)] else [])
  }

  lemma AnswerOnce(h: Hub, resp: Option<nat>, notFound: bool)
    ensures AnsweredOnce(h.replies, resp, notFound, Answer(h, resp, STATUS_OK, notFound).replies)
  {
  }

  /**
   * Whichever of the five uses and whichever early return, a response channel is answered exactly once, and only it: with
   * status 200, and with the not-found error exactly for a message to a client that is not registered here and for a
   * group command from one that is not.
   */
  lemma HandleReplies(h: Hub, p: Packet, ch: Choice)
    ensures var notFound := p.content.RelayMessage?
                            && var m := p.content.env.msg;
                               if m.header.dest == h.self then m.body.GroupInOut? && m.header.source !in h.clients
                               else Type(m.header.dest) == ADDR_CLIENT && m.header.dest !in h.clients;
            Handle(h, p, ch).replies == h.replies + (if p.resp.Some? then [Reply(p.resp.value, 200, notFound)] else [])
  {
    hide Relayed, Unregister, Register, Answer, Type;
    match p.content
    case AddClient(peer) =>
      RegisterFrame(h, peer, ch.now);
      AnswerOnce(Register(h, peer, ch.now), p.resp, false);
    case DelClient(peer) =>
      UnregisterFrame(h, peer, ch);
      AnswerOnce(Unregister(h, peer, ch), p.resp, false);
    case AddServer(server) => AnswerOnce(h.(links := h.links[server := []]), p.resp, false);
    case DelServer(server) => AnswerOnce(h.(links := h.links - {server}), p.resp, false);
    case RelayMessage(env) => RelayedReplies(h, p.from, env, p.resp);
  }

  lemma RegisterFrame(h: Hub, peer: Conn, now: uint64)
    ensures var r := Register(h, peer, now);
            && r == h.(clients := r.clients, links := r.links, pushes := r.pushes)
            && r.clients == h.clients[peer.addr := Client(peer, map[], {})]
            && SystemPushes(h.pushes, r.pushes)
            && r.links.Keys == h.links.Keys
            && forall j :: j in h.links ==> r.links[j] == h.links[j] + [System(peer.addr, peer.addr, Kill(now))]
  {
  }

  /** A relayed message changes who is registered no more than whom a hub could crash on. */
  lemma RelayedClients(h: Hub, from: Addr, env: Env, resp: Option<nat>)
    ensures var r := Relayed(h, from, env, resp);
            && SameConns(h.clients, r.clients)
            && (r.crashed <==> h.crashed || (env.msg.header.dest == h.self && env.msg.body.Loc? && env.msg.body.target !in h.clients))
  {
    hide Record, Logic, Route, Type;
    RecordFrame(h, from, env.msg.header);
    var h1 := Record(h, from, env.msg.header);
    RouteKeys(h1, from, env);
    LogicFrame(h1, env);
    LogicCrash(h1, env);
  }

  lemma LogicCrash(h: Hub, env: Env)
    ensures Logic(h, env).crashed <==> h.crashed || (env.msg.body.Loc? && env.msg.body.target !in h.clients)
  {
    hide OfflineTargets, InOutGroups, WithSession;
    match env.msg.body
    case GroupInOut(inOut, gs) =>
      if env.msg.header.source in h.clients { InOutGroupsFrame(h, env.msg.header.source, inOut, gs); }
    case Loc(target, peer, inServer) =>
      WithSessionFrame(h.(location := h.location[peer := inServer]), target, peer, inServer);
    case Offline(gone, notice, ts) =>
      OfflineTargetsFrame(h.(location := h.location - {gone}), gone, notice, ts);
    case _ =>
  }

  lemma RelayedReplies(h: Hub, from: Addr, env: Env, resp: Option<nat>)
    ensures var header := env.msg.header;
            AnsweredOnce(h.replies, resp,
                         if header.dest == h.self then env.msg.body.GroupInOut? && header.source !in h.clients
                         else Type(header.dest) == ADDR_CLIENT && header.dest !in h.clients,
                         Relayed(h, from, env, resp).replies)
  {
    hide Record, Logic, Route, AnsweredOnce, Answer, Type;
    RecordFrame(h, from, env.msg.header);
    var h1 := Record(h, from, env.msg.header);
    LogicFrame(h1, env);
    RouteKeys(h1, from, env);
    var header := env.msg.header;
    AnswerOnce(Logic(h1, env), resp, env.msg.body.GroupInOut? && header.source !in h1.clients);
    AnswerOnce(Route(h1, from, env), resp, Type(header.dest) == ADDR_CLIENT && header.dest !in h1.clients);
  }

  lemma UnregisterFrame(h: Hub, peer: Conn, ch: Choice)
    ensures var r := Unregister(h, peer, ch);
            && r == h.(clients := r.clients, groups := r.groups, links := r.links, queued := r.queued)
            && r.links.Keys == h.links.Keys
            && r.clients == (if Live(h, peer) then h.clients - {peer.addr} else h.clients)
            && (Live(h, peer) ==> r.groups == LeaveGroups(h, h.clients[peer.addr].groups, peer).groups)
            && (!Live(h, peer) ==> r == h)
  {
    if Live(h, peer) {
      var alive := h.clients[peer.addr];
      var h2 := LeaveGroups(h.(clients := h.clients - {peer.addr}), alive.groups, peer);
      SendOfflinesFrame(h2, ch.serverOrder, SessionServers(alive.sessions, ch.sessionOrder), peer);
    }
  }

  /** The unregistered connection is the one registered under its address. */
  ghost predicate Live(h: Hub, peer: Conn) {
    peer.addr in h.clients && h.clients[peer.addr].conn.remote == peer.remote
  }

  lemma RecordFrame(h: Hub, from: Addr, header: Header)
    ensures var r := Record(h, from, header);
            && r == h.(clients := r.clients, location := r.location, links := r.links)
            && SamePeers(h.clients, r.clients) && r.links.Keys == h.links.Keys
            && r.location == (if Learns(h, from, header) then h.location[header.source := from] else h.location)
            && (forall j :: j in h.links ==> r.links[j] == h.links[j] + LocOut(h, from, header, j))
  {
    hide Type;
    hide RecordSession, RecordLocation;
    RecordSessionFrame(h, from, header);
    RecordLocationFrame(RecordSession(h, from, header), from, header);
    NothingAdded(h);
  }

  lemma RecordLocationFrame(h: Hub, from: Addr, header: Header)
    ensures var r := RecordLocation(h, from, header);
            && r == h.(location := r.location, links := r.links) && r.links.Keys == h.links.Keys
            && r.location == (if header.source in h.location then h.location else h.location[header.source := from])
            && (forall j :: j in h.links ==>
                  r.links[j] == h.links[j] + (if header.source !in h.location && header.dest in h.clients && j == from
                                              then [System(h.self, from, Loc(header.source, header.dest, h.self))] else []))
  {
    hide PushLink;
    NothingAdded(h);
    var h1 := h.(location := h.location[header.source := from]);
    PushLinkLinks(h1, from, System(h.self, from, Loc(header.source, header.dest, h.self)));
  }

  // ------------------------------------------------------------ closed forms

  /** recordLocation stores a new entry. */
  ghost predicate Learns(h: Hub, from: Addr, header: Header) {
    Type(from) == ADDR_SERVER && Type(header.source) == ADDR_CLIENT && header.source !in h.location
  }

  /** The Loc message recordLocation pushes to server j. */
  ghost function LocOut(h: Hub, from: Addr, header: Header, j: Addr): seq<Env> {
    if Learns(h, from, header) && header.dest in h.clients && from == j
    then [System(h.self, from, Loc(header.source, header.dest, h.self))] else []
  }

  /** A relayed message is passed on to server j. Never, when it came through a server link. */
  ghost predicate Forwards(h: Hub, from: Addr, header: Header, j: Addr) {
    && header.dest != h.self
    && (if Type(header.dest) == ADDR_CLIENT
        then header.dest !in h.clients && Type(from) != ADDR_SERVER
             && (header.dest !in h.location || h.location[header.dest] == j)
        else Type(from) == ADDR_CLIENT)
  }

  /** The Offline messages for server j among those an unregistration sends. */
  ghost function OfflineOut(h: Hub, servers: seq<Addr>, targets: map<Addr, seq<Addr>>, peer: Conn, j: Addr): seq<Env> {
    if servers == [] then []
    else
      var n := |servers| - 1;
      OfflineOut(h, servers[..n], targets, peer, j)
      + (if servers[n] == j && j in targets
         then [System(h.self, j, Offline(peer.addr, peer.notice, targets[j]))] else [])
  }

  /** The Offline messages the hub queues to itself: those for servers it has no peer for. */
  ghost function SelfOut(h: Hub, servers: seq<Addr>, targets: map<Addr, seq<Addr>>, peer: Conn): seq<Packet> {
    if servers == [] then []
    else
      var n := |servers| - 1;
      SelfOut(h, servers[..n], targets, peer)
      + (if servers[n] in targets && servers[n] !in h.links
         then [Packet(h.self, RelayMessage(System(h.self, h.self, Offline(peer.addr, peer.notice, targets[servers[n]]))), None)]
         else [])
  }

  /** What handling p appends to the link to server j. */
  ghost function LinkOut(h: Hub, p: Packet, ch: Choice, j: Addr): seq<Env> {
    match p.content
    case AddClient(peer) => [System(peer.addr, peer.addr, Kill(ch.now))]
    case DelClient(peer) =>
      if Live(h, peer)
      then OfflineOut(h, ch.serverOrder, SessionServers(h.clients[peer.addr].sessions, ch.sessionOrder), peer, j)
      else []
    case RelayMessage(env) =>
      LocOut(h, p.from, env.msg.header, j) + (if Forwards(h, p.from, env.msg.header, j) then [env] else [])
    case _ => []
  }

  /** What handling p puts on the hub's own queue. */
  ghost function QueueOut(h: Hub, p: Packet, ch: Choice): seq<Packet> {
    match p.content
    case DelClient(peer) =>
      if Live(h, peer)
      then SelfOut(h, ch.serverOrder, SessionServers(h.clients[peer.addr].sessions, ch.sessionOrder), peer)
      else []
    case _ => []
  }

  lemma {:induction false} SendOfflinesOut(h: Hub, servers: seq<Addr>, targets: map<Addr, seq<Addr>>, peer: Conn)
    ensures var r := SendOfflines(h, servers, targets, peer);
            && r.queued == h.queued + SelfOut(h, servers, targets, peer)
            && r.links.Keys == h.links.Keys
            && forall j :: j in h.links ==> r.links[j] == h.links[j] + OfflineOut(h, servers, targets, peer, j)
  {
    hide SendOffline, System;
    if servers == [] {
      NothingAdded(h);
    } else {
      var n := |servers| - 1;
      var h1 := SendOfflines(h, servers[..n], targets, peer);
      SendOfflinesOut(h, servers[..n], targets, peer);
      SendOfflinesFrame(h, servers[..n], targets, peer);
      SendOneOut(h, h1, servers[n], targets, peer);
    }
  }

  /** One Offline message in closed form, on top of what earlier ones appended. */
  lemma SendOneOut(h: Hub, h1: Hub, s: Addr, targets: map<Addr, seq<Addr>>, peer: Conn)
    requires h1.self == h.self && h1.links.Keys == h.links.Keys
    ensures var r := if s in targets then SendOffline(h1, s, targets[s], peer) else h1;
            && r.queued == h1.queued
               + (if s in targets && s !in h.links
                  then [Packet(h.self, RelayMessage(System(h.self, h.self, Offline(peer.addr, peer.notice, targets[s]))), None)]
                  else [])
            && r.links.Keys == h.links.Keys
            && forall j :: j in h.links ==>
                 r.links[j] == h1.links[j] + (if s == j && j in targets
                                              then [System(h.self, j, Offline(peer.addr, peer.notice, targets[j]))] else [])
  {
    assert h1.queued + [] == h1.queued;
    forall j | j in h.links
      ensures h1.links[j] + [] == h1.links[j]
    {
    }
  }

  lemma BroadcastLinks(h: Hub, env: Env)
    ensures var r := Broadcast(h, env);
            && r == h.(links := r.links) && r.links.Keys == h.links.Keys
            && forall j :: j in h.links ==> r.links[j] == h.links[j] + [env]
  {
  }

  lemma PushLinkLinks(h: Hub, server: Addr, env: Env)
    ensures var r := PushLink(h, server, env);
            && r == h.(links := r.links) && r.links.Keys == h.links.Keys
            && forall j :: j in h.links ==> r.links[j] == h.links[j] + (if j == server then [env] else [])
  {
    forall j | j in h.links
      ensures h.links[j] + [] == h.links[j]
    {
    }
  }

  lemma SpreadFrame(h: Hub, dest: Addr, env: Env)
    ensures var r := Spread(h, dest, env); r == h.(groups := r.groups, pushes := r.pushes)
  {
    hide DomainConns, Type;
  }

  lemma RouteLinks(h: Hub, from: Addr, env: Env, j: Addr)
    requires j in h.links && env.msg.header.dest != h.self
    ensures j in Route(h, from, env).links
    ensures Route(h, from, env).links[j] == h.links[j] + (if Forwards(h, from, env.msg.header, j) then [env] else [])
  {
    hide Broadcast, PushLink, Spread, Type;
    RouteKeys(h, from, env);
    NothingAdded(h);
    BroadcastLinks(h, env);
    var dest := env.msg.header.dest;
    if Type(dest) == ADDR_CLIENT {
      PushLinkLinks(h, if dest in h.location then h.location[dest] else dest, env);
    } else {
      SpreadFrame(if Type(from) == ADDR_CLIENT then Broadcast(h, env) else h, dest, env);
    }
  }

  lemma RouteKeys(h: Hub, from: Addr, env: Env)
    ensures var r := Route(h, from, env);
            r == h.(links := r.links, groups := r.groups, pushes := r.pushes) && r.links.Keys == h.links.Keys
  {
    hide Broadcast, PushLink, Spread, Type;
    var dest := env.msg.header.dest;
    BroadcastLinks(h, env);
    if Type(dest) == ADDR_CLIENT {
      if dest in h.location {
        PushLinkLinks(h, h.location[dest], env);
      }
    } else {
      SpreadFrame(if Type(from) == ADDR_CLIENT then Broadcast(h, env) else h, dest, env);
    }
  }

  lemma RelayedLink(h: Hub, from: Addr, env: Env, resp: Option<nat>, j: Addr)
    requires j in h.links
    ensures var r := Relayed(h, from, env, resp);
            j in r.links && r.links[j] == h.links[j] + LinkOut(h, Packet(from, RelayMessage(env), resp), Choice(0, [], []), j)
  {
    hide Record, Logic, Route, LocOut, Forwards;
    var header := env.msg.header;
    RecordFrame(h, from, header);
    var h1 := Record(h, from, header);
    var loc := LocOut(h, from, header, j);
    if header.dest == h.self {
      LogicFrame(h1, env);
      ForwardsNothingToSelf(h, from, header, j);
      assert loc + [] == loc;
    } else {
      RouteLinks(h1, from, env, j);
      ForwardsAfterRecord(h, from, header, j);
      var fwd := if Forwards(h, from, header, j) then [env] else [];
      assert (h.links[j] + loc) + fwd == h.links[j] + (loc + fwd);
    }
  }

  lemma ForwardsNothingToSelf(h: Hub, from: Addr, header: Header, j: Addr)
    requires header.dest == h.self
    ensures !Forwards(h, from, header, j)
  {
  }

  lemma ForwardsAfterRecord(h: Hub, from: Addr, header: Header, j: Addr)
    ensures Forwards(Record(h, from, header), from, header, j) == Forwards(h, from, header, j)
  {
    RecordFrame(h, from, header);
    hide Record;
  }

  lemma RelayedKeys(h: Hub, from: Addr, env: Env, resp: Option<nat>)
    ensures var r := Relayed(h, from, env, resp); r.links.Keys == h.links.Keys && r.queued == h.queued && r.self == h.self
  {
    hide Record, Logic, Route;
    RecordFrame(h, from, env.msg.header);
    var h1 := Record(h, from, env.msg.header);
    LogicFrame(h1, env);
    RouteKeys(h1, from, env);
  }

  /** In a fixed mesh, a handled packet appends LinkOut to every link and QueueOut to the hub's own queue. */
  lemma HandleOut(h: Hub, p: Packet, ch: Choice)
    requires !p.content.AddServer? && !p.content.DelServer?
    ensures var r := Handle(h, p, ch);
            && r.self == h.self
            && r.links.Keys == h.links.Keys
            && r.queued == h.queued + QueueOut(h, p, ch)
            && forall j :: j in h.links ==> r.links[j] == h.links[j] + LinkOut(h, p, ch, j)
  {
    hide Relayed, Unregister, Register, OfflineOut, SelfOut, SessionServers, LocOut, Forwards;
    match p.content
    case AddClient(peer) =>
      RegisterFrame(h, peer, ch.now);
      assert h.queued + [] == h.queued;
    case DelClient(peer) =>
      UnregisterOut(h, peer, ch);
      NothingAdded(h);
    case RelayMessage(env) =>
      RelayedKeys(h, p.from, env, p.resp);
      assert h.queued + [] == h.queued;
      forall j | j in h.links
        ensures Handle(h, p, ch).links[j] == h.links[j] + LinkOut(h, p, ch, j)
      {
        RelayedLink(h, p.from, env, p.resp, j);
      }
  }

  lemma NothingAdded(h: Hub)
    ensures h.queued + [] == h.queued
    ensures forall j :: j in h.links ==> h.links[j] + [] == h.links[j]
  {
  }

  lemma UnregisterOut(h: Hub, peer: Conn, ch: Choice)
    ensures var r := Unregister(h, peer, ch);
            && r.self == h.self && r.links.Keys == h.links.Keys
            && (!Live(h, peer) ==> r == h)
            && (Live(h, peer) ==>
                  var m := SessionServers(h.clients[peer.addr].sessions, ch.sessionOrder);
                  && r.queued == h.queued + SelfOut(h, ch.serverOrder, m, peer)
                  && forall j :: j in h.links ==> r.links[j] == h.links[j] + OfflineOut(h, ch.serverOrder, m, peer, j))
  {
    hide SendOfflines, OfflineOut, SelfOut, SessionServers;
    if Live(h, peer) {
      var alive := h.clients[peer.addr];
      var m := SessionServers(alive.sessions, ch.sessionOrder);
      var h2 := LeaveGroups(h.(clients := h.clients - {peer.addr}), alive.groups, peer);
      SendOfflinesOut(h2, ch.serverOrder, m, peer);
      SendOfflinesFrame(h2, ch.serverOrder, m, peer);
      OutDependsOnLinks(h, h2, ch.serverOrder, m, peer);
    }
  }

  lemma {:induction false} OutDependsOnLinks(h: Hub, h2: Hub, servers: seq<Addr>, m: map<Addr, seq<Addr>>, peer: Conn)
    requires h.self == h2.self && h.links == h2.links
    ensures SelfOut(h, servers, m, peer) == SelfOut(h2, servers, m, peer)
    ensures forall j :: OfflineOut(h, servers, m, peer, j) == OfflineOut(h2, servers, m, peer, j)
  {
    if servers != [] {
      OutDependsOnLinks(h, h2, servers[..|servers| - 1], m, peer);
    }
  }

  /**
   * Every handled packet, the two about server peers included: exactly the server named there gains or loses its link, a
   * new link starts empty, and every link that stays is appended LinkOut.
   */
  lemma HandleLinks(h: Hub, p: Packet, ch: Choice)
    ensures var r := Handle(h, p, ch);
            && r.self == h.self
            && r.queued == h.queued + QueueOut(h, p, ch)
            && r.links.Keys == (match p.content
                                case AddServer(s) => h.links.Keys + {s}
                                case DelServer(s) => h.links.Keys - {s}
                                case _ => h.links.Keys)
            && (p.content.AddServer? ==> r.links[p.content.server] == [])
            && forall j :: j in h.links && j in r.links && p.content != AddServer(j) ==>
                 r.links[j] == h.links[j] + LinkOut(h, p, ch, j)
  {
    hide Relayed, Unregister, Register, OfflineOut, SelfOut, LocOut, Forwards;
    if p.content.AddServer? || p.content.DelServer? {
      NothingAdded(h);
    } else {
      HandleOut(h, p, ch);
    }
  }

  /** A server that just registered is reached by the next message forwarded to it; one that unregistered gets nothing. */
  lemma RegisteredServerIsReached(h: Hub, from: Addr, server: Addr, resp: Option<nat>, ch: Choice, sender: Addr, env: Env)
    ensures var r := Handle(h, Packet(from, AddServer(server), resp), ch);
            var next := Relayed(r, sender, env, None);
            && server in next.links
            && next.links[server] == LocOut(r, sender, env.msg.header, server)
                                     + (if Forwards(r, sender, env.msg.header, server) then [env] else [])
            && Forwards(r, sender, env.msg.header, server) == Forwards(h, sender, env.msg.header, server)
    ensures var r := Handle(h, Packet(from, DelServer(server), resp), ch);
            server !in Relayed(r, sender, env, None).links
  {
    hide Relayed, LocOut;
    var r := Handle(h, Packet(from, AddServer(server), resp), ch);
    RelayedLink(r, sender, env, None, server);
    RelayedKeys(Handle(h, Packet(from, DelServer(server), resp), ch), sender, env, None);
    var out := LinkOut(r, Packet(sender, RelayMessage(env), None), Choice(0, [], []), server);
    assert [] + out == out;
  }
}
