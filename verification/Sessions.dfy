/** What a client's sessions are for: when it leaves, every server one of its session peers talks through is told. */
module Sessions {
  import opened Bytes
  import opened Addresses
  import opened Wire
  import opened HubModel
  import opened HubFacts

  ghost predicate NoDup<T>(s: seq<T>) {
    forall i, j :: 0 <= i < j < |s| ==> s[i] != s[j]
  }

  /** One order in which Go may iterate over a map with these keys. */
  ghost predicate Orders(order: seq<Addr>, keys: set<Addr>) {
    NoDup(order) && (forall x :: x in order ==> x in keys) && (forall x :: x in keys ==> x in order)
  }

  // ------------------------------------------------- the partition by server

  /** The peers in ps whose session goes through s. */
  ghost function Through(sessions: map<Addr, Addr>, ps: seq<Addr>, s: Addr): seq<Addr> {
    if ps == [] then []
    else
      var n := |ps| - 1;
      Through(sessions, ps[..n], s) + (if ps[n] in sessions && sessions[ps[n]] == s then [ps[n]] else [])
  }

  lemma {:induction false} ServersThrough(sessions: map<Addr, Addr>, order: seq<Addr>, s: Addr)
    ensures var m := SessionServers(sessions, order);
            && (s in m <==> Through(sessions, order, s) != [])
            && (s in m ==> m[s] == Through(sessions, order, s))
  {
    if order != [] {
      ServersThrough(sessions, order[..|order| - 1], s);
    }
  }

  lemma {:induction false} ThroughIs(sessions: map<Addr, Addr>, order: seq<Addr>, s: Addr)
    requires NoDup(order)
    ensures var t := Through(sessions, order, s);
            NoDup(t) && forall p :: p in t <==> p in order && p in sessions && sessions[p] == s
  {
    if order != [] {
      var n := |order| - 1;
      ThroughIs(sessions, order[..n], s);
      assert order == order[..n] + [order[n]];
      assert order[n] !in order[..n];
    }
  }

  /** getAllSessionServers partitions the session peers by server, in whatever order the map is walked. */
  lemma SessionsPartition(sessions: map<Addr, Addr>, order: seq<Addr>)
    requires Orders(order, sessions.Keys)
    ensures var m := SessionServers(sessions, order);
            && m.Keys == sessions.Values
            && forall s :: s in m ==>
                 m[s] != [] && NoDup(m[s]) && forall p :: p in m[s] <==> p in sessions && sessions[p] == s
  {
    hide NoDup;
    var m := SessionServers(sessions, order);
    forall s
      ensures s in m <==> s in sessions.Values
      ensures s in m ==> m[s] != [] && NoDup(m[s]) && forall p :: p in m[s] <==> p in sessions && sessions[p] == s
    {
      ServersThrough(sessions, order, s);
      ThroughIs(sessions, order, s);
      if s in m { assert Through(sessions, order, s)[0] in Through(sessions, order, s); }
      if s in sessions.Values {
        var p :| p in sessions && sessions[p] == s;
        assert p in Through(sessions, order, s);
      }
    }
  }

  ghost function Concat(m: map<Addr, seq<Addr>>, servers: seq<Addr>): seq<Addr> {
    if servers == [] then []
    else
      var n := |servers| - 1;
      Concat(m, servers[..n]) + (if servers[n] in m then m[servers[n]] else [])
  }

  lemma {:induction false} ConcatCounts(sessions: map<Addr, Addr>, m: map<Addr, seq<Addr>>, servers: seq<Addr>, p: Addr)
    requires forall s :: s in m ==> NoDup(m[s]) && forall q :: q in m[s] <==> q in sessions && sessions[q] == s
    requires m.Keys == sessions.Values && NoDup(servers)
    ensures multiset(Concat(m, servers))[p] == if p in sessions && sessions[p] in servers then 1 else 0
  {
    hide NoDup;
    if servers != [] {
      var n := |servers| - 1;
      PrefixNoDup(servers);
      ConcatCounts(sessions, m, servers[..n], p);
      assert servers == servers[..n] + [servers[n]];
      if servers[n] in m { NoDupCount(m[servers[n]], p); }
      if p in sessions { assert sessions[p] in sessions.Values; }
    }
  }

  lemma PrefixNoDup<T>(s: seq<T>)
    requires NoDup(s) && s != []
    ensures NoDup(s[..|s| - 1]) && s[|s| - 1] !in s[..|s| - 1]
  {
  }

  lemma {:induction false} NoDupCount<T>(s: seq<T>, x: T)
    requires NoDup(s)
    ensures multiset(s)[x] == if x in s then 1 else 0
  {
    if s != [] {
      var n := |s| - 1;
      PrefixNoDup(s);
      NoDupCount(s[..n], x);
      assert s == s[..n] + [s[n]];
    }
  }

  // --------------------------------------------------- the offline messages

  /** The servers among these the hub has no peer for, in order. */
  ghost function Unlinked(links: set<Addr>, servers: seq<Addr>): seq<Addr> {
    if servers == [] then []
    else
      var n := |servers| - 1;
      Unlinked(links, servers[..n]) + (if servers[n] in links then [] else [servers[n]])
  }

  ghost function ToSelf(self: Addr, peer: Conn, targets: seq<Addr>): Packet {
    Packet(self, RelayMessage(System(self, self, Offline(peer.addr, peer.notice, targets))), None)
  }

  /** One Offline message to the hub itself for each of these servers. */
  ghost function AllToSelf(self: Addr, peer: Conn, m: map<Addr, seq<Addr>>, servers: seq<Addr>): seq<Packet> {
    seq(|servers|, k requires 0 <= k < |servers| => ToSelf(self, peer, if servers[k] in m then m[servers[k]] else []))
  }

  lemma {:induction false} OfflineOnce(h: Hub, servers: seq<Addr>, m: map<Addr, seq<Addr>>, peer: Conn, j: Addr)
    requires NoDup(servers)
    ensures OfflineOut(h, servers, m, peer, j)
         == if j in servers && j in m then [System(h.self, j, Offline(peer.addr, peer.notice, m[j]))] else []
  {
    hide NoDup;
    if servers != [] {
      var n := |servers| - 1;
      PrefixNoDup(servers);
      OfflineOnce(h, servers[..n], m, peer, j);
      assert servers == servers[..n] + [servers[n]];
    }
  }

  lemma {:induction false} SelfOnce(h: Hub, servers: seq<Addr>, m: map<Addr, seq<Addr>>, peer: Conn)
    requires forall s :: s in servers ==> s in m
    ensures var un := Unlinked(h.links.Keys, servers);
            SelfOut(h, servers, m, peer) == AllToSelf(h.self, peer, m, un)
  {
    if servers != [] {
      SelfOnce(h, servers[..|servers| - 1], m, peer);
    }
  }

  lemma {:induction false} UnlinkedIs(links: set<Addr>, servers: seq<Addr>)
    requires NoDup(servers)
    ensures var un := Unlinked(links, servers); NoDup(un) && forall s :: s in un <==> s in servers && s !in links
  {
    if servers != [] {
      var n := |servers| - 1;
      PrefixNoDup(servers);
      UnlinkedIs(links, servers[..n]);
      assert servers == servers[..n] + [servers[n]];
    }
  }

  /** The iteration orders chosen fit the two maps walked when this connection is unregistered. */
  ghost predicate Walks(h: Hub, peer: Conn, ch: Choice)
    requires Live(h, peer)
  {
    var sessions := h.clients[peer.addr].sessions;
    Orders(ch.sessionOrder, sessions.Keys) && Orders(ch.serverOrder, sessions.Values)
  }

  /**
   * Unregistering the live connection sends one Offline message per session server: over the link where there is one,
   * otherwise to the hub's own queue. Its targets are the session peers behind that server, and the target lists of
   * all messages together hold each session peer exactly once.
   */
  lemma OfflineConservesSessions(h: Hub, peer: Conn, ch: Choice)
    requires Live(h, peer) && Walks(h, peer, ch)
    ensures var sessions := h.clients[peer.addr].sessions;
            var m, un := SessionServers(sessions, ch.sessionOrder), Unlinked(h.links.Keys, ch.serverOrder);
            var r := Unregister(h, peer, ch);
            && r.clients == h.clients - {peer.addr}
            && m.Keys == sessions.Values && r.links.Keys == h.links.Keys
            && (forall s :: s in m ==> forall p :: p in m[s] <==> p in sessions && sessions[p] == s)
            && (forall j :: j in h.links ==>
                  r.links[j] == h.links[j] + (if j in m then [System(h.self, j, Offline(peer.addr, peer.notice, m[j]))] else []))
            && Orders(un, sessions.Values - h.links.Keys)
            && r.queued == h.queued + AllToSelf(h.self, peer, m, un)
            && multiset(Concat(m, ch.serverOrder)) == multiset(sessions.Keys)
  {
    hide Unregister, NoDup, OfflineOut, SelfOut, Unlinked, SessionServers, Concat;
    var sessions := h.clients[peer.addr].sessions;
    SessionsPartition(sessions, ch.sessionOrder);
    var m := SessionServers(sessions, ch.sessionOrder);
    UnregisterFrame(h, peer, ch);
    UnregisterOut(h, peer, ch);
    SelfOnce(h, ch.serverOrder, m, peer);
    UnlinkedIs(h.links.Keys, ch.serverOrder);
    forall j | j in h.links
      ensures OfflineOut(h, ch.serverOrder, m, peer, j)
           == if j in m then [System(h.self, j, Offline(peer.addr, peer.notice, m[j]))] else []
    {
      OfflineOnce(h, ch.serverOrder, m, peer, j);
    }
    forall p
      ensures multiset(Concat(m, ch.serverOrder))[p] == multiset(sessions.Keys)[p]
    {
      ConcatCounts(sessions, m, ch.serverOrder, p);
      if p in sessions { assert sessions[p] in sessions.Values; }
    }
  }

  /** A connection that was replaced by a newer one leaves no trace when it ends, and only such a one. */
  lemma ReplacedLeavesNoTrace(h: Hub, peer: Conn, ch: Choice)
    ensures Unregister(h, peer, ch) == h <==> !Live(h, peer)
  {
    hide Unregister;
    UnregisterFrame(h, peer, ch);
    if Live(h, peer) {
      assert peer.addr in h.clients && peer.addr !in h.clients - {peer.addr};
    }
  }

  // ------------------------------------------------ who is told, end to end

  /** What recordSession leaves at the two ends of a message between two different clients. */
  lemma RecordedSessions(h: Hub, from: Addr, header: Header)
    requires Type(header.source) == ADDR_CLIENT && header.source != header.dest
    ensures var r := Record(h, from, header);
            && (header.dest in h.clients && Type(header.dest) == ADDR_CLIENT && header.source !in h.clients[header.dest].sessions ==>
                  header.dest in r.clients
                  && r.clients[header.dest].sessions
                     == h.clients[header.dest].sessions[header.source := if Type(from) == ADDR_CLIENT then h.self else from])
            && (header.source in h.clients && header.dest !in h.clients[header.source].sessions ==>
                  header.source in r.clients
                  && r.clients[header.source].sessions == h.clients[header.source].sessions[header.dest := h.self])
  {
    hide RecordLocation, RecordSession, Type, SamePeers;
    RecordLocationFrame(RecordSession(h, from, header), from, header);
    if header.dest in h.clients { SessionRecorded(h, from, header, header.dest); }
    if header.source in h.clients { SessionRecorded(h, from, header, header.source); }
  }

  lemma SessionAt(h: Hub, at: Addr, peer: Addr, server: Addr, k: Addr)
    requires k in h.clients
    ensures var r := WithSession(h, at, peer, server);
            && k in r.clients && r.self == h.self
            && r.clients[k].sessions == if k == at && peer !in h.clients[k].sessions
                                        then h.clients[k].sessions[peer := server] else h.clients[k].sessions
  {
  }

  lemma SessionRecorded(h: Hub, from: Addr, header: Header, k: Addr)
    requires Type(header.source) == ADDR_CLIENT && header.source != header.dest && k in h.clients
    ensures var r, was := RecordSession(h, from, header), h.clients[k].sessions;
            && k in r.clients
            && r.clients[k].sessions
               == (if k == header.source && header.dest !in was then was[header.dest := h.self]
                   else if k == header.dest && Type(header.dest) == ADDR_CLIENT && header.source !in was
                   then was[header.source := if Type(from) == ADDR_CLIENT then h.self else from]
                   else was)
  {
    hide WithSession, Type;
    var h1 := WithSession(h, header.source, header.dest, h.self);
    SessionAt(h, header.source, header.dest, h.self, k);
    SessionAt(h1, header.dest, header.source, if Type(from) == ADDR_CLIENT then h.self else from, k);
  }

  /** Handling a relayed message between clients of different hubs, or of one, changes sessions in Record only. */
  lemma RoutedSessions(h: Hub, from: Addr, env: Env, resp: Option<nat>)
    requires env.msg.header.dest != h.self
    ensures var r := Relayed(h, from, env, resp);
            && r.clients == Record(h, from, env.msg.header).clients && r.self == h.self && r.links.Keys == h.links.Keys
  {
    hide Record, Route;
    RecordFrame(h, from, env.msg.header);
    RouteKeys(Record(h, from, env.msg.header), from, env);
  }

  /**
   * A client that was first written to from another hub and then leaves: that hub is sent an Offline message that names
   * the writer.
   */
  lemma ReaderLeavesWriterIsTold(h: Hub, from: Addr, env: Env, ch: Choice)
    requires var a, b := env.msg.header.source, env.msg.header.dest;
             && Type(a) == ADDR_CLIENT && Type(b) == ADDR_CLIENT && a != b && b != h.self && Type(from) == ADDR_SERVER
             && b in h.clients && h.clients[b].conn.addr == b && a !in h.clients[b].sessions && from in h.links
    requires var r := Relayed(h, from, env, None);
             env.msg.header.dest in r.clients && Live(r, r.clients[env.msg.header.dest].conn)
             && Walks(r, r.clients[env.msg.header.dest].conn, ch)
    ensures var a, b := env.msg.header.source, env.msg.header.dest;
            var r := Relayed(h, from, env, None);
            var c := r.clients[b].conn;
            exists targets :: a in targets
              && from in r.links && from in Unregister(r, c, ch).links
              && Unregister(r, c, ch).links[from] == r.links[from] + [System(h.self, from, Offline(b, c.notice, targets))]
  {
    var a, b := env.msg.header.source, env.msg.header.dest;
    var r := Relayed(h, from, env, None);
    RecordedSessions(h, from, env.msg.header);
    RoutedSessions(h, from, env, None);
    RelayedClients(h, from, env, None);
    hide Relayed, Record, Unregister, Type, Walks, SessionServers, Concat, Unlinked, AllToSelf;
    var sessions := r.clients[b].sessions;
    var c := r.clients[b].conn;
    assert sessions[a] == from;
    OfflineConservesSessions(r, c, ch);
    var m := SessionServers(sessions, ch.sessionOrder);
    assert from in sessions.Values;
    assert a in m[from];
  }

  /**
   * A client that wrote first and then leaves: its session names its own hub, so it is that hub that is sent the Offline
   * message naming the reader; whatever Offline messages go out on links, none names the reader.
   */
  lemma WriterLeavesOwnHubIsTold(h: Hub, env: Env, ch: Choice)
    requires var a, b := env.msg.header.source, env.msg.header.dest;
             && Type(a) == ADDR_CLIENT && a != b && b != h.self
             && a in h.clients && h.clients[a].conn.addr == a && b !in h.clients[a].sessions && h.self !in h.links
    requires var r := Relayed(h, env.msg.header.source, env, None);
             env.msg.header.source in r.clients && Live(r, r.clients[env.msg.header.source].conn)
             && Walks(r, r.clients[env.msg.header.source].conn, ch)
    ensures var a, b := env.msg.header.source, env.msg.header.dest;
            var r := Relayed(h, a, env, None);
            var c := r.clients[a].conn;
            exists targets :: b in targets && ToSelf(h.self, c, targets) in Unregister(r, c, ch).queued
    ensures var a, b := env.msg.header.source, env.msg.header.dest;
            var r := Relayed(h, a, env, None);
            var c := r.clients[a].conn;
            var u := Unregister(r, c, ch);
            && u.links.Keys == r.links.Keys
            && forall j :: j in r.links ==>
                 || u.links[j] == r.links[j]
                 || exists targets :: b !in targets && u.links[j] == r.links[j] + [System(h.self, j, Offline(a, c.notice, targets))]
  {
    var a, b := env.msg.header.source, env.msg.header.dest;
    var r := Relayed(h, a, env, None);
    RecordedSessions(h, a, env.msg.header);
    RoutedSessions(h, a, env, None);
    RelayedClients(h, a, env, None);
    hide Relayed, Record, Unregister, Type, Walks, SessionServers, Concat, Unlinked;
    var sessions := r.clients[a].sessions;
    var c := r.clients[a].conn;
    assert sessions[b] == h.self;
    OfflineConservesSessions(r, c, ch);
    var m, un := SessionServers(sessions, ch.sessionOrder), Unlinked(r.links.Keys, ch.serverOrder);
    assert h.self in sessions.Values - r.links.Keys;
    var k :| 0 <= k < |un| && un[k] == h.self;
    assert b in m[h.self];
    assert AllToSelf(h.self, c, m, un)[k] == ToSelf(h.self, c, m[h.self]);
    var u := Unregister(r, c, ch);
    forall j | j in r.links
      ensures || u.links[j] == r.links[j]
              || exists targets :: b !in targets && u.links[j] == r.links[j] + [System(h.self, j, Offline(a, c.notice, targets))]
    {
      if j in m {
        assert b !in m[j];
      } else {
        assert r.links[j] + [] == r.links[j];
      }
    }
  }

  // --------------------------------------------------- sessions never end

  /** DelSession never deletes: it returns early when the session is there and deletes when it is not. */
  lemma DelSessionDoesNothing(c: Client, peer: Addr)
    ensures DelSession(c, peer) == c
  {
    if peer !in c.sessions { assert c.sessions - {peer} == c.sessions; }
  }

  lemma {:induction false} OfflineTargetsKeepClients(h: Hub, gone: Addr, notice: byte, ts: seq<Addr>)
    ensures OfflineTargets(h, gone, notice, ts).clients == h.clients
  {
    if ts != [] {
      var n := |ts| - 1;
      OfflineTargetsKeepClients(h, gone, notice, ts[..n]);
      var h1 := OfflineTargets(h, gone, notice, ts[..n]);
      if ts[n] in h1.clients {
        DelSessionDoesNothing(h1.clients[ts[n]], gone);
        assert h1.clients[ts[n] := h1.clients[ts[n]]] == h1.clients;
      }
    }
  }

  ghost predicate SubMap(m: map<Addr, Addr>, n: map<Addr, Addr>) {
    forall a :: a in m ==> a in n && n[a] == m[a]
  }

  /** A connection registered before and after has all the sessions it had, each still with the same server. */
  ghost predicate Grows(m: map<Addr, Client>, n: map<Addr, Client>) {
    forall a :: a in m && a in n && m[a].conn == n[a].conn ==> SubMap(m[a].sessions, n[a].sessions)
  }

  lemma WithSessionGrows(h: Hub, at: Addr, peer: Addr, server: Addr)
    ensures var r := WithSession(h, at, peer, server); Grows(h.clients, r.clients) && SameConns(h.clients, r.clients)
  {
    hide Grows, SameConns;
    NothingGrows(h.clients);
    if at in h.clients { SessionsChange(h.clients, at, AddSession(h.clients[at], peer, server).sessions); }
  }

  lemma SessionsChange(m: map<Addr, Client>, a: Addr, sessions: map<Addr, Addr>)
    requires a in m && SubMap(m[a].sessions, sessions)
    ensures var n := m[a := m[a].(sessions := sessions)]; Grows(m, n) && SameConns(m, n)
  {
  }

  lemma GrowsTransitive(m: map<Addr, Client>, n: map<Addr, Client>, o: map<Addr, Client>)
    requires Grows(m, n) && Grows(n, o) && SameConns(m, n) && SameConns(n, o)
    ensures Grows(m, o) && SameConns(m, o)
  {
    hide SubMap;
    forall a | a in m && a in o && m[a].conn == o[a].conn
      ensures SubMap(m[a].sessions, o[a].sessions)
    {
      SubMapTransitive(m[a].sessions, n[a].sessions, o[a].sessions);
    }
  }

  lemma SubMapTransitive(m: map<Addr, Addr>, n: map<Addr, Addr>, o: map<Addr, Addr>)
    requires SubMap(m, n) && SubMap(n, o)
    ensures SubMap(m, o)
  {
  }

  lemma RecordGrows(h: Hub, from: Addr, header: Header)
    ensures var r := Record(h, from, header); Grows(h.clients, r.clients) && SameConns(h.clients, r.clients)
  {
    hide Grows, SameConns, WithSession, Type, RecordLocation;
    var h1 := if Type(header.source) == ADDR_CLIENT then WithSession(h, header.source, header.dest, h.self) else h;
    NothingGrows(h.clients);
    WithSessionGrows(h, header.source, header.dest, h.self);
    var server := if Type(from) == ADDR_CLIENT then h.self else from;
    NothingGrows(h1.clients);
    WithSessionGrows(h1, header.dest, header.source, server);
    var h2 := if Type(header.dest) == ADDR_CLIENT then WithSession(h1, header.dest, header.source, server) else h1;
    GrowsTransitive(h.clients, h1.clients, h2.clients);
    assert RecordSession(h, from, header).clients == h2.clients;
    RecordLocationFrame(RecordSession(h, from, header), from, header);
  }

  lemma NothingGrows(m: map<Addr, Client>)
    ensures Grows(m, m) && SameConns(m, m)
  {
  }

  lemma {:induction false} InOutGroupsGrow(h: Hub, source: Addr, inOut: byte, gs: seq<Addr>)
    requires source in h.clients
    ensures var r := InOutGroups(h, source, inOut, gs); Grows(h.clients, r.clients) && SameConns(h.clients, r.clients)
  {
    hide Grows, SameConns, InOutGroup;
    NothingGrows(h.clients);
    if gs != [] {
      var n := |gs| - 1;
      InOutGroupsGrow(h, source, inOut, gs[..n]);
      var h1 := InOutGroups(h, source, inOut, gs[..n]);
      InOutGroupGrows(h1, source, inOut, gs[n]);
      GrowsTransitive(h.clients, h1.clients, InOutGroup(h1, source, inOut, gs[n]).clients);
    }
  }

  lemma InOutGroupGrows(h: Hub, source: Addr, inOut: byte, g: Addr)
    requires source in h.clients
    ensures var r := InOutGroup(h, source, inOut, g); Grows(h.clients, r.clients) && SameConns(h.clients, r.clients)
  {
    hide Grows, SameConns;
    var c := h.clients[source];
    NothingGrows(h.clients);
    GroupsChange(h.clients, source, c.groups + {g});
    GroupsChange(h.clients, source, c.groups - {g});
  }

  lemma GroupsChange(m: map<Addr, Client>, a: Addr, gs: set<Addr>)
    requires a in m
    ensures var n := m[a := m[a].(groups := gs)]; Grows(m, n) && SameConns(m, n)
  {
  }

  lemma LogicGrows(h: Hub, env: Env)
    ensures var r := Logic(h, env); Grows(h.clients, r.clients) && SameConns(h.clients, r.clients)
  {
    hide Grows, SameConns, OfflineTargets, InOutGroups, WithSession;
    NothingGrows(h.clients);
    match env.msg.body
    case GroupInOut(inOut, gs) =>
      if env.msg.header.source in h.clients { InOutGroupsGrow(h, env.msg.header.source, inOut, gs); }
    case Loc(target, peer, inServer) =>
      WithSessionGrows(h.(location := h.location[peer := inServer]), target, peer, inServer);
    case Offline(gone, notice, ts) =>
      OfflineTargetsKeepClients(h.(location := h.location - {gone}), gone, notice, ts);
    case _ =>
  }

  lemma RelayedGrows(h: Hub, from: Addr, env: Env, resp: Option<nat>)
    ensures Grows(h.clients, Relayed(h, from, env, resp).clients)
  {
    hide Grows, SameConns, Record, Logic, Route, Type;
    RecordGrows(h, from, env.msg.header);
    var h1 := Record(h, from, env.msg.header);
    RouteKeys(h1, from, env);
    LogicGrows(h1, env);
    GrowsTransitive(h.clients, h1.clients, Logic(h1, env).clients);
  }

  ghost predicate Known(h: Hub, seen: set<Conn>) {
    forall a :: a in h.clients ==> h.clients[a].conn in seen
  }

  /** Connections that register are new ones. */
  ghost predicate AllNew(seen: set<Conn>, steps: seq<HubStep>)
    decreases |steps|
  {
    steps == []
    || ((steps[0].Take? && steps[0].p.content.AddClient? ==> steps[0].p.content.peer !in seen)
        && AllNew(SeenAfter(seen, steps[0]), steps[1..]))
  }

  /** This step asks to register a connection. */
  ghost predicate Registers(step: HubStep) {
    step.Take? && step.p.content.AddClient?
  }

  /** A connection is registered after a step only if it was before, or is the one just registering. */
  lemma StepConns(h: Hub, step: HubStep, a: Addr)
    ensures Registers(step) || Grows(h.clients, HubDo(h, step).clients)
    ensures var r := HubDo(h, step);
            a in r.clients ==>
              || (a in h.clients && r.clients[a].conn == h.clients[a].conn)
              || (Registers(step) && r.clients[a].conn == step.p.content.peer)
    ensures var r := HubDo(h, step);
            Registers(step) && a in r.clients && r.clients[a].conn != step.p.content.peer ==>
              a in h.clients && r.clients[a] == h.clients[a]
  {
    hide Grows, Handle, GroupStep;
    NothingGrows(h.clients);
    match step
    case Turn(g) => TurnFrame(h, g);
    case Take(p, ch) => PacketConns(h, p, ch, a);
  }

  lemma PacketConns(h: Hub, p: Packet, ch: Choice, a: Addr)
    ensures p.content.AddClient? || (Grows(h.clients, Handle(h, p, ch).clients)
                                     && (a in Handle(h, p, ch).clients ==>
                                           a in h.clients && Handle(h, p, ch).clients[a].conn == h.clients[a].conn))
    ensures p.content.AddClient? ==>
              Handle(h, p, ch).clients == h.clients[p.content.peer.addr := Client(p.content.peer, map[], {})]
  {
    hide Grows, Relayed, Register, Unregister;
    match p.content
    case AddClient(peer) => RegisterFrame(h, peer, ch.now);
    case DelClient(peer) =>
      UnregisterFrame(h, peer, ch);
      NothingGrows(h.clients);
      FewerGrow(h.clients, peer.addr);
    case RelayMessage(env) =>
      RelayedClients(h, p.from, env, p.resp);
      RelayedGrows(h, p.from, env, p.resp);
    case _ => NothingGrows(h.clients);
  }

  lemma TurnFrame(h: Hub, g: Addr)
    ensures GroupStep(h, g).clients == h.clients
  {
  }

  lemma FewerGrow(m: map<Addr, Client>, a: Addr)
    ensures Grows(m, m - {a})
  {
  }

  /** A connection that was seen and is not registered does not come back. */
  lemma {:induction false} NeverBack(h: Hub, seen: set<Conn>, steps: seq<HubStep>, a: Addr, c: Conn)
    requires Known(h, seen) && AllNew(seen, steps) && c in seen && !(a in h.clients && h.clients[a].conn == c)
    ensures var r := HubRun(h, steps); !(a in r.clients && r.clients[a].conn == c)
    decreases |steps|
  {
    hide HubDo, Grows;
    if steps != [] {
      forall b
        ensures b in HubDo(h, steps[0]).clients ==> HubDo(h, steps[0]).clients[b].conn in SeenAfter(seen, steps[0])
      {
        StepConns(h, steps[0], b);
      }
      StepConns(h, steps[0], a);
      NeverBack(HubDo(h, steps[0]), SeenAfter(seen, steps[0]), steps[1..], a, c);
    }
  }

  /**
   * Over any run, as long as a connection stays registered its sessions only grow, and the server a session was first
   * heard through is never updated, whatever Offline messages arrive.
   */
  lemma {:induction false} SessionsOnlyGrow(h: Hub, seen: set<Conn>, steps: seq<HubStep>, a: Addr)
    requires Known(h, seen) && AllNew(seen, steps) && a in h.clients
    ensures var r := HubRun(h, steps);
            a in r.clients && r.clients[a].conn == h.clients[a].conn ==> SubMap(h.clients[a].sessions, r.clients[a].sessions)
    decreases |steps|
  {
    hide HubDo, SubMap;
    var c := h.clients[a].conn;
    if steps == [] {
      SubMapSelf(h.clients[a].sessions);
    } else {
      var h1, seen1 := HubDo(h, steps[0]), SeenAfter(seen, steps[0]);
      forall b
        ensures b in h1.clients ==> h1.clients[b].conn in seen1
      {
        StepConns(h, steps[0], b);
      }
      StepConns(h, steps[0], a);
      if a in h1.clients && h1.clients[a].conn == c {
        SubMapSelf(h.clients[a].sessions);
        SessionsOnlyGrow(h1, seen1, steps[1..], a);
        var r := HubRun(h, steps);
        if a in r.clients && r.clients[a].conn == c {
          SubMapTransitive(h.clients[a].sessions, h1.clients[a].sessions, r.clients[a].sessions);
        }
      } else {
        NeverBack(h1, seen1, steps[1..], a, c);
      }
    }
  }

  lemma SubMapSelf(m: map<Addr, Addr>)
    ensures SubMap(m, m)
  {
  }
}
