/**
 * The hub as the source writes it: client peers and groups are objects, the handlers change maps in place. Each method
 * is proved to do what its function in HubModel says.
 */
module HubObjects {
  import opened Bytes
  import opened Addresses
  import opened Wire
  import M = HubModel
  import opened HubFacts

  type Conn = M.Conn
  type Env = M.Env

  class ClientPeer {
    const conn: Conn
    var sessions: map<Addr, Addr>
    var groups: set<Addr>

    function View(): M.Client
      reads this
    {
      M.Client(conn, sessions, groups)
    }

    constructor (conn: Conn)
      ensures View() == M.Client(conn, map[], {})
    {
      this.conn := conn;
      sessions, groups := map[], {};
    }

    method AddSession(peer: Addr, server: Addr) returns (added: bool)
      modifies this
      ensures View() == M.AddSession(old(View()), peer, server)
      ensures added <==> peer !in old(sessions)
    {
      if peer in sessions {
        return false;
      }
      sessions := sessions[peer := server];
      added := true;
    }

    method DelSession(peer: Addr) returns (deleted: bool)
      modifies this
      ensures View() == M.DelSession(old(View()), peer)
      ensures deleted <==> peer !in old(sessions)
    {
      if peer in sessions {
        return false;
      }
      sessions := sessions - {peer};
      deleted := true;
    }

    /** The loop walks the sessions in some order; peers without a session are not in it. */
    method GetAllSessionServers(order: seq<Addr>) returns (servers: map<Addr, seq<Addr>>)
      ensures servers == M.SessionServers(sessions, order)
    {
      servers := map[];
      for i := 0 to |order|
        invariant servers == M.SessionServers(sessions, order[..i])
      {
        assert order[..i + 1][..i] == order[..i];
        if order[i] in sessions {
          var server := sessions[order[i]];
          if server !in servers {
            servers := servers[server := []];
          }
          servers := servers[server := servers[server] + [order[i]]];
        }
      }
      assert order[..|order|] == order;
    }
  }

  class Group {
    const addr: Addr
    var members: map<Addr, Conn>
    var memCount: int
    var packet: seq<M.GroupPacket>
    var fanout: seq<M.Push>

    function View(): M.Group
      reads this
    {
      M.Group(members, memCount, packet, fanout)
    }

    /** NewGroup. */
    constructor (addr: Addr)
      ensures View() == M.Group(map[], 0, [], []) && this.addr == addr
    {
      this.addr := addr;
      members, memCount, packet, fanout := map[], 0, [], [];
    }

    method Send(p: M.GroupPacket)
      modifies this
      ensures View() == old(View()).(queue := old(packet) + [p])
    {
      packet := packet + [p];
    }

    /** One turn of the loop. */
    method Turn()
      requires packet != []
      modifies this
      ensures View() == M.TakeGroupPacket(old(View()))
    {
      var p := packet[0];
      packet := packet[1..];
      if p.Post? {
        var pushed: set<Conn>, rest := {}, members.Keys;
        while rest != {}
          invariant rest <= members.Keys
          invariant pushed == set a | a in members && a !in rest :: members[a]
          decreases |rest|
        {
          var a :| a in rest;
          ghost var before := rest;
          rest := rest - {a};
          assert forall b :: b in members && b !in rest <==> (b in members && b !in before) || b == a;
          pushed := pushed + {members[a]};
        }
        assert pushed == members.Values;
        fanout := fanout + [M.Push(pushed, p.env)];
      } else {
        if p.Join? {
          members := members[p.peer.addr := p.peer];
          memCount := memCount + 1;
        } else {
          members := members - {p.peer.addr};
          memCount := memCount - 1;
        }
      }
    }
  }

  class Hub {
    const self: Addr
    var clientPeers: map<Addr, ClientPeer>
    var serverPeers: map<Addr, seq<Env>>
    var location: map<Addr, Addr>
    var groups: map<Addr, Group>
    var pushes: seq<M.Push>
    var packetQueue: seq<M.Packet>
    var replies: seq<M.Reply>
    var crashed: bool

    ghost function Clients(): map<Addr, M.Client>
      reads this`clientPeers, clientPeers.Values
    {
      ClientsOf(clientPeers)
    }

    ghost function Groups(): map<Addr, M.Group>
      reads this`groups, groups.Values
    {
      GroupsOf(groups)
    }

    static ghost function ClientsOf(peers: map<Addr, ClientPeer>): (m: map<Addr, M.Client>)
      reads peers.Values
      ensures m.Keys == peers.Keys && forall a :: a in peers ==> m[a] == peers[a].View()
      decreases peers.Keys
    {
      if peers == map[] then map[]
      else
        var a :| a in peers;
        ClientsOf(peers - {a})[a := peers[a].View()]
    }

    static ghost function GroupsOf(gs: map<Addr, Group>): (m: map<Addr, M.Group>)
      reads gs.Values
      ensures m.Keys == gs.Keys && forall g :: g in gs ==> m[g] == gs[g].View()
      decreases gs.Keys
    {
      if gs == map[] then map[]
      else
        var g :| g in gs;
        GroupsOf(gs - {g})[g := gs[g].View()]
    }

    ghost function View(): M.Hub
      reads this, clientPeers.Values, groups.Values
    {
      M.Hub(self, Clients(), serverPeers, location, Groups(), pushes, packetQueue, replies, crashed)
    }

    /** Every object is filed under its own address, so no two entries share one. */
    predicate Valid()
      reads this`clientPeers, this`groups
    {
      && (forall a :: a in clientPeers ==> clientPeers[a].conn.addr == a)
      && (forall g :: g in groups ==> groups[g].addr == g)
    }

    lemma ViewClients()
      ensures View().clients.Keys == clientPeers.Keys
      ensures forall a :: a in clientPeers ==> View().clients[a] == clientPeers[a].View()
    {
      hide ClientsOf, GroupsOf;
    }

    lemma ViewGroups()
      ensures View().groups.Keys == groups.Keys && |View().groups| == |groups|
      ensures forall g :: g in groups ==> View().groups[g] == groups[g].View()
    {
      hide ClientsOf, GroupsOf;
      assert View().groups.Keys == groups.Keys;
    }

    constructor (self: Addr)
      ensures Valid() && View() == M.Hub(self, map[], map[], map[], map[], [], [], [], false)
    {
      this.self := self;
      clientPeers, serverPeers, location, groups := map[], map[], map[], map[];
      pushes, packetQueue, replies, crashed := [], [], [], false;
    }

    // ------------------------------------------------------------ sending

    method PushServer(server: Addr, env: Env)
      modifies this`serverPeers
      ensures View() == M.PushLink(old(View()), server, env)
    {
      hide ClientsOf, GroupsOf;
      if server in serverPeers {
        serverPeers := serverPeers[server := serverPeers[server] + [env]];
      }
    }

    method Broadcast(env: Env)
      modifies this`serverPeers
      ensures View() == M.Broadcast(old(View()), env)
    {
      BroadcastLinks(View(), env);
      hide Clients, Groups, M.Broadcast;
      var rest := serverPeers.Keys;
      while rest != {}
        invariant rest <= serverPeers.Keys == old(serverPeers).Keys
        invariant forall s :: s in serverPeers ==>
                    serverPeers[s] == old(serverPeers)[s] + (if s in rest then [] else [env])
        decreases |rest|
      {
        var s :| s in rest;
        serverPeers := serverPeers[s := serverPeers[s] + [env]];
        rest := rest - {s};
      }
      assert serverPeers == M.Broadcast(old(View()), env).links;
    }

    method PushClient(peer: ClientPeer, env: Env)
      modifies this`pushes
      ensures View() == M.PushClients(old(View()), {peer.conn}, env)
    {
      hide ClientsOf, GroupsOf;
      pushes := pushes + [M.Push({peer.conn}, env)];
    }

    method SendToDomain(dest: Addr, env: Env)
      modifies this`pushes
      ensures View() == M.PushClients(old(View()), M.DomainConns(old(View()), dest), env)
    {
      var hit := ConnsOf(dest);
      hide M.DomainConns, Clients, Groups;
      pushes := pushes + [M.Push(hit, env)];
    }

    /** The loop over all clients that picks those of the domain. */
    method ConnsOf(dest: Addr) returns (hit: set<Conn>)
      ensures hit == M.DomainConns(View(), dest)
    {
      ViewClients();
      hide Clients, Groups, View;
      hit := {};
      var rest := clientPeers.Keys;
      while rest != {}
        invariant rest <= clientPeers.Keys
        invariant hit == set a | a in clientPeers && a !in rest && Domain(a) == Domain(dest) :: clientPeers[a].conn
        decreases |rest|
      {
        var a :| a in rest;
        ghost var before := rest;
        rest := rest - {a};
        assert forall b :: b in clientPeers && b !in rest <==> (b in clientPeers && b !in before) || b == a;
        if Domain(a) == Domain(dest) {
          hit := hit + {clientPeers[a].conn};
        }
      }
      assert hit == M.DomainConns(View(), dest);
    }

    method Answer(resp: Option<nat>, status: byte, notFound: bool)
      modifies this`replies
      ensures View() == M.Answer(old(View()), resp, status, notFound)
    {
      hide ClientsOf, GroupsOf;
      if resp.Some? {
        replies := replies + [M.Reply(resp.value, status, notFound)];
      }
    }

    // ------------------------------------------------------ record keeping

    method AddSessionTo(at: Addr, peer: Addr, server: Addr)
      requires Valid()
      modifies clientPeers.Values
      ensures View() == M.WithSession(old(View()), at, peer, server)
    {
      hide ClientsOf, GroupsOf;
      if at in clientPeers {
        var _ := clientPeers[at].AddSession(peer, server);
        assert Clients() == M.WithSession(old(View()), at, peer, server).clients;
      }
    }

    method RecordSession(from: Addr, header: Header)
      requires Valid()
      modifies clientPeers.Values
      ensures View() == M.RecordSession(old(View()), from, header)
    {
      hide ClientsOf, GroupsOf;
      hide M.WithSession;
      if Type(header.source) == ADDR_CLIENT {
        AddSessionTo(header.source, header.dest, self);
      }
      if Type(header.dest) != ADDR_CLIENT {
        return;
      }
      if Type(from) == ADDR_CLIENT {
        AddSessionTo(header.dest, header.source, self);
      } else {
        AddSessionTo(header.dest, header.source, from);
      }
    }

    method RecordLocation(from: Addr, header: Header)
      modifies this`location, this`serverPeers
      ensures View() == M.RecordLocation(old(View()), from, header)
    {
      hide ClientsOf, GroupsOf;
      if header.source in location {
        return;
      }
      location := location[header.source := from];
      if header.dest in clientPeers {
        PushServer(from, M.System(self, from, Loc(header.source, header.dest, self)));
      }
    }

    // --------------------------------------------------------- registration

    method File(peer: ClientPeer)
      requires Valid() && peer.sessions == map[] && peer.groups == {}
      modifies this`clientPeers
      ensures Valid()
      ensures View() == old(View()).(clients := old(Clients())[peer.conn.addr := M.Client(peer.conn, map[], {})])
    {
      hide ClientsOf, GroupsOf;
      clientPeers := clientPeers[peer.conn.addr := peer];
      assert Clients() == old(Clients())[peer.conn.addr := M.Client(peer.conn, map[], {})];
    }

    method HandleClientPeerRegistPacket(peer: ClientPeer, now: uint64, resp: Option<nat>)
      requires Valid() && peer.sessions == map[] && peer.groups == {}
      modifies this
      ensures Valid()
      ensures View() == M.Answer(M.Register(old(View()), peer.conn, now), resp, STATUS_OK, false)
    {
      hide ClientsOf, GroupsOf;
      hide M.Broadcast, M.PushClients, M.Answer, M.System;
      var addr := peer.conn.addr;
      var kill := M.System(addr, addr, Kill(now));
      if addr in clientPeers {
        PushClient(clientPeers[addr], kill);
      }
      Broadcast(kill);
      File(peer);
      Answer(resp, STATUS_OK, false);
    }

    /** One packet into the channel of a group. */
    method SendTo(g: Addr, p: M.GroupPacket)
      requires Valid() && g in groups
      modifies groups[g]
      ensures View() == Sent(old(View()), g, p)
    {
      hide ClientsOf, GroupsOf, Clients;
      groups[g].Send(p);
      assert Groups() == Sent(old(View()), g, p).groups;
    }

    static ghost function Sent(h: M.Hub, g: Addr, p: M.GroupPacket): M.Hub {
      if g in h.groups then h.(groups := h.groups[g := h.groups[g].(queue := h.groups[g].queue + [p])]) else h
    }

    /** Tell every group the client has recorded; the set is walked in any order. */
    method LeaveGroups(gs: set<Addr>, peer: Conn)
      requires Valid()
      modifies groups.Values
      ensures View() == M.LeaveGroups(old(View()), gs, peer)
    {
      hide ClientsOf, GroupsOf;
      hide Valid, View, Clients, Groups, Sent, M.LeaveGroups;
      ghost var h := View();
      NobodyTold(h, peer);
      assert gs - gs == {};
      var rest := gs;
      while rest != {}
        invariant Valid() && rest <= gs && groups == old(groups)
        invariant View() == M.LeaveGroups(h, gs - rest, peer)
        decreases |rest|
      {
        var g :| g in rest;
        TellGroup(g, peer);
        OneMoreTold(h, gs - rest, g, peer);
        assert gs - (rest - {g}) == gs - rest + {g};
        rest := rest - {g};
      }
      assert gs - {} == gs;
    }

    method TellGroup(g: Addr, peer: Conn)
      requires Valid()
      modifies groups.Values
      ensures View() == Sent(old(View()), g, M.Leave(peer))
    {
      hide ClientsOf, GroupsOf;
      ViewGroups();
      hide Valid, View;
      if g in groups {
        SendTo(g, M.Leave(peer));
      }
    }

    static lemma NobodyTold(h: M.Hub, peer: Conn)
      ensures M.LeaveGroups(h, {}, peer) == h
    {
      assert M.LeaveGroups(h, {}, peer).groups == h.groups;
    }

    static lemma OneMoreTold(h: M.Hub, gs: set<Addr>, g: Addr, peer: Conn)
      requires g !in gs
      ensures M.LeaveGroups(h, gs + {g}, peer) == Sent(M.LeaveGroups(h, gs, peer), g, M.Leave(peer))
    {
      assert M.LeaveGroups(h, gs + {g}, peer).groups == Sent(M.LeaveGroups(h, gs, peer), g, M.Leave(peer)).groups;
    }

    method SendOffline(server: Addr, targets: seq<Addr>, peer: Conn)
      modifies this`serverPeers, this`packetQueue
      ensures View() == M.SendOffline(old(View()), server, targets, peer)
    {
      hide ClientsOf, GroupsOf;
      var body := Offline(peer.addr, peer.notice, targets);
      if server in serverPeers {
        PushServer(server, M.System(self, server, body));
      } else {
        packetQueue := packetQueue + [M.Packet(self, M.RelayMessage(M.System(self, self, body)), None)];
      }
    }

    method SendOfflines(order: seq<Addr>, servers: map<Addr, seq<Addr>>, peer: Conn)
      modifies this`serverPeers, this`packetQueue
      ensures View() == M.SendOfflines(old(View()), order, servers, peer)
    {
      hide ClientsOf, GroupsOf;
      hide M.SendOffline;
      for i := 0 to |order|
        invariant View() == M.SendOfflines(old(View()), order[..i], servers, peer)
      {
        assert order[..i + 1][..i] == order[..i];
        if order[i] in servers {
          SendOffline(order[i], servers[order[i]], peer);
        }
      }
      assert order[..|order|] == order;
    }

    method Remove(addr: Addr)
      requires Valid() && addr in clientPeers
      modifies this`clientPeers
      ensures Valid() && View() == old(View()).(clients := old(View()).clients - {addr})
    {
      hide ClientsOf, GroupsOf;
      clientPeers := clientPeers - {addr};
      assert Clients() == old(Clients()) - {addr};
    }

    /** The live connection of a client ends: it leaves the table and its groups. */
    method Withdraw(peer: Conn) returns (alivePeer: ClientPeer)
      requires Valid() && peer.addr in clientPeers && peer.addr in View().clients
      modifies this`clientPeers, groups.Values
      ensures Valid()
      ensures var h := old(View());
              && alivePeer.View() == h.clients[peer.addr]
              && View() == M.LeaveGroups(h.(clients := h.clients - {peer.addr}), h.clients[peer.addr].groups, peer)
    {
      hide ClientsOf, GroupsOf;
      alivePeer := clientPeers[peer.addr];
      assert View().clients[peer.addr] == alivePeer.View() by { ViewClients(); }
      hide M.LeaveGroups, View, Clients, Groups, Valid;
      Remove(peer.addr);
      LeaveGroups(alivePeer.groups, peer);
    }

    /** The servers of its sessions are told. */
    method TellServers(alivePeer: ClientPeer, peer: Conn, ch: M.Choice)
      modifies this`serverPeers, this`packetQueue
      ensures View() == M.SendOfflines(old(View()), ch.serverOrder, M.SessionServers(alivePeer.sessions, ch.sessionOrder), peer)
    {
      hide ClientsOf, GroupsOf;
      hide M.SendOfflines, M.SessionServers, View;
      var servers := alivePeer.GetAllSessionServers(ch.sessionOrder);
      SendOfflines(ch.serverOrder, servers, peer);
    }

    method HandleClientPeerUnregistPacket(peer: Conn, ch: M.Choice, resp: Option<nat>)
      requires Valid()
      modifies this, groups.Values
      ensures Valid()
      ensures View() == M.Answer(M.Unregister(old(View()), peer, ch), resp, STATUS_OK, false)
    {
      hide ClientsOf, GroupsOf;
      ViewClients();
      hide M.LeaveGroups, M.SendOfflines, M.SessionServers, M.Answer, View;
      if peer.addr in clientPeers {
        if clientPeers[peer.addr].conn.remote != peer.remote {
          Answer(resp, STATUS_OK, false);
          return;
        }
        var alivePeer := Withdraw(peer);
        TellServers(alivePeer, peer, ch);
      }
      Answer(resp, STATUS_OK, false);
    }

    // ------------------------------------------------------------- messages

    method PostGroup(g: Addr, env: Env)
      requires Valid()
      modifies groups.Values
      ensures View() == M.PostGroup(old(View()), g, env)
    {
      hide ClientsOf, GroupsOf, Clients;
      if g in groups {
        groups[g].Send(M.Post(env));
        assert Groups() == M.PostGroup(old(View()), g, env).groups;
      }
    }

    /** A message to a client: here if it is registered here; otherwise, unless it came through a server, on to where it may be. */
    method RouteToClient(from: Addr, env: Env)
      requires Type(env.msg.header.dest) == ADDR_CLIENT
      modifies this`pushes, this`serverPeers
      ensures View() == M.Route(old(View()), from, env)
    {
      ViewClients();
      assert View().location == location;
      hide M.PushLink, M.Broadcast, M.PushClients, View, Clients, Groups, Type;
      var dest := env.msg.header.dest;
      if dest in clientPeers {
        PushClient(clientPeers[dest], env);
        return;
      }
      if Type(from) == ADDR_SERVER {
        return;
      }
      if dest !in location {
        Broadcast(env);
      } else {
        PushServer(location[dest], env);
      }
    }

    /** Any other message: on to every server if it came from a client, and to the group or domain here. */
    method RouteToMany(from: Addr, env: Env)
      requires Valid() && Type(env.msg.header.dest) != ADDR_CLIENT
      modifies this`pushes, this`serverPeers, groups.Values
      ensures View() == M.Route(old(View()), from, env)
    {
      hide M.DomainConns, M.PostGroup, M.Broadcast, M.PushClients, View, Clients, Groups, Type;
      var dest := env.msg.header.dest;
      if Type(from) == ADDR_CLIENT {
        Broadcast(env);
      }
      if Type(dest) == ADDR_GROUP {
        PostGroup(dest, env);
      } else if Type(dest) == ADDR_BROADCAST {
        SendToDomain(dest, env);
      }
    }

    method HandleRelayPacket(from: Addr, env: Env, resp: Option<nat>)
      requires Valid()
      modifies this, groups.Values
      ensures Valid()
      ensures View() == M.RelayPacket(old(View()), from, env, resp)
    {
      ViewClients();
      hide M.Route, M.Answer, View, Clients, Groups, Type;
      var dest := env.msg.header.dest;
      var notFound := Type(dest) == ADDR_CLIENT && dest !in clientPeers;
      if Type(dest) == ADDR_CLIENT {
        RouteToClient(from, env);
      } else {
        RouteToMany(from, env);
      }
      Answer(resp, STATUS_OK, notFound);
    }

    // ------------------------------------------------------ logic messages

    /** The source's `if _, ok := h.groups[group]; !ok`: a group not there yet is made. */
    method NeedGroup(g: Addr)
      requires Valid()
      modifies this`groups
      ensures Valid() && g in groups
      ensures forall k :: k in groups ==> (k in old(groups) && groups[k] == old(groups)[k]) || fresh(groups[k])
      ensures View() == WithGroup(old(View()), g)
    {
      hide ClientsOf, GroupsOf, Clients;
      if g !in groups {
        var made := new Group(g);
        groups := groups[g := made];
        assert Groups() == old(Groups())[g := M.Group(map[], 0, [], [])];
      }
    }

    static ghost function WithGroup(h: M.Hub, g: Addr): M.Hub {
      if g in h.groups then h else h.(groups := h.groups[g := M.Group(map[], 0, [], [])])
    }

    method Note(source: Addr, gs: set<Addr>)
      requires Valid() && source in clientPeers
      modifies clientPeers.Values
      ensures View() == Noted(old(View()), source, gs)
    {
      hide ClientsOf, GroupsOf;
      clientPeers[source].groups := gs;
      assert Clients() == Noted(old(View()), source, gs).clients;
    }

    static ghost function Noted(h: M.Hub, source: Addr, gs: set<Addr>): M.Hub {
      if source in h.clients then h.(clients := h.clients[source := h.clients[source].(groups := gs)]) else h
    }

    static lemma JoinParts(h: M.Hub, source: Addr, g: Addr)
      requires source in h.clients
      ensures var c := h.clients[source];
              M.JoinGroup(h, source, g) == Sent(WithGroup(Noted(h, source, c.groups + {g}), g), g, M.Join(c.conn))
    {
    }

    method JoinGroup(source: Addr, g: Addr)
      requires Valid() && source in clientPeers
      modifies this`groups, clientPeers.Values, groups.Values
      ensures Valid()
      ensures forall k :: k in groups ==> (k in old(groups) && groups[k] == old(groups)[k]) || fresh(groups[k])
      ensures View() == M.JoinGroup(old(View()), source, g)
    {
      hide ClientsOf, GroupsOf;
      ViewClients();
      JoinParts(View(), source, g);
      hide Valid, View, Clients, Groups, Sent, WithGroup, Noted, M.JoinGroup;
      var peer := clientPeers[source];
      Note(source, peer.groups + {g});
      SendJoin(g, peer.conn);
    }

    method SendJoin(g: Addr, peer: Conn)
      requires Valid()
      modifies this`groups, groups.Values
      ensures Valid()
      ensures forall k :: k in groups ==> (k in old(groups) && groups[k] == old(groups)[k]) || fresh(groups[k])
      ensures View() == Sent(WithGroup(old(View()), g), g, M.Join(peer))
    {
      hide ClientsOf, GroupsOf;
      hide Valid, View, Clients, Groups, Sent, WithGroup;
      NeedGroup(g);
      SendTo(g, M.Join(peer));
    }

    method LeaveGroup(source: Addr, g: Addr)
      requires Valid() && source in clientPeers
      modifies this`groups, clientPeers.Values, groups.Values
      ensures Valid() && forall k :: k in groups ==> k in old(groups) && groups[k] == old(groups)[k]
      ensures View() == M.LeaveGroup(old(View()), source, g)
    {
      hide ClientsOf, GroupsOf;
      ViewClients();
      ViewGroups();
      hide Valid, View;
      var peer := clientPeers[source];
      Note(source, peer.groups - {g});
      if g in groups {
        if groups[g].memCount == 0 && |groups| > M.CLEAN_LIMIT {
          Forget(g);
        } else {
          SendTo(g, M.Leave(peer.conn));
        }
      }
    }

    /** The group's loop is told to exit and the group is dropped; what its channel still held is lost. */
    method Forget(g: Addr)
      requires Valid()
      modifies this`groups
      ensures Valid() && forall k :: k in groups ==> k in old(groups) && groups[k] == old(groups)[k]
      ensures View() == old(View()).(groups := old(View()).groups - {g})
    {
      hide ClientsOf, GroupsOf;
      groups := groups - {g};
      assert Groups() == old(Groups()) - {g};
    }

    method InOutGroups(source: Addr, inOut: byte, gs: seq<Addr>)
      requires Valid() && source in clientPeers
      modifies this`groups, clientPeers.Values, groups.Values
      ensures Valid()
      ensures View() == M.InOutGroups(old(View()), source, inOut, gs)
    {
      hide ClientsOf, GroupsOf;
      hide M.JoinGroup, M.LeaveGroup;
      for i := 0 to |gs|
        invariant Valid() && clientPeers == old(clientPeers)
        invariant forall k :: k in groups ==> (k in old(groups) && groups[k] == old(groups)[k]) || fresh(groups[k])
        invariant View() == M.InOutGroups(old(View()), source, inOut, gs[..i])
      {
        assert gs[..i + 1][..i] == gs[..i];
        if inOut == GROUP_IN {
          JoinGroup(source, gs[i]);
        } else if inOut == GROUP_OUT {
          LeaveGroup(source, gs[i]);
        }
      }
      assert gs[..|gs|] == gs;
    }

    method OfflineTarget(gone: Addr, notice: byte, t: Addr)
      requires Valid()
      modifies clientPeers.Values, this`pushes
      ensures View() == M.OfflineTarget(old(View()), gone, notice, t)
    {
      hide ClientsOf, GroupsOf;
      if t !in clientPeers {
        return;
      }
      var _ := clientPeers[t].DelSession(gone);
      assert Clients() == old(Clients())[t := M.DelSession(old(Clients())[t], gone)];
      if notice == 1 {
        PushClient(clientPeers[t], M.System(ZERO_ADDR, t, OfflineNotice(gone)));
      }
    }

    method OfflineTargets(gone: Addr, notice: byte, ts: seq<Addr>)
      requires Valid()
      modifies clientPeers.Values, this`pushes
      ensures View() == M.OfflineTargets(old(View()), gone, notice, ts)
    {
      hide ClientsOf, GroupsOf;
      hide M.OfflineTarget;
      for i := 0 to |ts|
        invariant View() == M.OfflineTargets(old(View()), gone, notice, ts[..i])
      {
        assert ts[..i + 1][..i] == ts[..i];
        OfflineTarget(gone, notice, ts[i]);
      }
      assert ts[..|ts|] == ts;
    }

    method HandleLoc(target: Addr, peer: Addr, inServer: Addr)
      requires Valid()
      modifies this`location, this`crashed, clientPeers.Values
      ensures var h1 := old(View()).(location := old(View()).location[peer := inServer]);
              View() == if target in h1.clients then M.WithSession(h1, target, peer, inServer) else h1.(crashed := true)
    {
      ViewClients();
      hide M.WithSession, Valid, Clients, Groups;
      location := location[peer := inServer];
      if target in clientPeers {
        AddSessionTo(target, peer, inServer);
      } else {
        crashed := true;
      }
    }

    method HandleOffline(gone: Addr, notice: byte, targets: seq<Addr>)
      requires Valid()
      modifies this`location, this`pushes, clientPeers.Values
      ensures View() == M.OfflineTargets(old(View()).(location := old(View()).location - {gone}), gone, notice, targets)
    {
      hide M.OfflineTargets, Valid, Clients, Groups;
      location := location - {gone};
      OfflineTargets(gone, notice, targets);
    }

    method HandleGroupInOut(source: Addr, inOut: byte, gs: seq<Addr>)
      requires Valid()
      modifies this`groups, clientPeers.Values, groups.Values
      ensures Valid()
      ensures View() == if source in old(View()).clients then M.InOutGroups(old(View()), source, inOut, gs) else old(View())
    {
      ViewClients();
      hide M.InOutGroups, View, Clients, Groups, Valid;
      if source in clientPeers {
        InOutGroups(source, inOut, gs);
      }
    }

    method Logic(env: Env)
      requires Valid()
      modifies this`location, this`crashed, this`pushes, this`groups, clientPeers.Values, groups.Values
      ensures Valid()
      ensures View() == M.Logic(old(View()), env)
    {
      hide M.OfflineTargets, M.InOutGroups, M.WithSession, View, Clients, Groups;
      match env.msg.body
      case GroupInOut(inOut, gs) => HandleGroupInOut(env.msg.header.source, inOut, gs);
      case Loc(target, peer, inServer) => HandleLoc(target, peer, inServer);
      case Offline(gone, notice, targets) => HandleOffline(gone, notice, targets);
      case _ =>
    }

    method HandleLogicPacket(env: Env, resp: Option<nat>)
      requires Valid()
      modifies this, clientPeers.Values, groups.Values
      ensures Valid()
      ensures View() == M.LogicPacket(old(View()), env, resp)
    {
      hide ClientsOf, GroupsOf;
      hide M.Logic, M.Answer;
      var notFound := env.msg.body.GroupInOut? && env.msg.header.source !in clientPeers;
      Logic(env);
      Answer(resp, STATUS_OK, notFound);
    }

    // ------------------------------------------------------- packetHandler

    method RecordMessage(from: Addr, header: Header)
      requires Valid()
      modifies this`location, this`serverPeers, clientPeers.Values
      ensures View() == M.Record(old(View()), from, header)
    {
      hide ClientsOf, GroupsOf;
      hide M.RecordSession, M.RecordLocation, Type;
      RecordSession(from, header);
      if Type(from) == ADDR_SERVER && Type(header.source) == ADDR_CLIENT {
        RecordLocation(from, header);
      }
    }

    method HandleRelayed(from: Addr, env: Env, resp: Option<nat>)
      requires Valid()
      modifies this, clientPeers.Values, groups.Values
      ensures Valid()
      ensures View() == M.Relayed(old(View()), from, env, resp)
    {
      hide ClientsOf, GroupsOf;
      hide M.Record, M.LogicPacket, M.RelayPacket;
      RecordMessage(from, env.msg.header);
      if env.msg.header.dest == self {
        HandleLogicPacket(env, resp);
      } else {
        HandleRelayPacket(from, env, resp);
      }
    }

    /** The server has a peer from now on, with nothing pushed to it yet; every other server keeps its own. */
    method HandleServerPeerRegistPacket(server: Addr, resp: Option<nat>)
      modifies this`serverPeers, this`replies
      ensures server in serverPeers && serverPeers[server] == []
      ensures serverPeers.Keys == old(serverPeers).Keys + {server}
      ensures forall s :: s in old(serverPeers) && s != server ==> serverPeers[s] == old(serverPeers)[s]
      ensures View() == M.Answer(old(View()).(links := serverPeers), resp, STATUS_OK, false)
    {
      hide ClientsOf, GroupsOf;
      hide M.Answer, Clients, Groups;
      serverPeers := serverPeers[server := []];
      Answer(resp, STATUS_OK, false);
    }

    /** The server has no peer any more, and what was pushed to it and not yet sent is lost; every other server keeps its own. */
    method HandleServerPeerUnregistPacket(server: Addr, resp: Option<nat>)
      modifies this`serverPeers, this`replies
      ensures server !in serverPeers
      ensures serverPeers.Keys == old(serverPeers).Keys - {server}
      ensures forall s :: s in serverPeers ==> serverPeers[s] == old(serverPeers)[s]
      ensures View() == M.Answer(old(View()).(links := serverPeers), resp, STATUS_OK, false)
    {
      hide ClientsOf, GroupsOf;
      hide M.Answer, Clients, Groups;
      serverPeers := serverPeers - {server};
      Answer(resp, STATUS_OK, false);
    }

    /** One packet off the relay channel, switched on its use. */
    method HandlePacket(p: M.Packet, ch: M.Choice)
      requires Valid()
      modifies this, clientPeers.Values, groups.Values
      ensures Valid()
      ensures View() == M.Handle(old(View()), p, ch)
    {
      hide ClientsOf, GroupsOf;
      if p.content.RelayMessage? {
        hide M.Relayed, View, Valid;
        HandleRelayed(p.from, p.content.env, p.resp);
      } else {
        HandleRegistration(p, ch);
      }
    }

    /** The four other uses. */
    method HandleRegistration(p: M.Packet, ch: M.Choice)
      requires Valid() && !p.content.RelayMessage?
      modifies this, groups.Values
      ensures Valid()
      ensures View() == M.Handle(old(View()), p, ch)
    {
      hide ClientsOf, GroupsOf;
      if p.content.AddClient? || p.content.DelClient? {
        hide M.Register, M.Unregister, M.Answer, View, Valid, Clients, Groups;
        HandleClientPacket(p, ch);
      } else {
        hide M.Answer, Clients, Groups;
        HandleServerPacket(p);
        assert M.Handle(old(View()), p, ch) == View();
      }
    }

    /** A client that registers brings its new peer object. */
    method HandleClientPacket(p: M.Packet, ch: M.Choice)
      requires Valid() && (p.content.AddClient? || p.content.DelClient?)
      modifies this, groups.Values
      ensures Valid()
      ensures View() == M.Handle(old(View()), p, ch)
    {
      hide ClientsOf, GroupsOf;
      hide M.Register, M.Unregister, M.Answer, View, Valid, Clients, Groups;
      match p.content
      case AddClient(conn) =>
        var peer := new ClientPeer(conn);
        HandleClientPeerRegistPacket(peer, ch.now, p.resp);
      case DelClient(conn) => HandleClientPeerUnregistPacket(conn, ch, p.resp);
    }

    method HandleServerPacket(p: M.Packet)
      requires Valid() && (p.content.AddServer? || p.content.DelServer?)
      modifies this`serverPeers, this`replies
      ensures Valid()
      ensures View() == M.Answer(old(View()).(links := if p.content.AddServer? then old(serverPeers)[p.content.server := []]
                                                      else old(serverPeers) - {p.content.server}),
                                 p.resp, STATUS_OK, false)
    {
      hide ClientsOf, GroupsOf;
      hide M.Answer, Clients, Groups, Valid;
      ghost var was := serverPeers;
      match p.content
      case AddServer(server) =>
        HandleServerPeerRegistPacket(server, p.resp);
        assert serverPeers == was[server := []];
      case DelServer(server) =>
        HandleServerPeerUnregistPacket(server, p.resp);
        assert serverPeers == was - {server};
    }

    /** The loop of a group takes its next packet. */
    method GroupTurn(g: Addr)
      requires Valid()
      modifies groups.Values
      ensures View() == M.GroupStep(old(View()), g)
    {
      hide ClientsOf, GroupsOf;
      hide M.TakeGroupPacket;
      if g in groups {
        assert groups[g].View() == Groups()[g];
        if groups[g].packet != [] {
          groups[g].Turn();
          assert Groups() == M.GroupStep(old(View()), g).groups;
        }
      }
    }
  }
}
