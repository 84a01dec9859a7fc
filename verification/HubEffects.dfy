/** What the commands a hub takes in do to its tables, and whom a message to a domain reaches. */
module HubEffects {
  import opened Bytes
  import opened Addresses
  import opened Wire
  import opened HubModel
  import opened HubFacts
  import C = Cluster

  // ---------------------------------------------------------------- Offline

  /** The targets registered here, in order. */
  ghost function RegisteredAmong(h: Hub, ts: seq<Addr>): seq<Addr> {
    if ts == [] then []
    else
      var n := |ts| - 1;
      RegisteredAmong(h, ts[..n]) + (if ts[n] in h.clients then [ts[n]] else [])
  }

  /** The notice one client is sent about another. */
  ghost function Notice(gone: Addr, to: Addr): Env {
    Env(0, 0, Message(Header(ZERO_ADDR, to, 0, 0, MSG_OFFLINE_NOTICE, 0), OfflineNotice(gone)))
  }

  /** One push for each of these, in order, to the connection registered under it. */
  ghost function Notices(h: Hub, gone: Addr, ts: seq<Addr>): seq<Push>
    requires forall t :: t in ts ==> t in h.clients
  {
    seq(|ts|, i requires 0 <= i < |ts| => Push({h.clients[ts[i]].conn}, Notice(gone, ts[i])))
  }

  lemma {:induction false} AmongRegistered(h: Hub, ts: seq<Addr>)
    ensures forall t :: t in RegisteredAmong(h, ts) <==> t in ts && t in h.clients
  {
    if ts != [] {
      AmongRegistered(h, ts[..|ts| - 1]);
      assert ts == ts[..|ts| - 1] + [ts[|ts| - 1]];
    }
  }

  /** One target: its table entry is the same as before, and it is pushed a notice if one was asked for. */
  lemma OneTargetTold(h: Hub, gone: Addr, notice: byte, t: Addr)
    ensures OfflineTarget(h, gone, notice, t)
         == if t in h.clients && notice == 1 then h.(pushes := h.pushes + [Push({h.clients[t].conn}, Notice(gone, t))]) else h
  {
    if t in h.clients {
      assert h.clients[t := DelSession(h.clients[t], gone)] == h.clients by { Unchanged(h.clients[t], gone); }
    }
  }

  lemma Unchanged(c: Client, peer: Addr)
    ensures DelSession(c, peer) == c
  {
    assert peer !in c.sessions ==> c.sessions - {peer} == c.sessions;
  }

  lemma {:induction false} TargetsTold(h: Hub, gone: Addr, notice: byte, ts: seq<Addr>)
    ensures forall t :: t in RegisteredAmong(h, ts) ==> t in h.clients
    ensures OfflineTargets(h, gone, notice, ts)
         == if notice == 1 then h.(pushes := h.pushes + Notices(h, gone, RegisteredAmong(h, ts))) else h
  {
    hide OfflineTarget, Notice;
    AmongRegistered(h, ts);
    if ts == [] {
      assert h.pushes + [] == h.pushes;
    } else {
      var n := |ts| - 1;
      TargetsTold(h, gone, notice, ts[..n]);
      OneTargetTold(OfflineTargets(h, gone, notice, ts[..n]), gone, notice, ts[n]);
      var before := RegisteredAmong(h, ts[..n]);
      if ts[n] in h.clients {
        assert Notices(h, gone, before + [ts[n]]) == Notices(h, gone, before) + [Push({h.clients[ts[n]].conn}, Notice(gone, ts[n]))];
      }
    }
  }

  /**
   * An Offline message for this hub: whatever the bookkeeping in front of it learnt about the sender, the location table loses
   * the client that left and nothing else; with notice 1 every target registered here is pushed one notice, in order, on the
   * connection it is registered with, and otherwise nobody is pushed anything; nobody's registration, sessions or groups change.
   */
  lemma OfflineTakenIn(h: Hub, from: Addr, header: Header, tag: nat, hops: nat, gone: Addr, notice: byte, ts: seq<Addr>,
                       resp: Option<nat>, ch: Choice)
    requires header.dest == h.self
    ensures var r := Handle(h, Packet(from, RelayMessage(Env(tag, hops, Message(header, Offline(gone, notice, ts)))), resp), ch);
            var known := if Learns(h, from, header) then h.location[header.source := from] else h.location;
            && r.location.Keys == known.Keys - {gone} && (forall c :: c in r.location ==> r.location[c] == known[c])
            && (forall t :: t in RegisteredAmong(h, ts) ==> t in h.clients)
            && r.pushes == h.pushes + (if notice == 1 then Notices(h, gone, RegisteredAmong(h, ts)) else [])
            && r.clients == RecordSession(h, from, header).clients
            && r.groups == h.groups
  {
    var env := Env(tag, hops, Message(header, Offline(gone, notice, ts)));
    AmongRegistered(h, ts);
    RecordFrame(h, from, header);
    RecordClients(h, from, header);
    var h1 := Record(h, from, header);
    var h2 := h1.(location := h1.location - {gone});
    TargetsTold(h2, gone, notice, ts);
    SameNotices(h, h2, gone, ts);
    hide Record, RecordSession, Learns, OfflineTargets, Notices, RegisteredAmong;
    assert h.pushes + [] == h.pushes;
  }

  lemma RecordClients(h: Hub, from: Addr, header: Header)
    ensures Record(h, from, header).clients == RecordSession(h, from, header).clients
  {
    hide RecordSession, RecordLocation, Type;
    RecordLocationFrame(RecordSession(h, from, header), from, header);
  }

  lemma {:induction false} SameNotices(h: Hub, h': Hub, gone: Addr, ts: seq<Addr>)
    requires SameConns(h.clients, h'.clients)
    ensures RegisteredAmong(h, ts) == RegisteredAmong(h', ts)
    ensures forall t :: t in RegisteredAmong(h, ts) ==> t in h.clients && t in h'.clients
    ensures Notices(h, gone, RegisteredAmong(h, ts)) == Notices(h', gone, RegisteredAmong(h', ts))
  {
    AmongRegistered(h, ts);
    AmongRegistered(h', ts);
    if ts != [] { SameNotices(h, h', gone, ts[..|ts| - 1]); }
  }

  /**
   * After an Offline message about a client, this hub no longer sends messages for it one way: the next one from a client
   * is put on every link, wherever the client went.
   */
  lemma OfflineReopensSearch(h: Hub, from: Addr, header: Header, gone: Addr, notice: byte, ts: seq<Addr>, ch: Choice,
                             sender: Addr, env: Env, resp: Option<nat>)
    requires header.dest == h.self && Type(h.self) == ADDR_SERVER && Type(sender) == Type(gone) == ADDR_CLIENT
    requires env.msg.header.dest == gone && gone !in h.clients
    ensures var r := Handle(h, Packet(from, RelayMessage(Env(0, 0, Message(header, Offline(gone, notice, ts)))), None), ch);
            var next := Handle(r, Packet(sender, RelayMessage(env), resp), ch);
            next.links.Keys == r.links.Keys == h.links.Keys && forall j :: j in next.links ==> next.links[j] == r.links[j] + [env]
  {
    var p := Packet(from, RelayMessage(Env(0, 0, Message(header, Offline(gone, notice, ts)))), None);
    OfflineTakenIn(h, from, header, 0, 0, gone, notice, ts, None, ch);
    RelayedClients(h, from, p.content.env, None);
    RelayedKeys(h, from, p.content.env, None);
    var r := Handle(h, p, ch);
    RelayedKeys(r, sender, env, resp);
    hide Relayed, Type;
    forall j | j in r.links
      ensures Handle(r, Packet(sender, RelayMessage(env), resp), ch).links[j] == r.links[j] + [env]
    {
      RelayedLink(r, sender, env, resp, j);
      assert [] + [env] == [env];
    }
  }

  // -------------------------------------------------------------- broadcast

  /** Every client is filed under its own address. */
  ghost predicate Filed(h: Hub) {
    forall a :: a in h.clients ==> h.clients[a].conn.addr == a
  }

  lemma SameDomain(a: Addr, b: Addr)
    ensures Domain(a) == Domain(b) <==> a[1..5] == b[1..5]
  {
    PutGet(a[1..5]);
    PutGet(b[1..5]);
  }

  /**
   * A message to a domain is pushed once, and that one round reaches exactly the clients registered here whose four domain
   * bytes are those of the destination.
   */
  lemma DomainIsReached(h: Hub, from: Addr, env: Env, resp: Option<nat>, ch: Choice)
    requires Filed(h) && Type(env.msg.header.dest) == ADDR_BROADCAST && env.msg.header.dest != h.self
    ensures var r := Handle(h, Packet(from, RelayMessage(env), resp), ch);
            && |r.pushes| == |h.pushes| + 1 && r.pushes[..|h.pushes|] == h.pushes
            && var push := r.pushes[|h.pushes|];
            && push.env == env
            && (forall a :: a in h.clients ==> (h.clients[a].conn in push.to <==> a[1..5] == env.msg.header.dest[1..5]))
            && (forall c :: c in push.to ==> c.addr in h.clients && h.clients[c.addr].conn == c)
  {
    var dest := env.msg.header.dest;
    RecordFrame(h, from, env.msg.header);
    var h1 := Record(h, from, env.msg.header);
    BroadcastLinks(h1, env);
    DomainMembers(h1, dest);
    hide Record, Broadcast, DomainConns;
    assert Handle(h, Packet(from, RelayMessage(env), resp), ch).pushes == h.pushes + [Push(DomainConns(h1, dest), env)];
  }

  lemma DomainMembers(h: Hub, dest: Addr)
    requires Filed(h)
    ensures forall a :: a in h.clients ==> (h.clients[a].conn in DomainConns(h, dest) <==> a[1..5] == dest[1..5])
    ensures forall c :: c in DomainConns(h, dest) ==> c.addr in h.clients && h.clients[c.addr].conn == c
  {
    hide Domain;
    forall a | a in h.clients
      ensures h.clients[a].conn in DomainConns(h, dest) <==> a[1..5] == dest[1..5]
    {
      SameDomain(a, dest);
    }
  }

  // --------------------------------------------------------- group commands

  ghost function Times(x: GroupPacket, n: nat): (q: seq<GroupPacket>)
    ensures |q| == n
  {
    seq(n, _ => x)
  }

  /** The group as it is, or as NewGroup makes it. */
  ghost function Was(h: Hub, g: Addr): Group {
    if g in h.groups then h.groups[g] else Group(map[], 0, [], [])
  }

  /** Each of these groups has had x put on its channel as often as it is listed; the others are as they were. */
  ghost predicate PutEach(h: Hub, r: Hub, x: GroupPacket, gs: seq<Addr>) {
    forall g :: g in r.groups ==> r.groups[g] == Was(h, g).(queue := Was(h, g).queue + Times(x, multiset(gs)[g]))
  }

  /** Only the groups recorded for one client differ, and they are these. */
  ghost predicate Recorded(h: Hub, r: Hub, source: Addr, groups: set<Addr>) {
    && source in h.clients
    && r.clients == h.clients[source := h.clients[source].(groups := groups)]
  }

  ghost function Listed(gs: seq<Addr>): set<Addr> {
    set g | g in gs
  }

  lemma PutOneMore(h: Hub, h1: Hub, r: Hub, x: GroupPacket, gs: seq<Addr>, g: Addr)
    requires PutEach(h, h1, x, gs) && forall k :: k in h.groups ==> k in h1.groups
    requires forall k :: k in r.groups && k != g ==> k in h1.groups && r.groups[k] == h1.groups[k]
    requires g in r.groups ==> (g in h1.groups || multiset(gs)[g] == 0) && r.groups[g] == Was(h1, g).(queue := Was(h1, g).queue + [x])
    ensures PutEach(h, r, x, gs + [g])
  {
    hide Times;
    forall k | k in r.groups
      ensures r.groups[k] == Was(h, k).(queue := Was(h, k).queue + Times(x, multiset(gs + [g])[k]))
    {
      CountedAgain(gs, g, k);
      TimesMore(Was(h, k).queue, x, multiset(gs)[k]);
      TimesNone(Was(h, k).queue, x);
    }
  }

  lemma CountedAgain(gs: seq<Addr>, g: Addr, k: Addr)
    ensures multiset(gs + [g])[k] == multiset(gs)[k] + if k == g then 1 else 0
  {
  }

  lemma TimesMore(q: seq<GroupPacket>, x: GroupPacket, n: nat)
    ensures (q + Times(x, n)) + [x] == q + Times(x, n + 1)
  {
  }

  lemma TimesNone(q: seq<GroupPacket>, x: GroupPacket)
    ensures q + Times(x, 0) == q
  {
  }

  lemma NobodyPut(h: Hub, x: GroupPacket)
    ensures PutEach(h, h, x, [])
  {
    hide Times;
    forall g | g in h.groups
      ensures h.groups[g].queue + Times(x, 0) == h.groups[g].queue
    {
      TimesNone(h.groups[g].queue, x);
    }
  }

  lemma RecordedAgain(h: Hub, h1: Hub, r: Hub, source: Addr, groups: set<Addr>, groups': set<Addr>)
    requires Recorded(h, h1, source, groups) && Recorded(h1, r, source, groups')
    ensures Recorded(h, r, source, groups')
  {
    assert h.clients[source := h1.clients[source]][source := r.clients[source]] == h.clients[source := r.clients[source]];
  }

  lemma RecordedAt(h: Hub, r: Hub, source: Addr, groups: set<Addr>)
    requires Recorded(h, r, source, groups)
    ensures source in r.clients && r.clients[source] == h.clients[source].(groups := groups)
  {
  }

  /** One group joined: recorded, made if it is new, and one Join on its channel. */
  lemma OneJoined(h: Hub, source: Addr, g: Addr)
    requires source in h.clients
    ensures var r := JoinGroup(h, source, g);
            && Recorded(h, r, source, h.clients[source].groups + {g})
            && r.groups.Keys == h.groups.Keys + {g}
            && (forall k :: k in r.groups && k != g ==> k in h.groups && r.groups[k] == h.groups[k])
            && r.groups[g] == Was(h, g).(queue := Was(h, g).queue + [Join(h.clients[source].conn)])
  {
  }

  lemma OneLeft(h: Hub, source: Addr, g: Addr)
    requires source in h.clients && |h.groups| <= 1000
    ensures var r := LeaveGroup(h, source, g);
            && Recorded(h, r, source, h.clients[source].groups - {g})
            && r.groups.Keys == h.groups.Keys
            && (forall k :: k in r.groups && k != g ==> r.groups[k] == h.groups[k])
            && (g in h.groups ==> r.groups[g] == Was(h, g).(queue := Was(h, g).queue + [Leave(h.clients[source].conn)]))
  {
  }

  lemma ListedSnoc(gs: seq<Addr>)
    requires gs != []
    ensures var n := |gs| - 1; gs == gs[..n] + [gs[n]] && Listed(gs) == Listed(gs[..n]) + {gs[n]}
    ensures var n := |gs| - 1; gs[n] !in Listed(gs[..n]) ==> multiset(gs[..n])[gs[n]] == 0
  {
  }

  lemma LastOne(h: Hub, source: Addr, inOut: byte, gs: seq<Addr>)
    requires source in h.clients && gs != []
    ensures var n := |gs| - 1; InOutGroups(h, source, inOut, gs) == InOutGroup(InOutGroups(h, source, inOut, gs[..n]), source, inOut, gs[n])
  {
    hide InOutGroup;
  }

  /** What joining all of these groups comes to. */
  ghost predicate JoinedTo(h: Hub, r: Hub, source: Addr, gs: seq<Addr>) {
    && source in h.clients
    && Recorded(h, r, source, h.clients[source].groups + Listed(gs))
    && r.groups.Keys == h.groups.Keys + Listed(gs)
    && PutEach(h, r, Join(h.clients[source].conn), gs)
  }

  lemma JoinedNothing(h: Hub, source: Addr)
    requires source in h.clients
    ensures JoinedTo(h, h, source, [])
  {
    hide PutEach;
    NobodyPut(h, Join(h.clients[source].conn));
    assert Listed([]) == {};
    assert h.clients[source].groups + {} == h.clients[source].groups;
    assert h.clients[source := h.clients[source]] == h.clients;
  }

  lemma JoinOneMore(h: Hub, h1: Hub, source: Addr, gs: seq<Addr>, g: Addr)
    requires JoinedTo(h, h1, source, gs) && source in h1.clients
    ensures JoinedTo(h, JoinGroup(h1, source, g), source, gs + [g])
  {
    hide JoinGroup, PutEach, Recorded, Was;
    var c := h.clients[source];
    var r := JoinGroup(h1, source, g);
    RecordedAt(h, h1, source, c.groups + Listed(gs));
    OneJoined(h1, source, g);
    ListedMore(gs, g);
    hide Listed;
    assert (c.groups + Listed(gs)) + {g} == c.groups + Listed(gs + [g]);
    RecordedAgain(h, h1, r, source, c.groups + Listed(gs), c.groups + Listed(gs + [g]));
    PutOneMore(h, h1, r, Join(c.conn), gs, g);
  }

  lemma ListedMore(gs: seq<Addr>, g: Addr)
    ensures Listed(gs + [g]) == Listed(gs) + {g}
    ensures g !in Listed(gs) ==> multiset(gs)[g] == 0
  {
  }

  lemma JoinIn(h: Hub, source: Addr, g: Addr)
    requires source in h.clients
    ensures InOutGroup(h, source, GROUP_IN, g) == JoinGroup(h, source, g)
  {
    hide JoinGroup, LeaveGroup;
  }

  lemma {:induction false} GroupsJoined(h: Hub, source: Addr, gs: seq<Addr>)
    requires source in h.clients
    ensures JoinedTo(h, InOutGroups(h, source, GROUP_IN, gs), source, gs)
  {
    hide InOutGroup, JoinGroup, JoinedTo;
    if gs == [] {
      JoinedNothing(h, source);
    } else {
      var n := |gs| - 1;
      LastOne(h, source, GROUP_IN, gs);
      GroupsJoined(h, source, gs[..n]);
      var h1 := InOutGroups(h, source, GROUP_IN, gs[..n]);
      JoinOneMore(h, h1, source, gs[..n], gs[n]);
      assert InOutGroup(h1, source, GROUP_IN, gs[n]) == JoinGroup(h1, source, gs[n]) by { JoinIn(h1, source, gs[n]); }
      assert gs == gs[..n] + [gs[n]];
    }
  }

  /** What leaving all of these groups comes to, below the clean-up limit. */
  ghost predicate LeftOf(h: Hub, r: Hub, source: Addr, gs: seq<Addr>) {
    && source in h.clients
    && Recorded(h, r, source, h.clients[source].groups - Listed(gs))
    && r.groups.Keys == h.groups.Keys
    && PutEach(h, r, Leave(h.clients[source].conn), gs)
  }

  lemma {:induction false} GroupsLeft(h: Hub, source: Addr, gs: seq<Addr>)
    requires source in h.clients && |h.groups| <= 1000
    ensures LeftOf(h, InOutGroups(h, source, GROUP_OUT, gs), source, gs)
  {
    var x, was := Leave(h.clients[source].conn), h.clients[source].groups;
    if gs == [] {
      NobodyPut(h, x);
      assert Listed([]) == {} && was - {} == was;
    } else {
      var n := |gs| - 1;
      GroupsLeft(h, source, gs[..n]);
      var h1 := InOutGroups(h, source, GROUP_OUT, gs[..n]);
      assert |h1.groups.Keys| == |h.groups.Keys|;
      var r := LeaveGroup(h1, source, gs[n]);
      assert r == InOutGroups(h, source, GROUP_OUT, gs);
      OneLeft(h1, source, gs[n]);
      ListedSnoc(gs);
      assert (was - Listed(gs[..n])) - {gs[n]} == was - Listed(gs);
      RecordedAgain(h, h1, r, source, was - Listed(gs[..n]), was - Listed(gs));
      hide LeaveGroup, InOutGroup, Listed, PutEach;
      if gs[n] !in h.groups { assert gs[n] !in r.groups; }
      PutOneMore(h, h1, r, x, gs[..n], gs[n]);
    }
  }

  lemma {:induction false} OtherInOut(h: Hub, source: Addr, inOut: byte, gs: seq<Addr>)
    requires source in h.clients && inOut != 0 && inOut != 1
    ensures InOutGroups(h, source, inOut, gs) == h
  {
    if gs != [] { OtherInOut(h, source, inOut, gs[..|gs| - 1]); }
  }

  ghost function GroupCommand(from: Addr, header: Header, inOut: byte, gs: seq<Addr>, resp: Option<nat>): Packet {
    Packet(from, RelayMessage(Env(0, 0, Message(header, GroupInOut(inOut, gs)))), resp)
  }

  /**
   * A group command for this hub: with 1, all listed groups are recorded for the sender, made where they are new, and sent a
   * Join for each time they are listed; with 0, below the clean-up limit, all are struck off and those there are sent a Leave;
   * with any other number, or from somebody who is not registered here, nothing happens.
   */
  lemma GroupCommandTakenIn(h: Hub, from: Addr, header: Header, inOut: byte, gs: seq<Addr>, resp: Option<nat>, ch: Choice)
    requires header.dest == h.self
    ensures var r := Handle(h, GroupCommand(from, header, inOut, gs, resp), ch);
            var h1 := RecordSession(h, from, header);
            && r.pushes == h.pushes
            && (header.source in h.clients ==> header.source in h1.clients && h1.groups == h.groups)
            && (header.source in h.clients && inOut == 1 ==> JoinedTo(h1, r, header.source, gs))
            && (header.source in h.clients && inOut == 0 && |h.groups| <= 1000 ==> LeftOf(h1, r, header.source, gs))
            && (header.source !in h.clients || (inOut != 0 && inOut != 1) ==> r.clients == h1.clients && r.groups == h.groups)
  {
    var source := header.source;
    var p := GroupCommand(from, header, inOut, gs, resp);
    CommandReaches(h, from, p.content.env, resp, ch);
    RecordFrame(h, from, header);
    RecordClients(h, from, header);
    RecordSessionFrame(h, from, header);
    var h1, h2 := RecordSession(h, from, header), Record(h, from, header);
    var r := Handle(h, p, ch);
    hide Record, RecordSession, JoinedTo, LeftOf, InOutGroups, Handle;
    if source in h.clients {
      var l := InOutGroups(h2, source, inOut, gs);
      InOutGroupsFrame(h2, source, inOut, gs);
      SameTables(h1, h2, r, l, source, gs);
      if inOut == 1 {
        GroupsJoined(h2, source, gs);
      } else if inOut != 0 {
        OtherInOut(h2, source, inOut, gs);
      } else if |h2.groups| <= 1000 {
        GroupsLeft(h2, source, gs);
      }
    }
  }

  lemma SameTables(h: Hub, h': Hub, r: Hub, r': Hub, source: Addr, gs: seq<Addr>)
    requires h.clients == h'.clients && h.groups == h'.groups && r.clients == r'.clients && r.groups == r'.groups
    ensures JoinedTo(h', r', source, gs) ==> JoinedTo(h, r, source, gs)
    ensures LeftOf(h', r', source, gs) ==> LeftOf(h, r, source, gs)
  {
    hide Listed, Times;
  }

  /** A message for the hub itself: after the bookkeeping its command takes effect, and only an answer follows. */
  lemma CommandReaches(h: Hub, from: Addr, env: Env, resp: Option<nat>, ch: Choice)
    requires env.msg.header.dest == h.self
    ensures var r := Handle(h, Packet(from, RelayMessage(env), resp), ch);
            r == Logic(Record(h, from, env.msg.header), env).(replies := r.replies)
  {
    hide Record, Logic;
  }

  /**
   * A Loc message for this hub, its target registered here: the location of the peer it names becomes the hub it names,
   * whatever was known before, and the target gets a session with that peer through that hub, unless it had one.
   */
  lemma LocTakenIn(h: Hub, from: Addr, header: Header, target: Addr, peer: Addr, at: Addr, resp: Option<nat>, ch: Choice)
    requires header.dest == h.self && target in h.clients
    ensures var r := Handle(h, Packet(from, RelayMessage(Env(0, 0, Message(header, Loc(target, peer, at)))), resp), ch);
            var h1 := RecordSession(h, from, header);
            && peer in r.location && r.location[peer] == at
            && (forall c :: c in h.location && c != peer ==> c in r.location && r.location[c] == h.location[c])
            && target in h1.clients && target in r.clients && peer in r.clients[target].sessions
            && r.clients[target].sessions[peer] == (if peer in h1.clients[target].sessions then h1.clients[target].sessions[peer] else at)
            && (forall c, q :: c in h1.clients && (c != target || q != peer) ==>
                  c in r.clients && (q in r.clients[c].sessions <==> q in h1.clients[c].sessions)
                  && (q in h1.clients[c].sessions ==> r.clients[c].sessions[q] == h1.clients[c].sessions[q]))
            && r.pushes == h.pushes && r.groups == h.groups && r.crashed == h.crashed
  {
    var env := Env(0, 0, Message(header, Loc(target, peer, at)));
    CommandReaches(h, from, env, resp, ch);
    RecordFrame(h, from, header);
    RecordClients(h, from, header);
    hide Record, RecordSession, Handle, Type;
  }

  /**
   * A group command a client sends with an empty destination, whatever source it claims: stamped at its hub and handled next,
   * it has the groups recorded for the client whose connection it came in on.
   */
  lemma EmptyDestinationIsTheHub(s: C.State, i: Addr, from: Addr, msg: Message, gs: seq<Addr>, tag: nat, ch: Choice)
    requires C.Enabled(s, C.Send(i, from, msg, tag)) && s.inbox[i] == [] && s.hubs[i].self == i && !s.hubs[i].crashed
    requires msg.header.dest[0] == 0 && msg.body == GroupInOut(1, gs) && from in s.hubs[i].clients
    ensures var t := C.Next(C.Next(s, C.Send(i, from, msg, tag)), C.Process(i, ch));
            && i in t.hubs && from in t.hubs[i].clients
            && t.hubs[i].clients[from].groups == s.hubs[i].clients[from].groups + Listed(gs)
  {
    var m := Message(msg.header.(source := from, dest := i), msg.body);
    var p := Packet(from, RelayMessage(Env(tag, 0, m)), None);
    var h := s.hubs[i];
    CommandReaches(h, from, Env(tag, 0, m), None, ch);
    RecordFrame(h, from, m.header);
    var h2 := Record(h, from, m.header);
    GroupsJoined(h2, from, gs);
    assert JoinedTo(h2, InOutGroups(h2, from, GROUP_IN, gs), from, gs);
    RecordedAt(h2, InOutGroups(h2, from, GROUP_IN, gs), from, h2.clients[from].groups + Listed(gs));
    hide Record, InOutGroups, Handle, Listed, Recorded, PutEach, Type;
    var s1 := C.Next(s, C.Send(i, from, msg, tag));
    assert s1.inbox[i] == [] + [p] == [p] && s1.hubs == s.hubs;
    assert C.Next(s1, C.Process(i, ch)).hubs[i].clients == Handle(h, p, ch).clients;
  }

  // ---------------------------------------------------- messages on the wire

  /** What a hub makes itself is read back at the other end, as long as its counts fit their fields. */
  lemma SystemRoundTrip(source: Addr, dest: Addr, body: Body, rest: seq<byte>)
    requires Fits(body)
    ensures var m := System(source, dest, body).msg; WellFormed(m) && Decode(Encode(m) + rest) == Ok(m, rest)
  {
    RoundTrip(System(source, dest, body).msg, rest);
  }

  lemma {:induction false} ServersFit(sessions: map<Addr, Addr>, order: seq<Addr>, s: Addr)
    ensures var m := SessionServers(sessions, order); s in m ==> |m[s]| <= |order|
  {
    if order != [] { ServersFit(sessions, order[..|order| - 1], s); }
  }

  lemma {:induction false} OfflineOutBody(h: Hub, servers: seq<Addr>, m: map<Addr, seq<Addr>>, peer: Conn, j: Addr, env: Env)
    requires env in OfflineOut(h, servers, m, peer, j)
    ensures j in m && env == System(h.self, j, Offline(peer.addr, peer.notice, m[j]))
  {
    if env in OfflineOut(h, servers[..|servers| - 1], m, peer, j) {
      OfflineOutBody(h, servers[..|servers| - 1], m, peer, j, env);
    }
  }

  /**
   * Every message a handled packet puts on a link comes out of the wire at the other hub as it was: relayed ones if they came in
   * well formed, the hub's own ones if no more than 65535 sessions are told at once.
   */
  lemma LinkMessagesDecode(h: Hub, p: Packet, ch: Choice, j: Addr, env: Env, rest: seq<byte>)
    requires env in LinkOut(h, p, ch, j) && |ch.sessionOrder| < 0x1_0000
    requires p.content.RelayMessage? ==> WellFormed(p.content.env.msg)
    ensures WellFormed(env.msg) && Decode(Encode(env.msg) + rest) == Ok(env.msg, rest)
  {
    hide Encode, Decode, WellFormed, System, Learns, Forwards, OfflineOut, SessionServers;
    match p.content
    case AddClient(peer) => SystemRoundTrip(peer.addr, peer.addr, Kill(ch.now), rest);
    case DelClient(peer) =>
      var m := SessionServers(h.clients[peer.addr].sessions, ch.sessionOrder);
      OfflineOutBody(h, ch.serverOrder, m, peer, j, env);
      ServersFit(h.clients[peer.addr].sessions, ch.sessionOrder, j);
      SystemRoundTrip(h.self, j, Offline(peer.addr, peer.notice, m[j]), rest);
    case RelayMessage(e) =>
      SystemRoundTrip(h.self, p.from, Loc(e.msg.header.source, e.msg.header.dest, h.self), rest);
      RoundTrip(e.msg, rest);
  }
}
