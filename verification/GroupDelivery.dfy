/** How often a client's message to a group is posted to that group's loops, across the whole mesh. */
module GroupDelivery {
  import opened Bytes
  import opened Addresses
  import opened Wire
  import opened HubModel
  import opened HubFacts
  import opened Cluster
  import opened Delivery
  import G = GroupSnapshot

  // ---------------------------------------------------------------- counting

  ghost function CountPosts(q: seq<GroupPacket>, t: nat): nat {
    if q == [] then 0 else (if q[0].Post? && q[0].env.tag == t then 1 else 0) + CountPosts(q[1..], t)
  }

  /** The message's posts on a group's channel, and the broadcasts of it the group's loop has made. */
  ghost function PostsOf(grp: Group, t: nat): nat {
    CountPosts(grp.queue, t) + PushCount(grp.fanout, t)
  }

  ghost function PostCount(h: Hub, g: Addr, t: nat): nat {
    if g in h.groups then PostsOf(h.groups[g], t) else 0
  }

  lemma {:induction false} CountPostsAppend(q: seq<GroupPacket>, x: GroupPacket, t: nat)
    ensures CountPosts(q + [x], t) == CountPosts(q, t) + (if x.Post? && x.env.tag == t then 1 else 0)
    decreases |q|
  {
    var one := [x];
    assert one[1..] == [];
    if q == [] {
      assert q + one == one;
    } else {
      CountPostsAppend(q[1..], x, t);
      assert (q + one)[1..] == q[1..] + one;
    }
  }

  lemma PutPosts(grp: Group, x: GroupPacket, t: nat)
    ensures PostsOf(grp.(queue := grp.queue + [x]), t) == PostsOf(grp, t) + (if x.Post? && x.env.tag == t then 1 else 0)
  {
    hide CountPosts, PushCount;
    CountPostsAppend(grp.queue, x, t);
  }

  /** A turn of the loop turns a post into a broadcast. */
  lemma TurnPosts(h: Hub, k: Addr, g: Addr, t: nat)
    ensures PostCount(GroupStep(h, k), g, t) == PostCount(h, g, t)
  {
    hide PushCount;
    if k in h.groups && h.groups[k].queue != [] {
      var grp := h.groups[k];
      if grp.queue[0].Post? {
        OnePush(grp.fanout, grp.members.Values, grp.queue[0].env, t);
      }
      assert PostsOf(TakeGroupPacket(grp), t) == PostsOf(grp, t);
      hide PostsOf, TakeGroupPacket;
    }
  }

  // ----------------------------------------------- what handling does to posts

  /** At most n more posts; exactly n more, and g still there if it was, where no clean-up can happen. */
  ghost predicate Gains(h: Hub, r: Hub, g: Addr, t: nat, n: nat, exact: bool) {
    && PostCount(r, g, t) <= PostCount(h, g, t) + n
    && (exact ==> PostCount(r, g, t) == PostCount(h, g, t) + n && (g in h.groups ==> g in r.groups))
  }

  lemma SameGroupsGain(h: Hub, r: Hub, g: Addr, t: nat)
    requires h.groups == r.groups
    ensures Gains(h, r, g, t, 0, true)
  {
  }

  lemma JoinGains(h: Hub, source: Addr, k: Addr, g: Addr, t: nat)
    requires source in h.clients
    ensures Gains(h, JoinGroup(h, source, k), g, t, 0, true)
  {
    hide PostsOf;
    var was := if k in h.groups then h.groups[k] else Group(map[], 0, [], []);
    PutPosts(was, Join(h.clients[source].conn), t);
    EmptyPosts(t);
  }

  lemma EmptyPosts(t: nat)
    ensures PostsOf(Group(map[], 0, [], []), t) == 0
  {
  }

  lemma LeaveGains(h: Hub, source: Addr, k: Addr, g: Addr, t: nat)
    requires source in h.clients
    ensures Gains(h, LeaveGroup(h, source, k), g, t, 0, |h.groups| <= 1000)
    ensures |h.groups| <= 1000 ==> |LeaveGroup(h, source, k).groups| <= 1000
  {
    hide PostsOf;
    if k in h.groups { PutPosts(h.groups[k], Leave(h.clients[source].conn), t); }
  }

  lemma {:induction false} InOutGains(h: Hub, source: Addr, inOut: byte, gs: seq<Addr>, g: Addr, t: nat)
    requires source in h.clients
    ensures var r := InOutGroups(h, source, inOut, gs);
            && Gains(h, r, g, t, 0, |h.groups| <= 1000)
            && (inOut != GROUP_IN && |h.groups| <= 1000 ==> |r.groups| <= 1000)
  {
    hide PostCount, JoinGroup, LeaveGroup;
    if gs != [] {
      var n := |gs| - 1;
      InOutGains(h, source, inOut, gs[..n], g, t);
      var h1 := InOutGroups(h, source, inOut, gs[..n]);
      if inOut == GROUP_IN { JoinGains(h1, source, gs[n], g, t); } else { LeaveGains(h1, source, gs[n], g, t); }
    }
  }

  lemma LogicGains(h: Hub, env: Env, g: Addr, t: nat)
    ensures Gains(h, Logic(h, env), g, t, 0, |h.groups| <= 1000)
  {
    hide Gains, InOutGroups, Logic;
    if env.msg.body.GroupInOut? {
      GroupCommandGains(h, env, g, t);
    } else {
      G.LogicSameGroups(h, env);
      SameGroupsGain(h, Logic(h, env), g, t);
      Loosen(h, Logic(h, env), g, t, 0, |h.groups| <= 1000);
    }
  }

  lemma GroupCommandGains(h: Hub, env: Env, g: Addr, t: nat)
    requires env.msg.body.GroupInOut?
    ensures Gains(h, Logic(h, env), g, t, 0, |h.groups| <= 1000)
  {
    hide PostCount, InOutGroups;
    if env.msg.header.source in h.clients {
      InOutGains(h, env.msg.header.source, env.msg.body.inOut, env.msg.body.groups, g, t);
    }
  }

  lemma Loosen(h: Hub, r: Hub, g: Addr, t: nat, n: nat, exact: bool)
    requires Gains(h, r, g, t, n, true)
    ensures Gains(h, r, g, t, n, exact)
  {
  }

  /** This packet posts the message t to group g here. */
  ghost predicate Posts(h: Hub, p: Packet, g: Addr, t: nat) {
    Carries(p, t) && p.content.env.msg.header.dest == g && Type(g) == ADDR_GROUP && g != h.self && g in h.groups
  }

  lemma RouteGains(h: Hub, from: Addr, env: Env, g: Addr, t: nat)
    requires env.msg.header.dest != h.self
    ensures Gains(h, Route(h, from, env), g, t, if Posts(h, Packet(from, RelayMessage(env), None), g, t) then 1 else 0, true)
  {
    hide PostsOf, Type, Route;
    G.RouteGroups(h, from, env);
    var dest := env.msg.header.dest;
    if dest in h.groups { PutPosts(h.groups[dest], Post(env), t); }
  }

  lemma RelayedGains(h: Hub, p: Packet, ch: Choice, g: Addr, t: nat)
    requires p.content.RelayMessage?
    ensures Gains(h, Handle(h, p, ch), g, t, if Posts(h, p, g, t) then 1 else 0, |h.groups| <= 1000)
  {
    hide PostsOf, Type, Route, Record, Logic;
    var env := p.content.env;
    RecordFrame(h, p.from, env.msg.header);
    var h1 := Record(h, p.from, env.msg.header);
    if env.msg.header.dest == h.self { LogicGains(h1, env, g, t); } else { RouteGains(h1, p.from, env, g, t); }
  }

  lemma DepartureGains(h: Hub, peer: Conn, ch: Choice, g: Addr, t: nat)
    ensures Gains(h, Unregister(h, peer, ch), g, t, 0, true)
  {
    hide PostsOf, Unregister;
    UnregisterFrame(h, peer, ch);
    if Live(h, peer) && g in h.groups { PutPosts(h.groups[g], Leave(peer), t); }
  }

  lemma HandleGains(h: Hub, p: Packet, ch: Choice, g: Addr, t: nat)
    ensures Gains(h, Handle(h, p, ch), g, t, if Posts(h, p, g, t) then 1 else 0, |h.groups| <= 1000)
  {
    hide Handle, Gains, Type, Unregister, Register;
    if p.content.RelayMessage? {
      RelayedGains(h, p, ch, g, t);
    } else {
      var done := match p.content
                  case AddClient(peer) => Register(h, peer, ch.now)
                  case DelClient(peer) => Unregister(h, peer, ch)
                  case _ => h;
      var r := Handle(h, p, ch);
      G.BesideReplies(h, p, ch, done);
      if p.content.DelClient? {
        DepartureGains(h, p.content.peer, ch, g, t);
        GainsBy(h, done, r, g, t);
      } else {
        if p.content.AddClient? { RegisterFrame(h, p.content.peer, ch.now); }
        SameGroupsGain(h, r, g, t);
      }
      Loosen(h, r, g, t, 0, |h.groups| <= 1000);
    }
  }

  lemma GainsBy(h: Hub, done: Hub, r: Hub, g: Addr, t: nat)
    requires Gains(h, done, g, t, 0, true) && r.groups == done.groups
    ensures Gains(h, r, g, t, 0, true)
  {
    hide PostsOf;
  }

  // ------------------------------------------------------------- at most once

  /** Nothing was posted under a tag nobody used; a group's message has at most one chance left at each hub. */
  ghost predicate SpreadOnce(s: State, g: Addr, t: nat)
    requires s.hubs.Keys == s.inbox.Keys
  {
    && (t !in s.sent ==> forall k :: k in s.hubs ==> PostCount(s.hubs[k], g, t) == 0)
    && (t in s.sent && s.sent[t].dest == g ==>
          var o := s.sent[t].hub;
          && o in s.hubs
          && BoxCount(s.inbox[o], t) + PostCount(s.hubs[o], g, t) <= 1
          && forall k :: k in s.hubs && k != o ==> BoxCount(s.inbox[o], t) + Ahead(s, o, k, g, t) <= 1)
  }

  /** On the way to hub k, on its queue, or posted there. */
  ghost function Ahead(s: State, o: Addr, k: Addr, g: Addr, t: nat): nat
    requires o in s.hubs && k in s.hubs && k in s.inbox
  {
    LinkCount(s.hubs[o], k, t) + BoxCount(s.inbox[k], t) + PostCount(s.hubs[k], g, t)
  }

  /** From s to n, hub i has handled its next packet: what that does to every count of message t, for group g, at the hub. */
  ghost predicate Moved(s: State, n: State, i: Addr, g: Addr, t: nat) {
    && s.hubs.Keys == s.inbox.Keys && n.hubs.Keys == n.inbox.Keys == s.hubs.Keys && i in s.hubs && s.inbox[i] != []
    && var here := if Carries(s.inbox[i][0], t) then 1 else 0;
    && n.sent == s.sent
    && (here == 1 ==> t in s.sent)
    && (forall k :: k in s.hubs && k != i ==> n.hubs[k] == s.hubs[k] && n.inbox[k] == s.inbox[k])
    && BoxCount(n.inbox[i], t) + here == BoxCount(s.inbox[i], t)
    && PostCount(n.hubs[i], g, t) <= PostCount(s.hubs[i], g, t) + here
    && (|s.hubs[i].groups| <= 1000 && (here == 1 ==> g in s.hubs[i].groups) ==>
          PostCount(n.hubs[i], g, t) == PostCount(s.hubs[i], g, t) + here)
    && (forall j :: j in s.hubs && j != i ==>
          LinkCount(n.hubs[i], j, t) == LinkCount(s.hubs[i], j, t) + (if here == 1 && s.sent[t].hub == i then 1 else 0))
  }

  lemma ProcessAll(s: State, i: Addr, ch: Choice, g: Addr, t: nat)
    requires TagInv(s) && s.hubs.Keys == s.inbox.Keys && Enabled(s, Process(i, ch)) && t > 0 && Type(g) == ADDR_GROUP
    requires t in s.sent ==> s.sent[t].dest == g
    ensures Moved(s, ProcessStep(s, i, ch), i, g, t)
  {
    hide TagInv, ProcessStep, BoxCount, PostCount, LinkCount, Type, Carries;
    ProcessLinks(s, i, ch, g, t);
    ProcessPosts(s, i, ch, g, t);
    ProcessRest(s, i, ch);
  }

  /** The queue of the hub loses the message it handles; every other hub's link gains it when it is handled where it entered. */
  ghost predicate LinksMoved(s: State, n: State, i: Addr, t: nat) {
    && i in s.hubs && i in s.inbox && i in n.hubs && i in n.inbox && s.inbox[i] != []
    && var here := if Carries(s.inbox[i][0], t) then 1 else 0;
    && (here == 1 ==> t in s.sent)
    && BoxCount(n.inbox[i], t) + here == BoxCount(s.inbox[i], t)
    && (forall j :: j in s.hubs && j != i ==>
          LinkCount(n.hubs[i], j, t) == LinkCount(s.hubs[i], j, t) + (if here == 1 && s.sent[t].hub == i then 1 else 0))
  }

  lemma ProcessLinks(s: State, i: Addr, ch: Choice, g: Addr, t: nat)
    requires TagInv(s) && Enabled(s, Process(i, ch)) && t > 0 && Type(g) == ADDR_GROUP
    requires t in s.sent ==> s.sent[t].dest == g
    ensures LinksMoved(s, ProcessStep(s, i, ch), i, t)
  {
    hide TagInv, MeshInv, ProcessStep, BoxCount, LinkCount, Type, Carries, NodeTags, Forwards, PushCount;
    TagMesh(s);
    ProcessCounts(s, i, ch, t);
    ProcessSent(s, i, ch);
    ForwardsGroup(s, i, g, t);
    AllLinked(s, i);
  }

  lemma AllLinked(s: State, i: Addr)
    requires MeshInv(s) && i in s.hubs
    ensures forall j :: j in s.hubs && j != i ==> j in s.hubs[i].links
  {
    hide Type, PacketOk;
    assert HubOk(s.hubs.Keys, i, s.hubs[i]);
  }

  lemma ProcessRest(s: State, i: Addr, ch: Choice)
    requires s.hubs.Keys == s.inbox.Keys && Enabled(s, Process(i, ch))
    ensures var n := ProcessStep(s, i, ch);
            && n.hubs.Keys == n.inbox.Keys == s.hubs.Keys && i in s.hubs && s.inbox[i] != [] && n.sent == s.sent
            && forall k :: k in s.hubs && k != i ==> n.hubs[k] == s.hubs[k] && n.inbox[k] == s.inbox[k]
  {
    ProcessSent(s, i, ch);
    hide ProcessStep;
  }

  lemma ProcessPosts(s: State, i: Addr, ch: Choice, g: Addr, t: nat)
    requires TagInv(s) && Enabled(s, Process(i, ch)) && t > 0 && Type(g) == ADDR_GROUP
    requires t in s.sent ==> s.sent[t].dest == g
    ensures var h, p, r := s.hubs[i], s.inbox[i][0], ProcessStep(s, i, ch).hubs[i];
            var here := if Carries(p, t) then 1 else 0;
            && PostCount(r, g, t) <= PostCount(h, g, t) + here
            && (|h.groups| <= 1000 && (Carries(p, t) ==> g in h.groups) ==> PostCount(r, g, t) == PostCount(h, g, t) + here)
  {
    hide TagInv, Handle, Type, PostsOf;
    var h, p := s.hubs[i], s.inbox[i][0];
    TagMesh(s);
    HandleGains(h, p, ch, g, t);
    if Carries(p, t) { CarriedPacket(s, i, t); }
  }

  /** A message for a group is forwarded to every server, at the hub it entered and only there. */
  lemma ForwardsGroup(s: State, i: Addr, g: Addr, t: nat)
    requires TagInv(s) && i in s.hubs && i in s.inbox && s.inbox[i] != [] && t > 0 && Type(g) == ADDR_GROUP
    requires t in s.sent ==> s.sent[t].dest == g
    ensures var p := s.inbox[i][0];
            Carries(p, t) ==>
              t in s.sent && forall j :: Forwards(s.hubs[i], p.from, p.content.env.msg.header, j) <==> s.sent[t].hub == i
  {
    hide TagInv, Type;
    if Carries(s.inbox[i][0], t) { CarriedPacket(s, i, t); }
  }

  lemma ProcessSpread(s: State, i: Addr, ch: Choice, g: Addr, t: nat)
    requires TagInv(s) && s.hubs.Keys == s.inbox.Keys && Enabled(s, Process(i, ch)) && t > 0 && Type(g) == ADDR_GROUP
    requires SpreadOnce(s, g, t)
    ensures var n := ProcessStep(s, i, ch); n.hubs.Keys == n.inbox.Keys && SpreadOnce(n, g, t)
  {
    hide TagInv, MeshInv, ProcessStep, BoxCount, PostCount, LinkCount, Type, Carries, Enabled;
    TagMesh(s);
    ProcessSent(s, i, ch);
    if t in s.sent ==> s.sent[t].dest == g {
      ProcessAll(s, i, ch, g, t);
    }
  }

  lemma DeliverGroups(s: State, i: Addr, j: Addr, k: nat, g: Addr, t: nat)
    requires MeshInv(s) && Enabled(s, Deliver(i, j, k))
    ensures forall a :: a in s.hubs ==>
              a in DeliverStep(s, i, j, k).hubs && PostCount(DeliverStep(s, i, j, k).hubs[a], g, t) == PostCount(s.hubs[a], g, t)
  {
    hide MeshInv, PostsOf;
  }

  lemma DeliverSpread(s: State, i: Addr, j: Addr, k: nat, g: Addr, t: nat)
    requires TagInv(s) && s.hubs.Keys == s.inbox.Keys && Enabled(s, Deliver(i, j, k)) && t > 0
    requires SpreadOnce(s, g, t)
    ensures var n := DeliverStep(s, i, j, k); n.hubs.Keys == n.inbox.Keys && SpreadOnce(n, g, t)
  {
    hide TagInv, MeshInv, DeliverStep, BoxCount, PostCount, LinkCount, Type, Carries;
    TagMesh(s);
    DeliverCounts(s, i, j, k, t);
    DeliverGroups(s, i, j, k, g, t);
    if t in s.sent && s.sent[t].hub != i {
      OthersDoNotCarry(s, i, j, t);
    }
  }

  lemma EnqueueSpread(s: State, n: State, i: Addr, p: Packet, g: Addr, t: nat)
    requires s.hubs.Keys == s.inbox.Keys && i in s.inbox && SpreadOnce(s, g, t)
    requires n.hubs == s.hubs && n.inbox == s.inbox[i := s.inbox[i] + [p]] && !Carries(p, t)
    requires (t in n.sent <==> t in s.sent) && (t in s.sent ==> n.sent[t] == s.sent[t])
    ensures n.hubs.Keys == n.inbox.Keys && SpreadOnce(n, g, t)
  {
    hide BoxCount, PostCount, LinkCount;
    BoxCountAppend(s.inbox[i], [p], t);
    BoxCountOne(p, t);
  }

  lemma SendSpread(s: State, i: Addr, from: Addr, msg: Message, tag: nat, g: Addr, t: nat)
    requires TagInv(s) && s.hubs.Keys == s.inbox.Keys && t > 0 && Enabled(s, Send(i, from, msg, tag)) && SpreadOnce(s, g, t)
    ensures var n := Next(s, Send(i, from, msg, tag)); n.hubs.Keys == n.inbox.Keys && SpreadOnce(n, g, t)
  {
    hide TagInv, Type, BoxCount, PushCount, PostCount, LinkCount;
    var n := Next(s, Send(i, from, msg, tag));
    if t == tag {
      FreshTagCounts(s, i, from, msg, t);
      forall k | k in n.hubs && k != i
        ensures BoxCount(n.inbox[i], t) + Ahead(n, i, k, g, t) <= 1
      {
        assert Towards(n, i, k, t) == 0;
      }
    } else {
      EnqueueSpread(s, n, i, Packet(from, RelayMessage(Env(tag, 0, Stamped(i, from, msg))), None), g, t);
    }
  }

  lemma TurnSpread(s: State, i: Addr, k: Addr, g: Addr, t: nat)
    requires s.hubs.Keys == s.inbox.Keys && i in s.hubs && SpreadOnce(s, g, t)
    ensures var n := s.(hubs := s.hubs[i := GroupStep(s.hubs[i], k)]); n.hubs.Keys == n.inbox.Keys && SpreadOnce(n, g, t)
  {
    hide BoxCount, PostCount, CountTag, GroupStep;
    GroupStepFrame(s.hubs[i], k);
    TurnPosts(s.hubs[i], k, g, t);
  }

  lemma StepSpread(s: State, e: Event, g: Addr, t: nat)
    requires TagInv(s) && s.hubs.Keys == s.inbox.Keys && t > 0 && Type(g) == ADDR_GROUP && SpreadOnce(s, g, t)
    ensures var n := Next(s, e); n.hubs.Keys == n.inbox.Keys && SpreadOnce(n, g, t)
  {
    hide TagInv, MeshInv, ProcessStep, DeliverStep, SpreadOnce, Type, GroupStep, Carries;
    StepKeepsTags(s, e);
    TagMesh(Next(s, e));
    if Enabled(s, e) {
      match e
      case Connect(i, peer) =>
        NoCarry(i, AddClient(peer), t);
        EnqueueSpread(s, Next(s, e), i, Packet(i, AddClient(peer), None), g, t);
      case Disconnect(i, peer) =>
        NoCarry(peer.addr, DelClient(peer), t);
        EnqueueSpread(s, Next(s, e), i, Packet(peer.addr, DelClient(peer), None), g, t);
      case Send(i, from, msg, tag) => SendSpread(s, i, from, msg, tag, g, t);
      case Deliver(i, j, k) => DeliverSpread(s, i, j, k, g, t);
      case Process(i, ch) => ProcessSpread(s, i, ch, g, t);
      case GroupTurn(i, k) => TurnSpread(s, i, k, g, t);
    }
  }

  lemma {:induction false} RunSpread(s: State, evs: seq<Event>, g: Addr, t: nat)
    requires TagInv(s) && s.hubs.Keys == s.inbox.Keys && t > 0 && Type(g) == ADDR_GROUP && SpreadOnce(s, g, t)
    ensures var n := Run(s, evs); TagInv(n) && n.hubs.Keys == n.inbox.Keys && SpreadOnce(n, g, t)
    decreases |evs|
  {
    hide TagInv, Next, SpreadOnce, Type;
    if evs != [] {
      StepKeepsTags(s, evs[0]);
      StepSpread(s, evs[0], g, t);
      RunSpread(Next(s, evs[0]), evs[1..], g, t);
    }
  }

  lemma StartSpread(servers: set<Addr>, g: Addr, t: nat)
    ensures Start(servers).hubs.Keys == Start(servers).inbox.Keys && SpreadOnce(Start(servers), g, t)
  {
  }

  /**
   * Over every run, each hub posts a client's message for a group to that group's loop at most once: what waits on the
   * group's channel and what its loop has broadcast together hold it at most once.
   */
  lemma GroupPostedAtMostOnce(servers: set<Addr>, evs: seq<Event>, t: nat, k: Addr)
    requires forall i :: i in servers ==> Type(i) == ADDR_SERVER
    requires var s := Run(Start(servers), evs); t > 0 && t in s.sent && Type(s.sent[t].dest) == ADDR_GROUP && k in s.hubs
    ensures var s := Run(Start(servers), evs); PostCount(s.hubs[k], s.sent[t].dest, t) <= 1
  {
    hide TagInv, Next, PostCount, BoxCount, LinkCount, Type;
    StartTags(servers);
    var g := Run(Start(servers), evs).sent[t].dest;
    StartSpread(servers, g, t);
    RunSpread(Start(servers), evs, g, t);
  }

  // ------------------------------------------------------------- exactly once

  /** When hub k handles a packet it has at most 1000 groups, and when it handles this message, the group is one of them. */
  ghost predicate Ready(s: State, e: Event, k: Addr, g: Addr, t: nat) {
    e.Process? && e.at == k && Enabled(s, e) ==>
      |s.hubs[k].groups| <= 1000 && (Carries(s.inbox[k][0], t) ==> g in s.hubs[k].groups)
  }

  ghost predicate AllReady(s: State, evs: seq<Event>, k: Addr, g: Addr, t: nat)
    decreases |evs|
  {
    evs == [] || (Ready(s, evs[0], k, g, t) && AllReady(Next(s, evs[0]), evs[1..], k, g, t))
  }

  ghost predicate OnePost(s: State, o: Addr, k: Addr, g: Addr, t: nat)
    requires s.hubs.Keys == s.inbox.Keys && o in s.hubs && k in s.hubs
  {
    (if k == o then BoxCount(s.inbox[o], t) + PostCount(s.hubs[o], g, t)
     else BoxCount(s.inbox[o], t) + Ahead(s, o, k, g, t)) == 1
  }

  lemma ProcessOnePost(s: State, i: Addr, ch: Choice, o: Addr, k: Addr, g: Addr, t: nat)
    requires TagInv(s) && s.hubs.Keys == s.inbox.Keys && Enabled(s, Process(i, ch)) && t > 0 && Type(g) == ADDR_GROUP
    requires t in s.sent && s.sent[t] == Origin(o, g) && o in s.hubs && k in s.hubs
    requires Ready(s, Process(i, ch), k, g, t) && OnePost(s, o, k, g, t)
    ensures var n := ProcessStep(s, i, ch); n.hubs.Keys == n.inbox.Keys == s.hubs.Keys && OnePost(n, o, k, g, t)
  {
    hide TagInv, MeshInv, ProcessStep, BoxCount, PostCount, LinkCount, Type, Carries;
    ProcessAll(s, i, ch, g, t);
  }

  lemma DeliverOnePost(s: State, i: Addr, b: Addr, m: nat, o: Addr, k: Addr, g: Addr, t: nat)
    requires TagInv(s) && s.hubs.Keys == s.inbox.Keys && Enabled(s, Deliver(i, b, m)) && t > 0
    requires t in s.sent && s.sent[t].hub == o && o in s.hubs && k in s.hubs && OnePost(s, o, k, g, t)
    ensures var n := DeliverStep(s, i, b, m); n.hubs.Keys == n.inbox.Keys == s.hubs.Keys && OnePost(n, o, k, g, t)
  {
    hide TagInv, MeshInv, DeliverStep, BoxCount, PostCount, LinkCount, Type, Carries;
    TagMesh(s);
    DeliverCounts(s, i, b, m, t);
    DeliverGroups(s, i, b, m, g, t);
    if i != o { OthersDoNotCarry(s, i, b, t); }
  }

  lemma EnqueueOnePost(s: State, n: State, i: Addr, p: Packet, o: Addr, k: Addr, g: Addr, t: nat)
    requires s.hubs.Keys == s.inbox.Keys && i in s.inbox && o in s.hubs && k in s.hubs && OnePost(s, o, k, g, t)
    requires n.hubs == s.hubs && n.inbox == s.inbox[i := s.inbox[i] + [p]] && !Carries(p, t)
    ensures n.hubs.Keys == n.inbox.Keys && OnePost(n, o, k, g, t)
  {
    hide BoxCount, PostCount, LinkCount;
    BoxCountAppend(s.inbox[i], [p], t);
    BoxCountOne(p, t);
  }

  lemma TurnOnePost(s: State, i: Addr, j: Addr, o: Addr, k: Addr, g: Addr, t: nat)
    requires s.hubs.Keys == s.inbox.Keys && i in s.hubs && o in s.hubs && k in s.hubs && OnePost(s, o, k, g, t)
    ensures var n := s.(hubs := s.hubs[i := GroupStep(s.hubs[i], j)]); n.hubs.Keys == n.inbox.Keys && OnePost(n, o, k, g, t)
  {
    hide BoxCount, PostCount, CountTag, GroupStep;
    GroupStepFrame(s.hubs[i], j);
    TurnPosts(s.hubs[i], j, g, t);
  }

  lemma StepOnePost(s: State, e: Event, o: Addr, k: Addr, g: Addr, t: nat)
    requires TagInv(s) && s.hubs.Keys == s.inbox.Keys && t > 0 && Type(g) == ADDR_GROUP
    requires t in s.sent && s.sent[t] == Origin(o, g) && o in s.hubs && k in s.hubs
    requires Ready(s, e, k, g, t) && OnePost(s, o, k, g, t)
    ensures var n := Next(s, e);
            && n.hubs.Keys == n.inbox.Keys && o in n.hubs && k in n.hubs
            && t in n.sent && n.sent[t] == s.sent[t] && OnePost(n, o, k, g, t)
  {
    hide TagInv, MeshInv, ProcessStep, DeliverStep, OnePost, Type, GroupStep, Carries, Ready;
    StepKeepsTags(s, e);
    TagMesh(Next(s, e));
    if Enabled(s, e) {
      match e
      case Connect(i, peer) =>
        NoCarry(i, AddClient(peer), t);
        EnqueueOnePost(s, Next(s, e), i, Packet(i, AddClient(peer), None), o, k, g, t);
      case Disconnect(i, peer) =>
        NoCarry(peer.addr, DelClient(peer), t);
        EnqueueOnePost(s, Next(s, e), i, Packet(peer.addr, DelClient(peer), None), o, k, g, t);
      case Send(i, from, msg, tag) =>
        var p := Packet(from, RelayMessage(Env(tag, 0, Stamped(i, from, msg))), None);
        OtherTag(p, t);
        EnqueueOnePost(s, Next(s, e), i, p, o, k, g, t);
      case Deliver(i, b, m) => DeliverOnePost(s, i, b, m, o, k, g, t);
      case Process(i, ch) => ProcessOnePost(s, i, ch, o, k, g, t);
      case GroupTurn(i, j) => TurnOnePost(s, i, j, o, k, g, t);
    }
  }

  lemma {:induction false} RunOnePost(s: State, evs: seq<Event>, o: Addr, k: Addr, g: Addr, t: nat)
    requires TagInv(s) && s.hubs.Keys == s.inbox.Keys && t > 0 && Type(g) == ADDR_GROUP
    requires t in s.sent && s.sent[t] == Origin(o, g) && o in s.hubs && k in s.hubs
    requires AllReady(s, evs, k, g, t) && OnePost(s, o, k, g, t)
    ensures var n := Run(s, evs); n.hubs.Keys == n.inbox.Keys && o in n.hubs && k in n.hubs && OnePost(n, o, k, g, t)
    decreases |evs|
  {
    hide TagInv, Next, OnePost, Ready, Type;
    if evs != [] {
      StepKeepsTags(s, evs[0]);
      StepOnePost(s, evs[0], o, k, g, t);
      RunOnePost(Next(s, evs[0]), evs[1..], o, k, g, t);
    }
  }

  lemma FreshPost(s: State, o: Addr, from: Addr, msg: Message, k: Addr, t: nat)
    requires TagInv(s) && s.hubs.Keys == s.inbox.Keys && Enabled(s, Send(o, from, msg, t)) && k in s.hubs
    requires forall a :: a in s.hubs ==> PostCount(s.hubs[a], Stamped(o, from, msg).header.dest, t) == 0
    ensures var n := Next(s, Send(o, from, msg, t));
            && n.hubs.Keys == n.inbox.Keys && o in n.hubs && k in n.hubs
            && t in n.sent && n.sent[t] == Origin(o, Stamped(o, from, msg).header.dest)
            && OnePost(n, o, k, Stamped(o, from, msg).header.dest, t)
  {
    hide TagInv, BoxCount, PushCount, PostCount, LinkCount, Type;
    FreshTagCounts(s, o, from, msg, t);
    var n := Next(s, Send(o, from, msg, t));
    if k != o { assert Towards(n, o, k, t) == 0; }
  }

  /**
   * A client sends to group g at hub o. Take any hub k that has the group when it handles the message and never more than
   * 1000 groups when it handles a packet. However the run interleaves, once everything in flight between o and k is used
   * up, hub k has posted the message to the group exactly once, and once the group's loop has caught up it has broadcast
   * it exactly once.
   */
  lemma GroupPostedExactlyOnce(servers: set<Addr>, before: seq<Event>, o: Addr, from: Addr, msg: Message, t: nat,
                               after: seq<Event>, g: Addr, k: Addr)
    requires forall i :: i in servers ==> Type(i) == ADDR_SERVER
    requires var s := Run(Start(servers), before);
             && Enabled(s, Send(o, from, msg, t)) && g == Stamped(o, from, msg).header.dest && Type(g) == ADDR_GROUP && k in s.hubs
             && AllReady(Next(s, Send(o, from, msg, t)), after, k, g, t)
    requires var n := Run(Next(Run(Start(servers), before), Send(o, from, msg, t)), after);
             && (o in n.inbox ==> n.inbox[o] == []) && (k in n.inbox ==> n.inbox[k] == [])
             && (o in n.hubs && k in n.hubs[o].links ==> n.hubs[o].links[k] == [])
    ensures var n := Run(Next(Run(Start(servers), before), Send(o, from, msg, t)), after);
            && k in n.hubs && PostCount(n.hubs[k], g, t) == 1
            && g in n.hubs[k].groups
            && (n.hubs[k].groups[g].queue == [] ==> PushCount(n.hubs[k].groups[g].fanout, t) == 1)
  {
    hide TagInv, Next, PostCount, PushCount, Type, Stamped, Enabled, OnePost, SpreadOnce, Ready;
    StartTags(servers);
    StartSpread(servers, g, t);
    assert t > 0 by { TagPositive(Run(Start(servers), before), o, from, msg, t); }
    RunSpread(Start(servers), before, g, t);
    var s := Run(Start(servers), before);
    NotPostedYet(s, o, from, msg, g, t);
    FreshPost(s, o, from, msg, k, t);
    StepKeepsTags(s, Send(o, from, msg, t));
    RunOnePost(Next(s, Send(o, from, msg, t)), after, o, k, g, t);
    PostedOnce(Run(Next(s, Send(o, from, msg, t)), after), o, k, g, t);
  }

  lemma TagPositive(s: State, o: Addr, from: Addr, msg: Message, t: nat)
    requires Enabled(s, Send(o, from, msg, t))
    ensures t > 0 && t !in s.sent
  {
  }

  lemma NotPostedYet(s: State, o: Addr, from: Addr, msg: Message, g: Addr, t: nat)
    requires s.hubs.Keys == s.inbox.Keys && SpreadOnce(s, g, t) && Enabled(s, Send(o, from, msg, t))
    ensures forall a :: a in s.hubs ==> PostCount(s.hubs[a], g, t) == 0
  {
    hide PostCount;
  }

  lemma PostedOnce(n: State, o: Addr, k: Addr, g: Addr, t: nat)
    requires n.hubs.Keys == n.inbox.Keys && o in n.hubs && k in n.hubs && OnePost(n, o, k, g, t)
    requires n.inbox[o] == [] && n.inbox[k] == [] && (k in n.hubs[o].links ==> n.hubs[o].links[k] == [])
    ensures PostCount(n.hubs[k], g, t) == 1 && g in n.hubs[k].groups
    ensures n.hubs[k].groups[g].queue == [] ==> PushCount(n.hubs[k].groups[g].fanout, t) == 1
  {
    hide PushCount;
  }
}
