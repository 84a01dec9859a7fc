/**
 * A group's loop runs on its own goroutine and lags behind the hub. Its broadcasts are snapshots all the same: each
 * goes to those current connections that were members when the hub handled the message.
 */
module GroupSnapshot {
  import opened Bytes
  import opened Addresses
  import opened Wire
  import opened HubModel
  import opened HubFacts

  // ----------------------------------------- a group with packets to come

  ghost function Apply(members: map<Addr, Conn>, p: GroupPacket): map<Addr, Conn> {
    match p
    case Post(_) => members
    case Join(peer) => members[peer.addr := peer]
    case Leave(peer) => members - {peer.addr}
  }

  /** The members once every waiting packet is taken. */
  ghost function View(members: map<Addr, Conn>, queue: seq<GroupPacket>): map<Addr, Conn>
    decreases |queue|
  {
    if queue == [] then members else View(Apply(members, queue[0]), queue[1..])
  }

  ghost function FanOut(members: map<Addr, Conn>, p: GroupPacket): seq<Push> {
    if p.Post? then [Push(members.Values, p.env)] else []
  }

  /** The pushes the waiting packets will cause. */
  ghost function Drain(members: map<Addr, Conn>, queue: seq<GroupPacket>): seq<Push>
    decreases |queue|
  {
    if queue == [] then [] else FanOut(members, queue[0]) + Drain(Apply(members, queue[0]), queue[1..])
  }

  ghost function Members(h: Hub, g: Addr): map<Addr, Conn> {
    if g in h.groups then View(h.groups[g].members, h.groups[g].queue) else map[]
  }

  /** The pushes the group's loop has made and, from what is waiting, is bound to make. */
  ghost function Outcome(h: Hub, g: Addr): seq<Push> {
    if g in h.groups then h.groups[g].fanout + Drain(h.groups[g].members, h.groups[g].queue) else []
  }

  lemma {:induction false} ViewAppend(m: map<Addr, Conn>, q: seq<GroupPacket>, x: GroupPacket)
    ensures View(m, q + [x]) == Apply(View(m, q), x)
    ensures Drain(m, q + [x]) == Drain(m, q) + FanOut(View(m, q), x)
    decreases |q|
  {
    hide Apply, FanOut;
    if q == [] {
      var one := [x];
      assert q + one == one && one[1..] == [];
      assert FanOut(m, x) + [] == FanOut(m, x);
    } else {
      var t := q[1..];
      ViewAppend(Apply(m, q[0]), t, x);
      assert q + [x] == [q[0]] + (t + [x]);
      assert (q + [x])[1..] == t + [x];
    }
  }

  /** However a group's loop and the hub interleave, a turn of the loop changes neither. */
  lemma TurnKeepsView(g: Group)
    requires g.queue != []
    ensures var r := TakeGroupPacket(g);
            && View(r.members, r.queue) == View(g.members, g.queue)
            && r.fanout + Drain(r.members, r.queue) == g.fanout + Drain(g.members, g.queue)
  {
    var r := TakeGroupPacket(g);
    assert r.members == Apply(g.members, g.queue[0]) && r.queue == g.queue[1..];
    assert r.fanout == g.fanout + FanOut(g.members, g.queue[0]);
    assert (g.fanout + FanOut(g.members, g.queue[0])) + Drain(r.members, r.queue)
        == g.fanout + (FanOut(g.members, g.queue[0]) + Drain(r.members, r.queue));
  }

  // ------------------------------------------------------ the invariant

  /** Members are filed under their own address, and every one of them registered at some point. */
  ghost predicate MembersOk(m: map<Addr, Conn>, seen: set<Conn>) {
    forall a :: a in m ==> m[a].addr == a && m[a] in seen
  }

  /** A current connection has group g recorded exactly when the group, once caught up, maps its address to it. */
  ghost predicate Agrees(c: Client, g: Addr, m: map<Addr, Conn>) {
    g in c.groups <==> c.conn.addr in m && m[c.conn.addr] == c.conn
  }

  ghost predicate GroupInv(h: Hub, seen: set<Conn>) {
    && (forall a :: a in h.clients ==> h.clients[a].conn.addr == a && h.clients[a].conn in seen)
    && (forall g :: MembersOk(Members(h, g), seen))
    && (forall a, g :: a in h.clients ==> Agrees(h.clients[a], g, Members(h, g)))
  }

  // ------------------------------------------------------------- steps

  /** A registered connection is a new one, and there are too few groups for the clean-up. */
  ghost predicate Fair(h: Hub, seen: set<Conn>, step: HubStep) {
    step.Take? ==> |h.groups| <= 1000 && (step.p.content.AddClient? ==> step.p.content.peer !in seen)
  }

  ghost predicate AllFair(h: Hub, seen: set<Conn>, steps: seq<HubStep>)
    decreases |steps|
  {
    steps == [] || (Fair(h, seen, steps[0]) && AllFair(HubDo(h, steps[0]), SeenAfter(seen, steps[0]), steps[1..]))
  }

  /** A group message the hub handles: the current connections that are members at that moment, and those that are not. */
  datatype Due = Due(env: Env, members: set<Conn>, others: set<Conn>)

  ghost function DueNow(h: Hub, step: HubStep, g: Addr): seq<Due> {
    if step.Take? && step.p.content.RelayMessage? && step.p.content.env.msg.header.dest == g
       && Type(g) == ADDR_GROUP && g != h.self && g in h.groups
    then [Due(step.p.content.env,
              set a | a in h.clients && g in h.clients[a].groups :: h.clients[a].conn,
              set a | a in h.clients && g !in h.clients[a].groups :: h.clients[a].conn)]
    else []
  }

  ghost function History(h: Hub, steps: seq<HubStep>, g: Addr): seq<Due>
    decreases |steps|
  {
    if steps == [] then [] else DueNow(h, steps[0], g) + History(HubDo(h, steps[0]), steps[1..], g)
  }

  ghost predicate Meets(push: Push, due: Due) {
    push.env == due.env && due.members <= push.to && due.others !! push.to
  }

  ghost predicate AllMeet(pushes: seq<Push>, dues: seq<Due>) {
    |pushes| == |dues| && forall k :: 0 <= k < |dues| ==> Meets(pushes[k], dues[k])
  }

  // ------------------------------------------- what changes a group's view

  /** Nothing about groups changed. */
  ghost predicate SameGroups(h: Hub, r: Hub) {
    r.groups == h.groups && SamePeers(h.clients, r.clients)
  }

  lemma SameGroupsKeep(h: Hub, r: Hub, seen: set<Conn>)
    requires GroupInv(h, seen) && SameGroups(h, r)
    ensures GroupInv(r, seen) && forall g :: Members(r, g) == Members(h, g) && Outcome(r, g) == Outcome(h, g)
  {
    hide View, Drain, MembersOk;
    forall g
      ensures Members(r, g) == Members(h, g) && Outcome(r, g) == Outcome(h, g)
    {
    }
    forall a, g | a in r.clients
      ensures Agrees(r.clients[a], g, Members(r, g))
    {
      assert Agrees(h.clients[a], g, Members(h, g));
    }
  }

  /** One packet sent to the channel of a group. */
  ghost function Put(h: Hub, g: Addr, x: GroupPacket): Hub
    requires g in h.groups
  {
    h.(groups := h.groups[g := h.groups[g].(queue := h.groups[g].queue + [x])])
  }

  lemma PutView(h: Hub, g: Addr, x: GroupPacket, k: Addr)
    requires g in h.groups
    ensures Members(Put(h, g, x), k) == if k == g then Apply(Members(h, g), x) else Members(h, k)
    ensures Outcome(Put(h, g, x), k) == Outcome(h, k) + (if k == g then FanOut(Members(h, g), x) else [])
  {
    hide View, Drain, Apply, FanOut;
    if k == g {
      var was := h.groups[g];
      ViewAppend(was.members, was.queue, x);
      assert was.fanout + (Drain(was.members, was.queue) + FanOut(Members(h, g), x))
          == (was.fanout + Drain(was.members, was.queue)) + FanOut(Members(h, g), x);
    } else {
      assert Outcome(h, k) + [] == Outcome(h, k);
    }
  }

  lemma PostKeeps(h: Hub, g: Addr, env: Env, seen: set<Conn>)
    requires GroupInv(h, seen)
    ensures GroupInv(PostGroup(h, g, env), seen)
    ensures forall k :: Outcome(PostGroup(h, g, env), k)
                     == Outcome(h, k) + (if k == g && g in h.groups then [Push(Members(h, g).Values, env)] else [])
  {
    hide View, Drain, Outcome, MembersOk;
    var r := PostGroup(h, g, env);
    forall k
      ensures Members(r, k) == Members(h, k)
      ensures Outcome(r, k) == Outcome(h, k) + (if k == g && g in h.groups then [Push(Members(h, g).Values, env)] else [])
    {
      if g in h.groups { PutView(h, g, Post(env), k); } else { assert Outcome(h, k) + [] == Outcome(h, k); }
    }
    hide Members;
  }

  lemma JoinKeeps(h: Hub, source: Addr, g: Addr, seen: set<Conn>)
    requires GroupInv(h, seen) && source in h.clients
    ensures var r := JoinGroup(h, source, g);
            GroupInv(r, seen) && forall k :: Outcome(r, k) == Outcome(h, k)
  {
    hide Members, Outcome, MembersOk, Agrees;
    assert h.clients[source].conn.addr == source;
    hide GroupInv;
    forall k
      ensures Members(JoinGroup(h, source, g), k)
           == (if k == g then Members(h, g)[source := h.clients[source].conn] else Members(h, k))
      ensures Outcome(JoinGroup(h, source, g), k) == Outcome(h, k)
    {
      JoinView(h, source, g, k);
    }
    AgreesAfter(h, JoinGroup(h, source, g), source, g, true, seen);
  }

  lemma JoinView(h: Hub, source: Addr, g: Addr, k: Addr)
    requires source in h.clients
    ensures var r, c := JoinGroup(h, source, g), h.clients[source].conn;
            && Members(r, k) == (if k == g then Members(h, g)[c.addr := c] else Members(h, k))
            && Outcome(r, k) == Outcome(h, k)
  {
    hide Members, Outcome;
    var c := h.clients[source];
    var h1 := if g in h.groups then h else h.(groups := h.groups[g := Group(map[], 0, [], [])]);
    NewGroupIsEmpty(h, g);
    var h2 := Put(h1, g, Join(c.conn));
    var r := JoinGroup(h, source, g);
    assert r == h2.(clients := h.clients[source := c.(groups := c.groups + {g})]);
    PutView(h1, g, Join(c.conn), k);
    GroupsOnly(h2, r, k);
    assert Outcome(h, k) + [] == Outcome(h, k);
  }

  lemma NewGroupIsEmpty(h: Hub, g: Addr)
    ensures var h1 := if g in h.groups then h else h.(groups := h.groups[g := Group(map[], 0, [], [])]);
            forall k :: Members(h1, k) == Members(h, k) && Outcome(h1, k) == Outcome(h, k)
  {
  }

  lemma GroupsOnly(h: Hub, r: Hub, k: Addr)
    requires h.groups == r.groups
    ensures Members(h, k) == Members(r, k) && Outcome(h, k) == Outcome(r, k)
  {
    hide View, Drain;
  }

  /** A join or a leave changes the record of one client and the view of one group, in step. */
  lemma AgreesAfter(h: Hub, r: Hub, source: Addr, g: Addr, joins: bool, seen: set<Conn>)
    requires GroupInv(h, seen) && source in h.clients
    requires var c := h.clients[source];
             r.clients == h.clients[source := c.(groups := if joins then c.groups + {g} else c.groups - {g})]
    requires forall k :: Members(r, k)
                      == if k != g then Members(h, k)
                         else if joins then Members(h, g)[source := h.clients[source].conn]
                         else Members(h, g) - {source}
    ensures GroupInv(r, seen)
  {
    hide Members;
    forall k
      ensures MembersOk(Members(r, k), seen)
    {
      assert MembersOk(Members(h, k), seen);
    }
    forall a, k | a in r.clients
      ensures Agrees(r.clients[a], k, Members(r, k))
    {
      assert Agrees(h.clients[a], k, Members(h, k));
    }
  }

  ghost predicate CleansUp(h: Hub, g: Addr) {
    g in h.groups && h.groups[g].memCount == 0 && |h.groups| > 1000
  }

  lemma LeaveKeeps(h: Hub, source: Addr, g: Addr, seen: set<Conn>)
    requires GroupInv(h, seen) && source in h.clients && !CleansUp(h, g)
    ensures var r := LeaveGroup(h, source, g);
            GroupInv(r, seen) && forall k :: Outcome(r, k) == Outcome(h, k)
  {
    hide View, Drain, Outcome;
    var c := h.clients[source];
    var r := LeaveGroup(h, source, g);
    forall k
      ensures Members(r, k) == (if k == g then Members(h, g) - {source} else Members(h, k))
      ensures Outcome(r, k) == Outcome(h, k)
    {
      assert Outcome(h, k) + [] == Outcome(h, k);
      if g in h.groups {
        PutView(h, g, Leave(c.conn), k);
        GroupsOnly(Put(h, g, Leave(c.conn)), r, k);
      } else {
        GroupsOnly(h, r, k);
      }
    }
    hide Members;
    AgreesAfter(h, r, source, g, false, seen);
  }

  /**
   * The clean-up of a group that counts no members, done when there are more than 1000 groups, is harmless exactly when
   * no other current client has the group recorded. A join the group's loop has not taken yet is enough to break it.
   */
  lemma CleanUpExactly(h: Hub, source: Addr, g: Addr, seen: set<Conn>)
    requires GroupInv(h, seen) && source in h.clients && CleansUp(h, g)
    ensures GroupInv(LeaveGroup(h, source, g), seen)
       <==> forall a :: a in h.clients && a != source ==> g !in h.clients[a].groups
  {
    hide View, Drain, Outcome;
    var r := LeaveGroup(h, source, g);
    forall k
      ensures Members(r, k) == (if k == g then map[] else Members(h, k))
    {
    }
    hide Members;
    if GroupInv(r, seen) {
      forall a | a in h.clients && a != source
        ensures g !in h.clients[a].groups
      {
        assert Agrees(r.clients[a], g, Members(r, g));
      }
    }
    if forall a :: a in h.clients && a != source ==> g !in h.clients[a].groups {
      forall a, k | a in r.clients
        ensures Agrees(r.clients[a], k, Members(r, k))
      {
        assert Agrees(h.clients[a], k, Members(h, k));
      }
      forall k
        ensures MembersOk(Members(r, k), seen)
      {
        assert MembersOk(Members(h, k), seen);
      }
    }
  }

  lemma {:induction false} InOutKeeps(h: Hub, source: Addr, inOut: byte, gs: seq<Addr>, seen: set<Conn>)
    requires GroupInv(h, seen) && source in h.clients && |h.groups| <= CLEAN_LIMIT
    ensures var r := InOutGroups(h, source, inOut, gs);
            && GroupInv(r, seen) && (forall k :: Outcome(r, k) == Outcome(h, k))
            && (inOut == GROUP_OUT ==> |r.groups| <= CLEAN_LIMIT)
  {
    hide GroupInv, Outcome, InOutGroup;
    if gs != [] {
      InOutKeeps(h, source, inOut, gs[..|gs| - 1], seen);
      OneInOut(InOutGroups(h, source, inOut, gs[..|gs| - 1]), source, inOut, gs[|gs| - 1], seen);
    }
  }

  lemma OneInOut(h: Hub, source: Addr, inOut: byte, g: Addr, seen: set<Conn>)
    requires GroupInv(h, seen) && source in h.clients && (inOut == GROUP_OUT ==> |h.groups| <= CLEAN_LIMIT)
    ensures var r := InOutGroup(h, source, inOut, g);
            && GroupInv(r, seen) && (forall k :: Outcome(r, k) == Outcome(h, k))
            && (inOut == GROUP_OUT ==> |r.groups| <= CLEAN_LIMIT)
  {
    hide GroupInv, Outcome, JoinGroup;
    if inOut == GROUP_IN {
      JoinKeeps(h, source, g, seen);
    } else if inOut == GROUP_OUT {
      LeaveKeeps(h, source, g, seen);
    }
  }

  lemma LogicKeeps(h: Hub, env: Env, seen: set<Conn>)
    requires GroupInv(h, seen) && |h.groups| <= CLEAN_LIMIT
    ensures var r := Logic(h, env); GroupInv(r, seen) && forall k :: Outcome(r, k) == Outcome(h, k)
  {
    hide GroupInv, Outcome, InOutGroups, SameGroups;
    if env.msg.body.GroupInOut? {
      if env.msg.header.source in h.clients {
        InOutKeeps(h, env.msg.header.source, env.msg.body.inOut, env.msg.body.groups, seen);
      }
    } else {
      LogicSameGroups(h, env);
      SameGroupsKeep(h, Logic(h, env), seen);
    }
  }

  lemma LogicSameGroups(h: Hub, env: Env)
    requires !env.msg.body.GroupInOut?
    ensures SameGroups(h, Logic(h, env))
  {
    hide OfflineTargets, WithSession;
    match env.msg.body
    case Loc(target, peer, inServer) =>
      WithSessionFrame(h.(location := h.location[peer := inServer]), target, peer, inServer);
    case Offline(gone, notice, ts) =>
      OfflineTargetsFrame(h.(location := h.location - {gone}), gone, notice, ts);
    case _ =>
  }

  /** Routing touches groups only by posting a group message to the group of that address. */
  lemma RouteGroups(h: Hub, from: Addr, env: Env)
    ensures var r, dest := Route(h, from, env), env.msg.header.dest;
            && r.clients == h.clients
            && r.groups == (if Type(dest) == ADDR_GROUP then PostGroup(h, dest, env).groups else h.groups)
  {
    hide Type, Broadcast, PushLink, DomainConns;
    var dest := env.msg.header.dest;
    BroadcastLinks(h, env);
    if Type(dest) == ADDR_CLIENT && dest in h.location { PushLinkLinks(h, h.location[dest], env); }
  }

  lemma RouteKeeps(h: Hub, from: Addr, env: Env, seen: set<Conn>)
    requires GroupInv(h, seen)
    ensures var r, dest := Route(h, from, env), env.msg.header.dest;
            && GroupInv(r, seen)
            && forall k :: Outcome(r, k) == Outcome(h, k) + (if k == dest && Type(dest) == ADDR_GROUP && dest in h.groups
                                                             then [Push(Members(h, dest).Values, env)] else [])
  {
    hide GroupInv, Outcome, Members, Type, Route, PostGroup;
    var dest := env.msg.header.dest;
    RouteGroups(h, from, env);
    var mid := if Type(dest) == ADDR_GROUP then PostGroup(h, dest, env) else h;
    PostKeeps(h, dest, env, seen);
    PostClients(h, dest, env);
    SameGroupsKeep(mid, Route(h, from, env), seen);
    forall k
      ensures Outcome(h, k) + [] == Outcome(h, k)
    {
    }
  }

  lemma PostClients(h: Hub, g: Addr, env: Env)
    ensures PostGroup(h, g, env).clients == h.clients
  {
  }

  /** The pushes due when a hub takes this step, as the group's loop will make them. */
  ghost function Bound(h: Hub, step: HubStep, g: Addr): seq<Push> {
    if DueNow(h, step, g) == [] then [] else [Push(Members(h, g).Values, DueNow(h, step, g)[0].env)]
  }

  lemma RelayedKeeps(h: Hub, p: Packet, ch: Choice, seen: set<Conn>)
    requires GroupInv(h, seen) && |h.groups| <= CLEAN_LIMIT && p.content.RelayMessage?
    ensures var r := Handle(h, p, ch);
            GroupInv(r, seen) && forall k :: Outcome(r, k) == Outcome(h, k) + Bound(h, Take(p, ch), k)
  {
    hide GroupInv, Outcome, Members, Type, Record, Logic, Route;
    var env := p.content.env;
    var h1 := Record(h, p.from, env.msg.header);
    RecordFrame(h, p.from, env.msg.header);
    SameGroupsKeep(h, h1, seen);
    var h2 := if env.msg.header.dest == h.self then Logic(h1, env) else Route(h1, p.from, env);
    if env.msg.header.dest == h.self {
      LogicKeeps(h1, env, seen);
    } else {
      RouteKeeps(h1, p.from, env, seen);
    }
    var r := Handle(h, p, ch);
    assert r.groups == h2.groups && r.clients == h2.clients;
    SameGroupsKeep(h2, r, seen);
    forall k
      ensures Outcome(h, k) + [] == Outcome(h, k)
    {
    }
  }

  lemma RegisterKeeps(h: Hub, peer: Conn, now: uint64, seen: set<Conn>)
    requires GroupInv(h, seen) && peer !in seen
    ensures var r := Register(h, peer, now);
            GroupInv(r, seen + {peer}) && forall k :: Outcome(r, k) == Outcome(h, k)
  {
    hide View, Drain, Register;
    RegisterFrame(h, peer, now);
    var r := Register(h, peer, now);
    forall k
      ensures Members(r, k) == Members(h, k) && Outcome(r, k) == Outcome(h, k)
    {
    }
    hide Members, Outcome;
    forall k
      ensures MembersOk(Members(r, k), seen + {peer})
    {
      assert MembersOk(Members(h, k), seen);
    }
    forall a, k | a in r.clients
      ensures Agrees(r.clients[a], k, Members(r, k))
    {
      assert MembersOk(Members(h, k), seen);
      if a != peer.addr { assert Agrees(h.clients[a], k, Members(h, k)); }
    }
  }

  lemma UnregisterKeeps(h: Hub, peer: Conn, ch: Choice, seen: set<Conn>)
    requires GroupInv(h, seen)
    ensures var r := Unregister(h, peer, ch); GroupInv(r, seen) && forall k :: Outcome(r, k) == Outcome(h, k)
  {
    hide View, Drain, Unregister;
    UnregisterFrame(h, peer, ch);
    var r := Unregister(h, peer, ch);
    if Live(h, peer) {
      var gs := h.clients[peer.addr].groups;
      forall k
        ensures Outcome(r, k) == Outcome(h, k)
        ensures Members(r, k) == if k in gs && k in h.groups then Members(h, k) - {peer.addr} else Members(h, k)
      {
        if k in gs && k in h.groups {
          PutView(h, k, Leave(peer), k);
          assert r.groups[k] == Put(h, k, Leave(peer)).groups[k];
          assert Outcome(h, k) + [] == Outcome(h, k);
        }
      }
      hide Members, Outcome;
      forall k
        ensures MembersOk(Members(r, k), seen)
      {
        assert MembersOk(Members(h, k), seen);
      }
      forall a, k | a in r.clients
        ensures Agrees(r.clients[a], k, Members(r, k))
      {
        assert Agrees(h.clients[a], k, Members(h, k));
      }
    }
  }

  lemma TurnKeeps(h: Hub, g: Addr, seen: set<Conn>)
    requires GroupInv(h, seen)
    ensures var r := GroupStep(h, g); GroupInv(r, seen) && forall k :: Outcome(r, k) == Outcome(h, k)
  {
    hide View, Drain, MembersOk, Agrees;
    var r := GroupStep(h, g);
    if g in h.groups && h.groups[g].queue != [] {
      TurnKeepsView(h.groups[g]);
    }
    forall k
      ensures Members(r, k) == Members(h, k) && Outcome(r, k) == Outcome(h, k)
    {
    }
  }

  lemma StepKeeps(h: Hub, step: HubStep, seen: set<Conn>)
    requires GroupInv(h, seen) && Fair(h, seen, step)
    ensures GroupInv(HubDo(h, step), SeenAfter(seen, step))
    ensures forall k :: Outcome(HubDo(h, step), k) == Outcome(h, k) + Bound(h, step, k)
  {
    hide GroupInv, Outcome, Members, Type, Handle, GroupStep;
    forall k
      ensures Outcome(h, k) + [] == Outcome(h, k)
    {
    }
    match step
    case Turn(g) => TurnKeeps(h, g, seen);
    case Take(p, ch) =>
      if p.content.RelayMessage? { RelayedKeeps(h, p, ch, seen); } else { RegistrationKeeps(h, p, ch, seen); }
  }

  lemma RegistrationKeeps(h: Hub, p: Packet, ch: Choice, seen: set<Conn>)
    requires GroupInv(h, seen) && Fair(h, seen, Take(p, ch)) && !p.content.RelayMessage?
    ensures GroupInv(Handle(h, p, ch), SeenAfter(seen, Take(p, ch)))
    ensures forall k :: Outcome(Handle(h, p, ch), k) == Outcome(h, k)
  {
    hide GroupInv, Outcome, Members, Register, Unregister, Handle;
    var done := match p.content
                case AddClient(peer) => Register(h, peer, ch.now)
                case DelClient(peer) => Unregister(h, peer, ch)
                case _ => h;
    BesideReplies(h, p, ch, done);
    match p.content {
      case AddClient(peer) => RegisterKeeps(h, peer, ch.now, seen);
      case DelClient(peer) => UnregisterKeeps(h, peer, ch, seen);
      case _ =>
    }
    RepliesOnly(done, Handle(h, p, ch), SeenAfter(seen, Take(p, ch)));
  }

  lemma BesideReplies(h: Hub, p: Packet, ch: Choice, done: Hub)
    requires !p.content.RelayMessage?
    requires done == match p.content
                     case AddClient(peer) => Register(h, peer, ch.now)
                     case DelClient(peer) => Unregister(h, peer, ch)
                     case _ => h
    ensures var r := Handle(h, p, ch); r.groups == done.groups && r.clients == done.clients
  {
    hide Register, Unregister;
  }

  lemma RepliesOnly(h: Hub, r: Hub, seen: set<Conn>)
    requires GroupInv(h, seen) && r.groups == h.groups && r.clients == h.clients
    ensures GroupInv(r, seen) && forall k :: Outcome(r, k) == Outcome(h, k)
  {
    SameGroupsKeep(h, r, seen);
  }

  lemma FiledUnderAddress(m: map<Addr, Conn>, c: Conn, seen: set<Conn>)
    requires MembersOk(m, seen)
    ensures c in m.Values ==> c.addr in m && m[c.addr] == c
  {
  }

  /** A group's members, as the loop will see them, against what the hub has recorded for its current connections. */
  lemma BoundMeetsDue(h: Hub, step: HubStep, g: Addr, seen: set<Conn>)
    requires GroupInv(h, seen)
    ensures AllMeet(Bound(h, step, g), DueNow(h, step, g))
  {
    hide Members, Type;
    if DueNow(h, step, g) != [] {
      var due := DueNow(h, step, g)[0];
      var m := Members(h, g);
      assert MembersOk(m, seen);
      forall c | c in due.members
        ensures c in m.Values
      {
        var a :| a in h.clients && g in h.clients[a].groups && h.clients[a].conn == c;
        assert Agrees(h.clients[a], g, m);
        assert m[c.addr] == c;
      }
      forall c | c in due.others
        ensures c !in m.Values
      {
        var a :| a in h.clients && g !in h.clients[a].groups && h.clients[a].conn == c;
        assert Agrees(h.clients[a], g, m);
        FiledUnderAddress(m, c, seen);
      }
    }
  }

  // --------------------------------------------------------- main results

  /** Over every run, what the group's loop has pushed and is bound to push meets the hub's history, one for one, in order. */
  lemma {:induction false} OutcomeMeetsHistory(h: Hub, seen: set<Conn>, steps: seq<HubStep>, g: Addr) returns (made: seq<Push>)
    requires GroupInv(h, seen) && AllFair(h, seen, steps)
    ensures Outcome(HubRun(h, steps), g) == Outcome(h, g) + made && AllMeet(made, History(h, steps, g))
    decreases |steps|
  {
    hide GroupInv, Outcome, HubDo, DueNow, Bound, Meets, Fair, SeenAfter;
    if steps == [] {
      made := [];
      assert Outcome(h, g) + made == Outcome(h, g);
    } else {
      StepKeeps(h, steps[0], seen);
      BoundMeetsDue(h, steps[0], g, seen);
      var rest := OutcomeMeetsHistory(HubDo(h, steps[0]), SeenAfter(seen, steps[0]), steps[1..], g);
      made := Bound(h, steps[0], g) + rest;
      assert Outcome(h, g) + made == (Outcome(h, g) + Bound(h, steps[0], g)) + rest;
    }
  }

  ghost predicate NoGroups(h: Hub) {
    h.groups == map[] && h.clients == map[]
  }

  /**
   * Take any run of a hub from its start, in which registered connections are new ones and there are never more than
   * 1000 groups. Once the loop of group g has caught up, the broadcasts it made are, one for one and in the order the
   * hub handled them, the messages for g; each went to every current connection that was a member when the hub handled
   * the message and to no other current connection. Before that, it has made a first part of them.
   */
  lemma BroadcastIsASnapshot(h: Hub, steps: seq<HubStep>, g: Addr)
    requires NoGroups(h) && AllFair(h, {}, steps) && g in HubRun(h, steps).groups
    ensures var grp, dues := HubRun(h, steps).groups[g], History(h, steps, g);
            && |grp.fanout| <= |dues| && AllMeet(grp.fanout, dues[..|grp.fanout|])
            && (grp.queue == [] ==> |grp.fanout| == |dues|)
  {
    hide HubRun, History, AllFair, Meets;
    assert GroupInv(h, {});
    hide GroupInv;
    var made := OutcomeMeetsHistory(h, {}, steps, g);
    var grp := HubRun(h, steps).groups[g];
    assert made == grp.fanout + Drain(grp.members, grp.queue);
    hide Drain;
    assert made[..|grp.fanout|] == grp.fanout;
    if grp.queue == [] { assert Drain(grp.members, grp.queue) == [] by { NothingToDrain(grp); } }
  }

  lemma NothingToDrain(g: Group)
    requires g.queue == []
    ensures Drain(g.members, g.queue) == [] && View(g.members, g.queue) == g.members
  {
  }

  /** At any moment of such a run: a current connection has g recorded exactly when the group is about to have it as a member. */
  lemma {:induction false} RecordedIsMember(h: Hub, seen: set<Conn>, steps: seq<HubStep>, a: Addr, g: Addr)
    requires GroupInv(h, seen) && AllFair(h, seen, steps) && a in HubRun(h, steps).clients
    ensures var r := HubRun(h, steps);
            g in r.clients[a].groups <==> a in Members(r, g) && Members(r, g)[a] == r.clients[a].conn
    decreases |steps|
  {
    hide Members, HubDo, Fair, SeenAfter;
    if steps == [] {
      assert Agrees(h.clients[a], g, Members(h, g));
    } else {
      hide GroupInv;
      StepKeeps(h, steps[0], seen);
      RecordedIsMember(HubDo(h, steps[0]), SeenAfter(seen, steps[0]), steps[1..], a, g);
    }
  }

  // -------------------------------------------------------------- MemCount

  /** One for a join of an address that is a member already, minus one for a leave of an address that is none. */
  ghost function Redundant(members: map<Addr, Conn>, p: GroupPacket): int {
    match p
    case Post(_) => 0
    case Join(peer) => if peer.addr in members then 1 else 0
    case Leave(peer) => if peer.addr in members then 0 else -1
  }

  ghost function Drift(members: map<Addr, Conn>, queue: seq<GroupPacket>): int
    decreases |queue|
  {
    if queue == [] then 0 else Redundant(members, queue[0]) + Drift(Apply(members, queue[0]), queue[1..])
  }

  /** The group after its loop has taken every waiting packet. */
  ghost function CatchUp(g: Group): Group
    decreases |g.queue|
  {
    if g.queue == [] then g else CatchUp(TakeGroupPacket(g))
  }

  lemma OneDrift(g: Group)
    requires g.queue != []
    ensures var r := TakeGroupPacket(g);
            && r.members == Apply(g.members, g.queue[0]) && r.queue == g.queue[1..]
            && r.memCount - |r.members| == g.memCount - |g.members| + Redundant(g.members, g.queue[0])
  {
    match g.queue[0]
    case Leave(peer) =>
      var r := g.members - {peer.addr};
      assert peer.addr !in g.members ==> r == g.members;
      assert peer.addr in g.members ==> r[peer.addr := g.members[peer.addr]] == g.members;
    case _ =>
  }

  /** MemCount is off from the number of members by the repeated joins minus the leaves of non-members. */
  lemma {:induction false} CountDrift(g: Group)
    ensures CatchUp(g).memCount - |CatchUp(g).members| == g.memCount - |g.members| + Drift(g.members, g.queue)
    ensures CatchUp(g).members == View(g.members, g.queue)
    ensures CatchUp(g).fanout == g.fanout + Drain(g.members, g.queue)
    decreases |g.queue|
  {
    hide Drain, View;
    if g.queue == [] {
      NothingToDrain(g);
      assert g.fanout + [] == g.fanout;
    } else {
      var r := TakeGroupPacket(g);
      TurnKeepsView(g);
      CountDrift(r);
      OneDrift(g);
    }
  }

  /** A group that starts empty counts its members right exactly when repeated joins and void leaves balance. */
  lemma MemCountIsMembers(queue: seq<GroupPacket>)
    ensures var g := CatchUp(Group(map[], 0, queue, [])); g.memCount == |g.members| <==> Drift(map[], queue) == 0
  {
    CountDrift(Group(map[], 0, queue, []));
  }

  /** A client that joins twice is counted twice. */
  lemma RepeatedJoinCountsTwice(c: Conn)
    ensures var g := CatchUp(Group(map[], 0, [Join(c), Join(c)], [])); g.memCount == 2 && |g.members| == 1
  {
    var q := [Join(c), Join(c)];
    var m: map<Addr, Conn> := map[];
    var one := [Join(c)];
    assert q[1..] == one && one[1..] == [];
    var g0 := Group(m, 0, q, []);
    var g1 := TakeGroupPacket(g0);
    var g2 := TakeGroupPacket(g1);
    assert g1 == Group(map[c.addr := c], 1, one, []);
    assert g2 == Group(map[c.addr := c], 2, [], []);
    assert CatchUp(g0) == CatchUp(g1);
    assert CatchUp(g1) == CatchUp(g2) == g2;
  }
}
