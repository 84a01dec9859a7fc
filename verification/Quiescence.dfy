/**
 * Without new external input a full mesh of hubs drains: every internal step lowers an explicit measure, and when no
 * internal step is left, links, queues of live hubs and group channels are empty.
 */
module Quiescence {
  import opened Bytes
  import opened Addresses
  import opened Wire
  import opened HubModel
  import opened HubFacts
  import opened Cluster
  import opened Maps
  import opened Sums

  // ------------------------------------------------------------- the measure

  /** How much a message from another hub can still cause: a client's can provoke a Loc reply. */
  ghost function EnvLevel(env: Env): nat {
    if Type(env.msg.header.source) == ADDR_CLIENT then 1 else 0
  }

  /** Handling a packet only puts things of lower level on links and on the hub's own queue. */
  ghost function PacketLevel(p: Packet): nat {
    match p.content
    case DelClient(_) => 3
    case RelayMessage(env) => if Type(p.from) == ADDR_SERVER then EnvLevel(env) else 2
    case _ => 2
  }

  ghost function CountEnvs(es: seq<Env>, l: nat): nat {
    if es == [] then 0 else (if EnvLevel(es[0]) == l then 1 else 0) + CountEnvs(es[1..], l)
  }

  ghost function CountPackets(ps: seq<Packet>, l: nat): nat {
    if ps == [] then 0 else (if PacketLevel(ps[0]) == l then 1 else 0) + CountPackets(ps[1..], l)
  }

  ghost function LinkCounts(h: Hub, l: nat): map<Addr, nat> {
    Tabulate(h.links.Keys, j requires j in h.links => CountEnvs(h.links[j], l))
  }

  /** A message on a link still has to arrive and to be handled, one on a queue only to be handled. */
  ghost function Weight(h: Hub, q: seq<Packet>, l: nat): nat {
    2 * MapSum(LinkCounts(h, l)) + CountPackets(q, l)
  }

  ghost function Weights(s: State, l: nat): map<Addr, nat> {
    Tabulate(s.hubs.Keys * s.inbox.Keys, i requires i in s.hubs && i in s.inbox => Weight(s.hubs[i], s.inbox[i], l))
  }

  ghost function Total(s: State, l: nat): nat {
    MapSum(Weights(s, l))
  }

  ghost function QueueLengths(h: Hub): map<Addr, nat> {
    Tabulate(h.groups.Keys, g requires g in h.groups => |h.groups[g].queue|)
  }

  ghost function Backlogs(s: State): map<Addr, nat> {
    Tabulate(s.hubs.Keys, i requires i in s.hubs => MapSum(QueueLengths(s.hubs[i])))
  }

  ghost function Backlog(s: State): nat {
    MapSum(Backlogs(s))
  }

  /** Lexicographically smaller: unregistrations, then ingress, then relayed client messages, then the rest, then group packets. */
  ghost predicate Smaller(t: State, s: State) {
    || Total(t, 3) < Total(s, 3)
    || (Total(t, 3) == Total(s, 3) &&
        (|| Total(t, 2) < Total(s, 2)
         || (Total(t, 2) == Total(s, 2) &&
             (|| Total(t, 1) < Total(s, 1)
              || (Total(t, 1) == Total(s, 1) &&
                  (|| Total(t, 0) < Total(s, 0)
                   || (Total(t, 0) == Total(s, 0) && Backlog(t) < Backlog(s))))))))
  }

  // -------------------------------------------------------------- counting

  lemma {:induction false} CountEnvsAppend(a: seq<Env>, b: seq<Env>, l: nat)
    ensures CountEnvs(a + b, l) == CountEnvs(a, l) + CountEnvs(b, l)
    decreases |a|
  {
    hide EnvLevel;
    if a == [] {
      assert a + b == b;
    } else {
      CountEnvsAppend(a[1..], b, l);
      assert (a + b)[1..] == a[1..] + b;
    }
  }

  lemma {:induction false} CountPacketsAppend(a: seq<Packet>, b: seq<Packet>, l: nat)
    ensures CountPackets(a + b, l) == CountPackets(a, l) + CountPackets(b, l)
    decreases |a|
  {
    hide PacketLevel;
    if a == [] {
      assert a + b == b;
    } else {
      CountPacketsAppend(a[1..], b, l);
      assert (a + b)[1..] == a[1..] + b;
    }
  }

  lemma {:induction false} CountNoEnvs(es: seq<Env>, l: nat)
    requires forall e :: e in es ==> EnvLevel(e) != l
    ensures CountEnvs(es, l) == 0
  {
    if es != [] { CountNoEnvs(es[1..], l); }
  }

  lemma {:induction false} CountNoPackets(ps: seq<Packet>, l: nat)
    requires forall p :: p in ps ==> PacketLevel(p) != l
    ensures CountPackets(ps, l) == 0
  {
    if ps != [] { CountNoPackets(ps[1..], l); }
  }

  lemma CountOut(q: seq<Env>, k: nat, l: nat)
    requires k < |q|
    ensures CountEnvs(q, l) == CountEnvs(q[..k] + q[k + 1..], l) + (if EnvLevel(q[k]) == l then 1 else 0)
  {
    hide EnvLevel;
    CountEnvsAppend(q[..k], q[k + 1..], l);
    CountEnvsAppend(q[..k], q[k..], l);
    assert q == q[..k] + q[k..];
    assert q[k..][1..] == q[k + 1..];
  }

  // ------------------------------------------------------- what steps cause

  lemma LinkOutLevels(s: State, i: Addr, p: Packet, ch: Choice, j: Addr, env: Env)
    requires MeshInv(s) && i in s.hubs && PacketOk(s.hubs.Keys, i, p) && env in LinkOut(s.hubs[i], p, ch, j)
    ensures EnvLevel(env) < PacketLevel(p)
  {
    hide LinkOut, PacketOk, Type;
    MeshParts(s, i);
    OkParts(s.hubs.Keys, i, s.hubs[i]);
    var kind := LinkOutShape(s.hubs[i], p, ch, j, env);
  }

  lemma QueueOutLevels(s: State, i: Addr, p: Packet, ch: Choice, q: Packet)
    requires MeshInv(s) && i in s.hubs && q in QueueOut(s.hubs[i], p, ch)
    ensures PacketLevel(q) < PacketLevel(p)
  {
    hide QueueOut, PacketOk, Type;
    MeshParts(s, i);
    OkParts(s.hubs.Keys, i, s.hubs[i]);
    QueueOutShape(s.hubs[i], p, ch, q);
  }

  /** Handling a packet leaves what is on the links at its level and above as it was. */
  lemma ProcessLinks(s: State, i: Addr, ch: Choice, l: nat)
    requires MeshInv(s) && Enabled(s, Process(i, ch)) && l >= PacketLevel(s.inbox[i][0])
    ensures LinkCounts(ProcessStep(s, i, ch).hubs[i], l) == LinkCounts(s.hubs[i], l)
  {
    hide Handle, LinkOut, QueueOut, PacketLevel, EnvLevel, HubOk, Type;
    var h, p := s.hubs[i], s.inbox[i][0];
    InMesh(s.hubs.Keys, i, p);
    HandleOut(h, p, ch);
    var r := ProcessStep(s, i, ch).hubs[i];
    forall j | j in h.links
      ensures CountEnvs(r.links[j], l) == CountEnvs(h.links[j], l)
    {
      var out := LinkOut(h, p, ch, j);
      forall e | e in out
        ensures EnvLevel(e) != l
      {
        LinkOutLevels(s, i, p, ch, j, e);
      }
      CountNoEnvs(out, l);
      CountEnvsAppend(h.links[j], out, l);
    }
  }

  lemma ProcessQueue(s: State, i: Addr, ch: Choice, l: nat)
    requires MeshInv(s) && Enabled(s, Process(i, ch)) && l >= PacketLevel(s.inbox[i][0])
    ensures CountPackets(ProcessStep(s, i, ch).inbox[i], l) + (if l == PacketLevel(s.inbox[i][0]) then 1 else 0)
         == CountPackets(s.inbox[i], l)
  {
    hide Handle, LinkOut, QueueOut, PacketLevel, EnvLevel, HubOk, PacketOk, Type;
    var h, p := s.hubs[i], s.inbox[i][0];
    InMesh(s.hubs.Keys, i, p);
    MeshParts(s, i);
    OkParts(s.hubs.Keys, i, h);
    HandleOut(h, p, ch);
    var out := QueueOut(h, p, ch);
    assert h.queued + out == out;
    forall q | q in out
      ensures PacketLevel(q) != l
    {
      QueueOutLevels(s, i, p, ch, q);
    }
    CountNoPackets(out, l);
    CountPacketsAppend(s.inbox[i][1..], out, l);
  }

  lemma ProcessTotal(s: State, i: Addr, ch: Choice, l: nat)
    requires MeshInv(s) && Enabled(s, Process(i, ch)) && l >= PacketLevel(s.inbox[i][0])
    ensures Total(ProcessStep(s, i, ch), l) + (if l == PacketLevel(s.inbox[i][0]) then 1 else 0) == Total(s, l)
  {
    hide Handle, LinkCounts, PacketLevel, CountPackets, HubOk, PacketOk, Type, MapSum;
    ProcessLinks(s, i, ch, l);
    ProcessQueue(s, i, ch, l);
    ProcessKeepsMesh(s, i, ch);
    var t := ProcessStep(s, i, ch);
    MapSumChange(Weights(s, l), Weights(t, l), i);
  }

  lemma DeliverTotal(s: State, i: Addr, j: Addr, k: nat, l: nat)
    requires MeshInv(s) && Enabled(s, Deliver(i, j, k))
    ensures Total(DeliverStep(s, i, j, k), l) + (if l == EnvLevel(s.hubs[i].links[j][k]) then 1 else 0) == Total(s, l)
  {
    hide LinkCounts, PacketLevel, CountPackets, HubOk, PacketOk, Type, MapSum, MeshInv, EnvLevel;
    MeshParts(s, i);
    DeliverKeepsMesh(s, i, j, k);
    var t := DeliverStep(s, i, j, k);
    var q := s.hubs[i].links[j];
    assert i != j && j in s.hubs by { LinkTarget(s, i, j); }
    DeliverLink(s, i, j, k, l);
    var p := Packet(i, RelayMessage(Arrived(q[k])), None);
    ArrivedLevel(i, q[k]);
    CountPacketsAppend(s.inbox[j], [p], l);
    CountOnePacket(p, l);
    SameKeys(s);
    SameKeys(t);
    MapSumChangeTwo(Weights(s, l), Weights(t, l), i, j);
  }

  lemma SameKeys(s: State)
    requires MeshInv(s)
    ensures s.hubs.Keys == s.inbox.Keys
  {
  }

  lemma ArrivedLevel(i: Addr, env: Env)
    requires Type(i) == ADDR_SERVER
    ensures PacketLevel(Packet(i, RelayMessage(Arrived(env)), None)) == EnvLevel(env)
  {
  }

  lemma CountOnePacket(p: Packet, l: nat)
    ensures CountPackets([p], l) == if PacketLevel(p) == l then 1 else 0
  {
    var ps := [p];
    assert ps[1..] == [];
  }

  lemma DeliverLink(s: State, i: Addr, j: Addr, k: nat, l: nat)
    requires Enabled(s, Deliver(i, j, k))
    ensures MapSum(LinkCounts(DeliverStep(s, i, j, k).hubs[i], l)) + (if l == EnvLevel(s.hubs[i].links[j][k]) then 1 else 0)
         == MapSum(LinkCounts(s.hubs[i], l))
  {
    hide EnvLevel, MapSum, CountEnvs;
    var h := s.hubs[i];
    var r := DeliverStep(s, i, j, k).hubs[i];
    CountOut(h.links[j], k, l);
    MapSumChange(LinkCounts(h, l), LinkCounts(r, l), j);
  }

  lemma GroupTurnTotal(s: State, i: Addr, g: Addr, l: nat)
    requires i in s.hubs
    ensures Total(s.(hubs := s.hubs[i := GroupStep(s.hubs[i], g)]), l) == Total(s, l)
  {
    hide MapSum, TakeGroupPacket, CountPackets, CountEnvs, GroupStep, Tabulate;
    var h := s.hubs[i];
    var r := GroupStep(h, g);
    var t := s.(hubs := s.hubs[i := r]);
    GroupStepFrame(h, g);
    assert LinkCounts(r, l) == LinkCounts(h, l);
    assert t.hubs.Keys * t.inbox.Keys == s.hubs.Keys * s.inbox.Keys;
    assert Weights(t, l) == Weights(s, l);
  }

  lemma GroupTurnBacklog(s: State, i: Addr, g: Addr)
    requires i in s.hubs && g in s.hubs[i].groups && s.hubs[i].groups[g].queue != []
    ensures Backlog(s.(hubs := s.hubs[i := GroupStep(s.hubs[i], g)])) + 1 == Backlog(s)
  {
    hide MapSum, GroupStep, Tabulate;
    GroupTurnLengths(s.hubs[i], g);
    hide QueueLengths;
    MapSumChange(Backlogs(s), Backlogs(s.(hubs := s.hubs[i := GroupStep(s.hubs[i], g)])), i);
  }

  lemma GroupTurnLengths(h: Hub, g: Addr)
    requires g in h.groups && h.groups[g].queue != []
    ensures MapSum(QueueLengths(GroupStep(h, g))) + 1 == MapSum(QueueLengths(h))
  {
    hide MapSum, GroupStep, Tabulate;
    GroupTurnQueue(h, g);
    MapSumChange(QueueLengths(h), QueueLengths(GroupStep(h, g)), g);
  }

  lemma GroupTurnTotals(s: State, i: Addr, g: Addr)
    requires MeshInv(s) && Enabled(s, GroupTurn(i, g))
    ensures var t := Next(s, GroupTurn(i, g));
            && (forall l :: Total(t, l) == Total(s, l))
            && Backlog(t) + 1 == Backlog(s)
  {
    hide MeshInv, Type, GroupStep, Total, Backlog;
    forall l
      ensures Total(Next(s, GroupTurn(i, g)), l) == Total(s, l)
    {
      GroupTurnTotal(s, i, g, l);
    }
    GroupTurnBacklog(s, i, g);
  }

  lemma GroupTurnQueue(h: Hub, g: Addr)
    requires g in h.groups && h.groups[g].queue != []
    ensures var r := GroupStep(h, g);
            && r.groups.Keys == h.groups.Keys
            && |r.groups[g].queue| + 1 == |h.groups[g].queue|
            && forall c :: c in h.groups && c != g ==> r.groups[c] == h.groups[c]
  {
  }

  // ------------------------------------------------------------ main results

  /** A step of the cluster itself: no client connects, leaves or sends. */
  ghost predicate Internal(e: Event) {
    e.Deliver? || e.Process? || e.GroupTurn?
  }

  lemma LevelBound(p: Packet)
    ensures PacketLevel(p) <= 3
  {
  }

  lemma InternalStepsDecrease(s: State, e: Event)
    requires MeshInv(s) && Internal(e) && Enabled(s, e)
    ensures Smaller(Next(s, e), s)
  {
    hide Total, Backlog, MeshInv, PacketLevel, EnvLevel, ProcessStep, DeliverStep;
    match e
    case Deliver(i, j, k) =>
      DeliverTotal(s, i, j, k, 3);
      DeliverTotal(s, i, j, k, 2);
      DeliverTotal(s, i, j, k, 1);
      DeliverTotal(s, i, j, k, 0);
      assert EnvLevel(s.hubs[i].links[j][k]) in {0, 1} by { EnvLevelBound(s.hubs[i].links[j][k]); }
    case Process(i, ch) =>
      LevelBound(s.inbox[i][0]);
      var l := PacketLevel(s.inbox[i][0]);
      ProcessTotal(s, i, ch, 3);
      if l <= 2 { ProcessTotal(s, i, ch, 2); }
      if l <= 1 { ProcessTotal(s, i, ch, 1); }
      if l <= 0 { ProcessTotal(s, i, ch, 0); }
    case GroupTurn(i, g) => GroupTurnTotals(s, i, g);
  }

  lemma EnvLevelBound(env: Env)
    ensures EnvLevel(env) in {0, 1}
  {
  }

  ghost predicate InternalStep(s: State, t: State) {
    exists e :: Internal(e) && Enabled(s, e) && t == Next(s, e)
  }

  /** No schedule of internal steps goes on for ever, whatever was in flight when input stopped. */
  lemma {:induction false} ClusterDrains(f: nat -> State, n: nat) returns (m: nat)
    requires MeshInv(f(n))
    ensures m >= n && !InternalStep(f(m), f(m + 1))
    decreases Total(f(n), 3), Total(f(n), 2), Total(f(n), 1), Total(f(n), 0), Backlog(f(n))
  {
    hide Total, Backlog, MeshInv, Next, Enabled;
    if InternalStep(f(n), f(n + 1)) {
      var e :| Internal(e) && Enabled(f(n), e) && f(n + 1) == Next(f(n), e);
      InternalStepsDecrease(f(n), e);
      StepKeepsMesh(f(n), e);
      m := ClusterDrains(f, n + 1);
    } else {
      m := n;
    }
  }

  /** When no internal step is left, nothing is in flight but packets queued at crashed hubs. */
  lemma QuietMeansEmpty(s: State)
    requires MeshInv(s) && forall e :: Internal(e) ==> !Enabled(s, e)
    ensures forall i, j :: i in s.hubs && j in s.hubs[i].links ==> s.hubs[i].links[j] == []
    ensures forall i :: i in s.inbox && !s.hubs[i].crashed ==> s.inbox[i] == []
    ensures forall i, g :: i in s.hubs && g in s.hubs[i].groups ==> s.hubs[i].groups[g].queue == []
  {
    hide MeshInv;
    SameKeys(s);
    forall i, j | i in s.hubs && j in s.hubs[i].links
      ensures s.hubs[i].links[j] == []
    {
      LinkTarget(s, i, j);
      assert !Enabled(s, Deliver(i, j, 0));
    }
    forall i | i in s.inbox && !s.hubs[i].crashed
      ensures s.inbox[i] == []
    {
      assert !Enabled(s, Process(i, Choice(0, [], [])));
    }
    forall i, g | i in s.hubs && g in s.hubs[i].groups
      ensures s.hubs[i].groups[g].queue == []
    {
      assert !Enabled(s, GroupTurn(i, g));
    }
  }

  /** The one way a hub crashes: it handles a Loc message for a client that is no longer registered there. */
  lemma CrashCondition(h: Hub, p: Packet, ch: Choice)
    requires !h.crashed
    ensures Handle(h, p, ch).crashed <==>
              && p.content.RelayMessage?
              && p.content.env.msg.header.dest == h.self
              && p.content.env.msg.body.Loc?
              && p.content.env.msg.body.target !in h.clients
  {
    hide Relayed, Unregister, Register, Type;
    match p.content
    case AddClient(peer) => RegisterFrame(h, peer, ch.now);
    case DelClient(peer) => UnregisterFrame(h, peer, ch);
    case RelayMessage(env) => RelayedClients(h, p.from, env, p.resp);
    case _ =>
  }
}
