/**
 * What one hub does with one packet: the handlers of hub/hub.go, hub/clent_peer.go and hub/group.go as
 * functions on the hub's whole state. Their class form is in Hub.dfy.
 */
module HubModel {
  import opened Bytes
  import opened Addresses
  import opened Wire
  import opened Maps

  const CLEAN_LIMIT := 1000

  /** One websocket connection of a client; a reconnecting client is a new Conn with the same address. */
  datatype Conn = Conn(id: nat, addr: Addr, remote: seq<byte>, notice: byte)

  /** A registered ClientPeer: session peer -> the server that peer talks through. */
  datatype Client = Client(conn: Conn, sessions: map<Addr, Addr>, groups: set<Addr>)

  /**
   * A message on its way. The tag names a client's message (0 for those a hub makes itself) and hops counts
   * the links it crossed; both only exist to state properties, no handler looks at them.
   */
  datatype Env = Env(tag: nat, hops: nat, msg: Message)

  /** One PushMessage, or the PushMessage calls of one loop, which hit every connection of a set. */
  datatype Push = Push(to: set<Conn>, env: Env)

  datatype GroupPacket = Join(peer: Conn) | Leave(peer: Conn) | Post(env: Env)

  /** A Group: its members, counter and packet channel, and the pushes its loop has made. */
  datatype Group = Group(members: map<Addr, Conn>, memCount: int, queue: seq<GroupPacket>, fanout: seq<Push>)

  datatype Content =
    | AddClient(peer: Conn)
    | DelClient(peer: Conn)
    | AddServer(server: Addr)
    | DelServer(server: Addr)
    | RelayMessage(env: Env)

  /** resp: the response channel, None for nil. */
  datatype Packet = Packet(from: Addr, content: Content, resp: Option<nat>)

  datatype Reply = Reply(resp: nat, status: byte, notFound: bool)

  datatype Hub = Hub(
    self: Addr,
    clients: map<Addr, Client>,    // clientPeers
    links: map<Addr, seq<Env>>,    // serverPeers, each with the messages pushed to it and not yet arrived
    location: map<Addr, Addr>,
    groups: map<Addr, Group>,
    pushes: seq<Push>,             // PushMessage calls on client peers, in order
    queued: seq<Packet>,           // packets the hub put on its own queue
    replies: seq<Reply>,           // sends on response channels, in order
    crashed: bool                  // a nil ClientPeer was dereferenced
  )

  /** What a run does not fix: the clock, and the order in which Go iterates over two maps. */
  datatype Choice = Choice(now: uint64, sessionOrder: seq<Addr>, serverOrder: seq<Addr>)

  // ---------------------------------------------------------------- sessions

  function AddSession(c: Client, peer: Addr, server: Addr): Client {
    if peer in c.sessions then c else c.(sessions := c.sessions[peer := server])
  }

  /** DelSession returns early when the session is there. */
  function DelSession(c: Client, peer: Addr): Client {
    if peer in c.sessions then c else c.(sessions := c.sessions - {peer})
  }

  ghost function WithSession(h: Hub, at: Addr, peer: Addr, server: Addr): Hub {
    if at in h.clients then h.(clients := h.clients[at := AddSession(h.clients[at], peer, server)]) else h
  }

  ghost function RecordSession(h: Hub, from: Addr, header: Header): Hub {
    var h1 := if Type(header.source) == ADDR_CLIENT then WithSession(h, header.source, header.dest, h.self) else h;
    if Type(header.dest) != ADDR_CLIENT then h1
    else WithSession(h1, header.dest, header.source, if Type(from) == ADDR_CLIENT then h.self else from)
  }

  /** getAllSessionServers, the sessions iterated in the given order. */
  function SessionServers(sessions: map<Addr, Addr>, order: seq<Addr>): map<Addr, seq<Addr>> {
    if order == [] then map[]
    else
      var m := SessionServers(sessions, order[..|order| - 1]);
      var p := order[|order| - 1];
      if p !in sessions then m
      else m[sessions[p] := (if sessions[p] in m then m[sessions[p]] else []) + [p]]
  }

  // ------------------------------------------------------------------- links

  /** Push to the peer of a server, if there is one. */
  ghost function PushLink(h: Hub, server: Addr, env: Env): Hub {
    if server in h.links then h.(links := h.links[server := h.links[server] + [env]]) else h
  }

  ghost function Broadcast(h: Hub, env: Env): Hub {
    h.(links := Tabulate(h.links.Keys, s requires s in h.links => h.links[s] + [env]))
  }

  ghost function PushClients(h: Hub, to: set<Conn>, env: Env): Hub {
    h.(pushes := h.pushes + [Push(to, env)])
  }

  function Answer(h: Hub, resp: Option<nat>, status: byte, notFound: bool): Hub {
    if resp.Some? then h.(replies := h.replies + [Reply(resp.value, status, notFound)]) else h
  }

  function System(source: Addr, dest: Addr, body: Body): Env {
    Env(0, 0, Message(Header(source, dest, 0, 0, CommandOf(body), 0), body))
  }

  /** recordLocation: the first server a client was heard through stays, and a client found here is announced back. */
  ghost function RecordLocation(h: Hub, from: Addr, header: Header): Hub {
    if header.source in h.location then h
    else
      var h1 := h.(location := h.location[header.source := from]);
      if header.dest in h.clients
      then PushLink(h1, from, System(h.self, from, Loc(header.source, header.dest, h.self)))
      else h1
  }

  // ------------------------------------------------------------ registration

  ghost function Register(h: Hub, peer: Conn, now: uint64): Hub {
    var kill := System(peer.addr, peer.addr, Kill(now));
    var h1 := if peer.addr in h.clients then PushClients(h, {h.clients[peer.addr].conn}, kill) else h;
    var h2 := Broadcast(h1, kill);
    h2.(clients := h2.clients[peer.addr := Client(peer, map[], {})])
  }

  ghost function LeaveGroups(h: Hub, gs: set<Addr>, peer: Conn): Hub {
    h.(groups := Tabulate(h.groups.Keys, g requires g in h.groups =>
        if g in gs then h.groups[g].(queue := h.groups[g].queue + [Leave(peer)]) else h.groups[g]))
  }

  ghost function SendOffline(h: Hub, server: Addr, targets: seq<Addr>, peer: Conn): Hub {
    var body := Offline(peer.addr, peer.notice, targets);
    if server in h.links then PushLink(h, server, System(h.self, server, body))
    else h.(queued := h.queued + [Packet(h.self, RelayMessage(System(h.self, h.self, body)), None)])
  }

  ghost function SendOfflines(h: Hub, servers: seq<Addr>, targets: map<Addr, seq<Addr>>, peer: Conn): Hub {
    if servers == [] then h
    else
      var n := |servers| - 1;
      var h1 := SendOfflines(h, servers[..n], targets, peer);
      if servers[n] in targets then SendOffline(h1, servers[n], targets[servers[n]], peer) else h1
  }

  ghost function Unregister(h: Hub, peer: Conn, ch: Choice): Hub {
    if peer.addr !in h.clients || h.clients[peer.addr].conn.remote != peer.remote then h
    else
      var alive := h.clients[peer.addr];
      var h1 := h.(clients := h.clients - {peer.addr});
      var h2 := LeaveGroups(h1, alive.groups, peer);
      SendOfflines(h2, ch.serverOrder, SessionServers(alive.sessions, ch.sessionOrder), peer)
  }

  // ---------------------------------------------------------------- messages

  /** The connections sendToDomain pushes to. */
  function DomainConns(h: Hub, dest: Addr): set<Conn> {
    set a | a in h.clients && Domain(a) == Domain(dest) :: h.clients[a].conn
  }

  ghost function PostGroup(h: Hub, g: Addr, env: Env): Hub {
    if g in h.groups then h.(groups := h.groups[g := h.groups[g].(queue := h.groups[g].queue + [Post(env)])]) else h
  }

  /** The routing of handleRelayPacket. */
  ghost function Route(h: Hub, from: Addr, env: Env): Hub {
    var dest := env.msg.header.dest;
    if Type(dest) == ADDR_CLIENT then
      if dest in h.clients then PushClients(h, {h.clients[dest].conn}, env)
      else if Type(from) == ADDR_SERVER then h
      else if dest !in h.location then Broadcast(h, env)
      else PushLink(h, h.location[dest], env)
    else
      Spread(if Type(from) == ADDR_CLIENT then Broadcast(h, env) else h, dest, env)
  }

  /** The local half of a message to a group or to a domain. */
  ghost function Spread(h: Hub, dest: Addr, env: Env): Hub {
    if Type(dest) == ADDR_GROUP then PostGroup(h, dest, env)
    else if Type(dest) == ADDR_BROADCAST then PushClients(h, DomainConns(h, dest), env)
    else h
  }

  ghost function RelayPacket(h: Hub, from: Addr, env: Env, resp: Option<nat>): Hub {
    var dest := env.msg.header.dest;
    Answer(Route(h, from, env), resp, STATUS_OK, Type(dest) == ADDR_CLIENT && dest !in h.clients)
  }

  ghost function JoinGroup(h: Hub, source: Addr, g: Addr): Hub
    requires source in h.clients
  {
    var c := h.clients[source];
    var was := if g in h.groups then h.groups[g] else Group(map[], 0, [], []);
    h.(clients := h.clients[source := c.(groups := c.groups + {g})],
       groups := h.groups[g := was.(queue := was.queue + [Join(c.conn)])])
  }

  ghost function LeaveGroup(h: Hub, source: Addr, g: Addr): Hub
    requires source in h.clients
  {
    var c := h.clients[source];
    var h1 := h.(clients := h.clients[source := c.(groups := c.groups - {g})]);
    if g !in h.groups then h1
    else if h.groups[g].memCount == 0 && |h.groups| > CLEAN_LIMIT then h1.(groups := h.groups - {g})
    else h1.(groups := h.groups[g := h.groups[g].(queue := h.groups[g].queue + [Leave(c.conn)])])
  }

  ghost function InOutGroup(h: Hub, source: Addr, inOut: byte, g: Addr): Hub
    requires source in h.clients
  {
    if inOut == GROUP_IN then JoinGroup(h, source, g)
    else if inOut == GROUP_OUT then LeaveGroup(h, source, g)
    else h
  }

  ghost function InOutGroups(h: Hub, source: Addr, inOut: byte, gs: seq<Addr>): (r: Hub)
    requires source in h.clients
    ensures r.clients.Keys == h.clients.Keys
  {
    if gs == [] then h
    else
      var h1 := InOutGroups(h, source, inOut, gs[..|gs| - 1]);
      InOutGroup(h1, source, inOut, gs[|gs| - 1])
  }

  ghost function OfflineTarget(h: Hub, gone: Addr, notice: byte, t: Addr): Hub {
    if t !in h.clients then h
    else
      var h1 := h.(clients := h.clients[t := DelSession(h.clients[t], gone)]);
      if notice == 1 then PushClients(h1, {h.clients[t].conn}, System(ZERO_ADDR, t, OfflineNotice(gone))) else h1
  }

  ghost function OfflineTargets(h: Hub, gone: Addr, notice: byte, ts: seq<Addr>): Hub {
    if ts == [] then h
    else OfflineTarget(OfflineTargets(h, gone, notice, ts[..|ts| - 1]), gone, notice, ts[|ts| - 1])
  }

  /** The effect of handleLogicPacket; a command without a case has none. */
  ghost function Logic(h: Hub, env: Env): Hub {
    match env.msg.body
    case GroupInOut(inOut, gs) =>
      if env.msg.header.source in h.clients then InOutGroups(h, env.msg.header.source, inOut, gs) else h
    case Loc(target, peer, inServer) =>
      var h1 := h.(location := h.location[peer := inServer]);
      if target in h.clients then WithSession(h1, target, peer, inServer) else h1.(crashed := true)
    case Offline(gone, notice, targets) =>
      OfflineTargets(h.(location := h.location - {gone}), gone, notice, targets)
    case _ => h
  }

  ghost function LogicPacket(h: Hub, env: Env, resp: Option<nat>): Hub {
    Answer(Logic(h, env), resp, STATUS_OK,
           env.msg.body.GroupInOut? && env.msg.header.source !in h.clients)
  }

  /** The bookkeeping in front of the routing of a relayed message. */
  ghost function Record(h: Hub, from: Addr, header: Header): Hub {
    var h1 := RecordSession(h, from, header);
    if Type(from) == ADDR_SERVER && Type(header.source) == ADDR_CLIENT then RecordLocation(h1, from, header) else h1
  }

  ghost function Relayed(h: Hub, from: Addr, env: Env, resp: Option<nat>): Hub {
    var h1 := Record(h, from, env.msg.header);
    if env.msg.header.dest == h.self then LogicPacket(h1, env, resp) else RelayPacket(h1, from, env, resp)
  }

  /** packetHandler: one packet, start to finish. */
  ghost function Handle(h: Hub, p: Packet, ch: Choice): Hub {
    match p.content
    case AddClient(peer) => Answer(Register(h, peer, ch.now), p.resp, STATUS_OK, false)
    case DelClient(peer) => Answer(Unregister(h, peer, ch), p.resp, STATUS_OK, false)
    case AddServer(server) => Answer(h.(links := h.links[server := []]), p.resp, STATUS_OK, false)
    case DelServer(server) => Answer(h.(links := h.links - {server}), p.resp, STATUS_OK, false)
    case RelayMessage(env) => Relayed(h, p.from, env, p.resp)
  }

  // ------------------------------------------------------------ group loops

  /** One turn of Group.loop. */
  function TakeGroupPacket(g: Group): Group
    requires g.queue != []
  {
    var g1 := g.(queue := g.queue[1..]);
    match g.queue[0]
    case Post(env) => g1.(fanout := g.fanout + [Push(g.members.Values, env)])
    case Join(peer) => g1.(members := g.members[peer.addr := peer], memCount := g.memCount + 1)
    case Leave(peer) => g1.(members := g.members - {peer.addr}, memCount := g.memCount - 1)
  }

  ghost function GroupStep(h: Hub, g: Addr): Hub {
    if g in h.groups && h.groups[g].queue != []
    then h.(groups := h.groups[g := TakeGroupPacket(h.groups[g])])
    else h
  }

  // ------------------------------------------------------- runs of one hub

  /** The hub handles a packet, or one of its group loops takes one. */
  datatype HubStep = Take(p: Packet, ch: Choice) | Turn(g: Addr)

  ghost function HubDo(h: Hub, step: HubStep): Hub {
    match step
    case Take(p, ch) => Handle(h, p, ch)
    case Turn(g) => GroupStep(h, g)
  }

  ghost function HubRun(h: Hub, steps: seq<HubStep>): Hub
    decreases |steps|
  {
    if steps == [] then h else HubRun(HubDo(h, steps[0]), steps[1..])
  }

  /** The connections that asked to register so far. */
  ghost function SeenAfter(seen: set<Conn>, step: HubStep): set<Conn> {
    if step.Take? && step.p.content.AddClient? then seen + {step.p.content.peer} else seen
  }
}
