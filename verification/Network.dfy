/**
  A network of services: nodes, connections between them and to clients, and every move that a
  task of a service, the network or a client can make. A run is any sequence of moves.
 */
module Network {
  import opened Bytes
  import opened Routing
  import opened Links

  /** Which frame it was, of those that the far side `client` of a client has sent. */
  datatype Id = Id(client: nat, number: nat)

  /**
    A message, the nodes that have passed it on, and the frame it began as; these two are history, not part of
    the message.
   */
  datatype Tracked<T> = Tracked(body: T, hops: seq<nat>, id: Id)

  /** A first-in-first-out channel: all that was ever put in, and how much has been taken out. */
  datatype Channel<T> = Channel(log: seq<T>, taken: nat)

  /**
    `Accepting` is a `Client` with the key and mesh key its peer presented, `Dialling` a
    `MeshClient` with the key of the server it reached, `Remote` the far side of a client, which
    knows its own key.
   */
  datatype Role =
    | Accepting(key: PublicKey, offered: Option<string>)
    | Dialling(peerKey: PublicKey)
    | Remote(key: PublicKey)

  /** One end of a connection: its write loop's channel, and the frames it has put on the wire. */
  datatype End = End(
    owner: nat,
    role: Role,
    peer: nat,
    live: bool,
    canMesh: bool,
    closed: bool,
    failed: set<PublicKey>,
    queue: Channel<Tracked<WriteCommand>>,
    wire: Channel<Tracked<Frame>>)

  /**
    A service. `sending` is a packet whose sink has been looked up but that has not been handed
    over; `born` records, for each key, when it first entered the table.
   */
  datatype Node = Node(
    meshKey: Option<string>,
    tables: Tables,
    listening: bool,
    running: bool,
    inbox: seq<Tracked<ServiceCommand>>,
    sending: Option<(Sink, Tracked<Packet>)>,
    pending: multiset<Notice>,
    born: map<PublicKey, nat>)

  /**
    `dropped` are the packets for which a command loop found no table entry, `lost` those that
    met a closed sink or on which a write loop panicked.
   */
  datatype Net = Net(nodes: seq<Node>, ends: seq<End>, clock: nat, dropped: seq<Tracked<Packet>>, lost: seq<Packet>)

  datatype Move =
    | Dial(from: nat, to: nat, key: PublicKey, peerKey: PublicKey)
    | Connect(to: nat, key: PublicKey, offered: Option<string>)
    | Register(e: nat)                        // `add_new_client`
    | Join(e: nat)                            // a dialled link enters the mesh
    | Listen(s: nat)                          // `new` is done, the listener runs
    | Say(e: nat, frame: Frame)               // a client sends a frame, a dialling end subscribes
    | Read(e: nat)                            // a turn of a read loop
    | Handle(s: nat)                          // a turn of the command loop, up to a send
    | Hand(s: nat)                            // the send
    | Inform(s: nat, notice: Notice)          // a notification task sends
    | Write(e: nat)                           // a turn of a write loop
    | Close(e: nat)                           // a write loop ends

  /** Announcements are not followed. */
  const NO_ID := Id(0, 0)

  const SILENT_QUEUE: Channel<Tracked<WriteCommand>> := Channel([], 0)
  const SILENT_WIRE: Channel<Tracked<Frame>> := Channel([], 0)

  function FreshNode(meshKey: Option<string>): Node
  {
    Node(meshKey, Tables(map[], map[]), false, true, [], None, multiset{}, map[])
  }

  function FreshEnd(owner: nat, role: Role, peer: nat): End
  {
    End(owner, role, peer, role.Dialling?, false, false, {}, SILENT_QUEUE, SILENT_WIRE)
  }

  /** An empty mesh key is sent as an empty string, which the server reads as none. */
  function Offered(meshKey: string): Option<string>
  {
    if meshKey == "" then None else Some(meshKey)
  }

  /** A sink of node `s` that has been handed out. */
  predicate Owned(net: Net, e: nat, s: nat)
  {
    e < |net.ends| && !net.ends[e].role.Remote? && net.ends[e].owner == s && net.ends[e].live
  }

  function Put<T>(c: Channel<T>, x: T): Channel<T> { c.(log := c.log + [x]) }

  predicate Ready<T>(c: Channel<T>) { c.taken < |c.log| }

  function Next<T>(c: Channel<T>): T
    requires Ready(c)
  {
    c.log[c.taken]
  }

  function SetNode(net: Net, s: nat, n: Node): Net
    requires s < |net.nodes|
  {
    net.(nodes := net.nodes[s := n])
  }

  function SetEnd(net: Net, e: nat, x: End): Net
    requires e < |net.ends|
  {
    net.(ends := net.ends[e := x])
  }

  function Bear(n: Node, key: PublicKey, now: nat): map<PublicKey, nat>
  {
    if key in n.born then n.born else n.born[key := now]
  }

  // ---------- which moves are possible ----------

  function ReadsNext(net: Net, e: nat): ReadAction
    requires e < |net.ends| && net.ends[e].peer < |net.ends| && Ready(net.ends[net.ends[e].peer].wire)
  {
    var x, f := net.ends[e], Next(net.ends[net.ends[e].peer].wire).body;
    match x.role
    case Accepting(key, _) => ClientReads(f, key, x.canMesh, e)
    case Dialling(_) => MeshClientReads(f, e)
    case Remote(_) => Broken
  }

  function WritesNext(x: End): WriteAction
    requires Ready(x.queue)
  {
    match x.role
    case Accepting(key, _) => ClientWrites(Next(x.queue).body, key, x.canMesh)
    case Dialling(_) => MeshClientWrites(Next(x.queue).body)
    case Remote(_) => Panic
  }

  predicate CanDial(net: Net, from: nat, to: nat)
  {
    from < |net.nodes| && to < |net.nodes| && !net.nodes[from].listening && net.nodes[from].meshKey.Some?
  }

  predicate CanRegister(net: Net, e: nat)
  {
    && e < |net.ends| && net.ends[e].role.Accepting? && !net.ends[e].live
    && net.ends[e].owner < |net.nodes| && net.nodes[net.ends[e].owner].listening
    && CanMesh(net.nodes[net.ends[e].owner].meshKey, net.ends[e].role.offered).Some?
  }

  predicate CanJoin(net: Net, e: nat)
  {
    && e < |net.ends| && net.ends[e].role.Dialling?
    && net.ends[e].owner < |net.nodes| && !net.nodes[net.ends[e].owner].listening
  }

  predicate CanSay(net: Net, e: nat, f: Frame)
  {
    e < |net.ends| && (net.ends[e].role.Remote? || (net.ends[e].role.Dialling? && f.Watch?))
  }

  predicate CanRead(net: Net, e: nat)
  {
    && e < |net.ends| && net.ends[e].live && net.ends[e].owner < |net.nodes| && net.ends[e].peer < |net.ends|
    && net.nodes[net.ends[e].owner].running
    && Ready(net.ends[net.ends[e].peer].wire) && !ReadsNext(net, e).Broken?
  }

  predicate CanHandle(net: Net, s: nat)
  {
    s < |net.nodes| && net.nodes[s].running && net.nodes[s].sending.None? && net.nodes[s].inbox != []
  }

  predicate CanHand(net: Net, s: nat)
  {
    && s < |net.nodes| && net.nodes[s].running && net.nodes[s].sending.Some?
    && net.nodes[s].sending.value.0 < |net.ends|
  }

  predicate CanInform(net: Net, s: nat, notice: Notice)
  {
    s < |net.nodes| && notice in net.nodes[s].pending && notice.0 < |net.ends|
  }

  predicate CanWrite(net: Net, e: nat)
  {
    e < |net.ends| && !net.ends[e].closed && !net.ends[e].role.Remote? && Ready(net.ends[e].queue)
  }

  predicate Enabled(net: Net, m: Move)
  {
    match m
    case Dial(from, to, _, _) => CanDial(net, from, to)
    case Connect(to, _, _) => to < |net.nodes|
    case Register(e) => CanRegister(net, e)
    case Join(e) => CanJoin(net, e)
    case Listen(s) => s < |net.nodes|
    case Say(e, f) => CanSay(net, e, f)
    case Read(e) => CanRead(net, e)
    case Handle(s) => CanHandle(net, s)
    case Hand(s) => CanHand(net, s)
    case Inform(s, n) => CanInform(net, s, n)
    case Write(e) => CanWrite(net, e)
    case Close(e) => e < |net.ends|
  }

  // ---------- what they do ----------

  function AddLink(net: Net, near: End, far: End): Net
  {
    net.(ends := net.ends + [near.(peer := |net.ends| + 1), far.(peer := |net.ends|)])
  }

  function DoDial(net: Net, from: nat, to: nat, key: PublicKey, peerKey: PublicKey): Net
    requires CanDial(net, from, to)
  {
    AddLink(net, FreshEnd(to, Accepting(key, Offered(net.nodes[from].meshKey.value)), 0),
        FreshEnd(from, Dialling(peerKey), 0))
  }

  function DoConnect(net: Net, to: nat, key: PublicKey, offered: Option<string>): Net
  {
    AddLink(net, FreshEnd(to, Accepting(key, offered), 0), FreshEnd(to, Remote(key), 0))
  }

  function DoRegister(net: Net, e: nat): Net
    requires CanRegister(net, e)
  {
    var x := net.ends[e];
    var n := net.nodes[x.owner];
    var n' := n.(tables := Routing.Register(n.tables, x.role.key, e),
                 pending := n.pending + multiset(NoticesOf(n.tables, x.role.key)),
                 born := Bear(n, x.role.key, net.clock));
    SetEnd(SetNode(net, x.owner, n'), e, x.(live := true, canMesh := CanMesh(n.meshKey, x.role.offered).value))
  }

  function DoJoin(net: Net, e: nat): Net
    requires CanJoin(net, e)
  {
    var s := net.ends[e].owner;
    SetNode(net, s, net.nodes[s].(tables := Enlist(net.nodes[s].tables, net.ends[e].role.peerKey, e)))
  }

  function DoListen(net: Net, s: nat): Net
    requires s < |net.nodes|
  {
    SetNode(net, s, net.nodes[s].(listening := true))
  }

  function DoSay(net: Net, e: nat, f: Frame): Net
    requires CanSay(net, e, f)
  {
    SetEnd(net, e, net.ends[e].(wire := Put(net.ends[e].wire, Tracked(f, [], Id(e, |net.ends[e].wire.log|)))))
  }

  function DoRead(net: Net, e: nat): Net
    requires CanRead(net, e)
  {
    var s, p := net.ends[e].owner, net.ends[e].peer;
    var y, n := net.ends[p], net.nodes[s];
    var n' := match ReadsNext(net, e)
              case Command(c) => n.(inbox := n.inbox + [Tracked(c, Next(y.wire).hops, Next(y.wire).id)])
              case _ => n;
    SetEnd(SetNode(net, s, n'), p, y.(wire := y.wire.(taken := y.wire.taken + 1)))
  }

  /** The first command in the inbox, and the node without it. */
  function DoHandle(net: Net, s: nat): Net
    requires CanHandle(net, s)
  {
    var item, n := net.nodes[s].inbox[0], net.nodes[s].(inbox := net.nodes[s].inbox[1..]);
    match item.body
    case Stop => SetNode(net, s, n.(running := false))
    case Route(p) => DoRoute(net, s, n, Tracked(p, item.hops, item.id))
    case Subscribe(key, sink) =>
      var t := Enlist(n.tables, key, sink);
      SetNode(net, s, n.(tables := t, pending := n.pending + multiset(FloodTo(t, sink))))
    case PeerPresent(key, sink) =>
      SetNode(net, s, n.(tables := Learn(n.tables, key, sink), born := Bear(n, key, net.clock)))
  }

  function DoRoute(net: Net, s: nat, n: Node, item: Tracked<Packet>): Net
    requires s < |net.nodes|
  {
    if item.body.target !in n.tables.peers then SetNode(net, s, n).(dropped := net.dropped + [item])
    else SetNode(net, s, n.(sending := Some((n.tables.peers[item.body.target], item.(hops := item.hops + [s])))))
  }

  function DoHand(net: Net, s: nat): Net
    requires CanHand(net, s)
  {
    var n, e, item := net.nodes[s], net.nodes[s].sending.value.0, net.nodes[s].sending.value.1;
    if net.ends[e].closed then SetNode(net, s, n.(sending := None, running := false)).(lost := net.lost + [item.body])
    else
      SetEnd(SetNode(net, s, n.(sending := None)), e,
             net.ends[e].(queue := Put(net.ends[e].queue, Tracked(Transmit(item.body), item.hops, item.id))))
  }

  function DoInform(net: Net, s: nat, notice: Notice): Net
    requires CanInform(net, s, notice)
  {
    var n, e := net.nodes[s], notice.0;
    SetEnd(SetNode(net, s, n.(pending := n.pending - multiset{notice})), e,
           if net.ends[e].closed then net.ends[e].(failed := net.ends[e].failed + {notice.1})
           else net.ends[e].(queue := Put(net.ends[e].queue, Tracked(Notify(notice.1), [], NO_ID))))
  }

  function DoWrite(net: Net, e: nat): Net
    requires CanWrite(net, e)
  {
    var x, c := net.ends[e], Next(net.ends[e].queue);
    var x' := x.(queue := x.queue.(taken := x.queue.taken + 1));
    match WritesNext(x)
    case Emit(f) => SetEnd(net, e, x'.(wire := Put(x.wire, Tracked(f, c.hops, c.id))))
    case Panic =>
      SetEnd(net, e, x'.(closed := true)).(lost := if c.body.Transmit? then net.lost + [c.body.packet] else net.lost)
  }

  function DoClose(net: Net, e: nat): Net
    requires e < |net.ends|
  {
    SetEnd(net, e, net.ends[e].(closed := true))
  }

  function Do(net: Net, m: Move): Net
    requires Enabled(net, m)
  {
    match m
    case Dial(from, to, key, peerKey) => DoDial(net, from, to, key, peerKey)
    case Connect(to, key, offered) => DoConnect(net, to, key, offered)
    case Register(e) => DoRegister(net, e)
    case Join(e) => DoJoin(net, e)
    case Listen(s) => DoListen(net, s)
    case Say(e, f) => DoSay(net, e, f)
    case Read(e) => DoRead(net, e)
    case Handle(s) => DoHandle(net, s)
    case Hand(s) => DoHand(net, s)
    case Inform(s, n) => DoInform(net, s, n)
    case Write(e) => DoWrite(net, e)
    case Close(e) => DoClose(net, e)
  }

  /** Every move takes a moment. */
  function Tick(net: Net): Net { net.(clock := net.clock + 1) }

  function After(net: Net, m: Move): Net
    requires Enabled(net, m)
  {
    Tick(Do(net, m))
  }

  /** Services that have just started, with no connections. */
  predicate Initial(net: Net)
  {
    && net.ends == [] && net.dropped == [] && net.lost == []
    && forall s | 0 <= s < |net.nodes| :: net.nodes[s] == FreshNode(net.nodes[s].meshKey)
  }

  /** `run` is a run: each state comes from the one before by a move. */
  ghost predicate IsRun(run: seq<Net>)
  {
    && run != [] && Initial(run[0])
    && forall i | 0 <= i < |run| - 1 :: Follows(run[i], run[i + 1])
  }

  ghost predicate Follows(net: Net, net': Net)
  {
    exists m :: Enabled(net, m) && net' == After(net, m)
  }
}
