/**
  What every reachable state of the network satisfies, stated node by node and end by end, and
  why it survives changes elsewhere. A node `n` or an end `x` is passed as a value beside the
  network, so that the state before a move can be judged against the network after it.
 */
module NetworkInvariants {
  import opened Bytes
  import opened Routing
  import opened Links
  import opened Network
  import P = Protocol

  // ---------- vocabulary ----------

  /** The keys announced by frames, by commands, and by commands that wait with the sink they came by. */
  function Said(log: seq<Tracked<Frame>>): set<PublicKey>
  {
    set i | 0 <= i < |log| && log[i].body.Announce? :: log[i].body.key
  }

  function Told(log: seq<Tracked<WriteCommand>>): set<PublicKey>
  {
    set i | 0 <= i < |log| && log[i].body.Notify? :: log[i].body.key
  }

  function Hearing(inbox: seq<Tracked<ServiceCommand>>): set<Notice>
  {
    set i | 0 <= i < |inbox| && inbox[i].body.PeerPresent? :: (inbox[i].body.sink, inbox[i].body.key)
  }

  /** The keys that the other side of end `e` has announced. */
  function SaidTo(net: Net, e: nat): set<PublicKey>
    requires e < |net.ends| && net.ends[e].peer < |net.ends|
  {
    Said(net.ends[net.ends[e].peer].wire.log)
  }

  function Born(net: Net, s: nat): map<PublicKey, nat>
    requires s < |net.nodes|
  {
    net.nodes[s].born
  }

  /** The end through which a key registered itself. */
  predicate IsOwnEnd(x: End, k: PublicKey)
  {
    x.role.Accepting? && x.role.key == k
  }

  // ---------- packets on their way ----------

  /** Each node on the way knew `t` before the node ahead of it did. */
  ghost predicate Descending(net: Net, t: PublicKey, hops: seq<nat>)
  {
    && (forall i | 0 <= i < |hops| :: hops[i] < |net.nodes| && t in Born(net, hops[i]))
    && (forall i, j | 0 <= i < j < |hops| :: Born(net, hops[i])[t] > Born(net, hops[j])[t])
  }

  /** A packet for `t` that has reached node `s`; if it was passed on to `s`, then `s` knows `t`, and for longest. */
  ghost predicate At(net: Net, t: PublicKey, hops: seq<nat>, s: nat)
  {
    && s < |net.nodes| && Descending(net, t, hops)
    && (hops != [] ==> t in Born(net, s) && Born(net, s)[t] < Born(net, hops[|hops| - 1])[t])
  }

  /** A packet for `t` that crosses the connection of `e`, whose other side announced `t`. */
  ghost predicate OnLink(net: Net, t: PublicKey, hops: seq<nat>, e: nat)
  {
    && e < |net.ends| && net.ends[e].peer < |net.ends| && t in SaidTo(net, e)
    && (!net.ends[net.ends[e].peer].role.Remote? ==> At(net, t, hops, net.ends[net.ends[e].peer].owner))
  }

  /** A packet for `t` handed to the sink of `e`: for the client behind it, or across the connection. */
  ghost predicate OnSink(net: Net, t: PublicKey, hops: seq<nat>, e: nat)
  {
    && e < |net.ends| && Descending(net, t, hops) && hops != [] && hops[|hops| - 1] == net.ends[e].owner
    && (IsOwnEnd(net.ends[e], t) || OnLink(net, t, hops, e))
  }

  /** A client with the packet's source key sent the packet, on the connection of `e`. */
  ghost predicate Origin(net: Net, e: nat, p: Packet)
  {
    && e < |net.ends| && IsOwnEnd(net.ends[e], p.source)
    && net.ends[e].peer < |net.ends| && net.ends[net.ends[e].peer].role.Remote?
    && Speaks(net.ends[net.ends[e].peer].wire.log, P.Send(p.target, p.payload))
  }

  ghost predicate Speaks(log: seq<Tracked<Frame>>, f: Frame)
  {
    exists i :: 0 <= i < |log| && log[i].body == f
  }

  ghost predicate Sent(net: Net, p: Packet)
  {
    exists e: nat :: Origin(net, e, p)
  }

  // ---------- nodes ----------

  ghost predicate BirthOk(n: Node, clock: nat)
  {
    n.born.Keys == n.tables.peers.Keys && forall k | k in n.born :: n.born[k] < clock
  }

  /** An entry leads to the client itself, or to a connection whose other side announced the key and is older in it. */
  ghost predicate RouteOk(net: Net, s: nat, n: Node, k: PublicKey)
    requires k in n.tables.peers
  {
    var e := n.tables.peers[k];
    && Owned(net, e, s) && k in n.born
    && (IsOwnEnd(net.ends[e], k) || Learned(net, e, k, n.born[k]))
  }

  ghost predicate Learned(net: Net, e: nat, k: PublicKey, birth: nat)
    requires e < |net.ends|
  {
    && net.ends[e].peer < |net.ends| && k in SaidTo(net, e)
    && var y := net.ends[net.ends[e].peer];
       !y.role.Remote? ==> y.owner < |net.nodes| && k in Born(net, y.owner) && Born(net, y.owner)[k] < birth
  }

  /** A mesh entry is a link that was dialled, or a registered client that proved the mesh key. */
  ghost predicate MemberOk(net: Net, s: nat, n: Node, m: PublicKey)
    requires m in n.tables.mesh
  {
    var e := n.tables.mesh[m];
    && Owned(net, e, s)
    && (net.ends[e].role == Dialling(m) || (IsOwnEnd(net.ends[e], m) && net.ends[e].canMesh && m in n.born))
  }

  /** The announcement of `k` to `e` is pending, has been handed over, or failed. */
  ghost predicate Informed(net: Net, n: Node, e: nat, k: PublicKey)
  {
    e < |net.ends| && ((e, k) in n.pending || k in Told(net.ends[e].queue.log) || k in net.ends[e].failed)
  }

  ghost predicate IsLocal(net: Net, n: Node, k: PublicKey)
  {
    k in n.tables.peers && n.tables.peers[k] < |net.ends| && IsOwnEnd(net.ends[n.tables.peers[k]], k)
  }

  /** Everyone in the mesh is informed of every client, those in the mesh aside. */
  ghost predicate AllInformed(net: Net, n: Node)
  {
    && (forall k | IsLocal(net, n, k) :: n.listening)
    && (forall m, k | m in n.tables.mesh && IsLocal(net, n, k) ::
         k in n.tables.mesh || Informed(net, n, n.tables.mesh[m], k))
  }

  ghost predicate CommandOk(net: Net, s: nat, item: Tracked<ServiceCommand>)
  {
    match item.body
    case Stop => false
    case Route(p) => At(net, p.target, item.hops, s) && Sent(net, p)
    case Subscribe(k, e) => Owned(net, e, s) && IsOwnEnd(net.ends[e], k) && net.ends[e].canMesh
    case PeerPresent(k, e) => Owned(net, e, s) && net.ends[e].peer < |net.ends| && k in SaidTo(net, e)
  }

  ghost predicate InboxOk(net: Net, s: nat, inbox: seq<Tracked<ServiceCommand>>)
  {
    forall i {:trigger CommandOk(net, s, inbox[i])} | 0 <= i < |inbox| :: CommandOk(net, s, inbox[i])
  }

  ghost predicate PendingOk(net: Net, s: nat, n: Node)
  {
    forall a | a in n.pending :: Owned(net, a.0, s) && a.1 in n.born
  }

  ghost predicate SendingOk(net: Net, s: nat, n: Node)
  {
    n.sending.Some? ==>
      && Owned(net, n.sending.value.0, s) && Sent(net, n.sending.value.1.body)
      && OnSink(net, n.sending.value.1.body.target, n.sending.value.1.hops, n.sending.value.0)
  }

  ghost predicate NodeOk(net: Net, s: nat, n: Node)
  {
    && BirthOk(n, net.clock) && PendingOk(net, s, n) && SendingOk(net, s, n) && InboxOk(net, s, n.inbox)
       && AllInformed(net, n)
    && (forall k {:trigger RouteOk(net, s, n, k)} | k in n.tables.peers :: RouteOk(net, s, n, k))
    && (forall m {:trigger MemberOk(net, s, n, m)} | m in n.tables.mesh :: MemberOk(net, s, n, m))
  }

  // ---------- ends ----------

  ghost predicate EndShape(net: Net, e: nat, x: End)
  {
    && x.owner < |net.nodes|
    && x.peer < |net.ends| && x.peer != e && net.ends[x.peer].peer == e
    && x.queue.taken <= |x.queue.log| && x.wire.taken <= |x.wire.log|
    && (x.role.Accepting? <==> !net.ends[x.peer].role.Accepting?)
    && (x.role.Dialling? ==> x.live) && (x.role.Remote? ==> !x.live)
    && (x.role.Accepting? && net.ends[x.peer].role.Dialling? ==> OffersKey(net, x.role.offered, net.ends[x.peer].owner))
    && (x.role.Accepting? && net.ends[x.peer].role.Remote? ==> net.ends[x.peer].role.key == x.role.key)
  }

  /** A dialling node presents its own mesh key, unless that is empty. */
  predicate OffersKey(net: Net, offered: Option<string>, s: nat)
  {
    s < |net.nodes| && net.nodes[s].meshKey.Some? && offered == Offered(net.nodes[s].meshKey.value)
  }

  /**
    A sink is used only once it has been handed out. A node announces only keys it knows, and knows the clients
    it has registered; meshing takes the mesh key.
   */
  ghost predicate EndHonest(net: Net, x: End)
  {
    x.owner < |net.nodes| && !x.role.Remote? ==>
      && (x.queue.log != [] ==> x.live)
      && Told(x.queue.log) <= Born(net, x.owner).Keys && Said(x.wire.log) <= Born(net, x.owner).Keys
      && (x.role.Accepting? && x.live ==>
            x.role.key in Born(net, x.owner) && CanMesh(net.nodes[x.owner].meshKey, x.role.offered) == Some(x.canMesh))
  }

  ghost predicate QueueOk(net: Net, e: nat, x: End)
  {
    forall i | 0 <= i < |x.queue.log| && x.queue.log[i].body.Transmit? ::
      !x.role.Remote? && Sent(net, x.queue.log[i].body.packet)
          && OnSink(net, x.queue.log[i].body.packet.target, x.queue.log[i].hops, e)
  }

  /**
    Clients make up their own frames. A node forwards packets only downstream, to those who
    dialled it, and gives a client only packets for it; it alters none.
   */
  ghost predicate FrameOk(net: Net, e: nat, x: End, f: Tracked<Frame>)
  {
    if x.role.Remote? then f.hops == []
    else if x.role.Dialling? then f.body.Watch? || f.body.Announce?
    else
      match f.body
      case Send(_, _) => false
      case Watch => false
      case Forward(source, target, payload) => OnLink(net, target, f.hops, e)
          && Sent(net, Packet(source, target, payload))
      case Recv(target, payload) => target == x.role.key && exists source :: Sent(net, Packet(source, target, payload))
      case _ => true
  }

  ghost predicate WireOk(net: Net, e: nat, x: End)
  {
    forall i {:trigger FrameOk(net, e, x, x.wire.log[i])} | 0 <= i < |x.wire.log| :: FrameOk(net, e, x, x.wire.log[i])
  }

  /** Announcements are not lost on the way: from queue to wire, from wire to inbox, from inbox to table. */
  ghost predicate EndConveys(net: Net, x: End)
    requires x.queue.taken <= |x.queue.log| && x.wire.taken <= |x.wire.log|
  {
    && (!x.role.Remote? ==> Told(x.queue.log[..x.queue.taken]) <= Said(x.wire.log))
    && (x.peer < |net.ends| && !net.ends[x.peer].role.Remote? && net.ends[x.peer].owner < |net.nodes| ==>
          forall k | k in Said(x.wire.log[..x.wire.taken]) :: Arrived(net, net.ends[x.peer].owner, x.peer, k))
  }

  ghost predicate Arrived(net: Net, s: nat, e: nat, k: PublicKey)
    requires s < |net.nodes|
  {
    k in Born(net, s) || (e, k) in Hearing(net.nodes[s].inbox)
  }

  ghost predicate EndOk(net: Net, e: nat, x: End)
  {
    EndShape(net, e, x) && EndHonest(net, x) && QueueOk(net, e, x) && WireOk(net, e, x) && EndConveys(net, x)
  }

  /** Only a packet's first node drops it. */
  ghost predicate DropsOk(dropped: seq<Tracked<Packet>>)
  {
    forall i | 0 <= i < |dropped| :: dropped[i].hops == []
  }

  ghost predicate Inv(net: Net)
  {
    && (forall s {:trigger NodeOk(net, s, net.nodes[s])} | 0 <= s < |net.nodes| :: NodeOk(net, s, net.nodes[s]))
    && (forall e {:trigger EndOk(net, e, net.ends[e])} | 0 <= e < |net.ends| :: EndOk(net, e, net.ends[e]))
    && DropsOk(net.dropped)
  }

  // ---------- growth ----------

  ghost predicate EndGrows(x: End, x': End)
  {
    && x'.owner == x.owner && x'.role == x.role && x'.peer == x.peer
    && (x.live ==> x'.live && x'.canMesh == x.canMesh) && x.failed <= x'.failed
    && x.queue.log <= x'.queue.log && x.wire.log <= x'.wire.log
  }

  ghost predicate NodeGrows(n: Node, n': Node)
  {
    && n'.meshKey == n.meshKey
    && (forall k | k in n.born :: k in n'.born && n'.born[k] == n.born[k])
    && (forall h | h in Hearing(n.inbox) :: h in Hearing(n'.inbox) || h.1 in n'.born)
  }

  /** Nothing that was established is ever taken back. */
  ghost predicate Grows(net: Net, net': Net)
  {
    && |net'.nodes| == |net.nodes| && |net.ends| <= |net'.ends| && net.clock <= net'.clock
    && (forall s | 0 <= s < |net.nodes| :: NodeGrows(net.nodes[s], net'.nodes[s]))
    && (forall e | 0 <= e < |net.ends| :: EndGrows(net.ends[e], net'.ends[e]))
  }

  lemma SaidGrows(log: seq<Tracked<Frame>>, log': seq<Tracked<Frame>>)
    requires log <= log'
    ensures Said(log) <= Said(log')
  {
    forall k | k in Said(log) ensures k in Said(log') {
      var i :| 0 <= i < |log| && log[i].body.Announce? && log[i].body.key == k;
      assert log'[i] == log[i];
    }
  }

  lemma ToldGrows(log: seq<Tracked<WriteCommand>>, log': seq<Tracked<WriteCommand>>)
    requires log <= log'
    ensures Told(log) <= Told(log')
  {
    forall k | k in Told(log) ensures k in Told(log') {
      var i :| 0 <= i < |log| && log[i].body.Notify? && log[i].body.key == k;
      assert log'[i] == log[i];
    }
  }

  lemma SaidToGrows(net: Net, net': Net, e: nat)
    requires Grows(net, net') && e < |net.ends| && net.ends[e].peer < |net.ends|
    ensures SaidTo(net, e) <= SaidTo(net', e)
  {
    SaidGrows(net.ends[net.ends[e].peer].wire.log, net'.ends[net.ends[e].peer].wire.log);
  }

  lemma DescendingStays(net: Net, net': Net, t: PublicKey, hops: seq<nat>)
    requires Grows(net, net') && Descending(net, t, hops)
    ensures Descending(net', t, hops)
  {
    forall i | 0 <= i < |hops| ensures t in Born(net', hops[i]) && Born(net', hops[i])[t] == Born(net, hops[i])[t] {}
  }

  lemma AtStays(net: Net, net': Net, t: PublicKey, hops: seq<nat>, s: nat)
    requires Grows(net, net') && At(net, t, hops, s)
    ensures At(net', t, hops, s)
  {
    DescendingStays(net, net', t, hops);
  }

  lemma OnLinkStays(net: Net, net': Net, t: PublicKey, hops: seq<nat>, e: nat)
    requires Grows(net, net') && OnLink(net, t, hops, e)
    ensures OnLink(net', t, hops, e)
  {
    SaidToGrows(net, net', e);
    var y := net.ends[net.ends[e].peer];
    if !y.role.Remote? { AtStays(net, net', t, hops, y.owner); }
  }

  lemma OnSinkStays(net: Net, net': Net, t: PublicKey, hops: seq<nat>, e: nat)
    requires Grows(net, net') && OnSink(net, t, hops, e)
    ensures OnSink(net', t, hops, e)
  {
    DescendingStays(net, net', t, hops);
    if OnLink(net, t, hops, e) { OnLinkStays(net, net', t, hops, e); }
  }

  lemma SentStays(net: Net, net': Net, p: Packet)
    requires Grows(net, net') && Sent(net, p)
    ensures Sent(net', p)
  {
    var e: nat :| Origin(net, e, p);
    var log, log' := net.ends[net.ends[e].peer].wire.log, net'.ends[net.ends[e].peer].wire.log;
    var i :| 0 <= i < |log| && log[i].body == P.Send(p.target, p.payload);
    assert log'[i] == log[i];
    assert Origin(net', e, p);
  }

  // ---------- what is good stays good ----------

  lemma RouteStays(net: Net, net': Net, s: nat, n: Node, k: PublicKey)
    requires Grows(net, net') && k in n.tables.peers && RouteOk(net, s, n, k)
    ensures RouteOk(net', s, n, k)
  {
    var e := n.tables.peers[k];
    if !IsOwnEnd(net.ends[e], k) { SaidToGrows(net, net', e); }
  }

  lemma InboxStays(net: Net, net': Net, s: nat, inbox: seq<Tracked<ServiceCommand>>)
    requires Grows(net, net') && InboxOk(net, s, inbox)
    ensures InboxOk(net', s, inbox)
  {
    forall i | 0 <= i < |inbox| ensures CommandOk(net', s, inbox[i]) {
      assert CommandOk(net, s, inbox[i]);
      match inbox[i].body
      case Route(p) => AtStays(net, net', p.target, inbox[i].hops, s); SentStays(net, net', p);
      case PeerPresent(k, e) => SaidToGrows(net, net', e);
      case _ =>
    }
  }

  lemma InformedStays(net: Net, net': Net, n: Node)
    requires Grows(net, net') && AllInformed(net, n)
    requires forall k | k in n.tables.peers :: n.tables.peers[k] < |net.ends|
    requires forall m | m in n.tables.mesh :: n.tables.mesh[m] < |net.ends|
    ensures AllInformed(net', n)
  {
    forall m, k | m in n.tables.mesh && IsLocal(net', n, k)
      ensures k in n.tables.mesh || Informed(net', n, n.tables.mesh[m], k)
    {
      var e := n.tables.mesh[m];
      assert IsLocal(net, n, k);
      ToldGrows(net.ends[e].queue.log, net'.ends[e].queue.log);
    }
    forall k | IsLocal(net', n, k) ensures n.listening {
      assert IsLocal(net, n, k);
    }
  }

  /** A node that was good is good in the grown network, its own successor included. */
  lemma NodeStays(net: Net, net': Net, s: nat, n: Node)
    requires Grows(net, net') && NodeOk(net, s, n)
    ensures NodeOk(net', s, n)
  {
    forall k | k in n.tables.peers
      ensures RouteOk(net', s, n, k) && n.tables.peers[k] < |net.ends|
    {
      RouteStays(net, net', s, n, k);
    }
    forall m | m in n.tables.mesh ensures MemberOk(net', s, n, m) && n.tables.mesh[m] < |net.ends| {
      assert MemberOk(net, s, n, m);
    }
    InboxStays(net, net', s, n.inbox);
    InformedStays(net, net', n);
    if n.sending.Some? {
      OnSinkStays(net, net', n.sending.value.1.body.target, n.sending.value.1.hops, n.sending.value.0);
      SentStays(net, net', n.sending.value.1.body);
    }
  }

  lemma QueueStays(net: Net, net': Net, e: nat, x: End)
    requires Grows(net, net') && QueueOk(net, e, x)
    ensures QueueOk(net', e, x)
  {
    forall i | 0 <= i < |x.queue.log| && x.queue.log[i].body.Transmit?
      ensures Sent(net', x.queue.log[i].body.packet)
          && OnSink(net', x.queue.log[i].body.packet.target, x.queue.log[i].hops, e)
    {
      OnSinkStays(net, net', x.queue.log[i].body.packet.target, x.queue.log[i].hops, e);
      SentStays(net, net', x.queue.log[i].body.packet);
    }
  }

  lemma FrameStays(net: Net, net': Net, e: nat, x: End, f: Tracked<Frame>)
    requires Grows(net, net') && FrameOk(net, e, x, f)
    ensures FrameOk(net', e, x, f)
  {
    if x.role.Accepting? {
      match f.body
      case Forward(source, target, payload) =>
        OnLinkStays(net, net', target, f.hops, e);
        SentStays(net, net', Packet(source, target, payload));
      case Recv(target, payload) =>
        var source :| Sent(net, Packet(source, target, payload));
        SentStays(net, net', Packet(source, target, payload));
      case _ =>
    }
  }

  lemma WireStays(net: Net, net': Net, e: nat, x: End)
    requires Grows(net, net') && WireOk(net, e, x)
    ensures WireOk(net', e, x)
  {
    forall i | 0 <= i < |x.wire.log| ensures FrameOk(net', e, x, x.wire.log[i]) {
      assert FrameOk(net, e, x, x.wire.log[i]);
      FrameStays(net, net', e, x, x.wire.log[i]);
    }
  }

  lemma EndStays(net: Net, net': Net, e: nat, x: End)
    requires Grows(net, net') && EndOk(net, e, x)
    ensures EndOk(net', e, x)
  {
    QueueStays(net, net', e, x);
    WireStays(net, net', e, x);
    if !net.ends[x.peer].role.Remote? && net.ends[x.peer].owner < |net.nodes| {
      var s := net.ends[x.peer].owner;
      forall k | k in Said(x.wire.log[..x.wire.taken]) ensures Arrived(net', s, x.peer, k) {
        assert Arrived(net, s, x.peer, k);
      }
    }
  }

  /** `net'` is `net` with at most node `s` and end `e` replaced, for what they have grown into. */
  ghost predicate Touches(net: Net, net': Net, s: nat, e: nat)
  {
    && |net'.nodes| == |net.nodes| && |net'.ends| == |net.ends| && net.clock <= net'.clock
    && (forall i | 0 <= i < |net.nodes| && i != s :: net'.nodes[i] == net.nodes[i])
    && (forall i | 0 <= i < |net.ends| && i != e :: net'.ends[i] == net.ends[i])
    && (s < |net.nodes| ==> NodeGrows(net.nodes[s], net'.nodes[s]))
    && (e < |net.ends| ==> EndGrows(net.ends[e], net'.ends[e]))
  }

  /** It is enough to look at what a move has touched. */
  lemma Untouched(net: Net, net': Net, s: nat, e: nat)
    requires Inv(net) && Touches(net, net', s, e) && Grows(net, net')
    requires s < |net.nodes| ==> NodeOk(net', s, net'.nodes[s])
    requires e < |net.ends| ==> EndOk(net', e, net'.ends[e])
    requires DropsOk(net'.dropped)
    ensures Inv(net')
  {
    forall i | 0 <= i < |net'.nodes| ensures NodeOk(net', i, net'.nodes[i]) {
      if i != s { NodeStays(net, net', i, net.nodes[i]); }
    }
    forall i | 0 <= i < |net'.ends| ensures EndOk(net', i, net'.ends[i]) {
      if i != e { EndStays(net, net', i, net.ends[i]); }
    }
  }

  lemma TouchesGrows(net: Net, net': Net, s: nat, e: nat)
    requires Touches(net, net', s, e)
    ensures Grows(net, net')
  {}
}
