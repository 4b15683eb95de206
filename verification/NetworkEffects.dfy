/** What the moves that carry packets change, stated once, and that they change nothing else. */
module NetworkEffects {
  import opened Bytes
  import opened Routing
  import opened Network

  /** At most node `s` and end `e` differ. */
  ghost predicate Differ(net: Net, net': Net, s: nat, e: nat)
  {
    && |net'.nodes| == |net.nodes| && |net'.ends| == |net.ends|
    && (forall v {:trigger net'.nodes[v]} | 0 <= v < |net.nodes| && v != s :: net'.nodes[v] == net.nodes[v])
    && (forall v {:trigger net'.ends[v]} | 0 <= v < |net.ends| && v != e :: net'.ends[v] == net.ends[v])
  }

  // ---------- reading ----------

  ghost predicate ReadEffect(net: Net, net': Net, e: nat)
    requires CanRead(net, e)
  {
    var s, y := net.ends[e].owner, net.ends[e].peer;
    var n, f := net.nodes[s], Next(net.ends[y].wire);
    && Differ(net, net', s, y) && net'.dropped == net.dropped && net'.lost == net.lost
    && net'.ends[y] == net.ends[y].(wire := net.ends[y].wire.(taken := net.ends[y].wire.taken + 1))
    && net'.nodes[s] == match ReadsNext(net, e)
                        case Command(c) => n.(inbox := n.inbox + [Tracked(c, f.hops, f.id)])
                        case _ => n
  }

  lemma ReadHasEffect(net: Net, e: nat)
    requires CanRead(net, e)
    ensures ReadEffect(net, Tick(DoRead(net, e)), e)
  {}

  // ---------- taking up ----------

  /** The packet that the command at hand carries, unless the tables know its target. */
  ghost function Unknown(n: Node): seq<Tracked<Packet>>
    requires n.inbox != []
  {
    var item := n.inbox[0];
    if item.body.Route? && item.body.packet.target !in n.tables.peers
    then [Tracked(item.body.packet, item.hops, item.id)] else []
  }

  /** The packet that the command at hand carries, and the sink that the tables name for it. */
  ghost function LookedUp(n: Node, s: nat): Option<(Sink, Tracked<Packet>)>
    requires n.inbox != []
  {
    var item := n.inbox[0];
    if item.body.Route? && item.body.packet.target in n.tables.peers
    then Some((n.tables.peers[item.body.packet.target], Tracked(item.body.packet, item.hops + [s], item.id)))
    else None
  }

  ghost predicate HandleEffect(net: Net, net': Net, s: nat)
    requires CanHandle(net, s)
  {
    var n := net.nodes[s];
    && Differ(net, net', s, |net.ends|) && net'.ends == net.ends && net'.lost == net.lost
    && net'.dropped == net.dropped + Unknown(n)
    && net'.nodes[s].inbox == n.inbox[1..] && net'.nodes[s].sending == LookedUp(n, s)
    && (net'.nodes[s].running <==> !n.inbox[0].body.Stop?)
    && (!n.inbox[0].body.Subscribe? ==> net'.nodes[s].pending == n.pending)
  }

  lemma HandleHasEffect(net: Net, s: nat)
    requires CanHandle(net, s)
    ensures HandleEffect(net, Tick(DoHandle(net, s)), s)
  {}

  // ---------- handing over ----------

  ghost predicate HandEffect(net: Net, net': Net, s: nat)
    requires CanHand(net, s)
  {
    var n, e, item := net.nodes[s], net.nodes[s].sending.value.0, net.nodes[s].sending.value.1;
    var x := net.ends[e];
    && Differ(net, net', s, e) && net'.dropped == net.dropped
    && net'.lost == net.lost + (if x.closed then [item.body] else [])
    && net'.nodes[s] == n.(sending := None, running := !x.closed)
    && net'.ends[e] == if x.closed then x
                       else x.(queue := Put(x.queue, Tracked(Transmit(item.body), item.hops, item.id)))
  }

  lemma HandHasEffect(net: Net, s: nat)
    requires CanHand(net, s)
    ensures HandEffect(net, Tick(DoHand(net, s)), s)
  {}

  // ---------- writing ----------

  /** A turn of the write loop. */
  ghost predicate Writes(x: End, x': End)
  {
    && !x.role.Remote? && Ready(x.queue)
    && var t := x.(queue := x.queue.(taken := x.queue.taken + 1));
       x' == match WritesNext(x)
             case Emit(f) => t.(wire := Put(x.wire, Tracked(f, Next(x.queue).hops, Next(x.queue).id)))
             case Panic => t.(closed := true)
  }

  /** The packet that a write loop panics on. */
  ghost function Panicked(x: End): seq<Packet>
    requires Ready(x.queue)
  {
    if WritesNext(x).Panic? && Next(x.queue).body.Transmit? then [Next(x.queue).body.packet] else []
  }

  ghost predicate WriteEffect(net: Net, net': Net, e: nat)
    requires CanWrite(net, e)
  {
    && Differ(net, net', |net.nodes|, e) && net'.nodes == net.nodes && net'.dropped == net.dropped
    && Writes(net.ends[e], net'.ends[e]) && net'.lost == net.lost + Panicked(net.ends[e])
  }

  lemma WriteHasEffect(net: Net, e: nat)
    requires CanWrite(net, e)
    ensures WriteEffect(net, Tick(DoWrite(net, e)), e)
  {}
}
