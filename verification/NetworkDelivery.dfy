/** Where all packets are, in every state of every run, and exactly when all of them reach their clients. */
module NetworkDelivery {
  import opened Links
  import opened Network
  import opened NetworkInvariants
  import opened NetworkMoves
  import opened NetworkConservation

  // ---------- where packets are ----------

  /** An end, who is at the other side of its connection, and whether the node there still takes commands. */
  datatype Side = Side(x: End, far: Role, heard: bool)

  ghost predicate Paired(net: Net)
  {
    forall e | 0 <= e < |net.ends| :: net.ends[e].peer < |net.ends|
  }

  ghost function SideOf(net: Net, x: End): Side
    requires x.peer < |net.ends|
  {
    var y := net.ends[x.peer];
    Side(x, y.role, y.owner < |net.nodes| && net.nodes[y.owner].running)
  }

  ghost function Sides(net: Net): (sides: seq<Side>)
    requires Paired(net)
    ensures |sides| == |net.ends| && forall e | 0 <= e < |net.ends| :: sides[e] == SideOf(net, net.ends[e])
  {
    seq(|net.ends|, e requires 0 <= e < |net.ends| => SideOf(net, net.ends[e]))
  }

  ghost predicate Counted(x: End) { !x.role.Remote? && InOrder(x) }

  ghost function Taken(x: End): Count
  {
    if Counted(x) then Collect(c => Given(x.role, c), x.queue.log[..x.queue.taken]) else multiset{}
  }

  ghost function Untaken(x: End): Count
  {
    if Counted(x) then Collect(Waiting, x.queue.log[x.queue.taken..]) else multiset{}
  }

  /** What has been written and not been read. */
  ghost function Unread(x: End): seq<Tracked<Frame>>
  {
    if Counted(x) then x.wire.log[x.wire.taken..] else []
  }

  /** How many of the frames a dialling end reads before one that ends its read loop. */
  ghost function Audible(log: seq<Tracked<Frame>>): (n: nat)
    ensures n <= |log| && forall i | 0 <= i < n :: !MeshClientReads(log[i].body, 0).Broken?
    ensures n < |log| ==> MeshClientReads(log[n].body, 0).Broken?
  {
    if log == [] || MeshClientReads(log[0].body, 0).Broken? then 0 else 1 + Audible(log[1..])
  }

  /** At a running node; in the queue of a running write loop; on the wire to a node that will read it. */
  ghost function Held(n: Node): Count { if n.running then NodeHolds(n) else multiset{} }
  ghost function Queued(w: Side): Count { if w.x.closed then multiset{} else Untaken(w.x) }
  ghost function Crossing(w: Side): Count
  {
    if w.far.Dialling? && w.heard then Collect(Passing, Unread(w.x)[..Audible(Unread(w.x))]) else multiset{}
  }

  /** At a node that has stopped; in the queue of a write loop that has ended; written and never to be read. */
  ghost function Halted(n: Node): Count { if n.running then multiset{} else NodeHolds(n) }
  ghost function Cut(w: Side): Count { if w.x.closed then Untaken(w.x) else multiset{} }
  ghost function Unheard(w: Side): Count
  {
    if !w.far.Dialling? then multiset{}
    else Collect(Passing, if w.heard then Unread(w.x)[Audible(Unread(w.x))..] else Unread(w.x))
  }

  /** Forwarded to a client; received by a client; sent to a node as if to a client. */
  ghost function Stranded(w: Side): Count { if w.far.Dialling? then multiset{} else Collect(Passing, Unread(w.x)) }
  ghost function Received(w: Side): Count { if w.far.Remote? then Taken(w.x) else multiset{} }
  ghost function Refused(w: Side): Count { if w.far.Remote? then multiset{} else Taken(w.x) }

  ghost function Holds(w: Side): Count { EndHolds(w.x) }

  lemma WireSplits(w: Side)
    ensures Collect(Passing, Unread(w.x)) == Crossing(w) + Unheard(w) + Stranded(w)
  {
    var log := Unread(w.x);
    assert log == log[..Audible(log)] + log[Audible(log)..];
    CollectAppend(Passing, log[..Audible(log)], log[Audible(log)..]);
  }

  lemma SideHolds(w: Side)
    ensures Holds(w) == Queued(w) + Crossing(w) + Cut(w) + Unheard(w) + Stranded(w) + Received(w) + Refused(w)
  {
    WireSplits(w);
    HoldsParts(w.x);
    Parts(Holds(w), Untaken(w.x), Taken(w.x), Collect(Passing, Unread(w.x)), Queued(w), Cut(w), Received(w), Refused(w),
          Crossing(w), Unheard(w), Stranded(w));
  }

  lemma HoldsParts(x: End)
    ensures EndHolds(x) == Untaken(x) + Taken(x) + Collect(Passing, Unread(x))
  {}

  lemma Parts(h: Count, u: Count, t: Count, p: Count, q: Count, c: Count, r: Count, f: Count,
              x: Count, o: Count, s: Count)
    requires h == u + t + p && u == q + c && t == r + f && p == x + o + s
    ensures h == q + x + c + o + s + r + f
  {}

  lemma {:induction false} SidesHold(sides: seq<Side>)
    ensures Collect(Holds, sides) ==
              Collect(Queued, sides) + Collect(Crossing, sides) + Collect(Cut, sides) + Collect(Unheard, sides)
              + Collect(Stranded, sides) + Collect(Received, sides) + Collect(Refused, sides)
  {
    if sides != [] {
      SideHolds(sides[0]);
      SidesHold(sides[1..]);
    }
  }

  lemma {:induction false} SidesAreEnds(sides: seq<Side>, ends: seq<End>)
    requires |sides| == |ends| && forall e | 0 <= e < |ends| :: sides[e].x == ends[e]
    ensures Collect(Holds, sides) == Collect(EndHolds, ends)
  {
    if ends != [] { SidesAreEnds(sides[1..], ends[1..]); }
  }

  lemma {:induction false} NodesHold(nodes: seq<Node>)
    ensures Collect(NodeHolds, nodes) == Collect(Held, nodes) + Collect(Halted, nodes)
  {
    if nodes != [] { NodesHold(nodes[1..]); }
  }

  /** The packets that clients have sent and their connections have taken in. */
  ghost function Entered(net: Net): Count { Collect(EndEntered, net.ends) }

  ghost function Delivered(net: Net): Count
    requires Paired(net)
  {
    Collect(Received, Sides(net))
  }

  ghost function UnderWay(net: Net): Count
    requires Paired(net)
  {
    Collect(Held, net.nodes) + Collect(Queued, Sides(net)) + Collect(Crossing, Sides(net))
  }

  /** Held by what has ended: by a command loop, a write loop or a read loop. */
  ghost function Dead(net: Net): Count
    requires Paired(net)
  {
    Collect(Halted, net.nodes) + Collect(Cut, Sides(net)) + Collect(Unheard, Sides(net))
  }

  /** Sent to a node's own key, whose read loop has no arm for them; or forwarded to a client that may mesh. */
  ghost function Astray(net: Net): Count
    requires Paired(net)
  {
    Collect(Refused, Sides(net)) + Collect(Stranded, Sides(net))
  }

  /**
    In every state of every run, the packets read from clients are exactly those that clients of
    their target's key have been sent, those under way, those held by loops that have ended, those
    that went astray, those dropped and those lost, each as many times as it was sent.
   */
  lemma PacketsAreConserved(run: seq<Net>, i: nat)
    requires IsRun(run) && i < |run|
    ensures Paired(run[i])
    ensures Entered(run[i]) == Delivered(run[i]) + UnderWay(run[i]) + Dead(run[i]) + Astray(run[i]) + Gone(run[i])
  {
    RunConserves(run, i);
    RunKeeps(run, i);
    ArePaired(run[i]);
    var s, nodes := Sides(run[i]), run[i].nodes;
    SidesHold(s);
    SidesAreEnds(s, run[i].ends);
    NodesHold(nodes);
    Rearranged(Entered(run[i]), Collect(NodeHolds, nodes), Collect(EndHolds, run[i].ends), Gone(run[i]),
               Collect(Held, nodes), Collect(Halted, nodes), Collect(Queued, s), Collect(Crossing, s), Collect(Cut, s),
               Collect(Unheard, s), Collect(Stranded, s), Collect(Received, s), Collect(Refused, s));
  }

  lemma ArePaired(net: Net)
    requires Inv(net)
    ensures Paired(net)
  {
    forall e | 0 <= e < |net.ends| ensures net.ends[e].peer < |net.ends| {
      EndFacts(net, e);
    }
  }

  lemma Rearranged(E: Count, N: Count, X: Count, G: Count, n: Count, h: Count,
                   q: Count, c: Count, t: Count, u: Count, s: Count, r: Count, f: Count)
    requires E == N + X + G && N == n + h && X == q + c + t + u + s + r + f
    ensures E == r + (n + q + c) + (h + t + u) + (f + s) + G
  {}

  /** No packet is delivered more often than it was sent. */
  lemma DeliveredOnce(run: seq<Net>, i: nat)
    requires IsRun(run) && i < |run|
    ensures Paired(run[i]) && Delivered(run[i]) <= Entered(run[i])
  {
    PacketsAreConserved(run, i);
  }
}
