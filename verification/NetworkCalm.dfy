/**
  Runs in which no write loop is ended from outside, no packet is too long for a frame, and no plain
  client is the first to announce a key not its own: there, what costs packets and stops services
  is exactly that packets are routed to dialled links.
 */
module NetworkCalm {
  import opened Bytes
  import opened Routing
  import opened Links
  import opened Network
  import opened NetworkInvariants
  import opened NetworkMoves
  import opened NetworkHistory
  import opened NetworkClaims
  import opened NetworkConservation
  import opened NetworkFates
  import P = Protocol

  /** A packet with this payload fits into a frame, forwarded or not. */
  predicate Small(payload: seq<byte>) { 64 + |payload| < W4.Limit() }

  ghost predicate SmallPackets(net: Net)
  {
    forall e, i | 0 <= e < |net.ends| && net.ends[e].role.Remote? && 0 <= i < |net.ends[e].wire.log|
        && net.ends[e].wire.log[i].body.Send? ::
      Small(net.ends[e].wire.log[i].body.payload)
  }

  /** The end was the first to announce a key that is not its own. */
  ghost predicate Claims(x: End, log: seq<Event>, e: nat)
  {
    exists t :: !IsOwnEnd(x, t) && FirstHeard(log, t) == Some(e)
  }

  ghost predicate Calm(run: seq<Net>, moves: seq<Move>, i: nat)
    requires Makes(moves, run) && i < |run|
  {
    && (forall k | 0 <= k < i :: !moves[k].Close?)
    && SmallPackets(run[i])
    && forall e | 0 <= e < |run[i].ends| && run[i].ends[e].role.Accepting? && !run[i].ends[e].canMesh ::
         !Claims(run[i].ends[e], ServiceAt(run, moves, i, run[i].ends[e].owner).log, e)
  }

  lemma SentIsSmall(net: Net, p: Packet)
    requires SmallPackets(net) && Sent(net, p)
    ensures Small(p.payload)
  {
    var e: nat :| Origin(net, e, p);
    var y := net.ends[e].peer;
    var i :| 0 <= i < |net.ends[y].wire.log| && net.ends[y].wire.log[i].body == P.Send(p.target, p.payload);
  }

  /** Queued packets come from clients, at ends of nodes. */
  lemma QueuedIsSmall(net: Net, e: nat, j: nat)
    requires Inv(net) && SmallPackets(net) && e < |net.ends| && j < |net.ends[e].queue.log|
        && net.ends[e].queue.log[j].body.Transmit?
    ensures Small(net.ends[e].queue.log[j].body.packet.payload) && net.ends[e].owner < |net.nodes|
  {
    assert EndOk(net, e, net.ends[e]);
    SentIsSmall(net, net.ends[e].queue.log[j].body.packet);
  }

  /** In a calm run a write loop panics on packets given to a dialled link, and on nothing else. */
  lemma PanicsIff(run: seq<Net>, moves: seq<Move>, i: nat, e: nat, j: nat)
    requires Makes(moves, run) && i < |run| && Calm(run, moves, i)
    requires e < |run[i].ends| && !run[i].ends[e].role.Remote? && j < |run[i].ends[e].queue.log|
    ensures Panics(run[i].ends[e], j) <==> run[i].ends[e].role.Dialling? && run[i].ends[e].queue.log[j].body.Transmit?
  {
    var x, c := run[i].ends[e], run[i].ends[e].queue.log[j].body;
    match c
    case Notify(k) => NoticeNeverPanics(x, k);
    case Transmit(p) =>
      MakesRun(moves, run);
      RunKeeps(run, i);
      QueuedIsSmall(run[i], e, j);
      NodesStay(run, moves, i);
      QueuedForTheClient(run, moves, i, x.owner, e, j);
      PacketPanicsIff(x, p);
  }

  lemma PacketPanicsIff(x: End, p: Packet)
    requires !x.role.Remote? && Small(p.payload)
    ensures ActionOn(x.role, x.canMesh, Transmit(p)).Panic? <==>
            x.role.Dialling? || (!IsOwnEnd(x, p.target) && !x.canMesh)
  {}

  /** So its write loop has ended exactly if it is a dialled link's and has taken a packet. */
  lemma CalmClosedIff(run: seq<Net>, moves: seq<Move>, i: nat, e: nat)
    requires Makes(moves, run) && i < |run| && Calm(run, moves, i) && e < |run[i].ends| && !run[i].ends[e].role.Remote?
    ensures run[i].ends[e].closed <==> run[i].ends[e].role.Dialling? && TookPacket(run[i].ends[e])
  {
    var x := run[i].ends[e];
    ClosedIff(run, moves, i, e);
    WrittenInOrder(run, moves, i, e);
    forall j | 0 <= j < x.queue.taken ensures Panics(x, j) <==> x.role.Dialling? && IsPacket(x, j) {
      PanicsIff(run, moves, i, e, j);
    }
  }

  ghost predicate IsPacket(x: End, j: nat) { j < |x.queue.log| && x.queue.log[j].body.Transmit? }

  ghost predicate TookPacket(x: End)
  {
    exists j | 0 <= j < x.queue.taken :: IsPacket(x, j)
  }

  /** The frame that carries the packet of a command. */
  ghost predicate Carries(f: Tracked<Frame>, c: Tracked<WriteCommand>)
  {
    && c.body.Transmit? && f.id == c.id && f.hops == c.hops
    && var p := c.body.packet;
       f.body == P.Recv(p.target, p.payload) || f.body == P.Forward(p.source, p.target, p.payload)
  }

  ghost predicate Written(x: End, c: Tracked<WriteCommand>)
  {
    exists f :: f in x.wire.log && Carries(f, c)
  }

  /** A packet that a write loop has taken is written, unchanged, exactly if the end is not a dialled link's. */
  lemma CalmWrittenIff(run: seq<Net>, moves: seq<Move>, i: nat, e: nat, j: nat)
    requires Makes(moves, run) && i < |run| && Calm(run, moves, i) && e < |run[i].ends| && !run[i].ends[e].role.Remote?
    requires j < run[i].ends[e].queue.taken && IsPacket(run[i].ends[e], j)
    ensures Written(run[i].ends[e], run[i].ends[e].queue.log[j]) <==> !run[i].ends[e].role.Dialling?
  {
    var x, c := run[i].ends[e], run[i].ends[e].queue.log[j];
    if x.role.Dialling? {
      MakesRun(moves, run);
      RunKeeps(run, i);
      DiallingCarriesNone(run[i], e, c);
    } else {
      PanicsIff(run, moves, i, e, j);
      WrittenInOrder(run, moves, i, e);
      var f := Emitted(x.role, x.canMesh, c)[0];
      EmitsContain(x.role, x.canMesh, x.queue.log[..x.queue.taken], j);
      OutputContains(x.wire.log, f);
      assert Carries(f, c);
    }
  }

  lemma DiallingCarriesNone(net: Net, e: nat, c: Tracked<WriteCommand>)
    requires Inv(net) && e < |net.ends| && net.ends[e].role.Dialling?
    ensures !Written(net.ends[e], c)
  {
    var x := net.ends[e];
    assert EndOk(net, e, x);
    forall f | f in x.wire.log ensures !Carries(f, c) {
      var k :| 0 <= k < |x.wire.log| && x.wire.log[k] == f;
      assert FrameOk(net, e, x, x.wire.log[k]);
    }
  }

  /** The move hands a packet to a dialled link that has taken one before. */
  ghost predicate SecondToDialled(net: Net, m: Move, s: nat)
  {
    && m == Hand(s) && CanHand(net, s)
    && var x := net.ends[net.nodes[s].sending.value.0];
       x.role.Dialling? && TookPacket(x)
  }

  /** A command loop ends exactly when a packet is handed to a dialled link that has already taken one. */
  lemma CalmStopsIff(run: seq<Net>, moves: seq<Move>, i: nat, s: nat)
    requires Makes(moves, run) && i < |run| && s < |run[0].nodes| && forall k | 0 <= k < i :: Calm(run, moves, k)
    ensures s < |run[i].nodes| && (!run[i].nodes[s].running <==> exists k | 0 <= k < i ::
        SecondToDialled(run[k], moves[k], s))
  {
    StopsIff(run, moves, i, s);
    forall k | 0 <= k < i ensures MeetsClosed(run[k], moves[k], s) <==> SecondToDialled(run[k], moves[k], s) {
      if moves[k] == Hand(s) && CanHand(run[k], s) {
        MakesRun(moves, run);
        RunKeeps(run, k);
        NodeFacts(run[k], s);
        CalmClosedIff(run, moves, k, run[k].nodes[s].sending.value.0);
      }
    }
  }
}
