/**
  When every packet reaches its client: exactly if every lookup found an entry that leads to it, no
  packet was handed to a write loop that had ended, and no write loop was ended with a packet in its queue.
 */
module NetworkOutcome {
  import opened Routing
  import opened Links
  import opened Network
  import opened NetworkEffects
  import opened NetworkInvariants
  import opened NetworkMoves
  import opened NetworkGrowth
  import opened NetworkHistory
  import C = NetworkClaims
  import opened NetworkConservation
  import opened NetworkFates
  import opened NetworkDelivery
  import opened NetworkDead
  import P = Protocol

  // ---------- good entries and good moves ----------

  /**
    An end is good for a packet if the packet is for the client at its other side, or is to be
    forwarded there by an end that may mesh to a node that dialled it, and fits into a frame.
   */
  ghost predicate GoodSide(x: End, far: Role, p: Packet)
  {
    && x.role.Accepting?
    && if p.target == x.role.key then far.Remote? && P.Recv(p.target, p.payload).Fits()
       else x.canMesh && far.Dialling? && P.Forward(p.source, p.target, p.payload).Fits()
  }

  ghost predicate GoodAt(net: Net, e: nat, p: Packet)
  {
    e < |net.ends| && net.ends[e].peer < |net.ends| && GoodSide(net.ends[e], net.ends[net.ends[e].peer].role, p)
  }

  /** No packet is left in the queue. */
  ghost predicate NoneWait(q: Channel<Tracked<WriteCommand>>)
  {
    forall j | q.taken <= j < |q.log| :: !q.log[j].body.Transmit?
  }

  /** A lookup finds a good end, a send an open one, and a write loop that is ended leaves no packet in its queue. */
  ghost predicate GoodMove(net: Net, m: Move)
    requires Enabled(net, m)
  {
    match m
    case Handle(s) =>
      net.nodes[s].inbox[0].body.Route? ==>
        GoodLookup(net.nodes[s].tables, net, net.nodes[s].inbox[0].body.packet)
    case Hand(s) => !net.ends[net.nodes[s].sending.value.0].closed
    case Close(e) => !net.ends[e].role.Remote? ==> NoneWait(net.ends[e].queue)
    case _ => true
  }

  ghost predicate GoodLookup(t: Tables, net: Net, p: Packet)
  {
    p.target in t.peers && GoodAt(net, t.peers[p.target], p)
  }

  // ---------- what good moves keep ----------

  ghost predicate SendingGood(net: Net, n: Node)
  {
    n.sending.Some? ==> GoodAt(net, n.sending.value.0, n.sending.value.1.body)
  }

  ghost predicate QueueGood(net: Net, e: nat, log: seq<Tracked<WriteCommand>>)
  {
    forall j | 0 <= j < |log| && log[j].body.Transmit? :: GoodAt(net, e, log[j].body.packet)
  }

  ghost predicate QueuesGood(net: Net)
  {
    forall e {:trigger net.ends[e]} | 0 <= e < |net.ends| :: QueueGood(net, e, net.ends[e].queue.log)
  }

  ghost predicate WellRouted(net: Net)
  {
    && net.dropped == [] && net.lost == [] && QueuesGood(net)
    && forall s {:trigger net.nodes[s]} | 0 <= s < |net.nodes| :: SendingGood(net, net.nodes[s])
  }

  /** Sinks in use have been handed out. */
  ghost predicate SinksLive(net: Net)
  {
    && Paired(net)
    && (forall s | 0 <= s < |net.nodes| && net.nodes[s].sending.Some? :: Owned(net, net.nodes[s].sending.value.0, s))
    && (forall e | 0 <= e < |net.ends| && net.ends[e].role.Accepting? && net.ends[e].queue.log != [] ::
       net.ends[e].live)
  }

  lemma SinksAreLive(net: Net)
    requires Inv(net)
    ensures SinksLive(net)
  {
    ArePaired(net);
    forall s | 0 <= s < |net.nodes| && net.nodes[s].sending.Some?
      ensures Owned(net, net.nodes[s].sending.value.0, s)
    {
      NodeFacts(net, s);
    }
    forall e | 0 <= e < |net.ends| && net.ends[e].role.Accepting? && net.ends[e].queue.log != []
      ensures net.ends[e].live
    {
      assert EndOk(net, e, net.ends[e]);
    }
  }

  lemma GoodStays(net: Net, net': Net, e: nat, p: Packet)
    requires EndsGrow(net, net') && Paired(net) && e < |net.ends| && (net.ends[e].role.Accepting? ==> net.ends[e].live)
    ensures GoodAt(net', e, p) <==> GoodAt(net, e, p)
  {
    var f := net.ends[e].peer;
    assert EndGrows(net.ends[e], net'.ends[e]) && EndGrows(net.ends[f], net'.ends[f]);
  }

  /** Notices aside, the queues are as they were. */
  ghost predicate SamePackets(net: Net, net': Net)
  {
    && EndsGrow(net, net')
    && (forall e {:trigger net'.ends[e]} | 0 <= e < |net.ends| ::
          net'.ends[e].queue.log == net.ends[e].queue.log
          || exists c: Tracked<WriteCommand> :: c.body.Notify? && net'.ends[e].queue.log == net.ends[e].queue.log + [c])
    && (forall e {:trigger net'.ends[e]} | |net.ends| <= e < |net'.ends| :: net'.ends[e].queue.log == [])
  }

  lemma QueuesStay(net: Net, net': Net, e: nat)
    requires SinksLive(net) && SamePackets(net, net') && e < |net.ends|
    ensures QueueGood(net', e, net'.ends[e].queue.log) <==> QueueGood(net, e, net.ends[e].queue.log)
  {
    var log, log' := net.ends[e].queue.log, net'.ends[e].queue.log;
    if log != [] {
      forall p ensures GoodAt(net', e, p) <==> GoodAt(net, e, p) { GoodStays(net, net', e, p); }
    }
    assert forall j | 0 <= j < |log| :: log'[j] == log[j];
  }

  lemma SendingStays(net: Net, net': Net, s: nat)
    requires SinksLive(net) && EndsGrow(net, net') && s < |net.nodes|
    ensures SendingGood(net', net.nodes[s]) <==> SendingGood(net, net.nodes[s])
  {
    var n := net.nodes[s];
    if n.sending.Some? { GoodStays(net, net', n.sending.value.0, n.sending.value.1.body); }
  }

  lemma AllQueuesStay(net: Net, net': Net)
    requires SinksLive(net) && SamePackets(net, net')
    ensures QueuesGood(net') <==> QueuesGood(net)
  {
    forall e | 0 <= e < |net.ends|
      ensures QueueGood(net', e, net'.ends[e].queue.log) <==> QueueGood(net, e, net.ends[e].queue.log)
    {
      QueuesStay(net, net', e);
    }
  }

  /** Moves that neither take up, hand over nor write a packet. */
  lemma OtherMoveGood(net: Net, m: Move)
    requires SinksLive(net) && Enabled(net, m) && !m.Handle? && !m.Hand? && !m.Write?
    ensures WellRouted(After(net, m)) <==> WellRouted(net)
  {
    var net' := After(net, m);
    MoveGrows(net, m);
    OtherMoveSame(net, m);
    AllQueuesStay(net, net');
    forall s | 0 <= s < |net.nodes|
      ensures SendingGood(net', net'.nodes[s]) <==> SendingGood(net, net.nodes[s])
    {
      SendingStays(net, net', s);
    }
  }

  lemma OtherMoveSame(net: Net, m: Move)
    requires Enabled(net, m) && !m.Handle? && !m.Hand? && !m.Write?
    ensures var net' := After(net, m);
            && net'.dropped == net.dropped && net'.lost == net.lost && |net'.nodes| == |net.nodes|
            && (forall s | 0 <= s < |net.nodes| :: net'.nodes[s].sending == net.nodes[s].sending)
            && SamePackets(net, net')
  {
    MoveGrows(net, m);
    if m.Inform? {
      var e := m.notice.0;
      assert Tracked(Notify(m.notice.1), [], NO_ID).body.Notify?;
    }
  }

  lemma HandleGood(net: Net, net': Net, s: nat)
    requires CanHandle(net, s) && HandleEffect(net, net', s)
    ensures WellRouted(net') <==> WellRouted(net) && GoodMove(net, Move.Handle(s))
  {
    assert QueuesGood(net') <==> QueuesGood(net);
    assert SendingGood(net, net.nodes[s]);
    assert SendingGood(net', net'.nodes[s]) <==> net'.dropped != net.dropped || GoodMove(net, Move.Handle(s));
    assert forall t | 0 <= t < |net.nodes| && t != s :: SendingGood(net', net'.nodes[t]) <==>
        SendingGood(net, net.nodes[t]);
  }

  lemma GoodNeverPanics(x: End, far: Role, p: Packet)
    requires GoodSide(x, far, p)
    ensures ActionOn(x.role, x.canMesh, Transmit(p)).Emit?
  {}

  lemma WriteGood(net: Net, e: nat)
    requires SinksLive(net) && CanWrite(net, e)
    ensures WellRouted(Tick(DoWrite(net, e))) <==> WellRouted(net)
  {
    var net', x := Tick(DoWrite(net, e)), net.ends[e];
    MoveGrows(net, Write(e));
    WriteHasEffect(net, e);
    AllQueuesStay(net, net');
    forall s | 0 <= s < |net.nodes|
      ensures SendingGood(net', net'.nodes[s]) <==> SendingGood(net, net.nodes[s])
    {
      SendingStays(net, net', s);
    }
    if Panicked(x) != [] {
      assert x.queue.log[x.queue.taken].body.Transmit?;
      NextAction(x);
      if QueueGood(net, e, x.queue.log) {
        GoodNeverPanics(x, net.ends[x.peer].role, x.queue.log[x.queue.taken].body.packet);
      }
    }
  }

  lemma HandGood(net: Net, s: nat)
    requires SinksLive(net) && CanHand(net, s)
    ensures WellRouted(Tick(DoHand(net, s))) <==> WellRouted(net) && GoodMove(net, Hand(s))
  {
    var net', n := Tick(DoHand(net, s)), net.nodes[s];
    var e := n.sending.value.0;
    MoveGrows(net, Hand(s));
    forall t | 0 <= t < |net.nodes| && t != s
      ensures SendingGood(net', net'.nodes[t]) <==> SendingGood(net, net.nodes[t])
    {
      SendingStays(net, net', t);
    }
    if !net.ends[e].closed {
      forall i | 0 <= i < |net.ends| && i != e
        ensures QueueGood(net', i, net'.ends[i].queue.log) <==> QueueGood(net, i, net.ends[i].queue.log)
      {
        QueueStays(net, net', i);
      }
      HandedGood(net, net', e, n.sending.value.1);
      assert SendingGood(net, n) <==> GoodAt(net, e, n.sending.value.1.body);
    }
  }

  lemma QueueStays(net: Net, net': Net, e: nat)
    requires SinksLive(net) && EndsGrow(net, net') && e < |net.ends| && net'.ends[e].queue.log == net.ends[e].queue.log
    ensures QueueGood(net', e, net'.ends[e].queue.log) <==> QueueGood(net, e, net.ends[e].queue.log)
  {
    if net.ends[e].queue.log != [] {
      forall p ensures GoodAt(net', e, p) <==> GoodAt(net, e, p) { GoodStays(net, net', e, p); }
    }
  }

  lemma HandedGood(net: Net, net': Net, e: nat, item: Tracked<Packet>)
    requires Paired(net) && EndsGrow(net, net') && e < |net.ends| && net.ends[e].live
    requires net'.ends[e].queue.log == net.ends[e].queue.log + [Tracked(Transmit(item.body), item.hops, item.id)]
    ensures QueueGood(net', e, net'.ends[e].queue.log) <==>
            QueueGood(net, e, net.ends[e].queue.log) && GoodAt(net, e, item.body)
  {
    var log, log' := net.ends[e].queue.log, net'.ends[e].queue.log;
    forall p ensures GoodAt(net', e, p) <==> GoodAt(net, e, p) { GoodStays(net, net', e, p); }
    assert log'[|log|].body == Transmit(item.body);
    assert forall j | 0 <= j < |log| :: log'[j] == log[j];
  }

  lemma MoveRoutesWell(net: Net, m: Move)
    requires Inv(net) && Enabled(net, m)
    ensures WellRouted(After(net, m)) <==> WellRouted(net) && (m.Close? || GoodMove(net, m))
  {
    SinksAreLive(net);
    match m
    case Handle(s) =>
      HandleHasEffect(net, s);
      HandleGood(net, After(net, m), s);
    case Hand(s) => HandGood(net, s);
    case Write(e) => WriteGood(net, e);
    case _ => OtherMoveGood(net, m);
  }

  // ---------- write loops that end ----------

  ghost predicate Spared(x: End) { !x.role.Remote? && x.closed ==> NoneWait(x.queue) }

  ghost predicate AllSpared(net: Net) { forall e | 0 <= e < |net.ends| :: Spared(net.ends[e]) }

  lemma OthersSpared(net: Net, m: Move, e: nat)
    requires SinksLive(net) && Enabled(net, m) && e < |net.ends| && m != Write(e) && m != Move.Close(e)
    ensures e < |After(net, m).ends| && (Spared(After(net, m).ends[e]) <==> Spared(net.ends[e]))
  {
    IdleMove(net, m, e);
    if net.ends[e].closed { ClosedStays(net, m, e); }
  }

  lemma WriteSpares(net: Net, e: nat)
    requires CanWrite(net, e) && Panicked(net.ends[e]) == []
    ensures Spared(net.ends[e]) && Spared(Tick(DoWrite(net, e)).ends[e])
  {
    WriteHasEffect(net, e);
    NextAction(net.ends[e]);
    var c := Next(net.ends[e].queue).body;
    if c.Notify? { NoticeNeverPanics(net.ends[e], c.key); }
  }

  lemma MoveSpares(net: Net, m: Move, e: nat)
    requires SinksLive(net) && Enabled(net, m) && e < |net.ends| && (m.Write? ==> Panicked(net.ends[m.e]) == [])
    ensures e < |After(net, m).ends|
    ensures Spared(After(net, m).ends[e]) <==> Spared(net.ends[e]) && (m == Move.Close(e) ==> GoodMove(net, m))
  {
    if m == Write(e) {
      WriteSpares(net, e);
    } else if m != Move.Close(e) {
      OthersSpared(net, m, e);
    }
  }

  /** While all packets are routed well, they are spared unless a write loop is ended. */
  lemma MoveSparesAll(net: Net, m: Move)
    requires SinksLive(net) && Enabled(net, m) && (m.Write? ==> Panicked(net.ends[m.e]) == [])
    ensures AllSpared(After(net, m)) <==> AllSpared(net) && (m.Close? ==> GoodMove(net, m))
  {
    var net' := After(net, m);
    MoveGrows(net, m);
    forall e | 0 <= e < |net.ends|
      ensures Spared(net'.ends[e]) <==> Spared(net.ends[e]) && (m == Move.Close(e) ==> GoodMove(net, m))
    {
      MoveSpares(net, m, e);
    }
    forall e | |net.ends| <= e < |net'.ends| ensures Spared(net'.ends[e]) {
      NewEndIsFresh(net, m, e);
    }
  }

  ghost predicate AllGood(net: Net) { WellRouted(net) && AllSpared(net) }

  /** All stays good exactly by good moves. */
  lemma MoveGood(net: Net, m: Move)
    requires Inv(net) && Enabled(net, m)
    ensures AllGood(After(net, m)) <==> AllGood(net) && GoodMove(net, m)
  {
    SinksAreLive(net);
    MoveRoutesWell(net, m);
    if WellRouted(After(net, m)) {
      if m.Write? { WriteHasEffect(net, m.e); }
      MoveSparesAll(net, m);
    }
  }

  lemma {:induction false} AllGoodIff(run: seq<Net>, moves: seq<Move>, i: nat)
    requires Makes(moves, run) && i < |run|
    ensures AllGood(run[i]) <==> forall k | 0 <= k < i :: GoodMove(run[k], moves[k])
  {
    if i == 0 {
      assert forall s | 0 <= s < |run[0].nodes| :: run[0].nodes[s] == FreshNode(run[0].nodes[s].meshKey);
    } else {
      AllGoodIff(run, moves, i - 1);
      MakesRun(moves, run);
      RunKeeps(run, i - 1);
      assert run[i - 1 + 1] == After(run[i - 1], moves[i - 1]);
      MoveGood(run[i - 1], moves[i - 1]);
    }
  }

  // ---------- counting nothing ----------

  lemma {:induction false} CollectNothing<T>(f: T -> Count, s: seq<T>)
    requires forall i | 0 <= i < |s| :: f(s[i]) == multiset{}
    ensures Collect(f, s) == multiset{}
  {
    if s != [] { CollectNothing(f, s[1..]); }
  }

  lemma CollectMember<T>(f: T -> Count, s: seq<T>, i: nat, p: Packet)
    requires i < |s| && p in f(s[i])
    ensures p in Collect(f, s)
  {
    CollectAt(f, s, i);
  }

  lemma GoneIffSome(net: Net)
    ensures Gone(net) == multiset{} <==> net.dropped == [] && net.lost == []
  {
    if net.dropped != [] { CollectMember(Dropped, net.dropped, 0, net.dropped[0].body); }
    if net.lost != [] { CollectMember(Lost, net.lost, 0, net.lost[0]); }
  }

  // ---------- good packets do not go astray ----------

  /** A forwarded packet was good only for a node that dialled. */
  lemma GoodNotStranded(net: Net, e: nat, k: nat)
    requires Inv(net) && Paired(net) && e < |net.ends| && Counted(net.ends[e]) && InStep(net.ends[e])
        && QueueGood(net, e, net.ends[e].queue.log)
    requires k < |net.ends[e].wire.log| && net.ends[e].wire.log[k].body.Forward?
    ensures net.ends[net.ends[e].peer].role.Dialling?
  {
    var x := net.ends[e];
    EndFacts(net, e);
    assert FrameOk(net, e, x, x.wire.log[k]);
    var y := OutputAt(x.wire.log, k);
    var j := EmitsFrom(x.role, x.canMesh, x.queue.log[..x.queue.taken], y);
    assert x.queue.log[j].body.Transmit? && GoodAt(net, e, x.queue.log[j].body.packet);
  }

  lemma GoodSideNotAstray(net: Net, e: nat)
    requires Inv(net) && Paired(net) && e < |net.ends| && InStep(net.ends[e])
        && QueueGood(net, e, net.ends[e].queue.log)
    ensures Refused(Sides(net)[e]) == multiset{} && Stranded(Sides(net)[e]) == multiset{}
  {
    var x := net.ends[e];
    if Counted(x) {
      var far, log := net.ends[x.peer].role, x.queue.log[..x.queue.taken];
      if !far.Remote? {
        forall j | 0 <= j < |log| ensures Given(x.role, log[j]) == multiset{} {
          if log[j].body.Transmit? { assert GoodAt(net, e, x.queue.log[j].body.packet); }
        }
        CollectNothing(c => Given(x.role, c), log);
      }
      if !far.Dialling? {
        var wire := x.wire.log[x.wire.taken..];
        forall k | 0 <= k < |wire| ensures Passing(wire[k]) == multiset{} {
          if wire[k].body.Forward? { GoodNotStranded(net, e, x.wire.taken + k); }
        }
        CollectNothing(Passing, wire);
      }
    }
  }

  lemma GoodNotAstray(net: Net)
    requires Inv(net) && Paired(net) && QueuesGood(net) && forall e | 0 <= e < |net.ends| :: InStep(net.ends[e])
    ensures Astray(net) == multiset{}
  {
    var sides := Sides(net);
    forall e | 0 <= e < |sides| ensures Refused(sides[e]) == multiset{}
        && Stranded(sides[e]) == multiset{} { GoodSideNotAstray(net, e); }
    CollectNothing(Refused, sides);
    CollectNothing(Stranded, sides);
  }

  // ---------- bad ones do, or are lost ----------

  /** Nothing that is sent to a client is read by a node. */
  ghost predicate NeverRead(net: Net, e: nat)
    requires e < |net.ends|
  {
    net.ends[e].peer < |net.ends| && net.ends[net.ends[e].peer].role.Remote? ==> net.ends[e].wire.taken == 0
  }

  lemma MoveReadsNone(net: Net, m: Move, e: nat)
    requires Inv(net) && Enabled(net, m) && e < |net.ends| && NeverRead(net, e)
    ensures e < |After(net, m).ends| && NeverRead(After(net, m), e)
  {
    MoveGrows(net, m);
    EndFacts(net, e);
    var p := net.ends[e].peer;
    assert EndGrows(net.ends[e], After(net, m).ends[e]) && EndGrows(net.ends[p], After(net, m).ends[p]);
    if net.ends[p].role.Remote? {
      if m.Read? { EndFacts(net, m.e); }
      OnlyReadsTake(net, m, e);
    }
  }

  lemma OnlyReadsTake(net: Net, m: Move, e: nat)
    requires Enabled(net, m) && e < |net.ends| && (m.Read? ==> net.ends[m.e].peer != e)
    ensures e < |After(net, m).ends| && After(net, m).ends[e].wire.taken == net.ends[e].wire.taken
  {
    if m.Handle? || m.Join? || m.Listen? { NodeMove(net, m); }
  }

  lemma {:induction false} IsNeverRead(run: seq<Net>, moves: seq<Move>, i: nat, e: nat)
    requires Makes(moves, run) && i < |run| && e < |run[i].ends|
    ensures NeverRead(run[i], e)
  {
    if i > 0 {
      assert run[i - 1 + 1] == After(run[i - 1], moves[i - 1]);
      if e < |run[i - 1].ends| {
        IsNeverRead(run, moves, i - 1, e);
        MakesRun(moves, run);
        RunKeeps(run, i - 1);
        MoveReadsNone(run[i - 1], moves[i - 1], e);
      } else {
        NewEndIsFresh(run[i - 1], moves[i - 1], e);
      }
    }
  }

  /** A packet that was given to an end not good for it, and that did not make the write loop panic, has gone astray. */
  lemma BadGoesAstray(net: Net, e: nat, j: nat)
    requires Inv(net) && Paired(net) && e < |net.ends| && Counted(net.ends[e]) && InStep(net.ends[e])
        && NeverRead(net, e)
    requires j < net.ends[e].queue.taken && net.ends[e].queue.log[j].body.Transmit? && !Panics(net.ends[e], j)
    requires !GoodAt(net, e, net.ends[e].queue.log[j].body.packet)
    ensures var p, w := net.ends[e].queue.log[j].body.packet, Sides(net)[e];
            p in Refused(w) || p in Stranded(w)
  {
    var x, c := net.ends[e], net.ends[e].queue.log[j];
    var p := c.body.packet;
    EndFacts(net, e);
    assert x.role.Accepting?;
    if p.target == x.role.key {
      CollectMember(c => Given(x.role, c), x.queue.log[..x.queue.taken], j, p);
    } else {
      EmitsContain(x.role, x.canMesh, x.queue.log[..x.queue.taken], j);
      var f := Tracked(P.Forward(p.source, p.target, p.payload), c.hops, c.id);
      assert f in Emitted(x.role, x.canMesh, c);
      OutputContains(x.wire.log, f);
      var k :| 0 <= k < |x.wire.log| && x.wire.log[k] == f;
      assert x.wire.log[0..] == x.wire.log;
      CollectMember(Passing, x.wire.log, k, p);
    }
  }

  lemma PacketsAtNodes(net: Net, e: nat, j: nat)
    requires Inv(net) && e < |net.ends| && j < |net.ends[e].queue.log| && net.ends[e].queue.log[j].body.Transmit?
    ensures Counted(net.ends[e])
  {
    assert EndOk(net, e, net.ends[e]);
  }

  // ---------- good packets do not die ----------

  /** What is written to a node that dialled, if all packets were good, never ends its read loop. */
  lemma GoodIsAudible(net: Net, e: nat, k: nat)
    requires Inv(net) && Paired(net) && e < |net.ends| && Counted(net.ends[e]) && InStep(net.ends[e])
    requires QueueGood(net, e, net.ends[e].queue.log) && net.ends[net.ends[e].peer].role.Dialling?
    requires k < |net.ends[e].wire.log|
    ensures !MeshClientReads(net.ends[e].wire.log[k].body, 0).Broken?
  {
    var x := net.ends[e];
    EndFacts(net, e);
    assert FrameOk(net, e, x, x.wire.log[k]);
    var y := OutputAt(x.wire.log, k);
    var j := EmitsFrom(x.role, x.canMesh, x.queue.log[..x.queue.taken], y);
    if x.queue.log[j].body.Transmit? { assert GoodAt(net, e, x.queue.log[j].body.packet); }
  }

  lemma GoodSideNotDead(net: Net, e: nat)
    requires Inv(net) && Paired(net) && e < |net.ends| && InStep(net.ends[e]) && Spared(net.ends[e])
    requires QueueGood(net, e, net.ends[e].queue.log) && SideOf(net, net.ends[e]).heard
    ensures Cut(Sides(net)[e]) == multiset{} && Unheard(Sides(net)[e]) == multiset{}
  {
    var x := net.ends[e];
    if Counted(x) {
      if x.closed { CollectNothing(Waiting, x.queue.log[x.queue.taken..]); }
      if net.ends[x.peer].role.Dialling? {
        var log := Unread(x);
        if Audible(log) < |log| { GoodIsAudible(net, e, x.wire.taken + Audible(log)); }
        assert log[Audible(log)..] == [];
      }
    }
  }

  ghost predicate AllRun(net: Net) { forall s | 0 <= s < |net.nodes| :: net.nodes[s].running }

  lemma AllHeard(net: Net, e: nat)
    requires Inv(net) && AllRun(net) && e < |net.ends|
    ensures net.ends[e].peer < |net.ends| && SideOf(net, net.ends[e]).heard
  {
    EndFacts(net, e);
    EndFacts(net, net.ends[e].peer);
  }

  lemma GoodNotDead(net: Net)
    requires Inv(net) && Paired(net) && AllGood(net) && AllRun(net)
    requires forall e | 0 <= e < |net.ends| :: InStep(net.ends[e])
    ensures Dead(net) == multiset{}
  {
    var sides := Sides(net);
    forall e | 0 <= e < |sides| ensures Cut(sides[e]) == multiset{} && Unheard(sides[e]) == multiset{} {
      AllHeard(net, e);
      GoodSideNotDead(net, e);
    }
    CollectNothing(Cut, sides);
    CollectNothing(Unheard, sides);
    CollectNothing(Halted, net.nodes);
  }

  /** While every send meets an open sink, every service runs. */
  lemma GoodRuns(run: seq<Net>, moves: seq<Move>, i: nat)
    requires Makes(moves, run) && i < |run| && AllGood(run[i])
    ensures AllRun(run[i])
  {
    AllGoodIff(run, moves, i);
    C.NodesStay(run, moves, i);
    forall s | 0 <= s < |run[i].nodes| ensures run[i].nodes[s].running {
      StopsIff(run, moves, i, s);
    }
  }

  // ---------- bad ones are not delivered ----------

  /** No packet is under way. */
  ghost predicate Quiet(net: Net) { Paired(net) && UnderWay(net) == multiset{} }

  /** Not to be delivered: held by a loop that has ended, gone astray, dropped or lost. */
  ghost function Failed(net: Net): Count
    requires Paired(net)
  {
    Dead(net) + Astray(net) + Gone(net)
  }

  lemma WaitsInQueue(x: End, j: nat)
    requires Counted(x) && x.queue.taken <= j < |x.queue.log| && x.queue.log[j].body.Transmit?
    ensures x.queue.log[j].body.packet in Untaken(x)
  {
    CollectMember(Waiting, x.queue.log[x.queue.taken..], j - x.queue.taken, x.queue.log[j].body.packet);
  }

  lemma WaitsOrIsCut(net: Net, e: nat, j: nat)
    requires Inv(net) && Quiet(net) && e < |net.ends|
    requires net.ends[e].queue.taken <= j < |net.ends[e].queue.log| && net.ends[e].queue.log[j].body.Transmit?
    ensures Failed(net) != multiset{}
  {
    var x, sides := net.ends[e], Sides(net);
    var p := x.queue.log[j].body.packet;
    PacketsAtNodes(net, e, j);
    WaitsInQueue(x, j);
    if x.closed { CollectMember(Cut, sides, e, p); } else { CollectMember(Queued, sides, e, p); }
  }

  lemma UnsparedFails(net: Net, e: nat)
    requires Inv(net) && Quiet(net) && e < |net.ends| && !Spared(net.ends[e])
    ensures Failed(net) != multiset{}
  {
    var q := net.ends[e].queue;
    var j :| q.taken <= j < |q.log| && q.log[j].body.Transmit?;
    WaitsOrIsCut(net, e, j);
  }

  lemma BadInHandFails(net: Net, s: nat)
    requires Inv(net) && Quiet(net) && s < |net.nodes| && net.nodes[s].sending.Some?
    ensures Failed(net) != multiset{}
  {
    var n := net.nodes[s];
    var p := n.sending.value.1.body;
    if n.running { CollectMember(Held, net.nodes, s, p); } else { CollectMember(Halted, net.nodes, s, p); }
  }

  /** In a quiet state, if nothing was lost, an end that was given a bad packet holds it or has sent it astray. */
  lemma BadQueueFails(net: Net, e: nat)
    requires Inv(net) && Quiet(net) && e < |net.ends| && InStep(net.ends[e]) && NeverRead(net, e)
    requires LossesCounted(net.ends[e], []) && !QueueGood(net, e, net.ends[e].queue.log)
    ensures Failed(net) != multiset{}
  {
    var x := net.ends[e];
    var j :| 0 <= j < |x.queue.log| && x.queue.log[j].body.Transmit? && !GoodAt(net, e, x.queue.log[j].body.packet);
    PacketsAtNodes(net, e, j);
    if j < x.queue.taken {
      assert !Panics(x, j);
      BadGoesAstray(net, e, j);
      var p, w := x.queue.log[j].body.packet, Sides(net)[e];
      if p in Refused(w) {
        CollectMember(Refused, Sides(net), e, p);
      } else {
        CollectMember(Stranded, Sides(net), e, p);
      }
    } else {
      WaitsOrIsCut(net, e, j);
    }
  }

  lemma BadFails(net: Net)
    requires Inv(net) && Quiet(net) && !AllGood(net) && net.dropped == [] && net.lost == []
    requires forall e | 0 <= e < |net.ends| ::
               InStep(net.ends[e]) && LossesCounted(net.ends[e], net.lost) && NeverRead(net, e)
    ensures Failed(net) != multiset{}
  {
    if !AllSpared(net) {
      var e :| 0 <= e < |net.ends| && !Spared(net.ends[e]);
      UnsparedFails(net, e);
    } else if !QueuesGood(net) {
      var e :| 0 <= e < |net.ends| && !QueueGood(net, e, net.ends[e].queue.log);
      BadQueueFails(net, e);
    } else {
      var s :| 0 <= s < |net.nodes| && !SendingGood(net, net.nodes[s]);
      BadInHandFails(net, s);
    }
  }

  lemma QuietAllGoodIff(run: seq<Net>, moves: seq<Move>, i: nat)
    requires Makes(moves, run) && i < |run| && Inv(run[i]) && Quiet(run[i])
    ensures AllGood(run[i]) <==> Failed(run[i]) == multiset{}
  {
    var net := run[i];
    GoneIffSome(net);
    forall e | 0 <= e < |net.ends|
      ensures InStep(net.ends[e]) && LossesCounted(net.ends[e], net.lost) && NeverRead(net, e)
    {
      EndSettles(run, moves, i, e);
      IsNeverRead(run, moves, i, e);
    }
    if AllGood(net) {
      GoodRuns(run, moves, i);
      GoodNotAstray(net);
      GoodNotDead(net);
    } else if net.dropped == [] && net.lost == [] {
      BadFails(net);
    }
  }

  /**
    When no packet is under way, every packet that clients have sent has been received as often as it
    was sent, by clients of its target's key, if and only if every packet was taken up where the table
    led it to an end good for it, was handed to a write loop that had not ended, and was not in the
    queue of a write loop when that was ended.
   */
  lemma AllDeliveredIff(run: seq<Net>, moves: seq<Move>, i: nat)
    requires Makes(moves, run) && i < |run| && Quiet(run[i])
    ensures Delivered(run[i]) == Entered(run[i]) <==> forall k | 0 <= k < i :: GoodMove(run[k], moves[k])
  {
    MakesRun(moves, run);
    RunKeeps(run, i);
    PacketsAreConserved(run, i);
    QuietAllGoodIff(run, moves, i);
    AllGoodIff(run, moves, i);
    Remainder(Entered(run[i]), Delivered(run[i]), UnderWay(run[i]), Dead(run[i]), Astray(run[i]), Gone(run[i]));
  }

  lemma Remainder(E: Count, D: Count, U: Count, X: Count, A: Count, G: Count)
    requires E == D + U + X + A + G && U == multiset{}
    ensures D == E <==> X + A + G == multiset{}
  {
    assert E == D + (X + A + G);
    if D == E {
      forall p ensures (X + A + G)[p] == 0 { assert E[p] == D[p] + (X + A + G)[p]; }
    }
  }
}
