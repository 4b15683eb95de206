/**
  Which packets a connection is sent: those for the key its client registered under, and those for
  keys that it was the first to announce to a node where nobody had registered under them.
 */
module NetworkClaims {
  import opened Bytes
  import opened Routing
  import opened Links
  import opened Network
  import opened NetworkInvariants
  import opened NetworkMoves
  import opened NetworkGrowth
  import opened NetworkHistory
  import P = Protocol

  /** A registration in the log was made by an end with that key, an announcement came by the end it names. */
  ghost predicate EventOk(net: Net, e: Event)
  {
    match e
    case Registered(k, sink) => sink < |net.ends| && IsOwnEnd(net.ends[sink], k)
    case Heard(k, sink) => sink < |net.ends| && net.ends[sink].peer < |net.ends| && k in SaidTo(net, sink)
    case _ => true
  }

  ghost predicate LogOk(net: Net, log: seq<Event>)
  {
    forall e | e in log :: EventOk(net, e)
  }

  lemma EventStays(net: Net, net': Net, e: Event)
    requires EndsGrow(net, net') && EventOk(net, e)
    ensures EventOk(net', e)
  {
    match e
    case Registered(k, sink) => assert EndGrows(net.ends[sink], net'.ends[sink]);
    case Heard(k, sink) =>
      var p := net.ends[sink].peer;
      assert EndGrows(net.ends[sink], net'.ends[sink]) && EndGrows(net.ends[p], net'.ends[p]);
      SaidGrows(net.ends[p].wire.log, net'.ends[p].wire.log);
    case _ =>
  }

  lemma NewEventOk(net: Net, m: Move, s: nat, v: Service)
    requires Inv(net) && Enabled(net, m) && Agrees(v, net, s) && StepsOf(net, m, s) != []
        && EventOf(v, StepsOf(net, m, s)[0]).Some?
    ensures EventOk(net, EventOf(v, StepsOf(net, m, s)[0]).value)
  {
    if m.Handle? {
      assert NodeOk(net, s, net.nodes[s]) && CommandOk(net, s, net.nodes[s].inbox[0]);
    }
  }

  lemma OneMoreEvent(run: seq<Net>, moves: seq<Move>, i: nat, s: nat)
    requires Makes(moves, run) && i < |moves| && Inv(run[i]) && Agrees(ServiceAt(run, moves, i, s), run[i], s)
    requires LogOk(run[i], ServiceAt(run, moves, i, s).log)
    ensures LogOk(run[i + 1], ServiceAt(run, moves, i + 1, s).log)
  {
    var v, more := ServiceAt(run, moves, i, s), StepsOf(run[i], moves[i], s);
    RunExtends(StepsAt(run, moves, i, s), more);
    MoveGrows(run[i], moves[i]);
    if more == [] {
      assert v.log + [] == v.log;
      LogExtends(run[i], run[i + 1], v.log, None);
    } else {
      if EventOf(v, more[0]).Some? { NewEventOk(run[i], moves[i], s, v); }
      StepLogs(v, more[0]);
      LogExtends(run[i], run[i + 1], v.log, EventOf(v, more[0]));
    }
  }

  lemma LogExtends(net: Net, net': Net, log: seq<Event>, more: Option<Event>)
    requires EndsGrow(net, net') && LogOk(net, log) && (more.Some? ==> EventOk(net, more.value))
    ensures LogOk(net', log + match more case Some(e) => [e] case None => [])
  {
    forall e | e in log || (more.Some? && e == more.value) ensures EventOk(net', e) { EventStays(net, net', e); }
  }

  lemma {:induction false} LogIsTrue(run: seq<Net>, moves: seq<Move>, i: nat, s: nat)
    requires Makes(moves, run) && i < |run| && s < |run[0].nodes|
    ensures LogOk(run[i], ServiceAt(run, moves, i, s).log)
  {
    if i > 0 {
      LogIsTrue(run, moves, i - 1, s);
      NodeIsService(run, moves, i - 1, s);
      MakesRun(moves, run);
      RunKeeps(run, i - 1);
      OneMoreEvent(run, moves, i - 1, s);
    }
  }

  lemma {:induction false} SentToIsSent(sends: seq<(Sink, WriteCommand)>, e: Sink, j: nat)
    requires j < |SendsTo(sends, e)|
    ensures (e, SendsTo(sends, e)[j]) in sends
  {
    if j < |SendsTo(sends[..|sends| - 1], e)| { SentToIsSent(sends[..|sends| - 1], e, j); }
  }

  /**
    Whatever is queued at an end is for the key that its client registered under, or for a key that
    the end was the first to announce at this node.
   */
  lemma QueuedForTheClient(run: seq<Net>, moves: seq<Move>, i: nat, s: nat, e: nat, j: nat)
    requires Makes(moves, run) && i < |run| && s < |run[0].nodes| && e < |run[i].ends| && Belongs(run[i].ends[e], s)
    requires j < |run[i].ends[e].queue.log| && run[i].ends[e].queue.log[j].body.Transmit?
    ensures var t := run[i].ends[e].queue.log[j].body.packet.target;
            IsOwnEnd(run[i].ends[e], t) || FirstHeard(ServiceAt(run, moves, i, s).log, t) == Some(e)
  {
    var v, c := ServiceAt(run, moves, i, s), run[i].ends[e].queue.log[j].body;
    NodeIsService(run, moves, i, s);
    assert EndAgrees(v, e, run[i].ends[e]);
    SentToIsSent(v.sends, e, j);
    SendsAreJustified(StepsAt(run, moves, i, s));
    assert Justified(v.log, c.packet.target, e);
    LogIsTrue(run, moves, i, s);
    assert Registered(c.packet.target, e) in v.log ==> EventOk(run[i], Registered(c.packet.target, e));
  }

  /**
    And exactly so: the packet that a node takes up now goes to an end of another key if and only if
    nobody has registered at this node under the packet's target, and that end was the first to announce it.
   */
  lemma SentToClaimantIff(run: seq<Net>, moves: seq<Move>, i: nat, s: nat, e: nat)
    requires Makes(moves, run) && i < |moves| && moves[i] == Move.Handle(s) && run[i].nodes[s].inbox[0].body.Route?
    requires e < |run[i].ends| && !IsOwnEnd(run[i].ends[e], run[i].nodes[s].inbox[0].body.packet.target)
    ensures s < |run[0].nodes| && s < |run[i + 1].nodes|
    ensures var log, t := ServiceAt(run, moves, i, s).log, run[i].nodes[s].inbox[0].body.packet.target;
            var sending := run[i + 1].nodes[s].sending;
            sending.Some? && sending.value.0 == e <==> LastRegistered(log, t).None? && FirstHeard(log, t) == Some(e)
  {
    NodesStay(run, moves, i);
    NodeIsService(run, moves, i, s);
    LogIsTrue(run, moves, i, s);
    var v, t := ServiceAt(run, moves, i, s), run[i].nodes[s].inbox[0].body.packet.target;
    assert Registered(t, e) in v.log ==> EventOk(run[i], Registered(t, e));
    LookupIff(StepsAt(run, moves, i, s), t, e);
    HandleLooksUp(run[i], s);
  }

  lemma HandleLooksUp(net: Net, s: nat)
    requires CanHandle(net, s) && net.nodes[s].inbox[0].body.Route?
    ensures var net', p := DoHandle(net, s), net.nodes[s].inbox[0].body.packet;
            && |net'.nodes| == |net.nodes|
            && Lookup(net.nodes[s].tables, p.target) ==
                 if net'.nodes[s].sending.Some? then Some(net'.nodes[s].sending.value.0) else None
  {}

  lemma {:induction false} NodesStay(run: seq<Net>, moves: seq<Move>, i: nat)
    requires Makes(moves, run) && i < |run|
    ensures |run[i].nodes| == |run[0].nodes|
  {
    if i > 0 {
      NodesStay(run, moves, i - 1);
      assert run[i - 1 + 1] == After(run[i - 1], moves[i - 1]);
      MoveGrows(run[i - 1], moves[i - 1]);
    }
  }

  /**
    So the write loop of a plain client reaches the arm that panics for want of the mesh key only for
    a target that the client was the first to announce here; a client that has announced no key, or
    only its own and such as others had announced before, is sent nothing but its own packets.
   */
  lemma ForwardingArmUnreached(run: seq<Net>, moves: seq<Move>, i: nat, s: nat, e: nat, j: nat)
    requires Makes(moves, run) && i < |run| && s < |run[0].nodes| && e < |run[i].ends| && Belongs(run[i].ends[e], s)
    requires run[i].ends[e].role.Accepting? && !run[i].ends[e].canMesh
    requires forall t | t != run[i].ends[e].role.key :: FirstHeard(ServiceAt(run, moves, i, s).log, t) != Some(e)
    requires j < |run[i].ends[e].queue.log| && run[i].ends[e].queue.log[j].body.Transmit?
    ensures var key, p := run[i].ends[e].role.key, run[i].ends[e].queue.log[j].body.packet;
            p.target == key && (ClientWrites(Transmit(p), key, false).Panic? <==> !P.Recv(key, p.payload).Fits())
  {
    QueuedForTheClient(run, moves, i, s, e, j);
  }
}
