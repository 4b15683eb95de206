/**
  Each node of the network is a service: its tables, notices and sends are those that the
  service's own steps produce, so what holds of every run of a service holds of every node.
 */
module NetworkHistory {
  import opened Bytes
  import opened Routing
  import opened Network
  import opened NetworkInvariants
  import opened NetworkMoves

  /** The steps that a move makes at node `s`: at most one. */
  function StepsOf(net: Net, m: Move, s: nat): (steps: seq<Step>)
    requires Enabled(net, m)
    ensures |steps| <= 1
  {
    match m
    case Register(e) => if net.ends[e].owner == s then [Accept(net.ends[e].role.key, e)] else []
    case Join(e) => if net.ends[e].owner == s then [Step.Join(net.ends[e].role.peerKey, e)] else []
    case Handle(t) => if t == s then [Step.Handle(net.nodes[s].inbox[0].body)] else []
    case Hand(t) => if t == s then [Send] else []
    case Inform(t, notice) => if t == s then [Deliver(notice)] else []
    case Write(e) => if net.ends[e].owner == s && WritesNext(net.ends[e]).Panic? then [Step.Close(e)] else []
    case Close(e) => if net.ends[e].owner == s && !net.ends[e].role.Remote? then [Step.Close(e)] else []
    case _ => []
  }

  /** The moves that make up a run. */
  ghost predicate Makes(moves: seq<Move>, run: seq<Net>)
  {
    && |run| == |moves| + 1 && Initial(run[0])
    && forall i | 0 <= i < |moves| :: Enabled(run[i], moves[i]) && run[i + 1] == After(run[i], moves[i])
  }

  lemma MakesRun(moves: seq<Move>, run: seq<Net>)
    requires Makes(moves, run)
    ensures IsRun(run)
  {
    forall i | 0 <= i < |run| - 1 ensures Follows(run[i], run[i + 1]) {
      assert Enabled(run[i], moves[i]) && run[i + 1] == After(run[i], moves[i]);
    }
  }

  lemma MoveAt(run: seq<Net>, i: nat) returns (m: Move)
    requires IsRun(run) && i + 1 < |run|
    ensures Enabled(run[i], m) && run[i + 1] == After(run[i], m)
  {
    assert Follows(run[i], run[i + 1]);
    m :| Enabled(run[i], m) && run[i + 1] == After(run[i], m);
  }

  lemma {:induction false} MovesUpTo(run: seq<Net>, n: nat) returns (moves: seq<Move>)
    requires IsRun(run) && n < |run|
    ensures |moves| == n && forall i | 0 <= i < n :: Enabled(run[i], moves[i]) && run[i + 1] == After(run[i], moves[i])
  {
    if n == 0 {
      moves := [];
    } else {
      var first := MovesUpTo(run, n - 1);
      var m := MoveAt(run, n - 1);
      moves := first + [m];
    }
  }

  /** Every run is made by moves. */
  lemma RunIsMade(run: seq<Net>) returns (moves: seq<Move>)
    requires IsRun(run)
    ensures Makes(moves, run)
  {
    moves := MovesUpTo(run, |run| - 1);
  }

  function StepsAt(run: seq<Net>, moves: seq<Move>, i: nat, s: nat): seq<Step>
    requires i <= |moves| && |run| == |moves| + 1 && forall j | 0 <= j < |moves| :: Enabled(run[j], moves[j])
  {
    if i == 0 then [] else StepsAt(run, moves, i - 1, s) + StepsOf(run[i - 1], moves[i - 1], s)
  }

  /** The service that node `s` has been, up to state `i` of the run. */
  function ServiceAt(run: seq<Net>, moves: seq<Move>, i: nat, s: nat): Service
    requires i <= |moves| && |run| == |moves| + 1 && forall j | 0 <= j < |moves| :: Enabled(run[j], moves[j])
  {
    Run(StepsAt(run, moves, i, s))
  }

  // ---------- agreement ----------

  /** The commands sent to one sink. */
  function SendsTo(sends: seq<(Sink, WriteCommand)>, e: Sink): seq<WriteCommand>
  {
    if sends == [] then []
    else SendsTo(sends[..|sends| - 1], e) + if sends[|sends| - 1].0 == e then [sends[|sends| - 1].1] else []
  }

  function Commands(log: seq<Tracked<WriteCommand>>): (cs: seq<WriteCommand>)
    ensures |cs| == |log| && forall i | 0 <= i < |log| :: cs[i] == log[i].body
  {
    if log == [] then [] else Commands(log[..|log| - 1]) + [log[|log| - 1].body]
  }

  /** A service whose command loop has ended may have a packet in hand that the network counts as lost. */
  ghost predicate NodeAgrees(v: Service, n: Node)
  {
    && v.tables == n.tables && v.pending == n.pending && v.running == n.running
    && (v.running ==> v.sending == if n.sending.Some? then Some((n.sending.value.0, n.sending.value.1.body)) else None)
  }

  ghost predicate EndAgrees(v: Service, e: nat, x: End)
  {
    (e in v.closed <==> x.closed) && SendsTo(v.sends, e) == Commands(x.queue.log)
  }

  ghost predicate Belongs(x: End, s: nat) { x.owner == s && !x.role.Remote? }

  ghost predicate Bounded(v: Service, n: nat)
  {
    (forall e | e in v.closed :: e < n) && forall i | 0 <= i < |v.sends| :: v.sends[i].0 < n
  }

  ghost predicate Agrees(v: Service, net: Net, s: nat)
  {
    && s < |net.nodes| && NodeAgrees(v, net.nodes[s]) && Bounded(v, |net.ends|)
    && forall e {:trigger EndAgrees(v, e, net.ends[e])} | 0 <= e < |net.ends| && Belongs(net.ends[e], s) ::
       EndAgrees(v, e, net.ends[e])
  }

  // ---------- moves that do not concern the node ----------

  ghost predicate SameNode(n: Node, n': Node)
  {
    n'.tables == n.tables && n'.pending == n.pending && n'.running == n.running && n'.sending == n.sending
  }

  /** At an end of the node, nothing that its service knows of has changed. */
  ghost predicate SameEnd(x: End, x': End)
  {
    x'.owner == x.owner && x'.role == x.role && x'.closed == x.closed && x'.queue.log == x.queue.log
  }

  ghost predicate Elsewhere(net: Net, net': Net, s: nat)
  {
    && s < |net.nodes| == |net'.nodes| && |net.ends| <= |net'.ends| && SameNode(net.nodes[s], net'.nodes[s])
    && (forall e {:trigger net'.ends[e]} | 0 <= e < |net.ends| ::
          Belongs(net'.ends[e], s) ==> SameEnd(net.ends[e], net'.ends[e]))
    && (forall e {:trigger net'.ends[e]} | |net.ends| <= e < |net'.ends| ::
         !net'.ends[e].closed && net'.ends[e].queue.log == [])
  }

  lemma {:induction false} NothingSentTo(sends: seq<(Sink, WriteCommand)>, e: Sink)
    requires forall i | 0 <= i < |sends| :: sends[i].0 < e
    ensures SendsTo(sends, e) == []
  {
    if sends != [] { NothingSentTo(sends[..|sends| - 1], e); }
  }

  lemma ElsewhereAgrees(v: Service, net: Net, net': Net, s: nat)
    requires Agrees(v, net, s) && Elsewhere(net, net', s)
    ensures Agrees(v, net', s)
  {
    forall e | 0 <= e < |net'.ends| && Belongs(net'.ends[e], s) ensures EndAgrees(v, e, net'.ends[e]) {
      if e < |net.ends| {
        assert EndAgrees(v, e, net.ends[e]);
      } else {
        NothingSentTo(v.sends, e);
      }
    }
  }

  /** Sends and notices go to sinks of the node they come from. */
  predicate OwnSinks(net: Net, m: Move)
  {
    match m
    case Hand(t) => t < |net.nodes| && net.nodes[t].sending.Some? ==> Owned(net, net.nodes[t].sending.value.0, t)
    case Inform(t, notice) => Owned(net, notice.0, t)
    case _ => true
  }

  lemma MoveOwnsSinks(net: Net, m: Move)
    requires Inv(net) && Enabled(net, m)
    ensures OwnSinks(net, m)
  {
    match m
    case Hand(t) => assert NodeOk(net, t, net.nodes[t]);
    case Inform(t, _) => assert NodeOk(net, t, net.nodes[t]);
    case _ =>
  }

  predicate IsSend(m: Move) { m.Hand? || m.Inform? || m.Write? || m.Read? }

  lemma QuietSend(net: Net, m: Move, s: nat)
    requires IsSend(m) && OwnSinks(net, m) && Enabled(net, m) && s < |net.nodes| && StepsOf(net, m, s) == []
    ensures Elsewhere(net, After(net, m), s)
  {}

  lemma QuietHandle(net: Net, t: nat, s: nat)
    requires CanHandle(net, t) && s < |net.nodes| && s != t
    ensures Elsewhere(net, Tick(DoHandle(net, t)), s)
  {}

  lemma QuietMove(net: Net, m: Move, s: nat)
    requires OwnSinks(net, m) && Enabled(net, m) && s < |net.nodes| && StepsOf(net, m, s) == []
    ensures Elsewhere(net, After(net, m), s)
  {
    if IsSend(m) {
      QuietSend(net, m, s);
    } else if m.Handle? {
      QuietHandle(net, m.s, s);
    }
  }

  // ---------- moves that are a step of the node ----------

  /** Only what the node itself holds has changed. */
  lemma NodeStep(v: Service, v': Service, net: Net, net': Net, s: nat)
    requires Agrees(v, net, s) && s < |net'.nodes| && NodeAgrees(v', net'.nodes[s]) && v'.closed == v.closed
        && v'.sends == v.sends
    requires |net'.ends| == |net.ends| && forall e | 0 <= e < |net.ends| :: SameEnd(net.ends[e], net'.ends[e])
    ensures Agrees(v', net', s)
  {
    forall e | 0 <= e < |net'.ends| && Belongs(net'.ends[e], s) ensures EndAgrees(v', e, net'.ends[e]) {
      assert SameEnd(net.ends[e], net'.ends[e]) && EndAgrees(v, e, net.ends[e]);
    }
  }

  lemma SendAppends(sends: seq<(Sink, WriteCommand)>, e: Sink, c: WriteCommand, sink: Sink)
    ensures SendsTo(sends + [(e, c)], sink) == SendsTo(sends, sink) + if sink == e then [c] else []
  {
    assert (sends + [(e, c)])[..|sends|] == sends;
  }

  lemma CommandAppends(log: seq<Tracked<WriteCommand>>, c: Tracked<WriteCommand>)
    ensures Commands(log + [c]) == Commands(log) + [c.body]
  {
    assert (log + [c])[..|log|] == log;
  }

  /** One more command at a sink. */
  lemma SendStep(v: Service, v': Service, net: Net, net': Net, s: nat, e: nat, c: Tracked<WriteCommand>)
    requires Agrees(v, net, s) && s < |net'.nodes| && NodeAgrees(v', net'.nodes[s])
    requires v'.closed == v.closed && v'.sends == v.sends + [(e, c.body)] && e < |net.ends|
    requires net'.ends == net.ends[e := net.ends[e].(queue := Put(net.ends[e].queue, c))]
    ensures Agrees(v', net', s)
  {
    forall i | 0 <= i < |net'.ends| && Belongs(net'.ends[i], s) ensures EndAgrees(v', i, net'.ends[i]) {
      assert EndAgrees(v, i, net.ends[i]);
      SendAppends(v.sends, e, c.body, i);
      CommandAppends(net.ends[i].queue.log, c);
    }
  }

  /** A sink has closed. */
  lemma CloseStep(v: Service, net: Net, net': Net, s: nat, e: nat)
    requires Agrees(v, net, s) && e < |net.ends| == |net'.ends| && net'.nodes == net.nodes
        && net'.ends == net.ends[e := net'.ends[e]]
    requires SameEnd(net.ends[e].(closed := true), net'.ends[e])
    ensures Agrees(Take(v, Step.Close(e)), net', s)
  {
    var v' := Take(v, Step.Close(e));
    forall i | 0 <= i < |net'.ends| && Belongs(net'.ends[i], s) ensures EndAgrees(v', i, net'.ends[i]) {
      assert EndAgrees(v, i, net.ends[i]);
    }
  }

  lemma HandleStep(net: Net, s: nat, v: Service)
    requires CanHandle(net, s) && Agrees(v, net, s)
    ensures Agrees(Take(v, Step.Handle(net.nodes[s].inbox[0].body)), Tick(DoHandle(net, s)), s)
  {
    NodeStep(v, Take(v, Step.Handle(net.nodes[s].inbox[0].body)), net, Tick(DoHandle(net, s)), s);
  }

  lemma HandStep(net: Net, s: nat, v: Service)
    requires CanHand(net, s) && Agrees(v, net, s) && Owned(net, net.nodes[s].sending.value.0, s)
    ensures Agrees(Take(v, Send), Tick(DoHand(net, s)), s)
  {
    var net', e, item := Tick(DoHand(net, s)), net.nodes[s].sending.value.0, net.nodes[s].sending.value.1;
    assert EndAgrees(v, e, net.ends[e]);
    if net.ends[e].closed {
      NodeStep(v, Take(v, Send), net, net', s);
    } else {
      SendStep(v, Take(v, Send), net, net', s, e, Tracked(Transmit(item.body), item.hops, item.id));
    }
  }

  lemma InformStep(net: Net, s: nat, notice: Notice, v: Service)
    requires CanInform(net, s, notice) && Agrees(v, net, s) && Owned(net, notice.0, s)
    ensures Agrees(Take(v, Deliver(notice)), Tick(DoInform(net, s, notice)), s)
  {
    var net', e := Tick(DoInform(net, s, notice)), notice.0;
    assert EndAgrees(v, e, net.ends[e]);
    if net.ends[e].closed {
      NodeStep(v, Take(v, Deliver(notice)), net, net', s);
    } else {
      SendStep(v, Take(v, Deliver(notice)), net, net', s, e, Tracked(Notify(notice.1), [], NO_ID));
    }
  }

  lemma OtherStep(net: Net, m: Move, s: nat, v: Service)
    requires (m.Register? || m.Join? || m.Write? || m.Close?) && Enabled(net, m) && Agrees(v, net, s)
        && StepsOf(net, m, s) != []
    ensures Agrees(Take(v, StepsOf(net, m, s)[0]), After(net, m), s)
  {
    match m
    case Register(e) => NodeStep(v, Take(v, StepsOf(net, m, s)[0]), net, After(net, m), s);
    case Join(e) => NodeStep(v, Take(v, StepsOf(net, m, s)[0]), net, After(net, m), s);
    case Write(e) => CloseStep(v, net, After(net, m), s, e);
    case Close(e) => CloseStep(v, net, After(net, m), s, e);
  }

  /** Every move is, at every node, a step of that node's service or no concern of it. */
  lemma MoveIsStep(net: Net, m: Move, s: nat, v: Service)
    requires Inv(net) && Enabled(net, m) && Agrees(v, net, s)
    ensures Agrees(if StepsOf(net, m, s) == [] then v else Take(v, StepsOf(net, m, s)[0]), After(net, m), s)
  {
    MoveOwnsSinks(net, m);
    if StepsOf(net, m, s) == [] {
      QuietMove(net, m, s);
      ElsewhereAgrees(v, net, After(net, m), s);
    } else {
      match m
      case Handle(t) => HandleStep(net, s, v);
      case Hand(t) => HandStep(net, s, v);
      case Inform(t, notice) => InformStep(net, s, notice, v);
      case _ => OtherStep(net, m, s, v);
    }
  }

  // ---------- runs ----------

  lemma RunExtends(steps: seq<Step>, more: seq<Step>)
    requires |more| <= 1
    ensures Run(steps + more) == if more == [] then Run(steps) else Take(Run(steps), more[0])
  {
    if more == [] { assert steps + more == steps; } else { assert (steps + more)[..|steps|] == steps; }
  }

  lemma InitialAgrees(net: Net, s: nat)
    requires Initial(net) && s < |net.nodes|
    ensures Agrees(FRESH, net, s)
  {
    assert net.nodes[s] == FreshNode(net.nodes[s].meshKey);
  }

  lemma OneMoreMove(run: seq<Net>, moves: seq<Move>, i: nat, s: nat)
    requires Makes(moves, run) && i < |moves| && Inv(run[i]) && Agrees(ServiceAt(run, moves, i, s), run[i], s)
    ensures Agrees(ServiceAt(run, moves, i + 1, s), run[i + 1], s)
  {
    MoveIsStep(run[i], moves[i], s, ServiceAt(run, moves, i, s));
    RunExtends(StepsAt(run, moves, i, s), StepsOf(run[i], moves[i], s));
  }

  /** In every state of every run, every node is what its service's steps have made it. */
  lemma {:induction false} NodeIsService(run: seq<Net>, moves: seq<Move>, i: nat, s: nat)
    requires Makes(moves, run) && i < |run| && s < |run[0].nodes|
    ensures Agrees(ServiceAt(run, moves, i, s), run[i], s)
  {
    if i == 0 {
      InitialAgrees(run[0], s);
    } else {
      NodeIsService(run, moves, i - 1, s);
      MakesRun(moves, run);
      RunKeeps(run, i - 1);
      OneMoreMove(run, moves, i - 1, s);
    }
  }

  /** So every node's routing table is decided by its latest registrations and first announcements. */
  lemma NodeTableIsHistory(run: seq<Net>, moves: seq<Move>, i: nat, s: nat, k: PublicKey)
    requires Makes(moves, run) && i < |run| && s < |run[0].nodes|
    ensures s < |run[i].nodes|
    ensures var log := ServiceAt(run, moves, i, s).log;
            Lookup(run[i].nodes[s].tables, k) == if LastRegistered(log, k).Some? then LastRegistered(log, k)
                else FirstHeard(log, k)
  {
    NodeIsService(run, moves, i, s);
    TableIsHistory(StepsAt(run, moves, i, s), k);
  }

  /**
    And at every node, the packets that have gone into queues for a key, and the one in hand, are
    the packets routed for it, in order and once each, less those from before the key was known.
   */
  lemma NodeKeepsOrder(run: seq<Net>, moves: seq<Move>, i: nat, s: nat, k: PublicKey)
    requires Makes(moves, run) && i < |run| && s < |run[0].nodes|
    ensures Agrees(ServiceAt(run, moves, i, s), run[i], s)
    ensures var v := ServiceAt(run, moves, i, s);
            DropsArePrefix(v.log, Passed(v, k), k)
                && (k in run[i].nodes[s].tables.peers <==> FirstMention(v.log, k) < |v.log|)
  {
    NodeIsService(run, moves, i, s);
    PacketsKeepOrder(StepsAt(run, moves, i, s), k);
  }
}
