/** What becomes of commands at a write loop, when write loops and command loops end, and so when packets are lost. */
module NetworkFates {
  import opened Routing
  import opened Links
  import opened Network
  import opened NetworkEffects
  import opened NetworkInvariants
  import opened NetworkMoves
  import opened NetworkGrowth
  import opened NetworkHistory
  import opened NetworkConservation

  /** What the write loop of an end makes of a command. */
  function ActionOn(role: Role, canMesh: bool, c: WriteCommand): WriteAction
  {
    match role
    case Accepting(key, _) => ClientWrites(c, key, canMesh)
    case Dialling(_) => MeshClientWrites(c)
    case Remote(_) => Panic
  }

  /** The frames for the commands that do not make the loop panic. */
  ghost function Emits(role: Role, canMesh: bool, log: seq<Tracked<WriteCommand>>): seq<Tracked<Frame>>
  {
    if log == [] then []
    else Emits(role, canMesh, log[..|log| - 1]) + Emitted(role, canMesh, log[|log| - 1])
  }

  ghost function Emitted(role: Role, canMesh: bool, c: Tracked<WriteCommand>): seq<Tracked<Frame>>
  {
    match ActionOn(role, canMesh, c.body)
    case Emit(f) => [Tracked(f, c.hops, c.id)]
    case Panic => []
  }

  /** What an end has written, its subscriptions aside. */
  ghost function Output(log: seq<Tracked<Frame>>): seq<Tracked<Frame>>
  {
    if log == [] then [] else Output(log[..|log| - 1]) + if log[|log| - 1].body.Watch? then [] else [log[|log| - 1]]
  }

  ghost predicate Panics(x: End, j: nat)
  {
    j < |x.queue.log| && ActionOn(x.role, x.canMesh, x.queue.log[j].body).Panic?
  }

  ghost predicate TookPanic(x: End)
  {
    exists j | 0 <= j < x.queue.taken :: Panics(x, j)
  }

  /** The frames on the wire are those of the commands taken, in order. */
  ghost predicate InStep(x: End)
  {
    !x.role.Remote? && InOrder(x) ==> Output(x.wire.log) == Emits(x.role, x.canMesh, x.queue.log[..x.queue.taken])
  }

  /** A packet that made the loop panic is lost. */
  ghost predicate LossesCounted(x: End, lost: seq<Packet>)
  {
    forall j | 0 <= j < x.queue.taken && Panics(x, j) && x.queue.log[j].body.Transmit? ::
        x.queue.log[j].body.packet in lost
  }

  // ---------- what is in them ----------

  lemma {:induction false} EmitsContain(role: Role, canMesh: bool, log: seq<Tracked<WriteCommand>>, j: nat)
    requires j < |log|
    ensures forall f | f in Emitted(role, canMesh, log[j]) :: f in Emits(role, canMesh, log)
  {
    if j < |log| - 1 {
      assert log[..|log| - 1][j] == log[j];
      EmitsContain(role, canMesh, log[..|log| - 1], j);
    }
  }

  lemma {:induction false} OutputContains(log: seq<Tracked<Frame>>, f: Tracked<Frame>)
    requires f in Output(log)
    ensures f in log
  {
    if f in Output(log[..|log| - 1]) { OutputContains(log[..|log| - 1], f); }
  }

  /** Where a frame is in the output, and which command it was; in both, later frames come later. */
  lemma {:induction false} OutputAt(log: seq<Tracked<Frame>>, k: nat) returns (x: nat)
    requires k < |log| && !log[k].body.Watch?
    ensures x < |Output(log)| && Output(log)[x] == log[k]
  {
    if k < |log| - 1 {
      x := OutputAt(log[..|log| - 1], k);
    } else {
      x := |Output(log)| - 1;
    }
  }

  lemma {:induction false} OutputOrder(log: seq<Tracked<Frame>>, k: nat, l: nat) returns (x: nat, y: nat)
    requires k < l < |log| && !log[k].body.Watch? && !log[l].body.Watch?
    ensures x < y < |Output(log)| && Output(log)[x] == log[k] && Output(log)[y] == log[l]
  {
    if l < |log| - 1 {
      x, y := OutputOrder(log[..|log| - 1], k, l);
    } else {
      x := OutputAt(log[..l], k);
      y := |Output(log)| - 1;
    }
  }

  lemma {:induction false} EmitsFrom(role: Role, canMesh: bool, log: seq<Tracked<WriteCommand>>, x: nat)
    returns (j: nat)
    requires x < |Emits(role, canMesh, log)|
    ensures j < |log| && Emitted(role, canMesh, log[j]) == [Emits(role, canMesh, log)[x]]
  {
    if x < |Emits(role, canMesh, log[..|log| - 1])| {
      j := EmitsFrom(role, canMesh, log[..|log| - 1], x);
    } else {
      j := |log| - 1;
    }
  }

  lemma {:induction false} EmitsOrder(role: Role, canMesh: bool, log: seq<Tracked<WriteCommand>>, x: nat, y: nat)
    returns (j: nat, k: nat)
    requires x < y < |Emits(role, canMesh, log)|
    ensures j < k < |log| && Emitted(role, canMesh, log[j]) == [Emits(role, canMesh, log)[x]]
    ensures Emitted(role, canMesh, log[k]) == [Emits(role, canMesh, log)[y]]
  {
    if y < |Emits(role, canMesh, log[..|log| - 1])| {
      j, k := EmitsOrder(role, canMesh, log[..|log| - 1], x, y);
    } else {
      j := EmitsFrom(role, canMesh, log[..|log| - 1], x);
      k := |log| - 1;
    }
  }

  // ---------- a turn of the write loop ----------

  lemma OutputPut(log: seq<Tracked<Frame>>, f: Tracked<Frame>)
    ensures Output(log + [f]) == Output(log) + if f.body.Watch? then [] else [f]
  {
    assert (log + [f])[..|log|] == log;
  }

  lemma EmitsNext(role: Role, canMesh: bool, log: seq<Tracked<WriteCommand>>, k: nat)
    requires k < |log|
    ensures Emits(role, canMesh, log[..k + 1]) == Emits(role, canMesh, log[..k]) + Emitted(role, canMesh, log[k])
  {
    assert log[..k + 1][..k] == log[..k];
  }

  lemma NextAction(x: End)
    requires Ready(x.queue)
    ensures WritesNext(x) == ActionOn(x.role, x.canMesh, Next(x.queue).body)
    ensures WritesNext(x).Emit? ==> !WritesNext(x).frame.Watch?
  {}

  lemma NoticeNeverPanics(x: End, k: PublicKey)
    requires !x.role.Remote?
    ensures ActionOn(x.role, x.canMesh, Notify(k)).Emit?
  {}

  lemma WriteInStep(x: End, x': End)
    requires InOrder(x) && InStep(x) && Writes(x, x')
    ensures InStep(x')
  {
    var c := Next(x.queue);
    NextAction(x);
    EmitsNext(x.role, x.canMesh, x.queue.log, x.queue.taken);
    if WritesNext(x).Emit? { OutputPut(x.wire.log, Tracked(WritesNext(x).frame, c.hops, c.id)); }
  }

  lemma WritePanics(x: End, x': End, j: nat)
    requires Writes(x, x')
    ensures (Panics(x', j) <==> Panics(x, j)) && (Panics(x, x.queue.taken) <==> WritesNext(x).Panic?)
  {
    NextAction(x);
  }

  lemma WriteCounts(x: End, x': End, lost: seq<Packet>)
    requires Writes(x, x') && LossesCounted(x, lost)
    ensures LossesCounted(x', lost + Panicked(x)) && (TookPanic(x') <==> TookPanic(x) || WritesNext(x).Panic?)
  {
    forall j | 0 <= j < x.queue.taken + 1 ensures Panics(x', j) <==> Panics(x, j) { WritePanics(x, x', j); }
    WritePanics(x, x', x.queue.taken);
  }

  // ---------- other moves ----------

  /** Nothing has been taken from the queue or written, except that the end may have subscribed. */
  ghost predicate Idle(x: End, x': End)
  {
    && x'.role == x.role && x'.queue.taken == x.queue.taken && x.queue.log <= x'.queue.log
    && (x.queue.log != [] ==> x'.canMesh == x.canMesh)
    && (x.role.Remote? || x'.wire.log == x.wire.log || exists f: Tracked<Frame> ::
                f.body.Watch? && x'.wire.log == x.wire.log + [f])
  }

  lemma IdleInStep(x: End, x': End, lost: seq<Packet>, lost': seq<Packet>)
    requires InOrder(x) && InStep(x) && LossesCounted(x, lost) && Idle(x, x') && lost <= lost'
    ensures InStep(x') && LossesCounted(x', lost') && (TookPanic(x') <==> TookPanic(x))
  {
    assert x'.queue.log[..x.queue.taken] == x.queue.log[..x.queue.taken];
    if x.queue.log == [] { assert x.queue.taken == 0; }
    if !x.role.Remote? && x'.wire.log != x.wire.log {
      var f: Tracked<Frame> :| f.body.Watch? && x'.wire.log == x.wire.log + [f];
      OutputPut(x.wire.log, f);
    }
    assert forall j | 0 <= j < x.queue.taken :: Panics(x', j) <==> Panics(x, j);
  }

  /** The write loop of `e` has made no turn, and has ended only if it was ended. */
  ghost predicate Rests(net: Net, net': Net, e: nat, ended: bool)
  {
    && e < |net.ends| <= |net'.ends| && Idle(net.ends[e], net'.ends[e])
    && (net'.ends[e].closed <==> net.ends[e].closed || ended)
  }

  lemma SayRests(net: Net, d: nat, f: Frame, e: nat)
    requires CanSay(net, d, f) && e < |net.ends|
    ensures Rests(net, Tick(DoSay(net, d, f)), e, false)
  {
    var item := Tracked(f, [], Id(d, |net.ends[d].wire.log|));
    assert d == e ==> Tick(DoSay(net, d, f)).ends[e].wire.log == net.ends[e].wire.log + [item];
  }

  lemma RegisterRests(net: Net, d: nat, e: nat)
    requires CanRegister(net, d) && e < |net.ends|
    requires net.ends[e].role.Accepting? && net.ends[e].queue.log != [] ==> net.ends[e].live
    ensures Rests(net, Tick(DoRegister(net, d)), e, false)
  {}

  lemma HandRests(net: Net, s: nat, e: nat)
    requires CanHand(net, s) && e < |net.ends|
    ensures Rests(net, Tick(DoHand(net, s)), e, false)
  {
    HandHasEffect(net, s);
  }

  lemma InformRests(net: Net, s: nat, notice: Notice, e: nat)
    requires CanInform(net, s, notice) && e < |net.ends|
    ensures Rests(net, Tick(DoInform(net, s, notice)), e, false)
  {}

  lemma ReadRests(net: Net, d: nat, e: nat)
    requires CanRead(net, d) && e < |net.ends|
    ensures Rests(net, Tick(DoRead(net, d)), e, false)
  {
    ReadHasEffect(net, d);
  }

  lemma WriteRests(net: Net, d: nat, e: nat)
    requires CanWrite(net, d) && e < |net.ends| && d != e
    ensures Rests(net, Tick(DoWrite(net, d)), e, false)
  {
    WriteHasEffect(net, d);
  }

  lemma CloseRests(net: Net, d: nat, e: nat)
    requires d < |net.ends| && e < |net.ends|
    ensures Rests(net, Tick(DoClose(net, d)), e, d == e)
  {}

  lemma IdleMove(net: Net, m: Move, e: nat)
    requires Enabled(net, m) && e < |net.ends| && m != Write(e)
    requires net.ends[e].role.Accepting? && net.ends[e].queue.log != [] ==> net.ends[e].live
    ensures Rests(net, After(net, m), e, m == Move.Close(e))
  {
    match m
    case Dial(_, _, _, _) =>
    case Connect(_, _, _) =>
    case Register(d) => RegisterRests(net, d, e);
    case Say(d, f) => SayRests(net, d, f, e);
    case Read(d) => ReadRests(net, d, e);
    case Hand(s) => HandRests(net, s, e);
    case Inform(s, n) => InformRests(net, s, n, e);
    case Write(d) => WriteRests(net, d, e);
    case Close(d) => CloseRests(net, d, e);
    case _ => NodeMove(net, m);
  }

  lemma LostGrows(net: Net, m: Move)
    requires Enabled(net, m)
    ensures net.lost <= After(net, m).lost
  {}

  // ---------- runs ----------

  /** A write loop has ended because it was ended, or because it took a command that it panics on. */
  ghost predicate ClosedFor(x: End, moves: seq<Move>, e: nat)
  {
    !x.role.Remote? ==> (x.closed <==> Move.Close(e) in moves || TookPanic(x))
  }

  ghost predicate Settles(x: End, lost: seq<Packet>, moves: seq<Move>, e: nat)
  {
    InStep(x) && LossesCounted(x, lost) && ClosedFor(x, moves, e)
  }

  lemma MoveSettles(net: Net, m: Move, moves: seq<Move>, e: nat)
    requires Inv(net) && Enabled(net, m) && e < |net.ends| && Settles(net.ends[e], net.lost, moves, e)
    ensures e < |After(net, m).ends| && Settles(After(net, m).ends[e], After(net, m).lost, moves + [m], e)
  {
    var x := net.ends[e];
    EndFacts(net, e);
    if m == Write(e) {
      WriteHasEffect(net, e);
      WriteInStep(x, After(net, m).ends[e]);
      WriteCounts(x, After(net, m).ends[e], net.lost);
    } else {
      assert EndOk(net, e, x);
      IdleMove(net, m, e);
      LostGrows(net, m);
      IdleInStep(x, After(net, m).ends[e], net.lost, After(net, m).lost);
    }
  }

  /** A move on an end that did not exist cannot have been made. */
  lemma {:induction false} NotYet(run: seq<Net>, moves: seq<Move>, i: nat, e: nat)
    requires Makes(moves, run) && i < |run| && |run[i].ends| <= e
    ensures Move.Close(e) !in moves[..i]
  {
    if i > 0 {
      assert run[i - 1 + 1] == After(run[i - 1], moves[i - 1]);
      MoveGrows(run[i - 1], moves[i - 1]);
      NotYet(run, moves, i - 1, e);
      assert moves[..i] == moves[..i - 1] + [moves[i - 1]];
    }
  }

  lemma FreshSettles(x: End, lost: seq<Packet>, moves: seq<Move>, e: nat)
    requires x == FreshEnd(x.owner, x.role, x.peer) && Move.Close(e) !in moves
    ensures Settles(x, lost, moves, e)
  {}

  lemma {:induction false} EndSettles(run: seq<Net>, moves: seq<Move>, i: nat, e: nat)
    requires Makes(moves, run) && i < |run| && e < |run[i].ends|
    ensures Settles(run[i].ends[e], run[i].lost, moves[..i], e)
  {
    if i > 0 {
      var m := moves[i - 1];
      assert run[i - 1 + 1] == After(run[i - 1], m);
      assert moves[..i] == moves[..i - 1] + [m];
      if e < |run[i - 1].ends| {
        EndSettles(run, moves, i - 1, e);
        MakesRun(moves, run);
        RunKeeps(run, i - 1);
        MoveSettles(run[i - 1], m, moves[..i - 1], e);
      } else {
        NotYet(run, moves, i - 1, e);
        NewEndIsFresh(run[i - 1], m, e);
        FreshSettles(run[i].ends[e], run[i].lost, moves[..i], e);
      }
    }
  }

  /** A write loop ends if and only if it is ended from outside or takes a command that it panics on. */
  lemma ClosedIff(run: seq<Net>, moves: seq<Move>, i: nat, e: nat)
    requires Makes(moves, run) && i < |run| && e < |run[i].ends| && !run[i].ends[e].role.Remote?
    ensures run[i].ends[e].closed <==> Move.Close(e) in moves[..i] || TookPanic(run[i].ends[e])
  {
    EndSettles(run, moves, i, e);
  }

  /**
    Everything an end has written, its subscriptions aside, are the frames of the commands it has
    taken, in order and each once; the one it panicked on is missing, and if it was a packet, is lost.
   */
  lemma WrittenInOrder(run: seq<Net>, moves: seq<Move>, i: nat, e: nat)
    requires Makes(moves, run) && i < |run| && e < |run[i].ends| && !run[i].ends[e].role.Remote?
    ensures var x := run[i].ends[e];
            && x.queue.taken <= |x.queue.log|
            && Output(x.wire.log) == Emits(x.role, x.canMesh, x.queue.log[..x.queue.taken])
            && forall j | 0 <= j < x.queue.taken && Panics(x, j) && x.queue.log[j].body.Transmit? ::
               x.queue.log[j].body.packet in run[i].lost
  {
    EndSettles(run, moves, i, e);
    MakesRun(moves, run);
    RunKeeps(run, i);
    EndFacts(run[i], e);
  }

  // ---------- command loops ----------

  /** The move hands a packet to a sink whose write loop has ended. */
  ghost predicate MeetsClosed(net: Net, m: Move, s: nat)
  {
    m == Hand(s) && CanHand(net, s) && net.ends[net.nodes[s].sending.value.0].closed
  }

  lemma HandleRuns(net: Net, t: nat, s: nat)
    requires CanHandle(net, t) && !net.nodes[t].inbox[0].body.Stop? && s < |net.nodes|
    ensures |DoHandle(net, t).nodes| == |net.nodes| && DoHandle(net, t).nodes[s].running == net.nodes[s].running
  {}

  lemma OthersRun(net: Net, m: Move, s: nat)
    requires Enabled(net, m) && !m.Handle? && s < |net.nodes|
    ensures s < |After(net, m).nodes|
    ensures After(net, m).nodes[s].running <==> net.nodes[s].running && !MeetsClosed(net, m, s)
  {}

  lemma MoveStops(net: Net, m: Move, s: nat)
    requires Inv(net) && Enabled(net, m) && s < |net.nodes|
    ensures s < |After(net, m).nodes|
    ensures After(net, m).nodes[s].running <==> net.nodes[s].running && !MeetsClosed(net, m, s)
  {
    if m.Handle? {
      assert NodeOk(net, m.s, net.nodes[m.s]) && CommandOk(net, m.s, net.nodes[m.s].inbox[0]);
      HandleRuns(net, m.s, s);
    } else {
      OthersRun(net, m, s);
    }
  }

  /** A command loop ends if and only if it has handed a packet to a sink whose write loop had ended. */
  lemma {:induction false} StopsIff(run: seq<Net>, moves: seq<Move>, i: nat, s: nat)
    requires Makes(moves, run) && i < |run| && s < |run[0].nodes|
    ensures s < |run[i].nodes| && (!run[i].nodes[s].running <==> exists k | 0 <= k < i ::
        MeetsClosed(run[k], moves[k], s))
  {
    if i == 0 {
      assert run[0].nodes[s] == FreshNode(run[0].nodes[s].meshKey);
    } else {
      StopsIff(run, moves, i - 1, s);
      MakesRun(moves, run);
      RunKeeps(run, i - 1);
      assert run[i - 1 + 1] == After(run[i - 1], moves[i - 1]);
      MoveStops(run[i - 1], moves[i - 1], s);
    }
  }
}
