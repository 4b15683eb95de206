/** What loops that have ended hold, they hold for ever. */
module NetworkDead {
  import opened Links
  import opened Network
  import opened NetworkInvariants
  import opened NetworkMoves
  import opened NetworkGrowth
  import opened NetworkConservation
  import opened NetworkDelivery

  lemma {:induction false} CollectGrows<T>(f: T -> Count, s: seq<T>, t: seq<T>)
    requires |s| <= |t| && forall i | 0 <= i < |s| :: f(s[i]) <= f(t[i])
    ensures Collect(f, s) <= Collect(f, t)
  {
    if s != [] { CollectGrows(f, s[1..], t[1..]); }
  }

  // ---------- nodes that have stopped ----------

  lemma StoppedStays(net: Net, m: Move, s: nat)
    requires Enabled(net, m) && s < |net.nodes| && !net.nodes[s].running
    ensures s < |After(net, m).nodes|
    ensures var n := After(net, m).nodes[s];
            !n.running && n.inbox == net.nodes[s].inbox && n.sending == net.nodes[s].sending
  {}

  lemma HaltedStays(net: Net, m: Move, s: nat)
    requires Enabled(net, m) && s < |net.nodes|
    ensures s < |After(net, m).nodes| && Halted(net.nodes[s]) <= Halted(After(net, m).nodes[s])
  {
    MoveGrows(net, m);
    if !net.nodes[s].running { StoppedStays(net, m, s); }
  }

  // ---------- write loops that have ended ----------

  lemma ClosedStays(net: Net, m: Move, e: nat)
    requires Enabled(net, m) && e < |net.ends| && net.ends[e].closed
    ensures e < |After(net, m).ends| && After(net, m).ends[e].closed && After(net, m).ends[e].queue == net.ends[e].queue
  {
    if m.Handle? || m.Join? || m.Listen? { NodeMove(net, m); }
  }

  // ---------- read loops that have ended ----------

  /** Nothing was read, or the first frame was, by a node that is running and on whose read loop it has an arm. */
  ghost predicate ReadsOn(net: Net, x: End, x': End)
  {
    && x.wire.log <= x'.wire.log && x'.role == x.role && x'.peer == x.peer
    && (x'.wire.taken == x.wire.taken ||
        (x'.wire.taken == x.wire.taken + 1 && x.peer < |net.ends| && Ready(x.wire) && SideOf(net, x).heard
         && (net.ends[x.peer].role.Dialling? ==> !MeshClientReads(Next(x.wire).body, 0).Broken?)))
  }

  lemma MoveReadsOn(net: Net, m: Move, e: nat)
    requires Inv(net) && Enabled(net, m) && e < |net.ends|
    ensures e < |After(net, m).ends| && ReadsOn(net, net.ends[e], After(net, m).ends[e])
  {
    MoveGrows(net, m);
    if m.Read? {
      EndFacts(net, m.e);
    } else if m.Handle? || m.Join? || m.Listen? {
      NodeMove(net, m);
    }
  }

  lemma {:induction false} AudibleGrows(log: seq<Tracked<Frame>>, log': seq<Tracked<Frame>>)
    requires log <= log'
    ensures Audible(log) < |log| ==> Audible(log') == Audible(log)
    ensures Audible(log) <= Audible(log')
  {
    if log != [] && !MeshClientReads(log[0].body, 0).Broken? { AudibleGrows(log[1..], log'[1..]); }
  }

  lemma CollectPrefix<T>(f: T -> Count, s: seq<T>, t: seq<T>)
    requires s <= t
    ensures Collect(f, s) <= Collect(f, t)
  {
    assert t == s + t[|s|..];
    CollectAppend(f, s, t[|s|..]);
  }

  lemma CollectSuffix<T>(f: T -> Count, s: seq<T>, i: nat)
    requires i <= |s|
    ensures Collect(f, s[i..]) <= Collect(f, s)
  {
    assert s == s[..i] + s[i..];
    CollectAppend(f, s[..i], s[i..]);
  }

  /** What is behind a frame that ends the read loop stays behind it. */
  lemma BehindStays(log: seq<Tracked<Frame>>, log': seq<Tracked<Frame>>)
    requires log <= log'
    ensures Collect(Passing, log[Audible(log)..]) <= Collect(Passing, log'[Audible(log')..])
  {
    AudibleGrows(log, log');
    var n := Audible(log);
    if n < |log| {
      assert log[n..] <= log'[n..];
      CollectPrefix(Passing, log[n..], log'[n..]);
    } else {
      assert log[n..] == [];
    }
  }

  /** A read loop that reads on has had no frame ahead that ends it. */
  lemma AudibleNext(log: seq<Tracked<Frame>>)
    requires log != [] && !MeshClientReads(log[0].body, 0).Broken?
    ensures log[Audible(log)..] == log[1..][Audible(log[1..])..]
  {}

  lemma UnheardStays(net: Net, net': Net, x: End, x': End)
    requires x.peer < |net.ends| <= |net'.ends| && ReadsOn(net, x, x') && InOrder(x) && InOrder(x')
    requires net'.ends[x.peer].role == net.ends[x.peer].role && (SideOf(net', x').heard ==> SideOf(net, x).heard)
    ensures Unheard(SideOf(net, x)) <= Unheard(SideOf(net', x'))
  {
    if net.ends[x.peer].role.Dialling? && Counted(x) {
      var log, log' := Unread(x), Unread(x');
      if x'.wire.taken == x.wire.taken {
        assert log <= log';
        CollectPrefix(Passing, log, log');
        BehindStays(log, log');
      } else {
        assert log[0] == Next(x.wire) && log[1..] <= log';
        AudibleNext(log);
        BehindStays(log[1..], log');
      }
      CollectSuffix(Passing, log', Audible(log'));
    }
  }

  // ---------- all of them ----------

  /** The node at the other side of an end does not start again. */
  lemma HeardBefore(net: Net, m: Move, e: nat)
    requires Inv(net) && Enabled(net, m) && e < |net.ends|
    ensures e < |After(net, m).ends| && net.ends[e].peer < |net.ends| <= |After(net, m).ends|
    ensures var net', p := After(net, m), net.ends[e].peer;
            && net'.ends[p].role == net.ends[p].role && net'.ends[p].owner == net.ends[p].owner < |net.nodes|
            && (SideOf(net', net'.ends[e]).heard ==> SideOf(net, net.ends[e]).heard)
  {
    EndFacts(net, e);
    var p := net.ends[e].peer;
    EndFacts(net, p);
    MoveGrows(net, m);
    assert EndGrows(net.ends[e], After(net, m).ends[e]) && EndGrows(net.ends[p], After(net, m).ends[p]);
    if !net.nodes[net.ends[p].owner].running { StoppedStays(net, m, net.ends[p].owner); }
  }

  lemma SideStays(net: Net, m: Move, e: nat)
    requires Enabled(net, m) && Inv(net) && Inv(After(net, m)) && Paired(net) && Paired(After(net, m)) && e < |net.ends|
    ensures e < |After(net, m).ends|
    ensures var w, w' := Sides(net)[e], Sides(After(net, m))[e];
            Cut(w) <= Cut(w') && Unheard(w) <= Unheard(w')
  {
    var net' := After(net, m);
    HeardBefore(net, m, e);
    MoveReadsOn(net, m, e);
    EndFacts(net, e);
    EndFacts(net', e);
    UnheardStays(net, net', net.ends[e], net'.ends[e]);
    if net.ends[e].closed { ClosedStays(net, m, e); }
  }

  lemma MoveKeepsDead(net: Net, m: Move)
    requires Inv(net) && Enabled(net, m)
    ensures Paired(net) && Paired(After(net, m)) && Dead(net) <= Dead(After(net, m))
  {
    var net' := After(net, m);
    MoveKeeps(net, m);
    ArePaired(net);
    ArePaired(net');
    MoveGrows(net, m);
    var w, w' := Sides(net), Sides(net');
    forall s | 0 <= s < |net.nodes| ensures Halted(net.nodes[s]) <= Halted(net'.nodes[s]) {
      HaltedStays(net, m, s);
    }
    forall e | 0 <= e < |w| ensures Cut(w[e]) <= Cut(w'[e]) && Unheard(w[e]) <= Unheard(w'[e]) {
      SideStays(net, m, e);
    }
    CollectGrows(Halted, net.nodes, net'.nodes);
    CollectGrows(Cut, w, w');
    CollectGrows(Unheard, w, w');
  }

  /** What is dead in `net` is dead in `net'`. */
  ghost predicate Outlived(net: Net, net': Net)
  {
    Paired(net) && Paired(net') && Dead(net) <= Dead(net')
  }

  lemma OutlivedByItself(run: seq<Net>, i: nat)
    requires IsRun(run) && i < |run|
    ensures Outlived(run[i], run[i])
  {
    RunKeeps(run, i);
    ArePaired(run[i]);
  }

  lemma OutlivedByNext(run: seq<Net>, i: nat)
    requires IsRun(run) && 0 < i < |run|
    ensures Outlived(run[i - 1], run[i])
  {
    RunKeeps(run, i - 1);
    assert Follows(run[i - 1], run[i - 1 + 1]);
    var m :| Enabled(run[i - 1], m) && run[i] == After(run[i - 1], m);
    MoveKeepsDead(run[i - 1], m);
  }

  /** A transitive relation that holds from each state to the next holds from each to all later ones. */
  lemma {:induction false} Along<T(!new)>(r: (T, T) -> bool, s: seq<T>, i: nat, j: nat)
    requires i <= j < |s| && r(s[i], s[i])
    requires forall x, y, z | r(x, y) && r(y, z) :: r(x, z)
    requires forall k | 0 < k < |s| :: Linked(r, s, k)
    ensures r(s[i], s[j])
  {
    if i < j {
      Along(r, s, i, j - 1);
      assert Linked(r, s, j);
    }
  }

  ghost predicate Linked<T>(r: (T, T) -> bool, s: seq<T>, k: nat)
    requires 0 < k < |s|
  {
    r(s[k - 1], s[k])
  }

  /** A packet held by a loop that has ended is held for ever: no later move delivers it or takes it away. */
  lemma DeadStaysDead(run: seq<Net>, i: nat, j: nat)
    requires IsRun(run) && i <= j < |run|
    ensures Outlived(run[i], run[j])
  {
    OutlivedByItself(run, i);
    forall k | 0 < k < |run| ensures Linked(Outlived, run, k) {
      OutlivedByNext(run, k);
    }
    Along(Outlived, run, i, j);
  }

  // ---------- ending a write loop ----------

  ghost function Ended(w: Side): Side { w.(x := w.x.(closed := true)) }

  lemma EndedEnd(x: End)
    ensures var x' := x.(closed := true);
            Untaken(x') == Untaken(x) && Unread(x') == Unread(x)
  {}

  lemma EndedSide(w: Side)
    ensures Cut(Ended(w)) == Cut(w) + Queued(w) && Unheard(Ended(w)) == Unheard(w)
  {
    EndedEnd(w.x);
  }

  lemma SideAfter(net: Net, net': Net, e: nat, i: nat)
    requires Paired(net) && e < |net.ends| && net' == Tick(DoClose(net, e)) && i < |net.ends|
    ensures |net'.ends| == |net.ends| && net'.ends[i].peer == net.ends[i].peer
    ensures SideOf(net', net'.ends[i]) == (if i == e then Ended(Sides(net)[e]) else Sides(net)[i])
  {}

  lemma ClosePaired(net: Net, net': Net, e: nat)
    requires Paired(net) && e < |net.ends| && net' == Tick(DoClose(net, e))
    ensures Paired(net') && |net'.ends| == |net.ends|
  {
    forall i | 0 <= i < |net.ends| ensures net'.ends[i].peer == net.ends[i].peer {
      SideAfter(net, net', e, i);
    }
  }

  lemma CloseSides(net: Net, net': Net, e: nat)
    requires Paired(net) && Paired(net') && e < |net.ends| == |net'.ends| && net' == Tick(DoClose(net, e))
    ensures Sides(net') == Sides(net)[e := Ended(Sides(net)[e])]
  {
    var sides, sides' := Sides(net), Sides(net');
    forall i | 0 <= i < |sides| ensures sides'[i] == if i == e then Ended(sides[e]) else sides[i] {
      SideAfter(net, net', e, i);
    }
  }

  lemma DeadChange(nodes: seq<Node>, sides: seq<Side>, e: nat, w: Side, d: Count)
    requires e < |sides| && Cut(w) == Cut(sides[e]) + d && Unheard(w) == Unheard(sides[e])
    ensures Collect(Halted, nodes) + Collect(Cut, sides[e := w]) + Collect(Unheard, sides[e := w])
            == Collect(Halted, nodes) + Collect(Cut, sides) + Collect(Unheard, sides) + d
  {
    CollectChange(Cut, sides, e, w, d, multiset{});
    CollectChange(Unheard, sides, e, w, multiset{}, multiset{});
    Add(Collect(Halted, nodes), Collect(Cut, sides), Collect(Unheard, sides), d,
        Collect(Cut, sides[e := w]), Collect(Unheard, sides[e := w]));
  }

  lemma Add(h: Count, c: Count, u: Count, d: Count, c': Count, u': Count)
    requires c' + multiset{} == c + d && u' + multiset{} == u + multiset{}
    ensures h + c' + u' == h + c + u + d
  {
    forall p ensures (h + c' + u')[p] == (h + c + u + d)[p] {
      assert (c' + multiset{})[p] == (c + d)[p] && (u' + multiset{})[p] == (u + multiset{})[p];
    }
  }

  /** To end a write loop is the end of exactly the packets in its queue, if it has not ended before. */
  lemma CloseKills(net: Net, e: nat)
    requires Paired(net) && e < |net.ends|
    ensures Paired(Tick(DoClose(net, e)))
    ensures Dead(Tick(DoClose(net, e))) == Dead(net) + Queued(Sides(net)[e])
  {
    var net', w := Tick(DoClose(net, e)), Sides(net)[e];
    ClosePaired(net, net', e);
    CloseSides(net, net', e);
    EndedSide(w);
    DeadChange(net.nodes, Sides(net), e, Ended(w), Queued(w));
  }
}
