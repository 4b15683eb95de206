/** What holds in every state of every run of the network, whatever its clients send. */
module NetworkTheorems {
  import opened Bytes
  import opened Routing
  import opened Network
  import opened NetworkInvariants
  import opened NetworkMoves
  import opened NetworkGrowth

  ghost predicate Distinct(s: seq<nat>)
  {
    forall i, j | 0 <= i < j < |s| :: s[i] != s[j]
  }

  /** Numbers below `n` without repetition are at most `n` many. */
  lemma {:induction false} Pigeonhole(s: seq<nat>, n: nat)
    requires Distinct(s) && forall i | 0 <= i < |s| :: s[i] < n
    ensures |s| <= n
    decreases n
  {
    if s != [] {
      assert s[0] < n;
      if n - 1 in s {
        var i :| 0 <= i < |s| && s[i] == n - 1;
        Pigeonhole(s[..i] + s[i + 1..], n - 1);
      } else {
        Pigeonhole(s, n - 1);
      }
    }
  }

  // ---------- routes have no loops ----------

  /** The node that the entry for `k` at node `s` leads to; none for a client's own entry or a client's claim. */
  ghost function NextNode(net: Net, s: nat, k: PublicKey): Option<nat>
    requires s < |net.nodes| && k in net.nodes[s].tables.peers && net.nodes[s].tables.peers[k] < |net.ends|
    requires net.ends[net.nodes[s].tables.peers[k]].peer < |net.ends|
  {
    var x := net.ends[net.nodes[s].tables.peers[k]];
    if IsOwnEnd(x, k) || net.ends[x.peer].role.Remote? then None else Some(net.ends[x.peer].owner)
  }

  ghost predicate Knows(net: Net, s: nat, k: PublicKey)
  {
    && s < |net.nodes| && k in net.nodes[s].tables.peers && net.nodes[s].tables.peers[k] < |net.ends|
    && net.ends[net.nodes[s].tables.peers[k]].peer < |net.ends|
  }

  /** Nodes that follow one another by their entries for `k`. */
  ghost predicate IsPath(net: Net, k: PublicKey, path: seq<nat>)
  {
    && (forall i | 0 <= i < |path| :: Knows(net, path[i], k))
    && (forall i | 0 <= i < |path| - 1 :: NextNode(net, path[i], k) == Some(path[i + 1]))
  }

  lemma EntryIsKnown(net: Net, s: nat, k: PublicKey)
    requires Inv(net) && s < |net.nodes| && k in net.nodes[s].tables.peers
    ensures Knows(net, s, k) && k in Born(net, s)
    ensures NextNode(net, s, k).Some? ==>
              var t := NextNode(net, s, k).value;
              t < |net.nodes| && k in net.nodes[t].tables.peers && k in Born(net, t)
                  && Born(net, t)[k] < Born(net, s)[k]
  {
    var n := net.nodes[s];
    var e := n.tables.peers[k];
    assert NodeOk(net, s, n) && RouteOk(net, s, n, k) && EndOk(net, e, net.ends[e]);
    if NextNode(net, s, k).Some? {
      var t := NextNode(net, s, k).value;
      assert NodeOk(net, t, net.nodes[t]);
    }
  }

  lemma {:induction false} PathDescends(net: Net, k: PublicKey, path: seq<nat>, i: nat, j: nat)
    requires Inv(net) && IsPath(net, k, path) && i < j < |path|
    ensures path[i] < |net.nodes| && path[j] < |net.nodes| && k in Born(net, path[i]) && k in Born(net, path[j])
    ensures Born(net, path[j])[k] < Born(net, path[i])[k]
    decreases j - i
  {
    assert Knows(net, path[i], k) && Knows(net, path[i + 1], k);
    EntryIsKnown(net, path[i], k);
    assert NextNode(net, path[i], k) == Some(path[i + 1]);
    if i + 1 < j { PathDescends(net, k, path, i + 1, j); }
  }

  /** However long one follows the entries for a key, no node comes up twice. */
  lemma RoutesHaveNoLoops(run: seq<Net>, i: nat, k: PublicKey, path: seq<nat>)
    requires IsRun(run) && i < |run| && IsPath(run[i], k, path)
    ensures Distinct(path) && |path| <= |run[i].nodes|
  {
    RunKeeps(run, i);
    forall a, b | 0 <= a < b < |path| ensures path[a] != path[b] { PathDescends(run[i], k, path, a, b); }
    forall a | 0 <= a < |path| ensures path[a] < |run[i].nodes| { assert Knows(run[i], path[a], k); }
    Pigeonhole(path, |run[i].nodes|);
  }

  /**
    And the way comes to an end: at the node where the client with that key is registered, or at
    a connection whose client has claimed the key for itself.
   */
  lemma {:induction false} RoutesEnd(run: seq<Net>, i: nat, k: PublicKey, s: nat) returns (path: seq<nat>)
    requires IsRun(run) && i < |run| && s < |run[i].nodes| && k in run[i].nodes[s].tables.peers
    ensures IsPath(run[i], k, path) && path != [] && path[0] == s
    ensures var net, last := run[i], path[|path| - 1];
            && Knows(net, last, k)
            && var x := net.ends[net.nodes[last].tables.peers[k]];
               IsOwnEnd(x, k) || (net.ends[x.peer].role.Remote? && k in Said(net.ends[x.peer].wire.log))
  {
    RunKeeps(run, i);
    path := FollowRoute(run[i], k, s);
  }

  lemma {:induction false} FollowRoute(net: Net, k: PublicKey, s: nat) returns (path: seq<nat>)
    requires Inv(net) && s < |net.nodes| && k in net.nodes[s].tables.peers
    ensures IsPath(net, k, path) && path != [] && path[0] == s
    ensures var last := path[|path| - 1];
            && Knows(net, last, k)
            && var x := net.ends[net.nodes[last].tables.peers[k]];
               IsOwnEnd(x, k) || (net.ends[x.peer].role.Remote? && k in Said(net.ends[x.peer].wire.log))
    decreases if k in Born(net, s) then Born(net, s)[k] else 0
  {
    EntryIsKnown(net, s, k);
    path := [s];
    if NextNode(net, s, k).Some? {
      var t := NextNode(net, s, k).value;
      var rest := FollowRoute(net, k, t);
      path := [s] + rest;
      forall i | 0 <= i < |path| - 1 ensures NextNode(net, path[i], k) == Some(path[i + 1]) {
        if i > 0 { assert path[i] == rest[i - 1] && path[i + 1] == rest[i - 1 + 1]; }
      }
    } else {
      var n := net.nodes[s];
      assert NodeOk(net, s, n) && RouteOk(net, s, n, k);
    }
  }

  // ---------- packets ----------

  lemma DescendingIsDistinct(net: Net, t: PublicKey, hops: seq<nat>)
    requires Descending(net, t, hops)
    ensures Distinct(hops) && |hops| <= |net.nodes|
  {
    forall i, j | 0 <= i < j < |hops| ensures hops[i] != hops[j] {
      assert Born(net, hops[i])[t] > Born(net, hops[j])[t];
    }
    Pigeonhole(hops, |net.nodes|);
  }

  lemma InboxNeverReturns(net: Net, s: nat, j: nat)
    requires Inv(net) && s < |net.nodes| && j < |net.nodes[s].inbox| && net.nodes[s].inbox[j].body.Route?
    ensures Distinct(net.nodes[s].inbox[j].hops + [s]) && |net.nodes[s].inbox[j].hops| < |net.nodes|
  {
    var item := net.nodes[s].inbox[j];
    var t, h := item.body.packet.target, item.hops + [s];
    assert NodeOk(net, s, net.nodes[s]) && CommandOk(net, s, item);
    if item.hops != [] {
      forall a, b | 0 <= a < b < |h| ensures Born(net, h[a])[t] > Born(net, h[b])[t] {
        assert b == |item.hops| && a < |item.hops| - 1 ==>
            Born(net, item.hops[a])[t] > Born(net, item.hops[|item.hops| - 1])[t];
      }
      DescendingIsDistinct(net, t, h);
    }
  }

  /** A packet never comes back to a node that has passed it on, though tables change while it travels. */
  lemma PacketsNeverReturn(run: seq<Net>, i: nat, s: nat, j: nat)
    requires IsRun(run) && i < |run| && s < |run[i].nodes| && j < |run[i].nodes[s].inbox|
        && run[i].nodes[s].inbox[j].body.Route?
    ensures Distinct(run[i].nodes[s].inbox[j].hops + [s]) && |run[i].nodes[s].inbox[j].hops| < |run[i].nodes|
  {
    RunKeeps(run, i);
    InboxNeverReturns(run[i], s, j);
  }

  /** A packet that was passed on is never dropped for want of an entry: only its first node drops a packet. */
  lemma ForwardedNeverDropped(run: seq<Net>, i: nat, s: nat, j: nat)
    requires IsRun(run) && i < |run|
    ensures forall d | d in run[i].dropped :: d.hops == []
    ensures s < |run[i].nodes| && j < |run[i].nodes[s].inbox| && run[i].nodes[s].inbox[j].body.Route?
            && run[i].nodes[s].inbox[j].hops != [] ==>
              run[i].nodes[s].inbox[j].body.packet.target in run[i].nodes[s].tables.peers
  {
    RunKeeps(run, i);
    var net := run[i];
    if s < |net.nodes| && j < |net.nodes[s].inbox| {
      assert NodeOk(net, s, net.nodes[s]) && CommandOk(net, s, net.nodes[s].inbox[j]);
    }
  }

  /** What a client is given is addressed to it and was sent, as it is, by a client. */
  lemma DeliveriesAreGenuine(run: seq<Net>, i: nat, e: nat, j: nat)
    requires IsRun(run) && i < |run| && e < |run[i].ends| && !run[i].ends[e].role.Remote?
    requires j < |run[i].ends[e].wire.log| && run[i].ends[e].wire.log[j].body.Recv?
    ensures var x, f := run[i].ends[e], run[i].ends[e].wire.log[j].body;
            IsOwnEnd(x, f.target) && exists source :: Sent(run[i], Packet(source, f.target, f.payload))
  {
    RunKeeps(run, i);
    var net := run[i];
    assert EndOk(net, e, net.ends[e]) && FrameOk(net, e, net.ends[e], net.ends[e].wire.log[j]);
  }

  /** Packets cross a connection only from the node that accepted it to the node that dialled it. */
  lemma ForwardingGoesDownstream(run: seq<Net>, i: nat, e: nat, j: nat)
    requires IsRun(run) && i < |run| && e < |run[i].ends| && run[i].ends[e].role.Dialling?
        && j < |run[i].ends[e].wire.log|
    ensures run[i].ends[e].wire.log[j].body.Announce? || run[i].ends[e].wire.log[j].body.Watch?
  {
    RunKeeps(run, i);
    var net := run[i];
    assert EndOk(net, e, net.ends[e]) && FrameOk(net, e, net.ends[e], net.ends[e].wire.log[j]);
  }

  // ---------- the mesh ----------

  /** Every mesh entry is a dialled link, or a registered client that presented the server's mesh key. */
  lemma MeshAdmission(run: seq<Net>, i: nat, s: nat, m: PublicKey)
    requires IsRun(run) && i < |run| && s < |run[i].nodes| && m in run[i].nodes[s].tables.mesh
    ensures var net, n := run[i], run[i].nodes[s];
            var e := n.tables.mesh[m];
            && Owned(net, e, s)
            && (net.ends[e].role == Dialling(m) ||
                (IsOwnEnd(net.ends[e], m) && m in n.tables.peers && n.meshKey.Some?
                    && net.ends[e].role.offered == n.meshKey))
  {
    RunKeeps(run, i);
    var net, n := run[i], run[i].nodes[s];
    assert NodeOk(net, s, n) && MemberOk(net, s, n, m) && EndOk(net, n.tables.mesh[m], net.ends[n.tables.mesh[m]]);
  }

  /** A dialled link can mesh exactly when the node that dialled has a mesh key that is not empty. */
  lemma DialledLinksMesh(run: seq<Net>, i: nat, e: nat)
    requires IsRun(run) && i < |run| && e < |run[i].ends| && run[i].ends[e].role.Accepting? && run[i].ends[e].live
    requires run[i].ends[e].peer < |run[i].ends| && run[i].ends[run[i].ends[e].peer].role.Dialling?
    ensures var net := run[i];
            var d := net.ends[net.ends[e].peer].owner;
            d < |net.nodes| && net.nodes[d].meshKey.Some? && (net.ends[e].canMesh <==> net.nodes[d].meshKey.value != "")
  {
    RunKeeps(run, i);
    assert EndOk(run[i], e, run[i].ends[e]);
  }

  /** End `c` is that of a client which `add_new_client` has registered at node `s` under key `k`. */
  ghost predicate IsClient(net: Net, s: nat, c: nat, k: PublicKey)
  {
    c < |net.ends| && net.ends[c].live && net.ends[c].owner == s && IsOwnEnd(net.ends[c], k)
  }

  /**
    Everyone in the mesh has been, or is about to be, told of every registered client that is not itself in the
    mesh.
   */
  lemma AnnouncementsAreComplete(run: seq<Net>, i: nat, s: nat, m: PublicKey, c: nat, k: PublicKey)
    requires IsRun(run) && i < |run| && s < |run[i].nodes| && m in run[i].nodes[s].tables.mesh
        && IsClient(run[i], s, c, k)
    ensures k in run[i].nodes[s].tables.mesh || Informed(run[i], run[i].nodes[s], run[i].nodes[s].tables.mesh[m], k)
  {
    RunKeeps(run, i);
    RegisteredStaysLocal(run, i, c);
    assert NodeOk(run[i], s, run[i].nodes[s]);
  }

  /** Nothing is on its way and nothing has been lost on the connection of `e`. */
  ghost predicate Settled(net: Net, s: nat, e: nat)
    requires s < |net.nodes| && e < |net.ends| && net.ends[e].peer < |net.ends|
  {
    var x := net.ends[e];
    && net.nodes[s].pending == multiset{} && x.failed == {}
    && x.queue.taken == |x.queue.log| && x.wire.taken == |x.wire.log|
    && (net.ends[x.peer].owner < |net.nodes| ==> net.nodes[net.ends[x.peer].owner].inbox == [])
  }

  /**
    When a connection has settled, the service at its other end knows every client registered at this one, the
    mesh aside.
   */
  lemma MeshConverges(run: seq<Net>, i: nat, s: nat, m: PublicKey, c: nat, k: PublicKey)
    requires IsRun(run) && i < |run| && s < |run[i].nodes|
    requires m in run[i].nodes[s].tables.mesh && IsClient(run[i], s, c, k) && k !in run[i].nodes[s].tables.mesh
    ensures var net, e := run[i], run[i].nodes[s].tables.mesh[m];
            && e < |net.ends| && net.ends[e].peer < |net.ends|
            && (Settled(net, s, e) && !net.ends[net.ends[e].peer].role.Remote? ==>
                  var t := net.ends[net.ends[e].peer].owner;
                  t < |net.nodes| && k in net.nodes[t].tables.peers)
  {
    RunKeeps(run, i);
    AnnouncementsAreComplete(run, i, s, m, c, k);
    var net, n := run[i], run[i].nodes[s];
    var e := n.tables.mesh[m];
    assert NodeOk(net, s, n) && MemberOk(net, s, n, m);
    assert EndOk(net, e, net.ends[e]);
    if Settled(net, s, e) && !net.ends[net.ends[e].peer].role.Remote? { SettledArrives(net, s, e, k); }
  }

  lemma SettledArrives(net: Net, s: nat, e: nat, k: PublicKey)
    requires Inv(net) && s < |net.nodes| && e < |net.ends| && !net.ends[e].role.Remote? && net.ends[e].peer < |net.ends|
    requires Settled(net, s, e) && !net.ends[net.ends[e].peer].role.Remote? && Informed(net, net.nodes[s], e, k)
    ensures var t := net.ends[net.ends[e].peer].owner;
            t < |net.nodes| && k in net.nodes[t].tables.peers
  {
    var x := net.ends[e];
    var t := net.ends[x.peer].owner;
    assert EndOk(net, e, x) && EndOk(net, x.peer, net.ends[x.peer]) && NodeOk(net, t, net.nodes[t]);
    assert x.queue.log[..x.queue.taken] == x.queue.log && x.wire.log[..x.wire.taken] == x.wire.log;
    assert k in Told(x.queue.log);
    assert Arrived(net, t, x.peer, k);
  }
}
