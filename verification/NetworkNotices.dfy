/** Who is in the mesh of a node and what it is told, in every run: exactly what the node's history calls for. */
module NetworkNotices {
  import opened Bytes
  import opened Routing
  import opened Notices
  import opened Network
  import opened NetworkInvariants
  import opened NetworkMoves
  import opened NetworkGrowth
  import opened NetworkHistory

  // ---------- the mesh ----------

  /** In every run, the mesh entry of a key at a node is its latest dialled link or subscription there. */
  lemma NodeMeshIsHistory(run: seq<Net>, moves: seq<Move>, i: nat, s: nat, k: PublicKey)
    requires Makes(moves, run) && i < |run| && s < |run[0].nodes|
    ensures s < |run[i].nodes|
    ensures MeshLookup(run[i].nodes[s].tables, k) == LastEnlisted(ServiceAt(run, moves, i, s).log, k)
  {
    NodeIsService(run, moves, i, s);
    MeshIsHistory(StepsAt(run, moves, i, s), k);
  }

  /** No two mesh entries share a sink, so one notice for each entry is one for each sink. */
  lemma MeshSinksDiffer(run: seq<Net>, i: nat, s: nat, m: PublicKey, m': PublicKey)
    requires IsRun(run) && i < |run| && s < |run[i].nodes|
    requires m in run[i].nodes[s].tables.mesh && m' in run[i].nodes[s].tables.mesh && m != m'
    ensures run[i].nodes[s].tables.mesh[m] != run[i].nodes[s].tables.mesh[m']
  {
    RunKeeps(run, i);
    var net, n := run[i], run[i].nodes[s];
    assert NodeOk(net, s, n) && MemberOk(net, s, n, m) && MemberOk(net, s, n, m');
  }

  // ---------- notices ----------

  /** How often an end's write loop has been handed the key. */
  function ToldOf(cs: seq<WriteCommand>, k: PublicKey): nat
  {
    if cs == [] then 0 else ToldOf(cs[..|cs| - 1], k) + if cs[|cs| - 1] == Notify(k) then 1 else 0
  }

  lemma ToldOfAppend(cs: seq<WriteCommand>, c: WriteCommand, k: PublicKey)
    ensures ToldOf(cs + [c], k) == ToldOf(cs, k) + if c == Notify(k) then 1 else 0
  {
    assert (cs + [c])[..|cs|] == cs;
  }

  lemma {:induction false} ToldIsToldOf(sends: seq<(Sink, WriteCommand)>, n: Notice)
    ensures TimesTold(sends, n) == ToldOf(SendsTo(sends, n.0), n.1)
  {
    if sends != [] {
      var before, c := sends[..|sends| - 1], sends[|sends| - 1];
      ToldIsToldOf(before, n);
      if c.0 == n.0 {
        ToldOfAppend(SendsTo(before, n.0), c.1, n.1);
      } else {
        assert SendsTo(before, n.0) + [] == SendsTo(before, n.0);
      }
    }
  }

  /**
    In every run, as long as the write loop of an end has not ended, it has been handed a key, or is
    about to be, exactly as often as the history of its node has called for that.
   */
  lemma NodeNoticesAreHistory(run: seq<Net>, moves: seq<Move>, i: nat, s: nat, e: nat, k: PublicKey)
    requires Makes(moves, run) && i < |run| && s < |run[0].nodes| && e < |run[i].ends| && Belongs(run[i].ends[e], s)
    ensures s < |run[i].nodes|
    ensures var told := run[i].nodes[s].pending[(e, k)] + ToldOf(Commands(run[i].ends[e].queue.log), k);
            var called := CalledFor(ServiceAt(run, moves, i, s).log, (e, k));
            told <= called && (!run[i].ends[e].closed ==> told == called)
  {
    var v := ServiceAt(run, moves, i, s);
    NodeIsService(run, moves, i, s);
    assert EndAgrees(v, e, run[i].ends[e]);
    ToldIsToldOf(v.sends, (e, k));
    NoticesAreHistory(StepsAt(run, moves, i, s), (e, k));
  }

  /** A notice is refused only by a write loop that has ended. */
  lemma MoveRefuses(net: Net, m: Move, e: nat)
    requires Enabled(net, m) && e < |net.ends| && (net.ends[e].failed != {} ==> net.ends[e].closed)
    ensures e < |After(net, m).ends| && (After(net, m).ends[e].failed != {} ==> After(net, m).ends[e].closed)
  {
    if m.Handle? || m.Join? || m.Listen? { NodeMove(net, m); }
  }

  lemma {:induction false} RefusedOnlyIfClosed(run: seq<Net>, i: nat, e: nat)
    requires IsRun(run) && i < |run| && e < |run[i].ends|
    ensures run[i].ends[e].failed != {} ==> run[i].ends[e].closed
  {
    if i > 0 {
      var m := MoveAt(run, i - 1);
      if e < |run[i - 1].ends| {
        RefusedOnlyIfClosed(run, i - 1, e);
        MoveRefuses(run[i - 1], m, e);
      } else {
        NewEndIsFresh(run[i - 1], m, e);
      }
    }
  }

  // ---------- single moves ----------

  /** A subscription is taken up: the subscriber is in the mesh, and is told of the known keys outside it. */
  lemma HandleFloods(net: Net, s: nat, n: Notice)
    requires CanHandle(net, s) && net.nodes[s].inbox[0].body.Subscribe?
    ensures var t, t', c := net.nodes[s], After(net, Move.Handle(s)).nodes[s], net.nodes[s].inbox[0].body;
            && MeshLookup(t'.tables, c.key) == Some(c.sink)
            && t'.pending[n] == t.pending[n] +
               if n.0 == c.sink && n.1 in t.tables.peers && n.1 != c.key && n.1 !in t.tables.mesh then 1 else 0
  {
    FloodExcludesSubscriber(net.nodes[s].tables, net.nodes[s].inbox[0].body.key, net.nodes[s].inbox[0].body.sink, n);
  }

  /** Registering a client: its key leads to it, and every sink in the mesh is told of it once. */
  lemma RegisterNotifies(net: Net, e: nat, n: Notice)
    requires CanRegister(net, e)
    ensures var s, key := net.ends[e].owner, net.ends[e].role.key;
            var t, t' := net.nodes[s], After(net, Move.Register(e)).nodes[s];
            && Lookup(t'.tables, key) == Some(e)
            && t'.pending[n] == t.pending[n] + if n.1 == key && InMesh(t.tables, n.0) then 1 else 0
  {}
}
