/** What no move takes back at the ends of connections. */
module NetworkGrowth {
  import opened Routing
  import opened Network
  import opened NetworkInvariants

  ghost predicate EndsGrow(net: Net, net': Net)
  {
    && |net'.nodes| == |net.nodes| && |net.ends| <= |net'.ends|
    && forall e {:trigger net'.ends[e]} {:trigger net.ends[e]} | 0 <= e < |net.ends| ::
       EndGrows(net.ends[e], net'.ends[e])
  }

  /** The moves that leave all ends as they are. */
  lemma NodeMove(net: Net, m: Move)
    requires Enabled(net, m) && (m.Handle? || m.Join? || m.Listen?)
    ensures After(net, m).ends == net.ends && |After(net, m).nodes| == |net.nodes|
  {}

  lemma MoveGrows(net: Net, m: Move)
    requires Enabled(net, m)
    ensures EndsGrow(net, After(net, m))
  {
    if m.Handle? || m.Join? || m.Listen? { NodeMove(net, m); }
  }

  /** An end that a move adds has neither written nor been written to. */
  lemma NewEndIsFresh(net: Net, m: Move, e: nat)
    requires Enabled(net, m) && |net.ends| <= e < |After(net, m).ends|
    ensures var x := After(net, m).ends[e];
            && x == FreshEnd(x.owner, x.role, x.peer) && |net.ends| <= x.peer < |After(net, m).ends|
            && x.peer != e && (m.Dial? || m.Connect?)
  {}

  /** An entry changes only for a client that registers under the key itself. */
  ghost predicate EntryStays(net: Net, n: Node, n': Node, k: PublicKey)
    requires k in n.tables.peers
  {
    && k in n'.tables.peers
    && (n'.tables.peers[k] == n.tables.peers[k]
       || (n'.tables.peers[k] < |net.ends| && IsOwnEnd(net.ends[n'.tables.peers[k]], k)))
  }

  lemma MoveKeepsEntry(net: Net, m: Move, s: nat, k: PublicKey)
    requires Enabled(net, m) && s < |net.nodes| && k in net.nodes[s].tables.peers
    ensures s < |After(net, m).nodes| && EntryStays(net, net.nodes[s], After(net, m).nodes[s], k)
  {
    if m.Handle? { HandleKeepsEntry(net, m.s, s, k); }
  }

  lemma HandleKeepsEntry(net: Net, t: nat, s: nat, k: PublicKey)
    requires CanHandle(net, t) && s < |net.nodes| && k in net.nodes[s].tables.peers
    ensures |DoHandle(net, t).nodes| == |net.nodes| && EntryStays(net, net.nodes[s], DoHandle(net, t).nodes[s], k)
  {}

  // ---------- a registered client stays local ----------

  /** The service of a live accepting end has an entry for the end's key, which leads to a client of that key. */
  ghost predicate Local(net: Net, e: nat)
    requires e < |net.ends|
  {
    var x := net.ends[e];
    x.role.Accepting? && x.live ==> x.owner < |net.nodes| && IsLocal(net, net.nodes[x.owner], x.role.key)
  }

  lemma MoveKeepsLocal(net: Net, m: Move, e: nat)
    requires Enabled(net, m) && e < |net.ends| && Local(net, e)
    ensures e < |After(net, m).ends| && Local(After(net, m), e)
  {
    MoveGrows(net, m);
    var x, net' := net.ends[e], After(net, m);
    if x.role.Accepting? && net'.ends[e].live {
      if x.live {
        MoveKeepsEntry(net, m, x.owner, x.role.key);
        assert EndGrows(net.ends[net.nodes[x.owner].tables.peers[x.role.key]],
            net'.ends[net.nodes[x.owner].tables.peers[x.role.key]]);
      } else {
        RegisterIsLocal(net, m, e);
      }
    }
  }

  lemma RegisterIsLocal(net: Net, m: Move, e: nat)
    requires Enabled(net, m) && e < |net.ends| && !net.ends[e].live && e < |After(net, m).ends|
        && After(net, m).ends[e].live
    ensures Local(After(net, m), e)
  {
    assert m == Register(e);
  }

  lemma {:induction false} RegisteredStaysLocal(run: seq<Net>, i: nat, e: nat)
    requires IsRun(run) && i < |run| && e < |run[i].ends|
    ensures Local(run[i], e)
  {
    if i > 0 {
      assert Follows(run[i - 1], run[i - 1 + 1]);
      var m :| Enabled(run[i - 1], m) && run[i] == After(run[i - 1], m);
      if e < |run[i - 1].ends| {
        RegisteredStaysLocal(run, i - 1, e);
        MoveKeepsLocal(run[i - 1], m, e);
      } else {
        NewEndIsFresh(run[i - 1], m, e);
      }
    }
  }
}
