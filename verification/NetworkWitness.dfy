/**
  A run in which a service stops: a client sends two packets to a key that its service has learned
  of over a link that it dialled.
 */
module NetworkWitness {
  import opened Bytes
  import opened Routing
  import opened Network
  import P = Protocol

  ghost predicate Reachable(net: Net)
  {
    exists run :: IsRun(run) && run[|run| - 1] == net
  }

  lemma Go(net: Net, m: Move) returns (net': Net)
    requires Reachable(net) && Enabled(net, m)
    ensures net' == After(net, m) && Reachable(net')
  {
    var run :| IsRun(run) && run[|run| - 1] == net;
    net' := After(net, m);
    var run' := run + [net'];
    forall i | 0 <= i < |run'| - 1 ensures Follows(run'[i], run'[i + 1]) {
      if i < |run| - 1 { assert Follows(run[i], run[i + 1]); } else { assert Enabled(net, m); }
    }
    assert IsRun(run') && run'[|run'| - 1] == net';
  }

  // ---------- the end of it, from any state ----------

  /** A packet for a key whose entry names an idle dialled link is lost, and the link's write loop ends. */
  lemma FirstIsLost(net: Net, s: nat, e: nat) returns (net': Net)
    requires Reachable(net) && CanHandle(net, s) && net.nodes[s].inbox[0].body.Route?
    requires Lookup(net.nodes[s].tables, net.nodes[s].inbox[0].body.packet.target) == Some(e)
    requires e < |net.ends| && net.ends[e].role.Dialling? && !net.ends[e].closed
        && net.ends[e].queue.taken == |net.ends[e].queue.log|
    ensures Reachable(net') && |net'.nodes| == |net.nodes| && |net'.ends| == |net.ends|
    ensures net'.nodes[s] == net.nodes[s].(inbox := net.nodes[s].inbox[1..])
    ensures net'.ends[e].role == net.ends[e].role && net'.ends[e].closed
    ensures net'.lost == net.lost + [net.nodes[s].inbox[0].body.packet]
  {
    var a := Go(net, Move.Handle(s));
    var b := Go(a, Hand(s));
    net' := Go(b, Write(e));
  }

  /** The next packet for that link is lost as well, and ends the command loop. */
  lemma SecondStops(net: Net, s: nat, e: nat) returns (net': Net)
    requires Reachable(net) && CanHandle(net, s) && net.nodes[s].inbox[0].body.Route?
    requires Lookup(net.nodes[s].tables, net.nodes[s].inbox[0].body.packet.target) == Some(e)
    requires e < |net.ends| && net.ends[e].closed
    ensures Reachable(net') && s < |net'.nodes| && !net'.nodes[s].running
        && net'.lost == net.lost + [net.nodes[s].inbox[0].body.packet]
  {
    var a := Go(net, Move.Handle(s));
    net' := Go(a, Hand(s));
  }

  // ---------- the way there ----------

  const KEY := Some("mesh")

  function Two(n0: Node, n1: Node, ends: seq<End>, clock: nat): Net { Net([n0, n1], ends, clock, [], []) }

  function Up(): Node { FreshNode(KEY).(listening := true) }

  /** The accepting end of the link at service 1, and the dialling end at service 0. */
  function Accepts(a: PublicKey): End { FreshEnd(1, Accepting(a, KEY), 1).(live := true, canMesh := true) }
  function Dials(b: PublicKey, taken: nat): End
  {
    FreshEnd(0, Dialling(b), 0).(wire := Channel([Tracked(P.Watch, [], Id(1, 0))], taken))
  }

  /** Service 1 with the link registered, and then in its mesh. */
  function Knowing(a: PublicKey): Node { Up().(tables := Tables(map[a := 0], map[]), born := map[a := 2]) }
  function Meshed(a: PublicKey): Node { Knowing(a).(tables := Tables(map[a := 0], map[a := 0])) }

  lemma Dialled(a: PublicKey, b: PublicKey) returns (net: Net)
    ensures Reachable(net) && net == Two(FreshNode(KEY), Up(),
        [FreshEnd(1, Accepting(a, KEY), 1), FreshEnd(0, Dialling(b), 0)], 2)
  {
    var start := Two(FreshNode(KEY), FreshNode(KEY), [], 0);
    assert IsRun([start]) && [start][0] == start;
    net := Go(start, Listen(1));
    assert net == Two(FreshNode(KEY), Up(), [], 1);
    net := Go(net, Dial(0, 1, a, b));
  }

  lemma Registers(a: PublicKey, b: PublicKey) returns (net: Net)
    ensures Reachable(net) && net == Two(FreshNode(KEY), Knowing(a), [Accepts(a), FreshEnd(0, Dialling(b), 0)], 3)
  {
    net := Dialled(a, b);
    net := Go(net, Move.Register(0));
    assert net.nodes[1].pending == multiset{};
    assert net.nodes[1] == Knowing(a);
  }

  lemma Says(a: PublicKey, b: PublicKey) returns (net: Net)
    ensures Reachable(net) && net == Two(FreshNode(KEY), Knowing(a), [Accepts(a), Dials(b, 0)], 4)
  {
    net := Registers(a, b);
    net := Go(net, Say(1, P.Watch));
    assert net.ends[1].wire.log == [Tracked(P.Watch, [], Id(1, 0))];
    assert net.ends == [Accepts(a), Dials(b, 0)];
  }

  lemma IsHeard(a: PublicKey, b: PublicKey) returns (net: Net)
    ensures Reachable(net)
    ensures net == Two(FreshNode(KEY), Knowing(a).(inbox := [Tracked(Subscribe(a, 0), [], Id(1, 0))]),
        [Accepts(a), Dials(b, 1)], 5)
  {
    net := Says(a, b);
    net := Go(net, Read(0));
    assert net.nodes[1].inbox == [Tracked(Subscribe(a, 0), [], Id(1, 0))];
    assert net.ends == [Accepts(a), Dials(b, 1)];
  }

  lemma Subscribed(a: PublicKey, b: PublicKey) returns (net: Net)
    ensures Reachable(net) && net == Two(FreshNode(KEY), Meshed(a), [Accepts(a), Dials(b, 1)], 6)
  {
    net := IsHeard(a, b);
    net := Go(net, Move.Handle(1));
    assert net.nodes[1].pending == multiset{};
    assert net.nodes[1] == Meshed(a);
  }

  /** A client `x` connects to service 1, which is to announce it on the link. */
  function Hosting(a: PublicKey, x: PublicKey): Node
  {
    Up().(tables := Tables(map[a := 0, x := 2], map[a := 0]), pending := multiset{(0, x)}, born := map[a := 2, x := 7])
  }

  function Hosted(x: PublicKey): seq<End>
  {
    [FreshEnd(1, Accepting(x, None), 3).(live := true), FreshEnd(1, Remote(x), 2)]
  }

  lemma Arrives(a: PublicKey, b: PublicKey, x: PublicKey) returns (net: Net)
    ensures Reachable(net)
    ensures net == Two(FreshNode(KEY), Meshed(a),
        [Accepts(a), Dials(b, 1), FreshEnd(1, Accepting(x, None), 3), FreshEnd(1, Remote(x), 2)], 7)
  {
    net := Subscribed(a, b);
    net := Go(net, Connect(1, x, None));
  }

  lemma OneNotice(a: PublicKey, x: PublicKey)
    ensures NoticesOf(Meshed(a).tables, x) == {(0, x)}
  {
    assert a in Meshed(a).tables.mesh;
  }

  lemma Hosts(a: PublicKey, b: PublicKey, x: PublicKey) returns (net: Net)
    requires x != a
    ensures Reachable(net) && net == Two(FreshNode(KEY), Hosting(a, x), [Accepts(a), Dials(b, 1)] + Hosted(x), 8)
  {
    net := Arrives(a, b, x);
    net := Go(net, Move.Register(2));
    OneNotice(a, x);
    assert net.nodes[1] == Hosting(a, x);
    assert net.ends == [Accepts(a), Dials(b, 1)] + Hosted(x);
  }

  /** Service 0 has heard of `x`, and its entry names the link that it dialled. */
  function Aware(x: PublicKey): Node { FreshNode(KEY).(tables := Tables(map[x := 1], map[]), born := map[x := 11]) }

  function Announced(a: PublicKey, x: PublicKey, written: nat, read: nat): End
  {
    var wire := if written == 0 then [] else [Tracked(P.Announce(x), [], NO_ID)];
    Accepts(a).(queue := Channel([Tracked(Notify(x), [], NO_ID)], written), wire := Channel(wire, read))
  }

  lemma Informs(a: PublicKey, b: PublicKey, x: PublicKey) returns (net: Net)
    requires x != a
    ensures Reachable(net)
    ensures net == Two(FreshNode(KEY), Hosting(a, x).(pending := multiset{}),
        [Announced(a, x, 0, 0), Dials(b, 1)] + Hosted(x), 9)
  {
    net := Hosts(a, b, x);
    net := Go(net, Inform(1, (0, x)));
    assert net.nodes[1].pending == multiset{};
    assert net.ends[0].queue.log == [Tracked(Notify(x), [], NO_ID)];
    assert net.ends == [Announced(a, x, 0, 0), Dials(b, 1)] + Hosted(x);
  }

  lemma Announces(a: PublicKey, b: PublicKey, x: PublicKey) returns (net: Net)
    requires x != a
    ensures Reachable(net)
    ensures net == Two(FreshNode(KEY), Hosting(a, x).(pending := multiset{}),
        [Announced(a, x, 1, 0), Dials(b, 1)] + Hosted(x), 10)
  {
    net := Informs(a, b, x);
    net := Go(net, Write(0));
    assert net.ends[0].wire.log == [Tracked(P.Announce(x), [], NO_ID)];
    assert net.ends == [Announced(a, x, 1, 0), Dials(b, 1)] + Hosted(x);
  }

  lemma Listens(a: PublicKey, b: PublicKey, x: PublicKey) returns (net: Net)
    requires x != a
    ensures Reachable(net) && |net.nodes| == 2 && |net.ends| == 4 && net.ends[1] == Dials(b, 1) && net.lost == []
        && net.clock == 11
    ensures net.nodes[0] == FreshNode(KEY).(inbox := [Tracked(PeerPresent(x, 1), [], NO_ID)])
  {
    net := Announces(a, b, x);
    net := Go(net, Read(1));
    assert net.nodes[0].inbox == [Tracked(PeerPresent(x, 1), [], NO_ID)];
  }

  lemma Hears(a: PublicKey, b: PublicKey, x: PublicKey) returns (net: Net)
    requires x != a
    ensures Reachable(net) && |net.nodes| == 2 && |net.ends| == 4 && net.ends[1] == Dials(b, 1) && net.lost == []
        && net.clock == 12
    ensures net.nodes[0] == Aware(x)
  {
    net := Listens(a, b, x);
    net := Go(net, Move.Handle(0));
    assert net.nodes[0].inbox == [];
  }

  // ---------- two packets ----------

  /** A client `y` connects to service 0. */
  lemma Comes(a: PublicKey, b: PublicKey, x: PublicKey, y: PublicKey) returns (net: Net)
    requires x != a && x != y
    ensures Reachable(net) && |net.nodes| == 2 && |net.ends| == 6 && net.ends[1] == Dials(b, 1) && net.lost == []
        && net.clock == 14
    ensures net.nodes[0] == Aware(x).(listening := true)
    ensures net.ends[4] == FreshEnd(0, Accepting(y, None), 5) && net.ends[5] == FreshEnd(0, Remote(y), 4)
  {
    net := Hears(a, b, x);
    net := Go(net, Listen(0));
    net := Go(net, Connect(0, y, None));
  }

  lemma Connects(a: PublicKey, b: PublicKey, x: PublicKey, y: PublicKey) returns (net: Net)
    requires x != a && x != y
    ensures Reachable(net) && |net.nodes| == 2 && |net.ends| == 6 && net.ends[1] == Dials(b, 1) && net.lost == []
    ensures net.nodes[0].tables == Tables(map[x := 1, y := 4], map[])
    ensures net.nodes[0].running && net.nodes[0].sending.None? && net.nodes[0].inbox == []
    ensures net.ends[4] == FreshEnd(0, Accepting(y, None), 5).(live := true) && net.ends[5] == FreshEnd(0, Remote(y), 4)
  {
    net := Comes(a, b, x, y);
    net := Go(net, Move.Register(4));
  }

  lemma Sends(a: PublicKey, b: PublicKey, x: PublicKey, y: PublicKey, p: seq<byte>, q: seq<byte>) returns (net: Net)
    requires x != a && x != y
    ensures Reachable(net) && |net.nodes| == 2 && |net.ends| == 6 && net.ends[1] == Dials(b, 1) && net.lost == []
    ensures var n := net.nodes[0];
            && n.running && n.sending.None? && n.tables == Tables(map[x := 1, y := 4], map[])
            && n.inbox == [Tracked(Route(Packet(y, x, p)), [], Id(5, 0)), Tracked(Route(Packet(y, x, q)), [], Id(5, 1))]
  {
    net := Connects(a, b, x, y);
    net := Go(net, Say(5, P.Send(x, p)));
    net := Go(net, Say(5, P.Send(x, q)));
    var log := [Tracked(P.Send(x, p), [], Id(5, 0)), Tracked(P.Send(x, q), [], Id(5, 1))];
    assert net.ends[5].wire == Channel(log, 0);
    net := Go(net, Read(4));
    assert net.ends[5].wire == Channel(log, 1);
    net := Go(net, Read(4));
  }

  /**
    The witness: whoever the keys and whatever the payloads, there is a run in which service 0 reads
    two packets from its client, loses both, and its command loop has ended.
   */
  lemma ServiceCanStop(a: PublicKey, b: PublicKey, x: PublicKey, y: PublicKey, p: seq<byte>, q: seq<byte>)
    returns (net: Net)
    requires x != a && x != y
    ensures Reachable(net) && |net.nodes| > 0 && !net.nodes[0].running && net.lost == [Packet(y, x, p), Packet(y, x, q)]
  {
    net := Sends(a, b, x, y, p, q);
    net := FirstIsLost(net, 0, 1);
    net := SecondStops(net, 0, 1);
  }
}
