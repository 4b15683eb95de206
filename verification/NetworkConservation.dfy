/**
  Packets are conserved: every move keeps the balance between what the clients' connections have
  taken in, what nodes and ends hold, and what was dropped or lost, counted with multiplicity.
 */
module NetworkConservation {
  import opened Routing
  import opened Links
  import opened Network
  import opened NetworkEffects
  import opened NetworkInvariants
  import opened NetworkMoves
  import P = Protocol

  // ---------- counting ----------

  type Count = multiset<Packet>

  /** The packets that `f` finds in the elements of a sequence. */
  ghost function Collect<T>(f: T -> Count, s: seq<T>): Count
  {
    if s == [] then multiset{} else f(s[0]) + Collect(f, s[1..])
  }

  lemma {:induction false} CollectAppend<T>(f: T -> Count, a: seq<T>, b: seq<T>)
    ensures Collect(f, a + b) == Collect(f, a) + Collect(f, b)
  {
    if a == [] {
      assert a + b == b;
    } else {
      assert (a + b)[1..] == a[1..] + b;
      CollectAppend(f, a[1..], b);
    }
  }

  lemma CollectOne<T>(f: T -> Count, x: T)
    ensures Collect(f, [x]) == f(x)
  {
    assert [x][1..] == [];
  }

  lemma CollectUpdate<T>(f: T -> Count, s: seq<T>, i: nat, x: T)
    requires i < |s|
    ensures Collect(f, s[i := x]) + f(s[i]) == Collect(f, s) + f(x)
  {
    CollectAt(f, s, i);
    CollectAt(f, s[i := x], i);
    assert s[i := x][..i] == s[..i] && s[i := x][i + 1..] == s[i + 1..];
  }

  lemma CollectAt<T>(f: T -> Count, s: seq<T>, i: nat)
    requires i < |s|
    ensures Collect(f, s) == Collect(f, s[..i]) + f(s[i]) + Collect(f, s[i + 1..])
  {
    assert s == s[..i + 1] + s[i + 1..];
    CollectAppend(f, s[..i + 1], s[i + 1..]);
    CollectNext(f, s, i);
  }

  // ---------- where packets are ----------

  function Commanded(c: Tracked<ServiceCommand>): Count
  {
    if c.body.Route? then multiset{c.body.packet} else multiset{}
  }

  function Waiting(c: Tracked<WriteCommand>): Count { if c.body.Transmit? then multiset{c.body.packet} else multiset{} }
  function Passing(f: Tracked<Frame>): Count
  {
    if f.body.Forward? then multiset{Packet(f.body.source, f.body.target, f.body.payload)} else multiset{}
  }
  function Dropped(d: Tracked<Packet>): Count { multiset{d.body} }
  function Lost(p: Packet): Count { multiset{p} }

  /** Written as a `RecvPacket` to the connection of its target: a command for the key of its own end. */
  function Given(role: Role, c: Tracked<WriteCommand>): Count
  {
    if c.body.Transmit? && role.Accepting? && c.body.packet.target == role.key
        && P.Recv(role.key, c.body.packet.payload).Fits()
    then multiset{c.body.packet} else multiset{}
  }

  function Uttered(key: PublicKey, f: Tracked<Frame>): Count
  {
    if f.body.Send? then multiset{Packet(key, f.body.target, f.body.payload)} else multiset{}
  }

  ghost function NodeHolds(n: Node): Count
  {
    Collect(Commanded, n.inbox) + if n.sending.Some? then multiset{n.sending.value.1.body} else multiset{}
  }

  /** Waiting in the queue, written to the connection of its target, or forwarded and not yet read. */
  ghost function EndHolds(x: End): Count
  {
    if x.role.Remote? || x.queue.taken > |x.queue.log| || x.wire.taken > |x.wire.log| then multiset{}
    else
      Collect(Waiting, x.queue.log[x.queue.taken..]) + Collect(c => Given(x.role, c), x.queue.log[..x.queue.taken])
      + Collect(Passing, x.wire.log[x.wire.taken..])
  }

  /** The packets that have been read from a client. */
  ghost function EndEntered(x: End): Count
  {
    if x.role.Remote? && x.wire.taken <= |x.wire.log|
    then Collect(f => Uttered(x.role.key, f), x.wire.log[..x.wire.taken]) else multiset{}
  }

  ghost function Gone(net: Net): Count
  {
    Collect(Dropped, net.dropped) + Collect(Lost, net.lost)
  }

  // ---------- how the counts change ----------

  /** A change that takes `out` from element `i` of a sequence and adds `into` to it does so to the whole. */
  lemma CollectChange<T>(f: T -> Count, s: seq<T>, i: nat, x: T, into: Count, out: Count)
    requires i < |s| && f(x) + out == f(s[i]) + into
    ensures Collect(f, s[i := x]) + out == Collect(f, s) + into
  {
    CollectUpdate(f, s, i, x);
    Shift(Collect(f, s[i := x]), Collect(f, s), f(x), f(s[i]), into, out);
  }

  lemma Shift(A': Count, A: Count, a': Count, a: Count, into: Count, out: Count)
    requires A' + a == A + a' && a' + out == a + into
    ensures A' + out == A + into
  {
    forall p ensures (A' + out)[p] == (A + into)[p] {
      assert (A' + a)[p] == (A + a')[p] && (a' + out)[p] == (a + into)[p];
    }
  }

  lemma CollectSnoc<T>(f: T -> Count, s: seq<T>, x: T)
    ensures Collect(f, s + [x]) == Collect(f, s) + f(x)
  {
    CollectAppend(f, s, [x]);
    CollectOne(f, x);
  }

  lemma CollectFirst<T>(f: T -> Count, s: seq<T>, i: nat)
    requires i < |s|
    ensures Collect(f, s[i..]) == f(s[i]) + Collect(f, s[i + 1..])
  {
    assert s[i..] == [s[i]] + s[i + 1..];
    CollectAppend(f, [s[i]], s[i + 1..]);
    CollectOne(f, s[i]);
  }

  lemma CollectNext<T>(f: T -> Count, s: seq<T>, i: nat)
    requires i < |s|
    ensures Collect(f, s[..i + 1]) == Collect(f, s[..i]) + f(s[i])
  {
    assert s[..i + 1] == s[..i] + [s[i]];
    CollectSnoc(f, s[..i], s[i]);
  }

  ghost predicate InOrder(x: End) { x.queue.taken <= |x.queue.log| && x.wire.taken <= |x.wire.log| }

  lemma QueuePut(x: End, x': End, c: Tracked<WriteCommand>)
    requires !x.role.Remote? && InOrder(x) && x' == x.(queue := Put(x.queue, c))
    ensures EndHolds(x') == EndHolds(x) + Waiting(c)
  {
    var i := x.queue.taken;
    assert x'.queue.log[..i] == x.queue.log[..i] && x'.queue.log[i..] == x.queue.log[i..] + [c];
    CollectSnoc(Waiting, x.queue.log[i..], c);
  }

  lemma QueueTaken(x: End, x': End)
    requires !x.role.Remote? && InOrder(x) && Ready(x.queue) && x' == x.(queue := x.queue.(taken := x.queue.taken + 1))
    ensures EndHolds(x') + Waiting(Next(x.queue)) == EndHolds(x) + Given(x.role, Next(x.queue))
  {
    var i, log, given := x.queue.taken, x.queue.log, c => Given(x.role, c);
    CollectFirst(Waiting, log, i);
    CollectNext(given, log, i);
    Passed(Collect(Waiting, log[i..]), Collect(given, log[..i]), Collect(Passing, x.wire.log[x.wire.taken..]),
           Collect(Waiting, log[i + 1..]), Collect(given, log[..i + 1]), Waiting(log[i]), Given(x.role, log[i]));
  }

  lemma Passed(W: Count, G: Count, P: Count, W': Count, G': Count, w: Count, g: Count)
    requires W == w + W' && G' == G + g
    ensures W' + G' + P + w == W + G + P + g
  {}

  lemma WirePut(x: End, x': End, f: Tracked<Frame>)
    requires !x.role.Remote? && InOrder(x) && x' == x.(wire := Put(x.wire, f))
    ensures EndHolds(x') == EndHolds(x) + Passing(f)
  {
    var i := x.wire.taken;
    assert x'.wire.log[i..] == x.wire.log[i..] + [f];
    CollectSnoc(Passing, x.wire.log[i..], f);
  }

  /** What a client says is counted when it is read. */
  lemma ClientPut(x: End, x': End, f: Tracked<Frame>)
    requires x.role.Remote? && InOrder(x) && x' == x.(wire := Put(x.wire, f))
    ensures EndEntered(x') == EndEntered(x)
  {
    assert x'.wire.log[..x.wire.taken] == x.wire.log[..x.wire.taken];
  }

  lemma ClientTaken(y: End, y': End)
    requires y.role.Remote? && InOrder(y) && Ready(y.wire) && y' == y.(wire := y.wire.(taken := y.wire.taken + 1))
    ensures EndEntered(y') == EndEntered(y) + Uttered(y.role.key, Next(y.wire))
  {
    CollectNext(f => Uttered(y.role.key, f), y.wire.log, y.wire.taken);
  }

  lemma WireTaken(y: End, y': End)
    requires !y.role.Remote? && InOrder(y) && Ready(y.wire) && y' == y.(wire := y.wire.(taken := y.wire.taken + 1))
    ensures EndHolds(y) == EndHolds(y') + Passing(Next(y.wire))
  {
    CollectFirst(Passing, y.wire.log, y.wire.taken);
    var waits := Collect(Waiting, y.queue.log[y.queue.taken..]);
    var given := Collect(c => Given(y.role, c), y.queue.log[..y.queue.taken]);
    Reorder(waits + given, Passing(Next(y.wire)), Collect(Passing, y.wire.log[y.wire.taken + 1..]));
  }

  lemma Reorder(a: Count, b: Count, c: Count)
    ensures a + (b + c) == a + c + b
  {}

  // ---------- transfers ----------

  /** What has entered is what the nodes hold, what the ends hold, and what is gone. */
  ghost predicate Balanced<N, X>(entered: X -> Count, holds: N -> Count, keeps: X -> Count, nodes: seq<N>, ends: seq<X>,
                                 gone: Count)
  {
    Collect(entered, ends) == Collect(holds, nodes) + Collect(keeps, ends) + gone
  }

  lemma Total(E: Count, N: Count, X: Count, G: Count, E': Count, N': Count, X': Count, G': Count, i: Count, a: Count,
              a': Count, b: Count, b': Count, g: Count)
    requires E == N + X + G && E' == E + i && N' + a == N + a' && X' + b == X + b' && G' == G + g
    requires i + a + b == a' + b' + g
    ensures E' == N' + X' + G'
  {
    forall p ensures E'[p] == (N' + X' + G')[p] {
      assert (N' + a)[p] == (N + a')[p] && (X' + b)[p] == (X + b')[p] && (i + a + b)[p] == (a' + b' + g)[p];
    }
  }

  /**
    A node and an end change: `i` enters at the end, the node gives `a` and takes `a'`, the end
    gives `b` and takes `b'`, and `g` is gone. If that adds up, the balance is kept.
   */
  lemma Transfer<N, X>(entered: X -> Count, holds: N -> Count, keeps: X -> Count, nodes: seq<N>, ends: seq<X>,
                       gone: Count, s: nat, n: N, e: nat, x: X, gone': Count,
                       i: Count, a: Count, a': Count, b: Count, b': Count, g: Count)
    requires Balanced(entered, holds, keeps, nodes, ends, gone) && s < |nodes| && e < |ends|
    requires entered(x) == entered(ends[e]) + i && holds(n) + a == holds(nodes[s]) + a'
    requires keeps(x) + b == keeps(ends[e]) + b' && gone' == gone + g
    requires i + a + b == a' + b' + g
    ensures Balanced(entered, holds, keeps, nodes[s := n], ends[e := x], gone')
  {
    CollectChange(entered, ends, e, x, i, multiset{});
    CollectChange(holds, nodes, s, n, a', a);
    CollectChange(keeps, ends, e, x, b', b);
    Total(Collect(entered, ends), Collect(holds, nodes), Collect(keeps, ends), gone,
          Collect(entered, ends[e := x]), Collect(holds, nodes[s := n]), Collect(keeps, ends[e := x]), gone',
          i, a, a', b, b', g);
  }

  lemma TransferOut<N, X>(entered: X -> Count, holds: N -> Count, keeps: X -> Count, nodes: seq<N>, ends: seq<X>,
                          gone: Count, s: nat, n: N, gone': Count, g: Count)
    requires Balanced(entered, holds, keeps, nodes, ends, gone) && s < |nodes|
    requires holds(n) + g == holds(nodes[s]) && gone' == gone + g
    ensures Balanced(entered, holds, keeps, nodes[s := n], ends, gone')
  {
    CollectChange(holds, nodes, s, n, multiset{}, g);
    var E, X := Collect(entered, ends), Collect(keeps, ends);
    Total(E, Collect(holds, nodes), X, gone, E, Collect(holds, nodes[s := n]), X, gone',
          multiset{}, g, multiset{}, multiset{}, multiset{}, g);
  }

  lemma Extend<N, X>(entered: X -> Count, holds: N -> Count, keeps: X -> Count, nodes: seq<N>, ends: seq<X>,
                     gone: Count, x: X, y: X)
    requires Balanced(entered, holds, keeps, nodes, ends, gone)
    requires entered(x) == entered(y) == keeps(x) == keeps(y) == multiset{}
    ensures Balanced(entered, holds, keeps, nodes, ends + [x, y], gone)
  {
    assert ends + [x, y] == (ends + [x]) + [y];
    CollectSnoc(entered, ends, x);
    CollectSnoc(entered, ends + [x], y);
    CollectSnoc(keeps, ends, x);
    CollectSnoc(keeps, ends + [x], y);
  }

  ghost predicate Conserved(net: Net)
  {
    Balanced(EndEntered, NodeHolds, EndHolds, net.nodes, net.ends, Gone(net))
  }

  /** `Transfer` for networks. */
  lemma Moved(net: Net, net': Net, s: nat, e: nat, i: Count, a: Count, a': Count, b: Count, b': Count, g: Count)
    requires Conserved(net) && s < |net.nodes| == |net'.nodes| && e < |net.ends| == |net'.ends|
    requires net'.nodes == net.nodes[s := net'.nodes[s]] && net'.ends == net.ends[e := net'.ends[e]]
    requires EndEntered(net'.ends[e]) == EndEntered(net.ends[e]) + i
    requires NodeHolds(net'.nodes[s]) + a == NodeHolds(net.nodes[s]) + a'
    requires EndHolds(net'.ends[e]) + b == EndHolds(net.ends[e]) + b'
    requires Gone(net') == Gone(net) + g
    requires i + a + b == a' + b' + g
    ensures Conserved(net')
  {
    Transfer(EndEntered, NodeHolds, EndHolds, net.nodes, net.ends, Gone(net), s, net'.nodes[s], e, net'.ends[e],
        Gone(net'), i, a, a', b, b', g);
  }

  /** Nothing moves. */
  lemma Still(net: Net, net': Net, s: nat, e: nat)
    requires Conserved(net) && s < |net.nodes| == |net'.nodes| && e < |net.ends| == |net'.ends|
    requires net'.nodes == net.nodes[s := net'.nodes[s]] && net'.ends == net.ends[e := net'.ends[e]]
    requires EndEntered(net'.ends[e]) == EndEntered(net.ends[e]) && EndHolds(net'.ends[e]) == EndHolds(net.ends[e])
    requires NodeHolds(net'.nodes[s]) == NodeHolds(net.nodes[s]) && Gone(net') == Gone(net)
    ensures Conserved(net')
  {
    var z: Count := multiset{};
    Transfer(EndEntered, NodeHolds, EndHolds, net.nodes, net.ends, Gone(net), s, net'.nodes[s], e, net'.ends[e],
        Gone(net'), z, z, z, z, z, z);
  }

  lemma NodeOnly(net: Net, net': Net, s: nat, g: Count)
    requires Conserved(net) && s < |net.nodes| == |net'.nodes|
    requires net'.nodes == net.nodes[s := net'.nodes[s]] && net'.ends == net.ends
    requires NodeHolds(net'.nodes[s]) + g == NodeHolds(net.nodes[s]) && Gone(net') == Gone(net) + g
    ensures Conserved(net')
  {
    TransferOut(EndEntered, NodeHolds, EndHolds, net.nodes, net.ends, Gone(net), s, net'.nodes[s], Gone(net'), g);
  }

  // ---------- moves ----------

  lemma LinkConserves(net: Net, near: End, far: End)
    requires Conserved(net) && near.queue == far.queue == SILENT_QUEUE && near.wire == far.wire == SILENT_WIRE
    ensures Conserved(Tick(AddLink(net, near, far)))
  {
    var x, y := near.(peer := |net.ends| + 1), far.(peer := |net.ends|);
    FreshHoldsNothing(x);
    FreshHoldsNothing(y);
    Extend(EndEntered, NodeHolds, EndHolds, net.nodes, net.ends, Gone(net), x, y);
  }

  lemma FreshHoldsNothing(x: End)
    requires x.queue == SILENT_QUEUE && x.wire == SILENT_WIRE
    ensures EndHolds(x) == EndEntered(x) == multiset{}
  {}

  lemma RegisterConserves(net: Net, e: nat)
    requires Conserved(net) && CanRegister(net, e)
    ensures Conserved(Tick(DoRegister(net, e)))
  {
    Still(net, Tick(DoRegister(net, e)), net.ends[e].owner, e);
  }

  lemma JoinConserves(net: Net, e: nat)
    requires Conserved(net) && CanJoin(net, e)
    ensures Conserved(Tick(DoJoin(net, e)))
  {
    NodeOnly(net, Tick(DoJoin(net, e)), net.ends[e].owner, multiset{});
  }

  lemma ListenConserves(net: Net, s: nat)
    requires Conserved(net) && s < |net.nodes|
    ensures Conserved(Tick(DoListen(net, s)))
  {
    NodeOnly(net, Tick(DoListen(net, s)), s, multiset{});
  }

  lemma CloseConserves(net: Net, e: nat)
    requires Conserved(net) && e < |net.ends| && net.ends[e].owner < |net.nodes|
    ensures Conserved(Tick(DoClose(net, e)))
  {
    Still(net, Tick(DoClose(net, e)), net.ends[e].owner, e);
  }

  lemma SayConserves(net: Net, e: nat, f: Frame)
    requires Conserved(net) && CanSay(net, e, f) && InOrder(net.ends[e]) && net.ends[e].owner < |net.nodes|
    ensures Conserved(Tick(DoSay(net, e, f)))
  {
    var net' := Tick(DoSay(net, e, f));
    var x, x' := net.ends[e], net'.ends[e];
    var item := Tracked(f, [], Id(e, |x.wire.log|));
    if x.role.Remote? { ClientPut(x, x', item); } else { WirePut(x, x', item); }
    Still(net, net', x.owner, e);
  }

  lemma InformConserves(net: Net, s: nat, notice: Notice)
    requires Conserved(net) && CanInform(net, s, notice) && Owned(net, notice.0, s) && InOrder(net.ends[notice.0])
    ensures Conserved(Tick(DoInform(net, s, notice)))
  {
    var net', e := Tick(DoInform(net, s, notice)), notice.0;
    InformHolds(net.ends[e], net'.ends[e], notice.1);
    Still(net, net', s, e);
  }

  lemma InformHolds(x: End, x': End, k: PublicKey)
    requires !x.role.Remote? && InOrder(x)
    requires x' == if x.closed then x.(failed := x.failed + {k})
        else x.(queue := Put(x.queue, Tracked(Notify(k), [], NO_ID)))
    ensures EndHolds(x') == EndHolds(x) && EndEntered(x') == EndEntered(x)
  {
    if !x.closed { QueuePut(x, x', Tracked(Notify(k), [], NO_ID)); }
  }

  lemma HandConserves(net: Net, s: nat)
    requires Conserved(net) && CanHand(net, s) && Owned(net, net.nodes[s].sending.value.0, s)
        && InOrder(net.ends[net.nodes[s].sending.value.0])
    ensures Conserved(Tick(DoHand(net, s)))
  {
    var net', e, item := Tick(DoHand(net, s)), net.nodes[s].sending.value.0, net.nodes[s].sending.value.1;
    if net.ends[e].closed {
      CollectSnoc(Lost, net.lost, item.body);
      NodeOnly(net, net', s, multiset{item.body});
    } else {
      QueuePut(net.ends[e], net'.ends[e], Tracked(Transmit(item.body), item.hops, item.id));
      Moved(net, net', s, e, multiset{}, multiset{item.body}, multiset{}, multiset{}, multiset{item.body}, multiset{});
    }
  }

  /** The packet of the first command leaves the inbox. */
  lemma InboxTaken(n: Node)
    requires n.inbox != [] && n.sending.None?
    ensures NodeHolds(n.(inbox := n.inbox[1..])) + Commanded(n.inbox[0]) == NodeHolds(n)
  {
    assert n.inbox[0..] == n.inbox;
    CollectFirst(Commanded, n.inbox, 0);
  }

  lemma HandleHolds(n: Node, n': Node, s: nat)
    requires n.inbox != [] && n.sending.None? && n'.inbox == n.inbox[1..] && n'.sending == LookedUp(n, s)
    ensures NodeHolds(n') + Collect(Dropped, Unknown(n)) == NodeHolds(n)
  {
    InboxTaken(n);
    if Unknown(n) != [] { CollectOne(Dropped, Unknown(n)[0]); }
  }

  lemma HandleConserves(net: Net, s: nat)
    requires Conserved(net) && CanHandle(net, s)
    ensures Conserved(Tick(DoHandle(net, s)))
  {
    HandleHasEffect(net, s);
    Handled(net, Tick(DoHandle(net, s)), s);
  }

  lemma Handled(net: Net, net': Net, s: nat)
    requires Conserved(net) && CanHandle(net, s) && HandleEffect(net, net', s)
    ensures Conserved(net')
  {
    HandleHolds(net.nodes[s], net'.nodes[s], s);
    assert net'.nodes == net.nodes[s := net'.nodes[s]];
    NodeDropped(net, net', s, Unknown(net.nodes[s]));
  }

  lemma NodeDropped(net: Net, net': Net, s: nat, dropped: seq<Tracked<Packet>>)
    requires Conserved(net) && s < |net.nodes| == |net'.nodes| && net'.nodes == net.nodes[s := net'.nodes[s]]
    requires net'.ends == net.ends && net'.lost == net.lost && net'.dropped == net.dropped + dropped
    requires NodeHolds(net'.nodes[s]) + Collect(Dropped, dropped) == NodeHolds(net.nodes[s])
    ensures Conserved(net')
  {
    CollectAppend(Dropped, net.dropped, dropped);
    NodeOnly(net, net', s, Collect(Dropped, dropped));
  }

  /** What reading takes from the wire of `y`. */
  ghost function Carried(y: End): Count
    requires Ready(y.wire)
  {
    if y.role.Remote? then Uttered(y.role.key, Next(y.wire)) else Passing(Next(y.wire))
  }

  /** What a frame carries off the wire is what its command carries into the inbox. */
  lemma ReadCarries(net: Net, e: nat)
    requires CanRead(net, e) && EndShape(net, e, net.ends[e])
    requires FrameOk(net, net.ends[e].peer, net.ends[net.ends[e].peer], Next(net.ends[net.ends[e].peer].wire))
    ensures var y := net.ends[net.ends[e].peer];
            Carried(y) ==
            if ReadsNext(net, e).Command?
            then Commanded(Tracked(ReadsNext(net, e).command, Next(y.wire).hops, Next(y.wire).id)) else multiset{}
  {}

  lemma InboxPut(n: Node, c: Tracked<ServiceCommand>)
    ensures NodeHolds(n.(inbox := n.inbox + [c])) == NodeHolds(n) + Commanded(c)
  {
    CollectSnoc(Commanded, n.inbox, c);
  }

  lemma ReadHolds(net: Net, e: nat)
    requires CanRead(net, e) && EndShape(net, e, net.ends[e])
    requires FrameOk(net, net.ends[e].peer, net.ends[net.ends[e].peer], Next(net.ends[net.ends[e].peer].wire))
    ensures NodeHolds(DoRead(net, e).nodes[net.ends[e].owner])
        == NodeHolds(net.nodes[net.ends[e].owner]) + Carried(net.ends[net.ends[e].peer])
  {
    ReadCarries(net, e);
    if ReadsNext(net, e).Command? {
      var f := Next(net.ends[net.ends[e].peer].wire);
      InboxPut(net.nodes[net.ends[e].owner], Tracked(ReadsNext(net, e).command, f.hops, f.id));
    }
  }

  lemma ReadConserves(net: Net, e: nat)
    requires Conserved(net) && CanRead(net, e) && EndShape(net, e, net.ends[e]) && InOrder(net.ends[net.ends[e].peer])
    requires FrameOk(net, net.ends[e].peer, net.ends[net.ends[e].peer], Next(net.ends[net.ends[e].peer].wire))
    ensures Conserved(Tick(DoRead(net, e)))
  {
    ReadHolds(net, e);
    WasRead(net, Tick(DoRead(net, e)), net.ends[e].owner, net.ends[e].peer, Carried(net.ends[net.ends[e].peer]));
  }

  lemma WasRead(net: Net, net': Net, s: nat, p: nat, d: Count)
    requires Conserved(net) && s < |net.nodes| == |net'.nodes| && p < |net.ends| == |net'.ends|
    requires net'.nodes == net.nodes[s := net'.nodes[s]] && net'.ends == net.ends[p := net'.ends[p]]
        && Gone(net') == Gone(net)
    requires InOrder(net.ends[p]) && Ready(net.ends[p].wire)
    requires var y := net.ends[p];
             && net'.ends[p] == y.(wire := y.wire.(taken := y.wire.taken + 1))
             && d == Carried(y)
    requires NodeHolds(net'.nodes[s]) == NodeHolds(net.nodes[s]) + d
    ensures Conserved(net')
  {
    var z: Count := multiset{};
    if net.ends[p].role.Remote? {
      ClientTaken(net.ends[p], net'.ends[p]);
      Moved(net, net', s, p, d, z, d, z, z, z);
    } else {
      WireTaken(net.ends[p], net'.ends[p]);
      Moved(net, net', s, p, z, z, d, d, z, z);
    }
  }

  /** A packet taken from a queue is given to the client, or goes on the wire, or is lost. */
  lemma WriteEnd(x: End, x': End)
    requires InOrder(x) && Writes(x, x')
    ensures EndHolds(x') + (if WritesNext(x).Panic? then Waiting(Next(x.queue)) else multiset{}) == EndHolds(x)
    ensures EndEntered(x') == EndEntered(x)
  {
    var t, c := x.(queue := x.queue.(taken := x.queue.taken + 1)), Next(x.queue);
    QueueTaken(x, t);
    WriteCarries(x);
    if WritesNext(x).Emit? {
      var f := Tracked(WritesNext(x).frame, c.hops, c.id);
      WirePut(t, x', f);
      Exchange(EndHolds(x'), EndHolds(t), EndHolds(x), Waiting(c), Given(x.role, c), Passing(f));
    }
  }

  lemma Exchange(h': Count, t: Count, h: Count, w: Count, g: Count, p: Count)
    requires t + w == h + g && w == g + p && h' == t + p
    ensures h' == h
  {
    forall q ensures h'[q] == h[q] {
      assert (t + w)[q] == (h + g)[q] && w[q] == (g + p)[q] && h'[q] == (t + p)[q];
    }
  }

  lemma WriteCarries(x: End)
    requires !x.role.Remote? && Ready(x.queue)
    ensures var c := Next(x.queue);
            match WritesNext(x)
            case Emit(f) => Waiting(c) == Given(x.role, c) + Passing(Tracked(f, c.hops, c.id))
            case Panic => Given(x.role, c) == multiset{}
  {}

  lemma WriteHolds(x: End, x': End)
    requires InOrder(x) && Writes(x, x')
    ensures EndHolds(x') + Collect(Lost, Panicked(x)) == EndHolds(x) && EndEntered(x') == EndEntered(x)
  {
    WriteEnd(x, x');
    if Panicked(x) != [] { CollectOne(Lost, Panicked(x)[0]); }
  }

  lemma WriteConserves(net: Net, e: nat)
    requires Conserved(net) && CanWrite(net, e) && InOrder(net.ends[e]) && net.ends[e].owner < |net.nodes|
    ensures Conserved(Tick(DoWrite(net, e)))
  {
    WriteHasEffect(net, e);
    Wrote(net, Tick(DoWrite(net, e)), e);
  }

  lemma Wrote(net: Net, net': Net, e: nat)
    requires Conserved(net) && CanWrite(net, e) && net.ends[e].owner < |net.nodes| && InOrder(net.ends[e])
    requires WriteEffect(net, net', e)
    ensures Conserved(net')
  {
    WriteHolds(net.ends[e], net'.ends[e]);
    assert net'.ends == net.ends[e := net'.ends[e]];
    EndLost(net, net', e, Panicked(net.ends[e]));
  }

  lemma MoreLost(net: Net, net': Net, lost: seq<Packet>)
    requires net'.dropped == net.dropped && net'.lost == net.lost + lost
    ensures Gone(net') == Gone(net) + Collect(Lost, lost)
  {
    CollectAppend(Lost, net.lost, lost);
  }

  lemma EndLost(net: Net, net': Net, e: nat, lost: seq<Packet>)
    requires Conserved(net) && e < |net.ends| == |net'.ends| && net.ends[e].owner < |net.nodes|
    requires net'.nodes == net.nodes && net'.ends == net.ends[e := net'.ends[e]] && net'.dropped == net.dropped
        && net'.lost == net.lost + lost
    requires EndHolds(net'.ends[e]) + Collect(Lost, lost) == EndHolds(net.ends[e])
        && EndEntered(net'.ends[e]) == EndEntered(net.ends[e])
    ensures Conserved(net')
  {
    var z: Count, g := multiset{}, Collect(Lost, lost);
    MoreLost(net, net', lost);
    Moved(net, net', net.ends[e].owner, e, z, z, z, g, z, g);
  }

  // ---------- runs ----------

  lemma MoveConserves(net: Net, m: Move)
    requires Inv(net) && Conserved(net) && Enabled(net, m)
    ensures Conserved(After(net, m))
  {
    match m
    case Dial(from, to, key, peerKey) =>
      LinkConserves(net, FreshEnd(to, Accepting(key, Offered(net.nodes[from].meshKey.value)), 0),
          FreshEnd(from, Dialling(peerKey), 0));
    case Connect(to, key, offered) =>
      LinkConserves(net, FreshEnd(to, Accepting(key, offered), 0), FreshEnd(to, Remote(key), 0));
    case Register(e) => RegisterConserves(net, e);
    case Join(e) => JoinConserves(net, e);
    case Listen(s) => ListenConserves(net, s);
    case Say(e, f) => EndFacts(net, e); SayConserves(net, e, f);
    case Read(e) => ReadFacts(net, e); ReadConserves(net, e);
    case Handle(s) => HandleConserves(net, s);
    case Hand(s) => NodeFacts(net, s); HandConserves(net, s);
    case Inform(s, n) => NodeFacts(net, s); InformConserves(net, s, n);
    case Write(e) => EndFacts(net, e); WriteConserves(net, e);
    case Close(e) => EndFacts(net, e); CloseConserves(net, e);
  }

  lemma EndFacts(net: Net, e: nat)
    requires Inv(net) && e < |net.ends|
    ensures InOrder(net.ends[e]) && EndShape(net, e, net.ends[e]) && WireOk(net, e, net.ends[e])
  {
    assert EndOk(net, e, net.ends[e]);
  }

  lemma NodeFacts(net: Net, s: nat)
    requires Inv(net) && s < |net.nodes|
    ensures var n := net.nodes[s];
            && (n.sending.Some? ==> Owned(net, n.sending.value.0, s) && InOrder(net.ends[n.sending.value.0]))
            && (forall a | a in n.pending :: Owned(net, a.0, s) && InOrder(net.ends[a.0]))
  {
    var n := net.nodes[s];
    assert NodeOk(net, s, n);
    forall a | a in n.pending ensures Owned(net, a.0, s) && InOrder(net.ends[a.0]) { EndFacts(net, a.0); }
    if n.sending.Some? { EndFacts(net, n.sending.value.0); }
  }

  lemma ReadFacts(net: Net, e: nat)
    requires Inv(net) && CanRead(net, e)
    ensures EndShape(net, e, net.ends[e]) && InOrder(net.ends[net.ends[e].peer])
    ensures FrameOk(net, net.ends[e].peer, net.ends[net.ends[e].peer], Next(net.ends[net.ends[e].peer].wire))
  {
    EndFacts(net, e);
    EndFacts(net, net.ends[e].peer);
    var y := net.ends[net.ends[e].peer];
    assert FrameOk(net, net.ends[e].peer, y, y.wire.log[y.wire.taken]);
  }

  lemma {:induction false} NothingYet(nodes: seq<Node>)
    requires forall n | n in nodes :: n.inbox == [] && n.sending.None?
    ensures Collect(NodeHolds, nodes) == multiset{}
  {
    if nodes != [] {
      assert nodes[0] in nodes;
      NothingYet(nodes[1..]);
    }
  }

  /**
    In every state of every run, the packets read from clients are those held at nodes and ends and those that
    are gone.
   */
  lemma {:induction false} RunConserves(run: seq<Net>, i: nat)
    requires IsRun(run) && i < |run|
    ensures Conserved(run[i])
  {
    if i == 0 {
      NothingYet(run[0].nodes);
    } else {
      RunConserves(run, i - 1);
      RunKeeps(run, i - 1);
      assert Follows(run[i - 1], run[i - 1 + 1]);
      var m :| Enabled(run[i - 1], m) && run[i] == After(run[i - 1], m);
      MoveConserves(run[i - 1], m);
    }
  }
}
