/** Every move keeps the invariants of the network. */
module NetworkMoves {
  import opened Bytes
  import opened Routing
  import opened Links
  import opened Network
  import opened NetworkInvariants

  // ---------- logs that grow by one ----------

  lemma SaidAppend(log: seq<Tracked<Frame>>, x: Tracked<Frame>)
    ensures Said(log + [x]) == Said(log) + if x.body.Announce? then {x.body.key} else {}
  {
    SaidGrows(log, log + [x]);
    assert (log + [x])[|log|] == x;
  }

  lemma ToldAppend(log: seq<Tracked<WriteCommand>>, x: Tracked<WriteCommand>)
    ensures Told(log + [x]) == Told(log) + if x.body.Notify? then {x.body.key} else {}
  {
    ToldGrows(log, log + [x]);
    assert (log + [x])[|log|] == x;
  }

  lemma HearingAppend(inbox: seq<Tracked<ServiceCommand>>, x: Tracked<ServiceCommand>)
    ensures Hearing(inbox + [x]) == Hearing(inbox) + if x.body.PeerPresent? then {(x.body.sink, x.body.key)} else {}
  {
    var l := inbox + [x];
    forall h | h in Hearing(inbox) ensures h in Hearing(l) {
      var i :| 0 <= i < |inbox| && inbox[i].body.PeerPresent? && (inbox[i].body.sink, inbox[i].body.key) == h;
      assert l[i] == inbox[i];
    }
    assert l[|inbox|] == x;
  }

  lemma HearingTail(inbox: seq<Tracked<ServiceCommand>>)
    requires inbox != []
    ensures Hearing(inbox) == Hearing(inbox[1..])
            + if inbox[0].body.PeerPresent? then {(inbox[0].body.sink, inbox[0].body.key)} else {}
  {
    HearingCons(inbox[0], inbox[1..]);
    assert inbox == [inbox[0]] + inbox[1..];
  }

  lemma HearingCons(x: Tracked<ServiceCommand>, inbox: seq<Tracked<ServiceCommand>>)
    ensures Hearing([x] + inbox) == Hearing(inbox) + if x.body.PeerPresent? then {(x.body.sink, x.body.key)} else {}
  {
    var l := [x] + inbox;
    forall h | h in Hearing(inbox) ensures h in Hearing(l) {
      var i :| 0 <= i < |inbox| && inbox[i].body.PeerPresent? && (inbox[i].body.sink, inbox[i].body.key) == h;
      assert l[i + 1] == inbox[i];
    }
    assert l[0] == x;
  }

  // ---------- new connections ----------

  lemma LinkKeeps(net: Net, near: End, far: End)
    requires Inv(net)
    requires near == FreshEnd(near.owner, near.role, 0) && near.role.Accepting? && near.owner < |net.nodes|
    requires far == FreshEnd(far.owner, far.role, 0) && !far.role.Accepting? && far.owner < |net.nodes|
    requires far.role.Dialling? ==> OffersKey(net, near.role.offered, far.owner)
    requires far.role.Remote? ==> far.role.key == near.role.key
    ensures Inv(Tick(AddLink(net, near, far)))
  {
    var net' := Tick(AddLink(net, near, far));
    assert Grows(net, net');
    forall s | 0 <= s < |net'.nodes| ensures NodeOk(net', s, net'.nodes[s]) { NodeStays(net, net', s, net.nodes[s]); }
    forall e | 0 <= e < |net'.ends| ensures EndOk(net', e, net'.ends[e]) {
      if e < |net.ends| { EndStays(net, net', e, net.ends[e]); }
    }
  }

  // ---------- registration, joining, listening ----------

  lemma RegisterKeeps(net: Net, e: nat)
    requires Inv(net) && CanRegister(net, e)
    ensures Inv(Tick(DoRegister(net, e)))
  {
    var net', s := Tick(DoRegister(net, e)), net.ends[e].owner;
    var n, x := net.nodes[s], net.ends[e];
    assert NodeOk(net, s, n) && EndOk(net, e, x);
    assert Touches(net, net', s, e);
    TouchesGrows(net, net', s, e);
    NodeStays(net, net', s, n);
    EndStays(net, net', e, x);
    RegisterNode(net', s, n, net'.nodes[s], x.role.key, e, net.clock);
    RegisterEnd(net', e, x, net'.ends[e]);
    Untouched(net, net', s, e);
  }

  lemma RegisterEnd(net: Net, e: nat, x: End, x': End)
    requires EndOk(net, e, x) && x.role.Accepting? && x'.live && x' == x.(live := true, canMesh := x'.canMesh)
    requires x.owner < |net.nodes| && x.role.key in Born(net, x.owner)
    requires CanMesh(net.nodes[x.owner].meshKey, x.role.offered) == Some(x'.canMesh)
    ensures EndOk(net, e, x')
  {
    forall i | 0 <= i < |x.wire.log| ensures FrameOk(net, e, x', x.wire.log[i]) {
      assert FrameOk(net, e, x, x.wire.log[i]);
    }
  }

  lemma RegisterNode(net: Net, s: nat, n: Node, n': Node, k: PublicKey, e: nat, now: nat)
    requires NodeOk(net, s, n) && n'.listening && BirthOk(n, now) && now < net.clock
    requires Owned(net, e, s) && net.ends[e].live && IsOwnEnd(net.ends[e], k)
    requires n'.tables == Routing.Register(n.tables, k, e) && n'.born == Bear(n, k, now)
    requires n'.pending == n.pending + multiset(NoticesOf(n.tables, k)) && n'.inbox == n.inbox
        && n'.sending == n.sending
    ensures NodeOk(net, s, n')
  {
    RegisterTables(net, s, n, n', k, e, now);
    RegisterPending(net, s, n, n', k);
    RegisterInformed(net, s, n, n', k, e);
  }

  lemma RegisterTables(net: Net, s: nat, n: Node, n': Node, k: PublicKey, e: nat, now: nat)
    requires BirthOk(n, now) && now < net.clock
    requires Owned(net, e, s) && net.ends[e].live && IsOwnEnd(net.ends[e], k)
    requires n'.tables == Routing.Register(n.tables, k, e) && n'.born == Bear(n, k, now)
    requires forall j | j in n.tables.peers :: RouteOk(net, s, n, j)
    requires forall m | m in n.tables.mesh :: MemberOk(net, s, n, m)
    ensures BirthOk(n', net.clock)
    ensures forall j | j in n'.tables.peers :: RouteOk(net, s, n', j)
    ensures forall m | m in n'.tables.mesh :: MemberOk(net, s, n', m)
  {
    forall j | j in n'.tables.peers ensures RouteOk(net, s, n', j) {
      if j != k { assert RouteOk(net, s, n, j); }
    }
    forall m | m in n'.tables.mesh ensures MemberOk(net, s, n', m) { assert MemberOk(net, s, n, m); }
  }

  lemma RegisterPending(net: Net, s: nat, n: Node, n': Node, k: PublicKey)
    requires PendingOk(net, s, n) && (forall m | m in n.tables.mesh :: MemberOk(net, s, n, m))
    requires n'.pending == n.pending + multiset(NoticesOf(n.tables, k)) && n.born.Keys + {k} <= n'.born.Keys
    ensures PendingOk(net, s, n')
  {
    forall a | a in n'.pending ensures Owned(net, a.0, s) && a.1 in n'.born {
      if a !in n.pending {
        assert a in NoticesOf(n.tables, k);
        var m :| m in n.tables.mesh && a == (n.tables.mesh[m], k);
        assert MemberOk(net, s, n, m);
      }
    }
  }

  /** Everyone in the mesh is told of the new client. */
  lemma RegisterInformed(net: Net, s: nat, n: Node, n': Node, k: PublicKey, e: nat)
    requires AllInformed(net, n) && n'.listening && (forall m | m in n.tables.mesh :: MemberOk(net, s, n, m))
    requires n'.tables == Routing.Register(n.tables, k, e) && n'.pending == n.pending + multiset(NoticesOf(n.tables, k))
    ensures AllInformed(net, n')
  {
    forall m, j | m in n'.tables.mesh && IsLocal(net, n', j)
      ensures j in n'.tables.mesh || Informed(net, n', n'.tables.mesh[m], j)
    {
      assert MemberOk(net, s, n, m);
      if j == k {
        assert (n.tables.mesh[m], k) in NoticesOf(n.tables, k);
      } else {
        assert IsLocal(net, n, j);
      }
    }
  }

  lemma JoinKeeps(net: Net, e: nat)
    requires Inv(net) && CanJoin(net, e)
    ensures Inv(Tick(DoJoin(net, e)))
  {
    var net', s := Tick(DoJoin(net, e)), net.ends[e].owner;
    var n, n' := net.nodes[s], net'.nodes[s];
    assert NodeOk(net, s, n) && EndOk(net, e, net.ends[e]);
    assert Touches(net, net', s, |net.ends|);
    TouchesGrows(net, net', s, |net.ends|);
    NodeStays(net, net', s, n);
    forall k | k in n'.tables.peers ensures RouteOk(net', s, n', k) { assert RouteOk(net', s, n, k); }
    forall m | m in n'.tables.mesh ensures MemberOk(net', s, n', m) {
      if m != net.ends[e].role.peerKey { assert MemberOk(net', s, n, m); }
    }
    forall k ensures !IsLocal(net', n', k) { assert !IsLocal(net', n, k); }
    Untouched(net, net', s, |net.ends|);
  }

  lemma ListenKeeps(net: Net, s: nat)
    requires Inv(net) && s < |net.nodes|
    ensures Inv(Tick(DoListen(net, s)))
  {
    var net' := Tick(DoListen(net, s));
    var n, n' := net.nodes[s], net'.nodes[s];
    assert NodeOk(net, s, n);
    assert Touches(net, net', s, |net.ends|);
    TouchesGrows(net, net', s, |net.ends|);
    NodeStays(net, net', s, n);
    SameButInformed(net', s, n, n');
    forall m, k | m in n'.tables.mesh && IsLocal(net', n', k)
      ensures k in n'.tables.mesh || Informed(net', n', n'.tables.mesh[m], k)
    {
      assert IsLocal(net', n, k);
    }
    Untouched(net, net', s, |net.ends|);
  }

  /** Routes and members do not depend on anything but the tables and births. */
  lemma SameButInformed(net: Net, s: nat, n: Node, n': Node)
    requires NodeOk(net, s, n) && n'.tables == n.tables && n'.born == n.born
    ensures BirthOk(n', net.clock)
    ensures forall k | k in n'.tables.peers :: RouteOk(net, s, n', k)
    ensures forall m | m in n'.tables.mesh :: MemberOk(net, s, n', m)
  {
    forall k | k in n'.tables.peers ensures RouteOk(net, s, n', k) { assert RouteOk(net, s, n, k); }
    forall m | m in n'.tables.mesh ensures MemberOk(net, s, n', m) { assert MemberOk(net, s, n, m); }
  }

  // ---------- frames from clients, and reading ----------

  lemma SayKeeps(net: Net, e: nat, f: Frame)
    requires Inv(net) && CanSay(net, e, f)
    ensures Inv(Tick(DoSay(net, e, f)))
  {
    var net' := Tick(DoSay(net, e, f));
    var x, x' := net.ends[e], net'.ends[e];
    assert EndOk(net, e, x);
    assert Touches(net, net', |net.nodes|, e);
    TouchesGrows(net, net', |net.nodes|, e);
    EndStays(net, net', e, x);
    var item := Tracked(f, [], Id(e, |x.wire.log|));
    WireAppend(net', e, x, x', item);
    SaidAppend(x.wire.log, item);
    Untouched(net, net', |net.nodes|, e);
  }

  /** One more frame on the wire, with nothing more read or announced than may be. */
  lemma WireAppend(net: Net, e: nat, x: End, x': End, f: Tracked<Frame>)
    requires EndShape(net, e, x) && WireOk(net, e, x) && EndConveys(net, x) && FrameOk(net, e, x, f)
    requires x'.role == x.role && x'.owner == x.owner && x'.peer == x.peer && x'.wire == Put(x.wire, f)
    requires x'.queue.taken <= |x'.queue.log|
    requires x.role.Remote? || Told(x'.queue.log[..x'.queue.taken]) <= Said(x'.wire.log)
    ensures WireOk(net, e, x') && EndConveys(net, x')
  {
    forall i | 0 <= i < |x'.wire.log| ensures FrameOk(net, e, x', x'.wire.log[i]) {
      assert i < |x.wire.log| ==> FrameOk(net, e, x, x.wire.log[i]);
    }
    assert x'.wire.log[..x.wire.taken] == x.wire.log[..x.wire.taken];
  }

  /** What a read loop turns a frame into is a command its service can rely on. */
  lemma ReadCommandOk(net: Net, e: nat)
    requires Inv(net) && CanRead(net, e) && ReadsNext(net, e).Command?
    ensures var f := Next(net.ends[net.ends[e].peer].wire);
            CommandOk(net, net.ends[e].owner, Tracked(ReadsNext(net, e).command, f.hops, f.id))
  {
    var x, p := net.ends[e], net.ends[e].peer;
    var y := net.ends[p];
    var f := Next(y.wire);
    assert EndOk(net, e, x) && EndOk(net, p, y);
    assert FrameOk(net, p, y, y.wire.log[y.wire.taken]);
    if f.body.Announce? { assert f.body.key in Said(y.wire.log); }
    if f.body.Send? && x.role.Accepting? { assert Origin(net, e, Packet(x.role.key, f.body.target, f.body.payload)); }
  }

  lemma ReadTouches(net: Net, e: nat)
    requires CanRead(net, e)
    ensures Touches(net, Tick(DoRead(net, e)), net.ends[e].owner, net.ends[e].peer)
  {
    var n, y := net.nodes[net.ends[e].owner], net.ends[net.ends[e].peer];
    if ReadsNext(net, e).Command? {
      HearingAppend(n.inbox, Tracked(ReadsNext(net, e).command, Next(y.wire).hops, Next(y.wire).id));
    }
  }

  /** The command is in the inbox, and is good there. */
  lemma ReadArrives(net: Net, e: nat)
    requires Inv(net) && CanRead(net, e) && Grows(net, Tick(DoRead(net, e)))
    ensures var net', s := Tick(DoRead(net, e)), net.ends[e].owner;
            var inbox, inbox', f := net.nodes[s].inbox, net'.nodes[s].inbox, Next(net.ends[net.ends[e].peer].wire);
            && (inbox' == inbox || (|inbox'| == |inbox| + 1 && inbox'[..|inbox|] == inbox
               && CommandOk(net', s, inbox'[|inbox|])))
            && (f.body.Announce? ==> (e, f.body.key) in Hearing(inbox'))
  {
    var net', s, f := Tick(DoRead(net, e)), net.ends[e].owner, Next(net.ends[net.ends[e].peer].wire);
    if ReadsNext(net, e).Command? {
      var item := Tracked(ReadsNext(net, e).command, f.hops, f.id);
      ReadCommandOk(net, e);
      CommandStays(net, net', s, item);
      HearingAppend(net.nodes[s].inbox, item);
    }
  }

  lemma CommandStays(net: Net, net': Net, s: nat, item: Tracked<ServiceCommand>)
    requires Grows(net, net') && CommandOk(net, s, item)
    ensures CommandOk(net', s, item)
  {
    InboxStays(net, net', s, [item]);
    assert CommandOk(net', s, [item][0]);
  }

  lemma ReadKeeps(net: Net, e: nat)
    requires Inv(net) && CanRead(net, e)
    ensures Inv(Tick(DoRead(net, e)))
  {
    var net', s, p := Tick(DoRead(net, e)), net.ends[e].owner, net.ends[e].peer;
    ReadTouches(net, e);
    TouchesGrows(net, net', s, p);
    assert EndOk(net, e, net.ends[e]) && EndOk(net, p, net.ends[p]) && NodeOk(net, s, net.nodes[s]);
    ReadArrives(net, e);
    NodeStays(net, net', s, net.nodes[s]);
    ReadNode(net', s, net.nodes[s], net'.nodes[s]);
    EndStays(net, net', p, net.ends[p]);
    ReadEnd(net', p, net.ends[p], net'.ends[p], s, e);
    Untouched(net, net', s, p);
  }

  lemma ReadNode(net: Net, s: nat, n: Node, n': Node)
    requires NodeOk(net, s, n) && n' == n.(inbox := n'.inbox)
    requires n'.inbox == n.inbox || (|n'.inbox| == |n.inbox| + 1 && n'.inbox[..|n.inbox|] == n.inbox
        && CommandOk(net, s, n'.inbox[|n.inbox|]))
    ensures NodeOk(net, s, n')
  {
    SameButInformed(net, s, n, n');
    forall i | 0 <= i < |n'.inbox| ensures CommandOk(net, s, n'.inbox[i]) {
      if i < |n.inbox| { assert n'.inbox[i] == n.inbox[i]; }
    }
    InformedSame(net, n, n');
  }

  lemma InformedSame(net: Net, n: Node, n': Node)
    requires AllInformed(net, n) && n'.tables == n.tables && n'.pending == n.pending && n'.listening == n.listening
    ensures AllInformed(net, n')
  {
    forall m, k | m in n'.tables.mesh && IsLocal(net, n', k)
      ensures k in n'.tables.mesh || Informed(net, n', n'.tables.mesh[m], k)
    {
      assert IsLocal(net, n, k);
    }
    forall k | IsLocal(net, n', k) ensures n'.listening { assert IsLocal(net, n, k); }
  }

  lemma ReadEnd(net: Net, p: nat, y: End, y': End, s: nat, e: nat)
    requires EndOk(net, p, y) && Ready(y.wire) && y' == y.(wire := y.wire.(taken := y.wire.taken + 1))
    requires e == y.peer && s < |net.nodes| && (Next(y.wire).body.Announce? ==>
        (e, Next(y.wire).body.key) in Hearing(net.nodes[s].inbox))
    requires e < |net.ends| && net.ends[e].owner == s
    ensures EndOk(net, p, y')
  {
    var i := y.wire.taken;
    assert y.wire.log[..i + 1] == y.wire.log[..i] + [y.wire.log[i]];
    SaidAppend(y.wire.log[..i], y.wire.log[i]);
    forall j | 0 <= j < |y.wire.log| ensures FrameOk(net, p, y', y.wire.log[j]) {
      assert FrameOk(net, p, y, y.wire.log[j]);
    }
  }

  // ---------- the command loop ----------

  /** The node without the command it is about to handle. */
  lemma PopKeeps(net: Net, s: nat, n: Node, n': Node)
    requires NodeOk(net, s, n) && n.inbox != [] && n'.inbox == n.inbox[1..]
    requires n'.tables == n.tables && n'.born == n.born && n'.pending == n.pending && n'.listening == n.listening
        && SendingOk(net, s, n')
    ensures NodeOk(net, s, n')
  {
    SameButInformed(net, s, n, n');
    forall i | 0 <= i < |n'.inbox| ensures CommandOk(net, s, n'.inbox[i]) { assert CommandOk(net, s, n.inbox[i + 1]); }
    InformedSame(net, n, n');
  }

  /** A packet is sent where its target's entry leads, and every node on its way has known the target for longer. */
  lemma RouteSends(net: Net, s: nat, n: Node, t: PublicKey, hops: seq<nat>)
    requires s < |net.nodes| && At(net, t, hops, s) && t in n.tables.peers && RouteOk(net, s, n, t)
        && n.born == Born(net, s)
    ensures OnSink(net, t, hops + [s], n.tables.peers[t])
  {
    var e, h := n.tables.peers[t], hops + [s];
    forall i, j | 0 <= i < j < |h| ensures Born(net, h[i])[t] > Born(net, h[j])[t] {
      assert j == |hops| && i < |hops| - 1 ==> Born(net, hops[i])[t] > Born(net, hops[|hops| - 1])[t];
    }
    assert Descending(net, t, h);
  }

  lemma HandleKeeps(net: Net, s: nat)
    requires Inv(net) && CanHandle(net, s)
    ensures Inv(Tick(DoHandle(net, s)))
  {
    assert NodeOk(net, s, net.nodes[s]);
    assert CommandOk(net, s, net.nodes[s].inbox[0]);
    match net.nodes[s].inbox[0].body
    case Route(p) => RouteKeeps(net, s);
    case Subscribe(k, e) => SubscribeKeeps(net, s, k, e);
    case PeerPresent(k, e) => PresentKeeps(net, s, k, e);
  }

  lemma RouteKeeps(net: Net, s: nat)
    requires Inv(net) && CanHandle(net, s) && net.nodes[s].inbox[0].body.Route?
    ensures Inv(Tick(DoHandle(net, s)))
  {
    var net', n := Tick(DoHandle(net, s)), net.nodes[s];
    var t, hops := n.inbox[0].body.packet.target, n.inbox[0].hops;
    HearingTail(n.inbox);
    assert Touches(net, net', s, |net.ends|);
    TouchesGrows(net, net', s, |net.ends|);
    assert NodeOk(net, s, n) && CommandOk(net, s, n.inbox[0]);
    NodeStays(net, net', s, n);
    if t in n.tables.peers {
      AtStays(net, net', t, hops, s);
      SentStays(net, net', n.inbox[0].body.packet);
      assert RouteOk(net', s, n, t);
      RouteSends(net', s, n, t, hops);
    }
    PopKeeps(net', s, n, net'.nodes[s]);
    Untouched(net, net', s, |net.ends|);
  }

  lemma SubscribeKeeps(net: Net, s: nat, k: PublicKey, e: nat)
    requires Inv(net) && CanHandle(net, s) && net.nodes[s].inbox[0].body == Subscribe(k, e)
    ensures Inv(Tick(DoHandle(net, s)))
  {
    var net', n := Tick(DoHandle(net, s)), net.nodes[s];
    HearingTail(n.inbox);
    assert Touches(net, net', s, |net.ends|);
    TouchesGrows(net, net', s, |net.ends|);
    assert NodeOk(net, s, n) && CommandOk(net, s, n.inbox[0]) && EndOk(net, e, net.ends[e]);
    NodeStays(net, net', s, n);
    var popped := n.(inbox := n.inbox[1..]);
    PopKeeps(net', s, n, popped);
    SubscribeNode(net', s, popped, net'.nodes[s], k, e);
    Untouched(net, net', s, |net.ends|);
  }

  lemma SubscribeNode(net: Net, s: nat, n: Node, n': Node, k: PublicKey, e: nat)
    requires NodeOk(net, s, n) && Owned(net, e, s) && net.ends[e].live && IsOwnEnd(net.ends[e], k)
        && net.ends[e].canMesh && k in n.born
    requires n'.tables == Enlist(n.tables, k, e) && n'.pending == n.pending + multiset(FloodTo(n'.tables, e))
    requires n'.born == n.born && n'.inbox == n.inbox && n'.sending == n.sending && n'.listening == n.listening
    ensures NodeOk(net, s, n')
  {
    forall j | j in n'.tables.peers ensures RouteOk(net, s, n', j) { assert RouteOk(net, s, n, j); }
    forall m | m in n'.tables.mesh ensures MemberOk(net, s, n', m) { assert m != k ==> MemberOk(net, s, n, m); }
    forall a | a in n'.pending ensures Owned(net, a.0, s) && a.1 in n'.born {
      if a !in n.pending { assert a in FloodTo(n'.tables, e); }
    }
    SubscribeInformed(net, n, n', k, e);
  }

  /** The flood tells the newcomer of everyone, and the others have been told already. */
  lemma SubscribeInformed(net: Net, n: Node, n': Node, k: PublicKey, e: nat)
    requires AllInformed(net, n) && e < |net.ends|
    requires n'.tables == Enlist(n.tables, k, e) && n'.pending == n.pending + multiset(FloodTo(n'.tables, e))
        && n'.listening == n.listening
    ensures AllInformed(net, n')
  {
    forall m, j | m in n'.tables.mesh && IsLocal(net, n', j)
      ensures j in n'.tables.mesh || Informed(net, n', n'.tables.mesh[m], j)
    {
      assert IsLocal(net, n, j);
      if m == k && j !in n'.tables.mesh { assert (e, j) in FloodTo(n'.tables, e); }
    }
    forall j | IsLocal(net, n', j) ensures n'.listening { assert IsLocal(net, n, j); }
  }

  lemma PresentKeeps(net: Net, s: nat, k: PublicKey, e: nat)
    requires Inv(net) && CanHandle(net, s) && net.nodes[s].inbox[0].body == ServiceCommand.PeerPresent(k, e)
    ensures Inv(Tick(DoHandle(net, s)))
  {
    var net', n := Tick(DoHandle(net, s)), net.nodes[s];
    assert NodeOk(net, s, n) && CommandOk(net, s, n.inbox[0]);
    PresentTouches(net, s);
    TouchesGrows(net, net', s, |net.ends|);
    NodeStays(net, net', s, n);
    var popped := n.(inbox := n.inbox[1..]);
    PopKeeps(net', s, n, popped);
    if k in n.tables.peers {
      assert net'.nodes[s] == popped;
    } else {
      PeerIsOlder(net, s, k, e);
      LearnedStays(net, net', e, k, net.clock);
      LearnNode(net', s, popped, net'.nodes[s], k, e, net.clock);
    }
    Untouched(net, net', s, |net.ends|);
  }

  lemma PresentTouches(net: Net, s: nat)
    requires CanHandle(net, s) && net.nodes[s].inbox[0].body.PeerPresent? && BirthOk(net.nodes[s], net.clock)
    ensures Touches(net, Tick(DoHandle(net, s)), s, |net.ends|)
  {
    HearingTail(net.nodes[s].inbox);
  }

  lemma LearnedStays(net: Net, net': Net, e: nat, k: PublicKey, birth: nat)
    requires Grows(net, net') && e < |net.ends| && Learned(net, e, k, birth)
    ensures Learned(net', e, k, birth)
  {
    SaidToGrows(net, net', e);
  }

  /** Whoever announced a key knew it before now. */
  lemma PeerIsOlder(net: Net, s: nat, k: PublicKey, e: nat)
    requires Inv(net) && s < |net.nodes| && CommandOk(net, s, Tracked(ServiceCommand.PeerPresent(k, e), [], NO_ID))
        && k !in Born(net, s)
    ensures Learned(net, e, k, net.clock)
    ensures !IsOwnEnd(net.ends[e], k)
  {
    var y := net.ends[net.ends[e].peer];
    assert EndOk(net, e, net.ends[e]) && EndOk(net, net.ends[e].peer, y);
    if !y.role.Remote? { assert NodeOk(net, y.owner, net.nodes[y.owner]); }
  }

  lemma LearnNode(net: Net, s: nat, n: Node, n': Node, k: PublicKey, e: nat, now: nat)
    requires NodeOk(net, s, n) && BirthOk(n, now) && now < net.clock && k !in n.tables.peers
    requires Owned(net, e, s) && net.ends[e].live && !IsOwnEnd(net.ends[e], k) && Learned(net, e, k, now)
    requires n' == n.(tables := Learn(n.tables, k, e), born := Bear(n, k, now))
    ensures NodeOk(net, s, n')
  {
    forall j | j in n'.tables.peers ensures RouteOk(net, s, n', j) {
      if j != k { assert RouteOk(net, s, n, j); }
    }
    forall m | m in n'.tables.mesh ensures MemberOk(net, s, n', m) { assert MemberOk(net, s, n, m); }
    LearnInformed(net, n, n', k, e);
  }

  lemma LearnInformed(net: Net, n: Node, n': Node, k: PublicKey, e: nat)
    requires AllInformed(net, n) && e < |net.ends| && !IsOwnEnd(net.ends[e], k)
    requires n'.tables == Learn(n.tables, k, e) && n'.pending == n.pending && n'.listening == n.listening
    ensures AllInformed(net, n')
  {
    forall m, j | m in n'.tables.mesh && IsLocal(net, n', j)
      ensures j in n'.tables.mesh || Informed(net, n', n'.tables.mesh[m], j)
    {
      assert IsLocal(net, n, j);
    }
    forall j | IsLocal(net, n', j) ensures n'.listening { assert IsLocal(net, n, j); }
  }

  // ---------- sends ----------

  /** One more command in a queue. */
  lemma QueueAppend(net: Net, e: nat, x: End, x': End, c: Tracked<WriteCommand>)
    requires EndOk(net, e, x) && x' == x.(queue := Put(x.queue, c)) && !x.role.Remote? && x.live
    requires c.body.Transmit? ==> Sent(net, c.body.packet) && OnSink(net, c.body.packet.target, c.hops, e)
    requires c.body.Notify? ==> c.body.key in Born(net, x.owner)
    ensures EndOk(net, e, x')
  {
    ToldAppend(x.queue.log, c);
    assert x'.queue.log[..x.queue.taken] == x.queue.log[..x.queue.taken];
    forall i | 0 <= i < |x.wire.log| ensures FrameOk(net, e, x', x.wire.log[i]) {
      assert FrameOk(net, e, x, x.wire.log[i]);
    }
  }

  lemma HandKeeps(net: Net, s: nat)
    requires Inv(net) && CanHand(net, s)
    ensures Inv(Tick(DoHand(net, s)))
  {
    var net', n := Tick(DoHand(net, s)), net.nodes[s];
    var e, item := n.sending.value.0, n.sending.value.1;
    assert Touches(net, net', s, e);
    TouchesGrows(net, net', s, e);
    assert NodeOk(net, s, n) && EndOk(net, e, net.ends[e]);
    NodeStays(net, net', s, n);
    EndStays(net, net', e, net.ends[e]);
    SameButInformed(net', s, n, net'.nodes[s]);
    InformedSame(net', n, net'.nodes[s]);
    if !net.ends[e].closed {
      QueueAppend(net', e, net.ends[e], net'.ends[e], Tracked(Transmit(item.body), item.hops, item.id));
    }
    Untouched(net, net', s, e);
  }

  lemma InformKeeps(net: Net, s: nat, notice: Notice)
    requires Inv(net) && CanInform(net, s, notice)
    ensures Inv(Tick(DoInform(net, s, notice)))
  {
    var net', n, e := Tick(DoInform(net, s, notice)), net.nodes[s], notice.0;
    assert Touches(net, net', s, e);
    TouchesGrows(net, net', s, e);
    assert NodeOk(net, s, n) && EndOk(net, e, net.ends[e]);
    EndStays(net, net', e, net.ends[e]);
    InformEnd(net', e, net.ends[e], net'.ends[e], notice.1);
    NodeStays(net, net', s, n);
    SameButInformed(net', s, n, net'.nodes[s]);
    NoticeInforms(net', n, net'.nodes[s], notice);
    Untouched(net, net', s, e);
  }

  lemma InformEnd(net: Net, e: nat, x: End, x': End, k: PublicKey)
    requires EndOk(net, e, x) && !x.role.Remote? && x.live && k in Born(net, x.owner)
    requires x' == if x.closed then x.(failed := x.failed + {k})
        else x.(queue := Put(x.queue, Tracked(Notify(k), [], NO_ID)))
    ensures EndOk(net, e, x') && (k in Told(x'.queue.log) || k in x'.failed)
  {
    if x.closed {
      forall i | 0 <= i < |x.wire.log| ensures FrameOk(net, e, x', x.wire.log[i]) {
        assert FrameOk(net, e, x, x.wire.log[i]);
      }
    } else {
      ToldAppend(x.queue.log, Tracked(Notify(k), [], NO_ID));
      QueueAppend(net, e, x, x', Tracked(Notify(k), [], NO_ID));
    }
  }

  /** A notice that is no longer pending has been handed over or has failed. */
  lemma NoticeInforms(net: Net, n: Node, n': Node, notice: Notice)
    requires AllInformed(net, n) && n'.tables == n.tables && n'.listening == n.listening
        && n'.pending == n.pending - multiset{notice}
    requires notice.0 < |net.ends| && (notice.1 in Told(net.ends[notice.0].queue.log)
        || notice.1 in net.ends[notice.0].failed)
    ensures AllInformed(net, n')
  {
    forall m, k | m in n'.tables.mesh && IsLocal(net, n', k)
      ensures k in n'.tables.mesh || Informed(net, n', n'.tables.mesh[m], k)
    {
      assert IsLocal(net, n, k);
    }
    forall k | IsLocal(net, n', k) ensures n'.listening { assert IsLocal(net, n, k); }
  }

  // ---------- writing ----------

  lemma WriteKeeps(net: Net, e: nat)
    requires Inv(net) && CanWrite(net, e)
    ensures Inv(Tick(DoWrite(net, e)))
  {
    var net' := Tick(DoWrite(net, e));
    var x, x' := net.ends[e], net'.ends[e];
    assert Touches(net, net', |net.nodes|, e);
    TouchesGrows(net, net', |net.nodes|, e);
    assert EndOk(net, e, x);
    EndStays(net, net', e, x);
    WriteEnd(net', e, x, x');
    Untouched(net, net', |net.nodes|, e);
  }

  lemma WriteFrameOk(net: Net, e: nat, x: End)
    requires QueueOk(net, e, x) && !x.role.Remote? && Ready(x.queue) && WritesNext(x).Emit?
    requires e < |net.ends| && net.ends[e].role == x.role
    ensures FrameOk(net, e, x, Tracked(WritesNext(x).frame, Next(x.queue).hops, Next(x.queue).id))
  {
    var c := x.queue.log[x.queue.taken];
    if c.body.Transmit? {
      assert Sent(net, Packet(c.body.packet.source, c.body.packet.target, c.body.packet.payload));
    }
  }

  lemma WriteEnd(net: Net, e: nat, x: End, x': End)
    requires EndOk(net, e, x) && !x.role.Remote? && Ready(x.queue) && e < |net.ends|
    requires net.ends[e].role == x.role && net.ends[e].owner == x.owner && net.ends[e].peer == x.peer
    requires x' == var y := x.(queue := x.queue.(taken := x.queue.taken + 1));
                   match WritesNext(x)
                   case Emit(f) => y.(wire := Put(x.wire, Tracked(f, Next(x.queue).hops, Next(x.queue).id)))
                   case Panic => y.(closed := true)
    ensures EndOk(net, e, x')
  {
    var i, c := x.queue.taken, Next(x.queue);
    assert x.queue.log[..i + 1] == x.queue.log[..i] + [x.queue.log[i]];
    ToldAppend(x.queue.log[..i], c);
    if c.body.Notify? { assert c.body.key in Told(x.queue.log); }
    if WritesNext(x).Emit? {
      var f := Tracked(WritesNext(x).frame, c.hops, c.id);
      SaidAppend(x.wire.log, f);
      WriteFrameOk(net, e, x);
      WireAppend(net, e, x, x', f);
    } else {
      assert c.body.Transmit?;
      forall j | 0 <= j < |x.wire.log| ensures FrameOk(net, e, x', x.wire.log[j]) {
        assert FrameOk(net, e, x, x.wire.log[j]);
      }
    }
  }

  lemma CloseKeeps(net: Net, e: nat)
    requires Inv(net) && e < |net.ends|
    ensures Inv(Tick(DoClose(net, e)))
  {
    var net' := Tick(DoClose(net, e));
    var x := net.ends[e];
    assert Touches(net, net', |net.nodes|, e);
    TouchesGrows(net, net', |net.nodes|, e);
    assert EndOk(net, e, x);
    EndStays(net, net', e, x);
    forall j | 0 <= j < |x.wire.log| ensures FrameOk(net', e, net'.ends[e], x.wire.log[j]) {
      assert FrameOk(net', e, x, x.wire.log[j]);
    }
    Untouched(net, net', |net.nodes|, e);
  }

  // ---------- every move, every run ----------

  lemma MoveKeeps(net: Net, m: Move)
    requires Inv(net) && Enabled(net, m)
    ensures Inv(After(net, m))
  {
    match m
    case Dial(from, to, key, peerKey) =>
      LinkKeeps(net, FreshEnd(to, Accepting(key, Offered(net.nodes[from].meshKey.value)), 0),
          FreshEnd(from, Dialling(peerKey), 0));
    case Connect(to, key, offered) =>
      LinkKeeps(net, FreshEnd(to, Accepting(key, offered), 0), FreshEnd(to, Remote(key), 0));
    case Register(e) => RegisterKeeps(net, e);
    case Join(e) => JoinKeeps(net, e);
    case Listen(s) => ListenKeeps(net, s);
    case Say(e, f) => SayKeeps(net, e, f);
    case Read(e) => ReadKeeps(net, e);
    case Handle(s) => HandleKeeps(net, s);
    case Hand(s) => HandKeeps(net, s);
    case Inform(s, n) => InformKeeps(net, s, n);
    case Write(e) => WriteKeeps(net, e);
    case Close(e) => CloseKeeps(net, e);
  }

  lemma InitialOk(net: Net)
    requires Initial(net)
    ensures Inv(net)
  {
    forall s | 0 <= s < |net.nodes| ensures NodeOk(net, s, net.nodes[s]) {
      assert net.nodes[s] == FreshNode(net.nodes[s].meshKey);
    }
  }

  /** Every state of every run satisfies the invariants. */
  lemma {:induction false} RunKeeps(run: seq<Net>, i: nat)
    requires IsRun(run) && i < |run|
    ensures Inv(run[i])
  {
    if i == 0 {
      InitialOk(run[0]);
    } else {
      RunKeeps(run, i - 1);
      assert Follows(run[i - 1], run[i - 1 + 1]);
      var m :| Enabled(run[i - 1], m) && run[i] == After(run[i - 1], m);
      MoveKeeps(run[i - 1], m);
    }
  }
}
