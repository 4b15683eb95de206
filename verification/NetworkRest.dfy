/**
  The network comes to rest: if clients send no more frames and no connection is made, registered,
  subscribed or ended, the loops of the services have only so much to do, in whatever order they do it.
 */
module NetworkRest {
  import opened Bytes
  import opened Routing
  import opened Links
  import opened Network
  import opened NetworkEffects
  import opened NetworkInvariants
  import opened NetworkMoves
  import opened NetworkHistory
  import opened NetworkNotices
  import opened NetworkTheorems
  import opened NetworkConservation
  import opened NetworkDelivery
  import O = NetworkOutcome

  // ---------- sums ----------

  ghost function Sum<T>(f: T -> nat, s: seq<T>): nat
  {
    if s == [] then 0 else f(s[0]) + Sum(f, s[1..])
  }

  lemma {:induction false} SumAppend<T>(f: T -> nat, a: seq<T>, b: seq<T>)
    ensures Sum(f, a + b) == Sum(f, a) + Sum(f, b)
  {
    if a == [] {
      assert a + b == b;
    } else {
      assert (a + b)[1..] == a[1..] + b;
      SumAppend(f, a[1..], b);
    }
  }

  lemma SumSnoc<T>(f: T -> nat, s: seq<T>, x: T)
    ensures Sum(f, s + [x]) == Sum(f, s) + f(x)
  {
    SumAppend(f, s, [x]);
    assert [x][1..] == [];
  }

  lemma SumFirst<T>(f: T -> nat, s: seq<T>, i: nat)
    requires i < |s|
    ensures Sum(f, s[i..]) == f(s[i]) + Sum(f, s[i + 1..])
  {
    assert s[i..][1..] == s[i + 1..];
  }

  lemma {:induction false} SumChange<T>(f: T -> nat, s: seq<T>, t: seq<T>, i: nat)
    requires i < |s| == |t| && forall j | 0 <= j < |s| && j != i :: t[j] == s[j]
    ensures Sum(f, t) + f(s[i]) == Sum(f, s) + f(t[i])
  {
    if i == 0 {
      assert t[1..] == s[1..];
    } else {
      assert s[1..][i - 1] == s[i] && t[1..][i - 1] == t[i];
      SumChange(f, s[1..], t[1..], i - 1);
    }
  }

  // ---------- measuring what is to be done ----------

  /** What is still to be done about a message, by where it is; and about the notices that are pending. */
  datatype Meter = Meter(
    frame: Tracked<Frame> -> nat,
    command: Tracked<ServiceCommand> -> nat,
    inHand: Tracked<Packet> -> nat,
    queued: Tracked<WriteCommand> -> nat,
    pending: multiset<Notice> -> nat)

  ghost function NodeLoad(r: Meter, n: Node): nat
  {
    Sum(r.command, n.inbox) + r.pending(n.pending) + if n.sending.Some? then r.inHand(n.sending.value.1) else 0
  }

  ghost function EndLoad(r: Meter, x: End): nat
  {
    if InOrder(x) then Sum(r.queued, x.queue.log[x.queue.taken..]) + Sum(r.frame, x.wire.log[x.wire.taken..]) else 0
  }

  ghost function NodesLoad(r: Meter, nodes: seq<Node>): nat { Sum(n => NodeLoad(r, n), nodes) }
  ghost function EndsLoad(r: Meter, ends: seq<End>): nat { Sum(x => EndLoad(r, x), ends) }
  ghost function Load(r: Meter, net: Net): nat { NodesLoad(r, net.nodes) + EndsLoad(r, net.ends) }

  lemma QueuePutLoad(r: Meter, x: End, c: Tracked<WriteCommand>)
    requires InOrder(x)
    ensures EndLoad(r, x.(queue := Put(x.queue, c))) == EndLoad(r, x) + r.queued(c)
  {
    assert Put(x.queue, c).log[x.queue.taken..] == x.queue.log[x.queue.taken..] + [c];
    SumSnoc(r.queued, x.queue.log[x.queue.taken..], c);
  }

  lemma WirePutLoad(r: Meter, x: End, f: Tracked<Frame>)
    requires InOrder(x)
    ensures EndLoad(r, x.(wire := Put(x.wire, f))) == EndLoad(r, x) + r.frame(f)
  {
    assert Put(x.wire, f).log[x.wire.taken..] == x.wire.log[x.wire.taken..] + [f];
    SumSnoc(r.frame, x.wire.log[x.wire.taken..], f);
  }

  lemma QueueTakenLoad(r: Meter, x: End)
    requires InOrder(x) && Ready(x.queue)
    ensures EndLoad(r, x.(queue := x.queue.(taken := x.queue.taken + 1))) + r.queued(Next(x.queue)) == EndLoad(r, x)
  {
    SumFirst(r.queued, x.queue.log, x.queue.taken);
  }

  lemma WireTakenLoad(r: Meter, x: End)
    requires InOrder(x) && Ready(x.wire)
    ensures EndLoad(r, x.(wire := x.wire.(taken := x.wire.taken + 1))) + r.frame(Next(x.wire)) == EndLoad(r, x)
  {
    SumFirst(r.frame, x.wire.log, x.wire.taken);
  }

  lemma NodeChanges(r: Meter, net: Net, net': Net, s: nat, e: nat)
    requires Differ(net, net', s, e) && s < |net.nodes|
    ensures NodesLoad(r, net'.nodes) + NodeLoad(r, net.nodes[s]) == NodesLoad(r, net.nodes) + NodeLoad(r, net'.nodes[s])
  {
    SumChange(n => NodeLoad(r, n), net.nodes, net'.nodes, s);
  }

  lemma EndChanges(r: Meter, net: Net, net': Net, s: nat, e: nat)
    requires Differ(net, net', s, e) && e < |net.ends|
    ensures EndsLoad(r, net'.ends) + EndLoad(r, net.ends[e]) == EndsLoad(r, net.ends) + EndLoad(r, net'.ends[e])
  {
    SumChange(x => EndLoad(r, x), net.ends, net'.ends, e);
  }

  // ---------- how each move changes it ----------

  /** The command that the next frame becomes, if it becomes one. */
  ghost function ReadAs(net: Net, e: nat): Option<Tracked<ServiceCommand>>
    requires CanRead(net, e)
  {
    var f := Next(net.ends[net.ends[e].peer].wire);
    match ReadsNext(net, e)
    case Command(c) => Some(Tracked(c, f.hops, f.id))
    case _ => None
  }

  lemma ReadLoad(r: Meter, net: Net, net': Net, e: nat)
    requires CanRead(net, e) && ReadEffect(net, net', e) && InOrder(net.ends[net.ends[e].peer])
    ensures Load(r, net') + r.frame(Next(net.ends[net.ends[e].peer].wire)) ==
            Load(r, net) + if ReadAs(net, e).Some? then r.command(ReadAs(net, e).value) else 0
  {
    var s, y := net.ends[e].owner, net.ends[e].peer;
    NodeChanges(r, net, net', s, y);
    EndChanges(r, net, net', s, y);
    WireTakenLoad(r, net.ends[y]);
    if ReadAs(net, e).Some? { SumSnoc(r.command, net.nodes[s].inbox, ReadAs(net, e).value); }
  }

  lemma HandleLoad(r: Meter, net: Net, net': Net, s: nat)
    requires CanHandle(net, s) && HandleEffect(net, net', s)
    ensures Load(r, net') + r.command(net.nodes[s].inbox[0]) + r.pending(net.nodes[s].pending) ==
            Load(r, net) + r.pending(net'.nodes[s].pending)
            + if LookedUp(net.nodes[s], s).Some? then r.inHand(LookedUp(net.nodes[s], s).value.1) else 0
  {
    var n := net.nodes[s];
    NodeChanges(r, net, net', s, |net.ends|);
    assert n.inbox[0..] == n.inbox;
    SumFirst(r.command, n.inbox, 0);
  }

  lemma HandLoad(r: Meter, net: Net, net': Net, s: nat)
    requires CanHand(net, s) && HandEffect(net, net', s) && InOrder(net.ends[net.nodes[s].sending.value.0])
    ensures var item := net.nodes[s].sending.value.1;
            Load(r, net') + r.inHand(item) <= Load(r, net) + r.queued(Tracked(Transmit(item.body), item.hops, item.id))
  {
    var e, item := net.nodes[s].sending.value.0, net.nodes[s].sending.value.1;
    NodeChanges(r, net, net', s, e);
    EndChanges(r, net, net', s, e);
    QueuePutLoad(r, net.ends[e], Tracked(Transmit(item.body), item.hops, item.id));
  }

  lemma InformLoad(r: Meter, net: Net, net': Net, s: nat, notice: Notice)
    requires CanInform(net, s, notice) && net' == Tick(DoInform(net, s, notice)) && InOrder(net.ends[notice.0])
    ensures var pending := net.nodes[s].pending;
            Load(r, net') + r.pending(pending) <=
            Load(r, net) + r.pending(pending - multiset{notice}) + r.queued(Tracked(Notify(notice.1), [], NO_ID))
  {
    var e := notice.0;
    NodeChanges(r, net, net', s, e);
    EndChanges(r, net, net', s, e);
    QueuePutLoad(r, net.ends[e], Tracked(Notify(notice.1), [], NO_ID));
  }

  lemma WriteLoad(r: Meter, net: Net, net': Net, e: nat)
    requires CanWrite(net, e) && WriteEffect(net, net', e) && InOrder(net.ends[e])
    ensures var x, c := net.ends[e], Next(net.ends[e].queue);
            Load(r, net') + r.queued(c) ==
            Load(r, net) + if WritesNext(x).Emit? then r.frame(Tracked(WritesNext(x).frame, c.hops, c.id)) else 0
  {
    var x, c := net.ends[e], Next(net.ends[e].queue);
    EndChanges(r, net, net', |net.nodes|, e);
    QueueTakenLoad(r, x);
    if WritesNext(x).Emit? {
      WirePutLoad(r, x.(queue := x.queue.(taken := x.queue.taken + 1)), Tracked(WritesNext(x).frame, c.hops, c.id));
    }
  }

  // ---------- two meters ----------

  /** Subscriptions that have not been handled. */
  function Subscriptions(): Meter
  {
    Meter((f: Tracked<Frame>) => if f.body.Watch? then 2 else 0,
          (c: Tracked<ServiceCommand>) => if c.body.Subscribe? then 1 else 0,
          _ => 0, _ => 0, _ => 0)
  }

  /** Steps that a packet may still take after `hops`, there being `n` nodes: four at each. */
  function Ahead(n: nat, hops: seq<nat>): nat { if |hops| <= n then 4 * (n - |hops|) else 0 }

  /** Steps that packets and announcements may still take. */
  function Journeys(n: nat): Meter
  {
    Meter((f: Tracked<Frame>) =>
            match f.body
            case Send(_, _) => Ahead(n, f.hops) + 5
            case Forward(_, _, _) => Ahead(n, f.hops) + 5
            case Announce(_) => 2
            case _ => 0,
          (c: Tracked<ServiceCommand>) =>
            match c.body
            case Route(_) => Ahead(n, c.hops) + 4
            case PeerPresent(_, _) => 1
            case _ => 0,
          (p: Tracked<Packet>) => Ahead(n, p.hops) + 7,
          (c: Tracked<WriteCommand>) => if c.body.Transmit? then Ahead(n, c.hops) + 6 else 3,
          (pending: multiset<Notice>) => 4 * |pending|)
  }

  /** Fewer subscriptions are to be handled; or as many, and fewer steps are to be taken. */
  ghost predicate Progress(net: Net, net': Net)
  {
    var subs, subs' := Load(Subscriptions(), net), Load(Subscriptions(), net');
    && |net'.nodes| == |net.nodes|
    && (subs' < subs
        || (subs' == subs && Load(Journeys(|net.nodes|), net') < Load(Journeys(|net.nodes|), net)))
  }

  lemma ReadProgresses(net: Net, net': Net, e: nat)
    requires Inv(net) && CanRead(net, e) && ReadEffect(net, net', e)
    ensures Progress(net, net')
  {
    EndFacts(net, net.ends[e].peer);
    ReadLoad(Subscriptions(), net, net', e);
    ReadLoad(Journeys(|net.nodes|), net, net', e);
  }

  lemma HandleProgresses(net: Net, net': Net, s: nat)
    requires Inv(net) && CanHandle(net, s) && HandleEffect(net, net', s)
    ensures Progress(net, net')
  {
    HandleLoad(Subscriptions(), net, net', s);
    HandleLoad(Journeys(|net.nodes|), net, net', s);
    assert NodeOk(net, s, net.nodes[s]) && CommandOk(net, s, net.nodes[s].inbox[0]);
    if net.nodes[s].inbox[0].body.Route? { InboxNeverReturns(net, s, 0); }
  }

  lemma HandProgresses(net: Net, net': Net, s: nat)
    requires Inv(net) && CanHand(net, s) && HandEffect(net, net', s)
    ensures Progress(net, net')
  {
    NodeFacts(net, s);
    HandLoad(Subscriptions(), net, net', s);
    HandLoad(Journeys(|net.nodes|), net, net', s);
  }

  lemma InformProgresses(net: Net, s: nat, notice: Notice)
    requires Inv(net) && CanInform(net, s, notice)
    ensures Progress(net, Tick(DoInform(net, s, notice)))
  {
    NodeFacts(net, s);
    InformLoad(Subscriptions(), net, Tick(DoInform(net, s, notice)), s, notice);
    InformLoad(Journeys(|net.nodes|), net, Tick(DoInform(net, s, notice)), s, notice);
  }

  lemma WriteProgresses(net: Net, net': Net, e: nat)
    requires Inv(net) && CanWrite(net, e) && WriteEffect(net, net', e)
    ensures Progress(net, net')
  {
    EndFacts(net, e);
    WriteLoad(Subscriptions(), net, net', e);
    WriteLoad(Journeys(|net.nodes|), net, net', e);
  }

  // ---------- rest ----------

  /** The turns of the loops and of the notification tasks: what happens without anything new from outside. */
  predicate IsWork(m: Move) { m.Read? || m.Handle? || m.Hand? || m.Inform? || m.Write? }

  /** All the work brings rest nearer. */
  lemma WorkProgresses(net: Net, m: Move)
    requires Inv(net) && Enabled(net, m) && IsWork(m)
    ensures Progress(net, After(net, m))
  {
    match m
    case Read(e) =>
      ReadHasEffect(net, e);
      ReadProgresses(net, After(net, m), e);
    case Handle(s) =>
      HandleHasEffect(net, s);
      HandleProgresses(net, After(net, m), s);
    case Hand(s) =>
      HandHasEffect(net, s);
      HandProgresses(net, After(net, m), s);
    case Inform(s, n) => InformProgresses(net, s, n);
    case Write(e) =>
      WriteHasEffect(net, e);
      WriteProgresses(net, After(net, m), e);
  }

  ghost predicate Works(net: Net, net': Net)
  {
    exists m :: IsWork(m) && Enabled(net, m) && net' == After(net, m)
  }

  lemma WorksProgresses(net: Net, net': Net)
    requires Inv(net) && Works(net, net')
    ensures Inv(net') && Follows(net, net') && Progress(net, net')
  {
    var m :| IsWork(m) && Enabled(net, m) && net' == After(net, m);
    MoveKeeps(net, m);
    WorkProgresses(net, m);
  }

  /** A step after which `inv` holds, and `a` is smaller, or `a` is as it was and `b` is smaller. */
  ghost predicate Falls<T>(inv: T -> bool, a: T -> nat, b: T -> nat, x: T, y: T)
  {
    inv(y) && (a(y) < a(x) || (a(y) == a(x) && b(y) < b(x)))
  }

  lemma {:induction false} FallsEnd<T(!new)>(step: (T, T) -> bool, inv: T -> bool, a: T -> nat, b: T -> nat,
                                             f: nat -> T, i: nat) returns (j: nat)
    requires inv(f(i)) && forall x, y | inv(x) && step(x, y) :: Falls(inv, a, b, x, y)
    ensures i <= j && !step(f(j), f(j + 1))
    decreases a(f(i)), b(f(i))
  {
    j := i;
    if step(f(i), f(i + 1)) {
      assert Falls(inv, a, b, f(i), f(i + 1));
      j := FallsEnd(step, inv, a, b, f, i + 1);
    }
  }

  ghost predicate IsChain<T(!new)>(step: (T, T) -> bool, chain: seq<T>)
  {
    chain != [] && forall i | 0 <= i < |chain| - 1 :: step(chain[i], chain[i + 1])
  }

  ghost predicate IsLast<T(!new)>(step: (T, T) -> bool, x: T) { forall y :: !step(x, y) }

  lemma {:induction false} FallsToAnEnd<T(!new)>(step: (T, T) -> bool, inv: T -> bool, a: T -> nat, b: T -> nat, x: T)
    returns (chain: seq<T>)
    requires inv(x) && forall x, y | inv(x) && step(x, y) :: Falls(inv, a, b, x, y)
    ensures IsChain(step, chain) && chain[0] == x && IsLast(step, chain[|chain| - 1])
    decreases a(x), b(x)
  {
    chain := [x];
    if y :| step(x, y) {
      assert Falls(inv, a, b, x, y);
      var rest := FallsToAnEnd(step, inv, a, b, y);
      chain := [x] + rest;
      forall i | 0 <= i < |chain| - 1 ensures step(chain[i], chain[i + 1]) {
        if i > 0 { assert chain[i] == rest[i - 1] && chain[i + 1] == rest[i - 1 + 1]; }
      }
    }
  }

  ghost function SubscriptionsLeft(net: Net): nat { Load(Subscriptions(), net) }
  ghost function JourneysLeft(net: Net): nat { Load(Journeys(|net.nodes|), net) }

  lemma WorkFalls()
    ensures forall x, y | Inv(x) && Works(x, y) :: Falls(Inv, SubscriptionsLeft, JourneysLeft, x, y)
  {
    forall x, y | Inv(x) && Works(x, y) ensures Falls(Inv, SubscriptionsLeft, JourneysLeft, x, y) {
      WorksProgresses(x, y);
    }
  }

  /** No schedule keeps the services at work for ever: in any endless sequence of states, some step is no work. */
  lemma WorkEnds(states: nat -> Net, i: nat) returns (j: nat)
    requires Inv(states(i))
    ensures i <= j && !Works(states(j), states(j + 1))
  {
    WorkFalls();
    j := FallsEnd(Works, Inv, SubscriptionsLeft, JourneysLeft, states, i);
  }

  ghost predicate AtRest(net: Net)
  {
    forall m | IsWork(m) :: !Enabled(net, m)
  }

  lemma NoWorkLeft(net: Net)
    requires IsLast(Works, net)
    ensures AtRest(net)
  {
    forall m | IsWork(m) ensures !Enabled(net, m) {
      if Enabled(net, m) { assert Works(net, After(net, m)); }
    }
  }

  /** From every state of every run, work alone leads to a state at rest. */
  lemma ComesToRest(run: seq<Net>) returns (rest: seq<Net>)
    requires IsRun(run)
    ensures IsChain(Works, rest) && rest[0] == run[|run| - 1] && AtRest(rest[|rest| - 1])
    ensures IsRun(run + rest[1..])
  {
    RunKeeps(run, |run| - 1);
    WorkFalls();
    rest := FallsToAnEnd(Works, Inv, SubscriptionsLeft, JourneysLeft, run[|run| - 1]);
    NoWorkLeft(rest[|rest| - 1]);
    Continues(run, rest, |rest| - 1);
    assert rest[1..] == rest[1..|rest| - 1 + 1];
  }

  lemma {:induction false} Continues(run: seq<Net>, rest: seq<Net>, n: nat)
    requires IsRun(run) && IsChain(Works, rest) && rest[0] == run[|run| - 1] && n < |rest|
    ensures IsRun(run + rest[1..n + 1])
  {
    if n == 0 {
      assert run + rest[1..1] == run;
    } else {
      Continues(run, rest, n - 1);
      var so := run + rest[1..n];
      assert so[|so| - 1] == rest[n - 1] && Works(rest[n - 1], rest[n - 1 + 1]);
      Extends(so, rest[n]);
      assert run + rest[1..n + 1] == so + [rest[n]];
    }
  }

  lemma Extends(run: seq<Net>, net: Net)
    requires IsRun(run) && Works(run[|run| - 1], net)
    ensures IsRun(run + [net])
  {
    var run' := run + [net];
    forall i | 0 <= i < |run'| - 1 ensures Follows(run'[i], run'[i + 1]) {
      if i < |run| - 1 { assert Follows(run[i], run[i + 1]); }
    }
  }

  // ---------- what holds at rest ----------

  lemma RestingNode(net: Net, s: nat)
    requires Inv(net) && AtRest(net) && s < |net.nodes|
    ensures net.nodes[s].pending == multiset{}
    ensures net.nodes[s].running ==> net.nodes[s].sending.None? && net.nodes[s].inbox == []
  {
    NodeFacts(net, s);
    forall a ensures a !in net.nodes[s].pending { assert IsWork(Inform(s, a)); }
    assert IsWork(Hand(s)) && IsWork(Move.Handle(s));
  }

  lemma RestingEnd(net: Net, e: nat)
    requires Inv(net) && AtRest(net) && e < |net.ends|
    ensures !net.ends[e].role.Remote? && !net.ends[e].closed ==> net.ends[e].queue.taken == |net.ends[e].queue.log|
    ensures !CanRead(net, e)
  {
    EndFacts(net, e);
    assert IsWork(Write(e)) && IsWork(Read(e));
  }

  /** The first unread frame, if the node at the other side could read it, would be read. */
  lemma RestingWire(net: Net, e: nat)
    requires Inv(net) && Paired(net) && AtRest(net) && e < |net.ends|
    ensures Crossing(Sides(net)[e]) == multiset{}
  {
    var x := net.ends[e];
    var log := Unread(x);
    EndFacts(net, e);
    EndFacts(net, x.peer);
    RestingEnd(net, x.peer);
    if SideOf(net, x).far.Dialling? && SideOf(net, x).heard && log != [] {
      assert log[0] == Next(x.wire);
      assert Audible(log) == 0;
    }
  }

  /** At rest, no packet is under way. */
  lemma RestIsQuiet(net: Net)
    requires Inv(net) && AtRest(net)
    ensures O.Quiet(net)
  {
    ArePaired(net);
    var sides := Sides(net);
    forall s | 0 <= s < |net.nodes| ensures Held(net.nodes[s]) == multiset{} {
      RestingNode(net, s);
    }
    forall e | 0 <= e < |sides| ensures Queued(sides[e]) == multiset{} && Crossing(sides[e]) == multiset{} {
      RestingEnd(net, e);
      RestingWire(net, e);
    }
    O.CollectNothing(Held, net.nodes);
    O.CollectNothing(Queued, sides);
    O.CollectNothing(Crossing, sides);
  }

  /** The write loop of `e` runs; the other side is registered, runs, and can read on. */
  ghost predicate Healthy(net: Net, e: nat)
    requires e < |net.ends| && net.ends[e].peer < |net.ends|
  {
    var x := net.ends[e];
    var y := net.ends[x.peer];
    && !x.closed && y.live && y.peer == e && y.owner < |net.nodes| && net.nodes[y.owner].running
    && (Ready(x.wire) ==> !ReadsNext(net, x.peer).Broken?)
  }

  lemma RestIsSettled(net: Net, s: nat, e: nat)
    requires Inv(net) && AtRest(net) && s < |net.nodes| && e < |net.ends| && !net.ends[e].role.Remote?
    requires net.ends[e].failed != {} ==> net.ends[e].closed
    ensures net.ends[e].peer < |net.ends| && (Healthy(net, e) ==> Settled(net, s, e))
  {
    EndFacts(net, e);
    RestingNode(net, s);
    RestingEnd(net, e);
    RestingEnd(net, net.ends[e].peer);
    if Healthy(net, e) { RestingNode(net, net.ends[net.ends[e].peer].owner); }
  }

  /** At rest, the service at the far end of a healthy link knows every client registered here, the mesh aside. */
  lemma RestingMeshKnows(run: seq<Net>, i: nat, s: nat, m: PublicKey, c: nat, k: PublicKey)
    requires IsRun(run) && i < |run| && AtRest(run[i]) && s < |run[i].nodes|
    requires m in run[i].nodes[s].tables.mesh && IsClient(run[i], s, c, k) && k !in run[i].nodes[s].tables.mesh
    ensures var net, e := run[i], run[i].nodes[s].tables.mesh[m];
            && e < |net.ends| && net.ends[e].peer < |net.ends|
            && (Healthy(net, e) ==>
                  var t := net.ends[net.ends[e].peer].owner;
                  t < |net.nodes| && k in net.nodes[t].tables.peers)
  {
    RunKeeps(run, i);
    MeshConverges(run, i, s, m, c, k);
    var e := run[i].nodes[s].tables.mesh[m];
    assert NodeOk(run[i], s, run[i].nodes[s]) && MemberOk(run[i], s, run[i].nodes[s], m);
    RefusedOnlyIfClosed(run, i, e);
    RestIsSettled(run[i], s, e);
    EndFacts(run[i], run[i].ends[e].peer);
  }

  /** So once all has come to rest, all packets have reached their clients exactly if all moves were good. */
  lemma RestingDeliveredIff(run: seq<Net>, moves: seq<Move>, i: nat)
    requires Makes(moves, run) && i < |run| && AtRest(run[i])
    ensures Paired(run[i])
    ensures Delivered(run[i]) == Entered(run[i]) <==> forall k | 0 <= k < i :: O.GoodMove(run[k], moves[k])
  {
    MakesRun(moves, run);
    RunKeeps(run, i);
    RestIsQuiet(run[i]);
    O.AllDeliveredIff(run, moves, i);
  }
}
