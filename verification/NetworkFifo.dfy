/** Packets that one client sends to one key overtake each other nowhere, whatever way they take. */
module NetworkFifo {
  import opened Bytes
  import opened Routing
  import opened Links
  import opened Network
  import opened NetworkEffects
  import opened NetworkInvariants
  import opened NetworkMoves
  import opened NetworkGrowth
  import opened NetworkHistory
  import opened NetworkClaims
  import opened NetworkTheorems
  import opened NetworkFates
  import opened NetworkTrails

  // ---------- order ----------

  /** What is further along was sent earlier than what is still to go on. */
  ghost predicate Behind(net: Net, a: Place, b: Place)
  {
    MarkAt(net, a).Some? && MarkAt(net, b).Some? && Live(net, a) && Kin(MarkAt(net, a).value, MarkAt(net, b).value)
    && Rank(a, |MarkAt(net, a).value.hops|) < Rank(b, |MarkAt(net, b).value.hops|) ==>
      MarkAt(net, b).value.id.number < MarkAt(net, a).value.id.number
  }

  /** What comes earlier in a box was sent earlier. */
  ghost predicate InTurn(net: Net, a: Place, b: Place)
  {
    MarkAt(net, a).Some? && MarkAt(net, b).Some? && Kin(MarkAt(net, a).value, MarkAt(net, b).value) && Before(a, b) ==>
      MarkAt(net, a).value.id.number < MarkAt(net, b).value.id.number
  }

  ghost predicate Ordered(net: Net)
  {
    forall a, b {:trigger MarkAt(net, a), MarkAt(net, b)} :: Behind(net, a, b) && InTurn(net, a, b)
  }

  // ---------- what a move does to places ----------

  /** Place `a` of the new state is place `b` of the old one. */
  ghost predicate Same(net: Net, net': Net, a: Place, b: Place)
    requires MarkAt(net', a).Some?
  {
    MarkAt(net, b) == MarkAt(net', a) && SameBox(a, b) && (a.OnClient? ==> a == b) && (Live(net', a) ==> Live(net, b))
  }

  /** All places of the new state but `new_` come from old places, their order in boxes kept. */
  ghost predicate Moved(net: Net, net': Net, new_: Option<Place>, was: Place -> Place)
  {
    && (forall a {:trigger MarkAt(net', a)} | MarkAt(net', a).Some? && Some(a) != new_ :: Same(net, net', a, was(a)))
    && (forall a, b {:trigger Before(a, b)} | Before(a, b) :: Before(was(a), was(b)))
  }

  /** `p` is first among those that have come as far, and goes on to be `n`, last in its box. */
  ghost predicate GoesOn(net: Net, net': Net, p: Place, n: Place)
  {
    && MarkAt(net, p).Some? && MarkAt(net', n).Some? && Live(net, p)
    && var m, m' := MarkAt(net, p).value, MarkAt(net', n).value;
       && m'.id == m.id && m'.packet == m.packet && Rank(n, |m'.hops|) == Rank(p, |m.hops|) + 1
       && (forall a {:trigger MarkAt(net, a)} |
             MarkAt(net, a).Some? && Live(net, a) && a != p && Kin(MarkAt(net, a).value, m)
             && Rank(a, |MarkAt(net, a).value.hops|) == Rank(p, |m.hops|) ::
                m.id.number < MarkAt(net, a).value.id.number)
       && (forall b {:trigger MarkAt(net', b)} |
             MarkAt(net', b).Some? && b != n && Kin(MarkAt(net', b).value, m) && SameBox(b, n) ::
             Before(b, n) && Rank(b, |MarkAt(net', b).value.hops|) == Rank(n, |m'.hops|))
  }

  lemma ShiftKeepsOrder(net: Net, net': Net, was: Place -> Place)
    requires Ordered(net) && Moved(net, net', None, was)
    ensures Ordered(net')
  {
    forall a, b ensures Behind(net', a, b) && InTurn(net', a, b) {
      if MarkAt(net', a).Some? && MarkAt(net', b).Some? { OldPairKeepsOrder(net, net', a, b, was(a), was(b)); }
    }
  }

  lemma OldPairKeepsOrder(net: Net, net': Net, a: Place, b: Place, x: Place, y: Place)
    requires Ordered(net) && MarkAt(net', a).Some? && MarkAt(net', b).Some? && Same(net, net', a, x)
        && Same(net, net', b, y)
    requires Before(a, b) ==> Before(x, y)
    ensures Behind(net', a, b) && InTurn(net', a, b)
  {
    assert Behind(net, x, y) && InTurn(net, x, y);
  }

  /** A packet goes on by one: behind it is what was behind it, and what was with it. */
  lemma GoingKeepsOrder(net: Net, net': Net, p: Place, n: Place, was: Place -> Place)
    requires Ordered(net) && Moved(net, net', Some(n), was) && GoesOn(net, net', p, n)
    requires forall a {:trigger MarkAt(net', a)} | MarkAt(net', a).Some? && a != n && Live(net', a) :: was(a) != p
    ensures Ordered(net')
  {
    forall a, b ensures Behind(net', a, b) && InTurn(net', a, b) {
      if MarkAt(net', a).Some? && MarkAt(net', b).Some? {
        if a != n && b != n {
          OldPairKeepsOrder(net, net', a, b, was(a), was(b));
        } else if a == n && b != n {
          NewBehindOld(net, net', p, n, b, was(b));
        } else if b == n && a != n {
          OldBehindNew(net, net', p, n, a, was(a));
        }
      }
    }
  }

  lemma NewBehindOld(net: Net, net': Net, p: Place, n: Place, b: Place, y: Place)
    requires Ordered(net) && GoesOn(net, net', p, n) && b != n && MarkAt(net', b).Some? && Same(net, net', b, y)
    ensures Behind(net', n, b) && InTurn(net', n, b)
  {
    assert Behind(net, p, y);
  }

  lemma OldBehindNew(net: Net, net': Net, p: Place, n: Place, a: Place, x: Place)
    requires Ordered(net) && GoesOn(net, net', p, n) && a != n && MarkAt(net', a).Some? && Same(net, net', a, x)
    requires Live(net', a) ==> x != p
    ensures Behind(net', a, n) && InTurn(net', a, n)
  {
    assert Behind(net, x, p) && Behind(net, p, x);
  }

  // ---------- trails ----------

  ghost predicate Refines(L: Ways, L': Ways)
  {
    forall v, t | L(v, t).Some? :: L'(v, t) == L(v, t)
  }

  lemma TrailStays(net: Net, net': Net, L: Ways, L': Ways, c: nat, t: PublicKey, h: seq<nat>)
    requires EndsGrow(net, net') && Refines(L, L') && IsTrail(net, L, c, t, h)
    ensures IsTrail(net', L', c, t, h)
  {
    forall k | 0 <= k < |h| - 1 ensures IsHop(net', L', t, h[k], h[k + 1]) {
      assert IsHop(net, L, t, h[k], h[k + 1]);
    }
  }

  lemma OnTrailStays(net: Net, net': Net, L: Ways, L': Ways, a: Place, b: Place, m: Mark)
    requires EndsGrow(net, net') && Refines(L, L') && OnTrail(net, L, b, m) && SameBox(a, b) && (a.OnClient? ==> a == b)
    ensures OnTrail(net', L', a, m)
  {
    TrailStays(net, net', L, L', m.id.client, m.packet.target, Trail(b, m.hops));
  }

  lemma TrailsStay(net: Net, net': Net, L: Ways, L': Ways, new_: Option<Place>, was: Place -> Place)
    requires EndsGrow(net, net') && Refines(L, L') && AllOnTrail(net, L) && Moved(net, net', new_, was)
    requires new_.Some? ==> PlaceOk(net', L', new_.value)
    ensures AllOnTrail(net', L')
  {
    forall a ensures PlaceOk(net', L', a) {
      if MarkAt(net', a).Some? && Some(a) != new_ {
        assert PlaceOk(net, L, was(a));
        OnTrailStays(net, net', L, L', a, was(a), MarkAt(net', a).value);
      }
    }
  }

  /** The first in its box is first of all that have come as far; the last in its box follows only such. */
  lemma FirstGoesOn(net: Net, net': Net, L: Ways, L': Ways, p: Place, n: Place)
    requires Ordered(net) && AllOnTrail(net, L) && AllOnTrail(net', L')
    requires MarkAt(net, p).Some? && MarkAt(net', n).Some? && Live(net, p)
    requires var m, m' := MarkAt(net, p).value, MarkAt(net', n).value;
             m'.id == m.id && m'.packet == m.packet && Rank(n, |m'.hops|) == Rank(p, |m.hops|) + 1
    requires forall a {:trigger MarkAt(net, a)} | MarkAt(net, a).Some? && Live(net, a) && a != p && SameBox(p, a) ::
        Before(p, a)
    requires forall b {:trigger MarkAt(net', b)} | MarkAt(net', b).Some? && b != n && SameBox(b, n) :: Before(b, n)
    ensures GoesOn(net, net', p, n)
  {
    var m, m' := MarkAt(net, p).value, MarkAt(net', n).value;
    assert PlaceOk(net, L, p) && PlaceOk(net', L', n);
    forall a | MarkAt(net, a).Some? && Live(net, a) && a != p && Kin(MarkAt(net, a).value, m)
               && Rank(a, |MarkAt(net, a).value.hops|) == Rank(p, |m.hops|)
      ensures m.id.number < MarkAt(net, a).value.id.number
    {
      assert PlaceOk(net, L, a);
      SameRankSameBox(net, L, p, a, m, MarkAt(net, a).value);
      assert InTurn(net, p, a);
    }
    forall b | MarkAt(net', b).Some? && b != n && Kin(MarkAt(net', b).value, m) && SameBox(b, n)
      ensures Rank(b, |MarkAt(net', b).value.hops|) == Rank(n, |m'.hops|)
    {
      assert PlaceOk(net', L', b);
      SameBoxSameRank(net', L', b, n, MarkAt(net', b).value, m');
    }
  }

  ghost predicate Orderly(net: Net, L: Ways) { Ordered(net) && AllOnTrail(net, L) }

  /** Nothing that is followed goes on. */
  lemma Shifts(net: Net, net': Net, L: Ways, L': Ways, was: Place -> Place)
    requires Orderly(net, L) && EndsGrow(net, net') && Refines(L, L') && Moved(net, net', None, was)
    ensures Orderly(net', L')
  {
    TrailsStay(net, net', L, L', None, was);
    ShiftKeepsOrder(net, net', was);
  }

  /** The first in the box of `p` goes on to the end of the box of `n`. */
  ghost predicate Steps(net: Net, net': Net, p: Place, n: Place)
  {
    && MarkAt(net, p).Some? && MarkAt(net', n).Some? && Live(net, p)
    && (var m, m' := MarkAt(net, p).value, MarkAt(net', n).value;
        m'.id == m.id && m'.packet == m.packet && Rank(n, |m'.hops|) == Rank(p, |m.hops|) + 1)
    && (forall a {:trigger MarkAt(net, a)} | MarkAt(net, a).Some? && Live(net, a) && a != p && SameBox(p, a) ::
       Before(p, a))
    && (forall b {:trigger MarkAt(net', b)} | MarkAt(net', b).Some? && b != n && SameBox(b, n) :: Before(b, n))
  }

  lemma Advances(net: Net, net': Net, L: Ways, L': Ways, p: Place, n: Place, was: Place -> Place)
    requires Orderly(net, L) && EndsGrow(net, net') && Refines(L, L') && Moved(net, net', Some(n), was)
    requires Steps(net, net', p, n) && PlaceOk(net', L', n)
    requires forall a {:trigger MarkAt(net', a)} | MarkAt(net', a).Some? && a != n && Live(net', a) :: was(a) != p
    ensures Orderly(net', L')
  {
    TrailsStay(net, net', L, L', Some(n), was);
    FirstGoesOn(net, net', L, L', p, n);
    GoingKeepsOrder(net, net', p, n, was);
  }

  // ---------- moves ----------

  /** Moves that take no packet on. */
  predicate IsIdle(net: Net, m: Move)
  {
    match m
    case Say(e, f) => !f.Send?
    case Read(_) => false
    case Handle(_) => false
    case Hand(_) => false
    case Write(_) => false
    case _ => true
  }

  /** No packet is put into or taken from the end. */
  ghost predicate QuietEnd(x: End, x': End)
  {
    && x'.role == x.role && x'.queue.taken == x.queue.taken && x'.wire.taken == x.wire.taken
    && (x'.queue.log == x.queue.log || exists c: Tracked<WriteCommand> ::
                c.body.Notify? && x'.queue.log == x.queue.log + [c])
    && (x'.wire.log == x.wire.log || (!x.role.Accepting? && exists f: Tracked<Frame> ::
                !f.body.Send? && x'.wire.log == x.wire.log + [f]))
  }

  lemma QuietQueue(x: End, x': End, k: nat)
    requires QuietEnd(x, x')
    ensures QueuedAt(x'.queue.log, k) == QueuedAt(x.queue.log, k)
        && (x.role.Remote? ==> SaidAt(x.role.key, x'.wire.log, k) == SaidAt(x.role.key, x.wire.log, k))
    ensures x.role.Accepting? ==> ForwardedAt(x'.wire.log, k) == ForwardedAt(x.wire.log, k)
  {}

  ghost predicate AllQuiet(net: Net, net': Net)
  {
    && |net'.nodes| == |net.nodes| && |net.ends| <= |net'.ends|
    && (forall s {:trigger net'.nodes[s]} | 0 <= s < |net.nodes| ::
         net'.nodes[s].inbox == net.nodes[s].inbox && net'.nodes[s].sending == net.nodes[s].sending)
    && (forall e {:trigger net'.ends[e]} | 0 <= e < |net.ends| :: QuietEnd(net.ends[e], net'.ends[e]))
    && (forall e {:trigger net'.ends[e]} | |net.ends| <= e < |net'.ends| ::
         net'.ends[e].queue.log == [] && net'.ends[e].wire.log == [])
  }

  lemma QuietPlace(net: Net, net': Net, a: Place)
    requires AllQuiet(net, net') && MarkAt(net', a).Some?
    ensures Same(net, net', a, a)
  {
    if a.OnClient? || a.InQueue? || a.OnWire? {
      if a.e < |net.ends| { QuietQueue(net.ends[a.e], net'.ends[a.e], a.k); }
    }
  }

  lemma QuietMoves(net: Net, net': Net)
    requires AllQuiet(net, net')
    ensures Moved(net, net', None, a => a)
  {
    forall a | MarkAt(net', a).Some? ensures Same(net, net', a, a) { QuietPlace(net, net', a); }
  }

  lemma SayIsIdle(net: Net, e: nat, f: Frame)
    requires CanSay(net, e, f) && !f.Send?
    ensures AllQuiet(net, Tick(DoSay(net, e, f)))
  {
    var log, log' := net.ends[e].wire.log, Tick(DoSay(net, e, f)).ends[e].wire.log;
    assert log' == log + [Tracked(f, [], Id(e, |log|))];
  }

  lemma InformIsIdle(net: Net, s: nat, notice: Notice)
    requires CanInform(net, s, notice)
    ensures AllQuiet(net, Tick(DoInform(net, s, notice)))
  {
    var e := notice.0;
    var log, log' := net.ends[e].queue.log, Tick(DoInform(net, s, notice)).ends[e].queue.log;
    assert net.ends[e].closed || log' == log + [Tracked(Notify(notice.1), [], NO_ID)];
  }

  lemma IdleMoves(net: Net, m: Move)
    requires Enabled(net, m) && IsIdle(net, m)
    ensures AllQuiet(net, After(net, m))
  {
    match m
    case Say(e, f) => SayIsIdle(net, e, f);
    case Inform(s, notice) => InformIsIdle(net, s, notice);
    case _ =>
  }

  // ---------- reading ----------

  /** The next frame on the wire of `y`, and where its packet goes. */
  function NextOnWire(net: Net, y: nat): Place
    requires y < |net.ends|
  {
    if net.ends[y].role.Remote? then OnClient(y, net.ends[y].wire.taken) else OnWire(y, net.ends[y].wire.taken)
  }

  predicate ReadsPacket(net: Net, e: nat)
    requires CanRead(net, e)
  {
    ReadsNext(net, e).Command? && ReadsNext(net, e).command.Route?
  }

  lemma ReadPlace(net: Net, net': Net, e: nat, a: Place)
    requires CanRead(net, e) && ReadEffect(net, net', e) && MarkAt(net', a).Some?
    requires a != InInbox(net.ends[e].owner, |net.nodes[net.ends[e].owner].inbox|)
    ensures Same(net, net', a, a)
  {}

  lemma ReadMoved(net: Net, net': Net, e: nat)
    requires CanRead(net, e) && ReadEffect(net, net', e)
    ensures var n := InInbox(net.ends[e].owner, |net.nodes[net.ends[e].owner].inbox|);
            Moved(net, net', if ReadsPacket(net, e) then Some(n) else None, a => a)
  {
    var n := InInbox(net.ends[e].owner, |net.nodes[net.ends[e].owner].inbox|);
    assert MarkAt(net', n).Some? <==> ReadsPacket(net, e);
    forall a | MarkAt(net', a).Some? && a != n ensures Same(net, net', a, a) { ReadPlace(net, net', e, a); }
  }

  lemma ReadIsPast(net: Net, net': Net, e: nat, a: Place)
    requires CanRead(net, e) && ReadEffect(net, net', e) && MarkAt(net', a).Some? && Live(net', a)
    ensures a != NextOnWire(net, net.ends[e].peer)
  {}

  lemma ReadSteps(net: Net, net': Net, L: Ways, e: nat)
    requires CanRead(net, e) && ReadEffect(net, net', e) && ReadsPacket(net, e) && AllOnTrail(net, L)
        && EndShape(net, e, net.ends[e])
    requires net.ends[net.ends[e].peer].role.Dialling? ==> !Next(net.ends[net.ends[e].peer].wire).body.Send?
    ensures Steps(net, net', NextOnWire(net, net.ends[e].peer),
        InInbox(net.ends[e].owner, |net.nodes[net.ends[e].owner].inbox|))
  {
    assert PlaceOk(net, L, NextOnWire(net, net.ends[e].peer));
  }

  /** The packet has come by the link that it was sent on, or from its client. */
  lemma ReadOnTrail(net: Net, net': Net, L: Ways, L': Ways, e: nat)
    requires CanRead(net, e) && ReadEffect(net, net', e) && ReadsPacket(net, e) && AllOnTrail(net, L)
        && EndShape(net, e, net.ends[e])
    requires EndsGrow(net, net') && Refines(L, L') && Inv(net')
    requires Steps(net, net', NextOnWire(net, net.ends[e].peer),
        InInbox(net.ends[e].owner, |net.nodes[net.ends[e].owner].inbox|))
    ensures PlaceOk(net', L', InInbox(net.ends[e].owner, |net.nodes[net.ends[e].owner].inbox|))
  {
    var s, p := net.ends[e].owner, NextOnWire(net, net.ends[e].peer);
    var n := InInbox(s, |net.nodes[s].inbox|);
    var m, m' := MarkAt(net, p).value, MarkAt(net', n).value;
    assert PlaceOk(net, L, p);
    InboxNeverReturns(net', s, n.k);
    TrailStays(net, net', L, L', m.id.client, m.packet.target, m.hops);
    if p.OnWire? { assert IsHop(net', L', m.packet.target, m.hops[|m.hops| - 1], s); }
  }

  lemma ReadKeepsOrder(net: Net, net': Net, L: Ways, L': Ways, e: nat)
    requires Orderly(net, L) && Inv(net) && Inv(net') && CanRead(net, e) && net' == Tick(DoRead(net, e))
        && EndsGrow(net, net') && Refines(L, L')
    ensures Orderly(net', L')
  {
    ReadHasEffect(net, e);
    ReadMoved(net, net', e);
    if ReadsPacket(net, e) {
      var y := net.ends[e].peer;
      assert EndOk(net, e, net.ends[e]) && EndOk(net, y, net.ends[y])
          && FrameOk(net, y, net.ends[y], net.ends[y].wire.log[net.ends[y].wire.taken]);
      ReadSteps(net, net', L, e);
      ReadOnTrail(net, net', L, L', e);
      forall a | MarkAt(net', a).Some? && Live(net', a) ensures a != NextOnWire(net, y) { ReadIsPast(net, net', e, a); }
      Advances(net, net', L, L', NextOnWire(net, y), InInbox(net.ends[e].owner, |net.nodes[net.ends[e].owner].inbox|),
          a => a);
    } else {
      Shifts(net, net', L, L', a => a);
    }
  }

  // ---------- taking up ----------

  /** The inbox without its first command. */
  function Shifted(s: nat, a: Place): Place { if a.InInbox? && a.s == s then InInbox(s, a.k + 1) else a }

  lemma HandlePlace(net: Net, net': Net, s: nat, a: Place)
    requires CanHandle(net, s) && HandleEffect(net, net', s) && MarkAt(net', a).Some? && a != InHand(s)
    ensures Same(net, net', a, Shifted(s, a))
  {}

  lemma HandleMoved(net: Net, net': Net, s: nat)
    requires CanHandle(net, s) && HandleEffect(net, net', s)
    ensures Moved(net, net', if net'.nodes[s].sending.Some? then Some(InHand(s)) else None, a => Shifted(s, a))
  {
    assert MarkAt(net', InHand(s)).Some? <==> net'.nodes[s].sending.Some?;
    forall a | MarkAt(net', a).Some? && a != InHand(s) ensures Same(net, net', a, Shifted(s, a)) {
      HandlePlace(net, net', s, a);
    }
  }

  lemma HandleKeepsOrder(net: Net, net': Net, L: Ways, L': Ways, s: nat)
    requires Orderly(net, L) && CanHandle(net, s) && net' == Tick(DoHandle(net, s)) && EndsGrow(net, net')
        && Refines(L, L')
    ensures Orderly(net', L')
  {
    HandleHasEffect(net, s);
    HandleMoved(net, net', s);
    var p, n := InInbox(s, 0), InHand(s);
    if net'.nodes[s].sending.Some? {
      assert PlaceOk(net, L, p);
      var m := MarkAt(net, p).value;
      TrailStays(net, net', L, L', m.id.client, m.packet.target, m.hops + [s]);
      assert (m.hops + [s])[|m.hops|] == s;
      Advances(net, net', L, L', p, n, a => Shifted(s, a));
    } else {
      Shifts(net, net', L, L', a => Shifted(s, a));
    }
  }

  // ---------- handing over ----------

  lemma HandPlace(net: Net, net': Net, s: nat, a: Place)
    requires CanHand(net, s) && HandEffect(net, net', s) && MarkAt(net', a).Some?
    requires var e := net.nodes[s].sending.value.0;
             net.ends[e].closed || a != InQueue(e, |net.ends[e].queue.log|)
    ensures Same(net, net', a, a)
  {}

  lemma HandMoved(net: Net, net': Net, s: nat)
    requires CanHand(net, s) && HandEffect(net, net', s)
    ensures var e := net.nodes[s].sending.value.0;
            Moved(net, net', if net.ends[e].closed then None else Some(InQueue(e, |net.ends[e].queue.log|)), a => a)
  {
    var e := net.nodes[s].sending.value.0;
    var n := InQueue(e, |net.ends[e].queue.log|);
    forall a | MarkAt(net', a).Some? && (net.ends[e].closed || a != n) ensures Same(net, net', a, a) {
      HandPlace(net, net', s, a);
    }
  }

  lemma HandKeepsOrder(net: Net, net': Net, L: Ways, L': Ways, s: nat)
    requires Orderly(net, L) && CanHand(net, s) && net' == Tick(DoHand(net, s)) && EndsGrow(net, net') && Refines(L, L')
    requires var e, t := net.nodes[s].sending.value.0, net.nodes[s].sending.value.1.body.target;
             net.ends[e].owner == s && (net.ends[e].closed || IsOwnEnd(net.ends[e], t) || L'(s, t) == Some(e))
    ensures Orderly(net', L')
  {
    HandHasEffect(net, s);
    HandMoved(net, net', s);
    var e := net.nodes[s].sending.value.0;
    if net.ends[e].closed {
      Shifts(net, net', L, L', a => a);
    } else {
      var p, n := InHand(s), InQueue(e, |net.ends[e].queue.log|);
      assert PlaceOk(net, L, p);
      var m := MarkAt(net, p).value;
      TrailStays(net, net', L, L', m.id.client, m.packet.target, m.hops);
      Advances(net, net', L, L', p, n, a => a);
    }
  }

  // ---------- writing ----------

  predicate Forwards(x: End)
    requires Ready(x.queue)
  {
    x.role.Accepting? && WritesNext(x).Emit? && WritesNext(x).frame.Forward?
  }

  lemma WritePlace(net: Net, net': Net, e: nat, a: Place)
    requires CanWrite(net, e) && WriteEffect(net, net', e) && MarkAt(net', a).Some?
    requires Forwards(net.ends[e]) ==> a != OnWire(e, |net.ends[e].wire.log|)
    ensures Same(net, net', a, a)
  {}

  lemma WriteMoved(net: Net, net': Net, e: nat)
    requires CanWrite(net, e) && WriteEffect(net, net', e)
    ensures Moved(net, net', if Forwards(net.ends[e]) then Some(OnWire(e, |net.ends[e].wire.log|)) else None, a => a)
  {
    var n := OnWire(e, |net.ends[e].wire.log|);
    forall a | MarkAt(net', a).Some? && (Forwards(net.ends[e]) ==> a != n) ensures Same(net, net', a, a) {
      WritePlace(net, net', e, a);
    }
  }

  lemma WriteKeepsOrder(net: Net, net': Net, L: Ways, L': Ways, e: nat)
    requires Orderly(net, L) && CanWrite(net, e) && InFront(net.ends[e]) && net' == Tick(DoWrite(net, e))
        && EndsGrow(net, net') && Refines(L, L')
    ensures Orderly(net', L')
  {
    WriteHasEffect(net, e);
    WriteMoved(net, net', e);
    if Forwards(net.ends[e]) {
      var p, n := InQueue(e, net.ends[e].queue.taken), OnWire(e, |net.ends[e].wire.log|);
      assert PlaceOk(net, L, p);
      var m := MarkAt(net, p).value;
      TrailStays(net, net', L, L', m.id.client, m.packet.target, m.hops);
      Advances(net, net', L, L', p, n, a => a);
    } else {
      Shifts(net, net', L, L', a => a);
    }
  }

  ghost predicate InFront(x: End) { x.wire.taken <= |x.wire.log| }

  // ---------- a client speaks ----------

  lemma SayMoved(net: Net, net': Net, e: nat, f: Frame)
    requires CanSay(net, e, f) && f.Send? && net' == Tick(DoSay(net, e, f)) && net.ends[e].role.Remote?
        && net.ends[e].wire.taken <= |net.ends[e].wire.log|
    ensures Moved(net, net', Some(OnClient(e, |net.ends[e].wire.log|)), a => a)
    ensures MarkAt(net', OnClient(e, |net.ends[e].wire.log|))
        == Some(Mark(Id(e, |net.ends[e].wire.log|), Packet(net.ends[e].role.key, f.target, f.payload), []))
  {}

  /** Its frame is the latest of all. */
  lemma LatestIsBehind(net: Net, net': Net, L: Ways, e: nat, n: Place, a: Place, p: Packet)
    requires AllOnTrail(net, L) && e < |net.ends| && n == OnClient(e, |net.ends[e].wire.log|) && a != n
    requires MarkAt(net', n) == Some(Mark(Id(e, |net.ends[e].wire.log|), p, [])) && MarkAt(net', a).Some?
        && Same(net, net', a, a)
    ensures Behind(net', n, a) && Behind(net', a, n) && InTurn(net', n, a) && InTurn(net', a, n)
  {
    assert PlaceOk(net, L, a);
  }

  lemma SayKeepsOrder(net: Net, net': Net, L: Ways, L': Ways, e: nat, f: Frame)
    requires Orderly(net, L) && CanSay(net, e, f) && f.Send? && net' == Tick(DoSay(net, e, f))
        && EndShape(net, e, net.ends[e])
    requires EndsGrow(net, net') && Refines(L, L')
    ensures Orderly(net', L')
  {
    var n := OnClient(e, |net.ends[e].wire.log|);
    SayMoved(net, net', e, f);
    assert PlaceOk(net', L', n);
    TrailsStay(net, net', L, L', Some(n), a => a);
    forall a, b ensures Behind(net', a, b) && InTurn(net', a, b) {
      if MarkAt(net', a).Some? && MarkAt(net', b).Some? {
        if a != n && b != n {
          OldPairKeepsOrder(net, net', a, b, a, b);
        } else if a != n {
          LatestIsBehind(net, net', L, e, n, a, Packet(net.ends[e].role.key, f.target, f.payload));
        } else if b != n {
          LatestIsBehind(net, net', L, e, n, b, Packet(net.ends[e].role.key, f.target, f.payload));
        }
      }
    }
  }

  // ---------- runs ----------

  ghost function WaysAt(run: seq<Net>, moves: seq<Move>, i: nat): Ways
    requires Makes(moves, run) && i < |run|
  {
    (v: nat, t: PublicKey) => if v < |run[0].nodes| then FirstHeard(ServiceAt(run, moves, i, v).log, t) else None
  }

  lemma LogGrows(run: seq<Net>, moves: seq<Move>, i: nat, v: nat, t: PublicKey)
    requires Makes(moves, run) && i < |moves| && FirstHeard(ServiceAt(run, moves, i, v).log, t).Some?
    ensures FirstHeard(ServiceAt(run, moves, i + 1, v).log, t) == FirstHeard(ServiceAt(run, moves, i, v).log, t)
  {
    var s, more := ServiceAt(run, moves, i, v), StepsOf(run[i], moves[i], v);
    RunExtends(StepsAt(run, moves, i, v), more);
    if more != [] { FirstHeardStays(s, more[0], t); }
  }

  lemma FirstHeardStays(s: Service, step: Step, t: PublicKey)
    requires FirstHeard(s.log, t).Some?
    ensures FirstHeard(Take(s, step).log, t) == FirstHeard(s.log, t)
  {
    StepLogs(s, step);
    match EventOf(s, step)
    case Some(e) => FirstHeardAppend(s.log, e, t);
    case None => assert s.log + [] == s.log;
  }

  lemma WaysGrow(run: seq<Net>, moves: seq<Move>, i: nat)
    requires Makes(moves, run) && i < |moves|
    ensures Refines(WaysAt(run, moves, i), WaysAt(run, moves, i + 1))
  {
    forall v, t | WaysAt(run, moves, i)(v, t).Some?
      ensures WaysAt(run, moves, i + 1)(v, t) == WaysAt(run, moves, i)(v, t)
    {
      LogGrows(run, moves, i, v, t);
    }
  }

  lemma HandedOnItsWay(run: seq<Net>, moves: seq<Move>, i: nat, s: nat)
    requires Makes(moves, run) && i < |moves| && moves[i] == Hand(s) && Inv(run[i])
    ensures var net := run[i];
            var e, t := net.nodes[s].sending.value.0, net.nodes[s].sending.value.1.body.target;
            net.ends[e].owner == s && (net.ends[e].closed || IsOwnEnd(net.ends[e], t)
                || WaysAt(run, moves, i + 1)(s, t) == Some(e))
  {
    var net := run[i];
    assert NodeOk(net, s, net.nodes[s]);
    var e := net.nodes[s].sending.value.0;
    if !net.ends[e].closed {
      HandHasEffect(net, s);
      NodesStay(run, moves, i);
      QueuedForTheClient(run, moves, i + 1, s, e, |net.ends[e].queue.log|);
    }
  }

  lemma MoveKeepsOrder(run: seq<Net>, moves: seq<Move>, i: nat)
    requires Makes(moves, run) && i < |moves| && Inv(run[i]) && Inv(run[i + 1])
        && Orderly(run[i], WaysAt(run, moves, i))
    ensures Orderly(run[i + 1], WaysAt(run, moves, i + 1))
  {
    var net, net', m := run[i], run[i + 1], moves[i];
    var L, L' := WaysAt(run, moves, i), WaysAt(run, moves, i + 1);
    MoveGrows(net, m);
    WaysGrow(run, moves, i);
    if IsIdle(net, m) {
      IdleMoves(net, m);
      QuietMoves(net, net');
      Shifts(net, net', L, L', a => a);
    } else {
      match m
      case Say(e, f) => assert EndOk(net, e, net.ends[e]); SayKeepsOrder(net, net', L, L', e, f);
      case Read(e) => ReadKeepsOrder(net, net', L, L', e);
      case Handle(s) => HandleKeepsOrder(net, net', L, L', s);
      case Hand(s) => HandedOnItsWay(run, moves, i, s); HandKeepsOrder(net, net', L, L', s);
      case Write(e) => assert EndOk(net, e, net.ends[e]); WriteKeepsOrder(net, net', L, L', e);
    }
  }

  lemma NothingAt(net: Net, a: Place)
    requires Initial(net)
    ensures MarkAt(net, a).None?
  {
    if a.InInbox? || a.InHand? {
      if a.s < |net.nodes| { assert net.nodes[a.s] == FreshNode(net.nodes[a.s].meshKey); }
    }
  }

  lemma StartsOrderly(net: Net, L: Ways)
    requires Initial(net)
    ensures Orderly(net, L)
  {
    forall a, b ensures Behind(net, a, b) && InTurn(net, a, b) { NothingAt(net, a); }
    forall a ensures PlaceOk(net, L, a) { NothingAt(net, a); }
  }

  lemma {:induction false} RunKeepsOrder(run: seq<Net>, moves: seq<Move>, i: nat)
    requires Makes(moves, run) && i < |run|
    ensures Orderly(run[i], WaysAt(run, moves, i))
  {
    if i == 0 {
      StartsOrderly(run[0], WaysAt(run, moves, 0));
    } else {
      RunKeepsOrder(run, moves, i - 1);
      MakesRun(moves, run);
      RunKeeps(run, i - 1);
      RunKeeps(run, i);
      MoveKeepsOrder(run, moves, i - 1);
    }
  }

  /**
    In every queue, packets of one client for one key stand in the order in which the client sent
    them, and none of them twice, whichever nodes they have come through.
   */
  lemma QueuedInOrder(run: seq<Net>, moves: seq<Move>, i: nat, e: nat, j: nat, k: nat)
    requires Makes(moves, run) && i < |run| && e < |run[i].ends| && j < k < |run[i].ends[e].queue.log|
    requires var c, d := run[i].ends[e].queue.log[j], run[i].ends[e].queue.log[k];
             c.body.Transmit? && d.body.Transmit? && c.id.client == d.id.client
                 && c.body.packet.target == d.body.packet.target
    ensures run[i].ends[e].queue.log[j].id.number < run[i].ends[e].queue.log[k].id.number
  {
    RunKeepsOrder(run, moves, i);
    assert MarkAt(run[i], InQueue(e, j)).Some? && MarkAt(run[i], InQueue(e, k)).Some?;
    assert InTurn(run[i], InQueue(e, j), InQueue(e, k));
  }

  /** A `RecvPacket` on a wire comes from a command for that client, which the write loop has taken. */
  lemma ReceiptFromQueue(x: End, c: Tracked<WriteCommand>, f: Tracked<Frame>)
    requires x.role.Accepting? && Emitted(x.role, x.canMesh, c) == [f] && f.body.Recv?
    ensures c.body.Transmit? && c.id == f.id && c.body.packet.target == x.role.key == f.body.target
        && c.body.packet.payload == f.body.payload
  {}

  /**
    What a client receives from one other client are packets which that client sent to it, in the
    order in which it sent them, and none of them twice, whatever way each of them took.
   */
  lemma ReceivedInOrder(run: seq<Net>, moves: seq<Move>, i: nat, e: nat, a: nat, b: nat)
    requires Makes(moves, run) && i < |run| && e < |run[i].ends| && run[i].ends[e].role.Accepting?
        && a < b < |run[i].ends[e].wire.log|
    requires var f, g := run[i].ends[e].wire.log[a], run[i].ends[e].wire.log[b];
             f.body.Recv? && g.body.Recv? && f.id.client == g.id.client
    ensures run[i].ends[e].wire.log[a].id.number < run[i].ends[e].wire.log[b].id.number
  {
    var x := run[i].ends[e];
    WrittenInOrder(run, moves, i, e);
    var log := x.queue.log[..x.queue.taken];
    var y, z := OutputOrder(x.wire.log, a, b);
    var j, k := EmitsOrder(x.role, x.canMesh, log, y, z);
    ReceiptFromQueue(x, log[j], x.wire.log[a]);
    ReceiptFromQueue(x, log[k], x.wire.log[b]);
    QueuedInOrder(run, moves, i, e, j, k);
  }

  /** And each is the packet of the frame that its identity names. */
  lemma ReceivedIsSent(run: seq<Net>, moves: seq<Move>, i: nat, e: nat, a: nat)
    requires Makes(moves, run) && i < |run| && e < |run[i].ends| && run[i].ends[e].role.Accepting?
        && a < |run[i].ends[e].wire.log|
    requires run[i].ends[e].wire.log[a].body.Recv?
    ensures var f := run[i].ends[e].wire.log[a];
            && f.id.client < |run[i].ends| && run[i].ends[f.id.client].role.Remote?
               && f.id.number < |run[i].ends[f.id.client].wire.log|
            && var g := run[i].ends[f.id.client].wire.log[f.id.number].body;
               g.Send? && g.target == f.body.target == run[i].ends[e].role.key && g.payload == f.body.payload
  {
    var x := run[i].ends[e];
    WrittenInOrder(run, moves, i, e);
    var log := x.queue.log[..x.queue.taken];
    var y := OutputAt(x.wire.log, a);
    var j := EmitsFrom(x.role, x.canMesh, log, y);
    ReceiptFromQueue(x, log[j], x.wire.log[a]);
    RunKeepsOrder(run, moves, i);
    assert PlaceOk(run[i], WaysAt(run, moves, i), InQueue(e, j)) && MarkAt(run[i], InQueue(e, j)).Some?;
  }
}
