/**
  Where followed packets are, and the way they have come: packets of one client for one key all
  travel the same way, since a node passes them on over the link that first announced the key.
 */
module NetworkTrails {
  import opened Bytes
  import opened Routing
  import opened Links
  import opened Network
  import opened NetworkInvariants
  import opened NetworkTheorems

  // ---------- places ----------

  /** On the wire of a client, in an inbox, in the hand of a command loop, in a queue, on a link to another node. */
  datatype Place =
    | OnClient(e: nat, k: nat)
    | InInbox(s: nat, k: nat)
    | InHand(s: nat)
    | InQueue(e: nat, k: nat)
    | OnWire(e: nat, k: nat)

  /** What is followed of a packet. */
  datatype Mark = Mark(id: Id, packet: Packet, hops: seq<nat>)

  ghost function MarkAt(net: Net, a: Place): Option<Mark>
  {
    match a
    case OnClient(e, k) =>
      if e < |net.ends| && net.ends[e].role.Remote? then SaidAt(net.ends[e].role.key, net.ends[e].wire.log, k) else None
    case InInbox(s, k) => if s < |net.nodes| then InboxAt(net.nodes[s].inbox, k) else None
    case InHand(s) =>
      if s < |net.nodes| && net.nodes[s].sending.Some? then
        var item := net.nodes[s].sending.value.1;
        Some(Mark(item.id, item.body, item.hops))
      else None
    case InQueue(e, k) => if e < |net.ends| then QueuedAt(net.ends[e].queue.log, k) else None
    case OnWire(e, k) =>
      if e < |net.ends| && net.ends[e].role.Accepting? then ForwardedAt(net.ends[e].wire.log, k) else None
  }

  ghost function SaidAt(key: PublicKey, log: seq<Tracked<Frame>>, k: nat): Option<Mark>
  {
    if k < |log| && log[k].body.Send?
    then Some(Mark(log[k].id, Packet(key, log[k].body.target, log[k].body.payload), log[k].hops))
    else None
  }

  ghost function ForwardedAt(log: seq<Tracked<Frame>>, k: nat): Option<Mark>
  {
    if k < |log| && log[k].body.Forward?
    then Some(Mark(log[k].id, Packet(log[k].body.source, log[k].body.target, log[k].body.payload), log[k].hops))
        else None
  }

  ghost function QueuedAt(log: seq<Tracked<WriteCommand>>, k: nat): Option<Mark>
  {
    if k < |log| && log[k].body.Transmit? then Some(Mark(log[k].id, log[k].body.packet, log[k].hops)) else None
  }

  ghost function InboxAt(inbox: seq<Tracked<ServiceCommand>>, k: nat): Option<Mark>
  {
    if k < |inbox| && inbox[k].body.Route? then Some(Mark(inbox[k].id, inbox[k].body.packet, inbox[k].hops)) else None
  }

  /** The packet is still to go on from here. */
  ghost predicate Live(net: Net, a: Place)
    requires MarkAt(net, a).Some?
  {
    match a
    case OnClient(e, k) => k >= net.ends[e].wire.taken
    case InInbox(_, _) => true
    case InHand(_) => true
    case InQueue(e, k) => k >= net.ends[e].queue.taken && !IsOwnEnd(net.ends[e], MarkAt(net, a).value.packet.target)
    case OnWire(e, k) => k >= net.ends[e].wire.taken
  }

  /** How far it has come. */
  function Rank(a: Place, hops: nat): int
  {
    match a
    case OnClient(_, _) => 0
    case InInbox(_, _) => 4 * hops + 1
    case InHand(_) => 4 * hops - 2
    case InQueue(_, _) => 4 * hops - 1
    case OnWire(_, _) => 4 * hops
  }

  /** In the same log, inbox or hand; and earlier there. */
  predicate SameBox(a: Place, b: Place)
  {
    match a
    case OnClient(e, _) => b.OnClient? && b.e == e
    case InInbox(s, _) => b.InInbox? && b.s == s
    case InHand(s) => b == a
    case InQueue(e, _) => b.InQueue? && b.e == e
    case OnWire(e, _) => b.OnWire? && b.e == e
  }

  predicate Before(a: Place, b: Place)
  {
    SameBox(a, b) && !a.InHand? && a.k < b.k
  }

  // ---------- the way ----------

  /** The end over which a node passes on packets for a key. */
  type Ways = (nat, PublicKey) -> Option<nat>

  ghost predicate IsHop(net: Net, L: Ways, t: PublicKey, v: nat, w: nat)
  {
    && L(v, t).Some? && L(v, t).value < |net.ends| && net.ends[L(v, t).value].peer < |net.ends|
    && net.ends[net.ends[L(v, t).value].peer].owner == w
  }

  ghost predicate IsTrail(net: Net, L: Ways, c: nat, t: PublicKey, h: seq<nat>)
  {
    && c < |net.ends| && net.ends[c].peer < |net.ends| && (h != [] ==> h[0] == net.ends[net.ends[c].peer].owner)
    && forall k | 0 <= k < |h| - 1 :: IsHop(net, L, t, h[k], h[k + 1])
  }

  function Trail(a: Place, hops: seq<nat>): seq<nat>
  {
    match a
    case OnClient(_, _) => []
    case InInbox(s, _) => hops + [s]
    case _ => hops
  }

  /** It is the packet that the client's frame of that number carries. */
  ghost predicate IsUtterance(x: End, m: Mark)
    requires x.role.Remote?
  {
    SaidAt(x.role.key, x.wire.log, m.id.number).Some?
        && SaidAt(x.role.key, x.wire.log, m.id.number).value.packet == m.packet
  }

  /** The mark began at its client, has come by links, without a loop, and is where its trail has led it. */
  ghost predicate OnTrail(net: Net, L: Ways, a: Place, m: Mark)
  {
    && IsTrail(net, L, m.id.client, m.packet.target, Trail(a, m.hops)) && Distinct(Trail(a, m.hops))
    && net.ends[m.id.client].role.Remote? && IsUtterance(net.ends[m.id.client], m)
    && match a
       case OnClient(e, k) => m.id == Id(e, k) && m.hops == []
       case InInbox(_, _) => true
       case InHand(s) => m.hops != [] && m.hops[|m.hops| - 1] == s
       case InQueue(e, _) =>
         && e < |net.ends| && m.hops != [] && m.hops[|m.hops| - 1] == net.ends[e].owner
         && (IsOwnEnd(net.ends[e], m.packet.target) || L(net.ends[e].owner, m.packet.target) == Some(e))
       case OnWire(e, _) =>
         e < |net.ends| && m.hops != [] && m.hops[|m.hops| - 1] == net.ends[e].owner
             && L(net.ends[e].owner, m.packet.target) == Some(e)
  }

  ghost predicate PlaceOk(net: Net, L: Ways, a: Place)
  {
    MarkAt(net, a).Some? ==> OnTrail(net, L, a, MarkAt(net, a).value)
  }

  ghost predicate AllOnTrail(net: Net, L: Ways)
  {
    forall a {:trigger MarkAt(net, a)} :: PlaceOk(net, L, a)
  }

  /** Trails of one client's packets for one key are one trail. */
  lemma {:induction false} SameTrail(net: Net, L: Ways, c: nat, t: PublicKey, g: seq<nat>, h: seq<nat>)
    requires IsTrail(net, L, c, t, g) && IsTrail(net, L, c, t, h) && |g| <= |h|
    ensures g == h[..|g|]
  {
    if g != [] {
      var n := |g| - 1;
      SameTrail(net, L, c, t, g[..n], h);
      if n > 0 { assert IsHop(net, L, t, g[n - 1], g[n - 1 + 1]) && IsHop(net, L, t, h[n - 1], h[n - 1 + 1]); }
    }
  }

  /** And a node lies on it only once. */
  lemma SameLength(net: Net, L: Ways, c: nat, t: PublicKey, g: seq<nat>, h: seq<nat>)
    requires IsTrail(net, L, c, t, g) && IsTrail(net, L, c, t, h) && Distinct(g) && Distinct(h)
    requires g != [] && h != [] && g[|g| - 1] == h[|h| - 1]
    ensures |g| == |h|
  {
    if |g| < |h| {
      SameTrail(net, L, c, t, g, h);
    } else if |h| < |g| {
      SameTrail(net, L, c, t, h, g);
    }
  }

  ghost predicate Kin(m: Mark, n: Mark) { m.id.client == n.id.client && m.packet.target == n.packet.target }

  /** Packets of one client for one key that have come equally far and are to go on are in the same box. */
  lemma SameRankSameBox(net: Net, L: Ways, a: Place, b: Place, m: Mark, n: Mark)
    requires OnTrail(net, L, a, m) && OnTrail(net, L, b, n) && Kin(m, n) && Rank(a, |m.hops|) == Rank(b, |n.hops|)
    requires a.InQueue? ==> a.e < |net.ends| && !IsOwnEnd(net.ends[a.e], m.packet.target)
    requires b.InQueue? ==> b.e < |net.ends| && !IsOwnEnd(net.ends[b.e], n.packet.target)
    ensures SameBox(a, b)
  {
    assert Rank(a, |m.hops|) % 4 == Rank(b, |n.hops|) % 4;
    SameTrail(net, L, m.id.client, m.packet.target, Trail(a, m.hops), Trail(b, n.hops));
    if a.InInbox? { assert Trail(a, m.hops)[|m.hops|] == a.s && Trail(b, n.hops)[|n.hops|] == b.s; }
  }

  /** In one box they have come equally far. */
  lemma SameBoxSameRank(net: Net, L: Ways, a: Place, b: Place, m: Mark, n: Mark)
    requires OnTrail(net, L, a, m) && OnTrail(net, L, b, n) && Kin(m, n) && SameBox(a, b)
    ensures Rank(a, |m.hops|) == Rank(b, |n.hops|)
  {
    if !a.OnClient? { SameLength(net, L, m.id.client, m.packet.target, Trail(a, m.hops), Trail(b, n.hops)); }
  }
}
