/** How clients and services get into the network: who can connect, who is refused, and what they are then. */
module NetworkEntry {
  import opened Bytes
  import opened Routing
  import opened Links
  import opened Network
  import opened NetworkInvariants
  import P = Protocol

  /** A connection that waits at a listening service can register unless it offers a mesh key not the service's. */
  lemma RegisterIff(net: Net, e: nat)
    requires e < |net.ends| && net.ends[e].role.Accepting? && !net.ends[e].live
    requires net.ends[e].owner < |net.nodes| && net.nodes[net.ends[e].owner].listening
    ensures Enabled(net, Move.Register(e)) <==>
            net.ends[e].role.offered.None? || net.ends[e].role.offered == net.nodes[net.ends[e].owner].meshKey
  {}

  /** Once registered, it may mesh exactly if it offered a mesh key. */
  lemma RegisteredMeshes(net: Net, e: nat)
    requires CanRegister(net, e)
    ensures var x := After(net, Move.Register(e)).ends[e];
            x == net.ends[e].(live := true, canMesh := net.ends[e].role.offered.Some?)
  {}

  /**
    From any state, a client of any key can connect to a listening service. It is registered if and only if
    it offers no mesh key or the service's; then its key leads to it, and it can send any frame.
   */
  lemma ClientEnters(net: Net, s: nat, key: PublicKey, offered: Option<string>, f: Frame)
    requires s < |net.nodes| && net.nodes[s].listening
    ensures Enabled(net, Connect(s, key, offered))
    ensures var net1, e := After(net, Connect(s, key, offered)), |net.ends|;
            && (Enabled(net1, Move.Register(e)) <==> offered.None? || offered == net.nodes[s].meshKey)
            && (Enabled(net1, Move.Register(e)) ==>
                  var net2 := After(net1, Move.Register(e));
                  && Lookup(net2.nodes[s].tables, key) == Some(e) && Owned(net2, e, s)
                  && net2.ends[net2.ends[e].peer].role == Remote(key)
                  && Enabled(net2, Say(net2.ends[e].peer, f)))
  {
    var net1 := After(net, Connect(s, key, offered));
    assert net1.ends[|net.ends|].role == Accepting(key, offered);
  }

  /**
    From any state, a service that has a mesh key and does not listen yet can dial any service, itself
    included. The link enters its mesh and can subscribe. The other side registers it, once it listens,
    if and only if the mesh keys are equal or the one that dialled has an empty one.
   */
  lemma ServiceDials(net: Net, from: nat, to: nat, key: PublicKey, peerKey: PublicKey)
    requires from < |net.nodes| && to < |net.nodes| && !net.nodes[from].listening && net.nodes[from].meshKey.Some?
    ensures Enabled(net, Dial(from, to, key, peerKey))
    ensures var net1, e := After(net, Dial(from, to, key, peerKey)), |net.ends|;
            && Enabled(net1, Move.Join(e + 1)) && Enabled(net1, Say(e + 1, P.Watch))
            && MeshLookup(After(net1, Move.Join(e + 1)).nodes[from].tables, peerKey) == Some(e + 1)
            && (net.nodes[to].listening ==>
                  (Enabled(net1, Move.Register(e)) <==>
                     net.nodes[from].meshKey == Some("") || net.nodes[to].meshKey == net.nodes[from].meshKey))
  {
    var net1 := After(net, Dial(from, to, key, peerKey));
    var x := net1.ends[|net.ends|];
    assert x.role == Accepting(key, Offered(net.nodes[from].meshKey.value)) && !x.live && x.owner == to;
    assert net1.ends[|net.ends| + 1] == FreshEnd(from, Dialling(peerKey), |net.ends|);
  }

  /** A registered end of a running service, and the next frame that its other side has put on the wire. */
  ghost predicate Reads(net: Net, e: nat, f: Tracked<Frame>)
  {
    && e < |net.ends| && net.ends[e].live && net.ends[e].owner < |net.nodes| && net.nodes[net.ends[e].owner].running
    && net.ends[e].peer < |net.ends| && Ready(net.ends[net.ends[e].peer].wire)
    && f == Next(net.ends[net.ends[e].peer].wire)
  }

  /**
    An end that accepted reads packets, announcements and subscriptions, one that dialled announcements
    and forwarded packets. Any other frame ends the read loop.
   */
  lemma ReadIff(net: Net, e: nat, f: Tracked<Frame>)
    requires Reads(net, e, f)
    ensures Enabled(net, Read(e)) <==> match net.ends[e].role
                                       case Accepting(_, _) => f.body.Send? || f.body.Announce? || f.body.Watch?
                                       case Dialling(_) => f.body.Announce? || f.body.Forward?
                                       case Remote(_) => false
  {}

  /** Each becomes a command of the service, a subscription only if the end may mesh. */
  lemma ReadBecomes(net: Net, e: nat, f: Tracked<Frame>)
    requires Reads(net, e, f) && Enabled(net, Read(e))
    ensures var x, s, inbox := net.ends[e], net.ends[e].owner, net.nodes[net.ends[e].owner].inbox;
            After(net, Read(e)).nodes[s].inbox == match f.body
              case Send(t, p) => inbox + [Tracked(Route(Packet(x.role.key, t, p)), f.hops, f.id)]
              case Forward(o, t, p) => inbox + [Tracked(Route(Packet(o, t, p)), f.hops, f.id)]
              case Announce(k) => inbox + [Tracked(PeerPresent(k, e), f.hops, f.id)]
              case _ => if x.canMesh then inbox + [Tracked(Subscribe(x.role.key, e), f.hops, f.id)] else inbox
  {
    ReadIff(net, e, f);
  }

  /** Any service can start to listen, and any write loop can end, at any time. */
  lemma AnyTime(net: Net, s: nat, e: nat)
    requires s < |net.nodes| && e < |net.ends|
    ensures Enabled(net, Listen(s)) && After(net, Listen(s)).nodes[s] == net.nodes[s].(listening := true)
    ensures Enabled(net, Move.Close(e)) && After(net, Move.Close(e)).ends[e] == net.ends[e].(closed := true)
  {}
}
