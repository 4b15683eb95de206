/** The two ends of a connection: what their read loops make of frames, and their write loops of commands. */
module Links {
  import opened Bytes
  import opened Routing
  import P = Protocol

  type Frame = P.Frame

  /** `Broken` ends the loop: a frame it has no arm for. */
  datatype ReadAction = Command(command: ServiceCommand) | Ignore | Broken

  datatype WriteAction = Emit(frame: Frame) | Panic

  /** The accepting end, `Client`. */
  function ClientReads(f: Frame, key: PublicKey, canMesh: bool, sink: Sink): ReadAction
  {
    match f
    case Send(target, payload) => Command(Route(Packet(key, target, payload)))
    case Watch => if canMesh then Command(Subscribe(key, sink)) else Ignore
    case Announce(k) => Command(PeerPresent(k, sink))
    case _ => Broken
  }

  function ClientWrites(c: WriteCommand, key: PublicKey, canMesh: bool): WriteAction
  {
    match c
    case Transmit(p) =>
      if p.target == key then Written(P.Recv(p.target, p.payload))
      else if canMesh then Written(P.Forward(p.source, p.target, p.payload))
      else Panic
    case Notify(k) => Written(P.Announce(k))
  }

  /** The dialling end, `MeshClient`. */
  function MeshClientReads(f: Frame, sink: Sink): ReadAction
  {
    match f
    case Announce(k) => Command(PeerPresent(k, sink))
    case Forward(source, target, payload) => Command(Route(Packet(source, target, payload)))
    case _ => Broken
  }

  function MeshClientWrites(c: WriteCommand): WriteAction
  {
    match c
    case Notify(k) => Written(P.Announce(k))
    case Transmit(_) => Panic
  }

  /** Encoding a frame whose body is too long for the size field panics. */
  function Written(f: Frame): WriteAction
  {
    if f.Fits() then Emit(f) else Panic
  }

  /**
    The read loop of a client does not ask whether it may mesh before it passes on an
    announcement. In any running service, after a plain client `d` has announced `x`, a packet for
    `x` is sent to it and makes its write loop panic for want of the mesh key exactly if `x` is not
    its own key and was unknown, or led to it already.
   */
  lemma PlainClientPanicsIff(steps: seq<Step>, d: PublicKey, x: PublicKey, sink: Sink, p: Packet)
    requires Run(steps).running && Run(steps).sending.None? && p.target == x
    ensures ClientReads(P.Announce(x), d, false, sink) == Command(PeerPresent(x, sink))
    ensures var after, peers := Run(steps + [Handle(PeerPresent(x, sink)), Handle(Route(p))]), Run(steps).tables.peers;
            && (after.sending == Some((sink, p)) <==> x !in peers || peers[x] == sink)
            && (P.Recv(d, p.payload).Fits() ==>
                  (after.sending == Some((sink, p)) && ClientWrites(Transmit(p), d, false).Panic? <==>
                     x != d && (x !in peers || peers[x] == sink)))
  {
    var claim, packet := Handle(PeerPresent(x, sink)), Handle(Route(p));
    assert (steps + [claim, packet])[..|steps| + 1] == steps + [claim] && (steps + [claim])[..|steps|] == steps;
  }
}
