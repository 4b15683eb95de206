/** The loops on plain bytes: what they make of any frame that a stream can hold, and what clients receive. */
module Octets {
  import opened Bytes
  import opened Codec
  import P = Protocol
  import S = Stream
  import opened Routing
  import opened Links
  import opened Wire

  // ---------- frames as bytes ----------

  lemma FrameParts(b: seq<byte>)
    requires S.IsFrame(b)
    ensures b == [b[0]] + ToBytes(W4, |b| - 5) + b[5..] && |b| - 5 < 0x1_0000_0000
  {
    IntegerBack(W4, b[1..5]);
    assert b == [b[0]] + b[1..5] + b[5..];
  }

  /** Reading a frame as one with a payload of some schema: the payload must take up all that follows the header. */
  lemma PayloadOf(s: Schema, b: seq<byte>)
    requires S.IsFrame(b)
    ensures P.Payload(s, b) == match Decode(s, b[5..])
                               case Done(v, rest) => if rest == [] then Some(v) else None
                               case _ => None
  {
    P.TypeDecode(b[0], b[1..]);
    assert b == [b[0]] + b[1..];
    Window(s, b[1..]);
    assert b[1..][4..] == b[5..];
    PayloadBehind(s, b, P.TypeValue(P.TypeOfTag(b[0] as nat)), b[1..]);
  }

  lemma PayloadBehind(s: Schema, b: seq<byte>, t: Value, left: seq<byte>)
    requires Decode(P.TypeSchema(), b) == Done(t, left)
    ensures P.Payload(s, b) ==
            if Decode(Sized(W4, s), left).Done? then Some(Decode(Sized(W4, s), left).value) else None
  {
    var sized := Decode(Sized(W4, s), left);
    if sized.Done? {
      P.DecodePair(P.TypeSchema(), Sized(W4, s), b, t, left, sized.value, sized.rest);
    } else {
      PairFails(P.TypeSchema(), Sized(W4, s), b, t, left);
    }
  }

  lemma PairFails(s: Schema, s': Schema, b: seq<byte>, v: Value, left: seq<byte>)
    requires Decode(s, b) == Done(v, left) && !Decode(s', left).Done? && !s.TagField? && !s'.TagField?
    ensures !Decode(Struct([s, s']), b).Done?
  {
    var fs := [s, s'];
    assert fs[1..] == [s'];
    assert !DecodeFields(fs[1..], None, left).Done?;
  }

  lemma Window(s: Schema, b: seq<byte>)
    requires |b| >= 4 && FromBytes(W4, b[..4]) == |b| - 4
    ensures Decode(Sized(W4, s), b) == match Decode(s, b[4..])
                                       case Done(v, rest) => if rest == [] then Done(v, []) else Fail
                                       case Fail => Fail
                                       case Diverge => Diverge
  {
    assert DecodeInt(W4, b) == Done(|b| - 4, b[4..]);
    assert b[4..][..|b| - 4] == b[4..] && b[4..][|b| - 4..] == [];
  }

  // ---------- payloads that are too short or too long ----------

  lemma ShortKey(b: seq<byte>)
    requires |b| < 32
    ensures Decode(P.KeySchema(), b) == Fail
  {
    assert [Array(32)][0] == Array(32);
  }

  lemma KeyTaken(b: seq<byte>)
    requires |b| >= 32
    ensures Decode(P.KeySchema(), b) == Done(P.KeyValue(P.PublicKey(b[..32])), b[32..])
  {
    var fs := [Array(32)];
    assert fs[1..] == [] && DecodeFields(fs[1..], None, b[32..]) == Done([], b[32..]);
    assert [Raw(b[..32])] + [] == [Raw(b[..32])];
  }

  lemma ShortStruct(fs: seq<Schema>, b: seq<byte>)
    requires |b| < 32 && fs != [] && fs[0] == P.KeySchema()
    ensures Decode(Struct(fs), b) == Fail
  {
    ShortKey(b);
  }

  lemma ShortForward(b: seq<byte>)
    requires |b| < 64
    ensures Decode(ForwardSchema(), b) == Fail
  {
    var fs := [P.KeySchema(), P.KeySchema(), P.BytesSchema()];
    if |b| < 32 {
      ShortStruct(fs, b);
    } else {
      KeyTaken(b);
      assert fs[1..][0] == P.KeySchema();
      ShortKey(b[32..]);
      assert DecodeFields(fs[1..], None, b[32..]) == Fail;
    }
  }

  lemma LongPresent(b: seq<byte>)
    requires |b| >= 32
    ensures Decode(PresentSchema(), b).Done? && Decode(PresentSchema(), b).rest == b[32..]
  {
    var fs := [P.KeySchema()];
    KeyTaken(b);
    assert fs[1..] == [] && DecodeFields(fs[1..], None, b[32..]) == Done([], b[32..]);
  }

  // ---------- the read loops ----------

  /** A frame that the protocol can write is acted on as that frame. */
  lemma ActsAs(b: seq<byte>, f: Frame, key: PublicKey, canMesh: bool, sink: Sink)
    requires f.Fits() && b == FrameBytes(f)
    ensures ClientActs(S.MessageOf(b), key, canMesh, sink) == ClientReads(f, key, canMesh, sink)
    ensures MeshClientActs(S.MessageOf(b), sink) == MeshClientReads(f, sink)
  {
    FrameIsSendable(f);
    P.BodyEnc(f);
    MessageActsAsFrame(S.MessageOf(b), f, key, canMesh, sink);
  }

  /** The frame types that have an arm in a read loop are told by their tags. */
  lemma TagDecides(t: P.FrameType)
    requires P.Genuine(t)
    ensures (t.SendPacket? <==> P.Tag(t) == 0x04) && (t.PeerPresent? <==> P.Tag(t) == 0x09)
    ensures (t.ForwardPacket? <==> P.Tag(t) == 0x0A) && (t.WatchConns? <==> P.Tag(t) == 0x10)
  {
    assert P.Tag(P.Known(3)) == 0x04 && P.Tag(P.Known(8)) == 0x09;
    assert P.Tag(P.Known(9)) == 0x0A && P.Tag(P.Known(10)) == 0x10;
  }

  lemma TypesAre(b: seq<byte>)
    requires b != []
    ensures var t := S.MessageOf(b).ty;
            && (t.SendPacket? <==> b[0] == 0x04) && (t.PeerPresent? <==> b[0] == 0x09)
            && (t.ForwardPacket? <==> b[0] == 0x0A) && (t.WatchConns? <==> b[0] == 0x10)
  {
    P.TypeDecode(b[0], []);
    TagDecides(P.TypeOfTag(b[0] as nat));
  }

  lemma PacketSplits(b: seq<byte>)
    requires S.IsFrame(b) && |b| >= 37
    ensures b == [b[0]] + ToBytes(W4, 32 + |b[37..]|) + b[5..37] + b[37..] && |b[37..]| < 0x1_0000_0000 - 32
  {
    FrameParts(b);
    assert b[5..] == b[5..37] + b[37..];
    Assoc([b[0]] + ToBytes(W4, |b| - 5), b[5..37], b[37..]);
  }

  lemma AsSend(b: seq<byte>)
    requires S.IsFrame(b) && b[0] == 0x04 && |b| >= 37
    ensures var f := P.Send(P.PublicKey(b[5..37]), b[37..]);
            f.Fits() && b == FrameBytes(f)
  {
    PacketSplits(b);
    PacketLayout(P.PublicKey(b[5..37]), b[37..]);
    FitsIff(P.Send(P.PublicKey(b[5..37]), b[37..]));
  }

  lemma AsForwarded(b: seq<byte>)
    requires S.IsFrame(b) && b[0] == 0x0A && |b| >= 69
    ensures var f := P.Forward(P.PublicKey(b[5..37]), P.PublicKey(b[37..69]), b[69..]);
            f.Fits() && b == FrameBytes(f)
  {
    PacketSplits(b);
    ForwardLayout(P.PublicKey(b[5..37]), P.PublicKey(b[37..69]), b[69..]);
    FitsIff(P.Forward(P.PublicKey(b[5..37]), P.PublicKey(b[37..69]), b[69..]));
    assert b[37..] == b[37..69] + b[69..];
    Assoc([b[0]] + ToBytes(W4, |b| - 5) + b[5..37], b[37..69], b[69..]);
  }

  lemma AsAnnounced(b: seq<byte>)
    requires S.IsFrame(b) && b[0] == 0x09 && |b| == 37
    ensures b == FrameBytes(P.Announce(P.PublicKey(b[5..37])))
  {
    PacketSplits(b);
    AnnounceLayout(P.PublicKey(b[5..37]));
    assert b[37..] == [] && ToBytes(W4, 32) == [0, 0, 0, 32];
    assert b == [0x09] + [0, 0, 0, 32] + b[5..37];
    assert [0x09] + [0, 0, 0, 32] == [0x09, 0, 0, 0, 32];
  }

  /** A packet or an announcement whose payload cannot be decoded. */
  lemma CannotParse(b: seq<byte>)
    requires S.IsFrame(b)
    ensures |b| < 37 ==> Parse(PacketSchema(), AsPacket, b).None?
    ensures |b| != 37 ==> Parse(PresentSchema(), AsPresent, b).None?
    ensures |b| < 69 ==> Parse(ForwardSchema(), AsForward, b).None?
  {
    PayloadOf(PacketSchema(), b);
    PayloadOf(PresentSchema(), b);
    PayloadOf(ForwardSchema(), b);
    if |b| < 37 {
      ShortStruct([P.KeySchema(), P.BytesSchema()], b[5..]);
      ShortStruct([P.KeySchema()], b[5..]);
    } else {
      LongPresent(b[5..]);
    }
    if |b| < 69 { ShortForward(b[5..]); }
  }

  /**
    What the read loop of `Client` makes of any frame of a stream, byte by byte. It ends, with a decode
    error or for want of an arm, on every frame but these.
   */
  lemma ClientActsOn(b: seq<byte>, key: PublicKey, canMesh: bool, sink: Sink)
    requires S.IsFrame(b)
    ensures ClientActs(S.MessageOf(b), key, canMesh, sink) ==
            if b[0] == 0x04 && |b| >= 37 then Command(Route(Packet(key, P.PublicKey(b[5..37]), b[37..])))
            else if b[0] == 0x09 && |b| == 37 then Command(ServiceCommand.PeerPresent(P.PublicKey(b[5..37]), sink))
            else if b[0] == 0x10 then (if canMesh then Command(Subscribe(key, sink)) else Ignore)
            else Broken
  {
    if b[0] == 0x04 && |b| >= 37 {
      AsSend(b);
      ActsAs(b, P.Send(P.PublicKey(b[5..37]), b[37..]), key, canMesh, sink);
    } else if b[0] == 0x09 && |b| == 37 {
      AsAnnounced(b);
      ActsAs(b, P.Announce(P.PublicKey(b[5..37])), key, canMesh, sink);
    } else {
      ClientOtherwise(b, key, canMesh, sink);
    }
  }

  lemma ClientOtherwise(b: seq<byte>, key: PublicKey, canMesh: bool, sink: Sink)
    requires S.IsFrame(b) && !(b[0] == 0x04 && |b| >= 37) && !(b[0] == 0x09 && |b| == 37)
    ensures ClientActs(S.MessageOf(b), key, canMesh, sink) ==
            if b[0] == 0x10 then (if canMesh then Command(Subscribe(key, sink)) else Ignore) else Broken
  {
    TypesAre(b);
    CannotParse(b);
  }

  /** And that of `MeshClient`. */
  lemma MeshClientActsOn(b: seq<byte>, sink: Sink)
    requires S.IsFrame(b)
    ensures MeshClientActs(S.MessageOf(b), sink) ==
            if b[0] == 0x0A && |b| >= 69
            then Command(Route(Packet(P.PublicKey(b[5..37]), P.PublicKey(b[37..69]), b[69..])))
            else if b[0] == 0x09 && |b| == 37 then Command(ServiceCommand.PeerPresent(P.PublicKey(b[5..37]), sink))
            else Broken
  {
    if b[0] == 0x0A && |b| >= 69 {
      AsForwarded(b);
      MeshActsAs(b, P.Forward(P.PublicKey(b[5..37]), P.PublicKey(b[37..69]), b[69..]), sink);
    } else if b[0] == 0x09 && |b| == 37 {
      AsAnnounced(b);
      MeshActsAs(b, P.Announce(P.PublicKey(b[5..37])), sink);
    } else {
      TypesAre(b);
      CannotParse(b);
    }
  }

  lemma MeshActsAs(b: seq<byte>, f: Frame, sink: Sink)
    requires f.Fits() && b == FrameBytes(f)
    ensures MeshClientActs(S.MessageOf(b), sink) == MeshClientReads(f, sink)
  {
    ActsAs(b, f, P.PublicKey(seq(32, _ => 0)), false, sink);
  }

  /** Any message, a whole frame or not, whose payload cannot be decoded ends the loop, at either end. */
  lemma UndecodableBreaks(m: S.Message, key: PublicKey, canMesh: bool, sink: Sink)
    ensures m.ty.SendPacket? && !Decode(P.FrameSchema(PacketSchema()), m.buffer).Done? ==>
              ClientActs(m, key, canMesh, sink).Broken?
    ensures m.ty.PeerPresent? && !Decode(P.FrameSchema(PresentSchema()), m.buffer).Done? ==>
              ClientActs(m, key, canMesh, sink).Broken? && MeshClientActs(m, sink).Broken?
    ensures m.ty.ForwardPacket? && !Decode(P.FrameSchema(ForwardSchema()), m.buffer).Done? ==>
              MeshClientActs(m, sink).Broken?
  {}

  // ---------- all messages ----------

  /** The commands of the actions that have one. */
  function CommandsOf(actions: seq<ReadAction>): seq<ServiceCommand>
  {
    if actions == [] then []
    else
      var a := actions[|actions| - 1];
      CommandsOf(actions[..|actions| - 1]) + if a.Command? then [a.command] else []
  }

  lemma {:induction false} CommandsAppend(a: ReadAction, rest: seq<ReadAction>)
    ensures CommandsOf([a] + rest) == (if a.Command? then [a.command] else []) + CommandsOf(rest)
  {
    if rest == [] {
      assert [a] + rest == [a] && [a][..0] == [];
    } else {
      var n := |rest| - 1;
      assert ([a] + rest)[..|rest|] == [a] + rest[..n] && ([a] + rest)[|rest|] == rest[n];
      CommandsAppend(a, rest[..n]);
    }
  }

  /** `r` is the reading of the messages acted on by `act`: all of them, or all up to the first that ends it. */
  ghost predicate ReadsAll(ms: seq<S.Message>, act: S.Message -> ReadAction, r: Reading, n: nat)
  {
    && n <= |ms| && (forall i | 0 <= i < n :: !act(ms[i]).Broken?)
    && (r.ended <==> n < |ms|) && (n < |ms| ==> act(ms[n]).Broken?)
    && r.commands == CommandsOf(seq(n, i requires 0 <= i < n => act(ms[i])))
  }

  lemma ReadsOneMore(ms: seq<S.Message>, act: S.Message -> ReadAction, r: Reading, n: nat)
    requires ms != [] && !act(ms[0]).Broken? && ReadsAll(ms[1..], act, r, n)
    ensures ReadsAll(ms, act, Then(act(ms[0]), r), n + 1)
  {
    var rest := seq(n, i requires 0 <= i < n => act(ms[1..][i]));
    var all := seq(n + 1, i requires 0 <= i < n + 1 => act(ms[i]));
    assert all == [act(ms[0])] + rest;
    CommandsAppend(act(ms[0]), rest);
    forall i | 0 <= i < n + 1 ensures !act(ms[i]).Broken? {
      if i > 0 { assert ms[i] == ms[1..][i - 1]; }
    }
  }

  /** The read loop of `Client` ends just at a message that it cannot act on, and sends the commands of all before. */
  lemma {:induction false} ClientReadsAll(ms: seq<S.Message>, key: PublicKey, canMesh: bool, sink: Sink)
    returns (n: nat)
    ensures ReadsAll(ms, m => ClientActs(m, key, canMesh, sink), ClientReading(ms, key, canMesh, sink), n)
  {
    var act := m => ClientActs(m, key, canMesh, sink);
    n := 0;
    if ms != [] && !act(ms[0]).Broken? {
      var k := ClientReadsAll(ms[1..], key, canMesh, sink);
      ReadsOneMore(ms, act, ClientReading(ms[1..], key, canMesh, sink), k);
      n := k + 1;
    }
  }

  lemma {:induction false} MeshClientReadsAll(ms: seq<S.Message>, sink: Sink) returns (n: nat)
    ensures ReadsAll(ms, m => MeshClientActs(m, sink), MeshClientReading(ms, sink), n)
  {
    var act := m => MeshClientActs(m, sink);
    n := 0;
    if ms != [] && !act(ms[0]).Broken? {
      var k := MeshClientReadsAll(ms[1..], sink);
      ReadsOneMore(ms, act, MeshClientReading(ms[1..], sink), k);
      n := k + 1;
    }
  }

  // ---------- the write loop of a client, and what the client receives ----------

  /** It writes one frame for each command, in order, and ends exactly at one that it panics on. */
  lemma {:induction false} ClientWritesAll(cs: seq<WriteCommand>, key: PublicKey, canMesh: bool)
    ensures var w := ClientWriting(cs, key, canMesh);
            && |w.frames| <= |cs|
            && (forall i | 0 <= i < |w.frames| :: ClientWrites(cs[i], key, canMesh) == Emit(w.frames[i]))
            && (w.panicked <==> |w.frames| < |cs|)
            && (|w.frames| < |cs| ==> ClientWrites(cs[|w.frames|], key, canMesh).Panic?)
  {
    if cs != [] {
      ClientWritesAll(cs[1..], key, canMesh);
      var w, rest := ClientWriting(cs, key, canMesh), ClientWriting(cs[1..], key, canMesh);
      forall i | 0 <= i < |w.frames| ensures ClientWrites(cs[i], key, canMesh) == Emit(w.frames[i]) {
        if i > 0 { assert cs[i] == cs[1..][i - 1] && w.frames[i] == rest.frames[i - 1]; }
      }
    }
  }

  /** A packet for a client is one frame of the stream, and is read as a `RecvPacket` with its target and payload. */
  lemma ClientGets(t: PublicKey, p: seq<byte>)
    requires |p| < 0x1_0000_0000 - 32
    ensures var b := [0x05] + ToBytes(W4, 32 + |p|) + t.raw + p;
            && S.IsFrame(b) && S.MessageOf(b).ty == P.RecvPacket
            && P.Payload(PacketSchema(), b) == Some(Record([P.KeyValue(t), List(P.Nums(p))]))
            && Parse(PacketSchema(), AsPacket, b) == Some(P.Send(t, p))
  {
    var f := P.Recv(t, p);
    FrameIsSendable(f);
    P.BodyEnc(f);
    PacketLayout(t, p);
    FieldsReadBack(t, t, p);
  }

  /** What a client takes from a frame: a key and a payload, behind the tag 0x05 and the size. */
  function ReceivedFrom(b: seq<byte>): seq<(PublicKey, seq<byte>)>
  {
    if S.IsFrame(b) && b[0] == 0x05 && |b| >= 37 then [(P.PublicKey(b[5..37]), b[37..])] else []
  }

  function Receipts(frames: seq<seq<byte>>): seq<(PublicKey, seq<byte>)>
  {
    if frames == [] then [] else ReceivedFrom(frames[0]) + Receipts(frames[1..])
  }

  /** What the commands hold for the client, up to the first on which the write loop panics. */
  function Deliveries(cs: seq<WriteCommand>, key: PublicKey, canMesh: bool): seq<(PublicKey, seq<byte>)>
  {
    if cs == [] then []
    else
      match cs[0]
      case Notify(_) => Deliveries(cs[1..], key, canMesh)
      case Transmit(p) =>
        if p.target == key
        then if |p.payload| < 0x1_0000_0000 - 32 then [(key, p.payload)] + Deliveries(cs[1..], key, canMesh) else []
        else if canMesh && |p.payload| < 0x1_0000_0000 - 64 then Deliveries(cs[1..], key, canMesh) else []
  }

  lemma FrameReceived(f: Frame)
    requires f.Fits()
    ensures S.IsFrame(FrameBytes(f))
    ensures ReceivedFrom(FrameBytes(f)) == if f.Recv? then [(f.target, f.payload)] else []
  {
    IsOneFrame(f);
    match f
    case Recv(t, p) => RecvReceived(t, p);
    case _ => OnlyReceipts(f);
  }

  lemma IsOneFrame(f: Frame)
    requires f.Fits()
    ensures S.IsFrame(FrameBytes(f))
  {
    FrameIsSendable(f);
    P.BodyEnc(f);
  }

  lemma RecvReceived(t: PublicKey, p: seq<byte>)
    requires S.IsFrame(FrameBytes(P.Recv(t, p)))
    ensures ReceivedFrom(FrameBytes(P.Recv(t, p))) == [(t, p)]
  {
    PacketParts(FrameBytes(P.Recv(t, p)), 0x05, t, p);
  }

  lemma PacketParts(b: seq<byte>, tag: byte, t: PublicKey, p: seq<byte>)
    requires b == [tag] + Prefixed(W4, t.raw + p)
    ensures |b| >= 37 && b[0] == tag && b[5..37] == t.raw && b[37..] == p
  {}

  lemma OnlyReceipts(f: Frame)
    requires !f.Recv?
    ensures FrameBytes(f)[0] != 0x05
  {}

  function AllBytes(fs: seq<Frame>): (frames: seq<seq<byte>>)
    ensures |frames| == |fs|
  {
    if fs == [] then [] else [FrameBytes(fs[0])] + AllBytes(fs[1..])
  }

  lemma {:induction false} AllAreFrames(fs: seq<Frame>)
    requires forall i | 0 <= i < |fs| :: fs[i].Fits()
    ensures S.AllFrames(AllBytes(fs)) && S.Flatten(AllBytes(fs)) == WireBytes(fs)
  {
    if fs != [] {
      FrameReceived(fs[0]);
      AllAreFrames(fs[1..]);
      assert AllBytes(fs)[1..] == AllBytes(fs[1..]);
    }
  }

  lemma {:induction false} ReceiptsOfPrefix(a: seq<seq<byte>>, b: seq<seq<byte>>)
    requires a <= b
    ensures Receipts(a) <= Receipts(b)
  {
    if a != [] { ReceiptsOfPrefix(a[1..], b[1..]); }
  }

  lemma {:induction false} WrittenIsDelivered(cs: seq<WriteCommand>, key: PublicKey, canMesh: bool)
    ensures Receipts(AllBytes(ClientWriting(cs, key, canMesh).frames)) == Deliveries(cs, key, canMesh)
  {
    if cs != [] {
      WrittenIsDelivered(cs[1..], key, canMesh);
      OneDelivery(cs[0], key, canMesh);
      var action, rest := ClientWrites(cs[0], key, canMesh), ClientWriting(cs[1..], key, canMesh).frames;
      if action.Emit? {
        assert ([action.frame] + rest)[1..] == rest;
        assert AllBytes([action.frame] + rest)[1..] == AllBytes(rest);
      }
    }
  }

  lemma OneDelivery(c: WriteCommand, key: PublicKey, canMesh: bool)
    ensures var action := ClientWrites(c, key, canMesh);
            && (action.Emit? ==>
                  ReceivedFrom(FrameBytes(action.frame)) ==
                  if c.Transmit? && c.packet.target == key then [(key, c.packet.payload)] else [])
            && (action.Emit? <==> match c
                                  case Notify(_) => true
                                  case Transmit(p) => if p.target == key then |p.payload| < 0x1_0000_0000 - 32
                                                      else canMesh && |p.payload| < 0x1_0000_0000 - 64)
  {
    var action := ClientWrites(c, key, canMesh);
    if action.Emit? { FrameReceived(action.frame); }
    match c
    case Notify(k) => FitsIff(P.Announce(k));
    case Transmit(p) =>
      FitsIff(P.Recv(p.target, p.payload));
      FitsIff(P.Forward(p.source, p.target, p.payload));
  }

  /**
    However the bytes of a client's write loop are cut, and as far as they have arrived, the client
    takes from them the packets that were for its key, in order and unchanged; in the end, all of them
    up to one on which the loop panics.
   */
  lemma ClientReceives(cs: seq<WriteCommand>, ops: seq<S.Op>, key: PublicKey, canMesh: bool)
    requires S.After(ops).fed <= WireBytes(ClientWriting(cs, key, canMesh).frames)
    ensures Receipts(S.After(ops).out) <= Deliveries(cs, key, canMesh)
    ensures S.After(ops).fed == WireBytes(ClientWriting(cs, key, canMesh).frames) && !S.Complete(S.After(ops).data) ==>
            Receipts(S.After(ops).out) == Deliveries(cs, key, canMesh)
  {
    var fs := ClientWriting(cs, key, canMesh).frames;
    WrittenFit(cs, key, canMesh);
    AllAreFrames(fs);
    S.PrefixOfFrames(AllBytes(fs), ops);
    ReceiptsOfPrefix(S.After(ops).out, AllBytes(fs));
    WrittenIsDelivered(cs, key, canMesh);
  }
}
