/** The loops at the two ends of a connection, on bytes: from commands to a stream, and from a stream to commands. */
module Wire {
  import opened Bytes
  import opened Codec
  import opened Writers
  import opened Readers
  import P = Protocol
  import S = Stream
  import opened Routing
  import opened Links

  // ---------- reading ----------

  function KeyOf(v: Value): Option<PublicKey>
  {
    if v.Record? && |v.fields| == 1 && v.fields[0].Raw? && |v.fields[0].bytes| == 32
    then Some(P.PublicKey(v.fields[0].bytes)) else None
  }

  function BytesOf(items: seq<Value>): Option<seq<byte>>
  {
    if items == [] then Some([])
    else if items[0].Num? && items[0].n < 0x100 && BytesOf(items[1..]).Some?
    then Some([items[0].n as byte] + BytesOf(items[1..]).value) else None
  }

  lemma {:induction false} BytesOfNums(bs: seq<byte>)
    ensures BytesOf(P.Nums(bs)) == Some(bs)
  {
    if bs != [] {
      BytesOfNums(bs[1..]);
      assert P.Nums(bs)[1..] == P.Nums(bs[1..]);
      assert [bs[0]] + bs[1..] == bs;
    }
  }

  function PacketSchema(): Schema { Struct([P.KeySchema(), P.BytesSchema()]) }
  function ForwardSchema(): Schema { Struct([P.KeySchema(), P.KeySchema(), P.BytesSchema()]) }
  function PresentSchema(): Schema { Struct([P.KeySchema()]) }

  /** The fields of a packet, a forwarded packet and an announcement; none if the payload has another shape. */
  function AsPacket(v: Value): Option<Frame>
  {
    if v.Record? && |v.fields| == 2 && v.fields[1].List? && KeyOf(v.fields[0]).Some? && BytesOf(v.fields[1].items).Some?
    then Some(P.Send(KeyOf(v.fields[0]).value, BytesOf(v.fields[1].items).value)) else None
  }

  function AsForward(v: Value): Option<Frame>
  {
    if v.Record? && |v.fields| == 3 && v.fields[2].List? && KeyOf(v.fields[0]).Some? && KeyOf(v.fields[1]).Some?
        && BytesOf(v.fields[2].items).Some?
    then Some(P.Forward(KeyOf(v.fields[0]).value, KeyOf(v.fields[1]).value, BytesOf(v.fields[2].items).value)) else None
  }

  function AsPresent(v: Value): Option<Frame>
  {
    if v.Record? && |v.fields| == 1 && KeyOf(v.fields[0]).Some? then Some(P.Announce(KeyOf(v.fields[0]).value))
        else None
  }

  function Parse(s: Schema, read: Value -> Option<Frame>, buffer: seq<byte>): Option<Frame>
  {
    match P.Payload(s, buffer)
    case Some(v) => read(v)
    case None => None
  }

  /** What the read loop of `Client` does with a message, bytes and all. */
  function ClientActs(m: S.Message, key: PublicKey, canMesh: bool, sink: Sink): ReadAction
  {
    var f := match m.ty
             case SendPacket => Parse(PacketSchema(), AsPacket, m.buffer)
             case PeerPresent => Parse(PresentSchema(), AsPresent, m.buffer)
             case WatchConns => Some(P.Watch)
             case _ => None;
    if f.Some? then ClientReads(f.value, key, canMesh, sink) else Broken
  }

  /** And that of `MeshClient`. */
  function MeshClientActs(m: S.Message, sink: Sink): ReadAction
  {
    var f := match m.ty
             case PeerPresent => Parse(PresentSchema(), AsPresent, m.buffer)
             case ForwardPacket => Parse(ForwardSchema(), AsForward, m.buffer)
             case _ => None;
    if f.Some? then MeshClientReads(f.value, sink) else Broken
  }

  function SentFrame(f: Frame): S.Sent
  {
    S.Sent(f.Type(), f.Schema(), f.Value())
  }

  /** Every frame that fits can be sent, and arrives as one frame of its type with its payload. */
  lemma FrameIsSendable(f: Frame)
    requires f.Fits()
    ensures SentFrame(f).Sendable()
    ensures S.IsFrame(SentFrame(f).Bytes())
    ensures S.MessageOf(SentFrame(f).Bytes()).ty == f.Type()
        && P.Payload(f.Schema(), SentFrame(f).Bytes()) == Some(f.Value())
  {
    P.BodyEnc(f);
    S.SentIsFrame(SentFrame(f));
  }

  lemma FieldsReadBack(s: PublicKey, t: PublicKey, p: seq<byte>)
    ensures AsPacket(P.Send(t, p).Value()) == Some(P.Send(t, p))
    ensures AsForward(P.Forward(s, t, p).Value()) == Some(P.Forward(s, t, p))
    ensures AsPresent(P.Announce(t).Value()) == Some(P.Announce(t))
  {
    BytesOfNums(p);
  }

  /** A message that carries a frame's type and payload is acted on as the frame. */
  lemma MessageActsAsFrame(m: S.Message, f: Frame, key: PublicKey, canMesh: bool, sink: Sink)
    requires m.ty == f.Type() && P.Payload(f.Schema(), m.buffer) == Some(f.Value())
    ensures ClientActs(m, key, canMesh, sink) == ClientReads(f, key, canMesh, sink)
    ensures MeshClientActs(m, sink) == MeshClientReads(f, sink)
  {
    match f
    case Send(t, p) => FieldsReadBack(t, t, p);
    case Recv(_, _) =>
    case Forward(s, t, p) => FieldsReadBack(s, t, p);
    case Announce(k) => FieldsReadBack(k, k, []);
    case Watch =>
  }

  /** The commands a read loop sends, and whether it has ended. */
  datatype Reading = Reading(commands: seq<ServiceCommand>, ended: bool)

  function Then(action: ReadAction, rest: Reading): Reading
  {
    match action
    case Command(c) => rest.(commands := [c] + rest.commands)
    case Ignore => rest
    case Broken => Reading([], true)
  }

  function ClientReading(ms: seq<S.Message>, key: PublicKey, canMesh: bool, sink: Sink): Reading
  {
    if ms == [] then Reading([], false) else Then(ClientActs(ms[0], key, canMesh, sink),
        ClientReading(ms[1..], key, canMesh, sink))
  }

  function MeshClientReading(ms: seq<S.Message>, sink: Sink): Reading
  {
    if ms == [] then Reading([], false) else Then(MeshClientActs(ms[0], sink), MeshClientReading(ms[1..], sink))
  }

  /** Read a buffer as a frame and take its payload. */
  method ReadPayload(s: Schema, buffer: seq<byte>) returns (v: Option<Value>)
    requires WellFormed(s)
    ensures v == P.Payload(s, buffer)
  {
    P.FrameSchemasWellFormed(s);
    var input := new SliceReader(buffer);
    var frame := DecodeFrom(P.FrameSchema(s), input);
    v := if frame.Some? && frame.value.Record? && |frame.value.fields| == 2 then Some(frame.value.fields[1]) else None;
  }

  method ReadAndParse(s: Schema, read: Value -> Option<Frame>, buffer: seq<byte>) returns (f: Option<Frame>)
    requires s in {PacketSchema(), PresentSchema(), ForwardSchema()}
    ensures f == Parse(s, read, buffer)
  {
    PayloadSchemasWellFormed();
    var v := ReadPayload(s, buffer);
    f := if v.Some? then read(v.value) else None;
  }

  method ClientReadLoop(ms: seq<S.Message>, key: PublicKey, canMesh: bool, sink: Sink) returns (r: Reading)
    ensures r == ClientReading(ms, key, canMesh, sink)
  {
    var commands, i := [], 0;
    while i < |ms|
      invariant 0 <= i <= |ms|
      invariant Resumed(commands, ClientReading(ms[i..], key, canMesh, sink)) == ClientReading(ms, key, canMesh, sink)
    {
      assert ms[i..][0] == ms[i] && ms[i..][1..] == ms[i + 1..];
      var action := ClientTurn(ms[i], key, canMesh, sink);
      ResumedThen(commands, action, ClientReading(ms[i + 1..], key, canMesh, sink));
      if action.Broken? { return Reading(commands, true); }
      if action.Command? { commands := commands + [action.command]; }
      i := i + 1;
    }
    r := Reading(commands, false);
  }

  method ClientTurn(m: S.Message, key: PublicKey, canMesh: bool, sink: Sink) returns (r: ReadAction)
    ensures r == ClientActs(m, key, canMesh, sink)
  {
    match m.ty
    case SendPacket =>
      var f := ReadAndParse(PacketSchema(), AsPacket, m.buffer);
      if f.None? { return Broken; }
      r := Command(Route(Packet(key, f.value.target, f.value.payload)));
    case WatchConns =>
      if canMesh { r := Command(Subscribe(key, sink)); } else { r := Ignore; }
    case PeerPresent =>
      var f := ReadAndParse(PresentSchema(), AsPresent, m.buffer);
      if f.None? { return Broken; }
      r := Command(ServiceCommand.PeerPresent(f.value.key, sink));
    case _ => r := Broken;
  }

  method MeshClientReadLoop(ms: seq<S.Message>, sink: Sink) returns (r: Reading)
    ensures r == MeshClientReading(ms, sink)
  {
    var commands, i := [], 0;
    while i < |ms|
      invariant 0 <= i <= |ms|
      invariant Resumed(commands, MeshClientReading(ms[i..], sink)) == MeshClientReading(ms, sink)
    {
      assert ms[i..][0] == ms[i] && ms[i..][1..] == ms[i + 1..];
      var action := MeshClientTurn(ms[i], sink);
      ResumedThen(commands, action, MeshClientReading(ms[i + 1..], sink));
      if action.Broken? { return Reading(commands, true); }
      if action.Command? { commands := commands + [action.command]; }
      i := i + 1;
    }
    r := Reading(commands, false);
  }

  method MeshClientTurn(m: S.Message, sink: Sink) returns (r: ReadAction)
    ensures r == MeshClientActs(m, sink)
  {
    match m.ty
    case PeerPresent =>
      var f := ReadAndParse(PresentSchema(), AsPresent, m.buffer);
      if f.None? { return Broken; }
      r := Command(ServiceCommand.PeerPresent(f.value.key, sink));
    case ForwardPacket =>
      var f := ReadAndParse(ForwardSchema(), AsForward, m.buffer);
      if f.None? { return Broken; }
      r := Command(Route(Packet(f.value.source, f.value.target, f.value.payload)));
    case _ => r := Broken;
  }

  function Resumed(commands: seq<ServiceCommand>, rest: Reading): Reading
  {
    rest.(commands := commands + rest.commands)
  }

  lemma ResumedThen(commands: seq<ServiceCommand>, action: ReadAction, rest: Reading)
    ensures Resumed(commands, Then(action, rest)) ==
              match action
              case Command(c) => Resumed(commands + [c], rest)
              case Ignore => Resumed(commands, rest)
              case Broken => Reading(commands, true)
  {
    if action.Command? {
      assert commands + ([action.command] + rest.commands) == (commands + [action.command]) + rest.commands;
    } else if action.Broken? {
      assert commands + [] == commands;
    }
  }

  lemma PayloadSchemasWellFormed()
    ensures WellFormed(PacketSchema()) && WellFormed(ForwardSchema()) && WellFormed(PresentSchema())
  {
    var k, b := P.KeySchema(), P.BytesSchema();
    assert [Array(32)][1..] == [] && WellFormed(k) && WellFormed(b);
    assert [b][1..] == [] && [k][1..] == [];
    assert [k, b][1..] == [b] && WellFormedFields([b], None) && WellFormedFields([k, b], None);
    assert [k, k, b][1..] == [k, b];
  }

  // ---------- writing ----------

  /** The frames a write loop puts on the wire before it ends, and whether it ended in a panic. */
  datatype Writing = Writing(frames: seq<Frame>, panicked: bool)

  function ThenWrite(action: WriteAction, rest: Writing): Writing
  {
    if action.Emit? then rest.(frames := [action.frame] + rest.frames) else Writing([], true)
  }

  function ClientWriting(cs: seq<WriteCommand>, key: PublicKey, canMesh: bool): Writing
  {
    if cs == [] then Writing([], false) else ThenWrite(ClientWrites(cs[0], key, canMesh),
        ClientWriting(cs[1..], key, canMesh))
  }

  function MeshClientWriting(cs: seq<WriteCommand>): Writing
  {
    if cs == [] then Writing([], false) else ThenWrite(MeshClientWrites(cs[0]), MeshClientWriting(cs[1..]))
  }

  function WireBytes(fs: seq<Frame>): seq<byte>
  {
    if fs == [] then [] else FrameBytes(fs[0]) + WireBytes(fs[1..])
  }

  function FrameBytes(f: Frame): seq<byte>
  {
    [P.Tag(f.Type()) as byte] + Prefixed(W4, f.Body())
  }

  lemma InARow(tag: byte, size: seq<byte>, a: seq<byte>, b: seq<byte>)
    ensures [tag] + (size + (a + b)) == [tag] + size + a + b
  {}

  lemma PacketLayout(t: PublicKey, p: seq<byte>)
    ensures FrameBytes(P.Send(t, p)) == [0x04] + ToBytes(W4, 32 + |p|) + t.raw + p
    ensures FrameBytes(P.Recv(t, p)) == [0x05] + ToBytes(W4, 32 + |p|) + t.raw + p
  {
    InARow(0x04, ToBytes(W4, 32 + |p|), t.raw, p);
    InARow(0x05, ToBytes(W4, 32 + |p|), t.raw, p);
  }

  lemma ForwardLayout(s: PublicKey, t: PublicKey, p: seq<byte>)
    ensures FrameBytes(P.Forward(s, t, p)) == [0x0A] + ToBytes(W4, 64 + |p|) + s.raw + t.raw + p
  {
    InARow(0x0A, ToBytes(W4, 64 + |p|), s.raw + t.raw, p);
    Assoc([0x0A] + ToBytes(W4, 64 + |p|), s.raw, t.raw);
  }

  lemma AnnounceLayout(k: PublicKey)
    ensures FrameBytes(P.Announce(k)) == [0x09, 0, 0, 0, 32] + k.raw
  {
    assert ToBytes(W4, 32) == [0, 0, 0, 32];
    Assoc([0x09], [0, 0, 0, 32], k.raw);
    assert [0x09] + [0, 0, 0, 32] == [0x09, 0, 0, 0, 32];
  }

  lemma WatchLayout()
    ensures FrameBytes(P.Watch) == [0x10, 0, 0, 0, 0]
  {
    assert ToBytes(W4, 0) == [0, 0, 0, 0];
  }

  /** The bytes of the five frames: a tag, the size of what follows, and the keys and bytes that follow. */
  lemma FrameLayout(f: Frame)
    ensures FrameBytes(f) == match f
                             case Send(t, p) => [0x04] + ToBytes(W4, 32 + |p|) + t.raw + p
                             case Recv(t, p) => [0x05] + ToBytes(W4, 32 + |p|) + t.raw + p
                             case Forward(s, t, p) => [0x0A] + ToBytes(W4, 64 + |p|) + s.raw + t.raw + p
                             case Announce(k) => [0x09, 0, 0, 0, 32] + k.raw
                             case Watch => [0x10, 0, 0, 0, 0]
  {
    match f
    case Send(t, p) => PacketLayout(t, p);
    case Recv(t, p) => PacketLayout(t, p);
    case Forward(s, t, p) => ForwardLayout(s, t, p);
    case Announce(k) => AnnounceLayout(k);
    case Watch => WatchLayout();
  }

  /** A frame fits unless it carries a payload of nearly four gigabytes. */
  lemma FitsIff(f: Frame)
    ensures f.Fits() <==> match f
                          case Forward(_, _, p) => |p| < 0x1_0000_0000 - 64
                          case Announce(_) => true
                          case Watch => true
                          case _ => |f.payload| < 0x1_0000_0000 - 32
  {}

  /** Encode into a buffer of its own and write that out. */
  method WriteValue(s: Schema, v: Value, out: VecWriter) returns (ok: bool)
    requires Typed(s, v)
    modifies out
    ensures ok <==> Codec.Fits(s, v)
    ensures out.data == if ok then old(out.data) + Enc(s, v) else old(out.data)
  {
    var writingBuffer := new VecWriter();
    var r := EncodeToVec(s, v, writingBuffer);
    if !r.Wrote? { return false; }
    out.FillFrom(writingBuffer.data);
    ok := true;
  }

  ghost predicate Encodable(s: Schema, v: Value) { Typed(s, v) && Codec.Fits(s, v) }

  /** Every payload can be encoded; only the frame around it may be too long. */
  lemma PayloadEncodable(f: Frame)
    ensures Encodable(f.Schema(), f.Value()) && Enc(f.Schema(), f.Value()) == f.Body()
  {
    P.BodyEnc(f);
  }

  method WritePayload(t: P.FrameType, s: Schema, v: Value, out: VecWriter) returns (ok: bool)
    requires P.Tag(t) < 0x100 && Encodable(s, v)
    modifies out
    ensures ok <==> |Enc(s, v)| < W4.Limit()
    ensures out.data == if ok then old(out.data) + ([P.Tag(t) as byte] + Prefixed(W4, Enc(s, v))) else old(out.data)
  {
    P.FrameEnc(t, s, v, false);
    ok := WriteValue(P.FrameSchema(s), P.FrameValue(t, v), out);
  }

  /** Write a frame; one that is too long for its size field panics. */
  method WriteFrame(f: Frame, out: VecWriter) returns (ok: bool)
    modifies out
    ensures ok <==> f.Fits()
    ensures out.data == if ok then old(out.data) + FrameBytes(f) else old(out.data)
  {
    PayloadEncodable(f);
    ok := WritePayload(f.Type(), f.Schema(), f.Value(), out);
  }

  /** What has been written when all is done, and whether that was a panic. */
  ghost function Finished(before: seq<byte>, w: Writing): (seq<byte>, bool)
  {
    (before + WireBytes(w.frames), w.panicked)
  }

  lemma WriteThen(before: seq<byte>, action: WriteAction, rest: Writing)
    ensures Finished(before, ThenWrite(action, rest)) ==
            if action.Emit? then Finished(before + FrameBytes(action.frame), rest) else (before, true)
  {
    if action.Emit? {
      var f, fs := action.frame, [action.frame] + rest.frames;
      assert fs[1..] == rest.frames;
      assert WireBytes(fs) == FrameBytes(f) + WireBytes(rest.frames);
      Assoc(before, FrameBytes(f), WireBytes(rest.frames));
    } else {
      assert before + [] == before;
    }
  }

  lemma NothingToWrite(before: seq<byte>)
    ensures Finished(before, Writing([], false)) == (before, false)
  {
    assert before + [] == before;
  }

  /** A turn of the write loop of `Client`; `ok` is false when it panics. */
  method ClientWriteTurn(c: WriteCommand, key: PublicKey, canMesh: bool, out: VecWriter) returns (ok: bool)
    modifies out
    ensures ok <==> ClientWrites(c, key, canMesh).Emit?
    ensures out.data == if ok then old(out.data) + FrameBytes(ClientWrites(c, key, canMesh).frame) else old(out.data)
  {
    var f;
    match c {
      case Transmit(p) =>
        if p.target == key {
          f := P.Recv(p.target, p.payload);
        } else if canMesh {
          f := P.Forward(p.source, p.target, p.payload);
        } else {
          return false;
        }
      case Notify(k) => f := P.Announce(k);
    }
    ok := WriteFrame(f, out);
  }

  method ClientWriteLoop(cs: seq<WriteCommand>, key: PublicKey, canMesh: bool, out: VecWriter) returns (panicked: bool)
    modifies out
    ensures var w := ClientWriting(cs, key, canMesh);
            panicked == w.panicked && out.data == old(out.data) + WireBytes(w.frames)
  {
    var i := 0;
    ghost var all := Finished(out.data, ClientWriting(cs, key, canMesh));
    assert cs[0..] == cs;
    while i < |cs|
      invariant 0 <= i <= |cs|
      invariant Finished(out.data, ClientWriting(cs[i..], key, canMesh)) == all
    {
      assert cs[i..][0] == cs[i] && cs[i..][1..] == cs[i + 1..];
      ghost var before, action := out.data, ClientWrites(cs[i], key, canMesh);
      var ok := ClientWriteTurn(cs[i], key, canMesh, out);
      WriteThen(before, action, ClientWriting(cs[i + 1..], key, canMesh));
      if !ok { return true; }
      i := i + 1;
    }
    assert cs[i..] == [];
    NothingToWrite(out.data);
    panicked := false;
  }

  /** The bytes that a turn writes, at either end, and when it panics. */
  lemma TurnBytes(c: WriteCommand, key: PublicKey, canMesh: bool)
    ensures var a, b := ClientWrites(c, key, canMesh), MeshClientWrites(c);
            match c
            case Notify(k) => a.Emit? && b == a && FrameBytes(a.frame) == [0x09, 0, 0, 0, 32] + k.raw
            case Transmit(p) =>
              && b.Panic?
              && if p.target == key
                 then && (a.Emit? <==> |p.payload| < 0x1_0000_0000 - 32)
                      && (a.Emit? ==>
                            FrameBytes(a.frame) == [0x05] + ToBytes(W4, 32 + |p.payload|) + key.raw + p.payload)
                 else && (a.Emit? <==> canMesh && |p.payload| < 0x1_0000_0000 - 64)
                      && (a.Emit? ==>
                            FrameBytes(a.frame) == [0x0A] + ToBytes(W4, 64 + |p.payload|) + p.source.raw
                                                   + p.target.raw + p.payload)
  {
    match c
    case Notify(k) => AnnounceLayout(k);
    case Transmit(p) =>
      PacketLayout(p.target, p.payload);
      ForwardLayout(p.source, p.target, p.payload);
      FitsIff(P.Recv(p.target, p.payload));
      FitsIff(P.Forward(p.source, p.target, p.payload));
  }

  /** A turn of the write loop of `MeshClient`. */
  method MeshClientWriteTurn(c: WriteCommand, out: VecWriter) returns (ok: bool)
    modifies out
    ensures ok <==> MeshClientWrites(c).Emit?
    ensures out.data == if ok then old(out.data) + FrameBytes(MeshClientWrites(c).frame) else old(out.data)
  {
    match c {
      case Notify(k) => ok := WriteFrame(P.Announce(k), out);
      case Transmit(_) => ok := false;
    }
  }

  method MeshClientWriteLoop(cs: seq<WriteCommand>, out: VecWriter) returns (panicked: bool)
    modifies out
    ensures var w := MeshClientWriting(cs);
            panicked == w.panicked && out.data == old(out.data) + WireBytes(w.frames)
  {
    var i := 0;
    ghost var all := Finished(out.data, MeshClientWriting(cs));
    assert cs[0..] == cs;
    while i < |cs|
      invariant 0 <= i <= |cs|
      invariant Finished(out.data, MeshClientWriting(cs[i..])) == all
    {
      assert cs[i..][0] == cs[i] && cs[i..][1..] == cs[i + 1..];
      ghost var before, action := out.data, MeshClientWrites(cs[i]);
      var ok := MeshClientWriteTurn(cs[i], out);
      WriteThen(before, action, MeshClientWriting(cs[i + 1..]));
      if !ok { return true; }
      i := i + 1;
    }
    assert cs[i..] == [];
    NothingToWrite(out.data);
    panicked := false;
  }

  // ---------- both ends of a link ----------

  /**
    Frames written one after the other, cut into whatever pieces the network likes, are read at the
    other end as those frames, in order, and each is acted on as that frame: as far as they have
    arrived, and once all has arrived and been drained, all of them.
   */
  lemma LinkConveys(fs: seq<Frame>, ops: seq<S.Op>, key: PublicKey, canMesh: bool, sink: Sink)
    requires forall i | 0 <= i < |fs| :: fs[i].Fits()
    requires S.After(ops).fed <= WireBytes(fs)
    ensures |S.After(ops).out| <= |fs|
    ensures forall i | 0 <= i < |S.After(ops).out| :: ReadAs(S.After(ops).out[i], fs[i], key, canMesh, sink)
    ensures S.After(ops).fed == WireBytes(fs) && !S.Complete(S.After(ops).data) ==>
            |S.After(ops).out| == |fs| && S.After(ops).data == []
  {
    FlattenIsWireBytes(fs);
    var sent, out := SentFrames(fs), S.After(ops).out;
    S.FrameStreamRoundTrip(sent, ops);
    forall i | 0 <= i < |out| ensures ReadAs(out[i], fs[i], key, canMesh, sink) {
      assert sent[i] == SentFrame(fs[i]) && S.ArrivesAs(out[i], sent[i]);
      MessageActsAsFrame(S.MessageOf(out[i]), fs[i], key, canMesh, sink);
    }
  }

  /** The bytes of a message are acted on, at either end, as the frame `f`. */
  predicate ReadAs(frame: seq<byte>, f: Frame, key: PublicKey, canMesh: bool, sink: Sink)
  {
    && frame != []
    && ClientActs(S.MessageOf(frame), key, canMesh, sink) == ClientReads(f, key, canMesh, sink)
    && MeshClientActs(S.MessageOf(frame), sink) == MeshClientReads(f, sink)
  }

  /** All that a write loop puts on the wire fits, and so is conveyed. */
  lemma {:induction false} WrittenFit(cs: seq<WriteCommand>, key: PublicKey, canMesh: bool)
    ensures forall i | 0 <= i < |ClientWriting(cs, key, canMesh).frames| ::
        ClientWriting(cs, key, canMesh).frames[i].Fits()
  {
    if cs != [] { WrittenFit(cs[1..], key, canMesh); }
  }

  function SentFrames(fs: seq<Frame>): (sent: seq<S.Sent>)
    ensures |sent| == |fs| && forall i | 0 <= i < |fs| :: sent[i] == SentFrame(fs[i])
  {
    if fs == [] then [] else [SentFrame(fs[0])] + SentFrames(fs[1..])
  }

  lemma {:induction false} FlattenIsWireBytes(fs: seq<Frame>)
    requires forall i | 0 <= i < |fs| :: fs[i].Fits()
    ensures forall i | 0 <= i < |fs| :: SentFrames(fs)[i].Sendable()
    ensures S.Flatten(S.WireOf(SentFrames(fs))) == WireBytes(fs)
  {
    forall i | 0 <= i < |fs| ensures SentFrames(fs)[i].Sendable() { FrameIsSendable(fs[i]); }
    if fs != [] {
      P.BodyEnc(fs[0]);
      FlattenIsWireBytes(fs[1..]);
      assert SentFrames(fs)[1..] == SentFrames(fs[1..]);
      assert S.WireOf(SentFrames(fs))[1..] == S.WireOf(SentFrames(fs)[1..]);
    }
  }

  // ---------- from commands to commands ----------

  function Messages(frames: seq<seq<byte>>): (ms: seq<S.Message>)
    requires forall i | 0 <= i < |frames| :: frames[i] != []
    ensures |ms| == |frames|
  {
    if frames == [] then [] else [S.MessageOf(frames[0])] + Messages(frames[1..])
  }

  /**
    What the commands of an accepting end that may mesh become at the dialling end: packets are
    routed there, keys are announced there. A packet for the dialling end's own key ends its read
    loop, a packet too long for a frame the write loop.
   */
  function Relayed(cs: seq<WriteCommand>, key: PublicKey, sink: Sink): Reading
  {
    if cs == [] then Reading([], false)
    else
      match cs[0]
      case Notify(k) => Then(Command(ServiceCommand.PeerPresent(k, sink)), Relayed(cs[1..], key, sink))
      case Transmit(p) =>
        if p.target == key then Reading([], P.Recv(key, p.payload).Fits())
        else if P.Forward(p.source, p.target, p.payload).Fits() then Then(Command(Route(p)),
            Relayed(cs[1..], key, sink))
        else Reading([], false)
  }

  function FramesReading(fs: seq<Frame>, sink: Sink): Reading
  {
    if fs == [] then Reading([], false) else Then(MeshClientReads(fs[0], sink), FramesReading(fs[1..], sink))
  }

  function ClientFramesReading(fs: seq<Frame>, key: PublicKey, canMesh: bool, sink: Sink): Reading
  {
    if fs == [] then Reading([], false) else Then(ClientReads(fs[0], key, canMesh, sink),
        ClientFramesReading(fs[1..], key, canMesh, sink))
  }

  /** As many messages as have come out are read as so many frames. */
  lemma {:induction false} ReadsFrames(out: seq<seq<byte>>, fs: seq<Frame>, key: PublicKey, canMesh: bool, sink: Sink)
    requires |out| <= |fs| && forall i | 0 <= i < |out| :: ReadAs(out[i], fs[i], key, canMesh, sink)
    requires forall i | 0 <= i < |out| :: out[i] != []
    ensures MeshClientReading(Messages(out), sink) == FramesReading(fs[..|out|], sink)
    ensures ClientReading(Messages(out), key, canMesh, sink) == ClientFramesReading(fs[..|out|], key, canMesh, sink)
  {
    if out != [] {
      assert ReadAs(out[0], fs[0], key, canMesh, sink);
      assert Messages(out)[1..] == Messages(out[1..]) && fs[..|out|][1..] == fs[1..][..|out| - 1];
      forall i | 0 <= i < |out| - 1 ensures ReadAs(out[1..][i], fs[1..][i], key, canMesh, sink) {
        assert ReadAs(out[i + 1], fs[i + 1], key, canMesh, sink);
      }
      ReadsFrames(out[1..], fs[1..], key, canMesh, sink);
    }
  }

  lemma {:induction false} ReadsPrefix(fs: seq<Frame>, n: nat, key: PublicKey, canMesh: bool, sink: Sink)
    requires n <= |fs|
    ensures FramesReading(fs[..n], sink).commands <= FramesReading(fs, sink).commands
    ensures ClientFramesReading(fs[..n], key, canMesh, sink).commands <= ClientFramesReading(fs, key, canMesh,
        sink).commands
  {
    if n > 0 {
      assert fs[..n][1..] == fs[1..][..n - 1];
      ReadsPrefix(fs[1..], n - 1, key, canMesh, sink);
    }
  }

  lemma {:induction false} WritesRelayed(cs: seq<WriteCommand>, key: PublicKey, sink: Sink)
    ensures FramesReading(ClientWriting(cs, key, true).frames, sink) == Relayed(cs, key, sink)
  {
    if cs != [] {
      WritesRelayed(cs[1..], key, sink);
      var action, rest := ClientWrites(cs[0], key, true), ClientWriting(cs[1..], key, true).frames;
      if action.Emit? { assert ([action.frame] + rest)[1..] == rest; }
    }
  }

  /** The messages that have come out so far. */
  ghost function Out(ops: seq<S.Op>): seq<S.Message>
  {
    var out := S.After(ops).out;
    if forall i | 0 <= i < |out| :: out[i] != [] then Messages(out) else []
  }

  lemma OutReads(fs: seq<Frame>, ops: seq<S.Op>, key: PublicKey, canMesh: bool, sink: Sink)
    requires (forall i | 0 <= i < |fs| :: fs[i].Fits()) && S.After(ops).fed <= WireBytes(fs)
    ensures MeshClientReading(Out(ops), sink).commands <= FramesReading(fs, sink).commands
    ensures ClientReading(Out(ops), key, canMesh, sink).commands <= ClientFramesReading(fs, key, canMesh, sink).commands
    ensures S.After(ops).fed == WireBytes(fs) && !S.Complete(S.After(ops).data) ==>
              && MeshClientReading(Out(ops), sink) == FramesReading(fs, sink)
              && ClientReading(Out(ops), key, canMesh, sink) == ClientFramesReading(fs, key, canMesh, sink)
  {
    var out := S.After(ops).out;
    LinkConveys(fs, ops, key, canMesh, sink);
    forall i | 0 <= i < |out| ensures out[i] != [] { assert ReadAs(out[i], fs[i], key, canMesh, sink); }
    ReadsFrames(out, fs, key, canMesh, sink);
    ReadsPrefix(fs, |out|, key, canMesh, sink);
    assert |out| == |fs| ==> fs[..|out|] == fs;
  }

  /**
    Over a mesh link, however its bytes are cut and as far as they have arrived, the commands given to
    the accepting end come out at the dialling end, in order and unchanged; in the end, all of them.
   */
  lemma LinkRelays(cs: seq<WriteCommand>, ops: seq<S.Op>, key: PublicKey, sink: Sink)
    requires S.After(ops).fed <= WireBytes(ClientWriting(cs, key, true).frames)
    ensures MeshClientReading(Out(ops), sink).commands <= Relayed(cs, key, sink).commands
    ensures S.After(ops).fed == WireBytes(ClientWriting(cs, key, true).frames) && !S.Complete(S.After(ops).data) ==>
              MeshClientReading(Out(ops), sink) == Relayed(cs, key, sink)
  {
    WrittenFit(cs, key, true);
    OutReads(ClientWriting(cs, key, true).frames, ops, key, true, sink);
    WritesRelayed(cs, key, sink);
  }

  /** The announcements among the commands of a dialling end, up to the first packet, on which its write loop panics. */
  function Announced(cs: seq<WriteCommand>, sink: Sink): seq<ServiceCommand>
  {
    if cs == [] || cs[0].Transmit? then [] else [ServiceCommand.PeerPresent(cs[0].key, sink)] + Announced(cs[1..], sink)
  }

  lemma {:induction false} WritesAnnounced(cs: seq<WriteCommand>, key: PublicKey, canMesh: bool, sink: Sink)
    ensures ClientFramesReading(MeshClientWriting(cs).frames, key, canMesh, sink) == Reading(Announced(cs, sink), false)
    ensures forall i | 0 <= i < |MeshClientWriting(cs).frames| :: MeshClientWriting(cs).frames[i].Fits()
  {
    if cs != [] && cs[0].Notify? {
      WritesAnnounced(cs[1..], key, canMesh, sink);
      var rest := MeshClientWriting(cs[1..]).frames;
      assert ([P.Announce(cs[0].key)] + rest)[1..] == rest;
    }
  }

  /**
    The other way, the subscription with which the dialling end begins comes out first, if the accepting
    end may mesh, and then the announcements in order.
   */
  lemma LinkRelaysBack(cs: seq<WriteCommand>, ops: seq<S.Op>, key: PublicKey, canMesh: bool, sink: Sink)
    requires S.After(ops).fed <= WireBytes([P.Watch] + MeshClientWriting(cs).frames)
    ensures var all := (if canMesh then [Subscribe(key, sink)] else []) + Announced(cs, sink);
            && ClientReading(Out(ops), key, canMesh, sink).commands <= all
            && (S.After(ops).fed == WireBytes([P.Watch] + MeshClientWriting(cs).frames)
                && !S.Complete(S.After(ops).data) ==>
                  ClientReading(Out(ops), key, canMesh, sink) == Reading(all, false))
  {
    var fs, rest := [P.Watch] + MeshClientWriting(cs).frames, MeshClientWriting(cs).frames;
    WritesAnnounced(cs, key, canMesh, sink);
    assert fs[1..] == rest && [] + Announced(cs, sink) == Announced(cs, sink);
    OutReads(fs, ops, key, canMesh, sink);
  }
}
