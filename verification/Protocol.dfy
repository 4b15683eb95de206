/** The frames of the relay protocol, as instances of the wire format. */
module Protocol {
  import opened Bytes
  import opened Codec
  import opened CodecLaws

  // ---------- frame types ----------

  datatype FrameType =
    | ServerKey | ClientInfo | ServerInfo | SendPacket | RecvPacket | KeepAlive | NotePreferred
    | PeerGone | PeerPresent | ForwardPacket | WatchConns | ClosePeer | Ping | Pong | ControlMessage
    | Unknown(tag: nat)

  /** The tags of the variants; an unknown frame type keeps the tag it was read with. */
  function Tag(t: FrameType): nat
  {
    match t
    case ServerKey => 0x01 case ClientInfo => 0x02 case ServerInfo => 0x03 case SendPacket => 0x04
    case RecvPacket => 0x05 case KeepAlive => 0x06 case NotePreferred => 0x07 case PeerGone => 0x08
    case PeerPresent => 0x09 case ForwardPacket => 0x0A case WatchConns => 0x10 case ClosePeer => 0x11
    case Ping => 0x12 case Pong => 0x13 case ControlMessage => 0x14 case Unknown(tag) => tag
  }

  /** The order of the variants. */
  function Index(t: FrameType): (i: nat)
    ensures i < 16 && (t.Unknown? <==> i == 15)
  {
    match t
    case ServerKey => 0 case ClientInfo => 1 case ServerInfo => 2 case SendPacket => 3
    case RecvPacket => 4 case KeepAlive => 5 case NotePreferred => 6 case PeerGone => 7
    case PeerPresent => 8 case ForwardPacket => 9 case WatchConns => 10 case ClosePeer => 11
    case Ping => 12 case Pong => 13 case ControlMessage => 14 case Unknown(_) => 15
  }

  function Known(i: nat): (t: FrameType)
    requires i < 15
    ensures Index(t) == i
  {
    if i == 0 then ServerKey else if i == 1 then ClientInfo else if i == 2 then ServerInfo
        else if i == 3 then SendPacket
    else if i == 4 then RecvPacket else if i == 5 then KeepAlive else if i == 6 then NotePreferred
        else if i == 7 then PeerGone
    else if i == 8 then PeerPresent else if i == 9 then ForwardPacket else if i == 10 then WatchConns
        else if i == 11 then ClosePeer
    else if i == 12 then Ping else if i == 13 then Pong else ControlMessage
  }

  /** The variants are told apart by their place, and by their tag. */
  lemma KnownInjective(t: FrameType, t': FrameType)
    requires !t.Unknown? && !t'.Unknown?
    ensures (Index(t) == Index(t') <==> t == t') && (Tag(t) == Tag(t') <==> t == t')
  {
    TagsRise(t, t');
    TagsRise(t', t);
  }

  lemma TagOfPlace(t: FrameType)
    requires !t.Unknown?
    ensures Tag(t) == if Index(t) < 10 then Index(t) + 1 else Index(t) + 6
  {}

  /** The tags rise in the order of the variants. */
  lemma TagsRise(t: FrameType, t': FrameType)
    requires !t.Unknown? && !t'.Unknown?
    ensures Tag(t) < Tag(t') <==> Index(t) < Index(t')
  {
    TagOfPlace(t);
    TagOfPlace(t');
  }

  /** And are 0x01 to 0x0A and 0x10 to 0x14, all of them. */
  lemma TagsAre(tag: nat)
    ensures (exists t: FrameType :: !t.Unknown? && Tag(t) == tag) <==> 0x01 <= tag <= 0x0A || 0x10 <= tag <= 0x14
  {
    if 0x01 <= tag <= 0x0A || 0x10 <= tag <= 0x14 {
      var t := Known(if tag <= 0x0A then tag - 1 else tag - 6);
      TagOfPlace(t);
      assert !t.Unknown? && Tag(t) == tag;
    }
    forall t: FrameType | !t.Unknown? ensures 0x01 <= Tag(t) <= 0x0A || 0x10 <= Tag(t) <= 0x14 {
      TagOfPlace(t);
    }
  }

  function Variants(): (vs: seq<Variant>)
    ensures |vs| == 16 && vs[15] == Variant(None, [TagField(W1)])
    ensures forall i | 0 <= i < 15 :: vs[i] == Variant(Some(Tag(Known(i))), [])
  {
    seq(15, i requires 0 <= i < 15 => Variant(Some(Tag(Known(i))), [])) + [Variant(None, [TagField(W1)])]
  }

  function TypeSchema(): Schema { Enum(W1, Variants()) }

  function TypeValue(t: FrameType): Value
  {
    Tagged(Index(t), if t.Unknown? then [Num(t.tag)] else [])
  }

  /** The frame type that a decoded value stands for. */
  function TypeOfValue(v: Value): FrameType
    requires v.Tagged? && (v.index < 15 || (v.fields != [] && v.fields[0].Num?))
  {
    if v.index < 15 then Known(v.index) else Unknown(v.fields[0].n)
  }

  lemma TypeValueInjective(t: FrameType)
    ensures TypeOfValue(TypeValue(t)) == t
  {
    if !t.Unknown? { KnownInjective(t, Known(Index(t))); }
  }

  /** The frame type that the decoder makes of a tag byte. */
  function TypeOfTag(tag: nat): (t: FrameType)
  {
    var i := Arm(Variants(), tag);
    if i < 15 then Known(i) else Unknown(tag)
  }

  lemma ArmBound(tag: nat)
    ensures Arm(Variants(), tag) <= 15
    ensures Arm(Variants(), tag) < 15 ==> Tag(Known(Arm(Variants(), tag))) == tag
  {
    assert Matches(Variants()[15], tag);
  }

  /** Every byte is the tag of exactly one frame type that the decoder can yield. */
  lemma TagsAreBytes(tag: nat)
    requires tag < 0x100
    ensures Tag(TypeOfTag(tag)) == tag
    ensures TypeValue(TypeOfTag(tag)) == Tagged(Arm(Variants(), tag), if Arm(Variants(), tag) == 15 then [Num(tag)]
        else [])
  {
    ArmBound(tag);
  }

  /** The frame types that decoding yields: those whose tag, if unknown, is no known tag. */
  predicate Genuine(t: FrameType)
  {
    t.Unknown? ==> t.tag < 0x100 && forall i | 0 <= i < 15 :: Tag(Known(i)) != t.tag
  }

  lemma GenuineIsDecoded(t: FrameType)
    requires Tag(t) < 0x100
    ensures Genuine(t) <==> TypeOfTag(Tag(t)) == t
  {
    ArmBound(Tag(t));
    if t.Unknown? { UnknownArm(t.tag); } else { KnownArm(t); }
  }

  lemma UnknownArm(tag: nat)
    ensures Arm(Variants(), tag) >= 15 <==> forall i | 0 <= i < 15 :: Tag(Known(i)) != tag
  {
    ArmBound(tag);
    forall j | 0 <= j < 15 && Tag(Known(j)) == tag ensures Arm(Variants(), tag) <= j {
      assert Matches(Variants()[j], tag);
    }
  }

  lemma KnownArm(t: FrameType)
    requires !t.Unknown?
    ensures TypeOfTag(Tag(t)) == t
  {
    KnownInjective(t, Known(Index(t)));
    assert Matches(Variants()[Index(t)], Tag(t));
    ArmBound(Tag(t));
    KnownInjective(t, Known(Arm(Variants(), Tag(t))));
  }

  /** A frame type is one byte, its tag. */
  lemma TypeEnc(t: FrameType)
    requires Tag(t) < 0x100
    ensures Typed(TypeSchema(), TypeValue(t)) && Fits(TypeSchema(), TypeValue(t))
    ensures Enc(TypeSchema(), TypeValue(t)) == [Tag(t) as byte]
  {
    var i, vs := Index(t), TypeValue(t).fields;
    assert Variants()[i].fields == if i < 15 then [] else [TagField(W1)];
    if i == 15 {
      var fs := [TagField(W1)];
      assert fs[1..] == [] && vs[1..] == [];
      assert TypedFields(fs, vs) && FitsFields(fs, vs) && EncFields(fs, vs) == [];
    }
    assert TagOf(Variants()[i], vs) == Some(Tag(t));
  }

  /** Every byte decodes to a genuine frame type, and that frame type encodes to the byte. */
  lemma TypeDecode(b: byte, rest: seq<byte>)
    ensures var t := TypeOfTag(b as nat);
            && Genuine(t) && Tag(t) == b as nat
            && Decode(TypeSchema(), [b] + rest) == Done(TypeValue(t), rest)
            && Typed(TypeSchema(), TypeValue(t)) && Enc(TypeSchema(), TypeValue(t)) == [b]
  {
    var tag := b as nat;
    TagsAreBytes(tag);
    GenuineIsDecoded(TypeOfTag(tag));
    TypeEnc(TypeOfTag(tag));
    var i := Arm(Variants(), tag);
    ArmBound(tag);
    assert DecodeInt(W1, [b] + rest) == Done(tag, rest);
    if i == 15 {
      var fs := [TagField(W1)];
      assert fs[1..] == [] && DecodeFields(fs[1..], Some(tag), rest) == Done([], rest);
      assert [Num(tag)] + [] == [Num(tag)];
      assert DecodeFields(fs, Some(tag), rest) == Done([Num(tag)], rest);
    }
  }

  /** A frame type that was not decoded survives the wire exactly when it is genuine. */
  lemma TypeRoundTripIff(t: FrameType, rest: seq<byte>)
    requires Tag(t) < 0x100
    ensures Typed(TypeSchema(), TypeValue(t))
    ensures Decode(TypeSchema(), Enc(TypeSchema(), TypeValue(t)) + rest) == Done(TypeValue(t), rest) <==> Genuine(t)
  {
    TypeEnc(t);
    TypeDecode(Tag(t) as byte, rest);
    GenuineIsDecoded(t);
    var t' := TypeOfTag(Tag(t));
    assert TypeValue(t) == TypeValue(t') ==> t == t';
  }

  // ---------- headers and frames ----------

  /** A struct one field at a time. */
  lemma Cons(s: Schema, fs: seq<Schema>, v: Value, vs: seq<Value>, more: bool)
    ensures TypedFields([s] + fs, [v] + vs) <==> Typed(s, v) && TypedFields(fs, vs)
    ensures TypedFields([s] + fs, [v] + vs) ==>
      && EncFields([s] + fs, [v] + vs) == Enc(s, v) + EncFields(fs, vs)
      && (FitsFields([s] + fs, [v] + vs) <==> Fits(s, v) && FitsFields(fs, vs))
      && (CanonFields([s] + fs, None, [v] + vs, more) <==>
            Canon(s, v, more || EncFields(fs, vs) != []) && CanonFields(fs, None, vs, more))
  {
    assert ([s] + fs)[1..] == fs && ([v] + vs)[1..] == vs;
  }

  function HeaderSchema(): Schema { Struct([TypeSchema(), Int(W4)]) }

  function FrameSchema(payload: Schema): Schema { Struct([TypeSchema(), Sized(W4, payload)]) }

  function FrameValue(t: FrameType, payload: Value): Value { Record([TypeValue(t), payload]) }

  /** The header decodes from any five bytes: the type is the first, the size the other four. */
  lemma HeaderDecode(b: seq<byte>)
    requires |b| == 5
    ensures Decode(HeaderSchema(), b) == Done(Record([TypeValue(TypeOfTag(b[0] as nat)), Num(FromBytes(W4, b[1..]))]),
        [])
  {
    var t, size := TypeValue(TypeOfTag(b[0] as nat)), Num(FromBytes(W4, b[1..]));
    TypeDecode(b[0], b[1..]);
    assert b == [b[0]] + b[1..];
    SizeDecode(b[1..]);
    DecodePair(TypeSchema(), Int(W4), b, t, b[1..], size, []);
  }

  lemma SizeDecode(b: seq<byte>)
    requires |b| == 4
    ensures Decode(Int(W4), b) == Done(Num(FromBytes(W4, b)), [])
  {
    assert b[..4] == b && b[4..] == [];
  }

  lemma DecodePair(s: Schema, s': Schema, b: seq<byte>, v: Value, left: seq<byte>, v': Value, rest: seq<byte>)
    requires Decode(s, b) == Done(v, left) && Decode(s', left) == Done(v', rest)
    requires !s.TagField? && !s'.TagField?
    ensures Decode(Struct([s, s']), b) == Done(Record([v, v']), rest)
  {
    var fs := [s, s'];
    assert fs[1..] == [s'] && fs[1..][1..] == [];
    assert DecodeFields(fs[1..], None, left) == Done([v'] + [], rest);
    assert [v] + ([v'] + []) == [v, v'];
  }

  /** A frame is its type, the size of its payload, and the payload. */
  lemma FrameEnc(t: FrameType, s: Schema, v: Value, more: bool)
    requires Tag(t) < 0x100 && Typed(s, v)
    ensures Typed(FrameSchema(s), FrameValue(t, v))
    ensures Enc(FrameSchema(s), FrameValue(t, v)) == [Tag(t) as byte] + Prefixed(W4, Enc(s, v))
    ensures Fits(FrameSchema(s), FrameValue(t, v)) <==> Fits(s, v) && |Enc(s, v)| < W4.Limit()
    ensures Canon(FrameSchema(s), FrameValue(t, v), more) <==> Genuine(t) && Canon(s, v, false)
  {
    TypeEnc(t);
    Pair(TypeSchema(), Sized(W4, s), TypeValue(t), v, more);
    TypeRoundTripIff(t, [0]);
    RoundTripIffCanonical(TypeSchema(), TypeValue(t), [0]);
  }

  /** A struct of two fields. */
  lemma Pair(s: Schema, s': Schema, v: Value, v': Value, more: bool)
    requires Typed(s, v) && Typed(s', v')
    ensures Typed(Struct([s, s']), Record([v, v']))
    ensures Enc(Struct([s, s']), Record([v, v'])) == Enc(s, v) + Enc(s', v')
    ensures Fits(Struct([s, s']), Record([v, v'])) <==> Fits(s, v) && Fits(s', v')
    ensures Canon(Struct([s, s']), Record([v, v']), more) <==>
            Canon(s, v, more || Enc(s', v') != []) && Canon(s', v', more)
  {
    Cons(s', [], v', [], more);
    Cons(s, [s'] + [], v, [v'] + [], more);
    assert [s, s'] == [s] + ([s'] + []) && [v, v'] == [v] + ([v'] + []);
    assert Enc(s', v') + [] == Enc(s', v');
  }

  lemma FrameSchemasWellFormed(s: Schema)
    ensures WellFormed(HeaderSchema()) && SelfDelimiting(HeaderSchema()) && SelfDelimiting(FrameSchema(s))
    ensures WellFormed(s) ==> WellFormed(FrameSchema(s))
  {
    forall i | 0 <= i < 16
      ensures WellFormedFields(Variants()[i].fields, if Variants()[i].tag.None? then Some(W1) else None)
      ensures SelfDelimitingFields(Variants()[i].fields)
    {
      if i == 15 { assert [TagField(W1)][1..] == []; }
    }
    assert WellFormed(TypeSchema()) && SelfDelimiting(TypeSchema());
    PairWellFormed(TypeSchema(), Int(W4));
    PairWellFormed(TypeSchema(), Sized(W4, s));
  }

  lemma PairWellFormed(s: Schema, s': Schema)
    requires !s.TagField? && !s'.TagField?
    ensures WellFormed(Struct([s, s'])) <==> WellFormed(s) && WellFormed(s')
    ensures SelfDelimiting(Struct([s, s'])) <==> SelfDelimiting(s) && SelfDelimiting(s')
  {
    var fs := [s, s'];
    assert fs[1..] == [s'] && fs[1..][1..] == [];
    assert WellFormedFields(fs[1..], None) <==> WellFormed(s');
    assert SelfDelimitingFields(fs[1..]) <==> SelfDelimiting(s');
  }

  /** The payload that reading a buffer as a frame yields. */
  function Payload(s: Schema, buffer: seq<byte>): Option<Value>
  {
    match Decode(FrameSchema(s), buffer)
    case Done(Record(fields), _) => if |fields| == 2 then Some(fields[1]) else None
    case _ => None
  }

  /** A frame that was written with a canonical payload yields that payload. */
  lemma PayloadRoundTrip(t: FrameType, s: Schema, v: Value)
    requires Genuine(t) && Typed(s, v) && Fits(s, v) && |Enc(s, v)| < W4.Limit() && Canon(s, v, false)
    ensures Tag(t) < 0x100 && Typed(FrameSchema(s), FrameValue(t, v))
    ensures Payload(s, Enc(FrameSchema(s), FrameValue(t, v))) == Some(v)
  {
    FrameEnc(t, s, v, false);
    WholeRoundTrip(FrameSchema(s), FrameValue(t, v));
  }

  lemma WholeRoundTrip(s: Schema, v: Value)
    requires Typed(s, v) && Fits(s, v) && Canon(s, v, false)
    ensures Decode(s, Enc(s, v)) == Done(v, [])
  {
    RoundTrip(s, v, []);
    assert Enc(s, v) + [] == Enc(s, v);
  }

  // ---------- keys, packets and the frames that carry them ----------

  type Key32 = k: seq<byte> | |k| == 32 witness seq(32, _ => 0)

  datatype PublicKey = PublicKey(raw: Key32)

  function KeySchema(): Schema { Struct([Array(32)]) }
  function KeyValue(k: PublicKey): Value { Record([Raw(k.raw)]) }
  function BytesSchema(): Schema { Vec(Int(W1)) }

  function Nums(bs: seq<byte>): (vs: seq<Value>)
    ensures |vs| == |bs| && forall i | 0 <= i < |bs| :: vs[i] == Num(bs[i] as nat)
  {
    if bs == [] then [] else [Num(bs[0] as nat)] + Nums(bs[1..])
  }

  lemma KeyEnc(k: PublicKey, more: bool)
    ensures var s, v := KeySchema(), KeyValue(k);
            Typed(s, v) && Enc(s, v) == k.raw && Fits(s, v) && Canon(s, v, more)
  {
    Cons(Array(32), [], Raw(k.raw), [], more);
    assert [Array(32)] == [Array(32)] + [] && [Raw(k.raw)] == [Raw(k.raw)] + [];
    assert k.raw + [] == k.raw;
  }

  lemma {:induction false} BytesEnc(bs: seq<byte>)
    ensures TypedItems(Int(W1), Nums(bs)) && EncItems(Int(W1), Nums(bs)) == bs
    ensures FitsItems(Int(W1), Nums(bs)) && CanonItems(Int(W1), Nums(bs))
  {
    if bs != [] {
      BytesEnc(bs[1..]);
      var vs := Nums(bs);
      assert vs[1..] == Nums(bs[1..]) && Typed(Int(W1), vs[0]) && Fits(Int(W1), vs[0]);
      assert Enc(Int(W1), vs[0]) == [bs[0]];
      assert EncItems(Int(W1), vs) == [bs[0]] + bs[1..];
    }
  }

  /** The frames that links carry, as the loops on either side see them. */
  datatype Frame =
    | Send(target: PublicKey, payload: seq<byte>)
    | Recv(target: PublicKey, payload: seq<byte>)
    | Forward(source: PublicKey, target: PublicKey, payload: seq<byte>)
    | Announce(key: PublicKey)
    | Watch
  {
    function Type(): FrameType {
      match this
      case Send(_, _) => SendPacket
      case Recv(_, _) => RecvPacket
      case Forward(_, _, _) => ForwardPacket
      case Announce(_) => PeerPresent
      case Watch => WatchConns
    }

    function Schema(): Schema {
      match this
      case Send(_, _) => Struct([KeySchema(), BytesSchema()])
      case Recv(_, _) => Struct([KeySchema(), BytesSchema()])
      case Forward(_, _, _) => Struct([KeySchema(), KeySchema(), BytesSchema()])
      case Announce(_) => Struct([KeySchema()])
      case Watch => Struct([BytesSchema()])
    }

    function Value(): Value {
      match this
      case Send(t, p) => Record([KeyValue(t), List(Nums(p))])
      case Recv(t, p) => Record([KeyValue(t), List(Nums(p))])
      case Forward(s, t, p) => Record([KeyValue(s), KeyValue(t), List(Nums(p))])
      case Announce(k) => Record([KeyValue(k)])
      case Watch => Record([List([])])
    }

    /** The bytes behind the header. */
    function Body(): seq<byte> {
      match this
      case Send(t, p) => t.raw + p
      case Recv(t, p) => t.raw + p
      case Forward(s, t, p) => s.raw + t.raw + p
      case Announce(k) => k.raw
      case Watch => []
    }

    /** Encoding does not panic: the size of the body fits its four bytes. */
    predicate Fits() { |Body()| < W4.Limit() }
  }

  /** The payload of every frame encodes to its body and is canonical. */
  lemma BodyEnc(f: Frame)
    ensures Typed(f.Schema(), f.Value()) && Enc(f.Schema(), f.Value()) == f.Body()
    ensures Fits(f.Schema(), f.Value()) && Canon(f.Schema(), f.Value(), false)
  {
    match f
    case Send(t, p) => PacketEnc(t, p);
    case Recv(t, p) => PacketEnc(t, p);
    case Forward(s, t, p) => ForwardEnc(s, t, p);
    case Announce(k) => KeyEnc(k, false); One(KeySchema(), KeyValue(k));
    case Watch => One(BytesSchema(), List([]));
  }

  /** A struct of one field is that field. */
  lemma One(s: Schema, v: Value)
    requires Typed(s, v) && !s.TagField?
    ensures Typed(Struct([s]), Record([v])) && Enc(Struct([s]), Record([v])) == Enc(s, v)
    ensures Fits(Struct([s]), Record([v])) <==> Fits(s, v)
    ensures Canon(Struct([s]), Record([v]), false) <==> Canon(s, v, false)
  {
    Cons(s, [], v, [], false);
    assert [s] == [s] + [] && [v] == [v] + [];
    assert Enc(s, v) + [] == Enc(s, v);
  }

  lemma ForwardEnc(s: PublicKey, t: PublicKey, p: seq<byte>)
    ensures var f := Forward(s, t, p);
            Typed(f.Schema(), f.Value()) && Enc(f.Schema(), f.Value()) == f.Body() && Fits(f.Schema(), f.Value())
                && Canon(f.Schema(), f.Value(), false)
  {
    PacketEnc(t, p);
    KeyEnc(s, true); KeyEnc(s, false);
    var fs, vs := [KeySchema(), BytesSchema()], [KeyValue(t), List(Nums(p))];
    Cons(KeySchema(), fs, KeyValue(s), vs, false);
    assert [KeySchema(), KeySchema(), BytesSchema()] == [KeySchema()] + fs;
    assert Forward(s, t, p).Value().fields == [KeyValue(s)] + vs;
    assert s.raw + (t.raw + p) == s.raw + t.raw + p;
  }

  lemma PacketEnc(t: PublicKey, p: seq<byte>)
    ensures var s, v := Struct([KeySchema(), BytesSchema()]), Record([KeyValue(t), List(Nums(p))]);
            Typed(s, v) && Enc(s, v) == t.raw + p && Fits(s, v) && Canon(s, v, false)
  {
    KeyEnc(t, true); KeyEnc(t, false);
    BytesEnc(p);
    Pair(KeySchema(), BytesSchema(), KeyValue(t), List(Nums(p)), false);
  }
}
