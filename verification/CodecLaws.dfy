/** What the wire format guarantees, for every schema and every value. */
module CodecLaws {
  import opened Bytes
  import opened Codec

  // ---------- encode, then decode ----------

  /** A canonical value survives the wire, and exactly the bytes after it are left. */
  lemma {:induction false} RoundTrip(s: Schema, v: Value, rest: seq<byte>)
    requires Typed(s, v) && Fits(s, v) && Canon(s, v, rest != [])
    ensures Decode(s, Enc(s, v) + rest) == Done(v, rest)
    decreases s, 0
  {
    match s
    case Int(w) => IntRoundTrip(w, v.n, rest);
    case Unit => assert [] + rest == rest;
    case Array(_) => TakePrefix(v.bytes, rest);
    case Opaque(w) => WindowRoundTrip(w, v.bytes, rest);
    case Opt(e) =>
      if v.Absent? { assert [] + rest == []; } else { RoundTrip(e, v.inner, rest); }
    case Vec(e) =>
      assert EncItems(e, v.items) + [] == EncItems(e, v.items);
      ItemsRoundTrip(e, v.items);
    case Sized(w, e) => SizedRoundTrip(w, e, v, rest);
    case Struct(fs) => FieldsRoundTrip(fs, None, v.fields, rest);
    case Enum(w, vs) => EnumRoundTrip(w, vs, v, rest);
  }

  /** The size in front turns a value that reads only at the end into one that reads anywhere. */
  lemma {:induction false} SizedRoundTrip(w: Width, e: Schema, v: Value, rest: seq<byte>)
    requires Typed(e, v) && Fits(Sized(w, e), v) && Canon(e, v, false)
    ensures Decode(Sized(w, e), Enc(Sized(w, e), v) + rest) == Done(v, rest)
    decreases e, 1
  {
    var inner := Enc(e, v);
    WindowRoundTrip(w, inner, rest);
    RoundTrip(e, v, []);
    assert inner + [] == inner;
  }

  lemma {:induction false} EnumRoundTrip(w: Width, vs: seq<Variant>, v: Value, rest: seq<byte>)
    requires Typed(Enum(w, vs), v) && Fits(Enum(w, vs), v) && Canon(Enum(w, vs), v, rest != [])
    ensures Decode(Enum(w, vs), Enc(Enum(w, vs), v) + rest) == Done(v, rest)
    decreases vs, 1
  {
    var tag := TagOf(vs[v.index], v.fields).value;
    var fields := EncFields(vs[v.index].fields, v.fields);
    Assoc(ToBytes(w, tag), fields, rest);
    IntRoundTrip(w, tag, fields + rest);
    FieldsRoundTrip(vs[v.index].fields, if vs[v.index].tag.None? then Some(tag) else None, v.fields, rest);
  }

  lemma {:induction false} ItemsRoundTrip(e: Schema, items: seq<Value>)
    requires TypedItems(e, items) && FitsItems(e, items) && CanonItems(e, items)
    ensures DecodeItems(e, EncItems(e, items)) == Done(items, [])
    decreases e, 1, |items|
  {
    if items != [] {
      FirstItemRoundTrip(e, items);
      ItemsRoundTrip(e, items[1..]);
      OneMoreItem(e, items[0], items[1..], EncItems(e, items[1..]));
      assert items == [items[0]] + items[1..];
    }
  }

  lemma {:induction false} FirstItemRoundTrip(e: Schema, items: seq<Value>)
    requires items != [] && TypedItems(e, items) && FitsItems(e, items) && CanonItems(e, items)
    ensures Enc(e, items[0]) != []
    ensures Decode(e, Enc(e, items[0]) + EncItems(e, items[1..])) == Done(items[0], EncItems(e, items[1..]))
    decreases e, 1, 0
  {
    RoundTrip(e, items[0], EncItems(e, items[1..]));
  }

  lemma OneMoreItem(e: Schema, v: Value, vs: seq<Value>, b: seq<byte>)
    requires Typed(e, v) && Enc(e, v) != []
    requires Decode(e, Enc(e, v) + b) == Done(v, b) && DecodeItems(e, b) == Done(vs, [])
    ensures DecodeItems(e, Enc(e, v) + b) == Done([v] + vs, [])
  {}

  lemma {:induction false} FieldsRoundTrip(fs: seq<Schema>, unknown: Option<nat>, vs: seq<Value>, rest: seq<byte>)
    requires TypedFields(fs, vs) && FitsFields(fs, vs) && CanonFields(fs, unknown, vs, rest != [])
    ensures DecodeFields(fs, unknown, EncFields(fs, vs) + rest) == Done(vs, rest)
    decreases fs, 0
  {
    if fs == [] {
      assert [] + rest == rest;
    } else {
      var tail := EncFields(fs[1..], vs[1..]) + rest;
      Assoc(Enc(fs[0], vs[0]), EncFields(fs[1..], vs[1..]), rest);
      if fs[0].TagField? && unknown.Some? {
        assert [] + tail == tail;
      } else {
        RoundTrip(fs[0], vs[0], tail);
      }
      FieldsRoundTrip(fs[1..], unknown, vs[1..], rest);
      assert vs == [vs[0]] + vs[1..];
    }
  }

  lemma TakePrefix(a: seq<byte>, rest: seq<byte>)
    ensures Take(a + rest, |a|) == Done(a, rest)
  {
    assert (a + rest)[..|a|] == a && (a + rest)[|a|..] == rest;
  }

  lemma IntRoundTrip(w: Width, n: nat, rest: seq<byte>)
    requires n < w.Limit()
    ensures DecodeInt(w, ToBytes(w, n) + rest) == Done(n, rest)
  {
    TakePrefix(ToBytes(w, n), rest);
    IntegerThere(w, n);
  }

  lemma WindowRoundTrip(w: Width, window: seq<byte>, rest: seq<byte>)
    requires |window| < w.Limit()
    ensures DecodeWindow(w, Prefixed(w, window) + rest) == Done(window, rest)
  {
    IntRoundTrip(w, |window|, window + rest);
    assert Prefixed(w, window) + rest == ToBytes(w, |window|) + (window + rest);
    TakePrefix(window, rest);
  }

  // ---------- decode, then encode ----------

  /** Whatever is accepted is exactly the encoding of the result before what was left, and canonical. */
  lemma {:induction false} Exact(s: Schema, b: seq<byte>, v: Value, rest: seq<byte>)
    requires Decode(s, b) == Done(v, rest)
    requires Typed(s, v) && Fits(s, v)
    ensures b == Enc(s, v) + rest
    ensures Canon(s, v, rest != [])
    decreases s, 0
  {
    match s
    case Int(w) => IntExact(w, b);
    case Unit => assert [] + rest == rest;
    case Array(_) =>
    case Opaque(w) => WindowExact(w, b);
    case Opt(e) => if b != [] { Exact(e, b, v.inner, rest); }
    case Vec(e) => ItemsExact(e, b, v.items, rest);
    case Sized(w, e) => SizedExact(w, e, b, v, rest);
    case Struct(fs) => FieldsExact(fs, None, b, v.fields, rest);
    case Enum(w, vs) => EnumExact(w, vs, b, v, rest);
    case TagField(_) =>
  }

  lemma {:induction false} SizedExact(w: Width, e: Schema, b: seq<byte>, v: Value, rest: seq<byte>)
    requires Decode(Sized(w, e), b) == Done(v, rest)
    requires Typed(e, v) && Fits(e, v)
    ensures b == Enc(Sized(w, e), v) + rest && Canon(e, v, false)
    ensures |Enc(e, v)| < w.Limit()
    decreases e, 1
  {
    WindowExact(w, b);
    var window := DecodeWindow(w, b).value;
    Exact(e, window, v, []);
    assert window == Enc(e, v);
  }

  lemma {:induction false} EnumExact(w: Width, vs: seq<Variant>, b: seq<byte>, v: Value, rest: seq<byte>)
    requires Decode(Enum(w, vs), b) == Done(v, rest)
    requires Typed(Enum(w, vs), v) && Fits(Enum(w, vs), v)
    ensures b == Enc(Enum(w, vs), v) + rest && Canon(Enum(w, vs), v, rest != [])
    decreases vs, 1
  {
    IntExact(w, b);
    var tag, left, fs := DecodeInt(w, b).value, DecodeInt(w, b).rest, vs[v.index].fields;
    FieldsExact(fs, if vs[v.index].tag.None? then Some(tag) else None, left, v.fields, rest);
    TagExact(vs[v.index], tag, v.fields, rest != []);
    Assoc(ToBytes(w, tag), EncFields(fs, v.fields), rest);
  }

  /** The variant that was chosen by a tag is written with that tag. */
  lemma TagExact(variant: Variant, tag: nat, vs: seq<Value>, more: bool)
    requires Matches(variant, tag) && TypedFields(variant.fields, vs) && TagOf(variant, vs).Some?
    requires CanonFields(variant.fields, if variant.tag.None? then Some(tag) else None, vs, more)
    ensures TagOf(variant, vs) == Some(tag)
  {
    if variant.tag.None? { CanonStoresTag(variant.fields, tag, vs, more); }
  }

  lemma {:induction false} ItemsExact(e: Schema, b: seq<byte>, items: seq<Value>, rest: seq<byte>)
    requires DecodeItems(e, b) == Done(items, rest)
    requires TypedItems(e, items) && FitsItems(e, items)
    ensures rest == [] && b == EncItems(e, items) && CanonItems(e, items)
    decreases e, 1, |b|
  {
    if b != [] {
      var left := Decode(e, b).rest;
      var tail := DecodeItems(e, left).value;
      assert items[0] == Decode(e, b).value && items[1..] == tail;
      Exact(e, b, items[0], left);
      ItemsExact(e, left, tail, rest);
    }
  }

  lemma {:induction false} FieldsExact(fs: seq<Schema>, unknown: Option<nat>, b: seq<byte>, vs: seq<Value>,
                                       rest: seq<byte>)
    requires DecodeFields(fs, unknown, b) == Done(vs, rest)
    requires TypedFields(fs, vs) && FitsFields(fs, vs)
    ensures b == EncFields(fs, vs) + rest && CanonFields(fs, unknown, vs, rest != [])
    decreases fs, 0
  {
    if fs != [] {
      var taken := fs[0].TagField? && unknown.Some?;
      var left := if taken then b else Decode(fs[0], b).rest;
      var tail := DecodeFields(fs[1..], unknown, left).value;
      assert vs[1..] == tail;
      FieldsExact(fs[1..], unknown, left, tail, rest);
      if taken {
        assert [] + left == left;
      } else {
        Exact(fs[0], b, vs[0], left);
      }
      Assoc(Enc(fs[0], vs[0]), EncFields(fs[1..], tail), rest);
    }
  }

  /** In a canonical unknown variant the stored tag is the one the variant was read from. */
  lemma {:induction false} CanonStoresTag(fs: seq<Schema>, tag: nat, vs: seq<Value>, more: bool)
    requires TypedFields(fs, vs) && CanonFields(fs, Some(tag), vs, more)
    ensures StoredTag(fs, vs) in {None, Some(tag)}
    ensures StoredTag(fs, vs).Some? <==> exists i :: 0 <= i < |fs| && fs[i].TagField?
  {
    if fs != [] {
      CanonStoresTag(fs[1..], tag, vs[1..], more);
      if fs[0].TagField? {
      } else if i :| 0 <= i < |fs| && fs[i].TagField? {
        assert fs[1..][i - 1].TagField?;
      }
    }
  }

  lemma IntExact(w: Width, b: seq<byte>)
    requires DecodeInt(w, b).Done?
    ensures b == ToBytes(w, DecodeInt(w, b).value) + DecodeInt(w, b).rest
  {
    IntegerBack(w, b[..w.Size()]);
  }

  lemma WindowExact(w: Width, b: seq<byte>)
    requires DecodeWindow(w, b).Done?
    ensures var window, rest := DecodeWindow(w, b).value, DecodeWindow(w, b).rest;
            |window| < w.Limit() && b == Prefixed(w, window) + rest
  {
    IntExact(w, b);
  }

  /** The round trip holds of a value, in front of given bytes, if and only if the value is canonical there. */
  lemma RoundTripIffCanonical(s: Schema, v: Value, rest: seq<byte>)
    requires Typed(s, v) && Fits(s, v)
    ensures Decode(s, Enc(s, v) + rest) == Done(v, rest) <==> Canon(s, v, rest != [])
  {
    if Canon(s, v, rest != []) {
      RoundTrip(s, v, rest);
    } else if Decode(s, Enc(s, v) + rest) == Done(v, rest) {
      Exact(s, Enc(s, v) + rest, v, rest);
    }
  }

  // ---------- the decoder's results ----------

  /** Decoding yields values of the schema. */
  lemma {:induction false} DecodedIsTyped(s: Schema, b: seq<byte>)
    requires WellFormed(s) && Decode(s, b).Done?
    ensures Typed(s, Decode(s, b).value)
    decreases s, 0
  {
    match s
    case Opt(e) => if b != [] { DecodedIsTyped(e, b); }
    case Vec(e) => DecodedItemsAreTyped(e, b);
    case Sized(w, e) =>
      DecodedIsTyped(e, DecodeWindow(w, b).value);
    case Struct(fs) => DecodedFieldsAreTyped(fs, W1, None, b);
    case Enum(w, vs) =>
      var tag, left := DecodeInt(w, b).value, DecodeInt(w, b).rest;
      var i := Arm(vs, tag);
      DecodedFieldsAreTyped(vs[i].fields, w, if vs[i].tag.None? then Some(tag) else None, left);
    case _ =>
  }

  lemma {:induction false} DecodedItemsAreTyped(e: Schema, b: seq<byte>)
    requires WellFormed(e) && DecodeItems(e, b).Done?
    ensures TypedItems(e, DecodeItems(e, b).value)
    decreases e, 1, |b|
  {
    if b != [] {
      DecodedIsTyped(e, b);
      DecodedItemsAreTyped(e, Decode(e, b).rest);
    }
  }

  lemma {:induction false} DecodedFieldsAreTyped(fs: seq<Schema>, w: Width, unknown: Option<nat>, b: seq<byte>)
    requires WellFormedFields(fs, if unknown.Some? then Some(w) else None) && DecodeFields(fs, unknown, b).Done?
    requires unknown.Some? ==> unknown.value < w.Limit()
    ensures TypedFields(fs, DecodeFields(fs, unknown, b).value)
    decreases fs, 0
  {
    if fs != [] {
      if !fs[0].TagField? { DecodedIsTyped(fs[0], b); }
      DecodedFieldsAreTyped(fs[1..], w, unknown, if fs[0].TagField? then b else Decode(fs[0], b).rest);
    }
  }

  /** Re-encoding a decoded value cannot panic, provided unknown variants keep their tag. */
  lemma {:induction false} DecodedFits(s: Schema, b: seq<byte>)
    requires WellFormed(s) && TagCarrying(s) && Decode(s, b).Done?
    ensures Typed(s, Decode(s, b).value) && Fits(s, Decode(s, b).value)
    decreases s, 0
  {
    DecodedIsTyped(s, b);
    match s
    case Opt(e) => if b != [] { DecodedFits(e, b); }
    case Vec(e) => DecodedItemsFit(e, b);
    case Sized(w, e) =>
      var window := DecodeWindow(w, b).value;
      DecodedFits(e, window);
      Exact(e, window, Decode(s, b).value, []);
    case Struct(fs) => DecodedFieldsFit(fs, W1, None, b);
    case Enum(w, vs) =>
      var tag, left := DecodeInt(w, b).value, DecodeInt(w, b).rest;
      var i := Arm(vs, tag);
      DecodedFieldsFit(vs[i].fields, w, if vs[i].tag.None? then Some(tag) else None, left);
    case _ =>
  }

  lemma {:induction false} DecodedItemsFit(e: Schema, b: seq<byte>)
    requires WellFormed(e) && TagCarrying(e) && DecodeItems(e, b).Done?
    ensures TypedItems(e, DecodeItems(e, b).value) && FitsItems(e, DecodeItems(e, b).value)
    decreases e, 1, |b|
  {
    if b != [] {
      DecodedFits(e, b);
      DecodedItemsFit(e, Decode(e, b).rest);
    }
  }

  lemma {:induction false} DecodedFieldsFit(fs: seq<Schema>, w: Width, unknown: Option<nat>, b: seq<byte>)
    requires WellFormedFields(fs, if unknown.Some? then Some(w) else None) && TagCarryingFields(fs)
    requires DecodeFields(fs, unknown, b).Done?
    requires unknown.Some? ==> unknown.value < w.Limit()
    ensures TypedFields(fs, DecodeFields(fs, unknown, b).value) && FitsFields(fs, DecodeFields(fs, unknown, b).value)
    ensures unknown.Some? && (exists j :: 0 <= j < |fs| && fs[j].TagField?) ==>
              StoredTag(fs, DecodeFields(fs, unknown, b).value).Some?
    decreases fs, 0
  {
    DecodedFieldsAreTyped(fs, w, unknown, b);
    if fs != [] {
      if !fs[0].TagField? { DecodedFits(fs[0], b); }
      DecodedFieldsFit(fs[1..], w, unknown, if fs[0].TagField? then b else Decode(fs[0], b).rest);
      if j :| 0 <= j < |fs| && fs[j].TagField? {
        assert j > 0 ==> fs[1..][j - 1].TagField?;
      }
    }
  }

  /**
    Decoding is exact: whatever a tag-carrying schema accepts re-encodes, without a panic,
    to the very bytes that were read.
   */
  lemma DecodeThenEncode(s: Schema, b: seq<byte>)
    requires WellFormed(s) && TagCarrying(s) && Decode(s, b).Done?
    ensures var v, rest := Decode(s, b).value, Decode(s, b).rest;
            Typed(s, v) && Fits(s, v) && b == Enc(s, v) + rest && Canon(s, v, rest != [])
  {
    DecodedFits(s, b);
    Exact(s, b, Decode(s, b).value, Decode(s, b).rest);
  }

  // ---------- self-delimiting and whole-buffer schemas ----------

  /** For a self-delimiting schema it makes no difference what follows the value. */
  lemma {:induction false} SuffixIrrelevant(s: Schema, v: Value)
    requires SelfDelimiting(s) && Typed(s, v)
    ensures Canon(s, v, true) <==> Canon(s, v, false)
    decreases s, 0
  {
    match s
    case Struct(fs) => SuffixIrrelevantFields(fs, None, v.fields);
    case Enum(_, vs) =>
      var tag := TagOf(vs[v.index], v.fields);
      SuffixIrrelevantFields(vs[v.index].fields, if vs[v.index].tag.None? then tag else None, v.fields);
    case _ =>
  }

  lemma {:induction false} SuffixIrrelevantFields(fs: seq<Schema>, unknown: Option<nat>, vs: seq<Value>)
    requires SelfDelimitingFields(fs) && TypedFields(fs, vs)
    ensures CanonFields(fs, unknown, vs, true) <==> CanonFields(fs, unknown, vs, false)
    decreases fs, 0
  {
    if fs != [] {
      SuffixIrrelevant(fs[0], vs[0]);
      SuffixIrrelevantFields(fs[1..], unknown, vs[1..]);
    }
  }

  /**
    Self-delimiting schemas read back in front of any bytes, all others at least at the end of
    the buffer; so two encodings of a self-delimiting schema agree as soon as one extends the other.
   */
  lemma SelfDelimitingRoundTrip(s: Schema, v: Value, v': Value, rest: seq<byte>, rest': seq<byte>)
    requires SelfDelimiting(s) && Typed(s, v) && Fits(s, v) && Canon(s, v, false)
    ensures Decode(s, Enc(s, v) + rest) == Done(v, rest)
    ensures Typed(s, v') && Fits(s, v') && Canon(s, v', false) && Enc(s, v) + rest == Enc(s, v') + rest' ==>
            v == v' && rest == rest'
  {
    SuffixIrrelevant(s, v);
    RoundTrip(s, v, rest);
    if Typed(s, v') && Fits(s, v') && Canon(s, v', false) {
      SuffixIrrelevant(s, v');
      RoundTrip(s, v', rest');
    }
  }

  // ---------- termination of the Vec loop ----------

  /** A consuming schema shrinks a non-empty buffer. */
  lemma {:induction false} ConsumingShrinks(s: Schema, b: seq<byte>)
    requires Decode(s, b).Done?
    ensures |Decode(s, b).rest| <= |b|
    ensures Consuming(s) && b != [] ==> |Decode(s, b).rest| < |b|
    decreases s, 0
  {
    match s
    case Opt(e) => if b != [] { ConsumingShrinks(e, b); }
    case Vec(e) => ItemsConsumeAll(e, b);
    case Struct(fs) => FieldsShrink(fs, None, b);
    case Enum(w, vs) =>
      var tag, left := DecodeInt(w, b).value, DecodeInt(w, b).rest;
      var i := Arm(vs, tag);
      FieldsShrink(vs[i].fields, if vs[i].tag.None? then Some(tag) else None, left);
    case _ =>
  }

  lemma {:induction false} ItemsConsumeAll(e: Schema, b: seq<byte>)
    requires DecodeItems(e, b).Done?
    ensures DecodeItems(e, b).rest == []
    decreases |b|
  {
    if b != [] { ItemsConsumeAll(e, Decode(e, b).rest); }
  }

  lemma {:induction false} FieldsShrink(fs: seq<Schema>, unknown: Option<nat>, b: seq<byte>)
    requires DecodeFields(fs, unknown, b).Done?
    ensures |DecodeFields(fs, unknown, b).rest| <= |b|
    ensures ConsumingFields(fs) && b != [] ==> |DecodeFields(fs, unknown, b).rest| < |b|
    decreases fs, 0
  {
    if fs != [] {
      if fs[0].TagField? && unknown.Some? {
        assert !Consuming(fs[0]);
        FieldsShrink(fs[1..], unknown, b);
      } else {
        ConsumingShrinks(fs[0], b);
        FieldsShrink(fs[1..], unknown, Decode(fs[0], b).rest);
      }
    }
  }

  /** Every decoder of a well-formed schema returns. */
  lemma {:induction false} DecodeTerminates(s: Schema, b: seq<byte>)
    requires WellFormed(s)
    ensures !Decode(s, b).Diverge?
    decreases s, 0
  {
    match s
    case Opt(e) => DecodeTerminates(e, b);
    case Vec(e) => ItemsTerminate(e, b);
    case Sized(w, e) =>
      if DecodeWindow(w, b).Done? { DecodeTerminates(e, DecodeWindow(w, b).value); }
    case Struct(fs) => FieldsTerminate(fs, None, None, b);
    case Enum(w, vs) =>
      if DecodeInt(w, b).Done? && Arm(vs, DecodeInt(w, b).value) < |vs| {
        var tag, left := DecodeInt(w, b).value, DecodeInt(w, b).rest;
        var unknown := vs[Arm(vs, tag)].tag.None?;
        FieldsTerminate(vs[Arm(vs, tag)].fields, if unknown then Some(w) else None, if unknown then Some(tag) else None,
            left);
      }
    case _ =>
  }

  lemma {:induction false} ItemsTerminate(e: Schema, b: seq<byte>)
    requires WellFormed(e) && Consuming(e)
    ensures !DecodeItems(e, b).Diverge?
    decreases e, 1, |b|
  {
    if b != [] {
      DecodeTerminates(e, b);
      if Decode(e, b).Done? {
        ConsumingShrinks(e, b);
        ItemsTerminate(e, Decode(e, b).rest);
      }
    }
  }

  lemma {:induction false} FieldsTerminate(fs: seq<Schema>, w: Option<Width>, unknown: Option<nat>, b: seq<byte>)
    requires WellFormedFields(fs, w)
    ensures !DecodeFields(fs, unknown, b).Diverge?
    decreases fs, 0
  {
    if fs != [] {
      var taken := fs[0].TagField? && unknown.Some?;
      if !taken && !fs[0].TagField? { DecodeTerminates(fs[0], b); }
      if taken || Decode(fs[0], b).Done? {
        FieldsTerminate(fs[1..], w, unknown, if taken then b else Decode(fs[0], b).rest);
      }
    }
  }

  /** A schema that is not consuming accepts every buffer and takes nothing from it. */
  lemma {:induction false} NonConsumingTakesNothing(s: Schema, b: seq<byte>)
    requires WellFormed(s) && !Consuming(s)
    ensures Decode(s, b).Done? && Decode(s, b).rest == b
    decreases s, 0
  {
    match s
    case Opt(e) => NonConsumingTakesNothing(e, b);
    case Struct(fs) => NonConsumingFieldsTakeNothing(fs, b);
    case _ =>
  }

  lemma {:induction false} NonConsumingFieldsTakeNothing(fs: seq<Schema>, b: seq<byte>)
    requires WellFormedFields(fs, None) && !ConsumingFields(fs)
    ensures DecodeFields(fs, None, b).Done? && DecodeFields(fs, None, b).rest == b
    decreases fs, 0
  {
    if fs != [] {
      NonConsumingTakesNothing(fs[0], b);
      NonConsumingFieldsTakeNothing(fs[1..], b);
    }
  }

  /** The `Vec` loop ends on every buffer exactly when its elements are consuming. */
  lemma VecTerminatesIff(e: Schema)
    requires WellFormed(e)
    ensures (forall b :: !Decode(Vec(e), b).Diverge?) <==> Consuming(e)
  {
    if Consuming(e) {
      forall b ensures !Decode(Vec(e), b).Diverge? {
        VecTerminates(e, b);
      }
    } else {
      VecDiverges(e);
    }
  }

  lemma VecTerminates(e: Schema, b: seq<byte>)
    requires WellFormed(e) && Consuming(e)
    ensures !Decode(Vec(e), b).Diverge?
  {
    ItemsTerminate(e, b);
  }

  lemma VecDiverges(e: Schema)
    requires WellFormed(e) && !Consuming(e)
    ensures Decode(Vec(e), [0]).Diverge?
  {
    NonConsumingTakesNothing(e, [0]);
  }

  // ---------- tagged enums ----------

  /** Distinct tags, and one `#[unknown]` variant, in last place. */
  predicate Regular(vs: seq<Variant>)
  {
    && vs != [] && vs[|vs| - 1].tag.None?
    && (forall i | 0 <= i < |vs| - 1 :: vs[i].tag.Some?)
    && (forall i, j | 0 <= i < j < |vs| - 1 :: vs[i].tag != vs[j].tag)
  }

  /** A tag selects a known variant exactly by equality, and the unknown one when no variant has it. */
  lemma RegularArm(vs: seq<Variant>, i: nat, tag: nat)
    requires Regular(vs) && i < |vs|
    ensures Arm(vs, tag) == i <==>
              if vs[i].tag.Some? then vs[i].tag.value == tag
              else forall j | 0 <= j < |vs| :: vs[j].tag != Some(tag)
  {
    var a := Arm(vs, tag);
    assert Matches(vs[|vs| - 1], tag);
    assert a < i && vs[a].tag.Some? && vs[i].tag.Some? ==> vs[a].tag != vs[i].tag;
  }

  lemma {:induction false} StoredTagFits(fs: seq<Schema>, w: Width, vs: seq<Value>)
    requires WellFormedFields(fs, Some(w)) && TypedFields(fs, vs) && StoredTag(fs, vs).Some?
    ensures StoredTag(fs, vs).value < w.Limit()
  {
    if !fs[0].TagField? { StoredTagFits(fs[1..], w, vs[1..]); }
  }

  /**
    The round trip holds of an enum value exactly when its fields are canonical behind the tag and
    no variant before its own takes the tag, wherever the unknown variants are, if there are any.
   */
  lemma EnumRoundTripIff(w: Width, vs: seq<Variant>, v: Value, rest: seq<byte>)
    requires WellFormed(Enum(w, vs)) && forall i | 0 <= i < |vs| && vs[i].tag.Some? :: vs[i].tag.value < w.Limit()
    requires Typed(Enum(w, vs), v) && Fits(Enum(w, vs), v)
    ensures var tag := TagOf(vs[v.index], v.fields);
            Decode(Enum(w, vs), Enc(Enum(w, vs), v) + rest) == Done(v, rest) <==>
              && CanonFields(vs[v.index].fields, if vs[v.index].tag.None? then tag else None, v.fields, rest != [])
              && forall j | 0 <= j < v.index :: !Matches(vs[j], tag.value)
  {
    if vs[v.index].tag.None? { StoredTagFits(vs[v.index].fields, w, v.fields); }
    RoundTripIffCanonical(Enum(w, vs), v, rest);
    assert Matches(vs[v.index], TagOf(vs[v.index], v.fields).value);
  }

  /**
    With distinct tags and the unknown variant in last place: the known variants, and the unknown one whose tag
    is no known tag.
   */
  lemma RegularEnumRoundTripIff(w: Width, vs: seq<Variant>, v: Value, rest: seq<byte>)
    requires Regular(vs) && WellFormed(Enum(w, vs)) && forall i | 0 <= i < |vs| - 1 :: vs[i].tag.value < w.Limit()
    requires Typed(Enum(w, vs), v) && Fits(Enum(w, vs), v)
    ensures var tag := TagOf(vs[v.index], v.fields);
            Decode(Enum(w, vs), Enc(Enum(w, vs), v) + rest) == Done(v, rest) <==>
              && CanonFields(vs[v.index].fields, if vs[v.index].tag.None? then tag else None, v.fields, rest != [])
              && (v.index < |vs| - 1 || forall j | 0 <= j < |vs| :: vs[j].tag != tag)
  {
    EnumRoundTripIff(w, vs, v, rest);
    RegularArm(vs, v.index, TagOf(vs[v.index], v.fields).value);
  }

  lemma TagAlone(w: Width, vs: seq<Value>, more: bool)
    requires TypedFields([TagField(w)], vs)
    ensures |vs| == 1 && vs[0].Num? && vs[0].n < w.Limit() && FitsFields([TagField(w)], vs)
    ensures StoredTag([TagField(w)], vs) == Some(vs[0].n)
    ensures CanonFields([TagField(w)], Some(vs[0].n), vs, more)
  {
    var fs := [TagField(w)];
    assert fs[1..] == [];
    assert Typed(fs[0], vs[0]) && TypedFields(fs[1..], vs[1..]);
  }

  /**
    An enum whose unknown variants are their tag alone and whose known variants have no fields: it
    always encodes, and the round trip holds exactly of values whose tag no earlier variant takes.
   */
  lemma PlainEnumRoundTripIff(w: Width, vs: seq<Variant>, v: Value, rest: seq<byte>)
    requires forall i | 0 <= i < |vs| :: if vs[i].tag.Some? then vs[i].fields == [] && vs[i].tag.value < w.Limit()
        else vs[i].fields == [TagField(w)]
    requires Typed(Enum(w, vs), v)
    ensures Fits(Enum(w, vs), v)
    ensures Decode(Enum(w, vs), Enc(Enum(w, vs), v) + rest) == Done(v, rest) <==>
              forall j | 0 <= j < v.index :: !Matches(vs[j], TagOf(vs[v.index], v.fields).value)
  {
    if vs[v.index].tag.None? { TagAlone(w, v.fields, rest != []); }
    RoundTripIffCanonical(Enum(w, vs), v, rest);
    assert Matches(vs[v.index], TagOf(vs[v.index], v.fields).value);
  }

  // ---------- sizes and order ----------

  /** Integers, arrays and opaque bytes survive in front of any bytes, up to the largest that their width can say. */
  lemma ScalarsSurvive(w: Width, n: nat, bs: seq<byte>, rest: seq<byte>)
    ensures n < Power(w.Size()) ==>
              Typed(Int(w), Num(n)) && Decode(Int(w), ToBytes(w, n) + rest) == Done(Num(n), rest)
    ensures Decode(Array(|bs|), bs + rest) == Done(Raw(bs), rest)
    ensures Fits(Opaque(w), Raw(bs)) <==> |bs| < Power(w.Size())
    ensures |bs| < Power(w.Size()) ==>
              Decode(Opaque(w), ToBytes(w, |bs|) + bs + rest) == Done(Raw(bs), rest)
  {
    Powers();
    TakePrefix(bs, rest);
    if n < Power(w.Size()) { RoundTrip(Int(w), Num(n), rest); }
    if |bs| < Power(w.Size()) { RoundTrip(Opaque(w), Raw(bs), rest); }
  }

  /** A `SizeWrapper` writes its size in front, and panics exactly if its width cannot say it. */
  lemma SizeInFront(w: Width, e: Schema, v: Value)
    requires Typed(e, v)
    ensures Enc(Sized(w, e), v) == ToBytes(w, |Enc(e, v)|) + Enc(e, v)
    ensures Fits(Sized(w, e), v) <==> Fits(e, v) && |Enc(e, v)| < Power(w.Size())
  {
    Powers();
  }

  /** Items are written one behind the other. */
  lemma {:induction false} ItemsInOrder(e: Schema, a: seq<Value>, b: seq<Value>)
    requires TypedItems(e, a) && TypedItems(e, b)
    ensures TypedItems(e, a + b) && EncItems(e, a + b) == EncItems(e, a) + EncItems(e, b)
  {
    if a == [] {
      assert a + b == b;
    } else {
      assert (a + b)[0] == a[0] && (a + b)[1..] == a[1..] + b;
      ItemsInOrder(e, a[1..], b);
      Assoc(Enc(e, a[0]), EncItems(e, a[1..]), EncItems(e, b));
    }
  }

  /** And so are fields. */
  lemma {:induction false} FieldsInOrder(fs: seq<Schema>, gs: seq<Schema>, a: seq<Value>, b: seq<Value>)
    requires TypedFields(fs, a) && TypedFields(gs, b)
    ensures TypedFields(fs + gs, a + b) && EncFields(fs + gs, a + b) == EncFields(fs, a) + EncFields(gs, b)
    decreases |fs|
  {
    if fs == [] {
      assert fs + gs == gs && a + b == b;
    } else {
      assert (fs + gs)[0] == fs[0] && (fs + gs)[1..] == fs[1..] + gs;
      assert (a + b)[0] == a[0] && (a + b)[1..] == a[1..] + b;
      FieldsInOrder(fs[1..], gs, a[1..], b);
      Assoc(Enc(fs[0], a[0]), EncFields(fs[1..], a[1..]), EncFields(gs, b));
    }
  }
}
