/**
  The wire format as a function of a schema. A `Schema` describes a type that implements
  `Encode` and `Decode`, by hand or derived; `Enc` and `Decode` say which bytes it becomes
  and how it is read back. The writers and readers that update buffers are proved against these.
 */
module Codec {
  import opened Bytes

  /** A variant of an enum; one without a tag is marked `#[unknown]`. */
  datatype Variant = Variant(tag: Option<nat>, fields: seq<Schema>)

  /** `TagField` is a field marked `#[unknown]`: it holds the tag and writes nothing of its own. */
  datatype Schema =
    | Int(w: Width)
    | Unit
    | Array(len: nat)
    | Opaque(w: Width)
    | Opt(elem: Schema)
    | Vec(elem: Schema)
    | Sized(w: Width, elem: Schema)
    | Struct(fields: seq<Schema>)
    | Enum(w: Width, variants: seq<Variant>)
    | TagField(w: Width)

  /** A `SizeWrapper` is transparent: its value is the value it wraps. */
  datatype Value =
    | Num(n: nat)
    | Nothing
    | Raw(bytes: seq<byte>)
    | Absent
    | Present(inner: Value)
    | List(items: seq<Value>)
    | Record(fields: seq<Value>)
    | Tagged(index: nat, fields: seq<Value>)

  // ---------- typing ----------

  predicate Typed(s: Schema, v: Value)
    decreases s, 0
  {
    match s
    case Int(w) => v.Num? && v.n < w.Limit()
    case Unit => v.Nothing?
    case Array(len) => v.Raw? && |v.bytes| == len
    case Opaque(_) => v.Raw?
    case Opt(e) => v.Absent? || (v.Present? && Typed(e, v.inner))
    case Vec(e) => v.List? && TypedItems(e, v.items)
    case Sized(_, e) => Typed(e, v)
    case Struct(fs) => v.Record? && TypedFields(fs, v.fields)
    case Enum(w, vs) => v.Tagged? && v.index < |vs| && TypedFields(vs[v.index].fields, v.fields)
    case TagField(w) => v.Num? && v.n < w.Limit()
  }

  predicate TypedItems(e: Schema, items: seq<Value>)
    decreases e, 1, |items|
  {
    items != [] ==> Typed(e, items[0]) && TypedItems(e, items[1..])
  }

  predicate TypedFields(fs: seq<Schema>, vs: seq<Value>)
    decreases fs, 0
  {
    if fs == [] then vs == []
    else vs != [] && Typed(fs[0], vs[0]) && TypedFields(fs[1..], vs[1..])
  }

  // ---------- encoding ----------

  /** The tag a variant is written with: its own, or the first field that holds one. */
  function TagOf(variant: Variant, vs: seq<Value>): Option<nat>
  {
    if variant.tag.Some? then variant.tag else StoredTag(variant.fields, vs)
  }

  function StoredTag(fs: seq<Schema>, vs: seq<Value>): Option<nat>
  {
    if fs == [] || vs == [] then None
    else if fs[0].TagField? && vs[0].Num? then Some(vs[0].n)
    else StoredTag(fs[1..], vs[1..])
  }

  function Prefixed(w: Width, bs: seq<byte>): seq<byte>
  {
    ToBytes(w, |bs|) + bs
  }

  /** The bytes of a value; where `Fits` fails the program panics and these bytes mean nothing. */
  function Enc(s: Schema, v: Value): seq<byte>
    requires Typed(s, v)
    decreases s, 0
  {
    match s
    case Int(w) => ToBytes(w, v.n)
    case Unit => []
    case Array(_) => v.bytes
    case Opaque(w) => Prefixed(w, v.bytes)
    case Opt(e) => if v.Absent? then [] else Enc(e, v.inner)
    case Vec(e) => EncItems(e, v.items)
    case Sized(w, e) => Prefixed(w, Enc(e, v))
    case Struct(fs) => EncFields(fs, v.fields)
    case Enum(w, vs) =>
      var tag := TagOf(vs[v.index], v.fields);
      ToBytes(w, if tag.Some? then tag.value else 0) + EncFields(vs[v.index].fields, v.fields)
    case TagField(_) => []
  }

  function EncItems(e: Schema, items: seq<Value>): seq<byte>
    requires TypedItems(e, items)
    decreases e, 1, |items|
  {
    if items == [] then [] else Enc(e, items[0]) + EncItems(e, items[1..])
  }

  function EncFields(fs: seq<Schema>, vs: seq<Value>): seq<byte>
    requires TypedFields(fs, vs)
    decreases fs, 0
  {
    if fs == [] then [] else Enc(fs[0], vs[0]) + EncFields(fs[1..], vs[1..])
  }

  /** No `unwrap` of a size conversion and no missing tag panics while encoding. */
  predicate Fits(s: Schema, v: Value)
    requires Typed(s, v)
    decreases s, 0
  {
    match s
    case Int(_) => true
    case Unit => true
    case Array(_) => true
    case Opaque(w) => |v.bytes| < w.Limit()
    case Opt(e) => v.Present? ==> Fits(e, v.inner)
    case Vec(e) => FitsItems(e, v.items)
    case Sized(w, e) => Fits(e, v) && |Enc(e, v)| < w.Limit()
    case Struct(fs) => FitsFields(fs, v.fields)
    case Enum(w, vs) =>
      TagOf(vs[v.index], v.fields).Some? && FitsFields(vs[v.index].fields, v.fields)
    case TagField(_) => true
  }

  predicate FitsItems(e: Schema, items: seq<Value>)
    requires TypedItems(e, items)
    decreases e, 1, |items|
  {
    items != [] ==> Fits(e, items[0]) && FitsItems(e, items[1..])
  }

  predicate FitsFields(fs: seq<Schema>, vs: seq<Value>)
    requires TypedFields(fs, vs)
    decreases fs, 0
  {
    fs != [] ==> Fits(fs[0], vs[0]) && FitsFields(fs[1..], vs[1..])
  }

  // ---------- decoding ----------

  /** A decoder returns a value and the bytes it left, fails, or never returns. */
  datatype Outcome<+T> = Done(value: T, rest: seq<byte>) | Fail | Diverge

  predicate Matches(variant: Variant, tag: nat)
  {
    variant.tag.None? || variant.tag.value == tag
  }

  /** The first arm of the generated `match` that takes `tag`; the number of arms if none does. */
  function Arm(vs: seq<Variant>, tag: nat): (i: nat)
    ensures i <= |vs|
    ensures i < |vs| ==> Matches(vs[i], tag)
    ensures forall j | 0 <= j < i :: !Matches(vs[j], tag)
  {
    if vs == [] then 0
    else if Matches(vs[0], tag) then 0
    else
      var i := Arm(vs[1..], tag);
      assert forall j | 0 < j < i + 1 :: vs[j] == vs[1..][j - 1];
      1 + i
  }

  function Take(b: seq<byte>, n: nat): (r: Outcome<seq<byte>>)
  {
    if |b| < n then Fail else Done(b[..n], b[n..])
  }

  function DecodeInt(w: Width, b: seq<byte>): Outcome<nat>
  {
    match Take(b, w.Size())
    case Done(bs, rest) => Done(FromBytes(w, bs), rest)
    case Fail => Fail
    case Diverge => Diverge
  }

  /** A size, and as many bytes as it says. */
  function DecodeWindow(w: Width, b: seq<byte>): Outcome<seq<byte>>
  {
    match DecodeInt(w, b)
    case Done(n, left) => Take(left, n)
    case _ => Fail
  }

  function Decode(s: Schema, b: seq<byte>): Outcome<Value>
    decreases s, 0
  {
    match s
    case Int(w) =>
      (match DecodeInt(w, b) case Done(n, rest) => Done(Num(n), rest) case _ => Fail)
    case Unit => Done(Nothing, b)
    case Array(len) =>
      (match Take(b, len) case Done(bs, rest) => Done(Raw(bs), rest) case _ => Fail)
    case Opaque(w) =>
      (match DecodeWindow(w, b) case Done(bs, rest) => Done(Raw(bs), rest) case _ => Fail)
    case Opt(e) =>
      if b == [] then Done(Absent, []) else
      (match Decode(e, b)
       case Done(v, rest) => Done(Value.Present(v), rest) case Fail => Fail case Diverge => Diverge)
    case Vec(e) =>
      (match DecodeItems(e, b)
       case Done(items, rest) => Done(List(items), rest) case Fail => Fail case Diverge => Diverge)
    case Sized(w, e) =>
      (match DecodeWindow(w, b)
       case Done(window, rest) =>
         (match Decode(e, window)
          case Done(v, unread) => if unread == [] then Done(v, rest) else Fail
          case Fail => Fail case Diverge => Diverge)
       case _ => Fail)
    case Struct(fs) =>
      (match DecodeFields(fs, None, b)
       case Done(vs, rest) => Done(Record(vs), rest) case Fail => Fail case Diverge => Diverge)
    case Enum(w, vs) =>
      (match DecodeInt(w, b)
       case Done(tag, left) =>
         var i := Arm(vs, tag);
         if i == |vs| then Fail else
         (match DecodeFields(vs[i].fields, if vs[i].tag.None? then Some(tag) else None, left)
          case Done(fields, rest) => Done(Tagged(i, fields), rest)
          case Fail => Fail case Diverge => Diverge)
       case _ => Fail)
    case TagField(_) => Fail
  }

  /** The loop of the `Vec` decoder; an element that consumes nothing repeats for ever. */
  function DecodeItems(e: Schema, b: seq<byte>): Outcome<seq<Value>>
    decreases e, 1, |b|
  {
    if b == [] then Done([], []) else
    match Decode(e, b)
    case Done(v, left) =>
      if |left| >= |b| then Diverge else
      (match DecodeItems(e, left)
       case Done(vs, rest) => Done([v] + vs, rest) case Fail => Fail case Diverge => Diverge)
    case Fail => Fail
    case Diverge => Diverge
  }

  /** The fields in order; `unknown` is the tag that a `TagField` receives. */
  function DecodeFields(fs: seq<Schema>, unknown: Option<nat>, b: seq<byte>): Outcome<seq<Value>>
    decreases fs, 0
  {
    if fs == [] then Done([], b) else
    match if fs[0].TagField? && unknown.Some? then Done(Num(unknown.value), b) else Decode(fs[0], b)
    case Done(v, left) =>
      (match DecodeFields(fs[1..], unknown, left)
       case Done(vs, rest) => Done([v] + vs, rest) case Fail => Fail case Diverge => Diverge)
    case Fail => Fail
    case Diverge => Diverge
  }

  // ---------- judgements ----------

  /**
    `v` is what the decoder makes of its own bytes. `more` says whether further bytes follow
    in the buffer: the greedy `Opt` and `Vec` read differently before a suffix and at the end.
   */
  predicate Canon(s: Schema, v: Value, more: bool)
    requires Typed(s, v)
    decreases s, 0
  {
    match s
    case Int(_) => true
    case Unit => true
    case Array(_) => true
    case Opaque(_) => true
    case Opt(e) =>
      if v.Absent? then !more else (more || Enc(e, v.inner) != []) && Canon(e, v.inner, more)
    case Vec(e) => !more && CanonItems(e, v.items)
    case Sized(_, e) => Canon(e, v, false)
    case Struct(fs) => CanonFields(fs, None, v.fields, more)
    case Enum(w, vs) =>
      var tag := TagOf(vs[v.index], v.fields);
      && tag.Some? && tag.value < w.Limit() && Arm(vs, tag.value) == v.index
      && CanonFields(vs[v.index].fields, if vs[v.index].tag.None? then tag else None, v.fields, more)
    case TagField(_) => false
  }

  predicate CanonItems(e: Schema, items: seq<Value>)
    requires TypedItems(e, items)
    decreases e, 1, |items|
  {
    items != [] ==>
      && Enc(e, items[0]) != []
      && Canon(e, items[0], EncItems(e, items[1..]) != [])
      && CanonItems(e, items[1..])
  }

  predicate CanonFields(fs: seq<Schema>, unknown: Option<nat>, vs: seq<Value>, more: bool)
    requires TypedFields(fs, vs)
    decreases fs, 0
  {
    fs != [] ==>
      && (if fs[0].TagField? && unknown.Some? then vs[0] == Num(unknown.value)
          else Canon(fs[0], vs[0], more || EncFields(fs[1..], vs[1..]) != []))
      && CanonFields(fs[1..], unknown, vs[1..], more)
  }

  /** Reads the same before any suffix: no greedy type outside a `SizeWrapper`. */
  predicate SelfDelimiting(s: Schema)
    decreases s, 0
  {
    match s
    case Opt(_) => false
    case Vec(_) => false
    case Struct(fs) => SelfDelimitingFields(fs)
    case Enum(_, vs) => forall i | 0 <= i < |vs| :: SelfDelimitingFields(vs[i].fields)
    case _ => true
  }

  predicate SelfDelimitingFields(fs: seq<Schema>)
    decreases fs, 0
  {
    fs != [] ==> SelfDelimiting(fs[0]) && SelfDelimitingFields(fs[1..])
  }

  /** A successful decode of a non-empty buffer takes at least one byte. */
  predicate Consuming(s: Schema)
    decreases s, 0
  {
    match s
    case Unit => false
    case Array(len) => len > 0
    case Opt(e) => Consuming(e)
    case Struct(fs) => ConsumingFields(fs)
    case TagField(_) => false
    case _ => true
  }

  predicate ConsumingFields(fs: seq<Schema>)
    decreases fs, 0
  {
    fs != [] && (Consuming(fs[0]) || ConsumingFields(fs[1..]))
  }

  /** The derive macros accept the schema, and every `Vec` has elements that take bytes. */
  predicate WellFormed(s: Schema)
    decreases s, 0
  {
    match s
    case Opt(e) => WellFormed(e)
    case Vec(e) => WellFormed(e) && Consuming(e)
    case Sized(_, e) => WellFormed(e)
    case Struct(fs) => WellFormedFields(fs, None)
    case Enum(w, vs) =>
      forall i | 0 <= i < |vs| :: WellFormedFields(vs[i].fields, if vs[i].tag.None? then Some(w) else None)
    case TagField(_) => false
    case _ => true
  }

  predicate WellFormedFields(fs: seq<Schema>, tag: Option<Width>)
    decreases fs, 0
  {
    fs != [] ==>
      && (if fs[0].TagField? then tag == Some(fs[0].w) else WellFormed(fs[0]))
      && WellFormedFields(fs[1..], tag)
  }

  /** Every `#[unknown]` variant keeps the tag it was read from. */
  predicate TagCarrying(s: Schema)
    decreases s, 0
  {
    match s
    case Opt(e) => TagCarrying(e)
    case Vec(e) => TagCarrying(e)
    case Sized(_, e) => TagCarrying(e)
    case Struct(fs) => TagCarryingFields(fs)
    case Enum(_, vs) =>
      forall i | 0 <= i < |vs| ::
        TagCarryingFields(vs[i].fields) && (vs[i].tag.None? ==> exists j ::
                    0 <= j < |vs[i].fields| && vs[i].fields[j].TagField?)
    case _ => true
  }

  predicate TagCarryingFields(fs: seq<Schema>)
    decreases fs, 0
  {
    fs != [] ==> TagCarrying(fs[0]) && TagCarryingFields(fs[1..])
  }
}
