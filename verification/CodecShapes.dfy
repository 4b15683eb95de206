/** Which types always survive the wire: read off the schema, without looking at a value. */
module CodecShapes {
  import opened Bytes
  import opened Codec
  import opened CodecLaws

  /** Every value takes at least one byte. */
  predicate Wide(s: Schema)
    decreases s, 0
  {
    match s
    case Int(_) => true
    case Array(len) => len > 0
    case Opaque(_) => true
    case Sized(_, _) => true
    case Enum(_, _) => true
    case Struct(fs) => WideFields(fs)
    case _ => false
  }

  predicate WideFields(fs: seq<Schema>)
    decreases fs, 0
  {
    fs != [] && (Wide(fs[0]) || WideFields(fs[1..]))
  }

  /** Every value survives in front of any bytes: nothing greedy outside a `SizeWrapper`, no enum. */
  predicate Steady(s: Schema)
    decreases s, 0
  {
    match s
    case Int(_) => true
    case Unit => true
    case Array(_) => true
    case Opaque(_) => true
    case Sized(_, e) => SteadyAtEnd(e)
    case Struct(fs) => SteadyFields(fs)
    case _ => false
  }

  predicate SteadyFields(fs: seq<Schema>)
    decreases fs, 0
  {
    fs != [] ==> Steady(fs[0]) && SteadyFields(fs[1..])
  }

  /** Every value survives at the end of a buffer: the last field may be greedy, if what it repeats takes bytes. */
  predicate SteadyAtEnd(s: Schema)
    decreases s, 1
  {
    match s
    case Opt(e) => Wide(e) && SteadyAtEnd(e)
    case Vec(e) => Wide(e) && Steady(e)
    case Struct(fs) => SteadyFieldsAtEnd(fs)
    case _ => Steady(s)
  }

  predicate SteadyFieldsAtEnd(fs: seq<Schema>)
    decreases fs, 0
  {
    fs != [] ==>
      if |fs| == 1 then SteadyAtEnd(fs[0]) else Steady(fs[0]) && SteadyFieldsAtEnd(fs[1..])
  }

  lemma {:induction false} WideTakesBytes(s: Schema, v: Value)
    requires Wide(s) && Typed(s, v)
    ensures Enc(s, v) != []
    decreases s, 0
  {
    if s.Struct? { WideFieldsTakeBytes(s.fields, v.fields); }
  }

  lemma {:induction false} WideFieldsTakeBytes(fs: seq<Schema>, vs: seq<Value>)
    requires WideFields(fs) && TypedFields(fs, vs)
    ensures EncFields(fs, vs) != []
    decreases fs, 0
  {
    if Wide(fs[0]) { WideTakesBytes(fs[0], vs[0]); } else { WideFieldsTakeBytes(fs[1..], vs[1..]); }
  }

  lemma {:induction false} SteadyIsCanonical(s: Schema, v: Value, more: bool)
    requires Steady(s) && Typed(s, v)
    ensures Canon(s, v, more)
    decreases s, 0
  {
    match s
    case Sized(_, e) => EndIsCanonical(e, v);
    case Struct(fs) => SteadyFieldsAreCanonical(fs, v.fields, more);
    case _ =>
  }

  lemma {:induction false} SteadyFieldsAreCanonical(fs: seq<Schema>, vs: seq<Value>, more: bool)
    requires SteadyFields(fs) && TypedFields(fs, vs)
    ensures CanonFields(fs, None, vs, more)
    decreases fs, 0
  {
    if fs != [] {
      SteadyIsCanonical(fs[0], vs[0], more || EncFields(fs[1..], vs[1..]) != []);
      SteadyFieldsAreCanonical(fs[1..], vs[1..], more);
    }
  }

  lemma {:induction false} EndIsCanonical(s: Schema, v: Value)
    requires SteadyAtEnd(s) && Typed(s, v)
    ensures Canon(s, v, false)
    decreases s, 1
  {
    match s
    case Opt(e) =>
      if v.Present? {
        WideTakesBytes(e, v.inner);
        EndIsCanonical(e, v.inner);
      }
    case Vec(e) => ItemsAreCanonical(e, v.items);
    case Struct(fs) => EndFieldsAreCanonical(fs, v.fields);
    case _ => SteadyIsCanonical(s, v, false);
  }

  lemma {:induction false} ItemsAreCanonical(e: Schema, items: seq<Value>)
    requires Wide(e) && Steady(e) && TypedItems(e, items)
    ensures CanonItems(e, items)
    decreases e, 1, |items|
  {
    if items != [] {
      WideTakesBytes(e, items[0]);
      SteadyIsCanonical(e, items[0], EncItems(e, items[1..]) != []);
      ItemsAreCanonical(e, items[1..]);
    }
  }

  lemma {:induction false} EndFieldsAreCanonical(fs: seq<Schema>, vs: seq<Value>)
    requires SteadyFieldsAtEnd(fs) && TypedFields(fs, vs)
    ensures CanonFields(fs, None, vs, false)
    decreases fs, 0
  {
    if |fs| == 1 {
      assert fs[1..] == [] && vs[1..] == [];
      EndIsCanonical(fs[0], vs[0]);
    } else if fs != [] {
      SteadyIsCanonical(fs[0], vs[0], EncFields(fs[1..], vs[1..]) != []);
      EndFieldsAreCanonical(fs[1..], vs[1..]);
    }
  }

  /** All values of a steady type read back, in front of any bytes, if encoding them does not panic. */
  lemma SteadySurvives(s: Schema, v: Value, rest: seq<byte>)
    requires Steady(s) && Typed(s, v) && Fits(s, v)
    ensures Decode(s, Enc(s, v) + rest) == Done(v, rest)
  {
    SteadyIsCanonical(s, v, rest != []);
    RoundTrip(s, v, rest);
  }

  /** And all values of a type that is steady up to its last field do so at the end of a buffer. */
  lemma SteadyEndSurvives(s: Schema, v: Value)
    requires SteadyAtEnd(s) && Typed(s, v) && Fits(s, v)
    ensures Decode(s, Enc(s, v)) == Done(v, [])
  {
    EndIsCanonical(s, v);
    RoundTrip(s, v, []);
    assert Enc(s, v) + [] == Enc(s, v);
  }

  /** An empty buffer is an absent option and an empty vector. */
  lemma NothingLeft(e: Schema)
    ensures Decode(Opt(e), []) == Done(Absent, []) && Decode(Vec(e), []) == Done(List([]), [])
  {}
}
