/** The read buffer, a byte slice cut off at the front, and the decoders that advance it. */
module Readers {
  import opened Bytes
  import opened Codec
  import opened CodecLaws

  class SliceReader {
    var view: seq<byte>

    constructor (bs: seq<byte>)
      ensures view == bs
    {
      view := bs;
    }

    method FillBuf(size: nat) returns (r: Option<seq<byte>>)
      modifies this
      ensures r.Some? <==> size <= |old(view)|
      ensures r.Some? ==> Take(old(view), size) == Done(r.value, view)
      ensures r.None? ==> view == old(view)
    {
      if |view| < size { return None; }
      r := Some(view[..size]);
      view := view[size..];
    }
  }

  /** `r` is what `spec` says, and `after` what it leaves; a failing decoder may have read any part. */
  predicate Returns<T(==)>(spec: Outcome<T>, r: Option<T>, after: seq<byte>)
  {
    if r.Some? then spec == Done(r.value, after) else spec.Fail?
  }

  method DecodeIntFrom(w: Width, input: SliceReader) returns (r: Option<nat>)
    modifies input
    ensures Returns(DecodeInt(w, old(input.view)), r, input.view)
  {
    var bs := input.FillBuf(w.Size());
    r := if bs.Some? then Some(FromBytes(w, bs.value)) else None;
  }

  method DecodeWindowFrom(w: Width, input: SliceReader) returns (r: Option<seq<byte>>)
    modifies input
    ensures Returns(DecodeWindow(w, old(input.view)), r, input.view)
  {
    var size := DecodeIntFrom(w, input);
    if size.None? { return None; }
    r := input.FillBuf(size.value);
  }

  method DecodeFrom(s: Schema, input: SliceReader) returns (r: Option<Value>)
    requires WellFormed(s)
    modifies input
    ensures Returns(Decode(s, old(input.view)), r, input.view)
    decreases s, 0
  {
    match s
    case Int(w) =>
      var n := DecodeIntFrom(w, input);
      r := if n.Some? then Some(Num(n.value)) else None;
    case Unit => r := Some(Nothing);
    case Array(len) =>
      var bs := input.FillBuf(len);
      r := if bs.Some? then Some(Raw(bs.value)) else None;
    case Opaque(w) =>
      var bs := DecodeWindowFrom(w, input);
      r := if bs.Some? then Some(Raw(bs.value)) else None;
    case Opt(e) =>
      if input.view == [] { return Some(Absent); }
      var v := DecodeFrom(e, input);
      r := if v.Some? then Some(Value.Present(v.value)) else None;
    case Vec(e) =>
      var items := DecodeItemsFrom(e, input);
      r := if items.Some? then Some(List(items.value)) else None;
    case Sized(w, e) =>
      var window := DecodeWindowFrom(w, input);
      if window.None? { return None; }
      var left := new SliceReader(window.value);
      var v := DecodeFrom(e, left);
      r := if v.Some? && left.view == [] then v else None;
    case Struct(fs) =>
      var vs := DecodeFieldsFrom(fs, None, None, input);
      r := if vs.Some? then Some(Record(vs.value)) else None;
    case Enum(w, vs) =>
      var tag := DecodeIntFrom(w, input);
      if tag.None? { return None; }
      var i := Arm(vs, tag.value);
      if i == |vs| { return None; }
      var unknown := vs[i].tag.None?;
      var fields := DecodeFieldsFrom(vs[i].fields, if unknown then Some(w) else None, if unknown then tag else None,
          input);
      r := if fields.Some? then Some(Tagged(i, fields.value)) else None;
  }

  /** The loop of the `Vec` decoder. */
  method DecodeItemsFrom(e: Schema, input: SliceReader) returns (r: Option<seq<Value>>)
    requires WellFormed(e) && Consuming(e)
    modifies input
    ensures Returns(DecodeItems(e, old(input.view)), r, input.view)
    decreases e, 1
  {
    var vector: seq<Value> := [];
    AfterNothing(vector, DecodeItems(e, input.view));
    while input.view != []
      invariant DecodeItems(e, old(input.view)) == After(vector, DecodeItems(e, input.view))
      decreases |input.view|
    {
      ConsumingShrinksIfDone(e, input.view);
      ghost var before := input.view;
      var v := DecodeFrom(e, input);
      if v.None? { return None; }
      assert DecodeItems(e, before) == After([v.value], DecodeItems(e, input.view));
      AfterAfter(vector, [v.value], DecodeItems(e, input.view));
      vector := vector + [v.value];
    }
    AfterNothing(vector, Fail);
    r := Some(vector);
  }

  /** What the loop returns when `head` has been pushed and `tail` is still to come. */
  ghost function After(head: seq<Value>, tail: Outcome<seq<Value>>): Outcome<seq<Value>>
  {
    if tail.Done? then Done(head + tail.value, tail.rest) else tail
  }

  lemma AfterNothing(vs: seq<Value>, tail: Outcome<seq<Value>>)
    ensures After([], tail) == tail && After(vs, Done([], [])) == Done(vs, [])
  {
    if tail.Done? { assert [] + tail.value == tail.value; }
    assert vs + [] == vs;
  }

  lemma AfterAfter(a: seq<Value>, b: seq<Value>, tail: Outcome<seq<Value>>)
    ensures After(a, After(b, tail)) == After(a + b, tail)
  {
    if tail.Done? { assert a + (b + tail.value) == (a + b) + tail.value; }
  }

  lemma ConsumingShrinksIfDone(e: Schema, b: seq<byte>)
    requires Consuming(e) && b != []
    ensures Decode(e, b).Done? ==> |Decode(e, b).rest| < |b|
  {
    if Decode(e, b).Done? { ConsumingShrinks(e, b); }
  }

  method DecodeFieldsFrom(fs: seq<Schema>, w: Option<Width>, unknown: Option<nat>, input: SliceReader)
    returns (r: Option<seq<Value>>)
    requires WellFormedFields(fs, w) && (w.Some? <==> unknown.Some?)
    modifies input
    ensures Returns(DecodeFields(fs, unknown, old(input.view)), r, input.view)
    decreases fs, 0
  {
    if fs == [] { return Some([]); }
    var v;
    if fs[0].TagField? {
      v := Some(Num(unknown.value));
    } else {
      v := DecodeFrom(fs[0], input);
      if v.None? { return None; }
    }
    var vs := DecodeFieldsFrom(fs[1..], w, unknown, input);
    r := if vs.Some? then Some([v.value] + vs.value) else None;
  }
}
