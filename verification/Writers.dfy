/**
  The two write buffers and the encoders that drive them: a growable byte vector, and a
  fixed slice that is consumed from the front. Both are proved to write `Codec.Enc`.
 */
module Writers {
  import opened Bytes
  import opened Codec

  /** `Panicked` is a failed `unwrap` of a size conversion or a tag that is missing. */
  datatype Written = Wrote(n: nat) | Overflow | Panicked

  // ---------- the growable writer ----------

  class VecWriter {
    var data: seq<byte>

    constructor ()
      ensures data == []
    {
      data := [];
    }

    method FillFrom(bs: seq<byte>)
      modifies this
      ensures data == old(data) + bs
    {
      data := data + bs;
    }

    /** The opening half of `later_fill`: skip `len` bytes, remember where they are. */
    method Reserve(len: nat) returns (start: nat)
      modifies this
      ensures start == |old(data)| && data == old(data) + seq(len, _ => 0)
    {
      start := |data|;
      data := data + seq(len, _ => 0);
    }

    /** Encode into the skipped bytes, a slice of length `len`; refuses what is too long for it. */
    method Patch(start: nat, len: nat, bs: seq<byte>) returns (ok: bool)
      requires start + len <= |data|
      modifies this
      ensures ok <==> |bs| <= len
      ensures data == if ok then old(data)[..start] + bs + old(data)[start + |bs|..] else old(data)
    {
      ok := |bs| <= len;
      if ok {
        data := data[..start] + bs + data[start + |bs|..];
      }
    }
  }

  method EncodeToVec(s: Schema, v: Value, out: VecWriter) returns (r: Written)
    requires Typed(s, v)
    modifies out
    ensures r.Wrote? <==> Fits(s, v)
    ensures r.Wrote? ==> r.n == |Enc(s, v)| && out.data == old(out.data) + Enc(s, v)
    ensures old(out.data) <= out.data && !r.Overflow?
    decreases s, 0
  {
    match s
    case Int(w) =>
      out.FillFrom(ToBytes(w, v.n));
      r := Wrote(w.Size());
    case Unit =>
      r := Wrote(0);
    case Array(len) =>
      out.FillFrom(v.bytes);
      r := Wrote(len);
    case Opaque(w) =>
      if |v.bytes| >= w.Limit() { return Panicked; }
      out.FillFrom(ToBytes(w, |v.bytes|));
      out.FillFrom(v.bytes);
      Assoc(old(out.data), ToBytes(w, |v.bytes|), v.bytes);
      r := Wrote(w.Size() + |v.bytes|);
    case Opt(e) =>
      if v.Present? { r := EncodeToVec(e, v.inner, out); } else { r := Wrote(0); }
    case Vec(e) =>
      r := EncodeItemsToVec(e, v.items, out);
    case Sized(w, e) =>
      r := EncodeSizedToVec(w, e, v, out);
    case Struct(fs) =>
      r := EncodeFieldsToVec(fs, v.fields, out);
    case Enum(w, vs) =>
      var tag := TagOf(vs[v.index], v.fields);
      if tag.None? { return Panicked; }
      out.FillFrom(ToBytes(w, tag.value));
      r := EncodeFieldsToVec(vs[v.index].fields, v.fields, out);
      Assoc(old(out.data), ToBytes(w, tag.value), EncFields(vs[v.index].fields, v.fields));
      if r.Wrote? { r := Wrote(w.Size() + r.n); }
    case TagField(_) =>
      r := Wrote(0);
  }

  method EncodeItemsToVec(e: Schema, items: seq<Value>, out: VecWriter) returns (r: Written)
    requires TypedItems(e, items)
    modifies out
    ensures r.Wrote? <==> FitsItems(e, items)
    ensures r.Wrote? ==> r.n == |EncItems(e, items)| && out.data == old(out.data) + EncItems(e, items)
    ensures old(out.data) <= out.data && !r.Overflow?
    decreases e, 1
  {
    var total, i := 0, 0;
    while i < |items|
      invariant 0 <= i <= |items| && TypedItems(e, items[i..])
      invariant FitsItems(e, items) <==> FitsItems(e, items[i..])
      invariant total + |EncItems(e, items[i..])| == |EncItems(e, items)|
      invariant out.data + EncItems(e, items[i..]) == old(out.data) + EncItems(e, items)
      invariant old(out.data) <= out.data
    {
      assert items[i..][0] == items[i] && items[i..][1..] == items[i + 1..];
      Assoc(out.data, Enc(e, items[i]), EncItems(e, items[i + 1..]));
      r := EncodeToVec(e, items[i], out);
      if !r.Wrote? { return; }
      total := total + r.n;
      i := i + 1;
    }
    r := Wrote(total);
  }

  method EncodeFieldsToVec(fs: seq<Schema>, vs: seq<Value>, out: VecWriter) returns (r: Written)
    requires TypedFields(fs, vs)
    modifies out
    ensures r.Wrote? <==> FitsFields(fs, vs)
    ensures r.Wrote? ==> r.n == |EncFields(fs, vs)| && out.data == old(out.data) + EncFields(fs, vs)
    ensures old(out.data) <= out.data && !r.Overflow?
    decreases fs, 0
  {
    if fs == [] { return Wrote(0); }
    r := EncodeToVec(fs[0], vs[0], out);
    if !r.Wrote? { return; }
    var tail := EncodeFieldsToVec(fs[1..], vs[1..], out);
    Assoc(old(out.data), Enc(fs[0], vs[0]), EncFields(fs[1..], vs[1..]));
    r := if tail.Wrote? then Wrote(r.n + tail.n) else tail;
  }

  /** Skip the size, encode behind it, come back and fill it in. */
  method EncodeSizedToVec(w: Width, e: Schema, v: Value, out: VecWriter) returns (r: Written)
    requires Typed(e, v)
    modifies out
    ensures r.Wrote? <==> Fits(e, v) && |Enc(e, v)| < w.Limit()
    ensures r.Wrote? ==> r.n == |Prefixed(w, Enc(e, v))| && out.data == old(out.data) + Prefixed(w, Enc(e, v))
    ensures old(out.data) <= out.data && !r.Overflow?
    decreases e, 1
  {
    ghost var was, enc := out.data, Enc(e, v);
    var start := out.Reserve(w.Size());
    ghost var gap := out.data[start..];
    assert out.data == was + gap;
    var inner := EncodeToVec(e, v, out);
    PrefixOfPrefix(was, gap, out.data);
    if !inner.Wrote? || inner.n >= w.Limit() { return Panicked; }
    ghost var filled := out.data;
    var ok := out.Patch(start, w.Size(), ToBytes(w, inner.n));
    assert ok;  // the `unwrap` of the patch
    GapFilled(was, gap, enc, filled, ToBytes(w, inner.n));
    r := Wrote(inner.n + w.Size());
  }

  lemma PrefixOfPrefix(a: seq<byte>, b: seq<byte>, c: seq<byte>)
    requires a + b <= c
    ensures a <= c
  {}

  lemma GapFilled(was: seq<byte>, gap: seq<byte>, enc: seq<byte>, filled: seq<byte>, size: seq<byte>)
    requires filled == (was + gap) + enc && |size| == |gap|
    ensures filled[..|was|] + size + filled[|was| + |size|..] == was + (size + enc)
  {
    assert filled[..|was|] == was && filled[|was| + |size|..] == enc;
  }

  // ---------- the bounded writer ----------

  /** A slice as a value: the memory it lies in and its bounds. */
  datatype View = View(mem: seq<byte>, lo: nat, hi: nat) {
    predicate Valid() { lo <= hi <= |mem| }
  }

  ghost function Splice(mem: seq<byte>, at: nat, bs: seq<byte>): (after: seq<byte>)
    requires at + |bs| <= |mem|
    ensures |after| == |mem|
  {
    mem[..at] + bs + mem[at + |bs|..]
  }

  /**
    The effect of encoding `enc` into the slice `pre`. A value that fits is written exactly when
    there is room: its bytes in front, the view advanced past them, everything else as it was.
    In no case are bytes outside the slice touched.
   */
  ghost predicate Effect(pre: View, post: View, r: Written, fits: bool, enc: seq<byte>)
    requires pre.Valid()
  {
    && (fits ==> r == if |enc| <= pre.hi - pre.lo then Wrote(|enc|) else Overflow)
    && (!fits ==> !r.Wrote?)
    && (if r.Wrote?
        then post == View(Splice(pre.mem, pre.lo, enc), pre.lo + |enc|, pre.hi)
        else post.Valid() && Outside(pre, post.mem))
  }

  ghost predicate Outside(pre: View, mem: seq<byte>)
    requires pre.Valid()
  {
    |mem| == |pre.mem| && mem[..pre.lo] == pre.mem[..pre.lo] && mem[pre.hi..] == pre.mem[pre.hi..]
  }

  /** Effects compose: one encoding after another is the encoding of both. */
  lemma EffectThen(pre: View, mid: View, post: View, r: Written, r': Written, fits: bool, fits': bool, a: seq<byte>,
                   b: seq<byte>)
    requires pre.Valid() && Effect(pre, mid, r, fits, a)
    requires r.Wrote? ==> Effect(mid, post, r', fits', b)
    requires !r.Wrote? ==> post == mid && r' == r
    ensures Effect(pre, post, if r'.Wrote? then Wrote(|a| + |b|) else r', fits && fits', a + b)
  {
    if r'.Wrote? {
      assert Splice(Splice(pre.mem, pre.lo, a), pre.lo + |a|, b) == Splice(pre.mem, pre.lo, a + b);
    } else if r.Wrote? {
      assert post.mem[..pre.lo] == mid.mem[..mid.lo][..pre.lo];
    }
  }

  lemma EffectNoRoom(pre: View, fits: bool, enc: seq<byte>)
    requires pre.Valid() && |enc| > pre.hi - pre.lo
    ensures Effect(pre, pre, Overflow, fits, enc)
  {}

  /** A failure part of the way is a failure of the whole. */
  lemma EffectCutShort(pre: View, post: View, r: Written, fits: bool, fits': bool, a: seq<byte>, b: seq<byte>)
    requires pre.Valid() && Effect(pre, post, r, fits, a) && !r.Wrote?
    requires fits' ==> fits
    requires |a| <= |b|
    ensures Effect(pre, post, r, fits', b)
  {}

  /** Encoding behind a gap of |size| bytes and filling the gap afterwards prefixes the size. */
  lemma EffectPatched(pre: View, mid: View, mem: seq<byte>, size: seq<byte>, enc: seq<byte>)
    requires pre.Valid() && pre.lo + |size| <= pre.hi
    requires Effect(View(pre.mem, pre.lo + |size|, pre.hi), mid, Wrote(|enc|), true, enc)
    requires mem == Splice(mid.mem, pre.lo, size)
    ensures Effect(pre, View(mem, mid.lo, pre.hi), Wrote(|size| + |enc|), true, size + enc)
  {
    assert mem == Splice(pre.mem, pre.lo, size + enc);
  }

  /** A failure behind the gap, or a size too big for it, touches nothing outside the slice either. */
  lemma EffectBehindGap(pre: View, mid: View, lo: nat, r: Written, r': Written, fits: bool, fits': bool, gap: nat,
                        enc: seq<byte>, all: seq<byte>)
    requires pre.Valid() && pre.lo + gap <= pre.hi
    requires Effect(View(pre.mem, pre.lo + gap, pre.hi), mid, r, fits, enc)
    requires !r'.Wrote? && (fits' ==> fits && r' == r) && lo <= pre.hi && gap + |enc| <= |all|
    ensures Effect(pre, View(mid.mem, lo, pre.hi), r', fits', all)
  {
    assert mid.mem[..pre.lo] == mid.mem[..pre.lo + gap][..pre.lo];
    assert pre.mem[..pre.lo] == pre.mem[..pre.lo + gap][..pre.lo];
  }

  /** A mutable slice `buf[lo..hi]`, of which what has been written is cut off at the front. */
  class SliceWriter {
    const buf: array<byte>
    var lo: nat
    var hi: nat

    ghost function Now(): View
      reads this, buf
    {
      View(buf[..], lo, hi)
    }

    constructor (buf: array<byte>, lo: nat, hi: nat)
      requires lo <= hi <= buf.Length
      ensures this.buf == buf && Now() == View(buf[..], lo, hi)
    {
      this.buf, this.lo, this.hi := buf, lo, hi;
    }

    method FillFrom(bs: seq<byte>) returns (r: Written)
      requires Now().Valid()
      modifies this`lo, buf
      ensures Effect(old(Now()), Now(), r, true, bs) && (r.Overflow? ==> Now() == old(Now()))
    {
      if hi - lo < |bs| { return Overflow; }
      forall i | 0 <= i < |bs| { buf[lo + i] := bs[i]; }
      lo := lo + |bs|;
      r := Wrote(|bs|);
      assert buf[..] == Splice(old(buf[..]), old(lo), bs);
    }
  }

  method EncodeToSlice(s: Schema, v: Value, out: SliceWriter) returns (r: Written)
    requires Typed(s, v) && out.Now().Valid()
    modifies out, out.buf
    ensures Effect(old(out.Now()), out.Now(), r, Fits(s, v), Enc(s, v))
    decreases s, 0
  {
    match s
    case Int(w) => r := out.FillFrom(ToBytes(w, v.n));
    case Unit => r := out.FillFrom([]);
    case Array(_) => r := out.FillFrom(v.bytes);
    case Opaque(w) =>
      if |v.bytes| >= w.Limit() { return Panicked; }
      var size := out.FillFrom(ToBytes(w, |v.bytes|));
      ghost var mid := out.Now();
      r := size;
      if size.Wrote? { r := out.FillFrom(v.bytes); }
      EffectThen(old(out.Now()), mid, out.Now(), size, r, true, true, ToBytes(w, |v.bytes|), v.bytes);
      if r.Wrote? { r := Wrote(w.Size() + |v.bytes|); }
    case Opt(e) =>
      if v.Present? { r := EncodeToSlice(e, v.inner, out); } else { r := out.FillFrom([]); }
    case Vec(e) => r := EncodeItemsToSlice(e, v.items, out);
    case Sized(w, e) => r := EncodeSizedToSlice(w, e, v, out);
    case Struct(fs) => r := EncodeFieldsToSlice(fs, v.fields, out);
    case Enum(w, vs) => r := EncodeEnumToSlice(w, vs, v, out);
    case TagField(_) => r := out.FillFrom([]);
  }

  method EncodeEnumToSlice(w: Width, vs: seq<Variant>, v: Value, out: SliceWriter) returns (r: Written)
    requires Typed(Enum(w, vs), v) && out.Now().Valid()
    modifies out, out.buf
    ensures Effect(old(out.Now()), out.Now(), r, Fits(Enum(w, vs), v), Enc(Enum(w, vs), v))
    decreases vs, 1
  {
    var tag := TagOf(vs[v.index], v.fields);
    if tag.None? { return Panicked; }
    var head := out.FillFrom(ToBytes(w, tag.value));
    ghost var mid := out.Now();
    r := head;
    if head.Wrote? { r := EncodeFieldsToSlice(vs[v.index].fields, v.fields, out); }
    EffectThen(old(out.Now()), mid, out.Now(), head, r, true, FitsFields(vs[v.index].fields, v.fields),
               ToBytes(w, tag.value), EncFields(vs[v.index].fields, v.fields));
    if r.Wrote? { r := Wrote(w.Size() + r.n); }
  }

  method EncodeItemsToSlice(e: Schema, items: seq<Value>, out: SliceWriter) returns (r: Written)
    requires TypedItems(e, items) && out.Now().Valid()
    modifies out, out.buf
    ensures Effect(old(out.Now()), out.Now(), r, FitsItems(e, items), EncItems(e, items))
    decreases e, 2
  {
    var total, i := 0, 0;
    ghost var pre, done: seq<byte> := out.Now(), [];
    while i < |items|
      invariant 0 <= i <= |items| && TypedItems(e, items[i..])
      invariant FitsItems(e, items) <==> FitsItems(e, items[i..])
      invariant total == |done| && done + EncItems(e, items[i..]) == EncItems(e, items)
      invariant Effect(pre, out.Now(), Wrote(total), true, done)
    {
      NextItem(e, items, i, done);
      r := EncodeItem(e, items[i], out, pre, done);
      ghost var longer := done + Enc(e, items[i]);
      if !r.Wrote? {
        EffectCutShort(pre, out.Now(), r, Fits(e, items[i]), FitsItems(e, items), longer, EncItems(e, items));
        return;
      }
      total, i, done := total + r.n, i + 1, longer;
    }
    assert items[i..] == [] && done == EncItems(e, items);
    r := Wrote(total);
  }

  lemma NextItem(e: Schema, items: seq<Value>, i: nat, done: seq<byte>)
    requires i < |items| && TypedItems(e, items[i..])
    ensures Typed(e, items[i]) && TypedItems(e, items[i + 1..])
    ensures FitsItems(e, items[i..]) <==> Fits(e, items[i]) && FitsItems(e, items[i + 1..])
    ensures done + EncItems(e, items[i..]) == (done + Enc(e, items[i])) + EncItems(e, items[i + 1..])
  {
    assert items[i..][0] == items[i] && items[i..][1..] == items[i + 1..];
    Assoc(done, Enc(e, items[i]), EncItems(e, items[i + 1..]));
  }

  /** One turn of the loop, after `done` has been written to what was `pre`. */
  method EncodeItem(e: Schema, v: Value, out: SliceWriter, ghost pre: View, ghost done: seq<byte>) returns (r: Written)
    requires Typed(e, v) && pre.Valid() && Effect(pre, out.Now(), Wrote(|done|), true, done)
    modifies out, out.buf
    ensures r.Wrote? ==> r.n == |Enc(e, v)| && Fits(e, v)
    ensures Effect(pre, out.Now(), if r.Wrote? then Wrote(|done| + r.n) else r, Fits(e, v), done + Enc(e, v))
    decreases e, 1
  {
    ghost var mid := out.Now();
    r := EncodeToSlice(e, v, out);
    EffectThen(pre, mid, out.Now(), Wrote(|done|), r, true, Fits(e, v), done, Enc(e, v));
  }

  method EncodeFieldsToSlice(fs: seq<Schema>, vs: seq<Value>, out: SliceWriter) returns (r: Written)
    requires TypedFields(fs, vs) && out.Now().Valid()
    modifies out, out.buf
    ensures Effect(old(out.Now()), out.Now(), r, FitsFields(fs, vs), EncFields(fs, vs))
    decreases fs, 0
  {
    if fs == [] {
      r := out.FillFrom([]);
    } else {
      var head := EncodeToSlice(fs[0], vs[0], out);
      ghost var mid := out.Now();
      r := head;
      if head.Wrote? { r := EncodeFieldsToSlice(fs[1..], vs[1..], out); }
      EffectThen(old(out.Now()), mid, out.Now(), head, r, Fits(fs[0], vs[0]), FitsFields(fs[1..], vs[1..]),
                 Enc(fs[0], vs[0]), EncFields(fs[1..], vs[1..]));
      if r.Wrote? { r := Wrote(head.n + r.n); }
    }
  }

  method EncodeSizedToSlice(w: Width, e: Schema, v: Value, out: SliceWriter) returns (r: Written)
    requires Typed(e, v) && out.Now().Valid()
    modifies out, out.buf
    ensures Effect(old(out.Now()), out.Now(), r, Fits(e, v) && |Enc(e, v)| < w.Limit(), Prefixed(w, Enc(e, v)))
    decreases e, 2
  {
    ghost var pre := out.Now();
    var start := out.lo;
    var inner, mid, fits, enc := LaterFill(w.Size(), e, v, out);
    r := Finish(w, inner, out, start, pre, mid, fits, enc);
  }

  /**
    `later_fill` on a slice, its callback encoding `v`. A slice that is too short for the gap is
    left as it is and the callback is not called; a failing callback leaves the writer an empty slice.
   */
  method LaterFill(len: nat, e: Schema, v: Value, out: SliceWriter)
    returns (r: Option<Written>, ghost mid: View, ghost fits: bool, ghost enc: seq<byte>)
    requires Typed(e, v) && out.Now().Valid()
    modifies out, out.buf
    ensures fits == Fits(e, v) && enc == Enc(e, v)
    ensures r.None? <==> old(out.hi - out.lo) < len
    ensures r.None? ==> out.Now() == old(out.Now())
    ensures r.Some? ==>
              && Effect(old(View(out.buf[..], out.lo + len, out.hi)), mid, r.value, fits, enc)
              && out.Now() == View(mid.mem, if r.value.Wrote? then mid.lo else old(out.hi), old(out.hi))
    decreases e, 1
  {
    mid, fits, enc := out.Now(), Fits(e, v), Enc(e, v);
    if out.hi - out.lo < len { return None, mid, fits, enc; }
    var left := new SliceWriter(out.buf, out.lo + len, out.hi);
    var inner := EncodeToSlice(e, v, left);
    mid, r := left.Now(), Some(inner);
    out.lo := if inner.Wrote? then left.lo else out.hi;
  }

  /** Convert the size and fill it in, unless there was no room for it or the callback failed. */
  method Finish(w: Width, inner: Option<Written>, out: SliceWriter, start: nat,
                ghost pre: View, ghost mid: View, ghost fits: bool, ghost enc: seq<byte>) returns (r: Written)
    requires pre.Valid() && start == pre.lo
    requires if inner.None? then pre.hi - pre.lo < w.Size() && out.Now() == pre
             else && pre.lo + w.Size() <= pre.hi
                  && Effect(View(pre.mem, pre.lo + w.Size(), pre.hi), mid, inner.value, fits, enc)
                  && out.Now() == View(mid.mem, if inner.value.Wrote? then mid.lo else pre.hi, pre.hi)
    modifies out.buf
    ensures Effect(pre, out.Now(), r, fits && |enc| < w.Limit(), Prefixed(w, enc))
  {
    if inner.None? {
      EffectNoRoom(pre, fits && |enc| < w.Limit(), Prefixed(w, enc));
      return Overflow;
    }
    if !inner.value.Wrote? || inner.value.n >= w.Limit() {
      r := if inner.value.Wrote? then Panicked else inner.value;
      EffectBehindGap(pre, mid, out.lo, inner.value, r, fits, fits && |enc| < w.Limit(), w.Size(), enc,
          Prefixed(w, enc));
    } else {
      FillSize(w, inner.value.n, out, start, pre, mid, enc);
      r := Wrote(inner.value.n + w.Size());
    }
  }

  /** Encode the size into the bytes that `later_fill` returned. */
  method FillSize(w: Width, n: nat, out: SliceWriter, start: nat, ghost pre: View, ghost mid: View,
                  ghost enc: seq<byte>)
    requires pre.Valid() && start == pre.lo && pre.lo + w.Size() <= pre.hi && n == |enc|
    requires Effect(View(pre.mem, pre.lo + w.Size(), pre.hi), mid, Wrote(n), true, enc)
    requires out.Now() == View(mid.mem, mid.lo, pre.hi)
    modifies out.buf
    ensures Effect(pre, out.Now(), Wrote(w.Size() + n), true, Prefixed(w, enc))
  {
    var current := new SliceWriter(out.buf, start, start + w.Size());
    var size := current.FillFrom(ToBytes(w, n));
    assert size.Wrote?;  // the `unwrap` of the patch
    assert out.buf[..] == Splice(mid.mem, pre.lo, ToBytes(w, n));
    EffectPatched(pre, mid, out.buf[..], ToBytes(w, n), enc);
  }
}
