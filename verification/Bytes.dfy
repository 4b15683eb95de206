/** Bytes and network-order integers of the three widths the wire format uses. */
module Bytes {
  newtype byte = x: int | 0 <= x < 256

  datatype Option<+T> = None | Some(value: T)

  /** The integer types that implement `DataSize`: u8, u16 and u32. */
  datatype Width = W1 | W2 | W4 {
    function Size(): nat {
      match this case W1 => 1 case W2 => 2 case W4 => 4
    }

    function Limit(): nat {
      match this case W1 => 0x100 case W2 => 0x1_0000 case W4 => 0x1_0000_0000
    }
  }

  function Low(n: nat): byte { (n % 256) as byte }

  /** `to_be_bytes`, the value taken modulo the width. */
  function ToBytes(w: Width, n: nat): (bs: seq<byte>)
    ensures |bs| == w.Size()
  {
    match w
    case W1 => [Low(n)]
    case W2 => [Low(n / 0x100), Low(n)]
    case W4 => [Low(n / 0x100_0000), Low(n / 0x1_0000), Low(n / 0x100), Low(n)]
  }

  /** The shift-and-add of the integer decoders. */
  function FromBytes(w: Width, bs: seq<byte>): (n: nat)
    requires |bs| == w.Size()
    ensures n < w.Limit()
  {
    match w
    case W1 => bs[0] as nat
    case W2 => bs[0] as nat * 0x100 + bs[1] as nat
    case W4 => bs[0] as nat * 0x100_0000 + bs[1] as nat * 0x1_0000 + bs[2] as nat * 0x100 + bs[3] as nat
  }

  function Power(i: nat): (p: nat)
    ensures p > 0
  {
    if i == 0 then 1 else 0x100 * Power(i - 1)
  }

  lemma Powers()
    ensures Power(0) == 1 && Power(1) == 0x100 && Power(2) == 0x1_0000 && Power(3) == 0x100_0000
    ensures forall w: Width :: w.Limit() == Power(w.Size())
  {
    assert Power(2) == 0x100 * Power(1) && Power(3) == 0x100 * Power(2) && Power(4) == 0x100 * Power(3);
  }

  /** Network order: the byte at place `i` is the digit of weight 256 to the number of bytes behind it. */
  lemma NetworkOrder(w: Width, n: nat, i: nat)
    requires i < w.Size()
    ensures ToBytes(w, n)[i] as nat == n / Power(w.Size() - 1 - i) % 0x100
  {
    Powers();
  }

  /** `a` comes before `b`, read from the front. */
  predicate Precedes(a: seq<byte>, b: seq<byte>)
  {
    a != [] && b != [] && (a[0] < b[0] || (a[0] == b[0] && Precedes(a[1..], b[1..])))
  }

  lemma PrecedesCons(x: byte, a: seq<byte>, y: byte, b: seq<byte>)
    ensures Precedes([x] + a, [y] + b) <==> x < y || (x == y && Precedes(a, b))
  {
    assert ([x] + a)[1..] == a && ([y] + b)[1..] == b;
  }

  /** A first digit decides, and the rest where it does not. */
  lemma FirstDigit(x: byte, m: nat, y: byte, n: nat, weight: nat)
    requires m < weight && n < weight
    ensures x as nat * weight + m < y as nat * weight + n <==> x < y || (x == y && m < n)
  {
    if x < y {
      assert (x as nat + 1) * weight <= y as nat * weight;
    } else if y < x {
      assert (y as nat + 1) * weight <= x as nat * weight;
    }
  }

  /** So integers of one width are in the order of their bytes. */
  lemma OrderIsKept(w: Width, m: nat, n: nat)
    requires m < w.Limit() && n < w.Limit()
    ensures m < n <==> Precedes(ToBytes(w, m), ToBytes(w, n))
  {
    IntegerThere(w, m);
    IntegerThere(w, n);
    BytesInOrder(w, ToBytes(w, m), ToBytes(w, n));
  }

  lemma BytesInOrder(w: Width, a: seq<byte>, b: seq<byte>)
    requires |a| == |b| == w.Size()
    ensures FromBytes(w, a) < FromBytes(w, b) <==> Precedes(a, b)
  {
    var i := w.Size() - 1;
    assert a[i..] == [a[i]] + [] && b[i..] == [b[i]] + [];
    PrecedesCons(a[i], [], b[i], []);
    if w != W1 { PairInOrder(a[i - 1..], b[i - 1..]); }
    if w == W4 {
      var x, y := a[2] as nat * 0x100 + a[3] as nat, b[2] as nat * 0x100 + b[3] as nat;
      FirstDigit(a[1], x, b[1], y, 0x1_0000);
      FirstDigit(a[0], a[1] as nat * 0x1_0000 + x, b[0], b[1] as nat * 0x1_0000 + y, 0x100_0000);
      assert a[1..] == [a[1]] + a[2..] && b[1..] == [b[1]] + b[2..] && a == [a[0]] + a[1..] && b == [b[0]] + b[1..];
      PrecedesCons(a[1], a[2..], b[1], b[2..]);
      PrecedesCons(a[0], a[1..], b[0], b[1..]);
    } else {
      assert a[0..] == a && b[0..] == b;
    }
  }

  lemma PairInOrder(a: seq<byte>, b: seq<byte>)
    requires |a| == |b| == 2
    ensures a[0] as nat * 0x100 + a[1] as nat < b[0] as nat * 0x100 + b[1] as nat <==> Precedes(a, b)
  {
    FirstDigit(a[0], a[1] as nat, b[0], b[1] as nat, 0x100);
    assert a == [a[0]] + [a[1]] && b == [b[0]] + [b[1]] && [a[1]][1..] == [];
    PrecedesCons(a[0], [a[1]], b[0], [b[1]]);
  }

  /** Integers survive the wire. */
  lemma IntegerThere(w: Width, n: nat)
    requires n < w.Limit()
    ensures FromBytes(w, ToBytes(w, n)) == n
  {
    if w == W4 {
      var top, mid, low := n / 0x100_0000, n / 0x1_0000, n / 0x100;
      Digits(n); Digits(low); Digits(mid);
      assert low / 0x100 == mid && mid / 0x100 == top;
    }
  }

  lemma Digits(n: nat)
    ensures n == n / 0x100 * 0x100 + Low(n) as nat
  {}

  /** And so do the bytes. */
  lemma IntegerBack(w: Width, bs: seq<byte>)
    requires |bs| == w.Size()
    ensures ToBytes(w, FromBytes(w, bs)) == bs
  {
    match w
    case W1 =>
    case W2 => Push(bs[0] as nat, bs[1]);
    case W4 =>
      var b0 := bs[0] as nat;
      var b1 := b0 * 0x100 + bs[1] as nat;
      var b2 := b1 * 0x100 + bs[2] as nat;
      Push(b0, bs[1]); Push(b1, bs[2]); Push(b2, bs[3]);
      var n := FromBytes(w, bs);
      assert n == b2 * 0x100 + bs[3] as nat;
      assert n / 0x100 == b2 && n / 0x1_0000 == b1 && n / 0x100_0000 == b0;
  }

  lemma Push(hi: nat, lo: byte)
    ensures (hi * 0x100 + lo as nat) / 0x100 == hi && Low(hi * 0x100 + lo as nat) == lo
  {}

  /** Concatenation is associative. */
  lemma Assoc<T>(a: seq<T>, b: seq<T>, c: seq<T>)
    ensures (a + b) + c == a + (b + c)
  {}
}
