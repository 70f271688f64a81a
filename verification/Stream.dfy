/**
  The bit stream of a symbol: the writer, the layout of mode, count, payload,
  terminator and padding, and a reader for that layout.
  */
module BitStream {
  import opened GaloisField

  // -- bits of bytes and numbers ------------------------------------------------------

  /** The bits of a byte, most significant first. */
  function ByteBits(b: Byte): (s: seq<bool>)
    ensures |s| == 8
  {
    seq(8, i requires 0 <= i < 8 => Coefficient(b, 7 - i))
  }

  function StreamBits(bytes: seq<Byte>): (s: seq<bool>)
    ensures |s| == 8 * |bytes|
  {
    if bytes == [] then [] else StreamBits(bytes[..|bytes| - 1]) + ByteBits(bytes[|bytes| - 1])
  }

  /** Bit i of a number, counted from the least significant. */
  function NumberBit(value: nat, i: nat): bool {
    if i == 0 then value % 2 == 1 else NumberBit(value / 2, i - 1)
  }

  /** The lowest count bits of a number, most significant first. */
  function NumberBits(value: nat, count: nat): (s: seq<bool>)
    ensures |s| == count
  {
    seq(count, i requires 0 <= i < count => NumberBit(value, count - 1 - i))
  }

  function NumberOf(s: seq<bool>): nat {
    if s == [] then 0 else 2 * NumberOf(s[..|s| - 1]) + (if s[|s| - 1] then 1 else 0)
  }

  function Power(n: nat): (p: nat)
    ensures p > 0
  {
    if n == 0 then 1 else 2 * Power(n - 1)
  }

  lemma {:induction false} NumberRoundTrip(value: nat, count: nat)
    requires value < Power(count)
    ensures NumberOf(NumberBits(value, count)) == value
  {
    var s := NumberBits(value, count);
    if count == 0 {
      assert s == [];
    } else {
      NumberRoundTrip(value / 2, count - 1);
      forall i | 0 <= i < count - 1 ensures s[i] == NumberBits(value / 2, count - 1)[i] {
        assert NumberBit(value, count - 1 - i) == NumberBit(value / 2, count - 2 - i);
      }
      assert s[..count - 1] == NumberBits(value / 2, count - 1);
      assert s[count - 1] == NumberBit(value, 0);
    }
  }

  lemma ByteBitsOfNum(b: Byte)
    ensures NumberBits(Num(b), 8) == ByteBits(b)
  {
    var n0 := Num(b);
    var n1 := n0 / 2;
    var n2 := n1 / 2;
    var n3 := n2 / 2;
    NumHalves(b.v);
    forall i | 0 <= i < 8 ensures NumberBits(n0, 8)[i] == ByteBits(b)[i] {
      NumBit(b, 7 - i);
    }
  }

  function HalfBits(x: bv8, n: nat): bv8
    requires n <= 8
  {
    if n == 0 then x else HalfBits(x, n - 1) >> 1
  }

  lemma NumHalves(x: bv8)
    ensures Num(Byte(x >> 1)) == Num(Byte(x)) / 2
    ensures Num(Byte(x)) % 2 == 1 <==> x & 1 != 0
  {
  }

  lemma {:induction false} NumBit(b: Byte, i: nat)
    requires i < 8
    ensures NumberBit(Num(b), i) == Coefficient(b, i)
    decreases i
  {
    NumHalves(b.v);
    if i > 0 {
      NumBit(Byte(b.v >> 1), i - 1);
      ShiftMask(b.v, i);
    }
  }

  lemma ShiftMask(x: bv8, i: nat)
    requires 0 < i < 8
    ensures (x >> 1) & Mask(i - 1) != 0 <==> x & Mask(i) != 0
  {
  }

  lemma StreamBitsSnoc(bytes: seq<Byte>, b: Byte)
    ensures StreamBits(bytes + [b]) == StreamBits(bytes) + ByteBits(b)
  {
    assert (bytes + [b])[..|bytes|] == bytes;
  }

  lemma {:induction false} StreamBitsConcat(p: seq<Byte>, q: seq<Byte>)
    ensures StreamBits(p + q) == StreamBits(p) + StreamBits(q)
  {
    if q == [] {
      assert p + q == p;
    } else {
      var k := |q| - 1;
      StreamBitsConcat(p, q[..k]);
      assert (p + q)[..|p| + k] == p + q[..k];
    }
  }

  // -- reading bytes back ----------------------------------------------------------------

  /** The byte with these bits, most significant first. */
  function PackByte(s: seq<bool>): Byte
    requires |s| == 8
  {
    Low(seq(8, i requires 0 <= i < 8 => s[7 - i]), 8)
  }

  /** The bytes a reader collects from 8n bits. */
  function Pack(s: seq<bool>, n: nat): (bytes: seq<Byte>)
    requires |s| == 8 * n
    ensures |bytes| == n
  {
    if n == 0 then [] else Pack(s[..8 * (n - 1)], n - 1) + [PackByte(s[8 * (n - 1)..])]
  }

  lemma PackByteBits(b: Byte)
    ensures PackByte(ByteBits(b)) == b
  {
    hide Coefficient, Low;
    var s := ByteBits(b);
    assert seq(8, i requires 0 <= i < 8 => s[7 - i]) == Bits(b);
    LowBits(b, 8);
  }

  lemma {:induction false} PackStream(bytes: seq<Byte>)
    ensures Pack(StreamBits(bytes), |bytes|) == bytes
  {
    hide ByteBits, PackByte;
    if bytes != [] {
      var k := |bytes| - 1;
      PackStream(bytes[..k]);
      var s := StreamBits(bytes);
      assert s[..8 * k] == StreamBits(bytes[..k]);
      assert s[8 * k..] == ByteBits(bytes[k]);
      PackByteBits(bytes[k]);
    }
  }

  // -- the writer ---------------------------------------------------------------------------

  /** b with its k-th bit set. */
  function WithBit(b: Byte, k: nat): Byte
    requires k < 8
  {
    Byte(b.v | Mask(7 - k))
  }

  lemma SetBit(b: Byte, k: nat)
    requires k < 8
    ensures ByteBits(WithBit(b, k)) == ByteBits(b)[k := true]
  {
    var c := WithBit(b, k);
    hide Mask;
    forall i | 0 <= i < 8 ensures ByteBits(c)[i] == ByteBits(b)[k := true][i] {
      MaskOr(b.v, 7 - k, 7 - i);
    }
  }

  lemma MaskOr(x: bv8, i: nat, j: nat)
    requires i < 8 && j < 8
    ensures (x | Mask(i)) & Mask(j) != 0 <==> i == j || x & Mask(j) != 0
  {
    MasksDiffer(i, j);
    hide Mask;
    var m, n := Mask(i), Mask(j);
    assert (x | m) & n == (x & n) | (m & n);
  }

  lemma MasksDiffer(i: nat, j: nat)
    requires i < 8 && j < 8
    ensures if i == j then Mask(i) & Mask(j) == Mask(i) && Mask(i) != 0 else Mask(i) & Mask(j) == 0
  {
  }

  /** Bits written one by one into bytes. */
  class Writer {
    var b: seq<Byte>
    var n: nat

    ghost predicate Valid()
      reads this
    {
      && |b| == (n + 7) / 8
      && forall i :: n <= i < 8 * |b| ==> !StreamBits(b)[i]
    }

    ghost function Contents(): (s: seq<bool>)
      requires Valid()
      reads this
      ensures |s| == n
    {
      StreamBits(b)[..n]
    }

    constructor ()
      ensures Valid() && Contents() == []
    {
      b, n := [], 0;
    }

    method Add(value: nat, count: int)
      requires Valid()
      modifies this
      ensures Valid()
      ensures Contents() == old(Contents()) + NumberBits(value, if count < 0 then 0 else count)
    {
      ghost var len := if count < 0 then 0 else count;
      ghost var all := NumberBits(value, len);
      assert all[..0] == [] && Contents() + [] == Contents();
      var i := count - 1;
      while i >= 0
        invariant i < len && (count >= 0 ==> i >= -1) && Valid()
        invariant Contents() == old(Contents()) + all[..if i < -1 then 0 else len - 1 - i]
      {
        AddBit(NumberBit(value, i));
        assert all[..len - i] == all[..len - 1 - i] + [NumberBit(value, i)];
        i := i - 1;
      }
      assert all[..len] == all;
    }

    /** The body of the loop above: one more bit. */
    method AddBit(bit: bool)
      requires Valid()
      modifies this
      ensures Valid() && Contents() == old(Contents()) + [bit]
    {
      ghost var before := StreamBits(b);
      if n % 8 == 0 {
        StreamBitsSnoc(b, ZERO);
        ZeroBits();
        b := b + [ZERO];
      }
      hide *;
      SetOrSkip(bit);
    }

    method SetOrSkip(bit: bool)
      requires n < 8 * |b| < n + 9
      requires forall i :: n <= i < 8 * |b| ==> !StreamBits(b)[i]
      modifies this
      ensures n == old(n) + 1 && |b| == old(|b|)
      ensures StreamBits(b)[..n] == old(StreamBits(b)[..n]) + [bit]
      ensures forall i :: n <= i < 8 * |b| ==> !StreamBits(b)[i]
    {
      hide *;
      if bit {
        SetStreamBit(b, n / 8, n % 8);
        b := b[n / 8 := WithBit(b[n / 8], n % 8)];
      }
      n := n + 1;
    }
  }

  lemma {:induction false} SetStreamBit(b: seq<Byte>, k: nat, r: nat)
    requires k < |b| && r < 8
    ensures StreamBits(b[k := WithBit(b[k], r)]) == StreamBits(b)[8 * k + r := true]
  {
    var last := |b| - 1;
    var c := b[k := WithBit(b[k], r)];
    SetBit(b[k], r);
    hide ByteBits, WithBit;
    if k == last {
      assert c[..last] == b[..last];
    } else {
      SetStreamBit(b[..last], k, r);
      assert c[..last] == b[..last][k := c[k]];
    }
  }

  lemma ZeroBits()
    ensures forall i :: 0 <= i < 8 ==> !ByteBits(ZERO)[i]
  {
  }
}
