/**
  The field of 256 elements that QR symbols compute in: products are reduced by
  x^8 + x^4 + x^3 + x^2 + 1.

  The field product is defined here by shifting and adding, without tables.  The
  class `Galois` of module `ReedSolomon` fills the logarithm tables the encoder works
  with; its `Mul` is proved to be that product.
  */
module GaloisField {

  /** A byte: the coefficients of a polynomial over GF(2), x^7 in the top bit. */
  datatype Byte = Byte(v: bv8)

  const ZERO := Byte(0)
  const ONE := Byte(1)

  // -- the field, without tables ------------------------------------------------

  /** Addition, which is exclusive or. */
  function Add(a: Byte, b: Byte): Byte {
    Byte(a.v ^ b.v)
  }

  /** Multiplication by x: x^8 is x^4 + x^3 + x^2 + 1. */
  function Double(a: Byte): Byte {
    Byte((a.v << 1) ^ (if a.v & 0x80 != 0 then 0x1D else 0))
  }

  predicate SingleBit(m: bv8) {
    m == 0x01 || m == 0x02 || m == 0x04 || m == 0x08 || m == 0x10 || m == 0x20 || m == 0x40 || m == 0x80
  }

  /** The bit that stands for x^i. */
  function Mask(i: nat): (m: bv8)
    requires i < 8
    ensures SingleBit(m)
  {
    if i == 0 then 0x01 else if i == 1 then 0x02 else if i == 2 then 0x04 else if i == 3 then 0x08
    else if i == 4 then 0x10 else if i == 5 then 0x20 else if i == 6 then 0x40 else 0x80
  }

  /** The coefficient of x^i. */
  function Coefficient(b: Byte, i: nat): bool
    requires i < 8
  {
    b.v & Mask(i) != 0
  }

  function Bits(b: Byte): (s: seq<bool>)
    ensures |s| == 8
  {
    seq(8, i requires 0 <= i < 8 => Coefficient(b, i))
  }

  function Pick(bit: bool, a: Byte): Byte {
    if bit then a else ZERO
  }

  /** a, ax, ax^2, ... added up as the coefficients say. */
  function TimesBits(a: Byte, bits: seq<bool>): Byte
    decreases |bits|
  {
    if bits == [] then ZERO else Add(Pick(bits[0], a), TimesBits(Double(a), bits[1..]))
  }

  /** The product of two field elements. */
  function Times(a: Byte, b: Byte): Byte {
    TimesBits(a, Bits(b))
  }

  /** The n-th power of the primitive element. */
  function Alpha(n: nat): Byte {
    if n == 0 then ONE else Double(Alpha(n - 1))
  }

  /** The number a byte stands for. */
  function Num(b: Byte): (n: nat)
    ensures n < 256
  {
    (if b.v & 0x80 != 0 then 128 else 0) + (if b.v & 0x40 != 0 then 64 else 0)
    + (if b.v & 0x20 != 0 then 32 else 0) + (if b.v & 0x10 != 0 then 16 else 0)
    + (if b.v & 0x08 != 0 then 8 else 0) + (if b.v & 0x04 != 0 then 4 else 0)
    + (if b.v & 0x02 != 0 then 2 else 0) + (if b.v & 0x01 != 0 then 1 else 0)
  }

  lemma NumInjective(a: Byte, b: Byte)
    requires Num(a) == Num(b)
    ensures a == b
  {
    assert a.v & 0x80 != 0 <==> b.v & 0x80 != 0;
    assert a.v & 0x40 != 0 <==> b.v & 0x40 != 0;
    assert a.v & 0x20 != 0 <==> b.v & 0x20 != 0;
    assert a.v & 0x10 != 0 <==> b.v & 0x10 != 0;
    assert a.v & 0x08 != 0 <==> b.v & 0x08 != 0;
    assert a.v & 0x04 != 0 <==> b.v & 0x04 != 0;
    assert a.v & 0x02 != 0 <==> b.v & 0x02 != 0;
    assert a.v & 0x01 != 0 <==> b.v & 0x01 != 0;
  }

  // -- linearity ------------------------------------------------------------------

  lemma AddAssociates(a: Byte, b: Byte, c: Byte)
    ensures Add(Add(a, b), c) == Add(a, Add(b, c))
  {
  }

  lemma AddCancels(a: Byte, b: Byte)
    ensures Add(a, b) == Add(b, a) && Add(a, ZERO) == a && Add(a, a) == ZERO
  {
  }

  /** Addition is a commutative group in which every element is its own inverse. */
  lemma AddGroup(a: Byte, b: Byte, c: Byte)
    ensures Add(a, b) == Add(b, a)
    ensures Add(Add(a, b), c) == Add(a, Add(b, c))
    ensures Add(a, ZERO) == a && Add(ZERO, a) == a && Add(a, a) == ZERO
  {
    hide Add;
    AddAssociates(a, b, c);
    AddCancels(a, b);
    AddCancels(a, ZERO);
    AddCancels(ZERO, a);
  }

  lemma AddSwap(a: Byte, b: Byte, c: Byte, d: Byte)
    ensures Add(Add(a, b), Add(c, d)) == Add(Add(a, c), Add(b, d))
  {
  }

  lemma AddEqual(a: Byte, b: Byte)
    requires Add(a, b) == ZERO
    ensures a == b
  {
    AddGroup(a, b, b);
    AddGroup(b, b, b);
    hide Add;
  }

  lemma DoubleAdd(a: Byte, b: Byte)
    ensures Double(Add(a, b)) == Add(Double(a), Double(b))
    ensures Double(ZERO) == ZERO
  {
  }

  lemma PickAdd(x: bool, y: bool, z: bool, a: Byte)
    requires z <==> x != y
    ensures Pick(z, a) == Add(Pick(x, a), Pick(y, a))
  {
    AddGroup(a, ZERO, ZERO);
  }

  lemma {:induction false} TimesAddRight(a: Byte, x: seq<bool>, y: seq<bool>, z: seq<bool>)
    requires |x| == |y| == |z| && forall i :: 0 <= i < |x| ==> (z[i] <==> x[i] != y[i])
    ensures TimesBits(a, z) == Add(TimesBits(a, x), TimesBits(a, y))
    decreases |x|
  {
    AddGroup(ZERO, ZERO, ZERO);
    hide Add, Double, Pick;
    if x != [] {
      TimesAddRight(Double(a), x[1..], y[1..], z[1..]);
      PickAdd(x[0], y[0], z[0], a);
      AddSwap(Pick(x[0], a), Pick(y[0], a), TimesBits(Double(a), x[1..]), TimesBits(Double(a), y[1..]));
    }
  }

  lemma {:induction false} TimesAddLeft(a: Byte, b: Byte, x: seq<bool>)
    ensures TimesBits(Add(a, b), x) == Add(TimesBits(a, x), TimesBits(b, x))
    decreases |x|
  {
    AddGroup(ZERO, ZERO, ZERO);
    hide Add, Double;
    if x != [] {
      TimesAddLeft(Double(a), Double(b), x[1..]);
      DoubleAdd(a, b);
      assert Pick(x[0], Add(a, b)) == Add(Pick(x[0], a), Pick(x[0], b));
      AddSwap(Pick(x[0], a), Pick(x[0], b), TimesBits(Double(a), x[1..]), TimesBits(Double(b), x[1..]));
    }
  }

  lemma XorBit(x: bv8, y: bv8, m: bv8)
    requires SingleBit(m)
    ensures (x ^ y) & m != 0 <==> ((x & m != 0) != (y & m != 0))
  {
    assert (x ^ y) & m == (x & m) ^ (y & m);
    assert x & m == 0 || x & m == m;
    assert y & m == 0 || y & m == m;
  }

  lemma AddBit(b: Byte, c: Byte, m: bv8)
    requires SingleBit(m)
    ensures Add(b, c).v & m != 0 <==> ((b.v & m != 0) != (c.v & m != 0))
  {
    XorBit(b.v, c.v, m);
    hide SingleBit;
  }

  lemma CoefficientAdd(b: Byte, c: Byte, i: nat)
    requires i < 8
    ensures Coefficient(Add(b, c), i) <==> Coefficient(b, i) != Coefficient(c, i)
  {
    hide Mask;
    AddBit(b, c, Mask(i));
    hide Add, SingleBit;
  }

  lemma BitsAdd(b: Byte, c: Byte)
    ensures forall i :: 0 <= i < 8 ==> (Bits(Add(b, c))[i] <==> Bits(b)[i] != Bits(c)[i])
  {
    hide Add, Coefficient;
    forall i | 0 <= i < 8 ensures Bits(Add(b, c))[i] <==> Bits(b)[i] != Bits(c)[i] {
      CoefficientAdd(b, c, i);
    }
  }

  /** The product distributes over addition. */
  lemma Distributes(a: Byte, b: Byte, c: Byte)
    ensures Times(a, Add(b, c)) == Add(Times(a, b), Times(a, c))
    ensures Times(Add(a, b), c) == Add(Times(a, c), Times(b, c))
  {
    BitsAdd(b, c);
    hide Add;
    TimesAddRight(a, Bits(b), Bits(c), Bits(Add(b, c)));
    TimesAddLeft(a, b, Bits(c));
  }

  lemma {:induction false} DoubleLeft(a: Byte, x: seq<bool>)
    ensures TimesBits(Double(a), x) == Double(TimesBits(a, x))
    decreases |x|
  {
    if x != [] {
      DoubleLeft(Double(a), x[1..]);
      DoubleAdd(Pick(x[0], a), TimesBits(Double(a), x[1..]));
      assert Pick(x[0], Double(a)) == Double(Pick(x[0], a));
    }
  }

  lemma TimesZero(a: Byte)
    ensures Times(ZERO, a) == ZERO && Times(a, ZERO) == ZERO
  {
    Distributes(ZERO, ZERO, a);
    Distributes(a, ZERO, ZERO);
    AddGroup(Times(ZERO, a), ZERO, ZERO);
    AddGroup(Times(a, ZERO), ZERO, ZERO);
    assert Add(ZERO, ZERO) == ZERO;
  }

  /** The powers below x^n that the bits select, added up. */
  function Low(s: seq<bool>, n: nat): Byte
    requires n <= |s|
  {
    if n == 0 then ZERO else Add(Low(s, n - 1), Pick(s[n - 1], Alpha(n - 1)))
  }

  lemma {:induction false} OneTimesFrom(s: seq<bool>, n: nat)
    requires n <= |s|
    ensures TimesBits(ONE, s) == Add(Low(s, n), TimesBits(Alpha(n), s[n..]))
  {
    if n == 0 {
      assert s[0..] == s;
      AddGroup(TimesBits(ONE, s), ZERO, ZERO);
    } else {
      OneTimesFrom(s, n - 1);
      hide Add, Double, Pick;
      assert s[n - 1..][1..] == s[n..];
      AddGroup(Low(s, n - 1), Pick(s[n - 1], Alpha(n - 1)), TimesBits(Alpha(n), s[n..]));
    }
  }

  lemma NextBit(x: bv8, m: bv8)
    requires SingleBit(m)
    ensures (x & (m - 1)) ^ (if x & m != 0 then m else 0) == x & ((m - 1) ^ m)
  {
    assert x & m == 0 || x & m == m;
    assert (m - 1) & m == 0;
    assert (x & (m - 1)) ^ (x & m) == x & ((m - 1) ^ m);
  }

  /** All bits below x^n. */
  function Below(n: nat): bv8
    requires n <= 8
  {
    if n == 8 then 0xFF else Mask(n) - 1
  }

  lemma MaskStep(n: nat)
    requires n < 8
    ensures Below(n) ^ Mask(n) == Below(n + 1)
    ensures n < 7 ==> Double(Byte(Mask(n))) == Byte(Mask(n + 1))
  {
  }

  lemma MaskIs(n: nat)
    requires n < 8
    ensures SingleBit(Mask(n)) && Below(n) == Mask(n) - 1
  {
  }

  lemma PickedBit(x: bv8, low: bv8, m: bv8, next: bv8)
    requires SingleBit(m) && low == m - 1 && low ^ m == next
    ensures Add(Byte(x & low), Pick(x & m != 0, Byte(m))) == Byte(x & next)
  {
    hide SingleBit;
    NextBit(x, m);
  }

  lemma AddMaskedBit(b: Byte, n: nat)
    requires n < 8
    ensures Add(Byte(b.v & Below(n)), Pick(Coefficient(b, n), Byte(Mask(n)))) == Byte(b.v & Below(n + 1))
  {
    hide Mask, Below, SingleBit, Add, Pick;
    MaskIs(n);
    MaskStep(n);
    PickedBit(b.v, Below(n), Mask(n), Below(n + 1));
  }

  lemma {:induction false} LowBits(b: Byte, n: nat)
    requires n <= 8
    ensures Low(Bits(b), n) == Byte(b.v & Below(n))
    ensures n < 8 ==> Alpha(n) == Byte(Mask(n))
  {
    if n > 0 {
      LowBits(b, n - 1);
      MaskStep(n - 1);
      AddMaskedBit(b, n - 1);
      hide Mask, Double, SingleBit, Pick, Coefficient, Below, Add;
    }
  }

  lemma OneTimes(b: Byte)
    ensures Times(ONE, b) == b
  {
    OneTimesFrom(Bits(b), 8);
    LowBits(b, 8);
    AddGroup(b, ZERO, ZERO);
    hide Add, Alpha;
  }

  lemma TimesOne(a: Byte)
    ensures Times(ONE, a) == a && Times(a, ONE) == a
  {
    OneTimes(a);
    var rest := Bits(ONE)[1..];
    assert Bits(ONE)[0];
    forall i | 0 <= i < 7 ensures !rest[i] {}
    hide Bits, Add, Double;
    TimesAddRight(Double(a), rest, rest, rest);
    AddGroup(TimesBits(Double(a), rest), ZERO, ZERO);
    AddGroup(a, ZERO, ZERO);
  }

  // -- the laws of a commutative ring ----------------------------------------------
  //
  // Every element is a sum of powers of x (`OneTimes` read backwards), so a law that
  // holds for some element, and is kept by doubling and by adding, holds for all.

  lemma {:induction false} DoubleRightFrom(e: Byte, x: seq<bool>, a: Byte)
    requires Times(e, Double(a)) == Double(Times(e, a))
    ensures Times(TimesBits(e, x), Double(a)) == Double(Times(TimesBits(e, x), a))
    decreases |x|
  {
    TimesZero(a);
    TimesZero(Double(a));
    DoubleAdd(ZERO, ZERO);
    if x != [] {
      DoubleLeft(e, Bits(a));
      DoubleLeft(e, Bits(Double(a)));
      DoubleRightFrom(Double(e), x[1..], a);
      var first := Pick(x[0], e);
      var rest := TimesBits(Double(e), x[1..]);
      Distributes(first, rest, a);
      Distributes(first, rest, Double(a));
      DoubleAdd(Times(first, a), Times(rest, a));
    }
  }

  lemma TimesDouble(a: Byte, b: Byte)
    ensures Times(Double(a), b) == Double(Times(a, b))
    ensures Times(a, Double(b)) == Double(Times(a, b))
  {
    DoubleLeft(a, Bits(b));
    OneTimes(a);
    OneTimes(b);
    OneTimes(Double(b));
    DoubleRightFrom(ONE, Bits(a), b);
  }

  lemma {:induction false} CommutesFrom(e: Byte, x: seq<bool>, a: Byte)
    requires Times(e, a) == Times(a, e)
    ensures Times(TimesBits(e, x), a) == Times(a, TimesBits(e, x))
    decreases |x|
  {
    TimesZero(a);
    if x != [] {
      TimesDouble(e, a);
      TimesDouble(a, e);
      CommutesFrom(Double(e), x[1..], a);
      var first := Pick(x[0], e);
      var rest := TimesBits(Double(e), x[1..]);
      Distributes(first, rest, a);
      Distributes(a, first, rest);
    }
  }

  lemma Commutes(a: Byte, b: Byte)
    ensures Times(a, b) == Times(b, a)
  {
    TimesOne(a);
    TimesOne(b);
    CommutesFrom(ONE, Bits(a), b);
  }

  lemma {:induction false} AssociatesFrom(e: Byte, x: seq<bool>, a: Byte, b: Byte)
    requires Times(Times(a, b), e) == Times(a, Times(b, e))
    ensures Times(Times(a, b), TimesBits(e, x)) == Times(a, Times(b, TimesBits(e, x)))
    decreases |x|
  {
    TimesZero(a);
    TimesZero(b);
    TimesZero(Times(a, b));
    if x != [] {
      TimesDouble(Times(a, b), e);
      TimesDouble(b, e);
      TimesDouble(a, Times(b, e));
      AssociatesFrom(Double(e), x[1..], a, b);
      var first := Pick(x[0], e);
      var rest := TimesBits(Double(e), x[1..]);
      Distributes(Times(a, b), first, rest);
      Distributes(b, first, rest);
      Distributes(a, Times(b, first), Times(b, rest));
    }
  }

  lemma Associates(a: Byte, b: Byte, c: Byte)
    ensures Times(Times(a, b), c) == Times(a, Times(b, c))
  {
    TimesOne(Times(a, b));
    TimesOne(b);
    OneTimes(c);
    AssociatesFrom(ONE, Bits(c), a, b);
  }

  // -- the powers of the primitive element ------------------------------------------

  lemma {:induction false} AlphaSum(i: nat, j: nat)
    ensures Alpha(i + j) == Times(Alpha(i), Alpha(j))
  {
    hide Add, Double, Times;
    if i == 0 {
      TimesOne(Alpha(j));
    } else {
      AlphaSum(i - 1, j);
      TimesDouble(Alpha(i - 1), Alpha(j));
      assert Alpha(i + j) == Double(Alpha(i - 1 + j));
    }
  }

  lemma {:induction false} AlphaNonZero(n: nat)
    ensures Alpha(n) != ZERO
  {
    if n > 0 {
      AlphaNonZero(n - 1);
    }
  }

  // The order of the primitive element.  Its powers are followed from an exponent n
  // with Alpha(n) == 1, by doubling and by the sums x^25 = x + 1, x^50 = x^2 + 1 and
  // x^100 = x^4 + 1, as far as is needed to tell 255 from its divisors.

  lemma NextPower(n: nat, a: Byte)
    requires Alpha(n) == a
    ensures Alpha(n + 1) == Double(a)
  {
  }

  lemma PowerAfter(n: nat, m: nat, k: nat)
    ensures Alpha(n + (m + k)) == Times(Alpha(m), Alpha(n + k))
  {
    hide Double, Times;
    AlphaSum(m, n + k);
    assert m + (n + k) == n + (m + k);
  }

  /** If x^k = x^i + x^j, then x^(m + k) = x^(m + i) + x^(m + j). */
  lemma SumOfPowers(n: nat, k: nat, i: nat, j: nat, m: nat)
    requires Alpha(n + k) == Add(Alpha(n + i), Alpha(n + j))
    ensures Alpha(n + (m + k)) == Add(Alpha(n + (m + i)), Alpha(n + (m + j)))
  {
    PowerAfter(n, m, k);
    PowerAfter(n, m, i);
    PowerAfter(n, m, j);
    Distributes(Alpha(m), Alpha(n + i), Alpha(n + j));
  }

  lemma PowersTo8(n: nat)
    requires Alpha(n) == ONE
    ensures Alpha(n + 1) == Byte(0x02) && Alpha(n + 2) == Byte(0x04) && Alpha(n + 4) == Byte(0x10) && Alpha(n + 8) == Byte(0x1D)
  {
    NextPower(n + 0, Byte(0x01));
    NextPower(n + 1, Byte(0x02));
    NextPower(n + 2, Byte(0x04));
    NextPower(n + 3, Byte(0x08));
    NextPower(n + 4, Byte(0x10));
    NextPower(n + 5, Byte(0x20));
    NextPower(n + 6, Byte(0x40));
    NextPower(n + 7, Byte(0x80));
  }

  lemma PowersTo17(n: nat)
    requires Alpha(n) == ONE && Alpha(n + 8) == Byte(0x1D)
    ensures Alpha(n + 17) == Byte(0x98)
  {
    NextPower(n + 8, Byte(0x1D));
    NextPower(n + 9, Byte(0x3A));
    NextPower(n + 10, Byte(0x74));
    NextPower(n + 11, Byte(0xE8));
    NextPower(n + 12, Byte(0xCD));
    NextPower(n + 13, Byte(0x87));
    NextPower(n + 14, Byte(0x13));
    NextPower(n + 15, Byte(0x26));
    NextPower(n + 16, Byte(0x4C));
  }

  lemma PowersTo26(n: nat)
    requires Alpha(n) == ONE && Alpha(n + 17) == Byte(0x98)
    ensures Alpha(n + 25) == Byte(0x03) && Alpha(n + 26) == Byte(0x06)
  {
    NextPower(n + 17, Byte(0x98));
    NextPower(n + 18, Byte(0x2D));
    NextPower(n + 19, Byte(0x5A));
    NextPower(n + 20, Byte(0xB4));
    NextPower(n + 21, Byte(0x75));
    NextPower(n + 22, Byte(0xEA));
    NextPower(n + 23, Byte(0xC9));
    NextPower(n + 24, Byte(0x8F));
    NextPower(n + 25, Byte(0x03));
  }

  lemma PowersTo51(n: nat)
    requires Alpha(n) == ONE && Alpha(n + 1) == Byte(0x02) && Alpha(n + 25) == Byte(0x03) && Alpha(n + 26) == Byte(0x06)
    ensures Alpha(n + 50) == Byte(0x05) && Alpha(n + 51) == Byte(0x0A)
  {
    SumOfPowers(n, 25, 1, 0, 25);
    NextPower(n + 50, Byte(0x05));
  }

  lemma PowersTo76(n: nat)
    requires Alpha(n) == ONE && Alpha(n + 1) == Byte(0x02) && Alpha(n + 25) == Byte(0x03) && Alpha(n + 50) == Byte(0x05) && Alpha(n + 51) == Byte(0x0A)
    ensures Alpha(n + 75) == Byte(0x0F) && Alpha(n + 76) == Byte(0x1E)
  {
    SumOfPowers(n, 25, 1, 0, 50);
    NextPower(n + 75, Byte(0x0F));
  }

  lemma PowersTo85(n: nat)
    requires Alpha(n) == ONE && Alpha(n + 76) == Byte(0x1E)
    ensures Alpha(n + 85) == Byte(0xD6)
  {
    NextPower(n + 76, Byte(0x1E));
    NextPower(n + 77, Byte(0x3C));
    NextPower(n + 78, Byte(0x78));
    NextPower(n + 79, Byte(0xF0));
    NextPower(n + 80, Byte(0xFD));
    NextPower(n + 81, Byte(0xE7));
    NextPower(n + 82, Byte(0xD3));
    NextPower(n + 83, Byte(0xBB));
    NextPower(n + 84, Byte(0x6B));
  }

  lemma PowersTo104(n: nat)
    requires Alpha(n) == ONE && Alpha(n + 1) == Byte(0x02) && Alpha(n + 25) == Byte(0x03) && Alpha(n + 75) == Byte(0x0F) && Alpha(n + 76) == Byte(0x1E)
    ensures Alpha(n + 100) == Byte(0x11) && Alpha(n + 104) == Byte(0x0D)
  {
    SumOfPowers(n, 25, 1, 0, 75);
    NextPower(n + 100, Byte(0x11));
    NextPower(n + 101, Byte(0x22));
    NextPower(n + 102, Byte(0x44));
    NextPower(n + 103, Byte(0x88));
  }

  lemma PowersTo202(n: nat)
    requires Alpha(n) == ONE && Alpha(n + 4) == Byte(0x10) && Alpha(n + 100) == Byte(0x11) && Alpha(n + 104) == Byte(0x0D)
    ensures Alpha(n + 200) == Byte(0x1C) && Alpha(n + 202) == Byte(0x70)
  {
    SumOfPowers(n, 100, 4, 0, 100);
    NextPower(n + 200, Byte(0x1C));
    NextPower(n + 201, Byte(0x38));
  }

  lemma PowersTo255(n: nat)
    requires Alpha(n) == ONE && Alpha(n + 2) == Byte(0x04) && Alpha(n + 50) == Byte(0x05) && Alpha(n + 200) == Byte(0x1C) && Alpha(n + 202) == Byte(0x70)
    ensures Alpha(n + 250) == Byte(0x6C) && Alpha(n + 255) == Byte(0x01)
  {
    SumOfPowers(n, 50, 2, 0, 200);
    NextPower(n + 250, Byte(0x6C));
    NextPower(n + 251, Byte(0xD8));
    NextPower(n + 252, Byte(0xAD));
    NextPower(n + 253, Byte(0x47));
    NextPower(n + 254, Byte(0x8E));
  }

  lemma Landmarks(n: nat)
    requires Alpha(n) == ONE
    ensures Alpha(n + 15) != ONE && Alpha(n + 51) != ONE && Alpha(n + 85) != ONE
    ensures Alpha(n + 255) == ONE
  {
    PowersTo8(n);
    PowersTo17(n);
    PowersTo26(n);
    PowersTo51(n);
    PowersTo76(n);
    PowersTo85(n);
    PowersTo104(n);
    PowersTo202(n);
    PowersTo255(n);
    NextPower(n + 14, Alpha(n + 14));
    NextPower(n + 15, Alpha(n + 15));
    NextPower(n + 16, Alpha(n + 16));
  }

  /** Powers repeat after 255 steps. */
  lemma {:induction false} AlphaPeriod(n: nat)
    ensures Alpha(n + 255) == Alpha(n)
  {
    if n == 0 {
      Landmarks(n);
    } else {
      AlphaPeriod(n - 1);
    }
  }

  lemma AlphaAgain(n: nat, p: nat)
    requires Alpha(n) == ONE && Alpha(n + p) == ONE
    ensures Alpha(n + p + p) == ONE
  {
    AlphaSum(n, p);
    TimesOne(Alpha(p));
    AlphaSum(n + p, p);
  }

  lemma {:induction false} AlphaMultiple(n: nat, p: nat, q: nat)
    requires Alpha(n) == ONE && Alpha(n + p) == ONE
    ensures Alpha(n + p * q) == ONE
    decreases q
  {
    if q > 0 {
      AlphaAgain(n, p);
      AlphaMultiple(n + p, p, q - 1);
      assert n + p * q == n + p + p * (q - 1);
    }
  }

  /** The least exponent whose power is one divides 255. */
  lemma LeastPeriod(n: nat, p: nat)
    requires 0 < p < 255 && Alpha(n) == ONE && Alpha(n + p) == ONE
    requires forall j :: 0 < j < p ==> Alpha(j) != ONE
    ensures 255 % p == 0
  {
    var q, r := 255 / p, 255 % p;
    var m := n + p * q;
    assert n + 255 == m + r;
    AlphaMultiple(n, p, q);
    Landmarks(n);
    Remainder(m, r);
  }

  lemma Remainder(m: nat, r: nat)
    requires Alpha(m) == ONE && Alpha(m + r) == ONE
    ensures Alpha(r) == ONE
  {
    AlphaSum(m, r);
    TimesOne(Alpha(r));
  }

  lemma Divisors(p: nat, q: nat)
    requires p * q == 255 && p < 255
    ensures p in {1, 3, 5, 15, 17, 51, 85}
  {
    assert p > 15 && q > 15 ==> p * q >= 16 * q;
    if p <= 15 {
      assert p != 0;
      assert p in {1, 2, 3, 4, 5, 6, 7, 8, 9, 10, 11, 12, 13, 14, 15};
    } else {
      assert q != 0;
      assert q in {1, 2, 3, 4, 5, 6, 7, 8, 9, 10, 11, 12, 13, 14, 15};
    }
  }

  lemma ProperDivisor(p: nat)
    requires 0 < p < 255 && 255 % p == 0
    ensures 15 % p == 0 || 51 % p == 0 || 85 % p == 0
  {
    assert p * (255 / p) == 255;
    Divisors(p, 255 / p);
  }

  lemma PeriodMultiple(n: nat, p: nat, c: nat)
    requires 0 < p && c % p == 0 && Alpha(n) == ONE && Alpha(n + p) == ONE
    ensures Alpha(n + c) == ONE
  {
    AlphaMultiple(n, p, c / p);
  }

  lemma NoProperPeriod(n: nat, p: nat)
    requires 0 < p && Alpha(n) == ONE && (15 % p == 0 || 51 % p == 0 || 85 % p == 0)
    ensures Alpha(n + p) != ONE
  {
    Landmarks(n);
    if Alpha(n + p) == ONE {
      var c := if 15 % p == 0 then 15 else if 51 % p == 0 then 51 else 85;
      PeriodMultiple(n, p, c);
    }
  }

  lemma {:induction false} AlphaNotOne(d: nat)
    requires d < 255
    ensures forall j :: 0 < j <= d ==> Alpha(j) != ONE
  {
    if d > 0 {
      AlphaNotOne(d - 1);
      if Alpha(d) == ONE {
        LeastPeriod(0, d);
        ProperDivisor(d);
        NoProperPeriod(0, d);
      }
    }
  }

  lemma DoubleCancels(a: Byte, b: Byte)
    requires Double(a) == Double(b)
    ensures a == b
  {
  }

  lemma {:induction false} AlphaShift(i: nat, j: nat)
    requires i <= j && Alpha(i) == Alpha(j)
    ensures Alpha(j - i) == ONE
  {
    if i > 0 {
      DoubleCancels(Alpha(i - 1), Alpha(j - 1));
      AlphaShift(i - 1, j - 1);
    }
  }

  /** The first 255 powers are distinct. */
  lemma AlphaInjective(i: nat, j: nat)
    requires i < 255 && j < 255 && Alpha(i) == Alpha(j)
    ensures i == j
  {
    var d := if i < j then j - i else i - j;
    AlphaNotOne(d);
    if i < j {
      AlphaShift(i, j);
    } else {
      AlphaShift(j, i);
    }
  }

  function Range(n: nat): (s: set<nat>)
    ensures |s| == n && forall k: nat :: k in s <==> k < n
  {
    if n == 0 then {} else Range(n - 1) + {n - 1}
  }

  ghost function FirstPowers(n: nat): set<nat> {
    set k | 0 <= k < n :: Num(Alpha(k))
  }

  lemma {:induction false} CountPowers(n: nat)
    requires n <= 255
    ensures |FirstPowers(n)| == n
  {
    if n > 0 {
      CountPowers(n - 1);
      var last := Num(Alpha(n - 1));
      assert FirstPowers(n) == FirstPowers(n - 1) + {last};
      if last in FirstPowers(n - 1) {
        var k :| 0 <= k < n - 1 && Num(Alpha(k)) == last;
        NumInjective(Alpha(k), Alpha(n - 1));
        AlphaInjective(k, n - 1);
      }
    }
  }

  lemma {:induction false} SubsetSize(a: set<nat>, b: set<nat>)
    requires a <= b
    ensures |a| <= |b|
  {
    if a != {} {
      var x :| x in a;
      SubsetSize(a - {x}, b - {x});
    }
  }

  lemma NumZero(a: Byte)
    ensures Num(a) == 0 <==> a == ZERO
  {
    if Num(a) == 0 {
      NumInjective(a, ZERO);
    }
  }

  lemma FirstPowersNonZero()
    ensures FirstPowers(255) <= Range(256) - {0}
  {
    hide Num, Alpha, Range;
    forall n | n in FirstPowers(255) ensures n in Range(256) - {0} {
      var k :| 0 <= k < 255 && Num(Alpha(k)) == n;
      AlphaNonZero(k);
      NumZero(Alpha(k));
    }
  }

  /** The element is primitive: every non-zero byte is one of its first 255 powers. */
  lemma AlphaCovers(a: Byte)
    requires a != ZERO
    ensures exists k: nat :: k < 255 && Alpha(k) == a
  {
    hide Num, Alpha, Range;
    CountPowers(255);
    FirstPowersNonZero();
    NumZero(a);
    if Num(a) !in FirstPowers(255) {
      SubsetSize(FirstPowers(255), Range(256) - {0, Num(a)});
    }
    var k :| 0 <= k < 255 && Num(Alpha(k)) == Num(a);
    NumInjective(Alpha(k), a);
  }

  /** A product is zero only if a factor is. */
  lemma NoZeroDivisors(a: Byte, b: Byte)
    requires Times(a, b) == ZERO
    ensures a == ZERO || b == ZERO
  {
    hide Double, Times;
    if a != ZERO && b != ZERO {
      AlphaCovers(a);
      AlphaCovers(b);
      var i: nat :| i < 255 && Alpha(i) == a;
      var j: nat :| j < 255 && Alpha(j) == b;
      AlphaSum(i, j);
      AlphaNonZero(i + j);
    }
  }
}
