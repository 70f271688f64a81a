/**
  The correction codewords: the tables of powers and logarithms, the generator
  polynomial and the long division.
  */
module ReedSolomon {
  import opened GaloisField
  import opened Polynomials

  /** What a reader checks: the whole block vanishes at the first |ec| powers. */
  ghost predicate IsCodeword(data: seq<Byte>, ec: seq<Byte>) {
    forall k: nat :: k < |ec| ==> Eval(data + ec, Alpha(k)) == ZERO
  }

  /** (x + 1)(x + alpha) ... (x + alpha^(n - 1)) */
  function RootProduct(n: nat, x: Byte): Byte {
    if n == 0 then ONE else Times(RootProduct(n - 1, x), Add(x, Alpha(n - 1)))
  }

  lemma {:induction false} RootProductVanishes(n: nat, k: nat)
    requires k < n
    ensures RootProduct(n, Alpha(k)) == ZERO
  {
    hide Add, Times, Alpha;
    var y := Alpha(k);
    if k == n - 1 {
      AddGroup(y, y, y);
      TimesZero(RootProduct(n - 1, y));
    } else {
      RootProductVanishes(n - 1, k);
      TimesZero(Add(y, Alpha(n - 1)));
    }
  }

  /** A block is completed to a codeword in one way only. */
  lemma CodewordIsUnique(data: seq<Byte>, ec: seq<Byte>, ec': seq<Byte>)
    requires |ec| == |ec'| <= 255
    requires IsCodeword(data, ec) && IsCodeword(data, ec')
    ensures ec == ec'
  {
    hide Add, Times;
    var d := Sum(ec, ec');
    forall k: nat | k < |ec| ensures Eval(d, Alpha(k)) == ZERO {
      var both := Sum(data + ec, data + ec');
      EvalSum(data + ec, data + ec', Alpha(k));
      AddGroup(ZERO, ZERO, ZERO);
      forall i | 0 <= i < |data| ensures both[i] == ZERO {
        AddGroup(data[i], data[i], data[i]);
      }
      assert both == Zeros(|data|) + d;
      EvalLeadingZeros(|data|, d, Alpha(k));
    }
    TooManyRoots(d);
    forall i | 0 <= i < |ec| ensures ec[i] == ec'[i] {
      assert d[i] == ZERO;
      AddEqual(ec[i], ec'[i]);
    }
  }

  /** Shifting a polynomial and adding a multiple of it multiplies by x + a. */
  lemma ShiftAndScale(g: seq<Byte>, a: Byte, x: Byte)
    ensures Eval(Sum(g + [ZERO], [ZERO] + Scale(g, a)), x) == Times(Eval(g, x), Add(x, a))
  {
    hide Add, Times;
    EvalSum(g + [ZERO], [ZERO] + Scale(g, a), x);
    EvalSnoc(g, ZERO, x);
    AddGroup(Times(Eval(g, x), x), ZERO, ZERO);
    assert [ZERO] + Scale(g, a) == Zeros(1) + Scale(g, a);
    EvalLeadingZeros(1, Scale(g, a), x);
    EvalScale(g, a, x);
    Distributes(Eval(g, x), x, a);
  }

  /** Subtracting a multiple of the divisor changes no value at the divisor's roots. */
  lemma DivisionStep(rest: seq<Byte>, g: seq<Byte>, lead: Byte, before: nat, after: nat, x: Byte)
    requires |rest| == before + |g| + after && Eval(g, x) == ZERO
    ensures Eval(Sum(rest, Zeros(before) + Scale(g, lead) + Zeros(after)), x) == Eval(rest, x)
  {
    hide Add, Times;
    var s := Scale(g, lead);
    EvalScale(g, lead, x);
    TimesZero(lead);
    RootStays(s, after, x);
    EvalLeadingZeros(before, s + Zeros(after), x);
    assert Zeros(before) + s + Zeros(after) == Zeros(before) + (s + Zeros(after));
    EvalSum(rest, Zeros(before) + s + Zeros(after), x);
    AddGroup(Eval(rest, x), ZERO, ZERO);
  }

  /** What is left of the dividend completes the data to a codeword. */
  lemma RemainderCompletes(data: seq<Byte>, rest: seq<Byte>, n: nat)
    requires |rest| == |data| + n && rest[..|data|] == Zeros(|data|)
    requires forall k: nat :: k < n ==> Eval(rest, Alpha(k)) == Eval(data + Zeros(n), Alpha(k))
    ensures IsCodeword(data, rest[|data|..])
  {
    hide Add, Times, Eval;
    var ec := rest[|data|..];
    forall k: nat | k < |ec| ensures Eval(data + ec, Alpha(k)) == ZERO {
      var x := Alpha(k);
      assert rest == Zeros(|data|) + ec;
      EvalSum(data + Zeros(n), rest, x);
      AddGroup(Eval(rest, x), ZERO, ZERO);
      SumOfHalves(data, ec);
    }
  }

  lemma ScaledAt(g: seq<Byte>, a: Byte)
    ensures forall k :: 0 <= k < |g| ==> ([ZERO] + Scale(g, a))[k + 1] == Times(g[k], a)
  {
    hide Times;
  }

  lemma ShiftedSum(g: seq<Byte>, scaled: seq<Byte>, next: seq<Byte>)
    requires |next| == |scaled| == |g| + 1 && next[|g|] == scaled[|g|]
    requires forall k :: 0 <= k < |g| ==> next[k] == Add(g[k], scaled[k])
    ensures next == Sum(g + [ZERO], scaled)
  {
    AddGroup(scaled[|g|], ZERO, ZERO);
    hide Add;
  }

  lemma SumOfHalves(data: seq<Byte>, ec: seq<Byte>)
    ensures Sum(data + Zeros(|ec|), Zeros(|data|) + ec) == data + ec
  {
    hide Add;
    var sum := Sum(data + Zeros(|ec|), Zeros(|data|) + ec);
    forall i | 0 <= i < |sum| ensures sum[i] == (data + ec)[i] {
      if i < |data| {
        AddGroup(data[i], ZERO, ZERO);
      } else {
        AddGroup(ec[i - |data|], ZERO, ZERO);
      }
    }
  }

  lemma SlotsDiffer(i: nat)
    requires i < 255
    ensures forall k: nat :: k < i ==> Num(Alpha(k)) != Num(Alpha(i))
  {
    hide Num, Alpha;
    forall k: nat | k < i ensures Num(Alpha(k)) != Num(Alpha(i)) {
      if Num(Alpha(k)) == Num(Alpha(i)) {
        NumInjective(Alpha(k), Alpha(i));
        AlphaInjective(k, i);
      }
    }
  }

  lemma LogsCover(log: seq<nat>)
    requires |log| == 256 && forall k: nat :: k < 255 ==> log[Num(Alpha(k))] == k
    ensures forall a: Byte :: a != ZERO ==> log[Num(a)] < 255 && Alpha(log[Num(a)]) == a
  {
    hide Num, Double;
    forall a: Byte | a != ZERO ensures log[Num(a)] < 255 && Alpha(log[Num(a)]) == a {
      AlphaCovers(a);
      var k: nat :| k < 255 && Alpha(k) == a;
    }
  }

  /** One more leading coefficient is cleared: the divisor's own is one. */
  lemma DivisionClears(rest: seq<Byte>, g: seq<Byte>, i: nat, after: nat)
    requires |rest| == i + |g| + after && g != [] && g[0] == ONE
    requires forall k :: 0 <= k < i ==> rest[k] == ZERO
    ensures forall k :: 0 <= k <= i ==>
      Sum(rest, Zeros(i) + Scale(g, rest[i]) + Zeros(after))[k] == ZERO
  {
    hide Add, Times;
    AddGroup(ZERO, ZERO, ZERO);
    TimesOne(rest[i]);
    AddGroup(rest[i], rest[i], rest[i]);
  }

  class Galois {
    /** The powers, doubled so that a sum of two logarithms needs no modulo. */
    const exp: array<Byte>
    const log: array<nat>

    ghost predicate Valid()
      reads exp, log
    {
      && exp.Length == 512 && log.Length == 256
      && (forall k :: 0 <= k < 512 ==> exp[k] == Alpha(k))
      && (forall a: Byte :: a != ZERO ==> log[Num(a)] < 255 && Alpha(log[Num(a)]) == a)
    }

    constructor ()
      ensures Valid() && fresh(exp) && fresh(log)
    {
      exp := new Byte[512](_ => ZERO);
      log := new nat[256](_ => 0);
      new;
      FillPowers(exp, log);
      LogsCover(log[..]);
      RepeatPowers(exp);
    }

    static method FillPowers(exp: array<Byte>, log: array<nat>)
      requires exp.Length == 512 && log.Length == 256
      modifies exp, log
      ensures forall k :: 0 <= k < 255 ==> exp[k] == Alpha(k) && log[Num(Alpha(k))] == k
    {
      var x: bv16 := 1;
      assert Alpha(0) == ONE && Low8(1) == ONE;
      hide *;
      for i := 0 to 255
        invariant x < 0x100 && Low8(x) == Alpha(i)
        invariant forall k :: 0 <= k < i ==> exp[k] == Alpha(k)
        invariant forall k :: 0 <= k < i ==> log[Num(Alpha(k))] == k
      {
        SlotsDiffer(i);
        StorePower(exp, log, i, Low8(x));
        ShiftDoubles(x);
        NextPower(i, Alpha(i));
        x := Shift(x);
      }
    }

    static method StorePower(exp: array<Byte>, log: array<nat>, i: nat, x: Byte)
      requires exp.Length == 512 && log.Length == 256 && i < 255
      modifies exp, log
      ensures forall k :: 0 <= k < 512 ==> exp[k] == if k == i then x else old(exp[k])
      ensures forall k :: 0 <= k < 256 ==> log[k] == if k == Num(x) then i else old(log[k])
    {
      exp[i] := x;
      log[Num(x)] := i;
    }

    static function Low8(x: bv16): Byte {
      Byte((x & 0xFF) as bv8)
    }

    static method RepeatPowers(exp: array<Byte>)
      requires exp.Length == 512 && forall k :: 0 <= k < 255 ==> exp[k] == Alpha(k)
      modifies exp
      ensures forall k :: 0 <= k < 512 ==> exp[k] == Alpha(k)
    {
      hide Double, Alpha;
      for i := 255 to 512
        invariant forall k :: 0 <= k < i ==> exp[k] == Alpha(k)
      {
        AlphaPeriod(i - 255);
        exp[i] := exp[i - 255];
      }
    }

    /** One step of the table's running value: shift left, and reduce on a carry. */
    static function Shift(x: bv16): bv16 {
      var left := x << 1;
      if left & 0x100 != 0 then left ^ 0x11D else left
    }

    static lemma ShiftDoubles(x: bv16)
      requires x < 0x100
      ensures Shift(x) < 0x100 && Low8(Shift(x)) == Double(Low8(x))
    {
    }

    method Mul(a: Byte, b: Byte) returns (r: Byte)
      requires Valid()
      ensures r == Times(a, b)
    {
      hide Num, Times, Alpha;
      if a == ZERO || b == ZERO {
        TimesZero(a);
        TimesZero(b);
        return ZERO;
      }
      AlphaSum(log[Num(a)], log[Num(b)]);
      r := exp[log[Num(a)] + log[Num(b)]];
    }

    /** The divisor: it vanishes at alpha^0 to alpha^(n-1). */
    method Generator(n: nat) returns (g: seq<Byte>)
      requires Valid() && n <= 512
      ensures |g| == n + 1 && g[0] == ONE
      ensures forall x: Byte :: Eval(g, x) == RootProduct(n, x)
    {
      g := [ONE];
      forall x: Byte ensures Eval(g, x) == ONE {
        EvalSnoc([], ONE, x);
        TimesZero(x);
        AddGroup(ONE, ZERO, ZERO);
        assert [] + [ONE] == g;
      }
      for i := 0 to n
        invariant |g| == i + 1 && g[0] == ONE
        invariant forall x: Byte :: Eval(g, x) == RootProduct(i, x)
      {
        ghost var old_g := g;
        g := TimesRoot(g, exp[i]);
        forall x: Byte ensures Eval(g, x) == RootProduct(i + 1, x) {
          ShiftAndScale(old_g, Alpha(i), x);
        }
        AddGroup(ONE, ZERO, ZERO);
      }
    }

    /** Multiplies a polynomial by x + a. */
    method TimesRoot(g: seq<Byte>, a: Byte) returns (product: seq<Byte>)
      requires Valid()
      ensures product == Sum(g + [ZERO], [ZERO] + Scale(g, a))
    {
      var next := new Byte[|g| + 1](_ => ZERO);
      AddShifted(next, g, a);
      ShiftedSum(g, [ZERO] + Scale(g, a), next[..]);
      product := next[..];
    }

    /** Adds each coefficient to its own place and, times a, to the place after it. */
    method AddShifted(next: array<Byte>, g: seq<Byte>, a: Byte)
      requires Valid() && next != exp && next.Length == |g| + 1
      requires forall k :: 0 <= k <= |g| ==> next[k] == ZERO
      modifies next
      ensures forall k :: 0 <= k < |g| ==> next[k] == Add(g[k], ([ZERO] + Scale(g, a))[k])
      ensures next[|g|] == ([ZERO] + Scale(g, a))[|g|]
    {
      ghost var scaled := [ZERO] + Scale(g, a);
      ScaledAt(g, a);
      hide *;
      for j := 0 to |g|
        invariant forall k :: 0 <= k < j ==> next[k] == Add(g[k], scaled[k])
        invariant next[j] == scaled[j]
        invariant forall k :: j < k <= |g| ==> next[k] == ZERO
      {
        var c := g[j];
        var m := Mul(c, a);
        AddGroup(scaled[j], c, ZERO);
        AddGroup(m, ZERO, ZERO);
        next[j] := Add(next[j], c);
        next[j + 1] := Add(next[j + 1], m);
      }
    }

    /** The n bytes that complete data to a codeword, by long division. */
    method Correction(data: seq<Byte>, n: nat) returns (ec: seq<Byte>)
      requires Valid() && n <= 512
      ensures |ec| == n && IsCodeword(data, ec)
    {
      var g := Generator(n);
      forall k: nat | k < n ensures Eval(g, Alpha(k)) == ZERO {
        RootProductVanishes(n, k);
      }
      hide Add, Times, Eval, Alpha;
      ghost var start := data + Zeros(n);
      var rest := new Byte[|data| + n](i => if 0 <= i < |data| then data[i] else ZERO);
      assert rest[..] == start;
      for i := 0 to |data|
        invariant fresh(rest) && rest.Length == |data| + n
        invariant forall k :: 0 <= k < i ==> rest[k] == ZERO
        invariant forall k: nat :: k < n ==> Eval(rest[..], Alpha(k)) == Eval(start, Alpha(k))
      {
        ClearLeading(rest, i, g);
      }
      RemainderCompletes(data, rest[..], n);
      ec := rest[|data|..];
    }

    /** One round of the division: position i becomes zero, the values at g's roots stay. */
    method ClearLeading(rest: array<Byte>, i: nat, g: seq<Byte>)
      requires Valid() && rest != exp && i + |g| <= rest.Length && g != [] && g[0] == ONE
      requires forall k :: 0 <= k < i ==> rest[k] == ZERO
      modifies rest
      ensures forall k :: 0 <= k <= i ==> rest[k] == ZERO
      ensures forall x: Byte :: Eval(g, x) == ZERO ==> Eval(rest[..], x) == Eval(old(rest[..]), x)
    {
      hide Add, Times, Eval;
      var lead := rest[i];
      if lead == ZERO {
        return;
      }
      ghost var was, after := rest[..], rest.Length - i - |g|;
      SubtractMultiple(rest, i, g, lead);
      DivisionClears(was, g, i, after);
      assert forall k :: 0 <= k <= i ==> rest[..][k] == ZERO;
      forall x: Byte | Eval(g, x) == ZERO ensures Eval(rest[..], x) == Eval(was, x) {
        DivisionStep(was, g, lead, i, after, x);
      }
    }

    /** Adds lead times g to the dividend, aligned at position i. */
    method SubtractMultiple(rest: array<Byte>, i: nat, g: seq<Byte>, lead: Byte)
      requires Valid() && i + |g| <= rest.Length && rest != exp
      modifies rest
      ensures rest[..] == Sum(old(rest[..]), Zeros(i) + Scale(g, lead) + Zeros(rest.Length - i - |g|))
    {
      hide Add, Times, Eval;
      for j := 0 to |g|
        invariant forall k :: 0 <= k < rest.Length ==>
          rest[k] == if i <= k < i + j then Add(old(rest[k]), Times(g[k - i], lead)) else old(rest[k])
      {
        var m := Mul(g[j], lead);
        rest[i + j] := Add(rest[i + j], m);
      }
      forall k | 0 <= k < rest.Length && !(i <= k < i + |g|) ensures Add(old(rest[k]), ZERO) == rest[k] {
        AddGroup(rest[k], ZERO, ZERO);
      }
    }
  }
}
