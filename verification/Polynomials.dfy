/**
  Polynomials over GF(256), as lists of coefficients with the highest first, and
  the one fact the error correction rests on: a polynomial with fewer coefficients
  than it has roots is zero.
  */
module Polynomials {
  import opened GaloisField

  /** Evaluation by Horner's rule. */
  function Eval(p: seq<Byte>, x: Byte): Byte {
    if p == [] then ZERO
    else Add(Times(Eval(p[..|p| - 1], x), x), p[|p| - 1])
  }

  function Zeros(n: nat): (z: seq<Byte>)
    ensures |z| == n
  {
    seq(n, _ => ZERO)
  }

  function Sum(p: seq<Byte>, q: seq<Byte>): (s: seq<Byte>)
    requires |p| == |q|
    ensures |s| == |p|
  {
    seq(|p|, i requires 0 <= i < |p| => Add(p[i], q[i]))
  }

  function Scale(p: seq<Byte>, c: Byte): (s: seq<Byte>)
    ensures |s| == |p|
  {
    seq(|p|, i requires 0 <= i < |p| => Times(p[i], c))
  }

  lemma EvalSnoc(p: seq<Byte>, c: Byte, x: Byte)
    ensures Eval(p + [c], x) == Add(Times(Eval(p, x), x), c)
  {
    assert (p + [c])[..|p|] == p;
  }

  lemma {:induction false} EvalSum(p: seq<Byte>, q: seq<Byte>, x: Byte)
    requires |p| == |q|
    ensures Eval(Sum(p, q), x) == Add(Eval(p, x), Eval(q, x))
  {
    AddGroup(ZERO, ZERO, ZERO);
    hide Add, Times;
    if p != [] {
      var n := |p| - 1;
      EvalSum(p[..n], q[..n], x);
      assert Sum(p, q)[..n] == Sum(p[..n], q[..n]);
      Distributes(Eval(p[..n], x), Eval(q[..n], x), x);
      AddSwap(Times(Eval(p[..n], x), x), Times(Eval(q[..n], x), x), p[n], q[n]);
    }
  }

  lemma {:induction false} EvalScale(p: seq<Byte>, c: Byte, x: Byte)
    ensures Eval(Scale(p, c), x) == Times(Eval(p, x), c)
  {
    TimesZero(c);
    hide Add, Times;
    if p != [] {
      var n := |p| - 1;
      var e := Eval(p[..n], x);
      EvalScale(p[..n], c, x);
      assert Scale(p, c)[..n] == Scale(p[..n], c);
      Distributes(Times(e, x), p[n], c);
      Associates(e, c, x);
      Associates(e, x, c);
      Commutes(c, x);
    }
  }

  lemma {:induction false} EvalZeros(n: nat, x: Byte)
    ensures Eval(Zeros(n), x) == ZERO
  {
    if n > 0 {
      EvalZeros(n - 1, x);
      assert Zeros(n)[..n - 1] == Zeros(n - 1);
      TimesZero(x);
      AddGroup(ZERO, ZERO, ZERO);
    }
  }

  lemma {:induction false} EvalLeadingZeros(n: nat, p: seq<Byte>, x: Byte)
    ensures Eval(Zeros(n) + p, x) == Eval(p, x)
  {
    hide Add, Times;
    if p == [] {
      EvalZeros(n, x);
      assert Zeros(n) + p == Zeros(n);
    } else {
      var k := |p| - 1;
      EvalLeadingZeros(n, p[..k], x);
      assert (Zeros(n) + p)[..n + k] == Zeros(n) + p[..k];
    }
  }

  lemma {:induction false} RootStays(p: seq<Byte>, n: nat, x: Byte)
    requires Eval(p, x) == ZERO
    ensures Eval(p + Zeros(n), x) == ZERO
  {
    hide Add, Times;
    if n == 0 {
      assert p + Zeros(0) == p;
    } else {
      RootStays(p, n - 1, x);
      assert p + Zeros(n) == (p + Zeros(n - 1)) + [ZERO];
      EvalSnoc(p + Zeros(n - 1), ZERO, x);
      TimesZero(x);
      AddGroup(ZERO, ZERO, ZERO);
    }
  }

  // -- dividing by x + a --------------------------------------------------------------

  function Quotient(p: seq<Byte>, a: Byte): (q: seq<Byte>)
    requires p != []
    ensures |q| == |p| - 1
  {
    seq(|p| - 1, i requires 0 <= i < |p| - 1 => Eval(p[..i + 1], a))
  }

  lemma {:induction false} DivideByRoot(p: seq<Byte>, a: Byte, y: Byte)
    requires p != []
    ensures Eval(p, y) == Add(Times(Eval(Quotient(p, a), y), Add(y, a)), Eval(p, a))
  {
    hide Add, Times;
    var n := |p| - 1;
    if n == 0 {
      assert p[..0] == [];
      TimesZero(y);
      TimesZero(a);
      TimesZero(Add(y, a));
      AddGroup(p[0], ZERO, ZERO);
    } else {
      var p', c := p[..n], p[n];
      DivideByRoot(p', a, y);
      var q', e := Eval(Quotient(p', a), y), Eval(p', a);
      forall i | 0 <= i < n ensures Quotient(p, a)[i] == (Quotient(p', a) + [e])[i] {
        assert p[..i + 1] == p'[..i + 1];
      }
      assert Quotient(p, a) == Quotient(p', a) + [e];
      EvalSnoc(Quotient(p', a), e, y);
      DivideStep(q', e, c, a, y);
    }
  }

  lemma DivideStep(q: Byte, e: Byte, c: Byte, a: Byte, y: Byte)
    ensures Add(Times(Add(Times(q, Add(y, a)), e), y), c)
         == Add(Times(Add(Times(q, y), e), Add(y, a)), Add(Times(e, a), c))
  {
    hide Add, Times;
    var z := Add(y, a);
    var left, ey, ea := Times(Times(q, z), y), Times(e, y), Times(e, a);
    Distributes(Times(q, z), e, y);
    Distributes(Times(q, y), e, z);
    Distributes(e, y, a);
    Associates(q, z, y);
    Associates(q, y, z);
    Commutes(z, y);
    AddGroup(left, ey, ea);
    AddGroup(Add(left, ey), ea, Add(ea, c));
    AddGroup(ea, ea, c);
    AddGroup(c, ZERO, ZERO);
  }

  /** As many roots as coefficients leave only the zero polynomial. */
  lemma {:induction false} TooManyRoots(p: seq<Byte>)
    requires |p| <= 255
    requires forall k: nat :: k < |p| ==> Eval(p, Alpha(k)) == ZERO
    ensures p == Zeros(|p|)
    decreases |p|
  {
    hide Add, Times;
    if p != [] {
      var n := |p| - 1;
      var a := Alpha(n);
      var q := Quotient(p, a);
      forall k: nat | k < n ensures Eval(q, Alpha(k)) == ZERO {
        var y := Alpha(k);
        DivideByRoot(p, a, y);
        AddGroup(Times(Eval(q, y), Add(y, a)), ZERO, ZERO);
        NoZeroDivisors(Eval(q, y), Add(y, a));
        if Add(y, a) == ZERO {
          AddEqual(y, a);
          AlphaInjective(k, n);
        }
      }
      TooManyRoots(q);
      forall i | 0 <= i <= n ensures p[i] == ZERO {
        assert i == n ==> p[..i + 1] == p;
        assert Eval(p[..i + 1], a) == ZERO by {
          if i < n {
            assert q[i] == ZERO;
          }
        }
        assert Eval(p[..i], a) == ZERO by {
          if i > 0 {
            assert q[i - 1] == ZERO;
          }
        }
        assert p[..i + 1] == p[..i] + [p[i]];
        EvalSnoc(p[..i], p[i], a);
        TimesZero(a);
        AddGroup(p[i], ZERO, ZERO);
      }
    }
  }
}
