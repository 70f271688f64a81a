/** The shapes of the versions 1 to 20 at error correction level M, and the choice between them. */
module Tables {

  import opened Options

  /** How the codewords of a version are split: n1 blocks of d1 and n2 of d2 data codewords. */
  datatype Block = Block(ec: nat, n1: nat, d1: nat, n2: nat, d2: nat) {
    function Data(): nat {
      n1 * d1 + n2 * d2
    }

    function Total(): nat {
      n1 * (d1 + ec) + n2 * (d2 + ec)
    }
  }

  function BlockOf(version: nat): Block
    requires 1 <= version <= 20
  {
    if version <= 10 then
      if version == 1 then Block(10, 1, 16, 0, 0)
      else if version == 2 then Block(16, 1, 28, 0, 0)
      else if version == 3 then Block(26, 1, 44, 0, 0)
      else if version == 4 then Block(18, 2, 32, 0, 0)
      else if version == 5 then Block(24, 2, 43, 0, 0)
      else if version == 6 then Block(16, 4, 27, 0, 0)
      else if version == 7 then Block(18, 4, 31, 0, 0)
      else if version == 8 then Block(22, 2, 38, 2, 39)
      else if version == 9 then Block(22, 3, 36, 2, 37)
      else Block(26, 4, 43, 1, 44)
    else
      if version == 11 then Block(30, 1, 50, 4, 51)
      else if version == 12 then Block(22, 6, 36, 2, 37)
      else if version == 13 then Block(22, 8, 37, 1, 38)
      else if version == 14 then Block(24, 4, 40, 5, 41)
      else if version == 15 then Block(24, 5, 41, 5, 42)
      else if version == 16 then Block(28, 7, 45, 3, 46)
      else if version == 17 then Block(28, 10, 46, 1, 47)
      else if version == 18 then Block(26, 9, 43, 4, 44)
      else if version == 19 then Block(26, 3, 44, 11, 45)
      else Block(26, 3, 41, 13, 42)
  }

  /** The rows, and columns, in which alignment patterns have their centres. */
  function Alignment(version: nat): seq<nat>
    requires 1 <= version <= 20
  {
    if version <= 10 then
      if version == 1 then []
      else if version == 2 then [6, 18]
      else if version == 3 then [6, 22]
      else if version == 4 then [6, 26]
      else if version == 5 then [6, 30]
      else if version == 6 then [6, 34]
      else if version == 7 then [6, 22, 38]
      else if version == 8 then [6, 24, 42]
      else if version == 9 then [6, 26, 46]
      else [6, 28, 50]
    else
      if version == 11 then [6, 30, 54]
      else if version == 12 then [6, 32, 58]
      else if version == 13 then [6, 34, 62]
      else if version == 14 then [6, 26, 46, 66]
      else if version == 15 then [6, 26, 48, 70]
      else if version == 16 then [6, 26, 50, 74]
      else if version == 17 then [6, 30, 54, 78]
      else if version == 18 then [6, 30, 56, 82]
      else if version == 19 then [6, 30, 58, 86]
      else [6, 34, 62, 90]
  }

  function SizeOf(version: nat): nat {
    4 * version + 17
  }

  function CountBits(version: nat): nat {
    if version >= 10 then 16 else 8
  }

  /** Mode, count and payload of n bytes fit into the data codewords of the version. */
  predicate Fits(version: nat, n: nat)
    requires 1 <= version <= 20
  {
    4 + CountBits(version) + 8 * n <= 8 * BlockOf(version).Data()
  }

  lemma BlockFacts(version: nat)
    requires 1 <= version <= 20
    ensures var b := BlockOf(version);
            0 < b.ec <= 30 && 0 < b.n1 && 0 < b.d1 && b.Data() <= 669
            && (version < 10 ==> b.Data() <= 182) && (version < 20 ==> b.Data() < 669)
  {
    BlockSizes(version);
  }

  lemma BlockSizes(version: nat)
    requires 1 <= version <= 20
    ensures BlockOf(version).Data() == [16, 28, 44, 64, 86, 108, 124, 154, 182, 216, 254, 290, 334,
                                        365, 415, 453, 507, 563, 627, 669][version - 1]
    ensures BlockOf(version).Total() == [26, 44, 70, 100, 134, 172, 196, 242, 292, 346, 404, 466, 532,
                                         581, 655, 733, 815, 901, 991, 1085][version - 1]
  {
  }

  /** Each version has so many blocks, with so many correction codewords each; the longer ones have one data codeword more. */
  lemma BlockShapes(version: nat)
    requires 1 <= version <= 20
    ensures var b := BlockOf(version);
      && b.n1 + b.n2 == [1, 1, 1, 2, 2, 4, 4, 4, 5, 5, 5, 8, 9, 9, 10, 10, 11, 13, 14, 16][version - 1]
      && b.ec == [10, 16, 26, 18, 24, 16, 18, 22, 22, 26, 30, 22, 22, 24, 24, 28, 28, 26, 26, 26][version - 1]
      && (b.n2 > 0 ==> b.d2 == b.d1 + 1) && (b.n2 == 0 ==> b.d2 == 0)
  {
  }

  /**
    The centres of alignment patterns begin at 6 and end seven modules before the border; between the second
    and the last they are evenly spaced, by an even number of modules that is not below the first step.
    */
  lemma AlignmentSpaced(version: nat)
    requires 1 <= version <= 20
    ensures var a := Alignment(version);
      && |a| == (if version == 1 then 0 else version / 7 + 2)
      && (version > 1 ==> a[0] == 6 && a[|a| - 1] == SizeOf(version) - 7)
      && (forall i :: 1 <= i < |a| - 1 ==> a[i + 1] - a[i] == a[|a| - 1] - a[|a| - 2])
      && (|a| > 2 ==> (a[2] - a[1]) % 2 == 0 && a[1] - a[0] <= a[2] - a[1] < a[1] - a[0] + 2 * (|a| - 1))
  {
  }

  /** The smallest version the bytes fit into. */
  method Fit(n: nat) returns (r: Option<nat>)
    ensures r.Some? ==> 1 <= r.value <= 20 && Fits(r.value, n)
    ensures r.Some? ==> forall v :: 1 <= v < r.value ==> !Fits(v, n)
    ensures r.Some? <==> n <= 666
  {
    hide BlockOf;
    for v := 1 to 21
      invariant forall w :: 1 <= w < v ==> !Fits(w, n)
    {
      BlockFacts(v);
      var countBits := 8;
      if v >= 10 {
        countBits := 16;
      }
      if (4 + countBits) / 8 + n <= BlockOf(v).Data() {
        // The estimate rounds down, so the bits are counted.
        if 4 + countBits + 8 * n <= 8 * BlockOf(v).Data() {
          return Some(v);
        }
      }
    }
    BlockSizes(20);
    assert !Fits(20, n);
    return None;
  }
}
