/** The mask conditions against the patterns they draw. */
module MaskPatterns {
  import opened Matrix

  /** The eight patterns of section 7.8.2 of ISO/IEC 18004, as they repeat; '#' is a module that is flipped. */
  function Pattern(mask: nat): (rows: seq<string>)
    requires mask < 8
    ensures |rows| > 0 && |rows[0]| > 0 && forall i :: 0 <= i < |rows| ==> |rows[i]| == |rows[0]|
  {
    if mask < 4 then
      if mask == 0 then ["#.",
                         ".#"]
      else if mask == 1 then ["#",
                              "."]
      else if mask == 2 then ["#.."]
      else ["#..",
            "..#",
            ".#."]
    else
      if mask == 4 then ["###...",
                         "###...",
                         "...###",
                         "...###"]
      else if mask == 5 then ["######",
                              "#.....",
                              "#..#..",
                              "#.#.#.",
                              "#..#..",
                              "#....."]
      else if mask == 6 then ["######",
                              "###...",
                              "##.##.",
                              "#.#.#.",
                              "#.##.#",
                              "#...##"]
      else ["#.#.#.",
            "...###",
            "#...##",
            ".#.#.#",
            "###...",
            ".###.."]
  }

  /** The pattern, repeated from the upper left corner on, has a mark in column x of row y. */
  predicate InPattern(mask: nat, x: nat, y: nat)
    requires mask < 8
  {
    var rows := Pattern(mask);
    rows[y % |rows|][x % |rows[0]|] == '#'
  }

  /** The mark of the patterns that repeat every six columns and rows. */
  predicate InPatternAt(mask: nat, r: nat, s: nat)
    requires 5 <= mask < 8 && r < 6 && s < 6
  {
    Pattern(mask)[s][r] == '#'
  }

  lemma Repeats(mask: nat, x: nat, y: nat)
    requires 5 <= mask < 8
    ensures InPattern(mask, x, y) == InPatternAt(mask, x % 6, y % 6)
  {
    assert |Pattern(mask)| == 6 && |Pattern(mask)[0]| == 6;
    hide Pattern;
  }

  lemma {:induction false} RestOf(k: nat, t: nat)
    ensures (6 * k + t) % 6 == t % 6
  {
    if k > 0 {
      RestOf(k - 1, t);
    }
  }

  lemma Spread(q: nat, s: nat, p: nat, r: nat)
    ensures (6 * q + s) * (6 * p + r) == 6 * (q * (6 * p + r) + s * p) + s * r
  {
  }

  lemma ProductRest(x: nat, y: nat)
    ensures (y * x) % 6 == ((y % 6) * (x % 6)) % 6
  {
    var p, q, r, s := x / 6, y / 6, x % 6, y % 6;
    assert x == 6 * p + r && y == 6 * q + s;
    Spread(q, s, p, r);
    RestOf(q * x + s * p, s * r);
  }

  lemma Halves(n: nat)
    ensures n % 2 == (n % 6) % 2 && n % 3 == (n % 6) % 3
  {
  }

  /** What a condition with products in it says, from the rests of product and sum. */
  predicate FlipsSmall(mask: nat, t: nat, sum: nat) {
    if mask == 5 then t % 2 + t % 3 == 0
    else if mask == 6 then (t % 2 + t % 3) % 2 == 0
    else (sum % 2 + t % 3) % 2 == 0
  }

  lemma SmallRow(mask: nat, s: nat, r: nat)
    requires 5 <= mask < 8 && r < 6 && s < 6
    ensures FlipsSmall(mask, (s * r) % 6, s + r) <==> InPatternAt(mask, r, s)
  {
    if mask == 5 {
      Small5(s, r);
    } else if mask == 6 {
      Small6(s, r);
    } else {
      Small7(s, r);
    }
  }

  lemma Small5(s: nat, r: nat)
    requires r < 6 && s < 6
    ensures FlipsSmall(5, (s * r) % 6, s + r) <==> InPatternAt(5, r, s)
  {
  }

  lemma Small6(s: nat, r: nat)
    requires r < 6 && s < 6
    ensures FlipsSmall(6, (s * r) % 6, s + r) <==> InPatternAt(6, r, s)
  {
  }

  lemma Small7(s: nat, r: nat)
    requires r < 6 && s < 6
    ensures FlipsSmall(7, (s * r) % 6, s + r) <==> InPatternAt(7, r, s)
  {
  }

  lemma {:induction false} EvenRest(k: nat, t: nat)
    ensures (2 * k + t) % 2 == t % 2
  {
    if k > 0 {
      EvenRest(k - 1, t);
    }
  }

  lemma HalfSum(x: nat, y: nat)
    ensures (y + x) % 2 == (y % 6 + x % 6) % 2
  {
    EvenRest(3 * (y / 6) + 3 * (x / 6), y % 6 + x % 6);
  }

  lemma AsSmall(mask: nat, n: nat, x: nat, y: nat)
    requires 5 <= mask < 8
    ensures FlipsSmall(mask, n, y + x) <==> FlipsSmall(mask, n % 6, y % 6 + x % 6)
  {
    Halves(n);
    HalfSum(x, y);
    assert (n % 6) % 2 == n % 2 && (n % 6) % 3 == n % 3;
  }

  lemma FlipsAsSmall(mask: nat, x: nat, y: nat)
    requires 5 <= mask < 8
    ensures Flips(mask, x, y) <==> FlipsSmall(mask, y * x, y + x)
  {
  }

  lemma Chequers(x: nat, y: nat)
    ensures Flips(0, x, y) <==> InPattern(0, x, y)
  {
    assert |Pattern(0)| == 2 && Pattern(0)[0] == "#." && Pattern(0)[1] == ".#";
    hide Pattern;
    var r, s := x % 2, y % 2;
    assert (y + x) % 2 == (s + r) % 2;
  }

  lemma Stripes(x: nat, y: nat)
    ensures Flips(1, x, y) <==> InPattern(1, x, y)
    ensures Flips(2, x, y) <==> InPattern(2, x, y)
  {
    assert |Pattern(1)| == 2 && Pattern(1)[0] == "#" && Pattern(1)[1] == ".";
    assert |Pattern(2)| == 1 && Pattern(2)[0] == "#..";
    hide Pattern;
  }

  lemma Diagonals(x: nat, y: nat)
    ensures Flips(3, x, y) <==> InPattern(3, x, y)
  {
    assert |Pattern(3)| == 3 && Pattern(3)[0] == "#.." && Pattern(3)[1] == "..#" && Pattern(3)[2] == ".#.";
    hide Pattern;
    var r, s := x % 3, y % 3;
    assert (y + x) % 3 == (s + r) % 3;
  }

  lemma BrickRows(x: nat, y: nat)
    ensures (y / 2 + x / 3) % 2 == ((y % 4) / 2 + (x % 6) / 3) % 2
  {
    var p, q := x / 6, y / 4;
    assert x / 3 == 2 * p + (x % 6) / 3;
    assert y / 2 == 2 * q + (y % 4) / 2;
  }

  lemma Bricks(x: nat, y: nat)
    ensures Flips(4, x, y) <==> InPattern(4, x, y)
  {
    assert |Pattern(4)| == 4 && Pattern(4)[0] == "###..." == Pattern(4)[1] && Pattern(4)[2] == "...###" == Pattern(4)[3];
    hide Pattern;
    BrickRows(x, y);
    OneBrick(Pattern(4), x % 6, y % 4);
  }

  lemma OneBrick(rows: seq<string>, r: nat, s: nat)
    requires |rows| == 4 && rows[0] == "###..." == rows[1] && rows[2] == "...###" == rows[3] && r < 6 && s < 4
    ensures (s / 2 + r / 3) % 2 == 0 <==> rows[s][r] == '#'
  {
  }

  /** Each condition draws its pattern, in symbols of any size. */
  lemma FlipsPattern(mask: nat, x: nat, y: nat)
    requires mask < 8
    ensures Flips(mask, x, y) <==> InPattern(mask, x, y)
  {
    hide *;
    if mask >= 5 {
      FlipsAsSmall(mask, x, y);
      AsSmall(mask, y * x, x, y);
      ProductRest(x, y);
      Repeats(mask, x, y);
      SmallRow(mask, y % 6, x % 6);
    } else if mask == 4 {
      Bricks(x, y);
    } else if mask == 3 {
      Diagonals(x, y);
    } else if mask == 0 {
      Chequers(x, y);
    } else {
      Stripes(x, y);
    }
  }
}
