/**
  The path of the data: pairs of columns, from right to left, upwards and downwards in turn,
  stepping over column 6; and how codeword bits are laid along it.
  */
module DataPath {
  import opened GaloisField
  import opened BitStream
  import opened Grid

  /** The right column of pair p. */
  function Right(size: nat, p: nat): int {
    if size - 1 - 2 * p > 6 then size - 1 - 2 * p else size - 2 - 2 * p
  }

  function Pairs(size: nat): nat {
    if size == 0 then 0 else (size - 1) / 2
  }

  predicate Odd(size: nat) {
    size % 2 == 1 && size >= 9
  }

  /** Step r within pair p: right before left, upwards in even pairs. */
  function StepCell(size: nat, p: nat, r: nat): Cell
    requires Odd(size) && p < Pairs(size) && r < 2 * size
  {
    Cell(Right(size, p) - r % 2, if p % 2 == 0 then size - 1 - r / 2 else r / 2)
  }

  function Pair(size: nat, p: nat): (cells: seq<Cell>)
    requires Odd(size) && p < Pairs(size)
    ensures |cells| == 2 * size
  {
    seq(2 * size, r requires 0 <= r < 2 * size => StepCell(size, p, r))
  }

  function PathUpTo(size: nat, p: nat): seq<Cell>
    requires Odd(size) && p <= Pairs(size)
  {
    if p == 0 then [] else PathUpTo(size, p - 1) + Pair(size, p - 1)
  }

  function Path(size: nat): seq<Cell>
    requires Odd(size)
  {
    PathUpTo(size, Pairs(size))
  }

  ghost predicate Distinct(cells: seq<Cell>) {
    forall i, j :: 0 <= i < j < |cells| ==> cells[i] != cells[j]
  }

  lemma {:induction false} PathCells(size: nat, p: nat)
    requires Odd(size) && p <= Pairs(size)
    ensures forall c :: c in PathUpTo(size, p) ==>
      Inside(size, c) && c.x != 6 && (p > 0 ==> c.x >= Right(size, p - 1) - 1)
  {
    if p > 0 {
      PathCells(size, p - 1);
    }
  }

  lemma {:induction false} PathDistinct(size: nat, p: nat)
    requires Odd(size) && p <= Pairs(size)
    ensures Distinct(PathUpTo(size, p))
  {
    if p > 0 {
      PathDistinct(size, p - 1);
      PathCells(size, p - 1);
      PairDistinct(size, p - 1);
      var before, pair := PathUpTo(size, p - 1), Pair(size, p - 1);
      forall i, j | 0 <= i < j < |before + pair| ensures (before + pair)[i] != (before + pair)[j] {
        if i < |before| <= j {
          assert before[i] in before;
          assert pair[j - |before|] == StepCell(size, p - 1, j - |before|);
        }
      }
    }
  }

  lemma PairDistinct(size: nat, p: nat)
    requires Odd(size) && p < Pairs(size)
    ensures Distinct(Pair(size, p))
  {
    forall i, j | 0 <= i < j < 2 * size ensures Pair(size, p)[i] != Pair(size, p)[j] {
      StepsDiffer(size, p, i, j);
    }
  }

  lemma StepsDiffer(size: nat, p: nat, i: nat, j: nat)
    requires Odd(size) && p < Pairs(size) && i < j < 2 * size
    ensures StepCell(size, p, i) != StepCell(size, p, j)
  {
    assert i / 2 != j / 2 || i % 2 != j % 2;
  }

  /** Every module outside column 6 lies on the path. */
  lemma {:induction false} PathCovers(size: nat, c: Cell, p: nat)
    requires Odd(size) && Inside(size, c) && c.x != 6
    requires p <= Pairs(size) && (p < Pairs(size) ==> c.x > Right(size, p))
    ensures c in PathUpTo(size, p)
  {
    assert p > 0 by {
      assert Right(size, 0) >= size - 2;
    }
    var right := Right(size, p - 1);
    if c.x <= right {
      assert p < Pairs(size) ==> c.x > Right(size, p);
      assert c.x == right || c.x == right - 1;
      var i := if (p - 1) % 2 == 0 then size - 1 - c.y else c.y;
      var r := 2 * i + (right - c.x);
      assert r / 2 == i && r % 2 == right - c.x;
      assert StepCell(size, p - 1, r) == c;
      assert Pair(size, p - 1)[r] == c;
      assert PathUpTo(size, p)[|PathUpTo(size, p - 1)| + r] == c;
    } else {
      PathCovers(size, c, p - 1);
      var k :| 0 <= k < |PathUpTo(size, p - 1)| && PathUpTo(size, p - 1)[k] == c;
      assert PathUpTo(size, p)[k] == c;
    }
  }

  /** The path meets every module outside column 6 exactly once, and no other. */
  lemma PathIsBijection(size: nat)
    requires Odd(size)
    ensures Distinct(Path(size))
    ensures forall c :: c in Path(size) <==> Inside(size, c) && c.x != 6
  {
    PathDistinct(size, Pairs(size));
    PathCells(size, Pairs(size));
    forall c | Inside(size, c) && c.x != 6 ensures c in Path(size) {
      PathCovers(size, c, Pairs(size));
    }
  }

  /** The path up to step k of pair p. */
  function Walked(size: nat, p: nat, k: nat): seq<Cell>
    requires Odd(size) && p < Pairs(size) && k <= 2 * size
  {
    PathUpTo(size, p) + Pair(size, p)[..k]
  }

  lemma WalkStep(size: nat, p: nat, k: nat)
    requires Odd(size) && p < Pairs(size) && k < 2 * size
    ensures Inside(size, StepCell(size, p, k)) && StepCell(size, p, k) !in Walked(size, p, k)
    ensures Walked(size, p, k + 1) == Walked(size, p, k) + [StepCell(size, p, k)]
    ensures forall c :: c in Walked(size, p, k) ==> Inside(size, c)
  {
    PathDistinct(size, p + 1);
    PathCells(size, p + 1);
    var path := PathUpTo(size, p + 1);
    var at := |PathUpTo(size, p)| + k;
    assert Pair(size, p)[k] == StepCell(size, p, k);
    assert path[at] == StepCell(size, p, k) && path[..at] == Walked(size, p, k);
    hide *;
    BeforeIndex(path, at);
  }

  lemma BeforeIndex(cells: seq<Cell>, at: nat)
    requires at < |cells| && Distinct(cells)
    ensures cells[at] !in cells[..at] && cells[at] in cells
    ensures forall c :: c in cells[..at] ==> c in cells
  {
  }

  lemma WalkEnds(size: nat, p: nat)
    requires Odd(size) && p < Pairs(size)
    ensures Walked(size, p, 0) == PathUpTo(size, p) && Walked(size, p, 2 * size) == PathUpTo(size, p + 1)
  {
    assert Pair(size, p)[..2 * size] == Pair(size, p);
  }

  // -- bits along the path ---------------------------------------------------------------

  /** The cells that are free to carry data, in order. */
  function Free(cells: seq<Cell>, reserved: seq<bool>, size: nat): seq<Cell>
    requires Square(reserved, size) && forall c :: c in cells ==> Inside(size, c)
  {
    if cells == [] then []
    else
      var last := cells[|cells| - 1];
      Free(cells[..|cells| - 1], reserved, size) + (if At(reserved, size, last) then [] else [last])
  }

  lemma {:induction false} FreeMembers(cells: seq<Cell>, reserved: seq<bool>, size: nat)
    requires Square(reserved, size) && forall c :: c in cells ==> Inside(size, c)
    ensures forall c :: c in Free(cells, reserved, size) <==> c in cells && !At(reserved, size, c)
    ensures Distinct(cells) ==> Distinct(Free(cells, reserved, size))
  {
    hide At;
    if cells != [] {
      var front := cells[..|cells| - 1];
      FreeMembers(front, reserved, size);
      assert cells == front + [cells[|cells| - 1]];
    }
  }

  lemma FreeSnoc(cells: seq<Cell>, c: Cell, reserved: seq<bool>, size: nat)
    requires Square(reserved, size) && (forall d :: d in cells ==> Inside(size, d)) && Inside(size, c)
    ensures Free(cells + [c], reserved, size)
         == Free(cells, reserved, size) + (if At(reserved, size, c) then [] else [c])
  {
    assert (cells + [c])[..|cells|] == cells;
  }

  function BitAt(bits: seq<bool>, k: nat): bool {
    k < |bits| && bits[k]
  }

  /** The free cells among these carry the first bits, in order; nothing else has changed. */
  ghost predicate Placed(before: seq<bool>, after: seq<bool>, size: nat, reserved: seq<bool>,
                         cells: seq<Cell>, bits: seq<bool>)
  {
    && Square(reserved, size) && (forall c :: c in cells ==> Inside(size, c))
    && Square(before, size) && Square(after, size)
    && (forall k :: 0 <= k < |Free(cells, reserved, size)| ==>
         Inside(size, Free(cells, reserved, size)[k])
         && At(after, size, Free(cells, reserved, size)[k]) == BitAt(bits, k))
    && (forall c :: Inside(size, c) && c !in Free(cells, reserved, size) ==>
         At(after, size, c) == At(before, size, c))
  }

  lemma PassOne(before: seq<bool>, after: seq<bool>, size: nat, reserved: seq<bool>,
                cells: seq<Cell>, bits: seq<bool>, c: Cell)
    requires Square(reserved, size) && Inside(size, c) && At(reserved, size, c)
    requires Placed(before, after, size, reserved, cells, bits)
    ensures Placed(before, after, size, reserved, cells + [c], bits)
  {
    FreeSnoc(cells, c, reserved, size);
    hide Free, At, BitAt;
    assert Free(cells + [c], reserved, size) == Free(cells, reserved, size);
  }

  lemma PlaceOne(before: seq<bool>, after: seq<bool>, size: nat, reserved: seq<bool>,
                 cells: seq<Cell>, bits: seq<bool>, c: Cell)
    requires Square(reserved, size) && Inside(size, c) && !At(reserved, size, c)
    requires c !in cells && Placed(before, after, size, reserved, cells, bits)
    ensures Placed(before, With(after, size, c, BitAt(bits, |Free(cells, reserved, size)|)), size,
                   reserved, cells + [c], bits)
  {
    FreeSnoc(cells, c, reserved, size);
    FreeMembers(cells, reserved, size);
    hide Free, At, With, BitAt;
    var free, bit := Free(cells, reserved, size), BitAt(bits, |Free(cells, reserved, size)|);
    AtWith(after, size, c, bit);
    SetNext(before, after, With(after, size, c, bit), size, free, bits, c);
  }

  lemma SetNext(before: seq<bool>, after: seq<bool>, next: seq<bool>, size: nat,
                free: seq<Cell>, bits: seq<bool>, c: Cell)
    requires Square(before, size) && Square(after, size) && Square(next, size) && Inside(size, c)
    requires c !in free
    requires forall k :: 0 <= k < |free| ==> Inside(size, free[k]) && At(after, size, free[k]) == BitAt(bits, k)
    requires forall d :: Inside(size, d) && d !in free ==> At(after, size, d) == At(before, size, d)
    requires forall d :: Inside(size, d) ==>
      At(next, size, d) == if d == c then BitAt(bits, |free|) else At(after, size, d)
    ensures var more := free + [c];
      && (forall k :: 0 <= k < |more| ==> Inside(size, more[k]) && At(next, size, more[k]) == BitAt(bits, k))
      && (forall d :: Inside(size, d) && d !in more ==> At(next, size, d) == At(before, size, d))
  {
    hide At, BitAt;
    var more := free + [c];
    forall k | 0 <= k < |more| ensures Inside(size, more[k]) && At(next, size, more[k]) == BitAt(bits, k) {
      if k < |free| {
        assert free[k] in free;
      }
    }
    forall d | Inside(size, d) && d !in more ensures At(next, size, d) == At(before, size, d) {
      assert more[|free|] in more;
      assert d !in free;
    }
  }

  /** A reader of the path. */
  function ReadFree(m: seq<bool>, size: nat, reserved: seq<bool>): (bits: seq<bool>)
    requires Odd(size) && Square(m, size) && Square(reserved, size)
  {
    PathCells(size, Pairs(size));
    var free := Free(Path(size), reserved, size);
    FreeMembers(Path(size), reserved, size);
    seq(|free|, k requires 0 <= k < |free| => At(m, size, free[k]))
  }

  /** Reading the path gives the bits back, if they found room. */
  lemma ReadPlaced(before: seq<bool>, after: seq<bool>, size: nat, reserved: seq<bool>, bits: seq<bool>)
    requires Odd(size) && Square(after, size) && Square(reserved, size)
    requires Placed(before, after, size, reserved, Path(size), bits)
    requires |bits| <= |ReadFree(after, size, reserved)|
    ensures ReadFree(after, size, reserved)[..|bits|] == bits
  {
    hide Free, At;
    PathCells(size, Pairs(size));
  }

  lemma {:induction false} StreamBit(bytes: seq<Byte>, k: nat)
    requires k < 8 * |bytes|
    ensures StreamBits(bytes)[k] == Coefficient(bytes[k / 8], 7 - k % 8)
  {
    hide Coefficient;
    var last := |bytes| - 1;
    if k < 8 * last {
      StreamBit(bytes[..last], k);
    }
  }
}
