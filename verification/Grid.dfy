/** Square grids of modules, stored row by row in one list. */
module Grid {

  datatype Cell = Cell(x: nat, y: nat)

  predicate Inside(size: nat, c: Cell) {
    c.x < size && c.y < size
  }

  function Index(size: nat, c: Cell): nat {
    c.y * size + c.x
  }

  lemma IndexInRange(size: nat, c: Cell)
    requires Inside(size, c)
    ensures Index(size, c) < size * size
  {
    assert c.y * size + size <= size * size by {
      assert (c.y + 1) * size <= size * size;
    }
  }

  lemma IndexInjective(size: nat, c: Cell, d: Cell)
    requires Inside(size, c) && Inside(size, d) && Index(size, c) == Index(size, d)
    ensures c == d
  {
    if c.y < d.y {
      RowsApart(c.x, c.y, d.x, d.y, size);
    }
    if d.y < c.y {
      RowsApart(d.x, d.y, c.x, c.y, size);
    }
  }

  lemma RowsApart(x: nat, y: nat, x': nat, y': nat, size: nat)
    requires x < size && y < y'
    ensures y * size + x < y' * size + x'
  {
    assert (y' - y - 1) * size >= 0;
    assert y' * size == y * size + size + (y' - y - 1) * size;
  }

  predicate Square(m: seq<bool>, size: nat) {
    |m| == size * size
  }

  function At(m: seq<bool>, size: nat, c: Cell): bool
    requires Square(m, size) && Inside(size, c)
  {
    IndexInRange(size, c);
    m[Index(size, c)]
  }

  /** The grid with one module set. */
  function With(m: seq<bool>, size: nat, c: Cell, dark: bool): (m': seq<bool>)
    requires Square(m, size) && Inside(size, c)
    ensures Square(m', size)
  {
    IndexInRange(size, c);
    m[Index(size, c) := dark]
  }

  lemma AtWith(m: seq<bool>, size: nat, c: Cell, dark: bool)
    requires Square(m, size) && Inside(size, c)
    ensures forall d :: Inside(size, d) ==>
      At(With(m, size, c, dark), size, d) == if d == c then dark else At(m, size, d)
  {
    hide Index;
    forall d | Inside(size, d)
      ensures At(With(m, size, c, dark), size, d) == if d == c then dark else At(m, size, d)
    {
      IndexInRange(size, d);
      if Index(size, c) == Index(size, d) {
        IndexInjective(size, c, d);
      }
    }
  }

  /** Grids with the same modules are the same. */
  lemma SameModules(m: seq<bool>, m': seq<bool>, size: nat)
    requires Square(m, size) && Square(m', size)
    requires forall c :: Inside(size, c) ==> At(m, size, c) == At(m', size, c)
    ensures m == m'
  {
    if size > 0 {
      forall i | 0 <= i < |m| ensures m[i] == m'[i] {
        var c := Cell(i % size, i / size);
        RowOf(i, size);
        assert At(m, size, c) == At(m', size, c);
      }
    }
  }

  lemma RowOf(i: nat, size: nat)
    requires size > 0 && i < size * size
    ensures i / size < size && (i / size) * size + i % size == i
  {
    QuotientBelow(i / size, size, i % size);
  }

  lemma QuotientBelow(q: nat, size: nat, r: nat)
    requires q * size + r < size * size
    ensures q < size
  {
    assert (size - q) * size > 0;
  }

  function Blank(size: nat): (m: seq<bool>)
    ensures Square(m, size)
  {
    seq(size * size, _ => false)
  }
}
