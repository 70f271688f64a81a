/** The symbol under construction: drawing the patterns, laying the bits, naming the mask. */
module Symbol {
  import opened GaloisField
  import opened BitStream
  import opened Tables
  import opened Grid
  import opened DataPath
  import opened Matrix
  import opened Drawing

  class Code {
    const Size: nat
    const Version: nat
    var m: array<bool>

    ghost predicate Valid()
      reads this
    {
      1 <= Version <= 20 && Size == SizeOf(Version) && m.Length == Size * Size
    }

    /** The reserved map that goes with the symbol. */
    ghost predicate Fitting(reserved: array<bool>)
      reads this
    {
      Valid() && reserved.Length == Size * Size && reserved != m
    }

    constructor (version: nat)
      requires 1 <= version <= 20
      ensures Valid() && Version == version && fresh(m) && m[..] == Blank(Size)
    {
      Version := version;
      Size := 4 * version + 17;
      m := new bool[(4 * version + 17) * (4 * version + 17)](_ => false);
    }

    method Set(x: nat, y: nat, dark: bool)
      requires Valid() && Inside(Size, Cell(x, y))
      modifies m
      ensures m[..] == With(old(m[..]), Size, Cell(x, y), dark)
    {
      IndexInRange(Size, Cell(x, y));
      m[y * Size + x] := dark;
    }

    // -- the function patterns ---------------------------------------------------------

    method Mark(reserved: array<bool>, x: int, y: int, dark: bool)
      requires Fitting(reserved)
      modifies m, reserved
      ensures Marked(old(m[..]), old(reserved[..]), m[..], reserved[..], Size, x, y, dark)
    {
      if x < 0 || y < 0 || x >= Size || y >= Size {
        return;
      }
      ghost var before, free := m[..], reserved[..];
      Set(x, y, dark);
      IndexInRange(Size, Cell(x, y));
      reserved[y * Size + x] := true;
      assert reserved[..] == With(free, Size, Cell(x, y), true);
      hide Index, At, With;
      AtWith(before, Size, Cell(x, y), dark);
      AtWith(free, Size, Cell(x, y), true);
    }

    /** One more mark of a layer. */
    method MarkNext(reserved: array<bool>, x: int, y: int, dark: bool, ghost layer: Layer, ghost k: int,
                    ghost before: seq<bool>, ghost free: seq<bool>)
      requires Fitting(reserved) && Drawn(before, free, m[..], reserved[..], Size, layer, k)
      requires forall c :: Inside(Size, c) ==>
        (Within(layer, Size, c, k + 1) <==> Within(layer, Size, c, k) || (c.x == x && c.y == y))
      requires 0 <= x < Size && 0 <= y < Size ==> dark == Shade(layer, Size, x, y)
      modifies m, reserved
      ensures Drawn(before, free, m[..], reserved[..], Size, layer, k + 1)
    {
      hide Drawn, Marked, Within, Shade;
      ghost var m1, r1 := m[..], reserved[..];
      Mark(reserved, x, y, dark);
      DrawStep(before, free, m1, r1, m[..], reserved[..], Size, layer, k, x, y, dark);
    }

    method DrawFinder(reserved: array<bool>, ox: int, oy: int, ghost layers: seq<Layer>)
      requires Fitting(reserved) && Depicts(m[..], reserved[..], Size, layers)
      modifies m, reserved
      ensures Depicts(m[..], reserved[..], Size, layers + [Finder(ox, oy)])
    {
      hide Drawn, Depicts, At;
      ghost var before, free := m[..], reserved[..];
      ghost var layer := Finder(ox, oy);
      DrawStart(before, free, Size, layer);
      for dy := -1 to 8
        invariant Drawn(before, free, m[..], reserved[..], Size, layer, 9 * (dy + 1))
      {
        for dx := -1 to 8
          invariant Drawn(before, free, m[..], reserved[..], Size, layer, 9 * (dy + 1) + dx + 1)
        {
          var x, y := ox + dx, oy + dy;
          var inRing := dx >= 0 && dx <= 6 && dy >= 0 && dy <= 6;
          var dark := inRing
            && (dx == 0 || dx == 6 || dy == 0 || dy == 6 || (dx >= 2 && dx <= 4 && dy >= 2 && dy <= 4));
          MarkNext(reserved, x, y, dark, layer, 9 * (dy + 1) + dx + 1, before, free);
        }
      }
      LayerDrawn(before, free, m[..], reserved[..], Size, layers, layer);
    }

    method DrawTiming(reserved: array<bool>, ghost layers: seq<Layer>)
      requires Fitting(reserved) && Depicts(m[..], reserved[..], Size, layers)
      modifies m, reserved
      ensures Depicts(m[..], reserved[..], Size, layers + [Timing])
    {
      hide Drawn, Depicts, At;
      ghost var before, free := m[..], reserved[..];
      DrawStart(before, free, Size, Timing);
      for i := 8 to Size - 8
        invariant Drawn(before, free, m[..], reserved[..], Size, Timing, 2 * (i - 8))
      {
        MarkNext(reserved, i, 6, i % 2 == 0, Timing, 2 * (i - 8), before, free);
        MarkNext(reserved, 6, i, i % 2 == 0, Timing, 2 * (i - 8) + 1, before, free);
      }
      LayerDrawn(before, free, m[..], reserved[..], Size, layers, Timing);
    }

    method DrawAlignment(reserved: array<bool>, cx: nat, cy: nat, ghost layers: seq<Layer>)
      requires Fitting(reserved) && Depicts(m[..], reserved[..], Size, layers)
      modifies m, reserved
      ensures Depicts(m[..], reserved[..], Size, layers + [AlignmentAt(cx, cy)])
    {
      hide Drawn, Depicts, At;
      ghost var before, free := m[..], reserved[..];
      ghost var layer := AlignmentAt(cx, cy);
      DrawStart(before, free, Size, layer);
      for dy := -2 to 3
        invariant Drawn(before, free, m[..], reserved[..], Size, layer, 5 * (dy + 2))
      {
        for dx := -2 to 3
          invariant Drawn(before, free, m[..], reserved[..], Size, layer, 5 * (dy + 2) + dx + 2)
        {
          var dark := dx == -2 || dx == 2 || dy == -2 || dy == 2 || (dx == 0 && dy == 0);
          MarkNext(reserved, cx + dx, cy + dy, dark, layer, 5 * (dy + 2) + dx + 2, before, free);
        }
      }
      LayerDrawn(before, free, m[..], reserved[..], Size, layers, layer);
    }

    method DrawAlignments(reserved: array<bool>)
      requires Fitting(reserved) && Depicts(m[..], reserved[..], Size, Fixed(Size))
      modifies m, reserved
      ensures Depicts(m[..], reserved[..], Size, Aligned(Version))
    {
      var centres := Alignment(Version);
      hide Depicts, Alignment, OnFinder, Fixed;
      ghost var layers := Fixed(Size);
      assert layers + AlignmentRows(Size, centres, 0) == layers;
      for i := 0 to |centres|
        invariant Depicts(m[..], reserved[..], Size, layers + AlignmentRows(Size, centres, i))
      {
        DrawRow(reserved, centres, centres[i], layers + AlignmentRows(Size, centres, i));
        assert layers + AlignmentRows(Size, centres, i + 1)
            == layers + AlignmentRows(Size, centres, i) + AlignmentRow(Size, centres, centres[i], |centres|);
      }
    }

    method DrawRow(reserved: array<bool>, centres: seq<nat>, cy: nat, ghost layers: seq<Layer>)
      requires Fitting(reserved) && Depicts(m[..], reserved[..], Size, layers)
      modifies m, reserved
      ensures Depicts(m[..], reserved[..], Size, layers + AlignmentRow(Size, centres, cy, |centres|))
    {
      hide Depicts, OnFinder;
      assert layers + AlignmentRow(Size, centres, cy, 0) == layers;
      for j := 0 to |centres|
        invariant Depicts(m[..], reserved[..], Size, layers + AlignmentRow(Size, centres, cy, j))
      {
        var cx := centres[j];
        DrawPair(reserved, cx, cy, layers + AlignmentRow(Size, centres, cy, j));
        assert layers + AlignmentRow(Size, centres, cy, j + 1)
            == layers + AlignmentRow(Size, centres, cy, j)
               + (if OnFinder(Size, cx, cy) then [] else [AlignmentAt(cx, cy)]);
      }
    }

    /** Draws the alignment pattern with this centre, unless a finder covers the place. */
    method DrawPair(reserved: array<bool>, cx: nat, cy: nat, ghost layers: seq<Layer>)
      requires Fitting(reserved) && Depicts(m[..], reserved[..], Size, layers)
      modifies m, reserved
      ensures Depicts(m[..], reserved[..], Size,
                      layers + (if OnFinder(Size, cx, cy) then [] else [AlignmentAt(cx, cy)]))
    {
      hide Depicts;
      assert layers + [] == layers;
      var onFinder :=
        || (cx <= 8 && cy <= 8)
        || (cx >= Size - 9 && cy <= 8)
        || (cx <= 8 && cy >= Size - 9);
      if onFinder {
        return;
      }
      DrawAlignment(reserved, cx, cy, layers);
    }

    method DrawFormatArea(reserved: array<bool>, ghost layers: seq<Layer>)
      requires Fitting(reserved) && Depicts(m[..], reserved[..], Size, layers)
      requires IsReserved(layers, Size, 8, 6)
      modifies m, reserved
      ensures Depicts(m[..], reserved[..], Size, layers + [FormatArea])
    {
      hide Drawn, Depicts, At;
      ghost var before, free := m[..], reserved[..];
      DrawStart(before, free, Size, FormatArea);
      for i := 0 to 9
        invariant Drawn(before, free, m[..], reserved[..], Size, FormatArea, 2 * i)
      {
        if i != 6 {
          HoldPlace(reserved, layers, before, free, 2 * i);
          MarkNext(reserved, 8, i, false, FormatArea, 2 * i, before, free);
          MarkNext(reserved, i, 8, false, FormatArea, 2 * i + 1, before, free);
        } else {
          NoStep(before, free, m[..], reserved[..], Size);
        }
      }
      for i := 0 to 8
        invariant Drawn(before, free, m[..], reserved[..], Size, FormatArea, 18 + 2 * i)
      {
        MarkNext(reserved, Size - 1 - i, 8, false, FormatArea, 18 + 2 * i, before, free);
        MarkNext(reserved, 8, Size - 1 - i, false, FormatArea, 18 + 2 * i + 1, before, free);
      }
      LayerDrawn(before, free, m[..], reserved[..], Size, layers, FormatArea);
    }

    /** The crossing of column 8 and the timing row is reserved already, so this changes nothing. */
    method HoldPlace(reserved: array<bool>, ghost layers: seq<Layer>, ghost before: seq<bool>,
                     ghost free: seq<bool>, ghost k: int)
      requires Fitting(reserved) && Depicts(before, free, Size, layers) && IsReserved(layers, Size, 8, 6)
      requires Drawn(before, free, m[..], reserved[..], Size, FormatArea, k)
      modifies reserved
      ensures reserved[..] == old(reserved[..])
    {
      IndexInRange(Size, Cell(8, 6));
      assert At(reserved[..], Size, Cell(8, 6));
      reserved[6 * Size + 8] := true;
    }

    method DrawVersion(reserved: array<bool>, ghost layers: seq<Layer>)
      requires Fitting(reserved) && Depicts(m[..], reserved[..], Size, layers)
      modifies m, reserved
      ensures Depicts(m[..], reserved[..], Size, layers + [VersionArea(VersionWord(Version))])
    {
      var v := VersionBits(Version);
      ghost var before, free := m[..], reserved[..];
      ghost var layer := VersionArea(v);
      DrawStart(before, free, Size, layer);
      assert Steps(layer, Size) == 36;
      hide Drawn, Depicts, At, WordBit, VersionWord, Shade, Within, Steps;
      for i := 0 to 18
        invariant Drawn(before, free, m[..], reserved[..], Size, layer, 2 * i)
      {
        var dark := WordBit(v, i);
        var x, y := i / 3, Size - 11 + i % 3;
        VersionStep(v, Size, i, x, i % 3);
        MarkNext(reserved, x, y, dark, layer, 2 * i, before, free);
        MarkNext(reserved, y, x, dark, layer, 2 * i + 1, before, free);
      }
      LayerDrawn(before, free, m[..], reserved[..], Size, layers, layer);
    }

    /** Everything that is not data; the reserved map says which modules are off limits. */
    method Patterns() returns (reserved: array<bool>)
      requires Valid() && m[..] == Blank(Size)
      modifies m
      ensures fresh(reserved) && Fitting(reserved)
      ensures Depicts(m[..], reserved[..], Size, LayersOf(Version))
    {
      reserved := new bool[Size * Size](_ => false);
      BlankDepicts(m[..], reserved[..], Size);
      DrawFixed(reserved);
      DrawAlignments(reserved);
      ghost var layers := Aligned(Version);
      assert Timing in layers by {
        assert layers[3] == Timing;
      }
      hide Depicts, Aligned, VersionWord;
      CrossingReserved(Size, layers);
      DrawDarkModule(reserved, layers);
      DrawFormatArea(reserved, layers + [DarkModule]);
      layers := layers + [DarkModule] + [FormatArea];
      if Version >= 7 {
        DrawVersion(reserved, layers);
      }
    }

    /** The finder patterns with their separators, and the timing patterns. */
    method DrawFixed(reserved: array<bool>)
      requires Fitting(reserved) && Depicts(m[..], reserved[..], Size, [])
      modifies m, reserved
      ensures Depicts(m[..], reserved[..], Size, Fixed(Size))
    {
      hide Depicts;
      DrawFinder(reserved, 0, 0, []);
      assert [] + [Finder(0, 0)] == [Finder(0, 0)];
      DrawFinder(reserved, Size - 7, 0, [Finder(0, 0)]);
      DrawFinder(reserved, 0, Size - 7, [Finder(0, 0)] + [Finder(Size - 7, 0)]);
      DrawTiming(reserved, [Finder(0, 0)] + [Finder(Size - 7, 0)] + [Finder(0, Size - 7)]);
      assert [Finder(0, 0)] + [Finder(Size - 7, 0)] + [Finder(0, Size - 7)] + [Timing] == Fixed(Size);
    }

    /** The one module of the format area that no bit decides. */
    method DrawDarkModule(reserved: array<bool>, ghost layers: seq<Layer>)
      requires Fitting(reserved) && Depicts(m[..], reserved[..], Size, layers)
      modifies m, reserved
      ensures Depicts(m[..], reserved[..], Size, layers + [DarkModule])
    {
      hide Drawn, Depicts, At;
      ghost var before, free := m[..], reserved[..];
      DrawStart(before, free, Size, DarkModule);
      MarkNext(reserved, 8, Size - 8, true, DarkModule, 0, before, free);
      LayerDrawn(before, free, m[..], reserved[..], Size, layers, DarkModule);
    }

    // -- the data path -------------------------------------------------------------------

    method Place(codewords: seq<Byte>, reserved: array<bool>)
      requires Fitting(reserved)
      modifies m
      ensures Placed(old(m[..]), m[..], Size, reserved[..], Path(Size), StreamBits(codewords))
    {
      ghost var before := m[..];
      NothingPlaced(before, Size, reserved[..], StreamBits(codewords));
      var bit := 0;
      var up := true;
      var right := Size - 1;
      ghost var p := 0;
      PairStarts(Size);
      assert Odd(Size) && reserved != m;
      hide *;
      while right > 0
        invariant p <= Pairs(Size) && StartsPair(Size, right, up, p)
        invariant Placed(before, m[..], Size, reserved[..], PathUpTo(Size, p), StreamBits(codewords))
        invariant CountedTo(PathUpTo(Size, p), reserved[..], Size, bit)
        decreases right
      {
        ghost var start := right;
        PairRight(Size, right, up, p);
        if right == 6 {
          // No pair of columns includes the timing column.
          right := right - 1;
        }
        WalkEnds(Size, p);
        bit := PlacePair(codewords, reserved, right, up, bit, before, p);
        up := !up;
        right := right - 2;
        p := p + 1;
      }
      PairsDone(Size, right, up, p);
    }

    /** One pass over two columns. */
    method PlacePair(codewords: seq<Byte>, reserved: array<bool>, right: nat, up: bool, bit: nat,
                     ghost before: seq<bool>, ghost p: nat)
      returns (bit': nat)
      requires Fitting(reserved) && Odd(Size) && reserved != m && right > 0
      requires p < Pairs(Size) && right == Right(Size, p) && up == (p % 2 == 0)
      requires Placed(before, m[..], Size, reserved[..], Walked(Size, p, 0), StreamBits(codewords))
      requires CountedTo(Walked(Size, p, 0), reserved[..], Size, bit)
      modifies m
      ensures Placed(before, m[..], Size, reserved[..], Walked(Size, p, 2 * Size), StreamBits(codewords))
      ensures CountedTo(Walked(Size, p, 2 * Size), reserved[..], Size, bit')
    {
      hide *;
      bit' := bit;
      for i := 0 to Size
        invariant Placed(before, m[..], Size, reserved[..], Walked(Size, p, 2 * i), StreamBits(codewords))
        invariant CountedTo(Walked(Size, p, 2 * i), reserved[..], Size, bit')
      {
        var y := i;
        if up {
          y := Size - 1 - i;
        }
        for dx := 0 to 2
          invariant Placed(before, m[..], Size, reserved[..], Walked(Size, p, 2 * i + dx), StreamBits(codewords))
          invariant CountedTo(Walked(Size, p, 2 * i + dx), reserved[..], Size, bit')
        {
          StepIs(Size, p, i, dx);
          bit' := PlaceStep(codewords, reserved, right - dx, y, bit', before, p, 2 * i + dx);
        }
      }
    }

    /** One module of the path: a reserved one is passed over, any other takes the next bit. */
    method PlaceStep(codewords: seq<Byte>, reserved: array<bool>, x: nat, y: nat, bit: nat,
                     ghost before: seq<bool>, ghost p: nat, ghost k: nat)
      returns (bit': nat)
      requires Fitting(reserved) && p < Pairs(Size) && k < 2 * Size && Cell(x, y) == StepCell(Size, p, k)
      requires Placed(before, m[..], Size, reserved[..], Walked(Size, p, k), StreamBits(codewords))
      requires CountedTo(Walked(Size, p, k), reserved[..], Size, bit)
      modifies m
      ensures Placed(before, m[..], Size, reserved[..], Walked(Size, p, k + 1), StreamBits(codewords))
      ensures CountedTo(Walked(Size, p, k + 1), reserved[..], Size, bit')
    {
      WalkStep(Size, p, k);
      hide Placed, CountedTo, Walked, StepCell, BlockOf, Path, PathUpTo, Free, StreamBits;
      bit' := PlaceModule(codewords, reserved, x, y, bit, before, Walked(Size, p, k));
    }

    method PlaceModule(codewords: seq<Byte>, reserved: array<bool>, x: nat, y: nat, bit: nat,
                       ghost before: seq<bool>, ghost cells: seq<Cell>)
      returns (bit': nat)
      requires Fitting(reserved) && Inside(Size, Cell(x, y)) && Cell(x, y) !in cells
      requires Placed(before, m[..], Size, reserved[..], cells, StreamBits(codewords))
      requires CountedTo(cells, reserved[..], Size, bit)
      modifies m
      ensures Placed(before, m[..], Size, reserved[..], cells + [Cell(x, y)], StreamBits(codewords))
      ensures CountedTo(cells + [Cell(x, y)], reserved[..], Size, bit')
    {
      IndexInRange(Size, Cell(x, y));
      assert reserved[y * Size + x] == At(reserved[..], Size, Cell(x, y));
      ghost var bits := StreamBits(codewords);
      FreeSnoc(cells, Cell(x, y), reserved[..], Size);
      hide Placed, Free, At, Index, With, StreamBits, Coefficient, BlockOf;
      if reserved[y * Size + x] {
        PassOne(before, m[..], Size, reserved[..], cells, bits, Cell(x, y));
        return bit;
      }
      PlaceOne(before, m[..], Size, reserved[..], cells, bits, Cell(x, y));
      var dark := false;
      if bit < 8 * |codewords| {
        StreamBit(codewords, bit);
        dark := Coefficient(codewords[bit / 8], 7 - bit % 8);
      }
      Set(x, y, dark);
      bit' := bit + 1;
    }

    // -- the format information ------------------------------------------------------------

    method FormatInfo(mask: nat)
      requires Valid() && mask < 8
      modifies m
      ensures Formatted(old(m[..]), m[..], Size, mask)
    {
      hide FormatWord, WordBit, BlockOf, At, With, FormatCell, FormatCell2, MaskWord, Reduce;
      var bits := FormatBits(mask);
      ghost var before := m[..];
      FormatStart(before, Size, bits);
      for i := 0 to 15
        invariant FormattedTo(before, m[..], Size, bits, i)
      {
        ghost var m0 := m[..];
        FormatBit(i, WordBit(bits, i));
        FormatStep(before, m0, m[..], Size, bits, i);
      }
      FormatDone(before, m[..], Size, mask);
      Set(8, Size - 8, true); // the dark module, again
    }

    /** One bit into both copies. */
    method FormatBit(i: nat, dark: bool)
      requires Valid() && i < 15
      modifies m
      ensures m[..] == With(With(old(m[..]), Size, FormatCell(i), dark), Size, FormatCell2(Size, i), dark)
    {
      hide BlockOf, At, With;
      if i < 6 {
        Set(8, i, dark);
      } else if i == 6 {
        Set(8, 7, dark);
      } else if i == 7 {
        Set(8, 8, dark);
      } else if i == 8 {
        Set(7, 8, dark);
      } else {
        Set(14 - i, 8, dark);
      }
      if i < 8 {
        Set(Size - 1 - i, 8, dark);
      } else {
        Set(8, Size - 15 + i, dark);
      }
    }
  }

  lemma StepIs(size: nat, p: nat, i: nat, dx: nat)
    requires Odd(size) && p < Pairs(size) && i < size && dx < 2
    ensures StepCell(size, p, 2 * i + dx) == Cell(Right(size, p) - dx, if p % 2 == 0 then size - 1 - i else i)
  {
  }

  /** Where the column counter and the direction stand when pair p begins. */
  predicate StartsPair(size: nat, right: int, up: bool, p: nat) {
    && up == (p % 2 == 0)
    && right == if size - 1 - 2 * p >= 6 then size - 1 - 2 * p else size - 2 - 2 * p
  }

  lemma PairStarts(size: nat)
    requires size > 6
    ensures StartsPair(size, size - 1, true, 0)
  {
  }

  lemma PairRight(size: nat, right: int, up: bool, p: nat)
    requires Odd(size) && p <= Pairs(size) && StartsPair(size, right, up, p) && right > 0
    ensures var right' := if right == 6 then right - 1 else right;
      p < Pairs(size) && right' == Right(size, p) && right' > 0 && up == (p % 2 == 0)
      && StartsPair(size, right' - 2, !up, p + 1)
  {
  }

  lemma PairsDone(size: nat, right: int, up: bool, p: nat)
    requires Odd(size) && p <= Pairs(size) && StartsPair(size, right, up, p) && right <= 0
    ensures PathUpTo(size, p) == Path(size)
  {
    assert p == Pairs(size);
  }

  lemma NothingPlaced(m: seq<bool>, size: nat, reserved: seq<bool>, bits: seq<bool>)
    requires Odd(size) && Square(m, size) && Square(reserved, size)
    ensures Placed(m, m, size, reserved, PathUpTo(size, 0), bits)
    ensures CountedTo(PathUpTo(size, 0), reserved, size, 0)
  {
  }

  /** So many free modules have been passed. */
  predicate CountedTo(cells: seq<Cell>, reserved: seq<bool>, size: nat, bit: nat) {
    && Square(reserved, size) && (forall c :: c in cells ==> Inside(size, c))
    && bit == |Free(cells, reserved, size)|
  }

  /** Bits below n stand in both copies, and only the format area has been touched. */
  ghost predicate FormattedTo(before: seq<bool>, after: seq<bool>, size: nat, word: bv32, n: nat) {
    && Square(before, size) && Square(after, size) && size >= 21 && n <= 15
    && (forall i :: 0 <= i < n ==>
         At(after, size, FormatCell(i)) == WordBit(word, i) == At(after, size, FormatCell2(size, i)))
    && (forall c :: Inside(size, c) && !Covers(FormatArea, size, c.x, c.y) ==>
          At(after, size, c) == At(before, size, c))
  }

  lemma FormatStart(before: seq<bool>, size: nat, word: bv32)
    requires Square(before, size) && size >= 21
    ensures FormattedTo(before, before, size, word, 0)
  {
  }

  lemma FormatStep(before: seq<bool>, m0: seq<bool>, m2: seq<bool>, size: nat, word: bv32, i: nat)
    requires size >= 21 && i < 15 && FormattedTo(before, m0, size, word, i)
    requires m2 == With(With(m0, size, FormatCell(i), WordBit(word, i)), size, FormatCell2(size, i), WordBit(word, i))
    ensures FormattedTo(before, m2, size, word, i + 1)
  {
    hide At, With, WordBit;
    AtWith(m0, size, FormatCell(i), WordBit(word, i));
    AtWith(With(m0, size, FormatCell(i), WordBit(word, i)), size, FormatCell2(size, i), WordBit(word, i));
    forall j | 0 <= j < i + 1
      ensures At(m2, size, FormatCell(j)) == WordBit(word, j) == At(m2, size, FormatCell2(size, j))
    {
      CellsApart(size, i, j);
    }
  }

  /** No two bits of the format information share a module. */
  lemma CellsApart(size: nat, i: nat, j: nat)
    requires size >= 21 && i < 15 && j < 15
    ensures FormatCell(i) != FormatCell2(size, j)
    ensures i != j ==> FormatCell(i) != FormatCell(j) && FormatCell2(size, i) != FormatCell2(size, j)
  {
  }

  lemma FormatDone(before: seq<bool>, m: seq<bool>, size: nat, mask: nat)
    requires size >= 21 && mask < 8 && FormattedTo(before, m, size, FormatWord(mask), 15)
    ensures Formatted(before, With(m, size, Cell(8, size - 8), true), size, mask)
  {
    hide At, With, WordBit, FormatWord;
    AtWith(m, size, Cell(8, size - 8), true);
  }

  /** The format word: level M is 00, then the mask and its check bits. */
  method FormatBits(mask: nat) returns (word: bv32)
    requires mask < 8
    ensures word == FormatWord(mask)
  {
    hide MaskWord, Reduce, Raised, WithCheck;
    var data := MaskWord(mask);
    word := LongDivision(Raised(data, 10), 14, 10, 0x537);
    word := WithCheck(data, 10, word) ^ 0x5412;
  }

  /** The division loop of both check words. */
  method LongDivision(bits: bv32, top: nat, low: nat, generator: bv32) returns (word: bv32)
    requires low <= top < 32
    ensures word == Reduce(bits, top, low, generator)
  {
    hide Raised;
    word := bits;
    var i := top;
    while i >= low
      invariant low - 1 <= i <= top
      invariant Reduce(word, i, low, generator) == Reduce(bits, top, low, generator)
    {
      if word & Raised(1, i) != 0 {
        word := word ^ Raised(generator, i - low);
      }
      i := i - 1;
    }
  }

  /** Once the timing patterns are drawn, column 8 of the timing row is reserved. */
  lemma {:induction false} CrossingReserved(size: nat, layers: seq<Layer>)
    requires size >= 21 && Timing in layers
    ensures IsReserved(layers, size, 8, 6)
  {
    var last := |layers| - 1;
    if layers[last] != Timing {
      CrossingReserved(size, layers[..last]);
    }
  }

  lemma VersionStep(word: bv32, size: nat, i: nat, x: nat, y: nat)
    requires size >= 21 && i < 18 && i == 3 * x + y && y < 3
    ensures Shade(VersionArea(word), size, x, size - 11 + y) == WordBit(word, i)
    ensures Shade(VersionArea(word), size, size - 11 + y, x) == WordBit(word, i)
    ensures forall c :: Inside(size, c) ==>
      (Within(VersionArea(word), size, c, 2 * i + 1)
       <==> Within(VersionArea(word), size, c, 2 * i) || (c.x == x && c.y == size - 11 + y))
    ensures forall c :: Inside(size, c) ==>
      (Within(VersionArea(word), size, c, 2 * i + 2)
       <==> Within(VersionArea(word), size, c, 2 * i + 1) || (c.x == size - 11 + y && c.y == x))
  {
    hide WordBit;
  }

  /** The version and its check bits, by long division. */
  method VersionBits(version: nat) returns (word: bv32)
    requires version < 32
    ensures word == VersionWord(version)
  {
    hide Reduce, Raised, WithCheck;
    var data := version as bv32;
    word := LongDivision(Raised(data, 12), 17, 12, 0x1F25);
    word := WithCheck(data, 12, word);
  }

  lemma BlankDepicts(m: seq<bool>, r: seq<bool>, size: nat)
    requires m == Blank(size) && r == Blank(size)
    ensures Depicts(m, r, size, [])
  {
    forall c | Inside(size, c) ensures !At(m, size, c) && !At(r, size, c) {
      IndexInRange(size, c);
    }
  }

  /** Row and column 6 are left to the timing patterns. */
  lemma NoStep(m: seq<bool>, r: seq<bool>, m': seq<bool>, r': seq<bool>, size: nat)
    requires Drawn(m, r, m', r', size, FormatArea, 12) && size >= 21
    ensures Drawn(m, r, m', r', size, FormatArea, 14)
  {
    forall c | Inside(size, c) ensures Within(FormatArea, size, c, 12) == Within(FormatArea, size, c, 14) {
    }
    hide Within;
  }

  // -- masks -----------------------------------------------------------------------------

  method ApplyMask(m: array<bool>, reserved: array<bool>, size: nat, mask: nat)
    requires m != reserved && m.Length == size * size && reserved.Length == size * size
    modifies m
    ensures Masked(old(m[..]), m[..], reserved[..], size, mask)
  {
    ghost var before := m[..];
    for y := 0 to size
      invariant forall c :: Inside(size, c) ==>
        At(m[..], size, c) == FlippedAt(before, reserved[..], size, mask, c, y, 0)
    {
      for x := 0 to size
        invariant forall c :: Inside(size, c) ==>
          At(m[..], size, c) == FlippedAt(before, reserved[..], size, mask, c, y, x)
      {
        MaskModule(m, reserved, size, mask, x, y);
      }
    }
  }

  /** What the module at c is once rows above y, and the modules left of x in row y, are done. */
  ghost predicate FlippedAt(before: seq<bool>, reserved: seq<bool>, size: nat, mask: nat, c: Cell, y: nat, x: nat)
    requires Square(before, size) && Square(reserved, size) && Inside(size, c)
  {
    At(before, size, c)
    != ((c.y < y || (c.y == y && c.x < x)) && !At(reserved, size, c) && Flips(mask, c.x, c.y))
  }

  /** The body of the loops above. */
  method MaskModule(m: array<bool>, reserved: array<bool>, size: nat, mask: nat, x: nat, y: nat)
    requires m != reserved && m.Length == size * size && reserved.Length == size * size
    requires Inside(size, Cell(x, y))
    modifies m
    ensures forall c :: Inside(size, c) ==>
      At(m[..], size, c)
      == (At(old(m[..]), size, c) != (c == Cell(x, y) && !At(reserved[..], size, c) && Flips(mask, x, y)))
  {
    IndexInRange(size, Cell(x, y));
    var at := y * size + x;
    assert reserved[at] == At(reserved[..], size, Cell(x, y)) && m[at] == At(m[..], size, Cell(x, y));
    AtWith(m[..], size, Cell(x, y), !m[at]);
    if reserved[at] {
      return;
    }
    if Flips(mask, x, y) {
      ghost var was := m[..];
      m[at] := !m[at];
      assert m[..] == With(was, size, Cell(x, y), !was[at]);
    }
  }
}
