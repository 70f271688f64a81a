/**
  Room for the codewords: the modules the function patterns leave free are enough for
  every version, by covering the reserved ones with rectangles that hardly overlap.
  */
module Capacity {
  import opened Tables
  import opened Grid
  import opened DataPath
  import opened Matrix
  import opened Drawing

  // -- counting cells in rectangles ---------------------------------------------------------

  datatype Rect = Rect(x: int, y: int, w: nat, h: nat) {
    predicate Has(c: Cell) {
      x <= c.x < x + w && y <= c.y < y + h
    }
  }

  function Area(rects: seq<Rect>): nat {
    if rects == [] then 0 else Area(rects[..|rects| - 1]) + rects[|rects| - 1].w * rects[|rects| - 1].h
  }

  predicate Covered(rects: seq<Rect>, c: Cell) {
    exists r :: r in rects && r.Has(c)
  }

  function Select(cells: seq<Cell>, p: Cell -> bool, keep: bool): seq<Cell> {
    if cells == [] then []
    else
      var last := cells[|cells| - 1];
      Select(cells[..|cells| - 1], p, keep) + (if p(last) == keep then [last] else [])
  }

  lemma {:induction false} SelectSome(cells: seq<Cell>, p: Cell -> bool, keep: bool)
    ensures forall c :: c in Select(cells, p, keep) ==> c in cells && p(c) == keep
    ensures Distinct(cells) ==> Distinct(Select(cells, p, keep))
    ensures |Select(cells, p, keep)| + |Select(cells, p, !keep)| == |cells|
  {
    if cells != [] {
      SelectSome(cells[..|cells| - 1], p, keep);
    }
  }

  lemma FirstCell(cells: seq<Cell>)
    requires cells != []
    ensures cells[0] in cells
  {
  }

  lemma FirstTwo(cells: seq<Cell>)
    requires |cells| > 1 && Distinct(cells)
    ensures cells[0] in cells && cells[1] in cells && cells[0] != cells[1]
  {
  }

  /** Distinct cells in a rectangle are no more than its area. */
  lemma {:induction false} FewInRect(cells: seq<Cell>, r: Rect)
    requires Distinct(cells) && forall c :: c in cells ==> r.Has(c)
    ensures |cells| <= r.w * r.h
    decreases r.w + r.h
  {
    if r.w == 0 || r.h == 0 {
      if cells != [] {
        FirstCell(cells);
      }
    } else if r.h > 1 {
      TwoParts(cells, r.(h := r.h - 1), Rect(r.x, r.y + r.h - 1, r.w, 1));
      assert r.w * r.h == r.w * (r.h - 1) + r.w;
    } else if r.w > 1 {
      TwoParts(cells, r.(w := r.w - 1), Rect(r.x + r.w - 1, r.y, 1, 1));
    } else if |cells| > 1 {
      FirstTwo(cells);
    }
  }

  lemma TwoParts(cells: seq<Cell>, a: Rect, b: Rect)
    requires Distinct(cells) && forall c :: c in cells ==> a.Has(c) || b.Has(c)
    requires b.w + b.h <= a.w + a.h
    ensures |cells| <= a.w * a.h + b.w * b.h
    decreases a.w + a.h + 1, 0
  {
    var p := c => a.Has(c);
    SelectSome(cells, p, true);
    SelectSome(cells, p, false);
    FewInRect(Select(cells, p, true), a);
    FewInRect(Select(cells, p, false), b);
  }

  lemma {:induction false} FewCovered(cells: seq<Cell>, rects: seq<Rect>)
    requires Distinct(cells) && forall c :: c in cells ==> Covered(rects, c)
    ensures |cells| <= Area(rects)
    decreases |rects|
  {
    if rects == [] {
      if cells != [] {
        FirstCell(cells);
      }
    } else {
      var last, front := rects[|rects| - 1], rects[..|rects| - 1];
      var p := c => last.Has(c);
      SelectSome(cells, p, true);
      SelectSome(cells, p, false);
      FewInRect(Select(cells, p, true), last);
      forall c | c in Select(cells, p, false) ensures Covered(front, c) {
        var r :| r in rects && r.Has(c);
        assert r in front;
      }
      FewCovered(Select(cells, p, false), front);
    }
  }

  lemma {:induction false} AreaConcat(a: seq<Rect>, b: seq<Rect>)
    ensures Area(a + b) == Area(a) + Area(b)
  {
    if b == [] {
      assert a + b == a;
    } else {
      AreaConcat(a, b[..|b| - 1]);
      assert (a + b)[..|a + b| - 1] == a + b[..|b| - 1];
    }
  }

  /** What is reserved leaves the rest of the path free. */
  lemma {:induction false} FreeOrTaken(cells: seq<Cell>, reserved: seq<bool>, size: nat) returns (taken: seq<Cell>)
    requires Square(reserved, size) && forall c :: c in cells ==> Inside(size, c)
    ensures |taken| + |Free(cells, reserved, size)| == |cells|
    ensures forall c :: c in taken ==> c in cells && Inside(size, c) && At(reserved, size, c)
    ensures Distinct(cells) ==> Distinct(taken)
  {
    hide At;
    taken := [];
    if cells != [] {
      var last := cells[|cells| - 1];
      taken := FreeOrTaken(cells[..|cells| - 1], reserved, size);
      assert cells == cells[..|cells| - 1] + [last];
      if At(reserved, size, last) {
        taken := taken + [last];
      }
    }
  }

  lemma {:induction false} PathLength(size: nat, p: nat)
    requires Odd(size) && p <= Pairs(size)
    ensures |PathUpTo(size, p)| == 2 * size * p
  {
    if p > 0 {
      PathLength(size, p - 1);
    }
  }

  // -- the rectangles of the patterns ----------------------------------------------------------

  /** What a layer covers outside column 6, clipped to the symbol; the timing row is counted once. */
  function RectsOf(layer: Layer, size: nat): seq<Rect>
    requires size >= 21
  {
    match layer
    case Finder(ox, oy) =>
      if ox == 0 then
        (if oy == 0 then [Rect(0, 0, 6, 8), Rect(7, 0, 1, 8)] else [Rect(0, size - 8, 6, 8), Rect(7, size - 8, 1, 8)])
      else [Rect(size - 8, 0, 8, 8)]
    case Timing => [Rect(8, 6, size - 16, 1)]
    case AlignmentAt(cx, cy) =>
      if cx == 6 then [Rect(4, cy - 2, 2, 5), Rect(7, cy - 2, 2, 5)]
      else if cy == 6 then [Rect(cx - 2, 4, 5, 2), Rect(cx - 2, 7, 5, 2)]
      else [Rect(cx - 2, cy - 2, 5, 5)]
    case DarkModule => [Rect(8, size - 8, 1, 1)]
    case FormatArea => [Rect(8, 0, 1, 6), Rect(8, 7, 1, 2), Rect(0, 8, 6, 1), Rect(7, 8, 1, 1),
                        Rect(size - 8, 8, 8, 1), Rect(8, size - 7, 1, 7)]
    case VersionArea(_) => [Rect(0, size - 11, 6, 3), Rect(size - 11, 0, 3, 6)]
  }

  function RectsFor(layers: seq<Layer>, size: nat): seq<Rect>
    requires size >= 21
  {
    if layers == [] then [] else RectsFor(layers[..|layers| - 1], size) + RectsOf(layers[|layers| - 1], size)
  }

  /** The layers that really occur. */
  predicate Regular(layer: Layer, size: nat) {
    match layer
    case Finder(ox, oy) => (ox == 0 && oy == 0) || (ox == size - 7 && oy == 0) || (ox == 0 && oy == size - 7)
    case AlignmentAt(cx, cy) => cy == 6 ==> 10 <= cx && cx + 2 < size - 8
    case _ => true
  }

  lemma LayerCovered(layer: Layer, size: nat, c: Cell)
    requires size >= 21 && Regular(layer, size) && Inside(size, c) && c.x != 6
    requires Covers(layer, size, c.x, c.y)
    ensures Covered(RectsOf(layer, size), c) || Covered([Rect(8, 6, size - 16, 1)], c)
            || Covered([Rect(8, size - 8, 1, 1)], c)
  {
    var rects := RectsOf(layer, size);
    assert rects[0] in rects;
    match layer
    case Finder(ox, oy) => assert ox == 0 ==> rects[1] in rects;
    case FormatArea =>
      assert rects[1] in rects && rects[2] in rects && rects[3] in rects && rects[4] in rects && rects[5] in rects;
      assert Rect(8, 6, size - 16, 1) in [Rect(8, 6, size - 16, 1)];
      assert Rect(8, size - 8, 1, 1) in [Rect(8, size - 8, 1, 1)];
    case AlignmentAt(cx, cy) =>
      assert Rect(8, 6, size - 16, 1) in [Rect(8, 6, size - 16, 1)];
      assert cx == 6 || cy == 6 ==> rects[1] in rects;
    case VersionArea(_) => assert rects[1] in rects;
    case _ =>
  }

  lemma {:induction false} RectsMember(layers: seq<Layer>, size: nat, layer: Layer)
    requires size >= 21 && layer in layers
    ensures forall r :: r in RectsOf(layer, size) ==> r in RectsFor(layers, size)
  {
    hide RectsOf;
    var last := |layers| - 1;
    if layers[last] != layer {
      RectsMember(layers[..last], size, layer);
    }
  }

  lemma {:induction false} ReservedBySome(layers: seq<Layer>, size: nat, u: int, v: int) returns (layer: Layer)
    requires IsReserved(layers, size, u, v)
    ensures layer in layers && Covers(layer, size, u, v)
  {
    var last := |layers| - 1;
    if Covers(layers[last], size, u, v) {
      layer := layers[last];
    } else {
      layer := ReservedBySome(layers[..last], size, u, v);
    }
  }

  lemma ReservedCovered(layers: seq<Layer>, size: nat, c: Cell)
    requires size >= 21 && Inside(size, c) && c.x != 6 && IsReserved(layers, size, c.x, c.y)
    requires Timing in layers && DarkModule in layers && forall layer :: layer in layers ==> Regular(layer, size)
    ensures Covered(RectsFor(layers, size), c)
  {
    var layer := ReservedBySome(layers, size, c.x, c.y);
    LayerCovered(layer, size, c);
    RectsMember(layers, size, layer);
    RectsMember(layers, size, Timing);
    RectsMember(layers, size, DarkModule);
  }

  lemma WholePath(size: nat)
    requires Odd(size)
    ensures |Path(size)| == size * (size - 1)
  {
    PathLength(size, Pairs(size));
    assert 2 * Pairs(size) == size - 1;
    assert 2 * size * Pairs(size) == size * (2 * Pairs(size));
  }

  /** So the path has at least this much room. */
  lemma Room(layers: seq<Layer>, reserved: seq<bool>, size: nat)
    requires Odd(size) && size >= 21 && Square(reserved, size)
    requires Timing in layers && DarkModule in layers && forall layer :: layer in layers ==> Regular(layer, size)
    requires forall c :: Inside(size, c) ==> At(reserved, size, c) == IsReserved(layers, size, c.x, c.y)
    ensures forall c :: c in Path(size) ==> Inside(size, c)
    ensures |Free(Path(size), reserved, size)| >= size * (size - 1) - Area(RectsFor(layers, size))
  {
    PathIsBijection(size);
    WholePath(size);
    hide At, IsReserved, Free, Path, Regular, RectsFor, Area, Covered, Distinct;
    var taken := FreeOrTaken(Path(size), reserved, size);
    forall c | c in taken ensures Covered(RectsFor(layers, size), c) {
      ReservedCovered(layers, size, c);
    }
    FewCovered(taken, RectsFor(layers, size));
  }

  // -- the versions ----------------------------------------------------------------------------

  lemma {:induction false} RectsConcat(a: seq<Layer>, b: seq<Layer>, size: nat)
    requires size >= 21
    ensures Area(RectsFor(a + b, size)) == Area(RectsFor(a, size)) + Area(RectsFor(b, size))
  {
    hide RectsOf;
    if b == [] {
      assert a + b == a;
    } else {
      var last := |b| - 1;
      RectsConcat(a, b[..last], size);
      assert (a + b)[..|a + b| - 1] == a + b[..last];
      AreaConcat(RectsFor(a + b[..last], size), RectsOf(b[last], size));
      AreaConcat(RectsFor(b[..last], size), RectsOf(b[last], size));
    }
  }

  lemma OneLayer(layer: Layer, size: nat)
    requires size >= 21
    ensures Area(RectsFor([layer], size)) == Area(RectsOf(layer, size))
  {
    hide RectsOf;
    assert [layer][..0] == [];
    assert [] + RectsOf(layer, size) == RectsOf(layer, size);
  }

  lemma OneArea(r: Rect)
    ensures Area([r]) == r.w * r.h
  {
    assert [r][..0] == [];
  }

  lemma TwoArea(r: Rect, s: Rect)
    ensures Area([r, s]) == r.w * r.h + s.w * s.h
  {
    OneArea(r);
    OneArea(s);
    AreaConcat([r], [s]);
    assert [r] + [s] == [r, s];
  }

  lemma FixedArea(size: nat)
    requires size >= 21
    ensures Area(RectsFor(Fixed(size), size)) == 160 + size
  {
    var a, b, c := Finder(0, 0), Finder(size - 7, 0), Finder(0, size - 7);
    RectsConcat([a], [b], size);
    RectsConcat([a] + [b], [c], size);
    RectsConcat([a] + [b] + [c], [Timing], size);
    assert [a] + [b] + [c] + [Timing] == Fixed(size);
    OneLayer(a, size);
    OneLayer(b, size);
    OneLayer(c, size);
    OneLayer(Timing, size);
    TwoArea(Rect(0, 0, 6, 8), Rect(7, 0, 1, 8));
    OneArea(Rect(size - 8, 0, 8, 8));
    TwoArea(Rect(0, size - 8, 6, 8), Rect(7, size - 8, 1, 8));
    OneArea(Rect(8, 6, size - 16, 1));
  }

  lemma FormatAreas(size: nat)
    requires size >= 21
    ensures Area(RectsOf(FormatArea, size)) == 30 && Area(RectsOf(DarkModule, size)) == 1
    ensures forall word :: Area(RectsOf(VersionArea(word), size)) == 36
  {
    var r := RectsOf(FormatArea, size);
    TwoArea(r[0], r[1]);
    TwoArea(r[2], r[3]);
    TwoArea(r[4], r[5]);
    AreaConcat(r[..2], r[2..4]);
    AreaConcat(r[..2] + r[2..4], r[4..]);
    assert r[..2] == [r[0], r[1]] && r[2..4] == [r[2], r[3]] && r[4..] == [r[4], r[5]];
    assert r == r[..2] + r[2..4] + r[4..];
    OneArea(Rect(8, size - 8, 1, 1));
    TwoArea(Rect(0, size - 11, 6, 3), Rect(size - 11, 0, 3, 6));
  }

  function PatternArea(size: nat, cx: nat, cy: nat): nat {
    if OnFinder(size, cx, cy) then 0 else if cx == 6 || cy == 6 then 20 else 25
  }

  function RowArea(size: nat, centres: seq<nat>, cy: nat, n: nat): nat
    requires n <= |centres|
  {
    if n == 0 then 0 else RowArea(size, centres, cy, n - 1) + PatternArea(size, centres[n - 1], cy)
  }

  function RowsArea(size: nat, centres: seq<nat>, n: nat): nat
    requires n <= |centres|
  {
    if n == 0 then 0 else RowsArea(size, centres, n - 1) + RowArea(size, centres, centres[n - 1], |centres|)
  }

  lemma OnePattern(size: nat, cx: nat, cy: nat)
    requires size >= 21
    ensures var layers := if OnFinder(size, cx, cy) then [] else [AlignmentAt(cx, cy)];
      Area(RectsFor(layers, size)) == PatternArea(size, cx, cy)
  {
    OneLayer(AlignmentAt(cx, cy), size);
    TwoArea(Rect(4, cy - 2, 2, 5), Rect(7, cy - 2, 2, 5));
    TwoArea(Rect(cx - 2, 4, 5, 2), Rect(cx - 2, 7, 5, 2));
    OneArea(Rect(cx - 2, cy - 2, 5, 5));
  }

  lemma {:induction false} RowAreaIs(size: nat, centres: seq<nat>, cy: nat, n: nat)
    requires size >= 21 && n <= |centres|
    ensures Area(RectsFor(AlignmentRow(size, centres, cy, n), size)) == RowArea(size, centres, cy, n)
  {
    hide OnFinder, PatternArea, RectsFor, Area;
    if n == 0 {
      NoArea(size);
    } else {
      RowAreaIs(size, centres, cy, n - 1);
      OnePattern(size, centres[n - 1], cy);
      RectsConcat(AlignmentRow(size, centres, cy, n - 1),
                  if OnFinder(size, centres[n - 1], cy) then [] else [AlignmentAt(centres[n - 1], cy)], size);
    }
  }

  lemma NoArea(size: nat)
    requires size >= 21
    ensures Area(RectsFor([], size)) == 0
  {
  }

  lemma {:induction false} RowsAreaIs(size: nat, centres: seq<nat>, n: nat)
    requires size >= 21 && n <= |centres|
    ensures Area(RectsFor(AlignmentRows(size, centres, n), size)) == RowsArea(size, centres, n)
  {
    hide RowArea, RectsFor, Area, AlignmentRow;
    if n == 0 {
      NoArea(size);
    } else {
      RowsAreaIs(size, centres, n - 1);
      RowAreaIs(size, centres, centres[n - 1], |centres|);
      RectsConcat(AlignmentRows(size, centres, n - 1), AlignmentRow(size, centres, centres[n - 1], |centres|), size);
    }
  }

  /** The area of all patterns of a version. */
  function PatternsArea(version: nat): nat
    requires 1 <= version <= 20
  {
    var size, centres := SizeOf(version), Alignment(version);
    191 + size + RowsArea(size, centres, |centres|) + (if version >= 7 then 36 else 0)
  }

  lemma LayersArea(version: nat)
    requires 1 <= version <= 20
    ensures Area(RectsFor(LayersOf(version), SizeOf(version))) == PatternsArea(version)
  {
    hide RectsFor, Area, Alignment, AlignmentRows, RowsArea, RectsOf, Fixed, VersionWord;
    var size, centres := SizeOf(version), Alignment(version);
    FixedArea(size);
    RowsAreaIs(size, centres, |centres|);
    RectsConcat(Fixed(size), AlignmentRows(size, centres, |centres|), size);
    var layers := Aligned(version);
    FormatAreas(size);
    OneLayer(DarkModule, size);
    OneLayer(FormatArea, size);
    OneLayer(VersionArea(VersionWord(version)), size);
    RectsConcat(layers, [DarkModule], size);
    RectsConcat(layers + [DarkModule], [FormatArea], size);
    RectsConcat(layers + [DarkModule] + [FormatArea], [VersionArea(VersionWord(version))], size);
  }

  lemma {:induction false} RowRegular(size: nat, centres: seq<nat>, cy: nat, n: nat)
    requires n <= |centres| && CentresApart(size, centres)
    ensures forall layer :: layer in AlignmentRow(size, centres, cy, n) ==> Regular(layer, size)
  {
    if n > 0 {
      RowRegular(size, centres, cy, n - 1);
    }
  }

  /** A centre beside the timing row is clear of the finders. */
  predicate CentresApart(size: nat, centres: seq<nat>) {
    forall i :: 0 <= i < |centres| ==> OnFinder(size, centres[i], 6) || 10 <= centres[i] < size - 10
  }

  lemma {:induction false} RowsRegular(size: nat, centres: seq<nat>, n: nat)
    requires n <= |centres| && CentresApart(size, centres)
    ensures forall layer :: layer in AlignmentRows(size, centres, n) ==> Regular(layer, size)
  {
    hide CentresApart, AlignmentRow, Regular;
    if n > 0 {
      RowsRegular(size, centres, n - 1);
      RowRegular(size, centres, centres[n - 1], |centres|);
    }
  }

  lemma CentresOf(version: nat)
    requires 1 <= version <= 20
    ensures CentresApart(SizeOf(version), Alignment(version))
  {
  }

  lemma LayersRegular(version: nat)
    requires 1 <= version <= 20
    ensures Timing in LayersOf(version) && DarkModule in LayersOf(version)
    ensures forall layer :: layer in LayersOf(version) ==> Regular(layer, SizeOf(version))
  {
    var size, centres := SizeOf(version), Alignment(version);
    CentresOf(version);
    RowsRegular(size, centres, |centres|);
    hide Alignment, CentresApart, VersionWord;
    var layers := Aligned(version) + [DarkModule];
    assert Aligned(version)[3] == Timing && Timing in Aligned(version);
    assert DarkModule in layers;
  }

  lemma RowStep(size: nat, centres: seq<nat>, cy: nat, n: nat)
    requires n < |centres|
    ensures RowArea(size, centres, cy, n + 1) == RowArea(size, centres, cy, n) + PatternArea(size, centres[n], cy)
    ensures RowArea(size, centres, cy, 0) == 0
  {
  }

  lemma RowsStep(size: nat, centres: seq<nat>, n: nat)
    requires n < |centres|
    ensures RowsArea(size, centres, n + 1)
         == RowsArea(size, centres, n) + RowArea(size, centres, centres[n], |centres|)
    ensures RowsArea(size, centres, 0) == 0
  {
  }

  lemma RowSum(size: nat, centres: seq<nat>, cy: nat)
    requires 2 <= |centres| <= 4
    ensures RowArea(size, centres, cy, |centres|)
         == PatternArea(size, centres[0], cy) + PatternArea(size, centres[1], cy)
            + (if |centres| > 2 then PatternArea(size, centres[2], cy) else 0)
            + (if |centres| > 3 then PatternArea(size, centres[3], cy) else 0)
  {
    RowStep(size, centres, cy, 0);
    RowStep(size, centres, cy, 1);
    if |centres| > 2 {
      RowStep(size, centres, cy, 2);
    }
    if |centres| > 3 {
      RowStep(size, centres, cy, 3);
    }
    hide *;
  }

  /** The first and last centres meet the finders, the others do not. */
  lemma AreaOfCentres(size: nat, centres: seq<nat>)
    requires 2 <= |centres| <= 4 && size >= 25
    requires centres[0] == 6 && centres[|centres| - 1] == size - 7
    requires forall i :: 1 <= i < |centres| - 1 ==> 8 < centres[i] < size - 9
    ensures RowsArea(size, centres, |centres|)
         == if |centres| == 2 then 25 else if |centres| == 3 then 140 else 305
  {
    RowsStep(size, centres, 0);
    RowsStep(size, centres, 1);
    RowSum(size, centres, centres[0]);
    RowSum(size, centres, centres[1]);
    if |centres| > 2 {
      RowsStep(size, centres, 2);
      RowSum(size, centres, centres[2]);
    }
    if |centres| > 3 {
      RowsStep(size, centres, 3);
      RowSum(size, centres, centres[3]);
    }
    hide RowsArea, RowArea;
  }

  lemma AlignmentArea(version: nat)
    requires 1 <= version <= 20
    ensures var centres := Alignment(version);
      RowsArea(SizeOf(version), centres, |centres|)
      == if version == 1 then 0 else if version < 7 then 25 else if version < 14 then 140 else 305
  {
    hide RowsArea;
    var size, centres := SizeOf(version), Alignment(version);
    if version == 1 {
      NoRows(size);
    } else {
      AreaOfCentres(size, centres);
    }
  }

  lemma NoRows(size: nat)
    ensures RowsArea(size, [], 0) == 0
  {
  }

  /** The codewords of a version, in bits. */
  lemma EnoughRoom(version: nat)
    requires 1 <= version <= 20
    ensures SizeOf(version) * (SizeOf(version) - 1) - PatternsArea(version) >= 8 * BlockOf(version).Total()
  {
    AlignmentArea(version);
    BitsOf(version);
    SquareOf(version);
    hide RowsArea, BlockOf, Alignment;
  }

  /** All modules outside column 6. */
  lemma SquareOf(version: nat)
    ensures SizeOf(version) * (SizeOf(version) - 1) == 16 * (version * version) + 132 * version + 272
  {
  }

  lemma BitsOf(version: nat)
    requires 1 <= version <= 20
    ensures version * version == [1, 4, 9, 16, 25, 36, 49, 64, 81, 100, 121, 144, 169, 196, 225, 256, 289, 324,
                                  361, 400][version - 1]
    ensures BlockOf(version).Total() == [26, 44, 70, 100, 134, 172, 196, 242, 292, 346, 404, 466, 532,
                                         581, 655, 733, 815, 901, 991, 1085][version - 1]
  {
    BlockSizes(version);
  }

  lemma ReservedIs(m: seq<bool>, reserved: seq<bool>, size: nat, layers: seq<Layer>)
    requires Depicts(m, reserved, size, layers)
    ensures forall c :: Inside(size, c) ==> At(reserved, size, c) == IsReserved(layers, size, c.x, c.y)
  {
    hide At, IsReserved, Picture;
  }

  /** The free modules of the path carry all codewords of the version. */
  lemma CodewordsFit(version: nat, size: nat, drawn: seq<bool>, reserved: seq<bool>, m: seq<bool>)
    requires 1 <= version <= 20 && size == SizeOf(version) && Square(m, size)
    requires Square(drawn, size) && Square(reserved, size) && Depicts(drawn, reserved, size, LayersOf(version))
    ensures Odd(size) && |ReadFree(m, size, reserved)| >= 8 * BlockOf(version).Total()
  {
    hide LayersOf, PatternsArea, RectsFor, Area, BlockOf, IsReserved, Free, Path, Picture, At, Regular;
    LayersRegular(version);
    LayersArea(version);
    EnoughRoom(version);
    ReservedIs(drawn, reserved, size, LayersOf(version));
    Room(LayersOf(version), reserved, size);
  }
}
