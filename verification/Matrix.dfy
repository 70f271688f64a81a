/**
  The symbol itself: the function patterns, the data path, the masks and the format
  information.
  */
module Matrix {
  import opened GaloisField
  import opened BitStream
  import opened Tables
  import opened Grid
  import opened DataPath

  // -- function patterns -----------------------------------------------------------------
  //
  // The patterns are drawn one over the other.  A layer says which modules one drawing
  // step touches and how it leaves them; the picture is decided by the last layer.

  datatype Layer = Finder(ox: int, oy: int) | Timing | AlignmentAt(cx: nat, cy: nat)
                 | DarkModule | FormatArea | VersionArea(word: bv32)

  predicate Covers(layer: Layer, size: nat, u: int, v: int) {
    match layer
    case Finder(ox, oy) => ox - 1 <= u <= ox + 7 && oy - 1 <= v <= oy + 7
    case Timing => (v == 6 && 8 <= u < size - 8) || (u == 6 && 8 <= v < size - 8)
    case AlignmentAt(cx, cy) => cx - 2 <= u <= cx + 2 && cy - 2 <= v <= cy + 2
    case DarkModule => u == 8 && v == size - 8
    case FormatArea =>
      || (u == 8 && v != 6 && (0 <= v <= 8 || size - 8 <= v < size))
      || (v == 8 && u != 6 && (0 <= u <= 8 || size - 8 <= u < size))
    case VersionArea(_) =>
      || (0 <= u < 6 && size - 11 <= v < size - 8)
      || (0 <= v < 6 && size - 11 <= u < size - 8)
  }

  predicate Shade(layer: Layer, size: nat, u: int, v: int) {
    match layer
    case Finder(ox, oy) => FinderDark(u - ox, v - oy)
    case Timing => if v == 6 then u % 2 == 0 else v % 2 == 0
    case AlignmentAt(cx, cy) =>
      || u - cx == -2 || u - cx == 2 || v - cy == -2 || v - cy == 2
      || (u == cx && v == cy)
    case DarkModule => true
    case FormatArea => false
    case VersionArea(word) =>
      if 0 <= u < 6 && size - 11 <= v < size - 8 then WordBit(word, 3 * u + (v - (size - 11)))
      else if 0 <= v < 6 && size - 11 <= u < size - 8 then WordBit(word, 3 * v + (u - (size - 11)))
      else false
  }

  /** The finder's own picture: a dark frame, a light ring and a dark core; light around it. */
  predicate FinderDark(dx: int, dy: int) {
    && 0 <= dx <= 6 && 0 <= dy <= 6
    && (dx == 0 || dx == 6 || dy == 0 || dy == 6 || (2 <= dx <= 4 && 2 <= dy <= 4))
  }

  predicate WordBit(word: bv32, i: int) {
    0 <= i < 32 && word & Raised(1, i) != 0
  }

  /** The word shifted up by n bits. */
  function Raised(word: bv32, n: nat): bv32 {
    if n == 0 then word else Raised(word, n - 1) << 1
  }

  predicate IsReserved(layers: seq<Layer>, size: nat, u: int, v: int) {
    layers != []
    && (Covers(layers[|layers| - 1], size, u, v) || IsReserved(layers[..|layers| - 1], size, u, v))
  }

  predicate Picture(layers: seq<Layer>, size: nat, u: int, v: int) {
    layers != []
    && if Covers(layers[|layers| - 1], size, u, v) then Shade(layers[|layers| - 1], size, u, v)
       else Picture(layers[..|layers| - 1], size, u, v)
  }

  predicate OnFinder(size: nat, cx: nat, cy: nat) {
    || (cx <= 8 && cy <= 8)
    || (cx + 9 >= size && cy <= 8)
    || (cx <= 8 && cy + 9 >= size)
  }

  /** The alignment patterns of the first n centres of the row cy. */
  function AlignmentRow(size: nat, centres: seq<nat>, cy: nat, n: nat): seq<Layer>
    requires n <= |centres|
  {
    if n == 0 then []
    else
      AlignmentRow(size, centres, cy, n - 1)
      + (if OnFinder(size, centres[n - 1], cy) then [] else [AlignmentAt(centres[n - 1], cy)])
  }

  /** And of the first n rows. */
  function AlignmentRows(size: nat, centres: seq<nat>, n: nat): seq<Layer>
    requires n <= |centres|
  {
    if n == 0 then []
    else AlignmentRows(size, centres, n - 1) + AlignmentRow(size, centres, centres[n - 1], |centres|)
  }

  /** One step of long division: the aligned generator is subtracted where the top bit is set. */
  function Cut(bits: bv32, top: bv32, aligned: bv32): bv32 {
    if bits & top != 0 then bits ^ aligned else bits
  }

  /** Long division of bits i..low by the generator, which is aligned to its lowest position. */
  function Reduce(bits: bv32, i: int, low: nat, generator: bv32): bv32
    requires low <= i + 1 <= 32
    decreases i
  {
    if i < low then bits
    else Reduce(Cut(bits, Raised(1, i), Raised(generator, i - low)), i - 1, low, generator)
  }

  /** Data bits followed by the check bits of a word with n of them. */
  function WithCheck(data: bv32, n: nat, check: bv32): bv32 {
    Raised(data, n) | check
  }

  /** The version and its twelve check bits. */
  function VersionWord(version: nat): bv32
    requires version < 32
  {
    var data := version as bv32;
    WithCheck(data, 12, Reduce(Raised(data, 12), 17, 12, 0x1F25))
  }

  /** The three finders and the timing patterns. */
  function Fixed(size: nat): seq<Layer> {
    [Finder(0, 0), Finder(size - 7, 0), Finder(0, size - 7), Timing]
  }

  function Aligned(version: nat): seq<Layer>
    requires 1 <= version <= 20
  {
    Fixed(SizeOf(version)) + AlignmentRows(SizeOf(version), Alignment(version), |Alignment(version)|)
  }

  function LayersOf(version: nat): (layers: seq<Layer>)
    requires 1 <= version <= 20
  {
    var common := Aligned(version) + [DarkModule] + [FormatArea];
    if version >= 7 then common + [VersionArea(VersionWord(version))] else common
  }

  // -- masks -----------------------------------------------------------------------------

  /** The eight mask conditions of section 7.8.2 of ISO/IEC 18004. */
  predicate Flips(mask: nat, x: nat, y: nat) {
    if mask == 0 then (y + x) % 2 == 0
    else if mask == 1 then y % 2 == 0
    else if mask == 2 then x % 3 == 0
    else if mask == 3 then (y + x) % 3 == 0
    else if mask == 4 then (y / 2 + x / 3) % 2 == 0
    else if mask == 5 then (y * x) % 2 + (y * x) % 3 == 0
    else if mask == 6 then ((y * x) % 2 + (y * x) % 3) % 2 == 0
    else if mask == 7 then ((y + x) % 2 + (y * x) % 3) % 2 == 0
    else false
  }

  /** Data modules are flipped where the mask says so; reserved ones are left alone. */
  ghost predicate Masked(before: seq<bool>, after: seq<bool>, reserved: seq<bool>, size: nat, mask: nat)
    requires Square(before, size) && Square(after, size) && Square(reserved, size)
  {
    forall c :: Inside(size, c) ==>
      At(after, size, c)
      == (At(before, size, c) != (!At(reserved, size, c) && Flips(mask, c.x, c.y)))
  }

  /** Masking twice with the same mask gives the original symbol. */
  lemma MaskTwice(a: seq<bool>, b: seq<bool>, c: seq<bool>, reserved: seq<bool>, size: nat, mask: nat)
    requires Square(a, size) && Square(b, size) && Square(c, size) && Square(reserved, size)
    requires Masked(a, b, reserved, size, mask) && Masked(b, c, reserved, size, mask)
    ensures a == c
  {
    hide At, Flips;
    forall d | Inside(size, d) ensures At(a, size, d) == At(c, size, d) {
    }
    SameModules(a, c, size);
  }

  // -- format information ------------------------------------------------------------------

  function MaskWord(mask: nat): bv32
    requires mask < 8
  {
    if mask < 4 then (if mask < 2 then (if mask == 0 then 0 else 1) else (if mask == 2 then 2 else 3))
    else (if mask < 6 then (if mask == 4 then 4 else 5) else (if mask == 6 then 6 else 7))
  }

  /** Level M and the mask, their ten check bits, and the fixed pattern on top. */
  function FormatWord(mask: nat): bv32
    requires mask < 8
  {
    var data := MaskWord(mask);
    WithCheck(data, 10, Reduce(Raised(data, 10), 14, 10, 0x537)) ^ 0x5412
  }

  /** Where bit i of the format word goes at the top left. */
  function FormatCell(i: nat): Cell
    requires i < 15
  {
    if i < 6 then Cell(8, i)
    else if i == 6 then Cell(8, 7)
    else if i == 7 then Cell(8, 8)
    else if i == 8 then Cell(7, 8)
    else Cell(14 - i, 8)
  }

  /** And where it goes a second time, at the top right and the bottom left. */
  function FormatCell2(size: nat, i: nat): Cell
    requires i < 15 && size >= 21
  {
    if i < 8 then Cell(size - 1 - i, 8) else Cell(8, size - 15 + i)
  }

  /** The format word stands in both copies, the dark module is dark, the rest is untouched. */
  ghost predicate Formatted(before: seq<bool>, after: seq<bool>, size: nat, mask: nat)
    requires Square(before, size) && Square(after, size) && size >= 21 && mask < 8
  {
    && (forall i :: 0 <= i < 15 ==> At(after, size, FormatCell(i)) == WordBit(FormatWord(mask), i))
    && (forall i :: 0 <= i < 15 ==> At(after, size, FormatCell2(size, i)) == WordBit(FormatWord(mask), i))
    && At(after, size, Cell(8, size - 8))
    && (forall c :: Inside(size, c) && !Covers(FormatArea, size, c.x, c.y) && c != Cell(8, size - 8) ==>
          At(after, size, c) == At(before, size, c))
  }
}
