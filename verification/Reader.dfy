/**
  A reader of symbols, from the standard: it knows the function patterns of the version,
  reads the mask off the format information, walks the data path, undoes the mask and
  the interleaving and parses mode and count.
  */
module Reader {
  import opened Options
  import opened GaloisField
  import opened ReedSolomon
  import opened BitStream
  import opened Tables
  import opened Payload
  import opened Blocks
  import opened Grid
  import opened DataPath
  import opened Matrix
  import opened Drawing
  import opened Capacity
  import opened CheckWords
  import opened MaskPatterns

  /** The modules the layers set aside, as a map. */
  function Chart(layers: seq<Layer>, size: nat): (r: seq<bool>)
    ensures Square(r, size)
  {
    seq(size * size, i requires 0 <= i < size * size => IsReserved(layers, size, i % size, i / size))
  }

  lemma ChartOf(layers: seq<Layer>, size: nat, m: seq<bool>, r: seq<bool>)
    requires Depicts(m, r, size, layers)
    ensures r == Chart(layers, size)
  {
    ReservedIs(m, r, size, layers);
    hide IsReserved, Depicts;
    forall i | 0 <= i < size * size ensures r[i] == Chart(layers, size)[i] {
      ChartAt(layers, size, r, i);
    }
  }

  lemma ChartAt(layers: seq<Layer>, size: nat, r: seq<bool>, i: nat)
    requires Square(r, size) && i < size * size
    requires forall c :: Inside(size, c) ==> At(r, size, c) == IsReserved(layers, size, c.x, c.y)
    ensures r[i] == Chart(layers, size)[i]
  {
    hide IsReserved;
    RowOf(i, size);
    var c := Cell(i % size, i / size);
    assert At(r, size, c) == IsReserved(layers, size, c.x, c.y);
  }

  /** The mask named by the first copy of the format information. */
  function MaskOf(m: seq<bool>, size: nat): (mask: nat)
    requires Square(m, size) && size >= 21
    ensures mask < 8
  {
    (if At(m, size, Cell(2, 8)) then 0 else 4)
    + (if At(m, size, Cell(3, 8)) then 2 else 0)
    + (if At(m, size, Cell(4, 8)) then 0 else 1)
  }

  /** The free modules along the path, with the mask's pattern undone. */
  function DataBits(m: seq<bool>, size: nat, reserved: seq<bool>, mask: nat): (bits: seq<bool>)
    requires Odd(size) && Square(m, size) && Square(reserved, size) && mask < 8
  {
    PathIsBijection(size);
    var free := Free(Path(size), reserved, size);
    FreeMembers(Path(size), reserved, size);
    seq(|free|, k requires 0 <= k < |free| => At(m, size, free[k]) != InPattern(mask, free[k].x, free[k].y))
  }

  /** The first codewords the symbol carries. */
  function Codewords(m: seq<bool>, size: nat, reserved: seq<bool>, total: nat): Option<seq<Byte>>
    requires Odd(size) && size >= 21 && Square(m, size) && Square(reserved, size)
  {
    var bits := DataBits(m, size, reserved, MaskOf(m, size));
    if |bits| < 8 * total then None else Some(Pack(bits[..8 * total], total))
  }

  /** The text in the codewords of a version. */
  ghost function TextOf(codewords: seq<Byte>, version: nat): Option<seq<Byte>>
    requires 1 <= version <= 20
  {
    match Undo(codewords, BlockOf(version))
    case None => None
    case Some(data) => Parse(StreamBits(data), CountBits(version))
  }

  /** The text a symbol of the version carries, outside the modules set aside. */
  ghost function Read(m: seq<bool>, version: nat, size: nat, reserved: seq<bool>): Option<seq<Byte>>
    requires 1 <= version <= 20 && size == SizeOf(version) && Square(m, size) && Square(reserved, size)
  {
    match Codewords(m, size, reserved, BlockOf(version).Total())
    case None => None
    case Some(codewords) => TextOf(codewords, version)
  }

  /** What a reader makes of a symbol: the size gives the version. */
  ghost function Decode(m: seq<bool>, size: nat): Option<seq<Byte>>
    requires Square(m, size)
  {
    if 21 <= size <= 97 && size % 4 == 1 then
      var version := (size - 17) / 4;
      Read(m, version, size, Chart(LayersOf(version), size))
    else None
  }

  // -- what the encoder's stages leave for the reader -----------------------------------------

  /** The codewords of a symbol, the data in them, and the blocks they were interleaved from. */
  datatype Stream = Stream(codewords: seq<Byte>, data: seq<Byte>, pieces: seq<Piece>, ecs: seq<Piece>)

  /** The data is the text's layout, cut into blocks; each has its correction codewords; all are interleaved. */
  ghost predicate IsStream(s: Stream, text: seq<Byte>, version: nat)
    requires 1 <= version <= 20 && Fits(version, |text|)
  {
    var b := BlockOf(version);
    && |s.data| == b.Data() && IsLayout(StreamBits(s.data), text, CountBits(version), b.Data())
    && IsSplit(s.data, b, s.pieces, s.ecs)
    && s.codewords == Columns(s.pieces, Longest(b)) + Columns(s.ecs, b.ec)
  }

  lemma StreamReads(s: Stream, text: seq<Byte>, version: nat)
    requires 1 <= version <= 20 && Fits(version, |text|) && IsStream(s, text, version)
    ensures |s.codewords| == BlockOf(version).Total()
    ensures TextOf(s.codewords, version) == Some(text)
  {
    hide BlockOf, IsSplit, IsLayout, Undo, Columns, Parse;
    CountFits(version, |text|);
    InterleaveUndone(s.data, BlockOf(version), s.pieces, s.ecs, s.codewords);
    CodewordCount(s.data, BlockOf(version), s.pieces, s.ecs);
    ParseLayout(StreamBits(s.data), text, CountBits(version), BlockOf(version).Data());
  }

  /** Undoing the mask of the finished symbol shows the modules as they were placed. */
  lemma Unmasked(m1: seq<bool>, m2: seq<bool>, m3: seq<bool>, size: nat, reserved: seq<bool>, mask: nat)
    requires Odd(size) && size >= 21 && mask < 8
    requires Square(m1, size) && Square(m2, size) && Square(m3, size) && Square(reserved, size)
    requires Masked(m1, m2, reserved, size, mask) && Formatted(m2, m3, size, mask)
    requires forall c :: Inside(size, c) && (Covers(FormatArea, size, c.x, c.y) || c == Cell(8, size - 8)) ==>
      At(reserved, size, c)
    ensures DataBits(m3, size, reserved, mask) == ReadFree(m1, size, reserved)
  {
    PathIsBijection(size);
    FreeMembers(Path(size), reserved, size);
    hide Path, Free, At, Flips, InPattern, FormatWord, WordBit, Covers;
    var free := Free(Path(size), reserved, size);
    forall k | 0 <= k < |free|
      ensures (At(m3, size, free[k]) != InPattern(mask, free[k].x, free[k].y)) == At(m1, size, free[k])
    {
      assert free[k] in free;
      FlipsPattern(mask, free[k].x, free[k].y);
    }
  }

  /** The format area and the dark module are reserved. */
  lemma {:induction false} FormatReserved(layers: seq<Layer>, size: nat, c: Cell, layer: Layer)
    requires layer in layers && Covers(layer, size, c.x, c.y)
    ensures IsReserved(layers, size, c.x, c.y)
  {
    var last := |layers| - 1;
    if layers[last] != layer {
      FormatReserved(layers[..last], size, c, layer);
    }
  }

  lemma HasFormatArea(version: nat)
    requires 1 <= version <= 20
    ensures FormatArea in LayersOf(version) && DarkModule in LayersOf(version)
  {
    hide Aligned, VersionWord;
    var layers := Aligned(version) + [DarkModule];
    assert DarkModule in layers && FormatArea in layers + [FormatArea];
  }

  /** The finished symbol carries the format word of its mask, and with it the mask. */
  lemma MaskNamed(before: seq<bool>, m: seq<bool>, size: nat, mask: nat)
    requires Square(before, size) && Square(m, size) && size >= 21 && mask < 8
    requires Formatted(before, m, size, mask)
    ensures MaskOf(m, size) == mask
  {
    var word := FormatWord(mask);
    assert At(m, size, FormatCell(12)) == WordBit(word, 12);
    assert At(m, size, FormatCell(11)) == WordBit(word, 11);
    assert At(m, size, FormatCell(10)) == WordBit(word, 10);
    MaskBits(mask);
    hide WordBit, At, FormatWord;
  }

  lemma MaskBits(mask: nat)
    requires mask < 8
    ensures var word := FormatWord(mask);
      mask == (if WordBit(word, 12) then 0 else 4) + (if WordBit(word, 11) then 2 else 0)
              + (if WordBit(word, 10) then 0 else 1)
  {
    FormatWords(mask);
    Powers();
    hide FormatWord, Raised;
  }

  // -- the finished symbol ---------------------------------------------------------------------

  /** The patterns are where they belong, and both copies of the format information name the mask. */
  ghost predicate Framed(m: seq<bool>, size: nat, layers: seq<Layer>, mask: nat)
    requires Square(m, size) && size >= 21 && mask < 8
  {
    && (forall i :: 0 <= i < 15 ==>
         At(m, size, FormatCell(i)) == WordBit(FormatTable(mask), i) == At(m, size, FormatCell2(size, i)))
    && At(m, size, Cell(8, size - 8))
    && (forall c :: Inside(size, c) && IsReserved(layers, size, c.x, c.y) && !Covers(FormatArea, size, c.x, c.y)
         ==> At(m, size, c) == Picture(layers, size, c.x, c.y))
  }

  /** A symbol and the stages it went through: patterns, data, mask, format information. */
  ghost predicate Staged(m0: seq<bool>, m1: seq<bool>, m2: seq<bool>, m3: seq<bool>, size: nat,
                         reserved: seq<bool>, layers: seq<Layer>, codewords: seq<Byte>, mask: nat) {
    && Odd(size) && size >= 21 && mask < 8 && FormatArea in layers && DarkModule in layers
    && Square(m0, size) && Square(m1, size) && Square(m2, size) && Square(m3, size) && Square(reserved, size)
    && Depicts(m0, reserved, size, layers)
    && Placed(m0, m1, size, reserved, Path(size), StreamBits(codewords))
    && Masked(m1, m2, reserved, size, mask) && Formatted(m2, m3, size, mask)
  }

  /** Placing and masking leave the reserved modules alone. */
  lemma StagesFramed(m0: seq<bool>, m1: seq<bool>, m2: seq<bool>, m3: seq<bool>, size: nat,
                     reserved: seq<bool>, layers: seq<Layer>, codewords: seq<Byte>, mask: nat)
    requires Staged(m0, m1, m2, m3, size, reserved, layers, codewords, mask)
    ensures Square(m3, size) && size >= 21 && mask < 8 && Framed(m3, size, layers, mask)
  {
    FormatWords(mask);
    FreeMembers(Path(size), reserved, size);
    hide At, Free, Path, Picture, IsReserved, Flips, FormatWord, FormatTable, WordBit, FormatCell, FormatCell2;
    forall c | Inside(size, c) && IsReserved(layers, size, c.x, c.y) && !Covers(FormatArea, size, c.x, c.y)
      ensures At(m3, size, c) == Picture(layers, size, c.x, c.y)
    {
      assert At(reserved, size, c);
      assert c !in Free(Path(size), reserved, size);
    }
  }

  lemma FormatSetAside(m: seq<bool>, reserved: seq<bool>, size: nat, layers: seq<Layer>)
    requires FormatArea in layers && DarkModule in layers && size >= 21 && Depicts(m, reserved, size, layers)
    ensures forall c :: Inside(size, c) && (Covers(FormatArea, size, c.x, c.y) || c == Cell(8, size - 8)) ==>
      At(reserved, size, c)
  {
    ReservedIs(m, reserved, size, layers);
    hide At, Depicts, IsReserved;
    forall c | Inside(size, c) && (Covers(FormatArea, size, c.x, c.y) || c == Cell(8, size - 8))
      ensures At(reserved, size, c)
    {
      FormatReserved(layers, size, c, if Covers(FormatArea, size, c.x, c.y) then FormatArea else DarkModule);
    }
  }

  lemma StagesUnmasked(m0: seq<bool>, m1: seq<bool>, m2: seq<bool>, m3: seq<bool>, size: nat,
                       reserved: seq<bool>, layers: seq<Layer>, codewords: seq<Byte>, mask: nat)
    requires Staged(m0, m1, m2, m3, size, reserved, layers, codewords, mask)
    requires 8 * |codewords| <= |ReadFree(m1, size, reserved)|
    ensures MaskOf(m3, size) == mask
    ensures |DataBits(m3, size, reserved, mask)| >= 8 * |codewords|
    ensures DataBits(m3, size, reserved, mask)[..8 * |codewords|] == StreamBits(codewords)
  {
    FormatSetAside(m0, reserved, size, layers);
    hide Depicts, Placed, Masked, Formatted, At, Path, ReadFree, DataBits, StreamBits, MaskOf, Covers;
    Unmasked(m1, m2, m3, size, reserved, mask);
    MaskNamed(m2, m3, size, mask);
    ReadPlaced(m0, m1, size, reserved, StreamBits(codewords));
  }

  /** And what was placed can be read again. */
  lemma StagesRead(m0: seq<bool>, m1: seq<bool>, m2: seq<bool>, m3: seq<bool>, size: nat,
                   reserved: seq<bool>, layers: seq<Layer>, codewords: seq<Byte>, mask: nat)
    requires Staged(m0, m1, m2, m3, size, reserved, layers, codewords, mask)
    requires 8 * |codewords| <= |ReadFree(m1, size, reserved)|
    ensures MaskOf(m3, size) == mask
    ensures Codewords(m3, size, reserved, |codewords|) == Some(codewords)
  {
    StagesUnmasked(m0, m1, m2, m3, size, reserved, layers, codewords, mask);
    PackStream(codewords);
    hide Staged, DataBits, StreamBits, Pack, ReadFree, MaskOf;
  }
}
