/** From a text to a finished symbol, and back. */
module Encoder {
  import opened Options
  import opened GaloisField
  import opened ReedSolomon
  import opened BitStream
  import opened Tables
  import opened Payload
  import opened Blocks
  import opened Grid
  import opened DataPath
  import opened Matrix
  import opened Drawing
  import opened Capacity
  import opened Symbol
  import opened Reader

  /**
    A correct symbol of the text under the mask: framed, naming its mask, and carrying a stream of
    codewords made from the text in which every block is a Reed-Solomon codeword.
    */
  ghost predicate IsSymbol(m: seq<bool>, text: seq<Byte>, version: nat, size: nat, mask: nat) {
    1 <= version <= 20 && IsSymbolOver(m, text, version, size, mask, LayersOf(version))
  }

  ghost predicate IsSymbolOver(m: seq<bool>, text: seq<Byte>, version: nat, size: nat, mask: nat,
                               layers: seq<Layer>)
    requires 1 <= version <= 20
  {
    && size == SizeOf(version) && Square(m, size) && mask < 8 && Fits(version, |text|)
    && Framed(m, size, layers, mask) && MaskOf(m, size) == mask
    && CarriesStream(m, text, version, size, Chart(layers, size))
  }

  ghost predicate CarriesStream(m: seq<bool>, text: seq<Byte>, version: nat, size: nat, reserved: seq<bool>)
    requires 1 <= version <= 20 && Fits(version, |text|)
    requires Odd(size) && size >= 21 && Square(m, size) && Square(reserved, size)
  {
    exists s ::
      && IsStream(s, text, version)
      && Codewords(m, size, reserved, |s.codewords|) == Some(s.codewords)
  }

  lemma StreamCount(s: Stream, text: seq<Byte>, version: nat)
    requires 1 <= version <= 20 && Fits(version, |text|) && IsStream(s, text, version)
    ensures |s.codewords| == BlockOf(version).Total()
  {
    hide IsStream, TextOf;
    StreamReads(s, text, version);
  }

  /** The stages of the encoder end in a correct symbol. */
  lemma StagesMakeSymbol(m0: seq<bool>, m1: seq<bool>, m2: seq<bool>, m3: seq<bool>, version: nat, size: nat,
                         reserved: seq<bool>, s: Stream, mask: nat, text: seq<Byte>)
    requires 1 <= version <= 20 && size == SizeOf(version) && Fits(version, |text|)
    requires Staged(m0, m1, m2, m3, size, reserved, LayersOf(version), s.codewords, mask)
    requires IsStream(s, text, version)
    ensures IsSymbol(m3, text, version, size, mask)
  {
    hide LayersOf, BlockOf, Depicts, Placed, Masked, Formatted, IsStream, Framed, MaskOf, Chart, TextOf,
         Codewords, ReadFree, Path, StreamBits, CountBits;
    ChartOf(LayersOf(version), size, m0, reserved);
    StreamCount(s, text, version);
    CodewordsFit(version, size, m0, reserved, m1);
    StagesFramed(m0, m1, m2, m3, size, reserved, LayersOf(version), s.codewords, mask);
    StagesRead(m0, m1, m2, m3, size, reserved, LayersOf(version), s.codewords, mask);
  }

  /** The first mask with the least score so far. */
  ghost predicate FirstBest(trials: seq<seq<bool>>, best: nat, size: nat, score: (nat, seq<bool>) -> nat) {
    && best < |trials|
    && (forall k :: 0 <= k < |trials| ==> score(size, trials[best]) <= score(size, trials[k]))
    && (forall k :: 0 <= k < best ==> score(size, trials[best]) < score(size, trials[k]))
  }

  /** The codewords of a text. */
  method MakeStream(gal: Galois, text: seq<Byte>, version: nat) returns (codewords: seq<Byte>, ghost s: Stream)
    requires gal.Valid() && 1 <= version <= 20 && Fits(version, |text|)
    ensures IsStream(s, text, version) && s.codewords == codewords
  {
    BlockFacts(version);
    hide BlockOf, IsLayout, IsSplit, Columns;
    var b := BlockOf(version);
    var bits := EncodeData(text, version, b.Data());
    ghost var pieces, ecs;
    codewords, pieces, ecs := Interleave(gal, bits, b);
    s := Stream(codewords, bits, pieces, ecs);
  }

  /** A reader that knows the modules and their number per side gets exactly the text. */
  lemma SymbolDecodes(m: seq<bool>, text: seq<Byte>, version: nat, size: nat, mask: nat)
    requires IsSymbol(m, text, version, size, mask)
    ensures Square(m, size) && Decode(m, size) == Some(text)
  {
    hide LayersOf, Framed, CarriesStream, Read, MaskOf, Chart, Fits;
    CarriedText(m, text, version, size, Chart(LayersOf(version), size));
    assert (size - 17) / 4 == version;
  }

  /** What carries a stream of the text reads as the text. */
  lemma CarriedText(m: seq<bool>, text: seq<Byte>, version: nat, size: nat, reserved: seq<bool>)
    requires 1 <= version <= 20 && Fits(version, |text|) && size == SizeOf(version)
    requires Square(m, size) && Square(reserved, size) && CarriesStream(m, text, version, size, reserved)
    ensures Read(m, version, size, reserved) == Some(text)
  {
    hide IsStream, Codewords, TextOf, BlockOf, Fits, Chart;
    var s :| IsStream(s, text, version) && Codewords(m, size, reserved, |s.codewords|) == Some(s.codewords);
    StreamReads(s, text, version);
  }

  /** Two symbols of different texts differ. */
  lemma SymbolsDiffer(m: seq<bool>, text: seq<Byte>, other: seq<Byte>, version: nat, size: nat, mask: nat, version': nat,
                      mask': nat)
    requires IsSymbol(m, text, version, size, mask) && IsSymbol(m, other, version', size, mask')
    ensures text == other
  {
    hide IsSymbol, Decode;
    SymbolDecodes(m, text, version, size, mask);
    SymbolDecodes(m, other, version', size, mask');
  }

  /** The text laid along the data path of a drawn symbol, before any mask. */
  ghost predicate Laid(drawn: seq<bool>, m: seq<bool>, reserved: seq<bool>, version: nat, size: nat,
                       s: Stream, text: seq<Byte>) {
    1 <= version <= 20 && LaidOver(drawn, m, reserved, version, size, s, text, LayersOf(version))
  }

  ghost predicate LaidOver(drawn: seq<bool>, m: seq<bool>, reserved: seq<bool>, version: nat, size: nat,
                           s: Stream, text: seq<Byte>, layers: seq<Layer>)
    requires 1 <= version <= 20
  {
    && Odd(size) && Fits(version, |text|) && IsStream(s, text, version)
    && Depicts(drawn, reserved, size, layers)
    && Placed(drawn, m, size, reserved, Path(size), StreamBits(s.codewords))
  }

  method Lay(gal: Galois, text: seq<Byte>, version: nat)
    returns (c: Code, reserved: array<bool>, ghost drawn: seq<bool>, ghost s: Stream)
    requires gal.Valid() && 1 <= version <= 20 && Fits(version, |text|)
    ensures c.Fitting(reserved) && c.Version == version && fresh(c) && fresh(c.m) && fresh(reserved)
    ensures Laid(drawn, c.m[..], reserved[..], version, c.Size, s, text)
  {
    hide BlockOf, LayersOf, IsStream, Placed, Depicts, Path, StreamBits, Blank, Fits;
    var codewords;
    codewords, s := MakeStream(gal, text, version);
    c := new Code(version);
    reserved := c.Patterns();
    drawn := c.m[..];
    c.Place(codewords, reserved);
  }

  lemma LaidMakesSymbol(drawn: seq<bool>, placed: seq<bool>, masked: seq<bool>, m: seq<bool>,
                        reserved: seq<bool>, version: nat, size: nat, s: Stream, text: seq<Byte>, mask: nat)
    requires Laid(drawn, placed, reserved, version, size, s, text) && mask < 8 && size == SizeOf(version)
    requires Square(placed, size) && Square(masked, size) && Square(m, size) && Square(reserved, size)
    requires Masked(placed, masked, reserved, size, mask) && Formatted(masked, m, size, mask)
    ensures IsSymbol(m, text, version, size, mask)
  {
    HasFormatArea(version);
    assert Square(drawn, size);
    hide LayersOf, BlockOf, Depicts, Placed, Masked, Formatted, IsStream, IsSymbol, Path, StreamBits, Fits;
    StagesMakeSymbol(drawn, placed, masked, m, version, size, reserved, s, mask, text);
  }

  method Copy(a: array<bool>) returns (b: array<bool>)
    ensures fresh(b) && b[..] == a[..]
  {
    b := new bool[a.Length];
    for i := 0 to a.Length
      invariant b[..i] == a[..i]
    {
      b[i] := a[i];
    }
  }

  /** Replaces the modules by a copy under the mask, with its format information. */
  method Try(c: Code, reserved: array<bool>, mask: nat, text: seq<Byte>, ghost drawn: seq<bool>, ghost s: Stream)
    requires c.Fitting(reserved) && mask < 8
    requires Laid(drawn, c.m[..], reserved[..], c.Version, c.Size, s, text)
    modifies c`m
    ensures fresh(c.m) && c.Fitting(reserved)
    ensures IsSymbol(c.m[..], text, c.Version, c.Size, mask)
  {
    hide BlockOf, Laid, IsSymbol, Masked, Formatted;
    ghost var placed := c.m[..];
    var trial := Copy(c.m);
    ApplyMask(trial, reserved, c.Size, mask);
    ghost var masked := trial[..];
    c.m := trial;
    c.FormatInfo(mask);
    LaidMakesSymbol(drawn, placed, masked, c.m[..], reserved[..], c.Version, c.Size, s, text, mask);
  }

  /**
    Builds the symbol for the text.  All eight masks are tried; every one of the trials is a
    correct symbol, and the first with the least score is kept.
    */
  method Encode(gal: Galois, text: seq<Byte>, score: (nat, seq<bool>) -> nat)
    returns (r: Option<Code>, ghost trials: seq<seq<bool>>, ghost best: nat)
    requires gal.Valid()
    ensures r.Some? <==> |text| <= 666
    ensures r.Some? ==> r.value.Valid() && forall v :: 1 <= v < r.value.Version ==> !Fits(v, |text|)
    ensures r.Some? ==> |trials| == 8 && FirstBest(trials, best, r.value.Size, score)
    ensures r.Some? ==> forall mask :: 0 <= mask < 8 ==>
      IsSymbol(trials[mask], text, r.value.Version, r.value.Size, mask)
    ensures r.Some? ==> r.value.m[..] == trials[best] && Decode(r.value.m[..], r.value.Size) == Some(text)
  {
    hide Decode;
    hide BlockOf, IsSymbol, Laid, Fits;
    trials, best := [], 0;
    var version := Fit(|text|);
    if version == None {
      return None, trials, best;
    }
    ghost var drawn, s;
    var c, reserved;
    c, reserved, drawn, s := Lay(gal, text, version.value);
    var bestScore: int := -1;
    var bestModules: array?<bool> := null;
    var saved := c.m;
    for mask := 0 to 8
      invariant c.m == saved && |trials| == mask && c.Fitting(reserved)
      invariant Laid(drawn, saved[..], reserved[..], c.Version, c.Size, s, text)
      invariant forall k :: 0 <= k < mask ==> IsSymbol(trials[k], text, c.Version, c.Size, k)
      invariant if mask == 0 then bestScore < 0
                else FirstBest(trials, best, c.Size, score) && bestScore == score(c.Size, trials[best])
                     && bestModules != null && fresh(bestModules) && bestModules[..] == trials[best]
                     && bestModules.Length == c.Size * c.Size
    {
      Try(c, reserved, mask, text, drawn, s);
      trials := trials + [c.m[..]];
      var points := score(c.Size, c.m[..]);
      if bestScore < 0 || points < bestScore {
        bestScore, best := points, mask;
        bestModules := Copy(c.m);
      }
      c.m := saved;
    }
    c.m := bestModules;
    SymbolDecodes(c.m[..], text, c.Version, c.Size, best);
    return Some(c), trials, best;
  }
}
