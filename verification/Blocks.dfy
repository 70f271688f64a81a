/**
  Splitting the data codewords into blocks, completing each block, and reading the
  blocks column by column; and the reader that deals the codewords back.
  */
module Blocks {
  import opened Options
  import opened GaloisField
  import opened ReedSolomon
  import opened Tables

  type Piece = seq<Byte>

  // -- columns -------------------------------------------------------------------------

  /** Codeword i of every piece that is long enough, in the order of the pieces. */
  function Column(pieces: seq<Piece>, i: nat): seq<Byte> {
    if pieces == [] then []
    else
      var last := pieces[|pieces| - 1];
      Column(pieces[..|pieces| - 1], i) + (if i < |last| then [last[i]] else [])
  }

  /** The first n columns, one after the other. */
  function Columns(pieces: seq<Piece>, n: nat): seq<Byte> {
    if n == 0 then [] else Columns(pieces, n - 1) + Column(pieces, n - 1)
  }

  // -- the reader ------------------------------------------------------------------------

  /** How many of the first k blocks have a codeword in column i. */
  function Taller(lens: seq<nat>, k: nat, i: nat): nat
    requires k <= |lens|
  {
    if k == 0 then 0 else Taller(lens, k - 1, i) + (if i < lens[k - 1] then 1 else 0)
  }

  /** Where column i starts in the stream. */
  function Start(lens: seq<nat>, i: nat): nat {
    if i == 0 then 0 else Start(lens, i - 1) + Taller(lens, |lens|, i - 1)
  }

  function Lengths(pieces: seq<Piece>): (lens: seq<nat>)
    ensures |lens| == |pieces|
  {
    seq(|pieces|, k requires 0 <= k < |pieces| => |pieces[k]|)
  }

  /** The stream holds a codeword for every place the reader looks at. */
  ghost predicate Readable(stream: seq<Byte>, lens: seq<nat>) {
    forall k, i :: 0 <= k < |lens| && 0 <= i < lens[k] ==> Start(lens, i) + Taller(lens, k, i) < |stream|
  }

  /** Codeword i of block k comes after all shorter columns and the earlier blocks of its own. */
  ghost function Deal(stream: seq<Byte>, lens: seq<nat>): (pieces: seq<Piece>)
    requires Readable(stream, lens)
    ensures |pieces| == |lens|
  {
    seq(|lens|, k requires 0 <= k < |lens| =>
      seq(lens[k], i requires 0 <= i < lens[k] => stream[Start(lens, i) + Taller(lens, k, i)]))
  }

  lemma {:induction false} ColumnAt(pieces: seq<Piece>, m: nat, i: nat, k: nat)
    requires k < m <= |pieces|
    ensures |Column(pieces[..m], i)| == Taller(Lengths(pieces), m, i)
    ensures i < |pieces[k]| ==>
      && Taller(Lengths(pieces), k, i) < Taller(Lengths(pieces), m, i)
      && Column(pieces[..m], i)[Taller(Lengths(pieces), k, i)] == pieces[k][i]
  {
    assert pieces[..m][..m - 1] == pieces[..m - 1];
    if m == 1 {
      assert Column(pieces[..0], i) == [];
    } else if k == m - 1 {
      ColumnAt(pieces, m - 1, i, k - 1);
    } else {
      ColumnAt(pieces, m - 1, i, k);
    }
  }

  lemma WholeColumnAt(pieces: seq<Piece>, i: nat, k: nat)
    requires k < |pieces| && i < |pieces[k]|
    ensures |Column(pieces, i)| == Taller(Lengths(pieces), |pieces|, i)
    ensures Taller(Lengths(pieces), k, i) < |Column(pieces, i)|
    ensures Column(pieces, i)[Taller(Lengths(pieces), k, i)] == pieces[k][i]
  {
    assert pieces[..|pieces|] == pieces;
    ColumnAt(pieces, |pieces|, i, k);
    hide *;
  }

  lemma WholeColumn(pieces: seq<Piece>, i: nat)
    ensures |Column(pieces, i)| == Taller(Lengths(pieces), |pieces|, i)
  {
    assert pieces[..|pieces|] == pieces;
    if pieces != [] {
      ColumnAt(pieces, |pieces|, i, 0);
    }
  }

  lemma {:induction false} ColumnsLength(pieces: seq<Piece>, n: nat)
    ensures |Columns(pieces, n)| == Start(Lengths(pieces), n)
  {
    if n > 0 {
      ColumnsLength(pieces, n - 1);
      WholeColumn(pieces, n - 1);
      hide Column, Taller, Lengths;
    }
  }

  lemma {:induction false} ColumnsAt(pieces: seq<Piece>, n: nat, i: nat, k: nat)
    requires k < |pieces| && i < |pieces[k]| && i < n
    ensures |Columns(pieces, n)| == Start(Lengths(pieces), n)
    ensures var at := Start(Lengths(pieces), i) + Taller(Lengths(pieces), k, i);
            at < Start(Lengths(pieces), n) && Columns(pieces, n)[at] == pieces[k][i]
  {
    hide Column, Taller, Lengths;
    ColumnsLength(pieces, n - 1);
    ColumnsLength(pieces, n);
    if i < n - 1 {
      ColumnsAt(pieces, n - 1, i, k);
    } else {
      WholeColumnAt(pieces, i, k);
    }
  }

  /** Dealing undoes reading by columns, whatever follows in the stream. */
  lemma DealColumns(pieces: seq<Piece>, n: nat, rest: seq<Byte>)
    requires forall k :: 0 <= k < |pieces| ==> |pieces[k]| <= n
    ensures Readable(Columns(pieces, n) + rest, Lengths(pieces))
    ensures Deal(Columns(pieces, n) + rest, Lengths(pieces)) == pieces
  {
    hide Columns, Start, Taller, Column;
    var lens, stream := Lengths(pieces), Columns(pieces, n) + rest;
    forall k, i | 0 <= k < |lens| && 0 <= i < lens[k]
      ensures Start(lens, i) + Taller(lens, k, i) < |stream|
      ensures stream[Start(lens, i) + Taller(lens, k, i)] == pieces[k][i]
    {
      ColumnsAt(pieces, n, i, k);
    }
    forall k | 0 <= k < |pieces| ensures Deal(stream, lens)[k] == pieces[k] {
      DealtPiece(stream, lens, pieces[k], k);
    }
  }

  lemma DealtPiece(stream: seq<Byte>, lens: seq<nat>, piece: Piece, k: nat)
    requires Readable(stream, lens) && k < |lens| && lens[k] == |piece|
    requires forall i :: 0 <= i < |piece| ==>
      Start(lens, i) + Taller(lens, k, i) < |stream| && stream[Start(lens, i) + Taller(lens, k, i)] == piece[i]
    ensures Deal(stream, lens)[k] == piece
  {
    hide Start, Taller;
  }

  // -- cutting into blocks -----------------------------------------------------------------

  function Joined(pieces: seq<Piece>): seq<Byte> {
    if pieces == [] then [] else Joined(pieces[..|pieces| - 1]) + pieces[|pieces| - 1]
  }

  /** The lengths of the data blocks of a version. */
  function DataLengths(b: Block): (lens: seq<nat>)
    ensures |lens| == b.n1 + b.n2
  {
    seq(b.n1 + b.n2, k => if k < b.n1 then b.d1 else b.d2)
  }

  function CorrectionLengths(b: Block): (lens: seq<nat>)
    ensures |lens| == b.n1 + b.n2
  {
    seq(b.n1 + b.n2, _ => b.ec)
  }

  function Longest(b: Block): nat {
    if b.d2 > b.d1 then b.d2 else b.d1
  }

  lemma JoinedSnoc(pieces: seq<Piece>, p: Piece)
    ensures Joined(pieces + [p]) == Joined(pieces) + p
  {
    assert (pieces + [p])[..|pieces|] == pieces;
  }

  /** Blocks of the given lengths that join to the data, and their correction codewords. */
  ghost predicate IsCut(data: seq<Byte>, lens: seq<nat>, ec: nat, pieces: seq<Piece>, ecs: seq<Piece>) {
    && Lengths(pieces) == lens && |ecs| == |pieces| && Joined(pieces) == data
    && forall k :: 0 <= k < |pieces| ==> |ecs[k]| == ec && IsCodeword(pieces[k], ecs[k])
  }

  /** The completed blocks of the data. */
  ghost predicate IsSplit(data: seq<Byte>, b: Block, pieces: seq<Piece>, ecs: seq<Piece>) {
    IsCut(data, DataLengths(b), b.ec, pieces, ecs)
  }

  method Cut(gal: Galois, data: seq<Byte>, b: Block) returns (pieces: seq<Piece>, ecs: seq<Piece>)
    requires gal.Valid() && |data| == b.Data() && b.ec <= 512
    ensures IsSplit(data, b, pieces, ecs)
  {
    ghost var lens := DataLengths(b);
    pieces, ecs := [], [];
    var at := 0;
    NothingCut(data, lens, b.ec);
    assert |data| == b.n1 * b.d1 + b.n2 * b.d2;
    hide *;
    for k := 0 to b.n1
      invariant at == k * b.d1 && at <= |data| && k <= |lens|
      invariant IsCut(data[..at], lens[..k], b.ec, pieces, ecs)
    {
      RoomLeft(k, b.n1, b.d1);
      FirstLengths(b, k);
      pieces, ecs := AddPiece(gal, data, at, b.d1, b.ec, pieces, ecs, lens[..k]);
      assert lens[..k] + [b.d1] == lens[..k + 1];
      at := at + b.d1;
    }
    for k := 0 to b.n2
      invariant at == b.n1 * b.d1 + k * b.d2 && at <= |data| && b.n1 + k <= |lens|
      invariant IsCut(data[..at], lens[..b.n1 + k], b.ec, pieces, ecs)
    {
      RoomLeft(k, b.n2, b.d2);
      FirstLengths(b, b.n1 + k);
      pieces, ecs := AddPiece(gal, data, at, b.d2, b.ec, pieces, ecs, lens[..b.n1 + k]);
      assert lens[..b.n1 + k] + [b.d2] == lens[..b.n1 + k + 1];
      at := at + b.d2;
    }
    assert data[..at] == data && lens[..b.n1 + b.n2] == lens;
    WholeCut(data, b, pieces, ecs);
  }

  lemma NothingCut(data: seq<Byte>, lens: seq<nat>, ec: nat)
    ensures IsCut(data[..0], lens[..0], ec, [], [])
  {
  }

  lemma WholeCut(data: seq<Byte>, b: Block, pieces: seq<Piece>, ecs: seq<Piece>)
    requires IsCut(data, DataLengths(b), b.ec, pieces, ecs)
    ensures IsSplit(data, b, pieces, ecs)
  {
  }

  lemma FirstLengths(b: Block, k: nat)
    requires k < b.n1 + b.n2
    ensures DataLengths(b)[k] == if k < b.n1 then b.d1 else b.d2
  {
  }

  lemma RoomLeft(k: nat, n: nat, d: nat)
    requires k < n
    ensures k * d + d <= n * d && (k + 1) * d == k * d + d
  {
    assert (k + 1) * d <= n * d;
  }

  method AddPiece(gal: Galois, data: seq<Byte>, at: nat, len: nat, ec: nat,
                  pieces: seq<Piece>, ecs: seq<Piece>, ghost lens: seq<nat>)
    returns (pieces': seq<Piece>, ecs': seq<Piece>)
    requires gal.Valid() && at + len <= |data| && ec <= 512
    requires IsCut(data[..at], lens, ec, pieces, ecs)
    ensures IsCut(data[..at + len], lens + [len], ec, pieces', ecs')
  {
    var d := data[at..at + len];
    var c := gal.Correction(d, ec);
    pieces', ecs' := pieces + [d], ecs + [c];
    JoinedSnoc(pieces, d);
    assert data[..at] + d == data[..at + len];
    hide IsCodeword, Joined;
  }

  method Interleave(gal: Galois, data: seq<Byte>, b: Block)
    returns (out: seq<Byte>, ghost pieces: seq<Piece>, ghost ecs: seq<Piece>)
    requires gal.Valid() && |data| == b.Data() && b.ec <= 512
    ensures IsSplit(data, b, pieces, ecs)
    ensures out == Columns(pieces, Longest(b)) + Columns(ecs, b.ec)
    ensures |out| == b.Total() && Undo(out, b) == Some(data)
  {
    var ps, es := Cut(gal, data, b);
    pieces, ecs := ps, es;
    var longest := b.d1;
    if b.d2 > longest {
      longest := b.d2;
    }
    var first := TakeColumns(ps, longest);
    var second := TakeColumns(es, b.ec);
    out := first + second;
    InterleaveUndone(data, b, pieces, ecs, out);
    CodewordCount(data, b, pieces, ecs);
    hide *;
  }

  method TakeColumns(pieces: seq<Piece>, n: nat) returns (out: seq<Byte>)
    ensures out == Columns(pieces, n)
  {
    hide Column;
    out := [];
    for i := 0 to n
      invariant out == Columns(pieces, i)
    {
      var column := TakeColumn(pieces, i);
      out := out + column;
    }
  }

  method TakeColumn(pieces: seq<Piece>, i: nat) returns (column: seq<Byte>)
    ensures column == Column(pieces, i)
  {
    column := [];
    for k := 0 to |pieces|
      invariant column == Column(pieces[..k], i)
    {
      assert pieces[..k + 1][..k] == pieces[..k];
      if i < |pieces[k]| {
        column := column + [pieces[k][i]];
      }
    }
    assert pieces[..|pieces|] == pieces;
  }

  /** What a reader gets out of the codewords: the data blocks, dealt and joined. */
  ghost function Undo(codewords: seq<Byte>, b: Block): Option<seq<Byte>> {
    if Readable(codewords, DataLengths(b)) then Some(Joined(Deal(codewords, DataLengths(b)))) else None
  }

  /** The blocks come back as they were cut, and so does the data. */
  lemma InterleaveUndone(data: seq<Byte>, b: Block, pieces: seq<Piece>, ecs: seq<Piece>, out: seq<Byte>)
    requires IsSplit(data, b, pieces, ecs)
    requires out == Columns(pieces, Longest(b)) + Columns(ecs, b.ec)
    ensures Undo(out, b) == Some(data)
    ensures Deal(out, DataLengths(b)) == pieces
  {
    hide Columns, Deal, Readable, Joined, IsCodeword, Start, Taller;
    forall k | 0 <= k < |pieces| ensures |pieces[k]| <= Longest(b) {
      assert Lengths(pieces)[k] == DataLengths(b)[k];
    }
    DealColumns(pieces, Longest(b), Columns(ecs, b.ec));
  }

  // -- counting ---------------------------------------------------------------------------

  lemma {:induction false} SameHeight(lens: seq<nat>, k: nat, i: nat, d: nat)
    requires k <= |lens| && forall j :: 0 <= j < |lens| ==> lens[j] == d
    ensures Taller(lens, k, i) == if i < d then k else 0
  {
    if k > 0 {
      SameHeight(lens, k - 1, i, d);
    }
  }

  lemma {:induction false} SameStart(lens: seq<nat>, n: nat, d: nat)
    requires n <= d && forall j :: 0 <= j < |lens| ==> lens[j] == d
    ensures Start(lens, n) == n * |lens|
  {
    if n > 0 {
      SameStart(lens, n - 1, d);
      SameHeight(lens, |lens|, n - 1, d);
      assert n * |lens| == (n - 1) * |lens| + |lens|;
    }
  }

  function Total(lens: seq<nat>): nat {
    if lens == [] then 0 else Total(lens[..|lens| - 1]) + lens[|lens| - 1]
  }

  lemma {:induction false} TallerOfTwo(b: Block, k: nat, i: nat)
    requires k <= b.n1 + b.n2
    ensures Taller(DataLengths(b), k, i)
         == (if i < b.d1 then if k < b.n1 then k else b.n1 else 0)
            + (if i < b.d2 && k > b.n1 then k - b.n1 else 0)
  {
    if k > 0 {
      TallerOfTwo(b, k - 1, i);
    }
  }

  lemma {:induction false} StartOfTwo(b: Block, n: nat)
    ensures Start(DataLengths(b), n)
         == b.n1 * (if n < b.d1 then n else b.d1) + b.n2 * (if n < b.d2 then n else b.d2)
  {
    if n > 0 {
      StartOfTwo(b, n - 1);
      TallerOfTwo(b, b.n1 + b.n2, n - 1);
      Step(b.n1, n);
      Step(b.n2, n);
    }
  }

  lemma Step(k: nat, n: nat)
    requires n > 0
    ensures k * n == k * (n - 1) + k
  {
  }

  lemma CorrectionHeights(data: seq<Byte>, b: Block, pieces: seq<Piece>, ecs: seq<Piece>)
    requires IsSplit(data, b, pieces, ecs)
    ensures Lengths(ecs) == CorrectionLengths(b) && Lengths(pieces) == DataLengths(b)
  {
    hide IsCodeword, Joined;
    assert |ecs| == |Lengths(pieces)| == b.n1 + b.n2;
  }

  /** The stream has as many codewords as the version holds. */
  lemma CodewordCount(data: seq<Byte>, b: Block, pieces: seq<Piece>, ecs: seq<Piece>)
    requires IsSplit(data, b, pieces, ecs)
    ensures |Columns(pieces, Longest(b))| == b.Data()
    ensures |Columns(pieces, Longest(b)) + Columns(ecs, b.ec)| == b.Total()
  {
    ColumnsLength(pieces, Longest(b));
    ColumnsLength(ecs, b.ec);
    CorrectionHeights(data, b, pieces, ecs);
    StartOfTwo(b, Longest(b));
    SameStart(CorrectionLengths(b), b.ec, b.ec);
    hide Columns, Start, IsSplit, DataLengths, CorrectionLengths, Lengths;
    Spread(b.n1, b.d1, b.ec);
    Spread(b.n2, b.d2, b.ec);
    Spread(b.ec, b.n1, b.n2);
  }

  lemma Spread(n: nat, d: nat, e: nat)
    ensures n * (d + e) == n * d + n * e && n * e == e * n && n * d == d * n
  {
  }
}
