/**
  How the loops that draw the function patterns progress: a layer counts as drawn up to
  step k when its modules numbered below k are drawn and every other module is untouched.
  */
module Drawing {
  import opened Grid
  import opened Matrix

  /** The number of the step that draws a module of the layer. */
  function StepOf(layer: Layer, size: nat, u: int, v: int): int {
    match layer
    case Finder(ox, oy) => 9 * (v - oy + 1) + (u - ox + 1)
    case Timing => if v == 6 then 2 * (u - 8) else 2 * (v - 8) + 1
    case AlignmentAt(cx, cy) => 5 * (v - cy + 2) + (u - cx + 2)
    case DarkModule => 0
    case FormatArea =>
      if u == 8 then (if v <= 8 then 2 * v else 19 + 2 * (size - 1 - v))
      else (if u <= 8 then 2 * u + 1 else 18 + 2 * (size - 1 - u))
    case VersionArea(_) =>
      if 0 <= u < 6 && size - 11 <= v < size - 8 then 2 * (3 * u + (v - (size - 11)))
      else 2 * (3 * v + (u - (size - 11))) + 1
  }

  function Steps(layer: Layer, size: nat): int {
    match layer
    case Finder(_, _) => 81
    case Timing => 2 * (size - 16)
    case AlignmentAt(_, _) => 25
    case DarkModule => 1
    case FormatArea => 34
    case VersionArea(_) => 36
  }

  lemma StepsBound(layer: Layer, size: nat, u: int, v: int)
    requires size >= 21 && Covers(layer, size, u, v)
    ensures StepOf(layer, size, u, v) < Steps(layer, size)
  {
  }

  predicate Within(layer: Layer, size: nat, c: Cell, k: int) {
    Covers(layer, size, c.x, c.y) && StepOf(layer, size, c.x, c.y) < k
  }

  /** One module set and reserved, or nothing at all when it lies outside. */
  ghost predicate Marked(m: seq<bool>, r: seq<bool>, m': seq<bool>, r': seq<bool>,
                         size: nat, x: int, y: int, dark: bool) {
    && Square(m, size) && Square(r, size) && Square(m', size) && Square(r', size)
    && forall c :: Inside(size, c) ==>
         if c.x == x && c.y == y then At(m', size, c) == dark && At(r', size, c)
         else At(m', size, c) == At(m, size, c) && At(r', size, c) == At(r, size, c)
  }

  ghost predicate Drawn(m: seq<bool>, r: seq<bool>, m': seq<bool>, r': seq<bool>,
                        size: nat, layer: Layer, k: int) {
    && Square(m, size) && Square(r, size) && Square(m', size) && Square(r', size)
    && forall c :: Inside(size, c) ==>
         if Within(layer, size, c, k) then At(m', size, c) == Shade(layer, size, c.x, c.y) && At(r', size, c)
         else At(m', size, c) == At(m, size, c) && At(r', size, c) == At(r, size, c)
  }

  /** The modules and the reserved area are those of the layers drawn so far. */
  ghost predicate Depicts(m: seq<bool>, r: seq<bool>, size: nat, layers: seq<Layer>) {
    && Square(m, size) && Square(r, size)
    && forall c :: Inside(size, c) ==>
         && At(m, size, c) == Picture(layers, size, c.x, c.y)
         && At(r, size, c) == IsReserved(layers, size, c.x, c.y)
  }

  lemma DrawStart(m: seq<bool>, r: seq<bool>, size: nat, layer: Layer)
    requires Square(m, size) && Square(r, size) && size >= 21
    ensures Drawn(m, r, m, r, size, layer, 0)
  {
  }

  /** A mark at the next step's module takes the drawing one step further. */
  lemma DrawStep(m: seq<bool>, r: seq<bool>, m': seq<bool>, r': seq<bool>, m'': seq<bool>, r'': seq<bool>,
                 size: nat, layer: Layer, k: int, x: int, y: int, dark: bool)
    requires Drawn(m, r, m', r', size, layer, k) && Marked(m', r', m'', r'', size, x, y, dark)
    requires forall c :: Inside(size, c) ==>
      (Within(layer, size, c, k + 1) <==> Within(layer, size, c, k) || (c.x == x && c.y == y))
    requires 0 <= x < size && 0 <= y < size ==> dark == Shade(layer, size, x, y)
    ensures Drawn(m, r, m'', r'', size, layer, k + 1)
  {
    hide At, Shade, Within;
  }

  lemma LayerDrawn(m: seq<bool>, r: seq<bool>, m': seq<bool>, r': seq<bool>, size: nat,
                   layers: seq<Layer>, layer: Layer)
    requires Depicts(m, r, size, layers) && size >= 21
    requires Drawn(m, r, m', r', size, layer, Steps(layer, size))
    ensures Depicts(m', r', size, layers + [layer])
  {
    hide At, Shade, Steps;
    var more := layers + [layer];
    assert more[..|layers|] == layers;
    forall c | Inside(size, c)
      ensures At(m', size, c) == Picture(more, size, c.x, c.y)
      ensures At(r', size, c) == IsReserved(more, size, c.x, c.y)
    {
      if Covers(layer, size, c.x, c.y) {
        StepsBound(layer, size, c.x, c.y);
      }
    }
  }
}
