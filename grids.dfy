// Textures as grids of texels. A texel is four bytes, read here as two
// 16-bit halves: `lo` (bytes 0-1) and `hi` (bytes 2-3). A label keeps x+1 in
// `lo` and y+1 in `hi`; the statistics keep a count in `lo` and a luminance
// sum in `hi`. Grids are indexed g[y][x].
module Grids {

  datatype Option<T> = None | Some(value: T)

  datatype Cell = Cell(lo: int, hi: int)

  const Zero: Cell := Cell(0, 0)

  type Grid = seq<seq<Cell>>

  predicate IsGrid(g: Grid, w: nat, h: nat)
  {
    |g| == h && forall y :: 0 <= y < h ==> |g[y]| == w
  }

  predicate InGrid(w: nat, h: nat, x: int, y: int)
  {
    0 <= x < w && 0 <= y < h
  }

  function Blank(w: nat, h: nat): (g: Grid)
    ensures IsGrid(g, w, h)
    ensures forall y, x :: 0 <= y < h && 0 <= x < w ==> g[y][x] == Zero
  {
    seq(h, y => seq(w, x => Zero))
  }

  /**
   * How a pass treats a neighbour outside the texture: `Clamp` is the
   * texture's own clamp-to-edge sampling, `Guard` a shader that ignores the
   * sample. The shaders are not part of this model, so this is a parameter.
   */
  datatype Border = Clamp | Guard

  /**
   * Clamp-to-edge of one coordinate: the position of 0..n-1 nearest to v,
   * and no other position is as near.
   */
  function ClampTo(v: int, n: nat): (r: nat)
    requires n > 0
    ensures Nearest(r, v, n)
    ensures forall k :: 0 <= k < n && Dist(v, k) == Dist(v, r) ==> k == r
  {
    if v < 0 then 0 else if v >= n then n - 1 else v
  }

  /** A nearest-filtered sample at (x, y): None only for a guarded outside read. */
  function Sample(g: Grid, w: nat, h: nat, x: int, y: int, b: Border): (o: Option<Cell>)
    requires IsGrid(g, w, h) && w > 0 && h > 0
    ensures InGrid(w, h, x, y) ==> o == Some(g[y][x])
    ensures !InGrid(w, h, x, y) && b == Guard ==> o == None
    ensures o.Some? ==> o.value == g[ClampTo(y, h)][ClampTo(x, w)]
  {
    if InGrid(w, h, x, y) then Some(g[y][x])
    else if b == Guard then None
    else Some(g[ClampTo(y, h)][ClampTo(x, w)])
  }

  /** The distance between two coordinates. */
  function Dist(a: int, b: int): nat
  {
    if a >= b then a - b else b - a
  }

  /** r is the position of 0..n-1 nearest to v. */
  ghost predicate Nearest(r: int, v: int, n: nat)
  {
    0 <= r < n && forall k :: 0 <= k < n ==> Dist(v, r) <= Dist(v, k)
  }

  /** A sample read where an ignored neighbour counts as background. */
  function SampleOrZero(g: Grid, w: nat, h: nat, x: int, y: int, b: Border): (c: Cell)
    requires IsGrid(g, w, h) && w > 0 && h > 0
    ensures InGrid(w, h, x, y) ==> c == g[y][x]
    ensures c == Zero || c == g[ClampTo(y, h)][ClampTo(x, w)]
  {
    if b == Guard && !InGrid(w, h, x, y) then Zero else g[ClampTo(y, h)][ClampTo(x, w)]
  }

  /**
   * Under clamp-to-edge every read, in or out of the grid, returns the
   * texel in the nearest column and the nearest row, and so the texel
   * nearest to (x, y).
   */
  lemma SampleClamped(g: Grid, w: nat, h: nat, x: int, y: int)
    requires IsGrid(g, w, h) && w > 0 && h > 0
    ensures forall cx, cy :: Nearest(cx, x, w) && Nearest(cy, y, h) ==> SampleOrZero(g, w, h, x, y, Clamp) == g[cy][cx]
  {
    forall cx, cy | Nearest(cx, x, w) && Nearest(cy, y, h)
      ensures SampleOrZero(g, w, h, x, y, Clamp) == g[cy][cx]
    {
      NearestUnique(cx, x, w);
      NearestUnique(cy, y, h);
    }
  }

  /** The nearest position is the one clamp-to-edge picks. */
  lemma NearestUnique(c: int, v: int, n: nat)
    requires n > 0 && Nearest(c, v, n)
    ensures c == ClampTo(v, n)
  {
    var r := ClampTo(v, n);
    assert Dist(v, c) <= Dist(v, r);
  }

  /** `c` is stored somewhere in g. */
  predicate Occurs(g: Grid, w: nat, h: nat, c: Cell)
    requires IsGrid(g, w, h)
  {
    exists y, x :: 0 <= y < h && 0 <= x < w && g[y][x] == c
  }

  lemma SampleOccurs(g: Grid, w: nat, h: nat, x: int, y: int, b: Border)
    requires IsGrid(g, w, h) && w > 0 && h > 0
    ensures SampleOrZero(g, w, h, x, y, b) == Zero || Occurs(g, w, h, SampleOrZero(g, w, h, x, y, b))
  {
    var c := SampleOrZero(g, w, h, x, y, b);
    if c != Zero {
      assert g[ClampTo(y, h)][ClampTo(x, w)] == c;
    }
  }

  function Add(a: Cell, b: Cell): Cell
  {
    Cell(a.lo + b.lo, a.hi + b.hi)
  }

  /** The grid of columns: Transpose(g)[x][y] == g[y][x]. */
  function Transpose(g: Grid, w: nat, h: nat): (t: Grid)
    requires IsGrid(g, w, h)
    ensures IsGrid(t, h, w)
    ensures forall x, y :: 0 <= x < w && 0 <= y < h ==> t[x][y] == g[y][x]
  {
    seq(w, x requires 0 <= x < w => seq(h, y requires 0 <= y < h => g[y][x]))
  }

  lemma TransposeTwice(g: Grid, w: nat, h: nat)
    requires IsGrid(g, w, h)
    ensures Transpose(Transpose(g, w, h), h, w) == g
  {
    var t := Transpose(Transpose(g, w, h), h, w);
    assert |t| == |g|;
    forall y | 0 <= y < h
      ensures t[y] == g[y]
    {
    }
  }
}
