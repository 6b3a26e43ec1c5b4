// The statistics phase as its documentation states it: a fill stage that
// marks a square area in front of every spot, a count stage that sums
// (1, luminance) over a doubling window, and a centroiding stage that sums
// luminance-weighted positions relative to the root the same way. Every pass
// builds a whole new grid from the frozen previous one. The quadrant is given
// by the factors (fx, fy), each 1 or -1. The fill distance, the fill tie-break
// and the border handling are not documented and are parameters.
module Stats {
  import opened Phase
  import opened Grids
  import opened Labeling

  type Sign = s: int | s == 1 || s == -1 witness 1

  /** A step of d along an axis whose direction is f. */
  function Step(f: Sign, d: int): int
  {
    if f < 0 then -d else d
  }

  /** A texel, or background outside the grid. */
  function At(g: Grid, w: nat, h: nat, x: int, y: int): (c: Cell)
    requires IsGrid(g, w, h)
    ensures InGrid(w, h, x, y) ==> c == g[y][x]
    ensures !InGrid(w, h, x, y) ==> c == Zero
  {
    if InGrid(w, h, x, y) then g[y][x] else Zero
  }

  // ---------------------------------------------------------------------
  // Filling stage

  /** The number of fill passes, `mNumFillIterations`. */
  const NumFillIterations: nat := 2

  /** The order in which a fill pass considers its three corners when distances tie. */
  type Order = o: seq<int> | |o| == 3 && (forall k :: 0 <= k < 3 ==> 0 <= o[k] < 3) &&
    o[0] != o[1] && o[1] != o[2] && o[0] != o[2] witness [0, 1, 2]

  /** The distance between a pixel and a root, as the fill shader measures it. */
  type Metric = (Pos, Pos) -> int

  /**
   * Corner k of the pixel (x, y) in fill pass n: (x+2^n, y), (x, y+2^n) and
   * (x+2^n, y+2^n) in the quadrant (fx, fy).
   */
  function CornerPos(x: int, y: int, n: nat, fx: Sign, fy: Sign, k: int): Pos
  {
    var d := Pow2(n);
    if k == 0 then (x + Step(fx, d), y)
    else if k == 1 then (x, y + Step(fy, d))
    else (x + Step(fx, d), y + Step(fy, d))
  }

  /** The sample at corner k. */
  function Corner(g: Grid, w: nat, h: nat, x: int, y: int, n: nat, fx: Sign, fy: Sign, k: int, b: Border): Cell
    requires IsGrid(g, w, h) && w > 0 && h > 0
  {
    SampleOrZero(g, w, h, CornerPos(x, y, n, fx, fy, k).0, CornerPos(x, y, n, fx, fy, k).1, b)
  }

  /** Of two samples, the label whose root is nearer to p, the first on a tie; Zero if neither is a label. */
  function Nearer(u: Cell, v: Cell, p: Pos, dist: Metric): (r: Cell)
    ensures r == u || r == v
    ensures r == Zero <==> u == Zero && v == Zero
    ensures r != Zero && u != Zero ==> dist(p, Target(r)) <= dist(p, Target(u))
    ensures r != Zero && v != Zero ==> dist(p, Target(r)) <= dist(p, Target(v))
  {
    if u != Zero && (v == Zero || dist(p, Target(u)) <= dist(p, Target(v))) then u else v
  }

  /** Fill pass n: a zero pixel adopts the corner label with the nearest root; a label stays. */
  function FillCell(g: Grid, w: nat, h: nat, x: int, y: int, n: nat, fx: Sign, fy: Sign,
                    dist: Metric, order: Order, b: Border): Cell
    requires IsGrid(g, w, h) && 0 <= x < w && 0 <= y < h
  {
    if g[y][x] != Zero then g[y][x]
    else
      Nearer(Corner(g, w, h, x, y, n, fx, fy, order[0], b),
             Nearer(Corner(g, w, h, x, y, n, fx, fy, order[1], b), Corner(g, w, h, x, y, n, fx, fy, order[2], b),
                    (x, y), dist),
             (x, y), dist)
  }

  function FillPass(g: Grid, w: nat, h: nat, n: nat, fx: Sign, fy: Sign, dist: Metric, order: Order, b: Border): (r: Grid)
    requires IsGrid(g, w, h)
    ensures IsGrid(r, w, h)
  {
    seq(h, y requires 0 <= y < h => seq(w, x requires 0 <= x < w => FillCell(g, w, h, x, y, n, fx, fy, dist, order, b)))
  }

  /** Fill passes n .. n+k-1 applied to g. */
  function FillFrom(g: Grid, w: nat, h: nat, n: nat, k: nat, fx: Sign, fy: Sign, dist: Metric, order: Order, b: Border): (r: Grid)
    requires IsGrid(g, w, h)
    ensures IsGrid(r, w, h)
    decreases k
  {
    if k == 0 then g
    else FillFrom(FillPass(g, w, h, n, fx, fy, dist, order, b), w, h, n + 1, k - 1, fx, fy, dist, order, b)
  }

  /** The filling stage: passes 0 .. `mNumFillIterations`-1 on the label grid. */
  function Fill(labels: Grid, w: nat, h: nat, fx: Sign, fy: Sign, dist: Metric, order: Order, b: Border): (r: Grid)
    requires IsGrid(labels, w, h)
    ensures IsGrid(r, w, h)
  {
    FillFrom(labels, w, h, 0, NumFillIterations, fx, fy, dist, order, b)
  }

  /** The last of k+1 passes is applied to the result of the first k. */
  lemma {:induction false} FillFromLast(g: Grid, w: nat, h: nat, n: nat, k: nat, fx: Sign, fy: Sign,
                                        dist: Metric, order: Order, b: Border)
    requires IsGrid(g, w, h)
    ensures FillFrom(g, w, h, n, k + 1, fx, fy, dist, order, b) ==
      FillPass(FillFrom(g, w, h, n, k, fx, fy, dist, order, b), w, h, n + k, fx, fy, dist, order, b)
    decreases k
  {
    if k > 0 {
      FillFromLast(FillPass(g, w, h, n, fx, fy, dist, order, b), w, h, n + 1, k - 1, fx, fy, dist, order, b);
    }
  }

  /** Every corner is considered, whatever the tie-break order. */
  lemma OrderCovers(o: Order, k: int)
    requires 0 <= k < 3
    ensures o[0] == k || o[1] == k || o[2] == k
  {
  }

  /** One fill pass keeps every label. */
  lemma FillKeeps(g: Grid, w: nat, h: nat, x: int, y: int, n: nat, fx: Sign, fy: Sign,
                  dist: Metric, order: Order, b: Border)
    requires IsGrid(g, w, h) && 0 <= x < w && 0 <= y < h && g[y][x] != Zero
    ensures FillPass(g, w, h, n, fx, fy, dist, order, b)[y][x] == g[y][x]
  {
  }

  /** A zero pixel stays zero after a fill pass iff all three of its corners are background. */
  lemma FillStaysZero(g: Grid, w: nat, h: nat, x: int, y: int, n: nat, fx: Sign, fy: Sign,
                      dist: Metric, order: Order, b: Border)
    requires IsGrid(g, w, h) && 0 <= x < w && 0 <= y < h && g[y][x] == Zero
    ensures FillPass(g, w, h, n, fx, fy, dist, order, b)[y][x] == Zero <==>
      Corner(g, w, h, x, y, n, fx, fy, 0, b) == Zero && Corner(g, w, h, x, y, n, fx, fy, 1, b) == Zero &&
      Corner(g, w, h, x, y, n, fx, fy, 2, b) == Zero
  {
    OrderCovers(order, 0);
    OrderCovers(order, 1);
    OrderCovers(order, 2);
  }

  /**
   * A pixel that a fill pass turns nonzero takes the label of one of its
   * corners, and no other labelled corner has a strictly nearer root.
   */
  lemma FillSource(g: Grid, w: nat, h: nat, x: int, y: int, n: nat, fx: Sign, fy: Sign,
                   dist: Metric, order: Order, b: Border) returns (k: nat)
    requires IsGrid(g, w, h) && 0 <= x < w && 0 <= y < h && g[y][x] == Zero
    requires FillPass(g, w, h, n, fx, fy, dist, order, b)[y][x] != Zero
    ensures k < 3 && FillPass(g, w, h, n, fx, fy, dist, order, b)[y][x] == Corner(g, w, h, x, y, n, fx, fy, k, b)
    ensures forall j :: 0 <= j < 3 && Corner(g, w, h, x, y, n, fx, fy, j, b) != Zero ==>
      dist((x, y), Target(Corner(g, w, h, x, y, n, fx, fy, k, b))) <=
      dist((x, y), Target(Corner(g, w, h, x, y, n, fx, fy, j, b)))
  {
    var r := FillPass(g, w, h, n, fx, fy, dist, order, b)[y][x];
    k := if r == Corner(g, w, h, x, y, n, fx, fy, order[0], b) then order[0]
      else if r == Corner(g, w, h, x, y, n, fx, fy, order[1], b) then order[1] else order[2];
    forall j | 0 <= j < 3 && Corner(g, w, h, x, y, n, fx, fy, j, b) != Zero
      ensures dist((x, y), Target(r)) <= dist((x, y), Target(Corner(g, w, h, x, y, n, fx, fy, j, b)))
    {
      OrderCovers(order, j);
    }
  }

  /** A nonzero pixel after a fill pass holds the label of some pixel before it. */
  lemma FillStepSource(g: Grid, w: nat, h: nat, x: int, y: int, n: nat, fx: Sign, fy: Sign,
                       dist: Metric, order: Order, b: Border) returns (cx: nat, cy: nat)
    requires IsGrid(g, w, h) && 0 <= x < w && 0 <= y < h
    requires FillPass(g, w, h, n, fx, fy, dist, order, b)[y][x] != Zero
    ensures cx < w && cy < h && g[cy][cx] == FillPass(g, w, h, n, fx, fy, dist, order, b)[y][x]
  {
    if g[y][x] != Zero {
      cx, cy := x, y;
    } else {
      var j := FillSource(g, w, h, x, y, n, fx, fy, dist, order, b);
      var c := CornerPos(x, y, n, fx, fy, j);
      cx, cy := ClampTo(c.0, w), ClampTo(c.1, h);
    }
  }

  /**
   * After a fill pass a pixel is nonzero if it was, or if one of its three
   * corners (taken in the grid) was.
   */
  lemma FillStepCovers(g: Grid, w: nat, h: nat, x: int, y: int, n: nat, fx: Sign, fy: Sign,
                       dist: Metric, order: Order, b: Border, oa: int, ob: int)
    requires IsGrid(g, w, h) && 0 <= x < w && 0 <= y < h
    requires (oa == 0 || oa == Pow2(n)) && (ob == 0 || ob == Pow2(n))
    requires InGrid(w, h, x + Step(fx, oa), y + Step(fy, ob)) && g[y + Step(fy, ob)][x + Step(fx, oa)] != Zero
    ensures FillPass(g, w, h, n, fx, fy, dist, order, b)[y][x] != Zero
  {
    if g[y][x] == Zero {
      var j := if ob == 0 then 0 else if oa == 0 then 1 else 2;
      assert CornerPos(x, y, n, fx, fy, j) == (x + Step(fx, oa), y + Step(fy, ob));
      assert Corner(g, w, h, x, y, n, fx, fy, j, b) != Zero;
      FillStaysZero(g, w, h, x, y, n, fx, fy, dist, order, b);
    }
  }

  /** Every label of `labels` is still in place in g. */
  predicate Extends(g: Grid, labels: Grid, w: nat, h: nat)
    requires IsGrid(g, w, h) && IsGrid(labels, w, h)
  {
    forall y, x :: 0 <= y < h && 0 <= x < w && labels[y][x] != Zero ==> g[y][x] == labels[y][x]
  }

  /** Every nonzero pixel of g holds a label of `labels`. */
  predicate Sourced(g: Grid, labels: Grid, w: nat, h: nat)
    requires IsGrid(g, w, h) && IsGrid(labels, w, h)
  {
    forall y, x :: 0 <= y < h && 0 <= x < w && g[y][x] != Zero ==> Occurs(labels, w, h, g[y][x])
  }

  /** The pixel (x + a·fx, y + b·fy) lies in the grid and holds a label. */
  predicate LabelAhead(labels: Grid, w: nat, h: nat, x: int, y: int, fx: Sign, fy: Sign, da: int, db: int)
    requires IsGrid(labels, w, h)
  {
    InGrid(w, h, x + Step(fx, da), y + Step(fy, db)) && labels[y + Step(fy, db)][x + Step(fx, da)] != Zero
  }

  /**
   * g is nonzero at every pixel p that has a label at p + (a·fx, b·fy) with
   * 0 <= a, b < len.
   */
  predicate Covered(g: Grid, labels: Grid, w: nat, h: nat, fx: Sign, fy: Sign, len: nat)
    requires IsGrid(g, w, h) && IsGrid(labels, w, h)
  {
    forall y, x, da, db ::
      0 <= y < h && 0 <= x < w && 0 <= da < len && 0 <= db < len && LabelAhead(labels, w, h, x, y, fx, fy, da, db)
      ==> g[y][x] != Zero
  }

  /** Covering a square covers every smaller one. */
  lemma CoveredShrink(g: Grid, labels: Grid, w: nat, h: nat, fx: Sign, fy: Sign, len: nat, len': nat)
    requires IsGrid(g, w, h) && IsGrid(labels, w, h) && Covered(g, labels, w, h, fx, fy, len) && len' <= len
    ensures Covered(g, labels, w, h, fx, fy, len')
  {
  }

  lemma FillPassExtends(g: Grid, labels: Grid, w: nat, h: nat, n: nat, fx: Sign, fy: Sign,
                        dist: Metric, order: Order, b: Border)
    requires IsGrid(g, w, h) && IsGrid(labels, w, h) && Extends(g, labels, w, h)
    ensures Extends(FillPass(g, w, h, n, fx, fy, dist, order, b), labels, w, h)
  {
    forall y, x | 0 <= y < h && 0 <= x < w && labels[y][x] != Zero
      ensures FillPass(g, w, h, n, fx, fy, dist, order, b)[y][x] == labels[y][x]
    {
      FillKeeps(g, w, h, x, y, n, fx, fy, dist, order, b);
    }
  }

  lemma FillPassSourced(g: Grid, labels: Grid, w: nat, h: nat, n: nat, fx: Sign, fy: Sign,
                        dist: Metric, order: Order, b: Border)
    requires IsGrid(g, w, h) && IsGrid(labels, w, h) && Sourced(g, labels, w, h)
    ensures Sourced(FillPass(g, w, h, n, fx, fy, dist, order, b), labels, w, h)
  {
    var f := FillPass(g, w, h, n, fx, fy, dist, order, b);
    forall y, x | 0 <= y < h && 0 <= x < w && f[y][x] != Zero
      ensures Occurs(labels, w, h, f[y][x])
    {
      var cx, cy := FillStepSource(g, w, h, x, y, n, fx, fy, dist, order, b);
      assert g[cy][cx] != Zero;
    }
  }

  /** A pixel with a label within 2·2^n ahead of it is nonzero after the pass of step 2^n. */
  lemma FillPointCovers(g: Grid, labels: Grid, w: nat, h: nat, n: nat, fx: Sign, fy: Sign,
                        dist: Metric, order: Order, b: Border, d: nat, x: int, y: int, da: int, db: int)
    requires IsGrid(g, w, h) && IsGrid(labels, w, h) && d == Pow2(n) && Covered(g, labels, w, h, fx, fy, d)
    requires 0 <= y < h && 0 <= x < w && 0 <= da < 2 * d && 0 <= db < 2 * d
    requires LabelAhead(labels, w, h, x, y, fx, fy, da, db)
    ensures FillPass(g, w, h, n, fx, fy, dist, order, b)[y][x] != Zero
  {
    // the corner of this pass that lies between (x, y) and the label
    var oa, ob := if da >= d then d else 0, if db >= d then d else 0;
    var cx, cy := x + Step(fx, oa), y + Step(fy, ob);
    assert InGrid(w, h, cx, cy);
    assert cx + Step(fx, da - oa) == x + Step(fx, da);
    assert cy + Step(fy, db - ob) == y + Step(fy, db);
    assert LabelAhead(labels, w, h, cx, cy, fx, fy, da - oa, db - ob);
    FillStepCovers(g, w, h, x, y, n, fx, fy, dist, order, b, oa, ob);
  }

  /** A pass of step 2^n doubles the covered square. */
  lemma FillPassCovers(g: Grid, labels: Grid, w: nat, h: nat, n: nat, fx: Sign, fy: Sign,
                       dist: Metric, order: Order, b: Border)
    requires IsGrid(g, w, h) && IsGrid(labels, w, h) && Covered(g, labels, w, h, fx, fy, Pow2(n))
    ensures Covered(FillPass(g, w, h, n, fx, fy, dist, order, b), labels, w, h, fx, fy, Pow2(n + 1))
  {
    var d := Pow2(n);
    assert Pow2(n + 1) == 2 * d;
    forall y, x, da, db | 0 <= y < h && 0 <= x < w && 0 <= da < 2 * d && 0 <= db < 2 * d &&
      LabelAhead(labels, w, h, x, y, fx, fy, da, db)
      ensures FillPass(g, w, h, n, fx, fy, dist, order, b)[y][x] != Zero
    {
      FillPointCovers(g, labels, w, h, n, fx, fy, dist, order, b, d, x, y, da, db);
    }
  }

  /** Fill passes keep every label in place. */
  lemma {:induction false} FillFromExtends(g: Grid, labels: Grid, w: nat, h: nat, n: nat, k: nat, fx: Sign, fy: Sign,
                                           dist: Metric, order: Order, b: Border)
    requires IsGrid(g, w, h) && IsGrid(labels, w, h) && Extends(g, labels, w, h)
    ensures Extends(FillFrom(g, w, h, n, k, fx, fy, dist, order, b), labels, w, h)
    decreases k
  {
    if k > 0 {
      FillPassExtends(g, labels, w, h, n, fx, fy, dist, order, b);
      FillFromExtends(FillPass(g, w, h, n, fx, fy, dist, order, b), labels, w, h, n + 1, k - 1, fx, fy, dist, order, b);
    }
  }

  /** Fill passes only copy labels that are already there. */
  lemma {:induction false} FillFromSourced(g: Grid, labels: Grid, w: nat, h: nat, n: nat, k: nat, fx: Sign, fy: Sign,
                                           dist: Metric, order: Order, b: Border)
    requires IsGrid(g, w, h) && IsGrid(labels, w, h) && Sourced(g, labels, w, h)
    ensures Sourced(FillFrom(g, w, h, n, k, fx, fy, dist, order, b), labels, w, h)
    decreases k
  {
    if k > 0 {
      FillPassSourced(g, labels, w, h, n, fx, fy, dist, order, b);
      FillFromSourced(FillPass(g, w, h, n, fx, fy, dist, order, b), labels, w, h, n + 1, k - 1, fx, fy, dist, order, b);
    }
  }

  /** Passes n .. n+k-1 grow a covered square of side 2^n to one of side 2^(n+k). */
  lemma {:induction false} FillFromCovers(g: Grid, labels: Grid, w: nat, h: nat, n: nat, k: nat, fx: Sign, fy: Sign,
                                          dist: Metric, order: Order, b: Border)
    requires IsGrid(g, w, h) && IsGrid(labels, w, h) && Covered(g, labels, w, h, fx, fy, Pow2(n))
    ensures Covered(FillFrom(g, w, h, n, k, fx, fy, dist, order, b), labels, w, h, fx, fy, Pow2(n + k))
    decreases k
  {
    if k > 0 {
      FillPassCovers(g, labels, w, h, n, fx, fy, dist, order, b);
      FillFromCovers(FillPass(g, w, h, n, fx, fy, dist, order, b), labels, w, h, n + 1, k - 1, fx, fy, dist, order, b);
    }
  }

  /** Every label of the label grid occurs in it. */
  lemma SourcedSelf(labels: Grid, w: nat, h: nat)
    requires IsGrid(labels, w, h)
    ensures Sourced(labels, labels, w, h)
  {
    forall y, x | 0 <= y < h && 0 <= x < w && labels[y][x] != Zero
      ensures Occurs(labels, w, h, labels[y][x])
    {
    }
  }

  /** The label grid covers the 1x1 square at each label. */
  lemma CoveredSelf(labels: Grid, w: nat, h: nat, fx: Sign, fy: Sign)
    requires IsGrid(labels, w, h)
    ensures Covered(labels, labels, w, h, fx, fy, Pow2(0))
  {
    forall y, x, da, db | 0 <= y < h && 0 <= x < w && 0 <= da < Pow2(0) && 0 <= db < Pow2(0) &&
      LabelAhead(labels, w, h, x, y, fx, fy, da, db)
      ensures labels[y][x] != Zero
    {
      assert da == 0 && db == 0;
    }
  }

  /** The filling stage keeps every label in place. */
  lemma FillExtends(labels: Grid, w: nat, h: nat, fx: Sign, fy: Sign, dist: Metric, order: Order, b: Border)
    requires IsGrid(labels, w, h)
    ensures Extends(Fill(labels, w, h, fx, fy, dist, order, b), labels, w, h)
  {
    FillFromExtends(labels, labels, w, h, 0, NumFillIterations, fx, fy, dist, order, b);
  }

  /** Every nonzero pixel after the filling stage holds a label of the label grid. */
  lemma FillSourced(labels: Grid, w: nat, h: nat, fx: Sign, fy: Sign, dist: Metric, order: Order, b: Border)
    requires IsGrid(labels, w, h)
    ensures Sourced(Fill(labels, w, h, fx, fy, dist, order, b), labels, w, h)
  {
    SourcedSelf(labels, w, h);
    FillFromSourced(labels, labels, w, h, 0, NumFillIterations, fx, fy, dist, order, b);
  }

  /**
   * After the filling stage every pixel with a label in the 4x4 square in
   * front of it (side 2^mNumFillIterations) is nonzero.
   */
  lemma FillCovers(labels: Grid, w: nat, h: nat, fx: Sign, fy: Sign, dist: Metric, order: Order, b: Border)
    requires IsGrid(labels, w, h)
    ensures Covered(Fill(labels, w, h, fx, fy, dist, order, b), labels, w, h, fx, fy, 4)
  {
    CoveredSelf(labels, w, h, fx, fy);
    FillFromCovers(labels, labels, w, h, 0, NumFillIterations, fx, fy, dist, order, b);
    assert Pow2(0 + NumFillIterations) == 4;
    CoveredShrink(FillFrom(labels, w, h, 0, NumFillIterations, fx, fy, dist, order, b), labels, w, h, fx, fy,
                  Pow2(0 + NumFillIterations), 4);
  }

  // ---------------------------------------------------------------------
  // Counting and centroiding stages

  /** The doubling passes after the initial pass: `u_pass` 0..3. */
  const NumSumPasses: nat := 4

  /** The luminance of an original texel: its first byte. */
  function Luminance(c: Cell): (l: nat)
    ensures l < 256
  {
    c.lo % 256
  }

  /** Count init: a labelled pixel holds (1, luminance), every other pixel 0. */
  function CountInit(labels: Grid, orig: Grid, w: nat, h: nat): (r: Grid)
    requires IsGrid(labels, w, h) && IsGrid(orig, w, h)
    ensures IsGrid(r, w, h)
  {
    seq(h, y requires 0 <= y < h => seq(w, x requires 0 <= x < w =>
      if labels[y][x] != Zero then Cell(1, Luminance(orig[y][x])) else Zero))
  }

  /** The coordinate a centroiding stage sums: -1 for x, -2 for y. */
  type Coordinate = c: int | c == -1 || c == -2 witness -1

  /**
   * Centroid init: a labelled pixel holds its luminance times its distance
   * from the root along the coordinate, measured from the pixel to the root
   * so that the root minus the sum over the luminance is the centroid.
   */
  function CentroidInit(labels: Grid, orig: Grid, w: nat, h: nat, coordinate: Coordinate): (r: Grid)
    requires IsGrid(labels, w, h) && IsGrid(orig, w, h)
    ensures IsGrid(r, w, h)
  {
    seq(h, y requires 0 <= y < h => seq(w, x requires 0 <= x < w =>
      if labels[y][x] == Zero then Zero
      else
        var root := Target(labels[y][x]);
        var rel := if coordinate == -1 then root.0 - x else root.1 - y;
        Cell(rel * Luminance(orig[y][x]), 0)))
  }

  /**
   * Doubling pass n: a pixel of the filled area adds the three corners
   * (x-2^n, y), (x, y-2^n) and (x-2^n, y-2^n) of the quadrant to its value;
   * every other pixel keeps its value.
   */
  function SumCell(g: Grid, fill: Grid, w: nat, h: nat, x: int, y: int, dx: int, dy: int, b: Border): Cell
    requires IsGrid(g, w, h) && IsGrid(fill, w, h) && 0 <= x < w && 0 <= y < h
  {
    if fill[y][x] == Zero then g[y][x]
    else
      Add(Add(g[y][x], SampleOrZero(g, w, h, x - dx, y, b)),
          Add(SampleOrZero(g, w, h, x, y - dy, b), SampleOrZero(g, w, h, x - dx, y - dy, b)))
  }

  function SumPass(g: Grid, fill: Grid, w: nat, h: nat, n: nat, fx: Sign, fy: Sign, b: Border): (r: Grid)
    requires IsGrid(g, w, h) && IsGrid(fill, w, h)
    ensures IsGrid(r, w, h)
  {
    var dx, dy := Step(fx, Pow2(n)), Step(fy, Pow2(n));
    seq(h, y requires 0 <= y < h => seq(w, x requires 0 <= x < w => SumCell(g, fill, w, h, x, y, dx, dy, b)))
  }

  /** Doubling passes n .. n+k-1 applied to g. */
  function SumFrom(g: Grid, fill: Grid, w: nat, h: nat, n: nat, k: nat, fx: Sign, fy: Sign, b: Border): (r: Grid)
    requires IsGrid(g, w, h) && IsGrid(fill, w, h)
    ensures IsGrid(r, w, h)
    decreases k
  {
    if k == 0 then g else SumFrom(SumPass(g, fill, w, h, n, fx, fy, b), fill, w, h, n + 1, k - 1, fx, fy, b)
  }

  lemma {:induction false} SumFromLast(g: Grid, fill: Grid, w: nat, h: nat, n: nat, k: nat, fx: Sign, fy: Sign, b: Border)
    requires IsGrid(g, w, h) && IsGrid(fill, w, h)
    ensures SumFrom(g, fill, w, h, n, k + 1, fx, fy, b) ==
      SumPass(SumFrom(g, fill, w, h, n, k, fx, fy, b), fill, w, h, n + k, fx, fy, b)
    decreases k
  {
    if k > 0 {
      SumFromLast(SumPass(g, fill, w, h, n, fx, fy, b), fill, w, h, n + 1, k - 1, fx, fy, b);
    }
  }

  /** The counting stage: the init pass, then doubling passes 0..3 over the filled area. */
  function Count(labels: Grid, orig: Grid, fill: Grid, w: nat, h: nat, fx: Sign, fy: Sign, b: Border): (r: Grid)
    requires IsGrid(labels, w, h) && IsGrid(orig, w, h) && IsGrid(fill, w, h)
    ensures IsGrid(r, w, h)
  {
    SumFrom(CountInit(labels, orig, w, h), fill, w, h, 0, NumSumPasses, fx, fy, b)
  }

  /** A centroiding stage: the init pass for the coordinate, then doubling passes 0..3. */
  function Centroid(labels: Grid, orig: Grid, fill: Grid, w: nat, h: nat, coordinate: Coordinate,
                    fx: Sign, fy: Sign, b: Border): (r: Grid)
    requires IsGrid(labels, w, h) && IsGrid(orig, w, h) && IsGrid(fill, w, h)
    ensures IsGrid(r, w, h)
  {
    SumFrom(CentroidInit(labels, orig, w, h, coordinate), fill, w, h, 0, NumSumPasses, fx, fy, b)
  }

  // The window sums, one channel (`lo` or `hi`) at a time.

  function Channel(c: Cell, hi: bool): int
  {
    if hi then c.hi else c.lo
  }

  /** The sum of g over the pixels (x - a, y), 0 <= a < len, of the quadrant; background outside. */
  function RowSum(g: Grid, w: nat, h: nat, x: int, y: int, fx: Sign, len: nat, hi: bool): int
    requires IsGrid(g, w, h)
    decreases len
  {
    if len == 0 then 0 else RowSum(g, w, h, x, y, fx, len - 1, hi) + Channel(At(g, w, h, x - Step(fx, len - 1), y), hi)
  }

  /** The sum over the cols x rows rectangle whose corner nearest the root is (x, y). */
  function Rect(g: Grid, w: nat, h: nat, x: int, y: int, fx: Sign, fy: Sign, cols: nat, rows: nat, hi: bool): int
    requires IsGrid(g, w, h)
    decreases rows
  {
    if rows == 0 then 0
    else Rect(g, w, h, x, y, fx, fy, cols, rows - 1, hi) + RowSum(g, w, h, x, y - Step(fy, rows - 1), fx, cols, hi)
  }

  /** The sum of g over the len x len square ending at (x, y). */
  function Square(g: Grid, w: nat, h: nat, x: int, y: int, fx: Sign, fy: Sign, len: nat): Cell
    requires IsGrid(g, w, h)
  {
    Cell(Rect(g, w, h, x, y, fx, fy, len, len, false), Rect(g, w, h, x, y, fx, fy, len, len, true))
  }

  lemma {:induction false} RowSplit(g: Grid, w: nat, h: nat, x: int, y: int, fx: Sign, m: nat, n: nat, hi: bool)
    requires IsGrid(g, w, h)
    ensures RowSum(g, w, h, x, y, fx, m + n, hi) == RowSum(g, w, h, x, y, fx, m, hi) + RowSum(g, w, h, x - Step(fx, m), y, fx, n, hi)
    decreases n
  {
    if n > 0 {
      RowSplit(g, w, h, x, y, fx, m, n - 1, hi);
      assert x - Step(fx, m + n - 1) == x - Step(fx, m) - Step(fx, n - 1);
    }
  }

  lemma {:induction false} RectColsSplit(g: Grid, w: nat, h: nat, x: int, y: int, fx: Sign, fy: Sign, m: nat, n: nat,
                                         rows: nat, hi: bool)
    requires IsGrid(g, w, h)
    ensures Rect(g, w, h, x, y, fx, fy, m + n, rows, hi) ==
      Rect(g, w, h, x, y, fx, fy, m, rows, hi) + Rect(g, w, h, x - Step(fx, m), y, fx, fy, n, rows, hi)
    decreases rows
  {
    if rows > 0 {
      RectColsSplit(g, w, h, x, y, fx, fy, m, n, rows - 1, hi);
      RowSplit(g, w, h, x, y - Step(fy, rows - 1), fx, m, n, hi);
    }
  }

  lemma {:induction false} RectRowsSplit(g: Grid, w: nat, h: nat, x: int, y: int, fx: Sign, fy: Sign, cols: nat,
                                         m: nat, n: nat, hi: bool)
    requires IsGrid(g, w, h)
    ensures Rect(g, w, h, x, y, fx, fy, cols, m + n, hi) ==
      Rect(g, w, h, x, y, fx, fy, cols, m, hi) + Rect(g, w, h, x, y - Step(fy, m), fx, fy, cols, n, hi)
    decreases n
  {
    if n > 0 {
      RectRowsSplit(g, w, h, x, y, fx, fy, cols, m, n - 1, hi);
      assert y - Step(fy, m + n - 1) == y - Step(fy, m) - Step(fy, n - 1);
    }
  }

  lemma RectQuarters(g: Grid, w: nat, h: nat, x: int, y: int, fx: Sign, fy: Sign, d: nat, hi: bool)
    requires IsGrid(g, w, h)
    ensures Rect(g, w, h, x, y, fx, fy, 2 * d, 2 * d, hi) ==
      Rect(g, w, h, x, y, fx, fy, d, d, hi) + Rect(g, w, h, x - Step(fx, d), y, fx, fy, d, d, hi) +
      Rect(g, w, h, x, y - Step(fy, d), fx, fy, d, d, hi) + Rect(g, w, h, x - Step(fx, d), y - Step(fy, d), fx, fy, d, d, hi)
  {
    RectRowsSplit(g, w, h, x, y, fx, fy, 2 * d, d, d, hi);
    RectColsSplit(g, w, h, x, y, fx, fy, d, d, d, hi);
    RectColsSplit(g, w, h, x, y - Step(fy, d), fx, fy, d, d, d, hi);
  }

  /** A 2d square is the sum of its four d x d quarters. */
  lemma SquareSplit(g: Grid, w: nat, h: nat, x: int, y: int, fx: Sign, fy: Sign, d: nat)
    requires IsGrid(g, w, h)
    ensures Square(g, w, h, x, y, fx, fy, 2 * d) ==
      Add(Add(Square(g, w, h, x, y, fx, fy, d), Square(g, w, h, x - Step(fx, d), y, fx, fy, d)),
          Add(Square(g, w, h, x, y - Step(fy, d), fx, fy, d), Square(g, w, h, x - Step(fx, d), y - Step(fy, d), fx, fy, d)))
  {
    var x1, y1 := x - Step(fx, d), y - Step(fy, d);
    var q0, q1 := Square(g, w, h, x, y, fx, fy, d), Square(g, w, h, x1, y, fx, fy, d);
    var q2, q3 := Square(g, w, h, x, y1, fx, fy, d), Square(g, w, h, x1, y1, fx, fy, d);
    RectQuarters(g, w, h, x, y, fx, fy, d, false);
    RectQuarters(g, w, h, x, y, fx, fy, d, true);
    QuadSum(Square(g, w, h, x, y, fx, fy, 2 * d), q0, q1, q2, q3);
  }

  lemma QuadSum(r: Cell, q0: Cell, q1: Cell, q2: Cell, q3: Cell)
    requires r.lo == q0.lo + q1.lo + q2.lo + q3.lo && r.hi == q0.hi + q1.hi + q2.hi + q3.hi
    ensures r == Add(Add(q0, q1), Add(q2, q3))
  {
  }

  /** The pixel (x - a, y - b) of the quadrant lies in the grid and in the filled area. */
  predicate FilledAt(fill: Grid, w: nat, h: nat, x: int, y: int, fx: Sign, fy: Sign, a: int, b: int)
    requires IsGrid(fill, w, h)
  {
    InGrid(w, h, x - Step(fx, a), y - Step(fy, b)) && fill[y - Step(fy, b)][x - Step(fx, a)] != Zero
  }

  /** The len x len square ending at (x, y) lies in the grid and in the filled area. */
  predicate WindowFilled(fill: Grid, w: nat, h: nat, x: int, y: int, fx: Sign, fy: Sign, len: nat)
    requires IsGrid(fill, w, h)
  {
    forall a, b :: 0 <= a < len && 0 <= b < len ==> FilledAt(fill, w, h, x, y, fx, fy, a, b)
  }

  /** Every pixel whose len-square is filled holds the sum of g0 over that square. */
  predicate HoldsSquares(g: Grid, g0: Grid, fill: Grid, w: nat, h: nat, fx: Sign, fy: Sign, len: nat)
    requires IsGrid(g, w, h) && IsGrid(g0, w, h) && IsGrid(fill, w, h)
  {
    forall y, x :: 0 <= y < h && 0 <= x < w && WindowFilled(fill, w, h, x, y, fx, fy, len) ==>
      g[y][x] == Square(g0, w, h, x, y, fx, fy, len)
  }

  /** A quarter of a filled 2d-square is a filled d-square. */
  lemma WindowQuarter(fill: Grid, w: nat, h: nat, x: int, y: int, fx: Sign, fy: Sign, d: nat, oa: nat, ob: nat)
    requires IsGrid(fill, w, h) && WindowFilled(fill, w, h, x, y, fx, fy, 2 * d)
    requires (oa == 0 || oa == d) && (ob == 0 || ob == d)
    ensures WindowFilled(fill, w, h, x - Step(fx, oa), y - Step(fy, ob), fx, fy, d)
  {
    var x0, y0 := x - Step(fx, oa), y - Step(fy, ob);
    forall a, b | 0 <= a < d && 0 <= b < d
      ensures FilledAt(fill, w, h, x0, y0, fx, fy, a, b)
    {
      assert FilledAt(fill, w, h, x, y, fx, fy, a + oa, b + ob);
    }
  }

  /** The pixel at the corner of its filled square lies in the grid. */
  lemma WindowCorner(fill: Grid, w: nat, h: nat, x: int, y: int, fx: Sign, fy: Sign, len: nat)
    requires IsGrid(fill, w, h) && WindowFilled(fill, w, h, x, y, fx, fy, len) && len > 0
    ensures InGrid(w, h, x, y) && fill[y][x] != Zero
  {
    assert FilledAt(fill, w, h, x, y, fx, fy, 0, 0);
  }

  /** A pixel of the filled area whose three corners lie in the grid adds their texels. */
  lemma SumCellInside(g: Grid, fill: Grid, w: nat, h: nat, d: nat, fx: Sign, fy: Sign, b: Border, x: int, y: int)
    requires IsGrid(g, w, h) && IsGrid(fill, w, h) && 0 <= y < h && 0 <= x < w && fill[y][x] != Zero
    requires InGrid(w, h, x - Step(fx, d), y - Step(fy, d))
    ensures var x', y' := x - Step(fx, d), y - Step(fy, d);
      SumCell(g, fill, w, h, x, y, Step(fx, d), Step(fy, d), b) == Add(Add(g[y][x], g[y][x']), Add(g[y'][x], g[y'][x']))
  {
  }

  /** The four quarters of a filled 2d-square are filled d-squares. */
  lemma WindowQuarters(fill: Grid, w: nat, h: nat, x: int, y: int, fx: Sign, fy: Sign, d: nat)
    requires IsGrid(fill, w, h) && WindowFilled(fill, w, h, x, y, fx, fy, 2 * d) && d > 0
    ensures InGrid(w, h, x, y) && fill[y][x] != Zero && InGrid(w, h, x - Step(fx, d), y - Step(fy, d))
    ensures WindowFilled(fill, w, h, x, y, fx, fy, d)
    ensures WindowFilled(fill, w, h, x - Step(fx, d), y, fx, fy, d)
    ensures WindowFilled(fill, w, h, x, y - Step(fy, d), fx, fy, d)
    ensures WindowFilled(fill, w, h, x - Step(fx, d), y - Step(fy, d), fx, fy, d)
  {
    WindowCorner(fill, w, h, x, y, fx, fy, 2 * d);
    WindowQuarter(fill, w, h, x, y, fx, fy, d, 0, 0);
    WindowQuarter(fill, w, h, x, y, fx, fy, d, d, 0);
    WindowQuarter(fill, w, h, x, y, fx, fy, d, 0, d);
    WindowQuarter(fill, w, h, x, y, fx, fy, d, d, d);
    WindowCorner(fill, w, h, x - Step(fx, d), y - Step(fy, d), fx, fy, d);
  }

  /** One doubling pass at a pixel with a filled 2d-square adds up the four quarters. */
  lemma SumCellSquare(g: Grid, g0: Grid, fill: Grid, w: nat, h: nat, n: nat, fx: Sign, fy: Sign, b: Border, x: int, y: int)
    requires IsGrid(g, w, h) && IsGrid(g0, w, h) && IsGrid(fill, w, h) && 0 <= y < h && 0 <= x < w
    requires HoldsSquares(g, g0, fill, w, h, fx, fy, Pow2(n))
    requires WindowFilled(fill, w, h, x, y, fx, fy, Pow2(n + 1))
    ensures SumCell(g, fill, w, h, x, y, Step(fx, Pow2(n)), Step(fy, Pow2(n)), b) == Square(g0, w, h, x, y, fx, fy, Pow2(n + 1))
  {
    var d := Pow2(n);
    var x', y' := x - Step(fx, d), y - Step(fy, d);
    WindowQuarters(fill, w, h, x, y, fx, fy, d);
    SumCellInside(g, fill, w, h, d, fx, fy, b, x, y);
    SquareSplit(g0, w, h, x, y, fx, fy, d);
  }

  lemma SumPassSquares(g: Grid, g0: Grid, fill: Grid, w: nat, h: nat, n: nat, fx: Sign, fy: Sign, b: Border)
    requires IsGrid(g, w, h) && IsGrid(g0, w, h) && IsGrid(fill, w, h)
    requires HoldsSquares(g, g0, fill, w, h, fx, fy, Pow2(n))
    ensures HoldsSquares(SumPass(g, fill, w, h, n, fx, fy, b), g0, fill, w, h, fx, fy, Pow2(n + 1))
  {
    forall y, x | 0 <= y < h && 0 <= x < w && WindowFilled(fill, w, h, x, y, fx, fy, Pow2(n + 1))
      ensures SumPass(g, fill, w, h, n, fx, fy, b)[y][x] == Square(g0, w, h, x, y, fx, fy, Pow2(n + 1))
    {
      SumCellSquare(g, g0, fill, w, h, n, fx, fy, b, x, y);
    }
  }

  lemma {:induction false} SumFromSquares(g: Grid, g0: Grid, fill: Grid, w: nat, h: nat, n: nat, k: nat,
                                          fx: Sign, fy: Sign, b: Border)
    requires IsGrid(g, w, h) && IsGrid(g0, w, h) && IsGrid(fill, w, h)
    requires HoldsSquares(g, g0, fill, w, h, fx, fy, Pow2(n))
    ensures HoldsSquares(SumFrom(g, fill, w, h, n, k, fx, fy, b), g0, fill, w, h, fx, fy, Pow2(n + k))
    decreases k
  {
    if k > 0 {
      SumPassSquares(g, g0, fill, w, h, n, fx, fy, b);
      SumFromSquares(SumPass(g, fill, w, h, n, fx, fy, b), g0, fill, w, h, n + 1, k - 1, fx, fy, b);
    }
  }

  lemma SquaresSelf(g0: Grid, fill: Grid, w: nat, h: nat, fx: Sign, fy: Sign)
    requires IsGrid(g0, w, h) && IsGrid(fill, w, h)
    ensures HoldsSquares(g0, g0, fill, w, h, fx, fy, Pow2(0))
  {
    forall y: int, x: int | 0 <= y < h && 0 <= x < w
      ensures g0[y][x] == Square(g0, w, h, x, y, fx, fy, 1)
    {
      assert RowSum(g0, w, h, x, y, fx, 1, false) == g0[y][x].lo;
      assert RowSum(g0, w, h, x, y, fx, 1, true) == g0[y][x].hi;
    }
  }

  /**
   * k doubling passes give every pixel whose whole 2^k x 2^k square lies in
   * the filled area the sum of the initial values over that square.
   */
  lemma DoublingWindow(g0: Grid, fill: Grid, w: nat, h: nat, k: nat, fx: Sign, fy: Sign, b: Border, x: int, y: int)
    requires IsGrid(g0, w, h) && IsGrid(fill, w, h) && 0 <= y < h && 0 <= x < w
    requires WindowFilled(fill, w, h, x, y, fx, fy, Pow2(k))
    ensures SumFrom(g0, fill, w, h, 0, k, fx, fy, b)[y][x] == Square(g0, w, h, x, y, fx, fy, Pow2(k))
  {
    SquaresSelf(g0, fill, w, h, fx, fy);
    SumFromSquares(g0, g0, fill, w, h, 0, k, fx, fy, b);
  }

  /**
   * The counting stage leaves at a pixel whose 16 x 16 square is filled the
   * number of labelled pixels and their luminance sum over that square.
   */
  lemma CountWindow(labels: Grid, orig: Grid, fill: Grid, w: nat, h: nat, fx: Sign, fy: Sign, b: Border, x: int, y: int)
    requires IsGrid(labels, w, h) && IsGrid(orig, w, h) && IsGrid(fill, w, h) && 0 <= y < h && 0 <= x < w
    requires WindowFilled(fill, w, h, x, y, fx, fy, 16)
    ensures Count(labels, orig, fill, w, h, fx, fy, b)[y][x] == Square(CountInit(labels, orig, w, h), w, h, x, y, fx, fy, 16)
  {
    assert Pow2(NumSumPasses) == 16;
    DoublingWindow(CountInit(labels, orig, w, h), fill, w, h, NumSumPasses, fx, fy, b, x, y);
  }

  /** The same for a centroiding stage and its weighted distances. */
  lemma CentroidWindow(labels: Grid, orig: Grid, fill: Grid, w: nat, h: nat, coordinate: Coordinate,
                       fx: Sign, fy: Sign, b: Border, x: int, y: int)
    requires IsGrid(labels, w, h) && IsGrid(orig, w, h) && IsGrid(fill, w, h) && 0 <= y < h && 0 <= x < w
    requires WindowFilled(fill, w, h, x, y, fx, fy, 16)
    ensures Centroid(labels, orig, fill, w, h, coordinate, fx, fy, b)[y][x] ==
      Square(CentroidInit(labels, orig, w, h, coordinate), w, h, x, y, fx, fy, 16)
  {
    assert Pow2(NumSumPasses) == 16;
    DoublingWindow(CentroidInit(labels, orig, w, h, coordinate), fill, w, h, NumSumPasses, fx, fy, b, x, y);
  }

  // The channel widths.

  /** Every texel's halves are at most a and b in magnitude. */
  predicate Within(g: Grid, w: nat, h: nat, a: nat, b: nat)
    requires IsGrid(g, w, h)
  {
    forall y, x :: 0 <= y < h && 0 <= x < w ==>
      -(a as int) <= g[y][x].lo <= a && -(b as int) <= g[y][x].hi <= b
  }

  /** Every texel's halves are non-negative and at most a and b. */
  predicate Fits(g: Grid, w: nat, h: nat, a: nat, b: nat)
    requires IsGrid(g, w, h)
  {
    forall y, x :: 0 <= y < h && 0 <= x < w ==> 0 <= g[y][x].lo <= a && 0 <= g[y][x].hi <= b
  }

  lemma Pow4Scale(k: nat, a: nat)
    requires k > 0
    ensures Pow4(k - 1) * (4 * a) == Pow4(k) * a
  {
    assert Pow4(k) == 4 * Pow4(k - 1);
  }

  lemma WithinWeaken(g: Grid, w: nat, h: nat, a: nat, c: nat, a': nat, c': nat)
    requires IsGrid(g, w, h) && Within(g, w, h, a, c) && a <= a' && c <= c'
    ensures Within(g, w, h, a', c')
  {
  }

  lemma FitsWeaken(g: Grid, w: nat, h: nat, a: nat, c: nat, a': nat, c': nat)
    requires IsGrid(g, w, h) && Fits(g, w, h, a, c) && a <= a' && c <= c'
    ensures Fits(g, w, h, a', c')
  {
  }

  function Pow4(k: nat): (r: nat)
    ensures r >= 1
  {
    if k == 0 then 1 else 4 * Pow4(k - 1)
  }

  /** A sum of four texels whose halves are at most a and c in magnitude. */
  lemma QuadWithin(r: Cell, c0: Cell, c1: Cell, c2: Cell, c3: Cell, a: nat, c: nat)
    requires r == Add(Add(c0, c1), Add(c2, c3))
    requires -(a as int) <= c0.lo <= a && -(c as int) <= c0.hi <= c
    requires -(a as int) <= c1.lo <= a && -(c as int) <= c1.hi <= c
    requires -(a as int) <= c2.lo <= a && -(c as int) <= c2.hi <= c
    requires -(a as int) <= c3.lo <= a && -(c as int) <= c3.hi <= c
    ensures -4 * a <= r.lo <= 4 * a && -4 * c <= r.hi <= 4 * c
  {
  }

  /** A sum of four texels whose halves lie in 0..a and 0..c. */
  lemma QuadFits(r: Cell, c0: Cell, c1: Cell, c2: Cell, c3: Cell, a: nat, c: nat)
    requires r == Add(Add(c0, c1), Add(c2, c3))
    requires 0 <= c0.lo <= a && 0 <= c0.hi <= c
    requires 0 <= c1.lo <= a && 0 <= c1.hi <= c
    requires 0 <= c2.lo <= a && 0 <= c2.hi <= c
    requires 0 <= c3.lo <= a && 0 <= c3.hi <= c
    ensures 0 <= r.lo <= 4 * a && 0 <= r.hi <= 4 * c
  {
  }

  /** A sample of a grid is background or one of its texels, so it keeps their bounds. */
  lemma SampleWithin(g: Grid, w: nat, h: nat, x: int, y: int, b: Border, a: nat, c: nat)
    requires IsGrid(g, w, h) && w > 0 && h > 0 && Within(g, w, h, a, c)
    ensures -(a as int) <= SampleOrZero(g, w, h, x, y, b).lo <= a
    ensures -(c as int) <= SampleOrZero(g, w, h, x, y, b).hi <= c
  {
    var cx, cy := ClampTo(x, w), ClampTo(y, h);
    assert -(a as int) <= g[cy][cx].lo <= a && -(c as int) <= g[cy][cx].hi <= c;
  }

  lemma SampleFits(g: Grid, w: nat, h: nat, x: int, y: int, b: Border, a: nat, c: nat)
    requires IsGrid(g, w, h) && w > 0 && h > 0 && Fits(g, w, h, a, c)
    ensures 0 <= SampleOrZero(g, w, h, x, y, b).lo <= a
    ensures 0 <= SampleOrZero(g, w, h, x, y, b).hi <= c
  {
    var cx, cy := ClampTo(x, w), ClampTo(y, h);
    assert 0 <= g[cy][cx].lo <= a && 0 <= g[cy][cx].hi <= c;
  }

  /** A pixel of the filled area adds three corner samples, each within the bounds of the grid. */
  lemma SamplesWithin(g: Grid, fill: Grid, w: nat, h: nat, x: int, y: int, dx: int, dy: int, b: Border, a: nat, c: nat)
    returns (s1: Cell, s2: Cell, s3: Cell)
    requires IsGrid(g, w, h) && IsGrid(fill, w, h) && 0 <= x < w && 0 <= y < h && fill[y][x] != Zero
    requires Within(g, w, h, a, c)
    ensures SumCell(g, fill, w, h, x, y, dx, dy, b) == Add(Add(g[y][x], s1), Add(s2, s3))
    ensures -(a as int) <= s1.lo <= a && -(c as int) <= s1.hi <= c
    ensures -(a as int) <= s2.lo <= a && -(c as int) <= s2.hi <= c
    ensures -(a as int) <= s3.lo <= a && -(c as int) <= s3.hi <= c
  {
    s1 := SampleOrZero(g, w, h, x - dx, y, b);
    s2 := SampleOrZero(g, w, h, x, y - dy, b);
    s3 := SampleOrZero(g, w, h, x - dx, y - dy, b);
    SampleWithin(g, w, h, x - dx, y, b, a, c);
    SampleWithin(g, w, h, x, y - dy, b, a, c);
    SampleWithin(g, w, h, x - dx, y - dy, b, a, c);
  }

  lemma SamplesFit(g: Grid, fill: Grid, w: nat, h: nat, x: int, y: int, dx: int, dy: int, b: Border, a: nat, c: nat)
    returns (s1: Cell, s2: Cell, s3: Cell)
    requires IsGrid(g, w, h) && IsGrid(fill, w, h) && 0 <= x < w && 0 <= y < h && fill[y][x] != Zero
    requires Fits(g, w, h, a, c)
    ensures SumCell(g, fill, w, h, x, y, dx, dy, b) == Add(Add(g[y][x], s1), Add(s2, s3))
    ensures 0 <= s1.lo <= a && 0 <= s1.hi <= c
    ensures 0 <= s2.lo <= a && 0 <= s2.hi <= c
    ensures 0 <= s3.lo <= a && 0 <= s3.hi <= c
  {
    s1 := SampleOrZero(g, w, h, x - dx, y, b);
    s2 := SampleOrZero(g, w, h, x, y - dy, b);
    s3 := SampleOrZero(g, w, h, x - dx, y - dy, b);
    SampleFits(g, w, h, x - dx, y, b, a, c);
    SampleFits(g, w, h, x, y - dy, b, a, c);
    SampleFits(g, w, h, x - dx, y - dy, b, a, c);
  }

  lemma SumCellWithin(g: Grid, fill: Grid, w: nat, h: nat, x: int, y: int, dx: int, dy: int, b: Border, a: nat, c: nat)
    requires IsGrid(g, w, h) && IsGrid(fill, w, h) && 0 <= x < w && 0 <= y < h && Within(g, w, h, a, c)
    ensures -4 * a <= SumCell(g, fill, w, h, x, y, dx, dy, b).lo <= 4 * a
    ensures -4 * c <= SumCell(g, fill, w, h, x, y, dx, dy, b).hi <= 4 * c
  {
    if fill[y][x] != Zero {
      var s1, s2, s3 := SamplesWithin(g, fill, w, h, x, y, dx, dy, b, a, c);
      QuadWithin(SumCell(g, fill, w, h, x, y, dx, dy, b), g[y][x], s1, s2, s3, a, c);
    }
  }

  lemma SumCellFits(g: Grid, fill: Grid, w: nat, h: nat, x: int, y: int, dx: int, dy: int, b: Border, a: nat, c: nat)
    requires IsGrid(g, w, h) && IsGrid(fill, w, h) && 0 <= x < w && 0 <= y < h && Fits(g, w, h, a, c)
    ensures 0 <= SumCell(g, fill, w, h, x, y, dx, dy, b).lo <= 4 * a
    ensures 0 <= SumCell(g, fill, w, h, x, y, dx, dy, b).hi <= 4 * c
  {
    if fill[y][x] != Zero {
      var s1, s2, s3 := SamplesFit(g, fill, w, h, x, y, dx, dy, b, a, c);
      QuadFits(SumCell(g, fill, w, h, x, y, dx, dy, b), g[y][x], s1, s2, s3, a, c);
    }
  }

  /** A doubling pass at most quadruples the magnitudes. */
  lemma SumPassWithin(g: Grid, fill: Grid, w: nat, h: nat, n: nat, fx: Sign, fy: Sign, b: Border, a: nat, c: nat)
    requires IsGrid(g, w, h) && IsGrid(fill, w, h) && Within(g, w, h, a, c)
    ensures Within(SumPass(g, fill, w, h, n, fx, fy, b), w, h, 4 * a, 4 * c)
  {
    forall y: int, x: int | 0 <= y < h && 0 <= x < w
      ensures var r := SumPass(g, fill, w, h, n, fx, fy, b)[y][x]; -4 * a <= r.lo <= 4 * a && -4 * c <= r.hi <= 4 * c
    {
      SumCellWithin(g, fill, w, h, x, y, Step(fx, Pow2(n)), Step(fy, Pow2(n)), b, a, c);
    }
  }

  /** The same for unsigned values. */
  lemma SumPassFits(g: Grid, fill: Grid, w: nat, h: nat, n: nat, fx: Sign, fy: Sign, b: Border, a: nat, c: nat)
    requires IsGrid(g, w, h) && IsGrid(fill, w, h) && Fits(g, w, h, a, c)
    ensures Fits(SumPass(g, fill, w, h, n, fx, fy, b), w, h, 4 * a, 4 * c)
  {
    forall y: int, x: int | 0 <= y < h && 0 <= x < w
      ensures var r := SumPass(g, fill, w, h, n, fx, fy, b)[y][x]; 0 <= r.lo <= 4 * a && 0 <= r.hi <= 4 * c
    {
      SumCellFits(g, fill, w, h, x, y, Step(fx, Pow2(n)), Step(fy, Pow2(n)), b, a, c);
    }
  }

  lemma {:induction false} SumFromWithin(g: Grid, fill: Grid, w: nat, h: nat, n: nat, k: nat, fx: Sign, fy: Sign,
                                         b: Border, a: nat, c: nat)
    requires IsGrid(g, w, h) && IsGrid(fill, w, h) && Within(g, w, h, a, c)
    ensures Within(SumFrom(g, fill, w, h, n, k, fx, fy, b), w, h, Pow4(k) * a, Pow4(k) * c)
    decreases k
  {
    if k == 0 {
      WithinWeaken(g, w, h, a, c, Pow4(k) * a, Pow4(k) * c);
    } else {
      SumPassWithin(g, fill, w, h, n, fx, fy, b, a, c);
      var g1 := SumPass(g, fill, w, h, n, fx, fy, b);
      SumFromWithin(g1, fill, w, h, n + 1, k - 1, fx, fy, b, 4 * a, 4 * c);
      Pow4Scale(k, a);
      Pow4Scale(k, c);
      WithinWeaken(SumFrom(g1, fill, w, h, n + 1, k - 1, fx, fy, b), w, h,
                   Pow4(k - 1) * (4 * a), Pow4(k - 1) * (4 * c), Pow4(k) * a, Pow4(k) * c);
    }
  }

  lemma {:induction false} SumFromFits(g: Grid, fill: Grid, w: nat, h: nat, n: nat, k: nat, fx: Sign, fy: Sign,
                                       b: Border, a: nat, c: nat)
    requires IsGrid(g, w, h) && IsGrid(fill, w, h) && Fits(g, w, h, a, c)
    ensures Fits(SumFrom(g, fill, w, h, n, k, fx, fy, b), w, h, Pow4(k) * a, Pow4(k) * c)
    decreases k
  {
    if k == 0 {
      FitsWeaken(g, w, h, a, c, Pow4(k) * a, Pow4(k) * c);
    } else {
      SumPassFits(g, fill, w, h, n, fx, fy, b, a, c);
      var g1 := SumPass(g, fill, w, h, n, fx, fy, b);
      SumFromFits(g1, fill, w, h, n + 1, k - 1, fx, fy, b, 4 * a, 4 * c);
      Pow4Scale(k, a);
      Pow4Scale(k, c);
      FitsWeaken(SumFrom(g1, fill, w, h, n + 1, k - 1, fx, fy, b), w, h,
                 Pow4(k - 1) * (4 * a), Pow4(k - 1) * (4 * c), Pow4(k) * a, Pow4(k) * c);
    }
  }

  /**
   * The count and the luminance sum fit their unsigned 16-bit halves: at
   * most 256 pixels of luminance at most 255 take part, for any fill.
   */
  lemma CountFits(labels: Grid, orig: Grid, fill: Grid, w: nat, h: nat, fx: Sign, fy: Sign, b: Border)
    requires IsGrid(labels, w, h) && IsGrid(orig, w, h) && IsGrid(fill, w, h)
    ensures var r := Count(labels, orig, fill, w, h, fx, fy, b);
      Fits(r, w, h, 256, 256 * 255)
    ensures 256 * 255 < 0x1_0000
  {
    var g0 := CountInit(labels, orig, w, h);
    assert Fits(g0, w, h, 1, 255);
    SumFromFits(g0, fill, w, h, 0, NumSumPasses, fx, fy, b, 1, 255);
    assert Pow4(NumSumPasses) == 256;
    FitsWeaken(SumFrom(g0, fill, w, h, 0, NumSumPasses, fx, fy, b), w, h,
               Pow4(NumSumPasses) * 1, Pow4(NumSumPasses) * 255, 256, 256 * 255);
  }

  /** Every labelled pixel lies within r columns and r rows of its root. */
  predicate NearRoots(labels: Grid, w: nat, h: nat, r: nat)
    requires IsGrid(labels, w, h)
  {
    forall y, x :: 0 <= y < h && 0 <= x < w && labels[y][x] != Zero ==>
      -(r as int) <= Target(labels[y][x]).0 - x <= r && -(r as int) <= Target(labels[y][x]).1 - y <= r
  }

  lemma ProductBound(rel: int, l: int)
    requires -15 <= rel <= 15 && 0 <= l <= 255
    ensures -15 * 255 <= rel * l <= 15 * 255
  {
    if rel >= 0 {
      assert rel * l <= 15 * l;
    } else {
      assert (-rel) * l <= 15 * l;
    }
  }

  lemma CentroidInitWithin(labels: Grid, orig: Grid, w: nat, h: nat, coordinate: Coordinate)
    requires IsGrid(labels, w, h) && IsGrid(orig, w, h) && NearRoots(labels, w, h, 15)
    ensures Within(CentroidInit(labels, orig, w, h, coordinate), w, h, 15 * 255, 0)
  {
    var g0: Grid := CentroidInit(labels, orig, w, h, coordinate);
    forall y: int, x: int | 0 <= y < h && 0 <= x < w
      ensures -15 * 255 <= g0[y][x].lo <= 15 * 255 && g0[y][x].hi == 0
    {
      if labels[y][x] != Zero {
        var rel := if coordinate == -1 then Target(labels[y][x]).0 - x else Target(labels[y][x]).1 - y;
        ProductBound(rel, Luminance(orig[y][x]));
      }
    }
  }

  /**
   * When every labelled pixel lies within 15 pixels of its root, as in a
   * 16 x 16 window, a centroid sum is at most 256 * 15 * 255 in magnitude.
   */
  lemma CentroidWithin(labels: Grid, orig: Grid, fill: Grid, w: nat, h: nat, coordinate: Coordinate,
                       fx: Sign, fy: Sign, b: Border)
    requires IsGrid(labels, w, h) && IsGrid(orig, w, h) && IsGrid(fill, w, h) && NearRoots(labels, w, h, 15)
    ensures Within(Centroid(labels, orig, fill, w, h, coordinate, fx, fy, b), w, h, 256 * 15 * 255, 0)
  {
    CentroidInitWithin(labels, orig, w, h, coordinate);
    var g0 := CentroidInit(labels, orig, w, h, coordinate);
    SumFromWithin(g0, fill, w, h, 0, NumSumPasses, fx, fy, b, 15 * 255, 0);
    assert Pow4(NumSumPasses) == 256;
    WithinWeaken(SumFrom(g0, fill, w, h, 0, NumSumPasses, fx, fy, b), w, h,
                 Pow4(NumSumPasses) * (15 * 255), Pow4(NumSumPasses) * 0, 256 * 15 * 255, 0);
  }

  /** So its sign-magnitude word stays below 2^24 in magnitude and decodes back to it. */
  lemma CentroidFits(labels: Grid, orig: Grid, fill: Grid, w: nat, h: nat, coordinate: Coordinate,
                     fx: Sign, fy: Sign, b: Border)
    requires IsGrid(labels, w, h) && IsGrid(orig, w, h) && IsGrid(fill, w, h) && NearRoots(labels, w, h, 15)
    ensures var r := Centroid(labels, orig, fill, w, h, coordinate, fx, fy, b);
      forall y, x :: 0 <= y < h && 0 <= x < w ==>
        -0x100_0000 < r[y][x].lo < 0x100_0000 && SignDecode(SignMagnitude(r[y][x].lo)) == r[y][x].lo
  {
    CentroidWithin(labels, orig, fill, w, h, coordinate, fx, fy, b);
    var r: Grid := Centroid(labels, orig, fill, w, h, coordinate, fx, fy, b);
    forall y: int, x: int | 0 <= y < h && 0 <= x < w
      ensures -0x100_0000 < r[y][x].lo < 0x100_0000 && SignDecode(SignMagnitude(r[y][x].lo)) == r[y][x].lo
    {
      SignDecodeOfSignMagnitude(r[y][x].lo);
    }
  }
}
