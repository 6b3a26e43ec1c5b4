// The labeling algorithm of include/doc-labelphase.h as whole-grid passes:
// thresholding with initial labels and the hot-pixel filter (stage 1), then
// alternating merges with the highest label of a forward or backward mask
// (stage 2) and consolidations that follow each label to the pixel it names (stage 3). Every
// pass computes each output texel from the frozen previous grid.
module Labeling {
  import opened Grids

  type Pos = (int, int)

  /** A pixel's initial label: its coordinates plus one, (0,0) being background. */
  function LabelOf(x: int, y: int): Cell
  {
    Cell(x + 1, y + 1)
  }

  /** The pixel a label points to. */
  function Target(c: Cell): Pos
  {
    (c.lo - 1, c.hi - 1)
  }

  /**
   * a is a higher label than b: the order of the unsigned little-endian
   * word, whose upper half holds the y label.
   */
  predicate Above(a: Cell, b: Cell)
  {
    a.hi > b.hi || (a.hi == b.hi && a.lo > b.lo)
  }

  // ---------------------------------------------------------------- stage 1

  /** Below the cut-off t a pixel becomes background; above it keeps its intensity. */
  function Threshold(orig: Grid, w: nat, h: nat, t: int): (r: Grid)
    requires IsGrid(orig, w, h)
    ensures IsGrid(r, w, h)
  {
    seq(h, y requires 0 <= y < h => seq(w, x requires 0 <= x < w =>
      if orig[y][x].lo < t then Zero else Cell(orig[y][x].lo, 0)))
  }

  const Neighbours8: seq<Pos> := [(-1, -1), (0, -1), (1, -1), (-1, 0), (1, 0), (-1, 1), (0, 1), (1, 1)]

  /** All 8 sampled neighbours of (x, y) are background. */
  predicate Isolated(thr: Grid, w: nat, h: nat, x: int, y: int, b: Border)
    requires IsGrid(thr, w, h) && w > 0 && h > 0
  {
    forall k :: 0 <= k < |Neighbours8| ==>
      SampleOrZero(thr, w, h, x + Neighbours8[k].0, y + Neighbours8[k].1, b) == Zero
  }

  function InitialCell(thr: Grid, w: nat, h: nat, x: int, y: int, b: Border): Cell
    requires IsGrid(thr, w, h) && InGrid(w, h, x, y)
  {
    if thr[y][x] == Zero || Isolated(thr, w, h, x, y, b) then Zero else LabelOf(x, y)
  }

  /** Stage 1: threshold, then label every surviving pixel that is not an isolated hot pixel. */
  function InitialLabels(orig: Grid, w: nat, h: nat, t: int, b: Border): (r: Grid)
    requires IsGrid(orig, w, h) && w > 0 && h > 0
    ensures IsGrid(r, w, h)
  {
    var thr := Threshold(orig, w, h, t);
    seq(h, y requires 0 <= y < h => seq(w, x requires 0 <= x < w => InitialCell(thr, w, h, x, y, b)))
  }

  /** The neighbour at offset d of (x, y) is sampled and reaches the cut-off. */
  predicate Bright(orig: Grid, w: nat, h: nat, t: int, x: int, y: int, d: Pos, b: Border)
    requires IsGrid(orig, w, h) && w > 0 && h > 0
  {
    var s := Sample(orig, w, h, x + d.0, y + d.1, b);
    s.Some? && s.value.lo >= t
  }

  lemma ThresholdAt(orig: Grid, w: nat, h: nat, t: int, x: int, y: int, b: Border)
    requires IsGrid(orig, w, h) && w > 0 && h > 0 && t >= 1
    ensures var thr := Threshold(orig, w, h, t);
            (SampleOrZero(thr, w, h, x, y, b) != Zero) == (Sample(orig, w, h, x, y, b).Some? && Sample(orig, w, h, x, y, b).value.lo >= t)
  {
  }

  /**
   * Thresholding keeps the intensity of every pixel at or above the cut-off
   * and makes the rest background; doing it twice changes nothing.
   */
  lemma ThresholdKeepsIntensity(orig: Grid, w: nat, h: nat, t: int, x: int, y: int)
    requires IsGrid(orig, w, h) && InGrid(w, h, x, y) && t >= 1
    ensures var thr := Threshold(orig, w, h, t);
            (thr[y][x] != Zero <==> orig[y][x].lo >= t) &&
            (thr[y][x] != Zero ==> thr[y][x].lo == orig[y][x].lo) &&
            Threshold(thr, w, h, t)[y][x] == thr[y][x]
  {
  }

  /**
   * Stage 1 per pixel: a pixel gets its own label (x+1, y+1), never the
   * background label, exactly when it reaches the cut-off and one of its 8
   * sampled neighbours does too; every other pixel is background, so an
   * isolated hot pixel carries no label.
   */
  lemma InitialLabelsAt(orig: Grid, w: nat, h: nat, t: int, b: Border, x: int, y: int)
    requires IsGrid(orig, w, h) && w > 0 && h > 0 && t >= 1 && InGrid(w, h, x, y)
    ensures var r := InitialLabels(orig, w, h, t, b);
            r[y][x] == if orig[y][x].lo >= t && exists k :: 0 <= k < 8 && Bright(orig, w, h, t, x, y, Neighbours8[k], b)
                       then LabelOf(x, y) else Zero
    ensures LabelOf(x, y) != Zero
  {
    var thr := Threshold(orig, w, h, t);
    forall k | 0 <= k < 8
      ensures (SampleOrZero(thr, w, h, x + Neighbours8[k].0, y + Neighbours8[k].1, b) != Zero)
              == Bright(orig, w, h, t, x, y, Neighbours8[k], b)
    {
      ThresholdAt(orig, w, h, t, x + Neighbours8[k].0, y + Neighbours8[k].1, b);
    }
  }

  // ---------------------------------------------------------------- stage 2

  /** The 4 neighbour offsets of the forward mask; the backward mask mirrors them. */
  type Mask = m: seq<Pos> | |m| == 4 witness [(1, 0), (-1, 1), (0, 1), (1, 1)]

  /** The mask only reaches the 8 neighbours of a pixel. */
  predicate NeighbourMask(mask: Mask)
  {
    forall k :: 0 <= k < 4 ==> -1 <= mask[k].0 <= 1 && -1 <= mask[k].1 <= 1
  }

  /** A mask offset scaled by `u_factor`, which is always 1 or -1. */
  function Mirror(d: Pos, factor: int): Pos
  {
    if factor < 0 then (-d.0, -d.1) else d
  }

  /** The 4 mask texels of (x, y); factor 1 is the forward and -1 the backward mask. */
  function MaskSamples(g: Grid, w: nat, h: nat, mask: Mask, factor: int, x: int, y: int, b: Border): (s: seq<Cell>)
    requires IsGrid(g, w, h) && w > 0 && h > 0
    ensures |s| == 4
  {
    seq(4, k requires 0 <= k < 4 => SampleOrZero(g, w, h, x + Mirror(mask[k], factor).0, y + Mirror(mask[k], factor).1, b))
  }

  /** The highest label among c and s. */
  function Highest(c: Cell, s: seq<Cell>): (r: Cell)
    ensures r == c || r in s
    ensures !Above(c, r)
    ensures forall k :: 0 <= k < |s| ==> !Above(s[k], r)
    decreases |s|
  {
    if s == [] then c
    else
      var m := Highest(c, s[..|s| - 1]);
      if Above(s[|s| - 1], m) then s[|s| - 1] else m
  }

  function MergeCell(g: Grid, w: nat, h: nat, mask: Mask, factor: int, x: int, y: int, b: Border): Cell
    requires IsGrid(g, w, h) && InGrid(w, h, x, y)
  {
    if g[y][x] == Zero then Zero else Highest(g[y][x], MaskSamples(g, w, h, mask, factor, x, y, b))
  }

  /** Stage 2: every labelled pixel takes the highest label of the 5 pixels of its mask. */
  function Merge(g: Grid, w: nat, h: nat, mask: Mask, factor: int, b: Border): (r: Grid)
    requires IsGrid(g, w, h) && w > 0 && h > 0
    ensures IsGrid(r, w, h)
  {
    seq(h, y requires 0 <= y < h => seq(w, x requires 0 <= x < w => MergeCell(g, w, h, mask, factor, x, y, b)))
  }

  predicate Unsigned(g: Grid, w: nat, h: nat)
    requires IsGrid(g, w, h)
  {
    forall y, x :: 0 <= y < h && 0 <= x < w ==> g[y][x].lo >= 0 && g[y][x].hi >= 0
  }

  /**
   * A merge keeps the background and the labelled pixels where they are,
   * never lowers a label, and leaves each labelled pixel with the highest of
   * the 5 labels of its mask, all of which were there before.
   */
  lemma MergeAt(g: Grid, w: nat, h: nat, mask: Mask, factor: int, b: Border, x: int, y: int)
    requires IsGrid(g, w, h) && w > 0 && h > 0 && Unsigned(g, w, h) && InGrid(w, h, x, y)
    ensures var r := Merge(g, w, h, mask, factor, b);
            var s := MaskSamples(g, w, h, mask, factor, x, y, b);
            (r[y][x] == Zero <==> g[y][x] == Zero) &&
            !Above(g[y][x], r[y][x]) &&
            (g[y][x] != Zero ==> (r[y][x] == g[y][x] || r[y][x] in s) && forall k :: 0 <= k < 4 ==> !Above(s[k], r[y][x]))
  {
  }

  // ---------------------------------------------------------------- stage 3

  function ConsolidateCell(g: Grid, w: nat, h: nat, x: int, y: int, b: Border): Cell
    requires IsGrid(g, w, h) && InGrid(w, h, x, y)
  {
    if g[y][x] == Zero then Zero
    else SampleOrZero(g, w, h, Target(g[y][x]).0, Target(g[y][x]).1, b)
  }

  /** Stage 3: every labelled pixel copies the label of the pixel its label points to. */
  function Consolidate(g: Grid, w: nat, h: nat, b: Border): (r: Grid)
    requires IsGrid(g, w, h) && w > 0 && h > 0
    ensures IsGrid(r, w, h)
  {
    seq(h, y requires 0 <= y < h => seq(w, x requires 0 <= x < w => ConsolidateCell(g, w, h, x, y, b)))
  }

  /** Neither pass invents a label: each output texel is background or was in the input. */
  lemma PassesCopyLabels(g: Grid, w: nat, h: nat, mask: Mask, factor: int, b: Border, x: int, y: int)
    requires IsGrid(g, w, h) && w > 0 && h > 0 && InGrid(w, h, x, y)
    ensures var m := Merge(g, w, h, mask, factor, b)[y][x];
            m == Zero || Occurs(g, w, h, m)
    ensures var c := Consolidate(g, w, h, b)[y][x];
            c == Zero || Occurs(g, w, h, c)
  {
    var s := MaskSamples(g, w, h, mask, factor, x, y, b);
    var m := Merge(g, w, h, mask, factor, b)[y][x];
    if m != Zero && m != g[y][x] {
      var k :| 0 <= k < 4 && s[k] == m;
      SampleOccurs(g, w, h, x + Mirror(mask[k], factor).0, y + Mirror(mask[k], factor).1, b);
    }
    SampleOccurs(g, w, h, Target(g[y][x]).0, Target(g[y][x]).1, b);
  }

  // ------------------------------------------------------- the pass sequence

  /** `u_factor` at loop pass i (odd): it starts at -1 and flips before every merge. */
  function MergeFactor(i: nat): int
  {
    if (i / 2) % 2 == 0 then 1 else -1
  }

  /** Loop pass i: a merge for odd i, a consolidation for even i. */
  function LoopPass(g: Grid, w: nat, h: nat, mask: Mask, b: Border, i: nat): (r: Grid)
    requires IsGrid(g, w, h) && w > 0 && h > 0
    ensures IsGrid(r, w, h)
  {
    if i % 2 == 1 then Merge(g, w, h, mask, MergeFactor(i), b) else Consolidate(g, w, h, b)
  }

  /** The grid after loop passes 1..n. */
  function AfterLoop(g: Grid, w: nat, h: nat, mask: Mask, b: Border, n: nat): (r: Grid)
    requires IsGrid(g, w, h) && w > 0 && h > 0
    ensures IsGrid(r, w, h)
  {
    if n == 0 then g else LoopPass(AfterLoop(g, w, h, mask, b, n - 1), w, h, mask, b, n)
  }

  /** The labels after stage 1 and n loop passes. */
  function Labels(orig: Grid, w: nat, h: nat, t: int, mask: Mask, b: Border, n: nat): (r: Grid)
    requires IsGrid(orig, w, h) && w > 0 && h > 0
    ensures IsGrid(r, w, h)
  {
    AfterLoop(InitialLabels(orig, w, h, t, b), w, h, mask, b, n)
  }

  lemma MergeFactorAlternates(i: nat)
    requires i % 2 == 1
    ensures MergeFactor(1) == 1 && MergeFactor(i + 2) == -MergeFactor(i)
  {
    assert (i + 2) / 2 == i / 2 + 1;
  }

  // ---------------------------------------------- connectivity of the labels

  /** Foreground flags: region[y][x] says whether pixel (x, y) is foreground. */
  type Region = seq<seq<bool>>

  /** The foreground of a label grid. */
  function Foreground(g: Grid, w: nat, h: nat): (fg: Region)
    requires IsGrid(g, w, h)
    ensures |fg| == h && forall y :: 0 <= y < h ==> |fg[y]| == w
    ensures forall y, x :: 0 <= y < h && 0 <= x < w ==> (fg[y][x] <==> g[y][x] != Zero)
  {
    seq(h, y requires 0 <= y < h => seq(w, x requires 0 <= x < w => g[y][x] != Zero))
  }

  /** Pixels that touch, diagonals included (or coincide). */
  predicate Adjacent(p: Pos, q: Pos)
  {
    -1 <= p.0 - q.0 <= 1 && -1 <= p.1 - q.1 <= 1
  }

  predicate In(fg: Region, p: Pos)
  {
    0 <= p.1 < |fg| && 0 <= p.0 < |fg[p.1]| && fg[p.1][p.0]
  }

  predicate IsPath(fg: Region, path: seq<Pos>)
  {
    |path| >= 1 &&
    (forall i :: 0 <= i < |path| ==> In(fg, path[i])) &&
    (forall i :: 0 <= i < |path| - 1 ==> Adjacent(path[i], path[i + 1]))
  }

  /** p and q lie in the same 8-connected area of the foreground fg. */
  ghost predicate Connected(fg: Region, p: Pos, q: Pos)
  {
    exists path :: IsPath(fg, path) && path[0] == p && path[|path| - 1] == q
  }

  lemma ConnectedSelf(fg: Region, p: Pos)
    requires In(fg, p)
    ensures Connected(fg, p, p)
  {
    assert IsPath(fg, [p]);
  }

  lemma ConnectedEnds(fg: Region, p: Pos, q: Pos)
    requires Connected(fg, p, q)
    ensures In(fg, p) && In(fg, q)
  {
    var path :| IsPath(fg, path) && path[0] == p && path[|path| - 1] == q;
    assert In(fg, path[|path| - 1]);
  }

  lemma ConnectedStep(fg: Region, p: Pos, q: Pos)
    requires In(fg, p) && In(fg, q) && Adjacent(p, q)
    ensures Connected(fg, p, q)
  {
    assert IsPath(fg, [p, q]);
  }

  lemma ConnectedTrans(fg: Region, p: Pos, q: Pos, r: Pos)
    requires Connected(fg, p, q) && Connected(fg, q, r)
    ensures Connected(fg, p, r)
  {
    var a :| IsPath(fg, a) && a[0] == p && a[|a| - 1] == q;
    var c :| IsPath(fg, c) && c[0] == q && c[|c| - 1] == r;
    var path := a + c[1..];
    forall i | 0 <= i < |path| - 1
      ensures Adjacent(path[i], path[i + 1])
    {
      if i < |a| - 1 {
        assert path[i] == a[i] && path[i + 1] == a[i + 1];
      } else if i == |a| - 1 {
        assert path[i] == q == c[0] && path[i + 1] == c[1];
      } else {
        assert path[i] == c[i - |a| + 1] && path[i + 1] == c[i - |a| + 2];
      }
    }
    forall i | 0 <= i < |path|
      ensures In(fg, path[i])
    {
      if i >= |a| {
        assert path[i] == c[i - |a| + 1];
      }
    }
    assert IsPath(fg, path);
    assert path[|path| - 1] == r;
  }

  lemma ConnectedSym(fg: Region, p: Pos, q: Pos)
    requires Connected(fg, p, q)
    ensures Connected(fg, q, p)
  {
    var a :| IsPath(fg, a) && a[0] == p && a[|a| - 1] == q;
    var rev := seq(|a|, i requires 0 <= i < |a| => a[|a| - 1 - i]);
    forall i | 0 <= i < |rev| - 1
      ensures Adjacent(rev[i], rev[i + 1])
    {
      assert Adjacent(a[|a| - 2 - i], a[|a| - 1 - i]);
    }
    assert IsPath(fg, rev);
  }

  /** g has the foreground fg and every label of g names a pixel connected to its holder in fg. */
  ghost predicate SoundLabels(g: Grid, fg: Region, w: nat, h: nat)
    requires IsGrid(g, w, h)
  {
    |fg| == h && (forall y :: 0 <= y < h ==> |fg[y]| == w) &&
    (forall y, x {:trigger g[y][x]} :: 0 <= y < h && 0 <= x < w ==> (g[y][x] != Zero <==> In(fg, (x, y)))) &&
    (forall y, x {:trigger g[y][x]} :: 0 <= y < h && 0 <= x < w && g[y][x] != Zero ==> Connected(fg, (x, y), Target(g[y][x])))
  }

  lemma InitialLabelsSound(orig: Grid, w: nat, h: nat, t: int, b: Border)
    requires IsGrid(orig, w, h) && w > 0 && h > 0
    ensures var g0 := InitialLabels(orig, w, h, t, b);
            SoundLabels(g0, Foreground(g0, w, h), w, h)
  {
    var g0 := InitialLabels(orig, w, h, t, b);
    var fg := Foreground(g0, w, h);
    forall y, x | 0 <= y < h && 0 <= x < w && g0[y][x] != Zero
      ensures Connected(fg, (x, y), Target(g0[y][x]))
    {
      assert Target(g0[y][x]) == (x, y);
      ConnectedSelf(fg, (x, y));
    }
  }

  /**
   * A merged label is background or is copied from the pixel itself or from
   * a pixel next to it.
   */
  lemma MergeSource(g: Grid, w: nat, h: nat, mask: Mask, factor: int, b: Border, x: int, y: int) returns (q: Pos)
    requires IsGrid(g, w, h) && w > 0 && h > 0 && InGrid(w, h, x, y) && NeighbourMask(mask)
    ensures var m := MergeCell(g, w, h, mask, factor, x, y, b);
            m == Zero || (InGrid(w, h, q.0, q.1) && Adjacent((x, y), q) && g[q.1][q.0] == m)
  {
    q := (x, y);
    var m := MergeCell(g, w, h, mask, factor, x, y, b);
    if g[y][x] != Zero && m != g[y][x] {
      var s := MaskSamples(g, w, h, mask, factor, x, y, b);
      var k :| 0 <= k < 4 && s[k] == m;
      var d := Mirror(mask[k], factor);
      assert s[k] == SampleOrZero(g, w, h, x + d.0, y + d.1, b);
      q := (ClampTo(x + d.0, w), ClampTo(y + d.1, h));
    }
  }

  lemma MergeCellSound(g: Grid, fg: Region, w: nat, h: nat, mask: Mask, factor: int, b: Border, x: int, y: int)
    requires IsGrid(g, w, h) && w > 0 && h > 0 && InGrid(w, h, x, y)
    requires NeighbourMask(mask)
    requires SoundLabels(g, fg, w, h)
    ensures var m := MergeCell(g, w, h, mask, factor, x, y, b);
            (m != Zero <==> In(fg, (x, y))) &&
            (m != Zero ==> Connected(fg, (x, y), Target(m)))
  {
    var m := MergeCell(g, w, h, mask, factor, x, y, b);
    var q := MergeSource(g, w, h, mask, factor, b, x, y);
    if g[y][x] != Zero {
      var p := (x, y);
      ConnectedEnds(fg, p, Target(g[y][x]));
      assert !Above(g[y][x], m);
      assert m != Zero;
      assert g[q.1][q.0] == m;
      ConnectedStep(fg, p, q);
      ConnectedTrans(fg, p, q, Target(m));
    }
  }

  /** A merge keeps the foreground and keeps every label inside its holder's area. */
  lemma MergeSound(g: Grid, fg: Region, w: nat, h: nat, mask: Mask, factor: int, b: Border)
    requires IsGrid(g, w, h) && w > 0 && h > 0
    requires NeighbourMask(mask)
    requires SoundLabels(g, fg, w, h)
    ensures SoundLabels(Merge(g, w, h, mask, factor, b), fg, w, h)
  {
    var r := Merge(g, w, h, mask, factor, b);
    forall y, x | 0 <= y < h && 0 <= x < w
      ensures r[y][x] != Zero <==> In(fg, (x, y))
      ensures r[y][x] != Zero ==> Connected(fg, (x, y), Target(r[y][x]))
    {
      assert r[y][x] == MergeCell(g, w, h, mask, factor, x, y, b);
      MergeCellSound(g, fg, w, h, mask, factor, b, x, y);
    }
  }

  lemma ConsolidateCellSound(g: Grid, fg: Region, w: nat, h: nat, b: Border, x: int, y: int)
    requires IsGrid(g, w, h) && w > 0 && h > 0 && InGrid(w, h, x, y)
    requires SoundLabels(g, fg, w, h)
    ensures var c := ConsolidateCell(g, w, h, x, y, b);
            (c != Zero <==> In(fg, (x, y))) &&
            (c != Zero ==> Connected(fg, (x, y), Target(c)))
  {
    if g[y][x] != Zero {
      var p := (x, y);
      var q := Target(g[y][x]);
      ConnectedEnds(fg, p, q);
      var c := ConsolidateCell(g, w, h, x, y, b);
      assert c == g[q.1][q.0];
      ConnectedTrans(fg, p, q, Target(c));
    }
  }

  /** A consolidation keeps the foreground and keeps every label inside its holder's area. */
  lemma ConsolidateSound(g: Grid, fg: Region, w: nat, h: nat, b: Border)
    requires IsGrid(g, w, h) && w > 0 && h > 0
    requires SoundLabels(g, fg, w, h)
    ensures SoundLabels(Consolidate(g, w, h, b), fg, w, h)
  {
    var r := Consolidate(g, w, h, b);
    forall y, x | 0 <= y < h && 0 <= x < w
      ensures r[y][x] != Zero <==> In(fg, (x, y))
      ensures r[y][x] != Zero ==> Connected(fg, (x, y), Target(r[y][x]))
    {
      assert r[y][x] == ConsolidateCell(g, w, h, x, y, b);
      ConsolidateCellSound(g, fg, w, h, b, x, y);
    }
  }

  lemma {:induction false} AfterLoopSound(g0: Grid, fg: Region, w: nat, h: nat, mask: Mask, b: Border, n: nat)
    requires IsGrid(g0, w, h) && w > 0 && h > 0 && NeighbourMask(mask)
    requires SoundLabels(g0, fg, w, h)
    ensures SoundLabels(AfterLoop(g0, w, h, mask, b, n), fg, w, h)
  {
    if n > 0 {
      var g := AfterLoop(g0, w, h, mask, b, n - 1);
      assert SoundLabels(g, fg, w, h) by {
        AfterLoopSound(g0, fg, w, h, mask, b, n - 1);
      }
      if n % 2 == 1 {
        assert AfterLoop(g0, w, h, mask, b, n) == Merge(g, w, h, mask, MergeFactor(n), b);
        MergeSound(g, fg, w, h, mask, MergeFactor(n), b);
      } else {
        assert AfterLoop(g0, w, h, mask, b, n) == Consolidate(g, w, h, b);
        ConsolidateSound(g, fg, w, h, b);
      }
    }
  }

  /**
   * The labeling result: the foreground is exactly stage 1's, and every
   * foreground pixel's label names a foreground pixel of its own 8-connected
   * area, so two pixels that share a label lie in the same area.
   */
  lemma LabelsSound(orig: Grid, w: nat, h: nat, t: int, mask: Mask, b: Border, n: nat, x: int, y: int, x': int, y': int)
    requires IsGrid(orig, w, h) && w > 0 && h > 0 && NeighbourMask(mask)
    requires InGrid(w, h, x, y) && InGrid(w, h, x', y')
    ensures var g0 := InitialLabels(orig, w, h, t, b);
            var fg := Foreground(g0, w, h);
            var g := Labels(orig, w, h, t, mask, b, n);
            (g[y][x] != Zero <==> g0[y][x] != Zero) &&
            (g[y][x] != Zero ==> In(fg, Target(g[y][x])) && Connected(fg, (x, y), Target(g[y][x]))) &&
            (g[y][x] != Zero && g[y][x] == g[y'][x'] ==> Connected(fg, (x, y), (x', y')))
  {
    var g0 := InitialLabels(orig, w, h, t, b);
    var fg := Foreground(g0, w, h);
    var g := Labels(orig, w, h, t, mask, b, n);
    InitialLabelsSound(orig, w, h, t, b);
    AfterLoopSound(g0, fg, w, h, mask, b, n);
    assert g[y][x] != Zero <==> In(fg, (x, y));
    if g[y][x] != Zero {
      ConnectedEnds(fg, (x, y), Target(g[y][x]));
      if g[y][x] == g[y'][x'] {
        assert g[y'][x'] != Zero;
        ConnectedSym(fg, (x', y'), Target(g[y][x]));
        ConnectedTrans(fg, (x, y), Target(g[y][x]), (x', y'));
      }
    }
  }
}
