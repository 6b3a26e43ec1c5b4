// The reduction algorithm of include/doc-reductionphase.h: keep only the root
// pixels, then compact every row to the left and every column to the top, so
// that the labels of all connected areas form a list in the top-left corner.
// One row (or column) is compacted by a running sum of the zero pixels
// followed by a binary search of each destination for its source. Every pass
// computes each output texel from the frozen previous grid.
module Reduction {
  import opened Phase
  import opened Grids
  import opened Labeling

  // ------------------------------------------------------- root filtering

  function RootCell(c: Cell, x: int, y: int): Cell
  {
    if c == LabelOf(x, y) then c else Zero
  }

  /** The root pass: every pixel whose label is not its own coordinates becomes background. */
  function RootFilter(g: Grid, w: nat, h: nat): (r: Grid)
    requires IsGrid(g, w, h)
    ensures IsGrid(r, w, h)
  {
    seq(h, y requires 0 <= y < h => seq(w, x requires 0 <= x < w => RootCell(g[y][x], x, y)))
  }

  /**
   * Exactly the root pixels survive, unchanged, and no two surviving pixels
   * carry the same label.
   */
  lemma RootFilterAt(g: Grid, w: nat, h: nat, x: int, y: int, x': int, y': int)
    requires IsGrid(g, w, h) && InGrid(w, h, x, y) && InGrid(w, h, x', y')
    ensures var r := RootFilter(g, w, h);
            (r[y][x] != Zero <==> g[y][x] == LabelOf(x, y)) &&
            (r[y][x] != Zero ==> r[y][x] == g[y][x]) &&
            (r[y][x] != Zero && r[y][x] == r[y'][x'] ==> x == x' && y == y')
  {
  }

  // ------------------------------------------------------------ one row

  type Row = seq<Cell>

  /** A sample of a row at k; outside the row it is clamped or, guarded, absent. */
  function RowSample(v: Row, k: int, b: Border): (o: Option<Cell>)
    requires |v| > 0
    ensures 0 <= k < |v| ==> o == Some(v[k])
    ensures !(0 <= k < |v|) && b == Guard ==> o == None
    ensures b == Clamp ==> o == Some(v[ClampTo(k, |v|)])
  {
    if 0 <= k < |v| then Some(v[k]) else if b == Guard then None else Some(v[ClampTo(k, |v|)])
  }

  /** A zero pixel is a gap that the compaction closes. */
  function Gap(c: Cell): nat
  {
    if c == Zero then 1 else 0
  }

  /** The number of gaps among v[..k]. */
  function GapsBefore(v: Row, k: nat): (r: nat)
    requires k <= |v|
    ensures r <= k
  {
    if k == 0 then 0 else GapsBefore(v, k - 1) + Gap(v[k - 1])
  }

  /** The labels of v[..k] in order, gaps dropped. */
  function NonZerosBefore(v: Row, k: nat): (r: Row)
    requires k <= |v|
    ensures |r| == k - GapsBefore(v, k)
    ensures forall i :: 0 <= i < |r| ==> r[i] != Zero && r[i] in v[..k]
  {
    if k == 0 then []
    else
      var r := NonZerosBefore(v, k - 1);
      assert v[..k - 1] <= v[..k];
      if v[k - 1] == Zero then r else r + [v[k - 1]]
  }

  function NonZeros(v: Row): Row
  {
    NonZerosBefore(v, |v|)
  }

  function Max0(a: int): nat
  {
    if a < 0 then 0 else a
  }

  // Stage 2: the running sum of the gaps.

  function SumInitCell(v: Row, k: int, b: Border): Cell
    requires |v| > 0 && 0 <= k < |v|
  {
    var left := match RowSample(v, k - 1, b) case Some(c) => Gap(c) case None => 0;
    Cell(Gap(v[k]) + left, 0)
  }

  /** Pass 0 of the running sum: a gap counts 1, and a gap to the left 1 more. */
  function SumInit(v: Row, b: Border): (s: Row)
    requires |v| > 0
    ensures |s| == |v|
  {
    seq(|v|, k requires 0 <= k < |v| => SumInitCell(v, k, b))
  }

  function SumPassCell(s: Row, i: nat, k: int, b: Border): Cell
    requires |s| > 0 && 0 <= k < |s|
  {
    var left := match RowSample(s, k - Pow2(i), b) case Some(c) => c.lo case None => 0;
    Cell(s[k].lo + left, 0)
  }

  /** Pass i >= 1 of the running sum: each pixel adds the value 2^i to its left. */
  function SumPass(s: Row, i: nat, b: Border): (r: Row)
    requires |s| > 0
    ensures |r| == |s|
  {
    seq(|s|, k requires 0 <= k < |s| => SumPassCell(s, i, k, b))
  }

  /** The row after running-sum passes 0..j-1. */
  function RunningSum(v: Row, j: nat, b: Border): (s: Row)
    requires |v| > 0
    ensures |s| == |v|
  {
    if j == 0 then v
    else if j == 1 then SumInit(v, b)
    else SumPass(RunningSum(v, j - 1, b), j - 1, b)
  }

  /** The number of gaps among the len pixels ending at k (fewer at the left edge). */
  function Window(v: Row, k: int, len: nat): int
    requires 0 <= k < |v|
  {
    GapsBefore(v, k + 1) - GapsBefore(v, Max0(k + 1 - len))
  }

  lemma WindowSplit(v: Row, k: int, len: nat)
    requires 0 <= k < |v|
    ensures k >= len ==> Window(v, k, 2 * len) == Window(v, k, len) + Window(v, k - len, len)
    ensures k < len ==> Window(v, k, 2 * len) == Window(v, k, len)
  {
  }

  lemma SumInitWindow(v: Row, k: int)
    requires 0 <= k < |v|
    ensures SumInitCell(v, k, Guard) == Cell(Window(v, k, 2), 0)
  {
    if k >= 1 {
      assert GapsBefore(v, k + 1) == GapsBefore(v, k - 1) + Gap(v[k - 1]) + Gap(v[k]);
      assert Window(v, k, 2) == Gap(v[k - 1]) + Gap(v[k]);
    } else {
      assert Window(v, k, 2) == Gap(v[k]);
    }
  }

  lemma SumPassWindow(s: Row, v: Row, i: nat, k: int)
    requires |s| == |v| && 0 <= k < |v|
    requires s[k] == Cell(Window(v, k, Pow2(i)), 0)
    requires k >= Pow2(i) ==> s[k - Pow2(i)] == Cell(Window(v, k - Pow2(i), Pow2(i)), 0)
    ensures SumPassCell(s, i, k, Guard) == Cell(Window(v, k, 2 * Pow2(i)), 0)
  {
    WindowSplit(v, k, Pow2(i));
  }

  /**
   * After j >= 1 passes a pixel holds the number of gaps in the 2^j pixels
   * ending at it (fewer at the left edge).
   */
  lemma {:induction false} RunningSumWindow(v: Row, j: nat, k: int)
    requires |v| > 0 && j >= 1 && 0 <= k < |v|
    ensures RunningSum(v, j, Guard)[k] == Cell(Window(v, k, Pow2(j)), 0)
  {
    if j == 1 {
      assert Pow2(1) == 2;
      SumInitWindow(v, k);
    } else {
      var s := RunningSum(v, j - 1, Guard);
      var p := Pow2(j - 1);
      assert s[k] == Cell(Window(v, k, p), 0) by {
        RunningSumWindow(v, j - 1, k);
      }
      assert k >= p ==> s[k - p] == Cell(Window(v, k - p, p), 0) by {
        if k >= p {
          RunningSumWindow(v, j - 1, k - p);
        }
      }
      SumPassWindow(s, v, j - 1, k);
      assert Pow2(j) == 2 * p;
      assert RunningSum(v, j, Guard)[k] == SumPassCell(s, j - 1, k, Guard);
    }
  }

  /**
   * After BitLength(|v|) passes, every pixel holds the number of gaps up to
   * and including it, a sum that never decreases along the row.
   */
  lemma RunningSumPrefix(v: Row, k: int)
    requires |v| > 0 && 0 <= k < |v|
    ensures RunningSum(v, BitLength(|v|), Guard)[k] == Cell(GapsBefore(v, k + 1), 0)
    ensures k + 1 < |v| ==> RunningSum(v, BitLength(|v|), Guard)[k].lo <= RunningSum(v, BitLength(|v|), Guard)[k + 1].lo
  {
    RunningSumWindow(v, BitLength(|v|), k);
    assert Max0(k + 1 - Pow2(BitLength(|v|))) == 0;
    if k + 1 < |v| {
      RunningSumWindow(v, BitLength(|v|), k + 1);
      assert Max0(k + 2 - Pow2(BitLength(|v|))) == 0;
    }
  }

  // Stage 3: binary search of each destination for its source.

  /**
   * Destination k must look beyond q: q is in the row and more gaps lie up
   * to q than the distance from k to q can close.
   */
  predicate Beyond(v: Row, k: int, q: int)
  {
    0 <= q < |v| && GapsBefore(v, q + 1) > q - k
  }

  function SearchCell(st: Row, i: nat, k: int, b: Border): Cell
    requires |st| > 0 && 0 <= k < |st|
  {
    var o := st[k].hi;
    var q := k + o + Pow2(i) - 1;
    var far := match RowSample(st, q, b) case Some(c) => c.lo > q - k case None => false;
    Cell(st[k].lo, if far then o + Pow2(i) else o)
  }

  /**
   * Search pass i >= 1: each destination keeps the running sum in `lo` and
   * its search offset in `hi`, and moves 2^i further right when the sum
   * found there exceeds the distance.
   */
  function SearchPass(st: Row, i: nat, b: Border): (r: Row)
    requires |st| > 0
    ensures |r| == |st|
  {
    seq(|st|, k requires 0 <= k < |st| => SearchCell(st, i, k, b))
  }

  /** Search passes i-1 down to 1. */
  function Descend(st: Row, i: nat, b: Border): (r: Row)
    requires |st| > 0
    ensures |r| == |st|
    decreases i
  {
    if i <= 1 then st else Descend(SearchPass(st, i - 1, b), i - 1, b)
  }

  function FinalCell(st: Row, v: Row, k: int, b: Border): Cell
    requires |st| == |v| > 0 && 0 <= k < |st|
  {
    var o := st[k].hi;
    var q := k + o;
    var o' := match RowSample(st, q, b) case Some(c) => (if c.lo > q - k then o + 1 else o) case None => o;
    var src := k + o';
    match RowSample(st, src, b)
    case None => Zero
    case Some(a) =>
      match RowSample(v, src, b)
      case None => Zero
      case Some(c) => if a.lo == src - k then c else Zero
  }

  /**
   * Search pass 0: the last step of size 1, then the copy of the source
   * whose sum equals the distance, or background when there is none.
   */
  function FinalPass(st: Row, v: Row, b: Border): (r: Row)
    requires |st| == |v| > 0
    ensures |r| == |v|
  {
    seq(|st|, k requires 0 <= k < |st| => FinalCell(st, v, k, b))
  }

  /** `reduce` on one row or column of length |v|. */
  function ReduceRow(v: Row, b: Border): (r: Row)
    ensures |r| == |v|
  {
    if |v| == 0 then []
    else
      var L := BitLength(|v|);
      FinalPass(Descend(RunningSum(v, L, b), L, b), v, b)
  }

  // The proof of the compaction.

  lemma {:induction false} GapsBetween(v: Row, a: nat, c: nat)
    requires a <= c <= |v|
    ensures 0 <= GapsBefore(v, c) - GapsBefore(v, a) <= c - a
    decreases c
  {
    if a < c {
      GapsBetween(v, a, c - 1);
    }
  }

  lemma BeyondMonotone(v: Row, k: int, q: int, q': int)
    requires Beyond(v, k, q) && 0 <= q' <= q
    ensures Beyond(v, k, q')
  {
    GapsBetween(v, q' + 1, q + 1);
  }

  /**
   * The search state before pass i-1 (step 2^(i-1)): the sums are the gap
   * counts, every position before k + offset lies beyond the source, and
   * k + offset + 2^i - 1 does not.
   */
  ghost predicate Searching(st: Row, v: Row, i: nat)
  {
    |st| == |v| &&
    forall k :: 0 <= k < |v| ==>
      st[k].lo == GapsBefore(v, k + 1) && st[k].hi >= 0 &&
      (forall q :: k <= q < k + st[k].hi ==> Beyond(v, k, q)) &&
      !Beyond(v, k, k + st[k].hi + Pow2(i) - 1)
  }

  lemma SearchStart(v: Row)
    requires |v| > 0
    ensures Searching(RunningSum(v, BitLength(|v|), Guard), v, BitLength(|v|))
  {
    var L := BitLength(|v|);
    var st := RunningSum(v, L, Guard);
    forall k | 0 <= k < |v|
      ensures st[k] == Cell(GapsBefore(v, k + 1), 0)
    {
      RunningSumPrefix(v, k);
    }
  }

  lemma SearchPassStep(st: Row, v: Row, i: nat)
    requires |v| > 0 && i >= 1 && Searching(st, v, i + 1)
    ensures Searching(SearchPass(st, i, Guard), v, i)
  {
    var r := SearchPass(st, i, Guard);
    assert Pow2(i + 1) == 2 * Pow2(i);
    forall k | 0 <= k < |v|
      ensures r[k].lo == GapsBefore(v, k + 1) && r[k].hi >= 0
      ensures forall q :: k <= q < k + r[k].hi ==> Beyond(v, k, q)
      ensures !Beyond(v, k, k + r[k].hi + Pow2(i) - 1)
    {
      var o := st[k].hi;
      var q := k + o + Pow2(i) - 1;
      if 0 <= q < |v| {
        assert st[q].lo == GapsBefore(v, q + 1);
      }
      if Beyond(v, k, q) {
        forall q' | k <= q' < k + o + Pow2(i)
          ensures Beyond(v, k, q')
        {
          if q' >= k + o {
            BeyondMonotone(v, k, q, q');
          }
        }
      }
    }
  }

  lemma {:induction false} DescendSearching(st: Row, v: Row, i: nat)
    requires |v| > 0 && i >= 1 && Searching(st, v, i)
    ensures Searching(Descend(st, i, Guard), v, 1)
    decreases i
  {
    if i > 1 {
      SearchPassStep(st, v, i - 1);
      DescendSearching(SearchPass(st, i - 1, Guard), v, i - 1);
    }
  }

  /** The labels of v before position m number m minus the gaps there. */
  lemma {:induction false} NonZerosAt(v: Row, m: nat, j: nat)
    requires m < j <= |v| && v[m] != Zero
    ensures m - GapsBefore(v, m) < |NonZerosBefore(v, j)|
    ensures NonZerosBefore(v, j)[m - GapsBefore(v, m)] == v[m]
    decreases j
  {
    if j > m + 1 {
      NonZerosAt(v, m, j - 1);
    }
  }

  /** The k-th label of v[..j] is the one whose rank, its position less the gaps before it, is k. */
  lemma {:induction false} NonZerosSource(v: Row, j: nat, k: nat) returns (m: nat)
    requires j <= |v| && k < |NonZerosBefore(v, j)|
    ensures m < j && v[m] != Zero && v[m] == NonZerosBefore(v, j)[k] && m - GapsBefore(v, m) == k
    decreases j
  {
    if k < |NonZerosBefore(v, j - 1)| {
      m := NonZerosSource(v, j - 1, k);
    } else {
      m := j - 1;
    }
  }

  /**
   * The first position m at or after k that does not lie beyond the source
   * is the source: the k-th label of the row when it exists, the end of the
   * row otherwise.
   */
  lemma FirstNotBeyond(v: Row, k: int, m: int)
    requires 0 <= k <= m && k < |v|
    requires forall q :: k <= q < m ==> Beyond(v, k, q)
    requires !Beyond(v, k, m)
    ensures m <= |v|
    ensures m < |v| ==> GapsBefore(v, m + 1) == m - k && k < |NonZeros(v)| && NonZeros(v)[k] == v[m]
    ensures m == |v| ==> |NonZeros(v)| <= k
  {
    if m > k {
      assert Beyond(v, k, m - 1);
    }
    if m < |v| {
      GapsBetween(v, m, m + 1);
      assert GapsBefore(v, m + 1) == m - k == GapsBefore(v, m);
      assert v[m] != Zero;
      NonZerosAt(v, m, |v|);
    }
  }

  /** Under guarded sampling the last pass takes the pixel one step past the offset when the sum there is too large. */
  lemma FinalCellGuard(st: Row, v: Row, k: int, m: int)
    requires |st| == |v| > 0 && 0 <= k < |st|
    requires m == if 0 <= k + st[k].hi < |st| && st[k + st[k].hi].lo > st[k].hi then k + st[k].hi + 1 else k + st[k].hi
    ensures FinalCell(st, v, k, Guard) == if 0 <= m < |v| && st[m].lo == m - k then v[m] else Zero
  {
  }

  lemma FinalCellFindsSource(st: Row, v: Row, k: int)
    requires |v| > 0 && 0 <= k < |v| && Searching(st, v, 1)
    ensures FinalCell(st, v, k, Guard) == if k < |NonZeros(v)| then NonZeros(v)[k] else Zero
  {
    var o := st[k].hi;
    assert Pow2(1) == 2;
    assert o >= 0 && (forall q :: k <= q < k + o ==> Beyond(v, k, q)) && !Beyond(v, k, k + o + 1);
    var q := k + o;
    if 0 <= q < |v| {
      assert st[q].lo == GapsBefore(v, q + 1);
    }
    var m := if Beyond(v, k, q) then q + 1 else q;
    FinalCellGuard(st, v, k, m);
    assert forall q' :: k <= q' < m ==> Beyond(v, k, q');
    FirstNotBeyond(v, k, m);
    if m < |v| {
      assert st[m].lo == GapsBefore(v, m + 1);
    }
  }

  /**
   * The compaction of one row: destination k receives the k-th label of the
   * row, and the pixels after the last label become background.
   */
  lemma ReduceRowCompacts(v: Row, k: int)
    requires 0 <= k < |v|
    ensures ReduceRow(v, Guard)[k] == if k < |NonZeros(v)| then NonZeros(v)[k] else Zero
  {
    var L := BitLength(|v|);
    SearchStart(v);
    DescendSearching(RunningSum(v, L, Guard), v, L);
    FinalCellFindsSource(Descend(RunningSum(v, L, Guard), L, Guard), v, k);
  }

  /** After the compaction, exactly the first |NonZeros(v)| pixels of the row are labels. */
  lemma ReduceRowPacked(v: Row, k: int)
    requires 0 <= k < |v|
    ensures ReduceRow(v, Guard)[k] != Zero <==> k < |NonZeros(v)|
  {
    ReduceRowCompacts(v, k);
  }

  /**
   * The compaction moves labels and nothing else: a label is in the result
   * exactly when it is in the row, and each result label comes from the
   * pixel whose rank among the labels is its position.
   */
  lemma ReduceRowSource(v: Row, k: int) returns (m: nat)
    requires 0 <= k < |v| && ReduceRow(v, Guard)[k] != Zero
    ensures m < |v| && v[m] == ReduceRow(v, Guard)[k] && m - GapsBefore(v, m) == k
  {
    ReduceRowCompacts(v, k);
    m := NonZerosSource(v, |v|, k);
  }

  lemma ReduceRowKeeps(v: Row, m: int) returns (k: nat)
    requires 0 <= m < |v| && v[m] != Zero
    ensures k < |v| && ReduceRow(v, Guard)[k] == v[m]
  {
    NonZerosAt(v, m, |v|);
    k := m - GapsBefore(v, m);
    assert k < |NonZeros(v)| && NonZeros(v)[k] == v[m];
    ReduceRowCompacts(v, k);
  }

  /** No two surviving pixels share a label. */
  ghost predicate Distinct(g: Grid, w: nat, h: nat)
    requires IsGrid(g, w, h)
  {
    forall y, x, y', x' :: InGrid(w, h, x, y) && InGrid(w, h, x', y') && g[y][x] != Zero && g[y][x] == g[y'][x'] ==>
      x == x' && y == y'
  }

  lemma RootFilterDistinct(g: Grid, w: nat, h: nat)
    requires IsGrid(g, w, h)
    ensures Distinct(RootFilter(g, w, h), w, h)
  {
    forall y, x, y', x' | InGrid(w, h, x, y) && InGrid(w, h, x', y')
      ensures var r := RootFilter(g, w, h);
              r[y][x] != Zero && r[y][x] == r[y'][x'] ==> x == x' && y == y'
    {
      RootFilterAt(g, w, h, x, y, x', y');
    }
  }

  // ----------------------------------------------------------- the image

  /** `reduce` applied to every row of g. */
  function ReduceRows(g: Grid, w: nat, h: nat, b: Border): (r: Grid)
    requires IsGrid(g, w, h)
    ensures IsGrid(r, w, h)
  {
    seq(h, y requires 0 <= y < h => ReduceRow(g[y], b))
  }

  /** The horizontal reduction, then the vertical one on the columns of its result. */
  function ReduceGrid(g: Grid, w: nat, h: nat, b: Border): (r: Grid)
    requires IsGrid(g, w, h)
    ensures IsGrid(r, w, h)
  {
    var hor := ReduceRows(g, w, h, b);
    Transpose(ReduceRows(Transpose(hor, w, h), h, w, b), h, w)
  }

  /** The whole phase: the root filter, then both reductions. */
  function Reduce(labels: Grid, w: nat, h: nat, b: Border): (r: Grid)
    requires IsGrid(labels, w, h)
    ensures IsGrid(r, w, h)
  {
    ReduceGrid(RootFilter(labels, w, h), w, h, b)
  }

  lemma {:induction false} GapsPointwise(u: Row, u': Row, n: nat)
    requires n <= |u| == |u'|
    requires forall i :: 0 <= i < |u| && u[i] != Zero ==> u'[i] != Zero
    ensures GapsBefore(u', n) <= GapsBefore(u, n)
  {
    if n > 0 {
      GapsPointwise(u, u', n - 1);
    }
  }

  lemma OccursTranspose(g: Grid, w: nat, h: nat, c: Cell)
    requires IsGrid(g, w, h)
    ensures Occurs(Transpose(g, w, h), h, w, c) <==> Occurs(g, w, h, c)
  {
    var t := Transpose(g, w, h);
    if Occurs(g, w, h, c) {
      var y, x :| 0 <= y < h && 0 <= x < w && g[y][x] == c;
      assert t[x][y] == c;
    }
    if Occurs(t, h, w, c) {
      var x, y :| 0 <= x < w && 0 <= y < h && t[x][y] == c;
      assert g[y][x] == c;
    }
  }

  lemma OccursReduceRows(g: Grid, w: nat, h: nat, c: Cell)
    requires IsGrid(g, w, h) && c != Zero
    ensures Occurs(ReduceRows(g, w, h, Guard), w, h, c) <==> Occurs(g, w, h, c)
  {
    var r := ReduceRows(g, w, h, Guard);
    if Occurs(g, w, h, c) {
      var y, m :| 0 <= y < h && 0 <= m < w && g[y][m] == c;
      var k := ReduceRowKeeps(g[y], m);
      assert r[y][k] == c;
    }
    if Occurs(r, w, h, c) {
      var y, k :| 0 <= y < h && 0 <= k < w && r[y][k] == c;
      var m := ReduceRowSource(g[y], k);
      assert g[y][m] == c;
    }
  }

  lemma DistinctTranspose(g: Grid, w: nat, h: nat)
    requires IsGrid(g, w, h) && Distinct(g, w, h)
    ensures Distinct(Transpose(g, w, h), h, w)
  {
    var t := Transpose(g, w, h);
    forall x, y, x', y' | InGrid(h, w, y, x) && InGrid(h, w, y', x') && t[x][y] != Zero && t[x][y] == t[x'][y']
      ensures y == y' && x == x'
    {
      assert g[y][x] == g[y'][x'];
    }
  }

  lemma DistinctReduceRows(g: Grid, w: nat, h: nat)
    requires IsGrid(g, w, h) && Distinct(g, w, h)
    ensures Distinct(ReduceRows(g, w, h, Guard), w, h)
  {
    var r := ReduceRows(g, w, h, Guard);
    forall y, x, y', x' | InGrid(w, h, x, y) && InGrid(w, h, x', y') && r[y][x] != Zero && r[y][x] == r[y'][x']
      ensures x == x' && y == y'
    {
      var m := ReduceRowSource(g[y], x);
      var m' := ReduceRowSource(g[y'], x');
      assert g[y][m] == g[y'][m'];
    }
  }

  /**
   * Under guarded sampling the labels of the result form a staircase in the
   * top-left corner: a label at (x, y) means labels at every (x', y') above
   * and to the left of it.
   */
  lemma ReduceGridTopLeft(g: Grid, w: nat, h: nat, x: int, y: int, x': int, y': int)
    requires IsGrid(g, w, h) && InGrid(w, h, x, y) && 0 <= x' <= x && 0 <= y' <= y
    ensures var r := ReduceGrid(g, w, h, Guard);
            r[y][x] != Zero ==> r[y'][x'] != Zero
  {
    var hor := ReduceRows(g, w, h, Guard);
    var t := Transpose(hor, w, h);
    var ver := ReduceRows(t, h, w, Guard);
    var r := ReduceGrid(g, w, h, Guard);
    assert r[y][x] == ver[x][y] && r[y'][x'] == ver[x'][y'];
    if r[y][x] != Zero {
      // the column x' has at least as many labels as column x
      forall i | 0 <= i < h && t[x][i] != Zero
        ensures t[x'][i] != Zero
      {
        ReduceRowPacked(g[i], x);
        ReduceRowPacked(g[i], x');
      }
      GapsPointwise(t[x], t[x'], h);
      ReduceRowPacked(t[x], y);
      ReduceRowPacked(t[x'], y');
    }
  }

  lemma ReduceGridKeepsLabels(g: Grid, w: nat, h: nat, c: Cell)
    requires IsGrid(g, w, h) && c != Zero
    ensures Occurs(ReduceGrid(g, w, h, Guard), w, h, c) <==> Occurs(g, w, h, c)
    ensures Distinct(g, w, h) ==> Distinct(ReduceGrid(g, w, h, Guard), w, h)
  {
    var hor := ReduceRows(g, w, h, Guard);
    var t := Transpose(hor, w, h);
    var ver := ReduceRows(t, h, w, Guard);
    OccursReduceRows(g, w, h, c);
    OccursTranspose(hor, w, h, c);
    OccursReduceRows(t, h, w, c);
    OccursTranspose(ver, h, w, c);
    if Distinct(g, w, h) {
      DistinctReduceRows(g, w, h);
      DistinctTranspose(hor, w, h);
      DistinctReduceRows(t, h, w);
      DistinctTranspose(ver, h, w);
    }
  }

  /**
   * The whole phase under guarded sampling lists the roots of the label
   * image in the top-left corner: every root is in the result, every label
   * of the result is a root, no label is there twice, and the labels form a
   * staircase from the top-left corner.
   */
  lemma ReduceListsRoots(labels: Grid, w: nat, h: nat)
    requires IsGrid(labels, w, h)
    ensures var r := Reduce(labels, w, h, Guard);
            && (forall x, y :: InGrid(w, h, x, y) && labels[y][x] == LabelOf(x, y) ==> Occurs(r, w, h, LabelOf(x, y)))
            && (forall c :: c != Zero && Occurs(r, w, h, c) ==>
                  exists x, y :: InGrid(w, h, x, y) && labels[y][x] == LabelOf(x, y) && c == LabelOf(x, y))
            && Distinct(r, w, h)
            && (forall x, y, x', y' :: InGrid(w, h, x, y) && 0 <= x' <= x && 0 <= y' <= y && r[y][x] != Zero ==>
                  r[y'][x'] != Zero)
  {
    var f := RootFilter(labels, w, h);
    var r := ReduceGrid(f, w, h, Guard);
    RootFilterDistinct(labels, w, h);
    ReduceGridKeepsLabels(f, w, h, Cell(1, 0));
    forall x, y | InGrid(w, h, x, y) && labels[y][x] == LabelOf(x, y)
      ensures Occurs(r, w, h, LabelOf(x, y))
    {
      RootFilterAt(labels, w, h, x, y, x, y);
      ReduceGridKeepsLabels(f, w, h, LabelOf(x, y));
    }
    forall c | c != Zero && Occurs(r, w, h, c)
      ensures exists x, y :: InGrid(w, h, x, y) && labels[y][x] == LabelOf(x, y) && c == LabelOf(x, y)
    {
      ReduceGridKeepsLabels(f, w, h, c);
      var y, x :| 0 <= y < h && 0 <= x < w && f[y][x] == c;
      RootFilterAt(labels, w, h, x, y, x, y);
    }
    forall x, y, x', y' | InGrid(w, h, x, y) && 0 <= x' <= x && 0 <= y' <= y && r[y][x] != Zero
      ensures r[y'][x'] != Zero
    {
      ReduceGridTopLeft(f, w, h, x, y, x', y');
    }
  }

  /**
   * With clamp-to-edge sampling the compaction is wrong: the row
   * [background, label] becomes [label, label] rather than [label, background].
   */
  lemma ClampDuplicates()
    ensures var v := [Zero, LabelOf(1, 0)];
            ReduceRow(v, Clamp) == [LabelOf(1, 0), LabelOf(1, 0)] &&
            ReduceRow(v, Guard) == [LabelOf(1, 0), Zero]
  {
    ClampedRow();
    GuardedRow();
  }

  lemma ClampedRow()
    ensures ReduceRow([Zero, LabelOf(1, 0)], Clamp) == [LabelOf(1, 0), LabelOf(1, 0)]
  {
    var v := [Zero, LabelOf(1, 0)];
    assert BitLength(2) == 2 by {
      assert BitLength(1) == 1;
    }
    assert Pow2(1) == 2;
    var s1 := SumInit(v, Clamp);
    assert s1 == [Cell(2, 0), Cell(1, 0)];
    var s2 := SumPass(s1, 1, Clamp);
    assert s2 == [Cell(4, 0), Cell(3, 0)];
    assert RunningSum(v, 2, Clamp) == s2;
    var d := SearchPass(s2, 1, Clamp);
    assert d == [Cell(4, 2), Cell(3, 2)];
    assert Descend(s2, 2, Clamp) == d;
  }

  lemma GuardedRow()
    ensures ReduceRow([Zero, LabelOf(1, 0)], Guard) == [LabelOf(1, 0), Zero]
  {
    var v := [Zero, LabelOf(1, 0)];
    ReduceRowCompacts(v, 0);
    ReduceRowCompacts(v, 1);
    assert NonZeros(v) == [LabelOf(1, 0)];
  }
}
