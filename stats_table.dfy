// The result table run() of the statistics phase reads back
// (src/statsPhase.cpp:285-324): mStatsAreaWidth = 4*OFFSET texels per row
// of which the first OFFSET hold, per spot root, the root's label; the
// texel OFFSET to its right holds the area and the luminance sum, the one
// 2*OFFSET to its right the x sum and the one 3*OFFSET to its right the y
// sum. All reads of the byte buffer are little-endian.
module StatsTable {
  import opened Phase
  import Grids

  /** OFFSET: the width of one block of the table, in texels. */
  const Offset: nat := 10
  /** mStatsAreaWidth. */
  const AreaWidth: nat := 4 * Offset

  // Byte offsets, within a cell's texel, of the fields the decoder reads.
  const OffsetX: nat := 0
  const OffsetY: nat := 2
  const OffsetArea: nat := 4 * Offset
  const OffsetLuminance: nat := 4 * Offset + 2
  const OffsetSumX: nat := 4 * Offset * 2
  const OffsetSumY: nat := 4 * Offset * 3

  /**
   * A spot: its area and, when its luminance sum is nonzero, its centroid.
   * The source divides by the luminance sum without a guard; for a zero sum
   * the float quotient is not a finite number, which is None here.
   */
  datatype Spot = Spot(area: nat, centre: Grids.Option<(real, real)>)

  /** The table as glReadPixels fills it: 4 bytes per texel, AreaWidth texels per row. */
  predicate TableShape(data: seq<Byte>, height: nat)
  {
    |data| == 4 * AreaWidth * height
  }

  /** The byte index of the cell in row j, column i. */
  function CellIndex(j: nat, i: nat): nat
  {
    4 * (j * AreaWidth + i)
  }

  /**
   * Every byte the decoder reads for a cell of the first OFFSET columns of
   * row j lies in row j of the buffer; the furthest is byte 3 of the y sum.
   */
  lemma CellReadsInside(height: nat, j: nat, i: nat)
    requires j < height && i < AreaWidth / 4
    ensures 4 * AreaWidth * j <= CellIndex(j, i)
    ensures CellIndex(j, i) + OffsetSumY + 4 <= 4 * AreaWidth * (j + 1) <= 4 * AreaWidth * height
  {
    assert AreaWidth / 4 == Offset;
  }

  /**
   * The centroid from the cell at idx: label minus 1 minus the decoded sum
   * over the luminance sum, for x and for y; None when the luminance sum is
   * zero. convert is convertSignedGl, which is not part of this model.
   */
  function Centre(data: seq<Byte>, idx: nat, convert: nat -> real): (c: Grids.Option<(real, real)>)
    requires idx + OffsetSumY + 4 <= |data|
    ensures c.Some? <==> U16At(data, idx + OffsetLuminance) != 0
  {
    var lum := U16At(data, idx + OffsetLuminance);
    if lum == 0 then Grids.None
    else Grids.Some(((U16At(data, idx + OffsetX) - 1) as real - convert(U32At(data, idx + OffsetSumX)) / lum as real,
                     (U16At(data, idx + OffsetY) - 1) as real - convert(U32At(data, idx + OffsetSumY)) / lum as real))
  }

  /**
   * The spot the cell in row j, column i holds: one exactly when it holds a
   * root, that is a nonzero x label, and its area exceeds 2.
   */
  function CellSpot(data: seq<Byte>, height: nat, j: nat, i: nat, convert: nat -> real): (r: Grids.Option<Spot>)
    requires TableShape(data, height) && j < height && i < Offset
  {
    CellReadsInside(height, j, i);
    var idx := CellIndex(j, i);
    var area := U16At(data, idx + OffsetArea);
    if U16At(data, idx + OffsetX) != 0 && area > 2 then Grids.Some(Spot(area, Centre(data, idx, convert)))
    else Grids.None
  }

  /** The cell at row j, column i, read at its byte offset. */
  lemma CellSpotAt(data: seq<Byte>, height: nat, j: nat, i: nat, convert: nat -> real, index: int)
    requires TableShape(data, height) && j < height && i < Offset && index == 4 * (j * AreaWidth + i)
    ensures 0 <= index && index + OffsetSumY + 4 <= |data|
    ensures U16At(data, index + OffsetX) == 0 ==> CellSpot(data, height, j, i, convert) == Grids.None
    ensures U16At(data, index + OffsetX) != 0 && U16At(data, index + OffsetArea) <= 2 ==> CellSpot(data, height, j, i, convert) == Grids.None
    ensures U16At(data, index + OffsetX) != 0 && U16At(data, index + OffsetArea) > 2 ==>
      CellSpot(data, height, j, i, convert) == Grids.Some(Spot(U16At(data, index + OffsetArea), Centre(data, index, convert)))
  {
    CellReadsInside(height, j, i);
  }

  /**
   * The cell test as the source writes it: only byte 0 of the cell, the low
   * byte of the x label, is compared with 0.
   */
  function CellSpotAsWritten(data: seq<Byte>, height: nat, j: nat, i: nat, convert: nat -> real): (r: Grids.Option<Spot>)
    requires TableShape(data, height) && j < height && i < Offset
  {
    CellReadsInside(height, j, i);
    var idx := CellIndex(j, i);
    var area := U16At(data, idx + OffsetArea);
    if data[idx] != 0 && area > 2 then Grids.Some(Spot(area, Centre(data, idx, convert)))
    else Grids.None
  }

  /**
   * The two cell tests differ exactly on a root whose x label is a nonzero
   * multiple of 256 and whose area exceeds 2: as written, it is skipped.
   */
  lemma AsWrittenSkips(data: seq<Byte>, height: nat, j: nat, i: nat, convert: nat -> real)
    requires TableShape(data, height) && j < height && i < Offset
    ensures var idx := CellIndex(j, i);
            CellSpotAsWritten(data, height, j, i, convert) != CellSpot(data, height, j, i, convert) <==>
            (U16At(data, idx) != 0 && U16At(data, idx) % 256 == 0 && U16At(data, idx + OffsetArea) > 2)
    ensures CellSpotAsWritten(data, height, j, i, convert) != CellSpot(data, height, j, i, convert) ==>
            CellSpotAsWritten(data, height, j, i, convert).None?
  {
    CellReadsInside(height, j, i);
  }

  /**
   * A table of one row whose first cell holds a root with x label 256 (the
   * root at x = 255) and area 3: the source's test finds no spot there.
   */
  lemma LowByteCounterexample(convert: nat -> real)
    ensures var data := seq(4 * AreaWidth, k => if k == 1 || k == OffsetArea then (if k == 1 then 1 else 3) else 0);
            TableShape(data, 1) && U16At(data, 0) == 256 &&
            CellSpotAsWritten(data, 1, 0, 0, convert).None? && CellSpot(data, 1, 0, 0, convert).Some?
  {
    var data: seq<Byte> := seq(4 * AreaWidth, k => if k == 1 || k == OffsetArea then (if k == 1 then 1 else 3) else 0);
    assert U16At(data, 0) == 256;
    assert U16At(data, OffsetArea) == 3;
  }

  /** The values the options hold, in order. */
  function Somes<T>(os: seq<Grids.Option<T>>): (r: seq<T>)
    ensures |r| <= |os|
  {
    if os == [] then []
    else Somes(os[..|os| - 1]) + (if os[|os| - 1].Some? then [os[|os| - 1].value] else [])
  }

  /** A value is among the Somes exactly when some option holds it. */
  lemma {:induction false} SomesMembers<T>(os: seq<Grids.Option<T>>)
    ensures forall x :: x in Somes(os) ==> exists k :: 0 <= k < |os| && os[k] == Grids.Some(x)
    ensures forall k :: 0 <= k < |os| && os[k].Some? ==> os[k].value in Somes(os)
  {
    if os != [] {
      var init := os[..|os| - 1];
      SomesMembers(init);
      assert Somes(os) == Somes(init) + (if os[|os| - 1].Some? then [os[|os| - 1].value] else []);
      forall x | x in Somes(os)
        ensures exists k :: 0 <= k < |os| && os[k] == Grids.Some(x)
      {
        if x in Somes(init) {
          var k :| 0 <= k < |init| && init[k] == Grids.Some(x);
          assert os[k] == init[k];
        } else {
          assert os[|os| - 1] == Grids.Some(x);
        }
      }
      forall k | 0 <= k < |os| && os[k].Some?
        ensures os[k].value in Somes(os)
      {
        if k < |init| {
          assert init[k] == os[k];
        }
      }
    }
  }

  /** One more option. */
  lemma SomesNext<T>(os: seq<Grids.Option<T>>, i: nat)
    requires i < |os|
    ensures Somes(os[..i + 1]) == Somes(os[..i]) + (if os[i].Some? then [os[i].value] else [])
  {
    assert os[..i + 1][..i] == os[..i];
  }

  /** The cells of row j, of the first OFFSET columns, left to right. */
  function Row(data: seq<Byte>, height: nat, j: nat, convert: nat -> real): (r: seq<Grids.Option<Spot>>)
    requires TableShape(data, height) && j < height
    ensures |r| == Offset && forall i :: 0 <= i < Offset ==> r[i] == CellSpot(data, height, j, i, convert)
  {
    seq(Offset, i requires 0 <= i < Offset => CellSpot(data, height, j, i, convert))
  }

  /** The values of the rows' options, row by row. */
  function Flatten<T>(rows: seq<seq<Grids.Option<T>>>): seq<T>
  {
    if rows == [] then [] else Flatten(rows[..|rows| - 1]) + Somes(rows[|rows| - 1])
  }

  /**
   * A value is among the flattened values exactly when some option of some
   * row holds it, and there are at most as many as the rows have options
   * when every row has OFFSET.
   */
  lemma {:induction false} FlattenMembers<T>(rows: seq<seq<Grids.Option<T>>>)
    requires forall r :: 0 <= r < |rows| ==> |rows[r]| == Offset
    ensures |Flatten(rows)| <= Offset * |rows|
    ensures forall x :: x in Flatten(rows) ==>
                        exists r, c :: 0 <= r < |rows| && 0 <= c < |rows[r]| && rows[r][c] == Grids.Some(x)
    ensures forall r, c :: 0 <= r < |rows| && 0 <= c < |rows[r]| && rows[r][c].Some? ==> rows[r][c].value in Flatten(rows)
  {
    if rows != [] {
      var init, last := rows[..|rows| - 1], rows[|rows| - 1];
      FlattenMembers(init);
      SomesMembers(last);
      assert Flatten(rows) == Flatten(init) + Somes(last);
      forall x | x in Flatten(rows)
        ensures exists r, c :: 0 <= r < |rows| && 0 <= c < |rows[r]| && rows[r][c] == Grids.Some(x)
      {
        if x in Flatten(init) {
          var r, c :| 0 <= r < |init| && 0 <= c < |init[r]| && init[r][c] == Grids.Some(x);
          assert rows[r] == init[r];
        } else {
          var c :| 0 <= c < |last| && last[c] == Grids.Some(x);
          assert rows[|rows| - 1] == last;
        }
      }
      forall r, c | 0 <= r < |rows| && 0 <= c < |rows[r]| && rows[r][c].Some?
        ensures rows[r][c].value in Flatten(rows)
      {
        if r < |init| {
          assert init[r] == rows[r];
        } else {
          assert last[c] == rows[r][c];
        }
      }
    }
  }

  /** One more row. */
  lemma FlattenNext<T>(rows: seq<seq<Grids.Option<T>>>, j: nat)
    requires j < |rows|
    ensures Flatten(rows[..j + 1]) == Flatten(rows[..j]) + Somes(rows[j])
  {
    assert rows[..j + 1][..j] == rows[..j];
  }

  /** Flattening the first j rows gives a prefix of flattening them all. */
  lemma {:induction false} FlattenPrefix<T>(rows: seq<seq<Grids.Option<T>>>, j: nat)
    requires j <= |rows|
    ensures |Flatten(rows[..j])| <= |Flatten(rows)|
    ensures Flatten(rows)[..|Flatten(rows[..j])|] == Flatten(rows[..j])
    decreases |rows| - j
  {
    if j < |rows| {
      FlattenPrefix(rows, j + 1);
      var a, b := Flatten(rows[..j]), Flatten(rows[..j + 1]);
      assert rows[..j + 1][..j] == rows[..j];
      assert b == a + Somes(rows[j]);
      assert b[..|a|] == a;
    } else {
      assert rows[..j] == rows;
    }
  }

  /** The cells of the table, row by row. */
  function Table(data: seq<Byte>, height: nat, convert: nat -> real): (t: seq<seq<Grids.Option<Spot>>>)
    requires TableShape(data, height)
    ensures |t| == height && forall j :: 0 <= j < height ==> t[j] == Row(data, height, j, convert)
  {
    seq(height, j requires 0 <= j < height => Row(data, height, j, convert))
  }

  /** mSpots after the decoding loop: the spots of every row, in order. */
  function TableSpots(data: seq<Byte>, height: nat, convert: nat -> real): seq<Spot>
    requires TableShape(data, height)
  {
    Flatten(Table(data, height, convert))
  }

  /**
   * The decoded spots: at most OFFSET per row; a spot is in the list exactly
   * when some cell of the first OFFSET columns yields it; every spot's area
   * exceeds 2.
   */
  lemma TableSpotsMembers(data: seq<Byte>, height: nat, convert: nat -> real)
    requires TableShape(data, height)
    ensures |TableSpots(data, height, convert)| <= Offset * height
    ensures forall sp :: sp in TableSpots(data, height, convert) ==>
                         exists r, c :: 0 <= r < height && 0 <= c < Offset && CellSpot(data, height, r, c, convert) == Grids.Some(sp)
    ensures forall r, c :: 0 <= r < height && 0 <= c < Offset && CellSpot(data, height, r, c, convert).Some? ==>
                           CellSpot(data, height, r, c, convert).value in TableSpots(data, height, convert)
    ensures forall sp :: sp in TableSpots(data, height, convert) ==> sp.area > 2
  {
    var t := Table(data, height, convert);
    FlattenMembers(t);
    forall sp | sp in TableSpots(data, height, convert)
      ensures exists r, c :: 0 <= r < height && 0 <= c < Offset && CellSpot(data, height, r, c, convert) == Grids.Some(sp)
      ensures sp.area > 2
    {
      var r, c :| 0 <= r < |t| && 0 <= c < |t[r]| && t[r][c] == Grids.Some(sp);
      assert CellSpot(data, height, r, c, convert) == Grids.Some(sp);
      CellReadsInside(height, r, c);
    }
    forall r, c | 0 <= r < height && 0 <= c < Offset && CellSpot(data, height, r, c, convert).Some?
      ensures CellSpot(data, height, r, c, convert).value in TableSpots(data, height, convert)
    {
      assert t[r][c] == CellSpot(data, height, r, c, convert);
    }
  }

  /**
   * Row-major order: the spots of rows 0..j-1 come first, followed by those
   * of the later rows.
   */
  lemma TableSpotsRowMajor(data: seq<Byte>, height: nat, j: nat, convert: nat -> real)
    requires TableShape(data, height) && j <= height
    ensures var t := Table(data, height, convert);
            |Flatten(t[..j])| <= |TableSpots(data, height, convert)| &&
            TableSpots(data, height, convert)[..|Flatten(t[..j])|] == Flatten(t[..j])
  {
    FlattenPrefix(Table(data, height, convert), j);
  }
}
