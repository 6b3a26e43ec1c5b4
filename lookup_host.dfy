// The lookup phase (src/lookupPhase.cpp): the constructor lays out a grid of
// vertex positions, one (x, y) pair per vertex; init() sets the ping-pong
// indices, uploads the vertex data into a buffer object and makes the two
// ping-pong textures on the lowest free units; run() attaches the ping-pong
// textures and draws the vertices as points into the texture mWrite names.
module LookupHost {
  import opened Units
  import opened Gpu
  import opened Host
  import Grids

  const TexOrig := 0
  const TexPipo := 1
  const GLTrue := 1

  // ------------------------------------------------------------ vertex grid

  /** Column i of a grid h vertices high: the positions (i, 0), ..., (i, h - 1), as pairs. */
  function Column(i: nat, h: nat): (r: seq<int>)
    ensures |r| == 2 * h
  {
    if h == 0 then [] else Column(i, h - 1) + [i, h - 1]
  }

  /** A grid of w columns h vertices high, column after column. */
  function GridVertices(w: nat, h: nat): (r: seq<int>)
    ensures |r| == 2 * (w * h)
  {
    if w == 0 then [] else GridVertices(w - 1, h) + Column(w - 1, h)
  }

  /** The first slot of the pair of vertex (i, j), the pairs running column by column. */
  function Slot(h: nat, i: nat, j: nat): nat
  {
    2 * (h * i + j)
  }

  lemma {:induction false} MulMonotone(h: nat, a: nat, b: nat)
    requires a <= b
    ensures h * a <= h * b
    decreases b
  {
    if a < b {
      MulMonotone(h, a, b - 1);
      assert h * b == h * (b - 1) + h;
    }
  }

  /** Vertex (i, j) of a w-by-h grid lies inside the grid's 2wh slots. */
  lemma SlotInside(w: nat, h: nat, i: nat, j: nat)
    requires i < w && j < h
    ensures Slot(h, i, j) + 1 < 2 * (w * h)
  {
    MulMonotone(h, i + 1, w);
    assert h * (i + 1) == h * i + h;
  }

  /** The pair j of column i holds (i, j). */
  lemma {:induction false} ColumnHolds(i: nat, h: nat, j: nat)
    requires j < h
    ensures Column(i, h)[2 * j] == i && Column(i, h)[2 * j + 1] == j
  {
    if j < h - 1 {
      ColumnHolds(i, h - 1, j);
    }
  }

  /** The pair of vertex (i, j) holds (i, j). */
  lemma {:induction false} SlotHolds(w: nat, h: nat, i: nat, j: nat)
    requires i < w && j < h
    ensures Slot(h, i, j) + 1 < 2 * (w * h)
    ensures GridVertices(w, h)[Slot(h, i, j)] == i && GridVertices(w, h)[Slot(h, i, j) + 1] == j
  {
    var prev := GridVertices(w - 1, h);
    assert GridVertices(w, h) == prev + Column(w - 1, h);
    SlotSplit(w, h, i, j);
    if i == w - 1 {
      ColumnHolds(i, h, j);
    } else {
      SlotHolds(w - 1, h, i, j);
    }
  }

  /** The slot of vertex (i, j) lies in the last column's pairs when i = w - 1, before them otherwise. */
  lemma SlotSplit(w: nat, h: nat, i: nat, j: nat)
    requires i < w && j < h
    ensures 2 * (w * h) == 2 * ((w - 1) * h) + 2 * h
    ensures i == w - 1 ==> Slot(h, i, j) == 2 * ((w - 1) * h) + 2 * j
    ensures i < w - 1 ==> Slot(h, i, j) + 1 < 2 * ((w - 1) * h)
  {
    assert w * h == (w - 1) * h + h;
    if i == w - 1 {
      assert h * i == (w - 1) * h;
    } else {
      SlotInside(w - 1, h, i, j);
    }
  }

  /** Different vertices have different slot pairs. */
  lemma SlotsDistinct(h: nat, i: nat, j: nat, i': nat, j': nat)
    requires j < h && j' < h && (i, j) != (i', j')
    ensures Slot(h, i, j) != Slot(h, i', j') && Slot(h, i, j) != Slot(h, i', j') + 1
  {
    if i < i' {
      MulMonotone(h, i + 1, i');
      assert h * (i + 1) == h * i + h;
    } else if i' < i {
      MulMonotone(h, i' + 1, i);
      assert h * (i' + 1) == h * i' + h;
    }
  }

  /** The pairs of a column follow those of the column before it. */
  lemma SlotNextColumn(h: nat, i: nat)
    ensures Slot(h, i, h) == Slot(h, i + 1, 0)
  {
    assert h * (i + 1) == h * i + h;
  }

  /**
   * The constructor's nested loop, with one slot pair per vertex: for every
   * column i and row j, the position (i, j) goes into the pair of vertex
   * (i, j).
   */
  method FillGrid(v: array<int>, w: nat, h: nat)
    requires v.Length == 2 * (w * h)
    modifies v
    ensures v[..] == GridVertices(w, h)
  {
    for i: nat := 0 to w
      invariant Slot(h, i, 0) <= v.Length && v[..Slot(h, i, 0)] == GridVertices(i, h)
    {
      FillColumn(v, w, h, i);
      SlotNextColumn(h, i);
    }
    assert v[..] == v[..Slot(h, w, 0)];
  }

  /** The inner loop: column i of the grid, after the columns before it. */
  method FillColumn(v: array<int>, w: nat, h: nat, i: nat)
    requires v.Length == 2 * (w * h) && i < w
    requires v[..Slot(h, i, 0)] == GridVertices(i, h)
    modifies v
    ensures Slot(h, i, h) <= v.Length && v[..Slot(h, i, h)] == GridVertices(i + 1, h)
  {
    var base := Slot(h, i, 0);
    ColumnInside(w, h, i);
    for j: nat := 0 to h
      invariant v[..base + 2 * j] == GridVertices(i, h) + Column(i, j)
    {
      var index := base + 2 * j;
      v[index + 0] := i;
      v[index + 1] := j;
      assert v[..index + 2] == v[..index] + [i, j];
    }
  }

  /** Column i of a w-column grid ends where column i + 1 starts, inside the grid's slots. */
  lemma ColumnInside(w: nat, h: nat, i: nat)
    requires i < w
    ensures Slot(h, i, h) == Slot(h, i, 0) + 2 * h == Slot(h, i + 1, 0)
    ensures Slot(h, i, 0) + 2 * h <= 2 * (w * h)
  {
    MulMonotone(h, i + 1, w);
    assert h * (i + 1) == h * i + h;
    assert w * h == h * w;
  }

  // -------------------------------------------------- the grid as written

  /** The slot the constructor writes the pair of vertex (i, j) to: the pairs go w to a column. */
  function SlotAsWritten(w: nat, i: nat, j: nat): nat
  {
    2 * (w * i + j)
  }

  /** The slots the constructor allocates: `new GLfloat[2*mVertexWidth*mVertexWidth]`. */
  function SlotsAsWritten(w: nat): nat
  {
    2 * (w * w)
  }

  /** Every write of the constructor's nested loop as written stays inside its allocation. */
  ghost predicate WritesInsideAsWritten(w: nat, h: nat)
  {
    forall i: nat, j: nat :: i < w && j < h ==> SlotAsWritten(w, i, j) + 1 < SlotsAsWritten(w)
  }

  /**
   * The constructor as written stays inside its allocation exactly when
   * the grid is no higher than wide (or has no columns, when nothing is
   * written).
   */
  lemma WritesInsideAsWrittenIff(w: nat, h: nat)
    ensures WritesInsideAsWritten(w, h) <==> w == 0 || h <= w
  {
    if h <= w {
      forall i: nat, j: nat | i < w && j < h
        ensures SlotAsWritten(w, i, j) + 1 < SlotsAsWritten(w)
      {
        MulMonotone(w, i + 1, w);
        assert w * (i + 1) == w * i + w;
      }
    } else if w > 0 {
      assert w * (w - 1) + w == w * w;
      assert !(SlotAsWritten(w, w - 1, w) + 1 < SlotsAsWritten(w));
    }
  }

  /** A grid one vertex wide and two high: the second vertex is written past the two slots allocated. */
  lemma TallGridOverruns()
    ensures SlotsAsWritten(1) == 2 && SlotAsWritten(1, 0, 1) + 1 == 3
    ensures !WritesInsideAsWritten(1, 2)
  {
    assert SlotAsWritten(1, 0, 1) + 1 >= SlotsAsWritten(1);
  }

  /** On a square grid the layout as written is the grid of GridVertices. */
  lemma SquareAsWritten(w: nat, i: nat, j: nat)
    ensures SlotAsWritten(w, i, j) == Slot(w, i, j) && SlotsAsWritten(w) == 2 * (w * w)
  {
  }

  // ------------------------------------------------------------ the upload

  /** The local `vertices[8]` of init(): the corners of the unit square. */
  const UnitSquare: seq<int> := [0, 0, 0, 1, 1, 0, 1, 1]

  /**
   * What init() as written hands to glBufferData: the first mNumVertices*2
   * values of UnitSquare, or None when that reads past its eight floats.
   */
  function UploadAsWritten(numVertices: nat): (r: Grids.Option<seq<int>>)
    ensures r.Some? <==> numVertices <= 4
    ensures r.Some? ==> |r.value| == 2 * numVertices && r.value == UnitSquare[..|r.value|]
  {
    if 2 * numVertices <= |UnitSquare| then Grids.Some(UnitSquare[..2 * numVertices]) else Grids.None
  }

  /**
   * The upload as written on in-bounds grids: for the two-by-one grid it
   * sends (0, 0), (0, 1) where the vertices are (0, 0), (1, 0); for the
   * two-by-two grid it sends the grid itself; for the three-by-three grid
   * it reads past the local array.
   */
  lemma UploadAsWrittenMisplaces()
    ensures GridVertices(2, 1) == [0, 0, 1, 0]
    ensures UploadAsWritten(2) == Grids.Some([0, 0, 0, 1]) && UploadAsWritten(2) != Grids.Some(GridVertices(2, 1))
    ensures UploadAsWritten(4) == Grids.Some(GridVertices(2, 2))
    ensures UploadAsWritten(9).None?
  {
    UnitSquareIsGrid();
    assert Column(0, 1) == [0, 0];
    assert Column(1, 1) == [1, 0];
    assert GridVertices(1, 1) == [0, 0];
    assert UnitSquare[..4] == [0, 0, 0, 1];
    assert UnitSquare[..8] == UnitSquare;
  }

  /** On the two-by-two grid the unit square is the vertex grid itself. */
  lemma UnitSquareIsGrid()
    ensures GridVertices(2, 2) == UnitSquare
  {
    assert Column(0, 1) == [0, 0];
    assert Column(0, 2) == [0, 0, 0, 1];
    assert Column(1, 1) == [1, 0];
    assert Column(1, 2) == [1, 0, 1, 1];
    assert GridVertices(1, 2) == [0, 0, 0, 1];
  }

  // --------------------------------------------------------------- the phase

  class LookupPhase {
    const texWidth: int
    const texHeight: int
    const vertexWidth: nat
    const vertexHeight: nat
    const vertices: array<int>  // mVertices
    const numVertices: nat      // mNumVertices
    const fbo: array<nat>       // mFboId
    const pipo: array<nat>      // mTexPiPoId
    const units: array<int>     // mTextureUnits: TEX_ORIG, TEX_PIPO, TEX_PIPO+1
    var read: int               // mRead
    var write: int              // mWrite
    var vbo: seq<int>           // the contents of the buffer object mVboId

    /**
     * The constructor: a w-by-h grid of vertex positions, vertex (i, j)
     * holding (i, j), and mNumVertices = h * w.
     */
    constructor (texWidth: int, texHeight: int, vertexWidth: nat, vertexHeight: nat)
      ensures this.texWidth == texWidth && this.texHeight == texHeight
      ensures this.vertexWidth == vertexWidth && this.vertexHeight == vertexHeight
      ensures numVertices == vertexHeight * vertexWidth
      ensures vertices[..] == GridVertices(vertexWidth, vertexHeight)
      ensures fresh(vertices) && fresh(fbo) && fresh(pipo) && fresh(units) && Shape()
    {
      this.texWidth := texWidth;
      this.texHeight := texHeight;
      this.vertexWidth := vertexWidth;
      this.vertexHeight := vertexHeight;
      var v := new int[2 * (vertexWidth * vertexHeight)];
      FillGrid(v, vertexWidth, vertexHeight);
      vertices := v;
      numVertices := vertexHeight * vertexWidth;
      fbo := new nat[2];
      pipo := new nat[2];
      units := new int[3];
      vbo := [];
    }

    /** The member arrays have the sizes the code indexes and are distinct. */
    predicate Shape()
    {
      fbo.Length == 2 && pipo.Length == 2 && units.Length == 3 && fbo != pipo && units != vertices &&
      vertices.Length == 2 * numVertices
    }

    /**
     * What run() needs: the indices are 0 and 1 in some order, the two
     * framebuffers and the two ping-pong textures are distinct, and the
     * ping-pong textures are bound to their units.
     */
    ghost predicate Ready(gl: Device)
      reads this, fbo, pipo, units, gl
    {
      Shape() && ((read == 0 && write == 1) || (read == 1 && write == 0)) && fbo[0] != fbo[1] && gl.Valid() &&
      pipo[0] != pipo[1] && pipo[0] in gl.textures && pipo[1] in gl.textures &&
      units[TexPipo] in gl.units && units[TexPipo + 1] in gl.units &&
      gl.units[units[TexPipo]] == pipo[0] && gl.units[units[TexPipo + 1]] == pipo[1]
    }

    /**
     * init(): the framebuffers are stored, mRead = 0 and mWrite = 1, the
     * vertex grid is uploaded, and the two ping-pong textures are made,
     * empty, on the two lowest free units, which are stored for their roles.
     * A program that fails to load is only reported, so GL_TRUE is returned
     * in every case.
     */
    method Init(fbos: seq<nat>, bf: nat, gl: Device) returns (ret: int, bf': nat)
      requires |fbos| == 2 && Shape()
      requires gl.Valid() && FreeUnits(bf, UnitLimit) >= 2
      modifies this`read, this`write, this`vbo, fbo, pipo, units, gl
      ensures ret == GLTrue && fbo[..] == fbos && read == 0 && write == 1 && gl.Valid()
      ensures vbo == vertices[..] && |vbo| == 2 * numVertices
      ensures units[TexPipo] >= 0 && units[TexPipo + 1] >= 0 && units[TexPipo] != units[TexPipo + 1]
      ensures FirstFree(bf, {}, units[TexPipo] as nat) && FirstFree(bf, {units[TexPipo] as nat}, units[TexPipo + 1] as nat)
      ensures Claimed(bf, {units[TexPipo] as nat, units[TexPipo + 1] as nat}, bf')
      ensures FreeUnits(bf', UnitLimit) == FreeUnits(bf, UnitLimit) - 2
      ensures pipo[0] !in old(gl.textures) && pipo[1] !in old(gl.textures) && pipo[0] != pipo[1]
      ensures gl.textures == old(gl.textures)[pipo[0] := Blank][pipo[1] := Blank]
      ensures gl.units == old(gl.units)[units[TexPipo] := pipo[0]][units[TexPipo + 1] := pipo[1]]
      ensures units[TexOrig] == old(units[TexOrig])
      ensures gl.attachment == old(gl.attachment) && gl.bound == old(gl.bound) && gl.draws == old(gl.draws)
    {
      fbo[0] := fbos[0];
      fbo[1] := fbos[1];
      read := 0;
      write := 1;
      vbo := vertices[..];
      bf' := NewPingPong(gl, bf, pipo, units, TexPipo);
      ret := GLTrue;
    }

    /**
     * initIndependent(): the upload of an original image is disabled in
     * the code, so this is init(); afterwards the phase is ready to run.
     */
    method InitIndependent(fbos: seq<nat>, bf: nat, gl: Device) returns (ret: int, bf': nat)
      requires |fbos| == 2 && Shape() && vertices[..] == GridVertices(vertexWidth, vertexHeight)
      requires numVertices == vertexHeight * vertexWidth
      requires gl.Valid() && FreeUnits(bf, UnitLimit) >= 2
      modifies this`read, this`write, this`vbo, fbo, pipo, units, gl
      ensures ret == GLTrue && vbo == GridVertices(vertexWidth, vertexHeight)
      ensures FreeUnits(bf', UnitLimit) == FreeUnits(bf, UnitLimit) - 2
      ensures fbos[0] != fbos[1] ==> Ready(gl)
      ensures gl.draws == old(gl.draws)
    {
      ret, bf' := Init(fbos, bf, gl);
    }

    /**
     * run(): each ping-pong texture is attached to its framebuffer, then
     * one draw of mNumVertices points renders into the texture mWrite
     * names; no sampler is set. mRead and mWrite are not swapped.
     */
    method Run(gl: Device)
      requires Ready(gl)
      modifies gl
      ensures Ready(gl)
      ensures gl.attachment == old(gl.attachment)[fbo[0] := pipo[0]][fbo[1] := pipo[1]]
      ensures gl.bound == fbo[write]
      ensures gl.draws == old(gl.draws) + [DrawCall(pipo[write], [], [], Points(numVertices))]
      ensures gl.textures == old(gl.textures)[pipo[write] := Output(|old(gl.draws)|)]
      ensures gl.units == old(gl.units)
    {
      ghost var a0: map<nat, nat> := gl.attachment;
      for i := 0 to 2
        invariant Ready(gl) && gl.units == old(gl.units) && gl.textures == old(gl.textures) && gl.draws == old(gl.draws)
        invariant gl.attachment == if i == 0 then a0 else if i == 1 then a0[fbo[0] := pipo[0]]
                                   else a0[fbo[0] := pipo[0]][fbo[1] := pipo[1]]
      {
        gl.BindFramebuffer(fbo[i]);
        gl.AttachTexture(pipo[i]);
      }
      gl.BindFramebuffer(fbo[write]);
      gl.Draw([], Points(numVertices));
    }
  }
}
