// The older variant of the labeling host (labelPhase.cpp at the top of the
// repository). Its texture set-up, ping-pong indices and pass schedule are
// those of src/labelPhase.cpp; the differences are that every loop pass also
// sets u_debug to 0 (the initial pass leaves it unset), and that there are no
// getters for the original texture. The schedule functions of LabelHost are
// shared, with the debug flag set.
module LabelHostOld {
  import opened Phase
  import opened Units
  import opened Gpu
  import opened Host
  import opened LabelHost

  class LabelPhase {
    const width: int
    const height: int
    const fbo: array<nat>     // mFboId
    const pipo: array<nat>    // mTexPiPoId
    const units: array<int>   // mTextureUnits: TEX_ORIG, TEX_PIPO, TEX_PIPO+1
    var origId: nat           // mTexOrigId
    var read: int             // mRead
    var write: int            // mWrite
    var pass: int             // u_pass
    var factor: int           // u_factor
    var debug: int            // u_debug

    constructor (width: int, height: int)
      ensures this.width == width && this.height == height
      ensures fresh(fbo) && fresh(pipo) && fresh(units)
      ensures Shape()
    {
      this.width := width;
      this.height := height;
      fbo := new nat[2];
      pipo := new nat[2];
      units := new int[3];
    }

    /** The member arrays have their C++ sizes and are distinct. */
    predicate Shape()
    {
      fbo.Length == 2 && pipo.Length == 2 && units.Length == 3 && fbo != pipo
    }

    /**
     * What run() needs: the indices are 0 and 1 in some order, the two
     * framebuffers and the two ping-pong textures are distinct, each
     * ping-pong texture is bound to its unit, and the original's unit holds
     * a third texture.
     */
    ghost predicate Ready(gl: Device)
      reads this, fbo, pipo, units, gl
    {
      Shape() &&
      ((read == 0 && write == 1) || (read == 1 && write == 0)) &&
      fbo[0] != fbo[1] && pipo[0] != pipo[1] && gl.Valid() &&
      units[TexOrig] in gl.units && units[TexPipo] in gl.units && units[TexPipo + 1] in gl.units &&
      gl.units[units[TexPipo]] == pipo[0] && gl.units[units[TexPipo + 1]] == pipo[1] &&
      gl.units[units[TexOrig]] != pipo[0] && gl.units[units[TexOrig]] != pipo[1] &&
      pipo[0] in gl.textures && pipo[1] in gl.textures && gl.units[units[TexOrig]] in gl.textures
    }

    /**
     * init(): the framebuffers are stored, mRead = 0 and mWrite = 1, and the
     * two ping-pong textures are made on the two lowest free units. A program
     * that fails to load is only reported, so GL_TRUE is returned.
     */
    method Init(fbos: seq<nat>, bf: nat, gl: Device) returns (ret: int, bf': nat)
      requires |fbos| == 2 && Shape()
      requires gl.Valid() && FreeUnits(bf, UnitLimit) >= 2
      modifies this, fbo, pipo, units, gl
      ensures ret == GLTrue && fbo[..] == fbos && read == 0 && write == 1
      ensures gl.Valid()
      ensures units[TexPipo] >= 0 && units[TexPipo + 1] >= 0
      ensures FirstFree(bf, {}, units[TexPipo] as nat) && FirstFree(bf, {units[TexPipo] as nat}, units[TexPipo + 1] as nat)
      ensures Claimed(bf, {units[TexPipo] as nat, units[TexPipo + 1] as nat}, bf')
      ensures FreeUnits(bf', UnitLimit) == FreeUnits(bf, UnitLimit) - 2
      ensures pipo[0] !in old(gl.textures) && pipo[1] !in old(gl.textures) && pipo[0] != pipo[1]
      ensures gl.textures == old(gl.textures)[pipo[0] := Blank][pipo[1] := Blank]
      ensures gl.units == old(gl.units)[units[TexPipo] := pipo[0]][units[TexPipo + 1] := pipo[1]]
      ensures units[TexOrig] == old(units[TexOrig]) && origId == old(origId)
      ensures pass == old(pass) && factor == old(factor)
      ensures gl.attachment == old(gl.attachment) && gl.bound == old(gl.bound) && gl.draws == old(gl.draws)
    {
      fbo[0] := fbos[0];
      fbo[1] := fbos[1];
      read := 0;
      write := 1;
      bf' := NewPingPong(gl, bf, pipo, units, TexPipo);
      ret := GLTrue;
    }

    /**
     * initIndependent(): the original image is uploaded to a new texture on
     * the lowest free unit, then init() runs; after it the phase is ready to run.
     */
    method InitIndependent(fbos: seq<nat>, bf: nat, gl: Device) returns (ret: int, bf': nat)
      requires |fbos| == 2 && Shape()
      requires gl.Valid() && FreeUnits(bf, UnitLimit) >= 3
      modifies this, fbo, pipo, units, gl
      ensures ret == GLTrue && fbo[..] == fbos && read == 0 && write == 1
      ensures units[TexOrig] >= 0 && units[TexPipo] >= 0 && units[TexPipo + 1] >= 0
      ensures FirstFree(bf, {}, units[TexOrig] as nat)
      ensures FirstFree(bf, {units[TexOrig] as nat}, units[TexPipo] as nat)
      ensures FirstFree(bf, {units[TexOrig] as nat, units[TexPipo] as nat}, units[TexPipo + 1] as nat)
      ensures Claimed(bf, {units[TexOrig] as nat, units[TexPipo] as nat, units[TexPipo + 1] as nat}, bf')
      ensures origId !in old(gl.textures) && units[TexOrig] in gl.units && gl.units[units[TexOrig]] == origId
      ensures origId in gl.textures && gl.textures[origId] == Host("mImage")
      ensures fbos[0] != fbos[1] ==> Ready(gl)
    {
      var unit;
      origId, unit, bf' := NewTexture(gl, bf, Host("mImage"));
      units[TexOrig] := unit;
      ghost var bf1 := bf';
      ret, bf' := Init(fbos, bf', gl);
      assert FirstFree(bf, {unit}, units[TexPipo] as nat) by {
        assert FirstFree(bf1, {}, units[TexPipo] as nat);
      }
      assert FirstFree(bf, {unit, units[TexPipo] as nat}, units[TexPipo + 1] as nat) by {
        assert FirstFree(bf1, {units[TexPipo] as nat}, units[TexPipo + 1] as nat);
      }
    }

    /** getLastTexture(): the texture the last pass rendered. */
    function LastTexture(): nat
      reads this, pipo
      requires pipo.Length == 2 && 0 <= read < 2
    {
      pipo[read]
    }

    /** getFreeTexture(): the other ping-pong texture. */
    function FreeTexture(): nat
      reads this, pipo
      requires pipo.Length == 2 && 0 <= write < 2
    {
      pipo[write]
    }

    /** getLastTexUnit(). */
    function LastTexUnit(): int
      reads this, units
      requires units.Length == 3 && 0 <= read < 2
    {
      units[TexPipo + read]
    }

    /** getFreeTexUnit(). */
    function FreeTexUnit(): int
      reads this, units
      requires units.Length == 3 && 0 <= write < 2
    {
      units[TexPipo + write]
    }

    /**
     * The getters hand out two distinct ping-pong textures, each with the
     * unit it is bound to, and three distinct units.
     */
    lemma GettersAgree(gl: Device)
      requires Ready(gl)
      ensures LastTexture() != FreeTexture()
      ensures gl.units[LastTexUnit()] == LastTexture() && gl.units[FreeTexUnit()] == FreeTexture()
      ensures LastTexUnit() != FreeTexUnit() && units[TexOrig] != LastTexUnit() && units[TexOrig] != FreeTexUnit()
    {
    }

    /** The attachment loop of run(): fbo[i] gets pipo[i]. */
    method AttachPingPong(gl: Device)
      requires Ready(gl)
      modifies gl
      ensures Ready(gl)
      ensures gl.attachment == old(gl.attachment)[fbo[0] := pipo[0]][fbo[1] := pipo[1]]
      ensures gl.units == old(gl.units) && gl.textures == old(gl.textures) && gl.draws == old(gl.draws)
    {
      ghost var a0: map<nat, nat> := gl.attachment;
      for i := 0 to 2
        invariant Ready(gl) && gl.units == old(gl.units) && gl.textures == old(gl.textures) && gl.draws == old(gl.draws)
        invariant gl.attachment == if i == 0 then a0 else if i == 1 then a0[fbo[0] := pipo[0]]
                                   else a0[fbo[0] := pipo[0]][fbo[1] := pipo[1]]
      {
        gl.BindFramebuffer(fbo[i]);
        gl.AttachTexture(pipo[i]);
      }
    }

    /** The attachments run() sets up. */
    ghost predicate Attached(gl: Device)
      reads this, fbo, pipo, gl
      requires Shape()
    {
      fbo[0] in gl.attachment && fbo[1] in gl.attachment &&
      gl.attachment[fbo[0]] == pipo[0] && gl.attachment[fbo[1]] == pipo[1]
    }

    /**
     * One pass: bind fbo[mWrite], sample the given unit, draw, and swap
     * mRead and mWrite; pipo[mWrite] then holds the draw's output.
     */
    method DrawPass(gl: Device, sampler: int, u: Uniforms)
      requires Ready(gl) && Attached(gl) && sampler in gl.units && gl.units[sampler] in gl.textures
      modifies this`read, this`write, gl
      ensures Ready(gl) && Attached(gl)
      ensures read == old(write) && write == old(read)
      ensures gl.draws == old(gl.draws) + [DrawCall(pipo[old(write)], [old(gl.units[sampler])], [old(gl.textures[gl.units[sampler]])], u)]
      ensures gl.textures == old(gl.textures)[pipo[old(write)] := Output(|old(gl.draws)|)]
      ensures gl.units == old(gl.units) && gl.attachment == old(gl.attachment) && gl.bound == fbo[old(write)]
    {
      ghost var u0, t0 := gl.units, gl.textures;
      gl.BindFramebuffer(fbo[write]);
      gl.Draw([sampler], u);
      assert Sources(u0, [sampler]) == [u0[sampler]];
      assert Inputs(t0, u0, [sampler]) == [t0[u0[sampler]]];
      read, write := write, read;
    }

    /**
     * The state after the first i passes of run(), which started with mWrite
     * at w0, the log of length base and the given textures, units and
     * attachments (after the attachment loop).
     */
    ghost predicate AfterPasses(gl: Device, i: nat, base: nat, w0: int, orig: nat, oc: Content,
                                t0: map<nat, Content>, d0: seq<DrawCall>, u0: map<int, nat>, a1: map<nat, nat>)
      reads this, fbo, pipo, units, gl
    {
      Ready(gl) && Attached(gl) && 1 <= i && (w0 == 0 || w0 == 1) && write == Target(i, w0) &&
      factor == Factor(i - 1) && (i >= 2 ==> pass == Stage(i - 1) && debug == 0) &&
      gl.units == u0 && gl.attachment == a1 && gl.bound == fbo[read] &&
      |gl.draws| == base + i && gl.draws[..base] == d0 &&
      Follows(gl.draws, base, i, pipo[..], w0, orig, oc, true) &&
      gl.textures == TexturesAfter(t0, pipo[..], write, base, i)
    }

    /** The uniforms of loop pass i: u_pass, u_factor flipped before a merge, and u_debug cleared. */
    method SetUniforms(i: nat)
      requires i >= 1 && factor == Factor(i - 1)
      modifies this`pass, this`factor, this`debug
      ensures pass == Stage(i) && factor == Factor(i) && debug == 0
    {
      if i % 2 == 1 {
        pass := StageHighestLabel;
        factor := factor * -1;
        debug := 0;
      } else {
        pass := i;
        debug := 0;
      }
    }

    /** Loop pass i of run(): a merge for odd i, a consolidation for even i. */
    method LoopPass(gl: Device, i: nat, ghost base: nat, ghost w0: int, ghost orig: nat, ghost oc: Content,
                    ghost t0: map<nat, Content>, ghost d0: seq<DrawCall>, ghost u0: map<int, nat>, ghost a1: map<nat, nat>)
      requires AfterPasses(gl, i, base, w0, orig, oc, t0, d0, u0, a1)
      modifies this`read, this`write, this`pass, this`factor, this`debug, gl
      ensures AfterPasses(gl, i + 1, base, w0, orig, oc, t0, d0, u0, a1)
    {
      SetUniforms(i);
      ghost var log, t, w := gl.draws, gl.textures, write;
      DrawPass(gl, units[TexPipo + read], LabelingDebug(pass, factor, debug));
      PassPreserves(i, base, pipo[..], w0, orig, oc, true, t0, w, log, gl.draws, t, gl.textures);
      assert gl.draws[..base] == log[..base];
    }

    /** Loop passes 1..logBase2(height)+9 of run(), with the for-loop of the source. */
    method LabelLoop(gl: Device, ghost base: nat, ghost w0: int, ghost orig: nat, ghost oc: Content,
                     ghost t0: map<nat, Content>, ghost d0: seq<DrawCall>, ghost u0: map<int, nat>, ghost a1: map<nat, nat>)
      requires AfterPasses(gl, 1, base, w0, orig, oc, t0, d0, u0, a1)
      modifies this`read, this`write, this`pass, this`factor, this`debug, gl
      ensures AfterPasses(gl, Passes(height), base, w0, orig, oc, t0, d0, u0, a1)
    {
      // logBase2 is pure, so its value is taken once
      var limit := LogBase2(height);
      var i := 1;
      while i < limit + 10
        invariant 1 <= i <= limit + 10
        invariant AfterPasses(gl, i, base, w0, orig, oc, t0, d0, u0, a1)
      {
        LoopPass(gl, i, base, w0, orig, oc, t0, d0, u0, a1);
        i := i + 1;
      }
    }

    /**
     * run(): both framebuffers get their ping-pong texture attached, then
     * the Passes(height) draws that Scheduled describes follow, each reading
     * what the one before wrote; the textures then are as TexturesAfter
     * says, and mWrite has flipped once per pass.
     */
    method Run(gl: Device)
      requires Ready(gl)
      modifies this, gl
      ensures Ready(gl) && gl.units == old(gl.units) && gl.bound == fbo[read] && origId == old(origId)
      ensures gl.attachment == old(gl.attachment)[fbo[0] := pipo[0]][fbo[1] := pipo[1]]
      ensures |gl.draws| == |old(gl.draws)| + Passes(height) && gl.draws[..|old(gl.draws)|] == old(gl.draws)
      ensures Follows(gl.draws, |old(gl.draws)|, Passes(height), pipo[..], old(write),
                      old(gl.units[units[TexOrig]]), old(gl.textures[gl.units[units[TexOrig]]]), true)
      ensures write == Target(Passes(height), old(write))
      ensures gl.textures == TexturesAfter(old(gl.textures), pipo[..], write, |old(gl.draws)|, Passes(height))
      ensures pass == Stage(Passes(height) - 1) && factor == Factor(Passes(height) - 1) && debug == 0
    {
      ghost var base := |gl.draws|;
      ghost var orig := gl.units[units[TexOrig]];
      AttachPingPong(gl);
      // 1. threshold and initial labeling
      factor := -1;
      DrawPass(gl, units[TexOrig], Labeling(StageInitialLabeling, factor));
      assert gl.draws[base] == Scheduled(0, base, pipo[..], old(write), orig, old(gl.textures[orig]), true);
      assert gl.draws[..base] == old(gl.draws);
      // 2. connected-component labeling
      LabelLoop(gl, base, old(write), orig, old(gl.textures[orig]), old(gl.textures), old(gl.draws), old(gl.units), gl.attachment);
    }
  }
}
