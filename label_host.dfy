// The host side of the labeling phase (src/labelPhase.cpp): texture and unit
// set-up, the ping-pong indices mRead/mWrite, and the pass schedule of run()
// — one thresholding and initial-labeling pass on the original image, then
// logBase2(height)+9 passes that alternate a merge (u_pass = 1, u_factor
// flipped first) with a consolidation (u_pass = i), each reading what the
// previous pass wrote.
module LabelHost {
  import opened Phase
  import opened Units
  import opened Grids
  import opened Gpu
  import opened Host
  import Labeling

  const TexOrig := 0
  const TexPipo := 1
  const StageInitialLabeling := 0
  const StageHighestLabel := 1
  const GLTrue := 1

  /** The number of draws run() issues: the initial pass and loop passes 1..logBase2(height)+9. */
  function Passes(height: int): (n: nat)
    ensures n >= 10
  {
    BitLength(height) + 10
  }

  /** u_pass of pass k (pass 0 being the initial pass). */
  function Stage(k: nat): int
  {
    if k == 0 then StageInitialLabeling else if k % 2 == 1 then StageHighestLabel else k
  }

  /** u_factor at pass k: -1 for the initial pass, negated before each odd pass. */
  function Factor(k: nat): int
  {
    if k == 0 then -1 else if k % 2 == 1 then -Factor(k - 1) else Factor(k - 1)
  }

  /**
   * The uniforms of pass k. The older variant (labelPhase.cpp) also sets
   * u_debug to 0 on every loop pass, but not on the initial pass.
   */
  function PassUniforms(k: nat, debug: bool): Uniforms
  {
    if debug && k > 0 then LabelingDebug(Stage(k), Factor(k), 0) else Labeling(Stage(k), Factor(k))
  }

  /**
   * Draw k of run(), issued as draw number base + k: it renders into the
   * ping-pong texture of index Target(k, w0); the initial pass samples the
   * original image orig (holding oc), every later pass the texture the pass
   * before it rendered.
   */
  function Scheduled(k: nat, base: nat, pipo: seq<nat>, w0: int, orig: nat, oc: Content, debug: bool): DrawCall
    requires |pipo| == 2 && (w0 == 0 || w0 == 1)
  {
    DrawCall(pipo[Target(k, w0)],
             if k == 0 then [orig] else [pipo[Target(k - 1, w0)]],
             if k == 0 then [oc] else [Output(base + k - 1)],
             PassUniforms(k, debug))
  }

  /** log[base..base+i] are the draws 0..i-1 of run(). */
  ghost predicate Follows(log: seq<DrawCall>, base: nat, i: nat, pipo: seq<nat>, w0: int, orig: nat, oc: Content, debug: bool)
    requires |pipo| == 2 && (w0 == 0 || w0 == 1)
  {
    base + i <= |log| && forall k :: 0 <= k < i ==> log[base + k] == Scheduled(k, base, pipo, w0, orig, oc, debug)
  }

  /** Appending the next scheduled draw extends the log by one pass. */
  lemma FollowsNext(log: seq<DrawCall>, d: DrawCall, base: nat, i: nat, pipo: seq<nat>, w0: int, orig: nat, oc: Content, debug: bool)
    requires |pipo| == 2 && (w0 == 0 || w0 == 1)
    requires |log| == base + i && Follows(log, base, i, pipo, w0, orig, oc, debug) && d == Scheduled(i, base, pipo, w0, orig, oc, debug)
    ensures Follows(log + [d], base, i + 1, pipo, w0, orig, oc, debug)
  {
    var log' := log + [d];
    forall k | 0 <= k < i + 1
      ensures log'[base + k] == Scheduled(k, base, pipo, w0, orig, oc, debug)
    {
      if k < i {
        assert log'[base + k] == log[base + k];
      }
    }
  }

  /**
   * One loop pass on values: drawing into pipo[w] from pipo[1 - w] with the
   * scheduled uniforms extends the log and moves the outputs along.
   */
  lemma PassPreserves(i: nat, base: nat, pipo: seq<nat>, w0: int, orig: nat, oc: Content, debug: bool, t0: map<nat, Content>,
                      w: int, log: seq<DrawCall>, log': seq<DrawCall>, t: map<nat, Content>, t': map<nat, Content>)
    requires |pipo| == 2 && pipo[0] != pipo[1] && (w0 == 0 || w0 == 1) && i >= 1
    requires w == Target(i, w0) && (w == 0 || w == 1)
    requires |log| == base + i && Follows(log, base, i, pipo, w0, orig, oc, debug) && t == TexturesAfter(t0, pipo, w, base, i)
    requires log' == log + [DrawCall(pipo[w], [pipo[1 - w]], [t[pipo[1 - w]]], PassUniforms(i, debug))]
    requires t' == t[pipo[w] := Output(|log|)]
    ensures Follows(log', base, i + 1, pipo, w0, orig, oc, debug) && t' == TexturesAfter(t0, pipo, 1 - w, base, i + 1)
  {
    TargetNext(i - 1, w0);
    FollowsNext(log, log'[base + i], base, i, pipo, w0, orig, oc, debug);
    assert log' == log + [log'[base + i]];
  }

  // ------------------------------------------------ what the schedule means

  /**
   * u_factor is +1 or -1; on every merge pass it is the factor the pure
   * model's pass sequence uses, and a consolidation pass keeps it.
   */
  lemma {:induction false} FactorSchedule(k: nat)
    ensures Factor(k) == 1 || Factor(k) == -1
    ensures k % 2 == 1 ==> Factor(k) == Labeling.MergeFactor(k)
    ensures k % 2 == 0 && k > 0 ==> Factor(k) == Factor(k - 1)
  {
    if k > 0 {
      FactorSchedule(k - 1);
      if k % 2 == 1 && k >= 3 {
        FactorSchedule(k - 2);
        Labeling.MergeFactorAlternates(k - 2);
      }
    }
  }

  /** u_pass is 0 only on the initial pass, 1 on every merge pass and at least 2 on every consolidation. */
  lemma StageSchedule(k: nat)
    ensures (Stage(k) == StageInitialLabeling) == (k == 0)
    ensures (Stage(k) == StageHighestLabel) == (k % 2 == 1)
    ensures k % 2 == 0 && k > 0 ==> Stage(k) >= 2
  {
  }

  /**
   * No pass samples the texture it renders into; the initial pass samples the
   * original image and every later one exactly what the pass before it
   * rendered.
   */
  lemma ScheduleChain(k: nat, base: nat, pipo: seq<nat>, w0: int, orig: nat, oc: Content, debug: bool)
    requires |pipo| == 2 && pipo[0] != pipo[1] && orig != pipo[0] && orig != pipo[1] && (w0 == 0 || w0 == 1)
    ensures Scheduled(k, base, pipo, w0, orig, oc, debug).target !in Scheduled(k, base, pipo, w0, orig, oc, debug).sources
    ensures k == 0 ==> Scheduled(k, base, pipo, w0, orig, oc, debug).sources == [orig]
    ensures k > 0 ==> Scheduled(k, base, pipo, w0, orig, oc, debug).sources == [Scheduled(k - 1, base, pipo, w0, orig, oc, debug).target]
  {
    if k > 0 {
      TargetNext(k - 1, w0);
    }
  }

  /**
   * logBase2 returns the bit length rather than the floor of the logarithm, so
   * for a power-of-two height 2^k run() issues k + 11 draws.
   */
  lemma PassesOfPow2(k: nat)
    ensures Passes(Pow2(k)) == k + 11
  {
    BitLengthOfPow2(k);
  }

  /**
   * After run(), called right after init (mWrite = 1), mRead names the
   * ping-pong texture 0 when the bit length of the height is even, 1 when it
   * is odd.
   */
  lemma FinalRead(height: int)
    ensures 1 - Target(Passes(height), 1) == (if BitLength(height) % 2 == 0 then 0 else 1)
  {
    var n := BitLength(height);
    TargetParity(n + 10, 1);
    assert (n + 10) % 2 == n % 2;
  }

  /**
   * What a labeling draw computes from the grid its sampler sees, by u_pass:
   * thresholding and initial labels at 0, a merge in the direction u_factor
   * at 1, a consolidation otherwise.
   */
  function Effect(u: Uniforms, g: Grid, w: nat, h: nat, t: int, mask: Labeling.Mask, b: Border): (r: Grid)
    requires u.Labeling? || u.LabelingDebug?
    requires IsGrid(g, w, h) && w > 0 && h > 0
    ensures IsGrid(r, w, h)
  {
    if u.pass == StageInitialLabeling then Labeling.InitialLabels(g, w, h, t, b)
    else if u.pass == StageHighestLabel then Labeling.Merge(g, w, h, mask, u.factor, b)
    else Labeling.Consolidate(g, w, h, b)
  }

  /**
   * log[base..j] are labeling draws with one sampler each, each sampling the
   * uploaded image or the output of an earlier draw of that range.
   */
  ghost predicate Chained(log: seq<DrawCall>, base: nat, j: nat)
  {
    base <= j < |log| &&
    forall k :: base <= k <= j ==>
      (log[k].uniforms.Labeling? || log[k].uniforms.LabelingDebug?) && |log[k].inputs| == 1 &&
      (log[k].inputs[0].Output? ==> base <= log[k].inputs[0].draw < k) && !log[k].inputs[0].Blank?
  }

  /** The grid draw j renders, when the host texture those draws sample holds image. */
  ghost function Replay(log: seq<DrawCall>, base: nat, j: nat, image: Grid, w: nat, h: nat, t: int,
                        mask: Labeling.Mask, b: Border): (r: Grid)
    requires Chained(log, base, j) && IsGrid(image, w, h) && w > 0 && h > 0
    ensures IsGrid(r, w, h)
    decreases j
  {
    var input := log[j].inputs[0];
    var g := if input.Output? then Replay(log, base, input.draw, image, w, h, t, mask, b) else image;
    Effect(log[j].uniforms, g, w, h, t, mask, b)
  }

  /**
   * The draws of run() compute the labels of the pure model: pass k renders
   * the labels after the initial pass and k loop passes of
   * include/doc-labelphase.h, when the original texture is an upload.
   */
  lemma {:induction false} RunComputesLabels(log: seq<DrawCall>, base: nat, n: nat, pipo: seq<nat>, w0: int, orig: nat,
                                             oc: Content, debug: bool, image: Grid, w: nat, h: nat, t: int,
                                             mask: Labeling.Mask, b: Border, k: nat)
    requires |pipo| == 2 && (w0 == 0 || w0 == 1) && Follows(log, base, n, pipo, w0, orig, oc, debug) && oc.Host?
    requires IsGrid(image, w, h) && w > 0 && h > 0 && k < n
    ensures Chained(log, base, base + k)
    ensures Replay(log, base, base + k, image, w, h, t, mask, b) == Labeling.Labels(image, w, h, t, mask, b, k)
  {
    assert log[base + k] == Scheduled(k, base, pipo, w0, orig, oc, debug);
    if k == 0 {
      assert Chained(log, base, base);
    } else {
      RunComputesLabels(log, base, n, pipo, w0, orig, oc, debug, image, w, h, t, mask, b, k - 1);
      FactorSchedule(k);
      StageSchedule(k);
    }
  }

  class LabelPhase {
    const width: int
    const height: int
    const fbo: array<nat>     // mFboId
    const pipo: array<nat>    // mTexPiPoId
    const units: array<int>   // mTextureUnits: TEX_ORIG, TEX_PIPO, TEX_PIPO+1
    var origId: nat           // mTexOrigId
    var read: int             // mRead
    var write: int            // mWrite
    var pass: int             // u_pass
    var factor: int           // u_factor

    constructor (width: int, height: int)
      ensures this.width == width && this.height == height
      ensures fresh(fbo) && fresh(pipo) && fresh(units)
      ensures Shape()
    {
      this.width := width;
      this.height := height;
      fbo := new nat[2];
      pipo := new nat[2];
      units := new int[3];
    }

    /** The member arrays have their C++ sizes and are distinct. */
    predicate Shape()
    {
      fbo.Length == 2 && pipo.Length == 2 && units.Length == 3 && fbo != pipo
    }

    /**
     * What run() needs: the indices are 0 and 1 in some order, the two
     * framebuffers and the two ping-pong textures are distinct, each
     * ping-pong texture is bound to its unit, and the original's unit holds
     * a third texture.
     */
    ghost predicate Ready(gl: Device)
      reads this, fbo, pipo, units, gl
    {
      Shape() &&
      ((read == 0 && write == 1) || (read == 1 && write == 0)) &&
      fbo[0] != fbo[1] && pipo[0] != pipo[1] && gl.Valid() &&
      units[TexOrig] in gl.units && units[TexPipo] in gl.units && units[TexPipo + 1] in gl.units &&
      gl.units[units[TexPipo]] == pipo[0] && gl.units[units[TexPipo + 1]] == pipo[1] &&
      gl.units[units[TexOrig]] != pipo[0] && gl.units[units[TexOrig]] != pipo[1] &&
      pipo[0] in gl.textures && pipo[1] in gl.textures && gl.units[units[TexOrig]] in gl.textures
    }

    /**
     * init(): the framebuffers are stored, mRead = 0 and mWrite = 1, and the
     * two ping-pong textures are made on the two lowest free units. A program
     * that fails to load is only reported, so GL_TRUE is returned.
     */
    method Init(fbos: seq<nat>, bf: nat, gl: Device) returns (ret: int, bf': nat)
      requires |fbos| == 2 && Shape()
      requires gl.Valid() && FreeUnits(bf, UnitLimit) >= 2
      modifies this, fbo, pipo, units, gl
      ensures ret == GLTrue && fbo[..] == fbos && read == 0 && write == 1
      ensures gl.Valid()
      ensures units[TexPipo] >= 0 && units[TexPipo + 1] >= 0
      ensures FirstFree(bf, {}, units[TexPipo] as nat) && FirstFree(bf, {units[TexPipo] as nat}, units[TexPipo + 1] as nat)
      ensures Claimed(bf, {units[TexPipo] as nat, units[TexPipo + 1] as nat}, bf')
      ensures FreeUnits(bf', UnitLimit) == FreeUnits(bf, UnitLimit) - 2
      ensures pipo[0] !in old(gl.textures) && pipo[1] !in old(gl.textures) && pipo[0] != pipo[1]
      ensures gl.textures == old(gl.textures)[pipo[0] := Blank][pipo[1] := Blank]
      ensures gl.units == old(gl.units)[units[TexPipo] := pipo[0]][units[TexPipo + 1] := pipo[1]]
      ensures units[TexOrig] == old(units[TexOrig]) && origId == old(origId)
      ensures pass == old(pass) && factor == old(factor)
      ensures gl.attachment == old(gl.attachment) && gl.bound == old(gl.bound) && gl.draws == old(gl.draws)
    {
      fbo[0] := fbos[0];
      fbo[1] := fbos[1];
      read := 0;
      write := 1;
      bf' := NewPingPong(gl, bf, pipo, units, TexPipo);
      ret := GLTrue;
    }

    /**
     * initIndependent(): the original image is uploaded to a new texture on
     * the lowest free unit, then init() runs; after it the phase is ready to run.
     */
    method InitIndependent(fbos: seq<nat>, bf: nat, gl: Device) returns (ret: int, bf': nat)
      requires |fbos| == 2 && Shape()
      requires gl.Valid() && FreeUnits(bf, UnitLimit) >= 3
      modifies this, fbo, pipo, units, gl
      ensures ret == GLTrue && fbo[..] == fbos && read == 0 && write == 1
      ensures units[TexOrig] >= 0 && units[TexPipo] >= 0 && units[TexPipo + 1] >= 0
      ensures FirstFree(bf, {}, units[TexOrig] as nat)
      ensures FirstFree(bf, {units[TexOrig] as nat}, units[TexPipo] as nat)
      ensures FirstFree(bf, {units[TexOrig] as nat, units[TexPipo] as nat}, units[TexPipo + 1] as nat)
      ensures Claimed(bf, {units[TexOrig] as nat, units[TexPipo] as nat, units[TexPipo + 1] as nat}, bf')
      ensures origId !in old(gl.textures) && units[TexOrig] in gl.units && gl.units[units[TexOrig]] == origId
      ensures origId in gl.textures && gl.textures[origId] == Host("mImage")
      ensures fbos[0] != fbos[1] ==> Ready(gl)
    {
      var unit;
      origId, unit, bf' := NewTexture(gl, bf, Host("mImage"));
      units[TexOrig] := unit;
      ghost var bf1 := bf';
      ret, bf' := Init(fbos, bf', gl);
      assert FirstFree(bf, {unit}, units[TexPipo] as nat) by {
        assert FirstFree(bf1, {}, units[TexPipo] as nat);
      }
      assert FirstFree(bf, {unit, units[TexPipo] as nat}, units[TexPipo + 1] as nat) by {
        assert FirstFree(bf1, {units[TexPipo] as nat}, units[TexPipo + 1] as nat);
      }
    }

    /** getLastTexture(): the texture the last pass rendered. */
    function LastTexture(): nat
      reads this, pipo
      requires pipo.Length == 2 && 0 <= read < 2
    {
      pipo[read]
    }

    /** getFreeTexture(): the other ping-pong texture. */
    function FreeTexture(): nat
      reads this, pipo
      requires pipo.Length == 2 && 0 <= write < 2
    {
      pipo[write]
    }

    /** getLastTexUnit(). */
    function LastTexUnit(): int
      reads this, units
      requires units.Length == 3 && 0 <= read < 2
    {
      units[TexPipo + read]
    }

    /** getFreeTexUnit(). */
    function FreeTexUnit(): int
      reads this, units
      requires units.Length == 3 && 0 <= write < 2
    {
      units[TexPipo + write]
    }

    /** getOrigTexture(). */
    function OrigTexture(): nat
      reads this
    {
      origId
    }

    /** getOrigTexUnit(). */
    function OrigTexUnit(): int
      reads this, units
      requires units.Length == 3
    {
      units[TexOrig]
    }

    /**
     * The getters hand out two distinct ping-pong textures, each with the
     * unit it is bound to, and three distinct units.
     */
    lemma GettersAgree(gl: Device)
      requires Ready(gl)
      ensures LastTexture() != FreeTexture()
      ensures gl.units[LastTexUnit()] == LastTexture() && gl.units[FreeTexUnit()] == FreeTexture()
      ensures LastTexUnit() != FreeTexUnit() && OrigTexUnit() != LastTexUnit() && OrigTexUnit() != FreeTexUnit()
    {
    }

    /** The attachment loop of run(): fbo[i] gets pipo[i]. */
    method AttachPingPong(gl: Device)
      requires Ready(gl)
      modifies gl
      ensures Ready(gl)
      ensures gl.attachment == old(gl.attachment)[fbo[0] := pipo[0]][fbo[1] := pipo[1]]
      ensures gl.units == old(gl.units) && gl.textures == old(gl.textures) && gl.draws == old(gl.draws)
    {
      ghost var a0: map<nat, nat> := gl.attachment;
      for i := 0 to 2
        invariant Ready(gl) && gl.units == old(gl.units) && gl.textures == old(gl.textures) && gl.draws == old(gl.draws)
        invariant gl.attachment == if i == 0 then a0 else if i == 1 then a0[fbo[0] := pipo[0]]
                                   else a0[fbo[0] := pipo[0]][fbo[1] := pipo[1]]
      {
        gl.BindFramebuffer(fbo[i]);
        gl.AttachTexture(pipo[i]);
      }
    }

    /** The attachments run() sets up. */
    ghost predicate Attached(gl: Device)
      reads this, fbo, pipo, gl
      requires Shape()
    {
      fbo[0] in gl.attachment && fbo[1] in gl.attachment &&
      gl.attachment[fbo[0]] == pipo[0] && gl.attachment[fbo[1]] == pipo[1]
    }

    /**
     * One pass: bind fbo[mWrite], sample the given unit, draw, and swap
     * mRead and mWrite; pipo[mWrite] then holds the draw's output.
     */
    method DrawPass(gl: Device, sampler: int, u: Uniforms)
      requires Ready(gl) && Attached(gl) && sampler in gl.units && gl.units[sampler] in gl.textures
      modifies this`read, this`write, gl
      ensures Ready(gl) && Attached(gl)
      ensures read == old(write) && write == old(read)
      ensures gl.draws == old(gl.draws) + [DrawCall(pipo[old(write)], [old(gl.units[sampler])], [old(gl.textures[gl.units[sampler]])], u)]
      ensures gl.textures == old(gl.textures)[pipo[old(write)] := Output(|old(gl.draws)|)]
      ensures gl.units == old(gl.units) && gl.attachment == old(gl.attachment) && gl.bound == fbo[old(write)]
    {
      ghost var u0, t0 := gl.units, gl.textures;
      gl.BindFramebuffer(fbo[write]);
      gl.Draw([sampler], u);
      assert Sources(u0, [sampler]) == [u0[sampler]];
      assert Inputs(t0, u0, [sampler]) == [t0[u0[sampler]]];
      read, write := write, read;
    }

    /**
     * The state after the first i passes of run(), which started with mWrite
     * at w0, the log of length base and the given textures, units and
     * attachments (after the attachment loop).
     */
    ghost predicate AfterPasses(gl: Device, i: nat, base: nat, w0: int, orig: nat, oc: Content,
                                t0: map<nat, Content>, d0: seq<DrawCall>, u0: map<int, nat>, a1: map<nat, nat>)
      reads this, fbo, pipo, units, gl
    {
      Ready(gl) && Attached(gl) && 1 <= i && (w0 == 0 || w0 == 1) && write == Target(i, w0) &&
      factor == Factor(i - 1) && (i >= 2 ==> pass == Stage(i - 1)) &&
      gl.units == u0 && gl.attachment == a1 && gl.bound == fbo[read] &&
      |gl.draws| == base + i && gl.draws[..base] == d0 &&
      Follows(gl.draws, base, i, pipo[..], w0, orig, oc, false) &&
      gl.textures == TexturesAfter(t0, pipo[..], write, base, i)
    }

    /** The uniforms of loop pass i: u_pass, and u_factor flipped before a merge. */
    method SetUniforms(i: nat)
      requires i >= 1 && factor == Factor(i - 1)
      modifies this`pass, this`factor
      ensures pass == Stage(i) && factor == Factor(i)
    {
      if i % 2 == 1 {
        pass := StageHighestLabel;
        factor := factor * -1;
      } else {
        pass := i;
      }
    }

    /** Loop pass i of run(): a merge for odd i, a consolidation for even i. */
    method LoopPass(gl: Device, i: nat, ghost base: nat, ghost w0: int, ghost orig: nat, ghost oc: Content,
                    ghost t0: map<nat, Content>, ghost d0: seq<DrawCall>, ghost u0: map<int, nat>, ghost a1: map<nat, nat>)
      requires AfterPasses(gl, i, base, w0, orig, oc, t0, d0, u0, a1)
      modifies this`read, this`write, this`pass, this`factor, gl
      ensures AfterPasses(gl, i + 1, base, w0, orig, oc, t0, d0, u0, a1)
    {
      SetUniforms(i);
      ghost var log, t, w := gl.draws, gl.textures, write;
      DrawPass(gl, units[TexPipo + read], Labeling(pass, factor));
      PassPreserves(i, base, pipo[..], w0, orig, oc, false, t0, w, log, gl.draws, t, gl.textures);
      assert gl.draws[..base] == log[..base];
    }

    /** Loop passes 1..logBase2(height)+9 of run(), with the for-loop of the source. */
    method LabelLoop(gl: Device, ghost base: nat, ghost w0: int, ghost orig: nat, ghost oc: Content,
                     ghost t0: map<nat, Content>, ghost d0: seq<DrawCall>, ghost u0: map<int, nat>, ghost a1: map<nat, nat>)
      requires AfterPasses(gl, 1, base, w0, orig, oc, t0, d0, u0, a1)
      modifies this`read, this`write, this`pass, this`factor, gl
      ensures AfterPasses(gl, Passes(height), base, w0, orig, oc, t0, d0, u0, a1)
    {
      // logBase2 is pure, so its value is taken once
      var limit := LogBase2(height);
      var i := 1;
      while i < limit + 10
        invariant 1 <= i <= limit + 10
        invariant AfterPasses(gl, i, base, w0, orig, oc, t0, d0, u0, a1)
      {
        LoopPass(gl, i, base, w0, orig, oc, t0, d0, u0, a1);
        i := i + 1;
      }
    }

    /**
     * run(): both framebuffers get their ping-pong texture attached, then
     * the Passes(height) draws that Scheduled describes follow, each reading
     * what the one before wrote; the textures then are as TexturesAfter
     * says, and mWrite has flipped once per pass.
     */
    method Run(gl: Device)
      requires Ready(gl)
      modifies this, gl
      ensures Ready(gl) && gl.units == old(gl.units) && gl.bound == fbo[read] && origId == old(origId)
      ensures gl.attachment == old(gl.attachment)[fbo[0] := pipo[0]][fbo[1] := pipo[1]]
      ensures |gl.draws| == |old(gl.draws)| + Passes(height) && gl.draws[..|old(gl.draws)|] == old(gl.draws)
      ensures Follows(gl.draws, |old(gl.draws)|, Passes(height), pipo[..], old(write),
                      old(gl.units[units[TexOrig]]), old(gl.textures[gl.units[units[TexOrig]]]), false)
      ensures write == Target(Passes(height), old(write))
      ensures gl.textures == TexturesAfter(old(gl.textures), pipo[..], write, |old(gl.draws)|, Passes(height))
      ensures pass == Stage(Passes(height) - 1) && factor == Factor(Passes(height) - 1)
    {
      ghost var base := |gl.draws|;
      ghost var orig := gl.units[units[TexOrig]];
      AttachPingPong(gl);
      // 1. threshold and initial labeling
      factor := -1;
      DrawPass(gl, units[TexOrig], Labeling(StageInitialLabeling, factor));
      assert gl.draws[base] == Scheduled(0, base, pipo[..], old(write), orig, old(gl.textures[orig]), false);
      assert gl.draws[..base] == old(gl.draws);
      // 2. connected-component labeling
      LabelLoop(gl, base, old(write), orig, old(gl.textures[orig]), old(gl.textures), old(gl.draws), old(gl.units), gl.attachment);
    }
  }
}
