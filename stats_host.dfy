// The host side of the statistics phase (src/statsPhase.cpp): six textures
// in fixed roles (the original image, the reduced table, the label image,
// the filled image and a ping-pong pair), the fill, count and centroiding
// stages run() issues for each of the four quadrants, the texture swaps
// that close each stage, and the decoding of the result table into spots.
module StatsHost {
  import opened Phase
  import opened Units
  import opened Gpu
  import opened Host
  import Stats
  import Grids
  import opened StatsTable

  // The roles, indices into mTextureUnits.
  const TexOrig: nat := 0
  const TexReduced: nat := 1
  const TexLabel: nat := 2
  const TexFill: nat := 3
  const TexPipo: nat := 4
  const Roles: nat := 6

  // u_stage of the count and centroiding programs.
  const StageCount := 1
  const StageCentroiding := 2
  const StageBlend := 3
  const StageSave := 4

  // u_pass of the first centroiding pass, for x and for y.
  const CentroidX := -1
  const CentroidY := -2

  const GLTrue := 1

  /** The two programs that sum over a window. */
  datatype SumProgram = CountProgram | CentroidProgram

  /** The uniforms of a draw of the given program. */
  function SumUniforms(prog: SumProgram, stage: int, pass: int, fx: int, fy: int, offset: int): Uniforms
  {
    match prog
    case CountProgram => Counting(stage, pass, fx, fy, offset)
    case CentroidProgram => Centroiding(stage, pass, fx, fy, offset)
  }

  /** u_stage of the summing passes of each program. */
  function SumStage(prog: SumProgram): int
  {
    if prog == CountProgram then StageCount else StageCentroiding
  }

  /** u_pass of summing pass k: first, then 0, 1, 2, ... */
  function PassValue(first: int, k: nat): int
  {
    if k == 0 then first else k - 1
  }

  // ------------------------------------------------------------ run() on values

  /**
   * What run() works on, as a value: mRead and mWrite, the texture of each
   * role (ids: mTexOrigId, mTexReducedId, mTexLabelId, mTexFillId,
   * mTexPiPoId[0], mTexPiPoId[1]), what each of those textures holds, the
   * u_savingOffset each summing program holds, and the context's draw log.
   * The texture units and the framebuffer attachments are kept by the phase
   * object, whose invariant says that the texture of role k is bound to unit
   * mTextureUnits[k] and that fbo[i] has ping-pong texture i attached.
   */
  datatype RunState = RunState(read: int, write: int, ids: seq<nat>, contents: seq<Content>,
                               countOffset: int, centroidOffset: int, draws: seq<DrawCall>)

  /** Six roles, and mRead and mWrite are 0 and 1 in some order. */
  predicate Shape(s: RunState)
  {
    |s.ids| == Roles && |s.contents| == Roles && ((s.read == 0 && s.write == 1) || (s.read == 1 && s.write == 0))
  }

  /** No two roles share a texture. */
  predicate Distinct(ids: seq<nat>)
  {
    forall i, j :: 0 <= i < |ids| && 0 <= j < |ids| && i != j ==> ids[i] != ids[j]
  }

  /** The entries of the given roles. */
  function Pick<T>(xs: seq<T>, roles: seq<nat>): (r: seq<T>)
    requires forall k :: 0 <= k < |roles| ==> roles[k] < |xs|
    ensures |r| == |roles| && forall k :: 0 <= k < |roles| ==> r[k] == xs[roles[k]]
  {
    seq(|roles|, k requires 0 <= k < |roles| => xs[roles[k]])
  }

  /** Pick on four roles, written out. */
  lemma PickFour<T>(xs: seq<T>, a: nat, b: nat, c: nat, d: nat)
    requires a < |xs| && b < |xs| && c < |xs| && d < |xs|
    ensures Pick(xs, [a, b, c, d]) == [xs[a], xs[b], xs[c], xs[d]]
  {
  }

  /** The other summing program. */
  function Other(prog: SumProgram): SumProgram
  {
    if prog == CountProgram then CentroidProgram else CountProgram
  }

  /** The u_savingOffset the program holds. */
  function ProgOffset(s: RunState, prog: SumProgram): int
  {
    if prog == CountProgram then s.countOffset else s.centroidOffset
  }

  /** glUniform1f(u_savingOffset, offset) on the program; the other program keeps its own. */
  function SetOffset(s: RunState, prog: SumProgram, offset: int): (r: RunState)
    ensures ProgOffset(r, prog) == offset && ProgOffset(r, Other(prog)) == ProgOffset(s, Other(prog))
    ensures r.(countOffset := s.countOffset, centroidOffset := s.centroidOffset) == s
  {
    if prog == CountProgram then s.(countOffset := offset) else s.(centroidOffset := offset)
  }

  /**
   * One pass of any stage: a draw into fbo[mWrite], that is into ping-pong
   * texture mWrite, sampling the textures of the given roles, then
   * std::swap(mRead, mWrite).
   */
  function PassSpec(s: RunState, roles: seq<nat>, u: Uniforms): (r: RunState)
    requires Shape(s) && forall k :: 0 <= k < |roles| ==> roles[k] < Roles
    ensures Shape(r)
  {
    var t := TexPipo + s.write;
    s.(read := s.write, write := s.read, contents := s.contents[t := Output(|s.draws|)],
       draws := s.draws + [DrawCall(s.ids[t], Pick(s.ids, roles), Pick(s.contents, roles), u)])
  }

  /** The sequence with entries i and j exchanged. */
  function Swap<T>(s: seq<T>, i: nat, j: nat): (r: seq<T>)
    requires i < |s| && j < |s|
    ensures |r| == |s| && r[i] == s[j] && r[j] == s[i]
    ensures forall k :: 0 <= k < |s| && k != i && k != j ==> r[k] == s[k]
  {
    s[i := s[j]][j := s[i]]
  }

  /**
   * The closing swap of a stage: the texture of the role and ping-pong
   * texture mRead trade places (their units with them, and fbo[mRead] gets
   * its new texture attached).
   */
  function KeepSpec(s: RunState, role: nat): (r: RunState)
    requires Shape(s) && role < TexPipo
    ensures Shape(r)
  {
    var p := TexPipo + s.read;
    s.(ids := Swap(s.ids, role, p), contents := Swap(s.contents, role, p))
  }

  /** The closing swap permutes the roles' textures, so they stay distinct. */
  lemma {:induction false} KeepPermutes(s: RunState, role: nat)
    requires Shape(s) && role < TexPipo
    ensures var r := KeepSpec(s, role);
            multiset(r.ids) == multiset(s.ids) && (Distinct(s.ids) ==> Distinct(r.ids))
  {
    var p := TexPipo + s.read;
    var r := KeepSpec(s, role);
    if Distinct(s.ids) {
      forall i, j | 0 <= i < Roles && 0 <= j < Roles && i != j
        ensures r.ids[i] != r.ids[j]
      {
        var i' := if i == role then p else if i == p then role else i;
        var j' := if j == role then p else if j == p then role else j;
        assert r.ids[i] == s.ids[i'] && r.ids[j] == s.ids[j'];
      }
    }
  }

  // ------------------------------------------------------------ stage loops

  /**
   * The loop of a stage: fillStage()'s, or the summing loop of countStage()
   * and centroidingStage(), whose first pass has u_pass first.
   */
  datatype Loop = FillLoop(fx: int, fy: int) | SumLoop(prog: SumProgram, first: int, fx: int, fy: int)

  /** The roles the summing passes sample besides s_result: s_fill, s_orig and s_label. */
  function FixedRoles(): seq<nat>
  {
    [TexFill, TexOrig, TexLabel]
  }

  /** The roles pass k of the loop samples, mRead being read before it. */
  function LoopRoles(lp: Loop, k: nat, read: int): (r: seq<nat>)
    requires read == 0 || read == 1
    ensures forall j :: 0 <= j < |r| ==> r[j] < Roles
  {
    match lp
    case FillLoop(_, _) => if k == 0 then [TexLabel] else [TexPipo + read]
    case SumLoop(_, _, _, _) => FixedRoles() + [TexPipo + read]
  }

  /** The uniforms of pass k of the loop, issued from state s. */
  function LoopUniforms(lp: Loop, k: nat, s: RunState): Uniforms
  {
    match lp
    case FillLoop(fx, fy) => Filling(k, fx, fy)
    case SumLoop(prog, first, fx, fy) => SumUniforms(prog, SumStage(prog), PassValue(first, k), fx, fy, ProgOffset(s, prog))
  }

  /** The state after the first i passes of the loop from s. */
  function LoopSpec(s: RunState, lp: Loop, i: nat): (r: RunState)
    requires Shape(s)
    ensures Shape(r) && r.ids == s.ids && r.countOffset == s.countOffset && r.centroidOffset == s.centroidOffset
  {
    if i == 0 then s
    else
      var p := LoopSpec(s, lp, i - 1);
      PassSpec(p, LoopRoles(lp, i - 1, p.read), LoopUniforms(lp, i - 1, p))
  }

  /**
   * The contents after i ping-pong passes, the first being draw number base
   * and mWrite being w afterwards: the last pass wrote ping-pong texture
   * 1 - w, the pass before it texture w, and nothing else changed.
   */
  function PipoAfter(c: seq<Content>, w: int, base: nat, i: nat): (r: seq<Content>)
    requires |c| == Roles && (w == 0 || w == 1)
    ensures |r| == Roles
  {
    if i == 0 then c
    else if i == 1 then c[TexPipo + 1 - w := Output(base)]
    else c[TexPipo + 1 - w := Output(base + i - 1)][TexPipo + w := Output(base + i - 2)]
  }

  /**
   * Pass k of the loop started from s0, written out: draw number
   * |s0.draws| + k, into ping-pong texture Target(k, s0.write). A fill pass
   * samples the label image for k = 0 and the other ping-pong texture,
   * holding the previous pass's output, after. A summing pass samples the
   * fill, original and label textures as they were and the other ping-pong
   * texture, holding what it held for k = 0 and the previous pass's output
   * after.
   */
  function LoopDraw(lp: Loop, k: nat, s0: RunState): DrawCall
    requires Shape(s0)
  {
    var w := Target(k, s0.write);
    var t := s0.ids[TexPipo + w];
    var other := s0.ids[TexPipo + 1 - w];
    var prev := if k == 0 then s0.contents[TexPipo + 1 - w] else Output(|s0.draws| + k - 1);
    match lp
    case FillLoop(fx, fy) =>
      if k == 0 then DrawCall(t, [s0.ids[TexLabel]], [s0.contents[TexLabel]], Filling(0, fx, fy))
      else DrawCall(t, [other], [prev], Filling(k, fx, fy))
    case SumLoop(prog, first, fx, fy) =>
      DrawCall(t, [s0.ids[TexFill], s0.ids[TexOrig], s0.ids[TexLabel], other],
               [s0.contents[TexFill], s0.contents[TexOrig], s0.contents[TexLabel], prev],
               SumUniforms(prog, SumStage(prog), PassValue(first, k), fx, fy, ProgOffset(s0, prog)))
  }

  /**
   * r is what the first i passes of a loop from s leave: the passes
   * alternate between the ping-pong textures, each leaving its output where
   * the next one samples it, pass j is LoopDraw(lp, j, s), and nothing but
   * the ping-pong textures and mRead and mWrite changes.
   */
  ghost predicate After(s: RunState, lp: Loop, i: nat, r: RunState)
    requires Shape(s)
  {
    && Shape(r) && r.ids == s.ids && r.countOffset == s.countOffset && r.centroidOffset == s.centroidOffset
    && r.write == Target(i, s.write) && r.read == 1 - r.write
    && r.contents == PipoAfter(s.contents, r.write, |s.draws|, i)
    && |r.draws| == |s.draws| + i && r.draws[..|s.draws|] == s.draws
    && forall j :: 0 <= j < i ==> r.draws[|s.draws| + j] == LoopDraw(lp, j, s)
  }

  /** Pass k, issued from a state p the first k passes left, is LoopDraw(lp, k, s). */
  lemma {:induction false} LoopPassAt(s: RunState, lp: Loop, k: nat, p: RunState)
    requires Shape(s) && After(s, lp, k, p)
    ensures DrawCall(p.ids[TexPipo + p.write], Pick(p.ids, LoopRoles(lp, k, p.read)),
                     Pick(p.contents, LoopRoles(lp, k, p.read)), LoopUniforms(lp, k, p)) == LoopDraw(lp, k, s)
  {
    var roles := LoopRoles(lp, k, p.read);
    assert Pick(p.ids, roles) == LoopDraw(lp, k, s).sources;
    assert Pick(p.contents, roles) == LoopDraw(lp, k, s).inputs;
  }

  /** One more pass renders into ping-pong texture mWrite. */
  lemma {:induction false} PipoAfterNext(c: seq<Content>, w: int, base: nat, i: nat)
    requires |c| == Roles && (w == 0 || w == 1)
    ensures PipoAfter(c, w, base, i)[TexPipo + w := Output(base + i)] == PipoAfter(c, 1 - w, base, i + 1)
  {
    if i >= 1 {
      assert PipoAfter(c, w, base, i)[TexPipo + w := Output(base + i)] ==
             c[TexPipo + w := Output(base + i)][TexPipo + 1 - w := Output(base + i - 1)];
    }
  }

  /** One more pass of the loop. */
  lemma {:induction false} LoopStep(s: RunState, lp: Loop, k: nat, p: RunState)
    requires Shape(s) && After(s, lp, k, p)
    ensures After(s, lp, k + 1, PassSpec(p, LoopRoles(lp, k, p.read), LoopUniforms(lp, k, p)))
  {
    var n := |s.draws|;
    var r := PassSpec(p, LoopRoles(lp, k, p.read), LoopUniforms(lp, k, p));
    LoopPassAt(s, lp, k, p);
    PipoAfterNext(s.contents, p.write, n, k);
    forall j | 0 <= j < k + 1
      ensures r.draws[n + j] == LoopDraw(lp, j, s)
    {
      if j < k {
        assert r.draws[n + j] == p.draws[n + j];
      }
    }
    assert r.draws[..n] == p.draws[..n];
  }

  /** The first i passes of a loop do what After says. */
  lemma {:induction false} LoopAt(s: RunState, lp: Loop, i: nat)
    requires Shape(s)
    ensures After(s, lp, i, LoopSpec(s, lp, i))
  {
    if i > 0 {
      var p := LoopSpec(s, lp, i - 1);
      LoopAt(s, lp, i - 1);
      LoopStep(s, lp, i - 1, p);
      assert LoopSpec(s, lp, i) == PassSpec(p, LoopRoles(lp, i - 1, p.read), LoopUniforms(lp, i - 1, p));
    } else {
      assert s.draws[..|s.draws|] == s.draws;
    }
  }

  // ------------------------------------------------------------ stages

  /**
   * fillStage(): mNumFillIterations passes, then the filled image takes the
   * role of the fill texture and ping-pong texture mRead that of the old one.
   */
  function FillSpec(s: RunState, fx: int, fy: int): (r: RunState)
    requires Shape(s)
    ensures Shape(r)
  {
    KeepSpec(LoopSpec(s, FillLoop(fx, fy), Stats.NumFillIterations), TexFill)
  }

  /**
   * r is what fillStage() leaves from s, n being |s.draws|: pass 0 renders
   * the label image into ping-pong texture mWrite, pass 1 renders that into
   * mRead; the result becomes the fill texture, the old fill texture
   * ping-pong texture mRead, and mRead and mWrite end as they started.
   */
  ghost predicate FillDone(s: RunState, fx: int, fy: int, r: RunState)
    requires Shape(s)
  {
    var n := |s.draws|;
    && Shape(r) && r.read == s.read && r.write == s.write
    && r.ids == Swap(s.ids, TexFill, TexPipo + s.read)
    && r.contents == s.contents[TexPipo + s.write := Output(n)][TexFill := Output(n + 1)][TexPipo + s.read := s.contents[TexFill]]
    && r.draws == s.draws + [DrawCall(s.ids[TexPipo + s.write], [s.ids[TexLabel]], [s.contents[TexLabel]], Filling(0, fx, fy)),
                             DrawCall(s.ids[TexPipo + s.read], [s.ids[TexPipo + s.write]], [Output(n)], Filling(1, fx, fy))]
    && r.countOffset == s.countOffset && r.centroidOffset == s.centroidOffset
  }

  /** fillStage() does what FillDone says. */
  lemma {:induction false} FillResult(s: RunState, fx: int, fy: int)
    requires Shape(s)
    ensures FillDone(s, fx, fy, FillSpec(s, fx, fy))
  {
    var lp := FillLoop(fx, fy);
    var s2 := LoopSpec(s, lp, Stats.NumFillIterations);
    LoopAt(s, lp, Stats.NumFillIterations);
    TargetParity(2, s.write);
    TargetParity(1, s.write);
    assert s2.draws == s.draws + [LoopDraw(lp, 0, s), LoopDraw(lp, 1, s)] by {
      assert s2.draws[..|s.draws|] == s.draws;
    }
  }

  /**
   * The end of countStage() and centroidingStage(), from the state s5 the
   * summing loop left: u_savingOffset set, the SAVE draw sampling the fill,
   * original and reduced textures and, through s_result, the texture of role
   * result; the BLEND draw sampling them and, through s_result, the SAVE
   * output; u_pass keeps the value of the last summing pass. The blended
   * table then takes the role of the reduced table and ping-pong texture
   * mRead that of the old one.
   */
  function SaveBlend(s5: RunState, prog: SumProgram, fx: int, fy: int, offset: int, result: nat): (r: RunState)
    requires Shape(s5) && result < Roles
    ensures Shape(r)
  {
    KeepSpec(BlendSpec(SaveSpec(SetOffset(s5, prog, offset), prog, fx, fy, offset, result), prog, fx, fy, offset), TexReduced)
  }

  /** SAVE: sampling the fill, original and reduced textures and, through s_result, the texture of role result. */
  function SaveSpec(s: RunState, prog: SumProgram, fx: int, fy: int, offset: int, result: nat): (r: RunState)
    requires Shape(s) && result < Roles
    ensures Shape(r)
  {
    PassSpec(s, [TexFill, TexOrig, TexReduced, result], SumUniforms(prog, StageSave, Stats.NumSumPasses - 1, fx, fy, offset))
  }

  /** BLEND: sampling the fill, original and reduced textures and, through s_result, ping-pong texture mRead. */
  function BlendSpec(s: RunState, prog: SumProgram, fx: int, fy: int, offset: int): (r: RunState)
    requires Shape(s)
    ensures Shape(r)
  {
    PassSpec(s, [TexFill, TexOrig, TexReduced, TexPipo + s.read], SumUniforms(prog, StageBlend, Stats.NumSumPasses - 1, fx, fy, offset))
  }

  /**
   * countStage() and centroidingStage(): the initial pass and NumSumPasses
   * doubling passes, then SAVE and BLEND. With reset, s_result is set to
   * ping-pong texture mRead before SAVE, so that SAVE samples the last
   * summing pass's output; without it, as the source has it, s_result is
   * still the unit the last summing pass sampled, that is ping-pong texture
   * mWrite, the one SAVE renders into.
   */
  function SumWith(s: RunState, prog: SumProgram, first: int, fx: int, fy: int, offset: int, reset: bool): (r: RunState)
    requires Shape(s)
    ensures Shape(r)
  {
    var s5 := LoopSpec(s, SumLoop(prog, first, fx, fy), Stats.NumSumPasses + 1);
    SaveBlend(s5, prog, fx, fy, offset, if reset then TexPipo + s5.read else TexPipo + s5.write)
  }

  /** The summing stages as intended: SAVE samples the last summing pass. */
  function SumSpec(s: RunState, prog: SumProgram, first: int, fx: int, fy: int, offset: int): (r: RunState)
    requires Shape(s)
    ensures Shape(r)
  {
    SumWith(s, prog, first, fx, fy, offset, true)
  }

  /** The summing stages as written. */
  function SumSpecAsWritten(s: RunState, prog: SumProgram, first: int, fx: int, fy: int, offset: int): (r: RunState)
    requires Shape(s)
    ensures Shape(r)
  {
    SumWith(s, prog, first, fx, fy, offset, false)
  }

  /**
   * d is a draw of a stage of the quadrant (fx, fy): four samplers, the
   * first two seeing the fill and the original image, issued with the
   * quadrant's factors.
   */
  predicate Sees(d: DrawCall, fill: Content, orig: Content, fx: int, fy: int)
  {
    |d.inputs| == 4 && d.inputs[0] == fill && d.inputs[1] == orig && Factors(d.uniforms) == (fx, fy)
  }

  /** The factor pair (u_factor_x, u_factor_y) a fill or summing draw was issued with. */
  function Factors(u: Uniforms): (int, int)
  {
    match u
    case Filling(_, fx, fy) => (fx, fy)
    case Counting(_, _, fx, fy, _) => (fx, fy)
    case Centroiding(_, _, fx, fy, _) => (fx, fy)
    case _ => (0, 0)
  }

  /**
   * s5 is what the summing loop leaves from s, n being |s.draws|: five
   * passes, pass j being LoopDraw(lp, j, s); mRead and mWrite end
   * exchanged, the last pass's output (draw n + 4) in ping-pong texture
   * mRead of s5 and the output of the pass before it (draw n + 3) in mWrite.
   */
  ghost predicate SumLoopDone(s: RunState, prog: SumProgram, first: int, fx: int, fy: int, s5: RunState)
    requires Shape(s)
  {
    var n := |s.draws|;
    && After(s, SumLoop(prog, first, fx, fy), Stats.NumSumPasses + 1, s5) && s5.read == s.write && s5.write == s.read
    && s5.contents == s.contents[TexPipo + s.write := Output(n + 4)][TexPipo + s.read := Output(n + 3)]
  }

  /** The summing loop does what SumLoopDone says. */
  lemma {:induction false} SumLoopResult(s: RunState, prog: SumProgram, first: int, fx: int, fy: int)
    requires Shape(s)
    ensures SumLoopDone(s, prog, first, fx, fy, LoopSpec(s, SumLoop(prog, first, fx, fy), Stats.NumSumPasses + 1))
  {
    var lp := SumLoop(prog, first, fx, fy);
    LoopAt(s, lp, Stats.NumSumPasses + 1);
    TargetParity(Stats.NumSumPasses + 1, s.write);
  }

  /**
   * r is what SAVE and BLEND leave from s5, n being |s5.draws|, SAVE
   * sampling the texture of role result: SAVE renders into ping-pong texture
   * mWrite, BLEND into mRead reading the SAVE output, both reading the
   * reduced table; the BLEND output becomes the reduced table and the old
   * table ping-pong texture mRead.
   */
  ghost predicate SaveBlendDone(s5: RunState, prog: SumProgram, fx: int, fy: int, offset: int, result: nat, r: RunState)
    requires Shape(s5) && result < Roles
  {
    var n := |s5.draws|;
    var f, o, t := s5.ids[TexFill], s5.ids[TexOrig], s5.ids[TexReduced];
    var fc, oc, tc := s5.contents[TexFill], s5.contents[TexOrig], s5.contents[TexReduced];
    && r.read == s5.read && r.write == s5.write
    && r.ids == Swap(s5.ids, TexReduced, TexPipo + s5.read)
    && r.contents == s5.contents[TexPipo + s5.write := Output(n)][TexReduced := Output(n + 1)][TexPipo + s5.read := tc]
    && r.draws == s5.draws +
         [DrawCall(s5.ids[TexPipo + s5.write], [f, o, t, s5.ids[result]], [fc, oc, tc, s5.contents[result]],
                   SumUniforms(prog, StageSave, Stats.NumSumPasses - 1, fx, fy, offset)),
          DrawCall(s5.ids[TexPipo + s5.read], [f, o, t, s5.ids[TexPipo + s5.write]], [fc, oc, tc, Output(n)],
                   SumUniforms(prog, StageBlend, Stats.NumSumPasses - 1, fx, fy, offset))]
    && ProgOffset(r, prog) == offset && ProgOffset(r, Other(prog)) == ProgOffset(s5, Other(prog))
  }

  /** SAVE and BLEND do what SaveBlendDone says. */
  lemma {:induction false} SaveBlendResult(s5: RunState, prog: SumProgram, fx: int, fy: int, offset: int, result: nat)
    requires Shape(s5) && result < Roles
    ensures SaveBlendDone(s5, prog, fx, fy, offset, result, SaveBlend(s5, prog, fx, fy, offset, result))
  {
    var u6 := SumUniforms(prog, StageSave, Stats.NumSumPasses - 1, fx, fy, offset);
    var s6 := PassSpec(SetOffset(s5, prog, offset), [TexFill, TexOrig, TexReduced, result], u6);
    PickFour(s5.ids, TexFill, TexOrig, TexReduced, result);
    PickFour(s5.contents, TexFill, TexOrig, TexReduced, result);
    PickFour(s6.ids, TexFill, TexOrig, TexReduced, TexPipo + s6.read);
    PickFour(s6.contents, TexFill, TexOrig, TexReduced, TexPipo + s6.read);
  }

  /**
   * r is what countStage() or centroidingStage() leaves from s, n being
   * |s.draws|: seven draws, all seeing the fill and original textures of s
   * and issued with the quadrant's factors; the five summing passes are
   * LoopDraw's; SAVE renders into the ping-pong texture the last summing
   * pass did not write and samples, with reset, the last summing pass's
   * output (draw n + 4) and, without, its own target, holding draw n + 3;
   * BLEND samples the SAVE output; both sample the reduced table, and the
   * BLEND output becomes the reduced table of r, the old table going to
   * ping-pong texture mRead of r.
   */
  ghost predicate SumDone(s: RunState, prog: SumProgram, first: int, fx: int, fy: int, offset: int, reset: bool, r: RunState)
    requires Shape(s)
  {
    var n := |s.draws|;
    var pr, pw := TexPipo + s.read, TexPipo + s.write;
    var res := if reset then pw else pr;
    && Shape(r) && r.read == s.write && r.write == s.read
    && r.ids == Swap(s.ids, TexReduced, pw)
    && r.contents == s.contents[pr := Output(n + 5)][TexReduced := Output(n + 6)][pw := s.contents[TexReduced]]
    && |r.draws| == n + 7 && r.draws[..n] == s.draws
    && (forall j :: 0 <= j < 5 ==> r.draws[n + j] == LoopDraw(SumLoop(prog, first, fx, fy), j, s))
    && r.draws[n + 5] == DrawCall(s.ids[pr], [s.ids[TexFill], s.ids[TexOrig], s.ids[TexReduced], s.ids[res]],
                                  [s.contents[TexFill], s.contents[TexOrig], s.contents[TexReduced],
                                   if reset then Output(n + 4) else Output(n + 3)],
                                  SumUniforms(prog, StageSave, Stats.NumSumPasses - 1, fx, fy, offset))
    && r.draws[n + 6] == DrawCall(s.ids[pw], [s.ids[TexFill], s.ids[TexOrig], s.ids[TexReduced], s.ids[pr]],
                                  [s.contents[TexFill], s.contents[TexOrig], s.contents[TexReduced], Output(n + 5)],
                                  SumUniforms(prog, StageBlend, Stats.NumSumPasses - 1, fx, fy, offset))
    && (forall j :: n <= j < n + 7 ==> Sees(r.draws[j], s.contents[TexFill], s.contents[TexOrig], fx, fy))
    && ProgOffset(r, prog) == offset && ProgOffset(r, Other(prog)) == ProgOffset(s, Other(prog))
  }

  /** countStage() and centroidingStage() do what SumDone says. */
  lemma {:induction false} SumResult(s: RunState, prog: SumProgram, first: int, fx: int, fy: int, offset: int, reset: bool)
    requires Shape(s)
    ensures SumDone(s, prog, first, fx, fy, offset, reset, SumWith(s, prog, first, fx, fy, offset, reset))
  {
    var s5 := LoopSpec(s, SumLoop(prog, first, fx, fy), Stats.NumSumPasses + 1);
    var res := if reset then TexPipo + s5.read else TexPipo + s5.write;
    var r := SaveBlend(s5, prog, fx, fy, offset, res);
    assert r == SumWith(s, prog, first, fx, fy, offset, reset);
    SumLoopResult(s, prog, first, fx, fy);
    SaveBlendResult(s5, prog, fx, fy, offset, res);
    SumCompose(s, prog, first, fx, fy, offset, reset, s5, r);
  }

  /**
   * What a quadrant needs of a summing stage from s to r, n being
   * |s.draws|: seven draws seeing the fill and original textures of s with
   * the quadrant's factors, SAVE sampling, with reset, the last summing
   * pass's output and, without, the one before it, and BLEND the reduced
   * table of s; the BLEND output becomes the reduced
   * table, the old table goes to ping-pong texture mRead, and the original,
   * label and fill textures are untouched.
   */
  ghost predicate Summed(s: RunState, prog: SumProgram, fx: int, fy: int, offset: int, reset: bool, r: RunState)
    requires Shape(s)
  {
    var n := |s.draws|;
    && Shape(r) && r.read == s.write && r.write == s.read
    && r.contents[TexFill] == s.contents[TexFill] && r.contents[TexOrig] == s.contents[TexOrig]
    && r.contents[TexLabel] == s.contents[TexLabel]
    && r.contents[TexReduced] == Output(n + 6) && r.contents[TexPipo + r.read] == s.contents[TexReduced]
    && |r.draws| == n + 7 && r.draws[..n] == s.draws
    && (forall j :: n <= j < n + 7 ==> Sees(r.draws[j], s.contents[TexFill], s.contents[TexOrig], fx, fy))
    && r.draws[n + 5].inputs[3] == (if reset then Output(n + 4) else Output(n + 3))
    && r.draws[n + 6].inputs[2] == s.contents[TexReduced]
    && ProgOffset(r, prog) == offset && ProgOffset(r, Other(prog)) == ProgOffset(s, Other(prog))
  }

  /** A summing stage is Summed. */
  lemma {:induction false} SumSummed(s: RunState, prog: SumProgram, first: int, fx: int, fy: int, offset: int,
                                     reset: bool, r: RunState)
    requires Shape(s) && SumDone(s, prog, first, fx, fy, offset, reset, r)
    ensures Summed(s, prog, fx, fy, offset, reset, r)
  {
  }

  /** SumDone from the summing loop's and SAVE and BLEND's results. */
  lemma {:induction false} SumCompose(s: RunState, prog: SumProgram, first: int, fx: int, fy: int, offset: int,
                                      reset: bool, s5: RunState, r: RunState)
    requires Shape(s) && Shape(s5) && Shape(r) && SumLoopDone(s, prog, first, fx, fy, s5)
    requires SaveBlendDone(s5, prog, fx, fy, offset, if reset then TexPipo + s5.read else TexPipo + s5.write, r)
    ensures SumDone(s, prog, first, fx, fy, offset, reset, r)
  {
    var n := |s.draws|;
    SumLoopDrawsKept(s, SumLoop(prog, first, fx, fy), s5, r);
    assert Sees(r.draws[n + 5], s.contents[TexFill], s.contents[TexOrig], fx, fy);
    assert Sees(r.draws[n + 6], s.contents[TexFill], s.contents[TexOrig], fx, fy);
    SumSees(s, prog, first, fx, fy, r);
  }

  /** The summing loop's draws stay at the head of the log SAVE and BLEND extend. */
  lemma {:induction false} SumLoopDrawsKept(s: RunState, lp: Loop, s5: RunState, r: RunState)
    requires Shape(s) && After(s, lp, Stats.NumSumPasses + 1, s5)
    requires |r.draws| == |s5.draws| + 2 && r.draws[..|s5.draws|] == s5.draws
    ensures |r.draws| == |s.draws| + 7 && r.draws[..|s.draws|] == s.draws
    ensures forall j :: 0 <= j < 5 ==> r.draws[|s.draws| + j] == LoopDraw(lp, j, s)
  {
    var n := |s.draws|;
    assert r.draws[..n] == s5.draws[..n];
    forall j | 0 <= j < 5
      ensures r.draws[n + j] == LoopDraw(lp, j, s)
    {
      assert r.draws[n + j] == s5.draws[n + j];
    }
  }

  /** The seven draws of a summing stage all see the fill and original textures, with the quadrant's factors. */
  lemma {:induction false} SumSees(s: RunState, prog: SumProgram, first: int, fx: int, fy: int, r: RunState)
    requires Shape(s) && |r.draws| == |s.draws| + 7
    requires forall j :: 0 <= j < 5 ==> r.draws[|s.draws| + j] == LoopDraw(SumLoop(prog, first, fx, fy), j, s)
    requires Sees(r.draws[|s.draws| + 5], s.contents[TexFill], s.contents[TexOrig], fx, fy)
    requires Sees(r.draws[|s.draws| + 6], s.contents[TexFill], s.contents[TexOrig], fx, fy)
    ensures forall j :: |s.draws| <= j < |s.draws| + 7 ==> Sees(r.draws[j], s.contents[TexFill], s.contents[TexOrig], fx, fy)
  {
    var n := |s.draws|;
    forall j | n <= j < n + 5
      ensures Sees(r.draws[j], s.contents[TexFill], s.contents[TexOrig], fx, fy)
    {
      assert r.draws[j] == LoopDraw(SumLoop(prog, first, fx, fy), j - n, s);
    }
  }

  /**
   * countStage() and centroidingStage() as written, from a state whose
   * textures hold nothing drawn at or after |s.draws|: the SAVE draw samples
   * through s_result the very texture it renders into, a feedback loop whose
   * result GL leaves undefined; the model takes the texture's content before
   * the draw, the sums of the pass before the last (draw n + 3). The last
   * summing pass's output
   * (draw n + 4) is sampled by neither SAVE nor BLEND and is gone from every
   * texture afterwards.
   */
  lemma {:induction false} SumSaveAsWritten(s: RunState, prog: SumProgram, first: int, fx: int, fy: int, offset: int)
    requires Shape(s) && Output(|s.draws| + 4) !in s.contents
    ensures var r := SumSpecAsWritten(s, prog, first, fx, fy, offset);
            var n := |s.draws|;
            && |r.draws| == n + 7
            && r.draws[n + 5].target == r.draws[n + 5].sources[3]
            && r.draws[n + 5].inputs[3] == Output(n + 3)
            && Output(n + 4) !in r.draws[n + 5].inputs && Output(n + 4) !in r.draws[n + 6].inputs
            && Output(n + 4) !in r.contents
  {
    var r := SumSpecAsWritten(s, prog, first, fx, fy, offset);
    var n := |s.draws|;
    SumResult(s, prog, first, fx, fy, offset, false);
    forall k | 0 <= k < Roles
      ensures r.contents[k] != Output(n + 4)
    {
      assert s.contents[k] != Output(n + 4);
    }
  }

  /**
   * The corrected stages: SAVE samples the last summing pass's output, from
   * a texture other than the one it renders into.
   */
  lemma {:induction false} SumSaveReadsLast(s: RunState, prog: SumProgram, first: int, fx: int, fy: int, offset: int)
    requires Shape(s) && Distinct(s.ids)
    ensures var r := SumSpec(s, prog, first, fx, fy, offset);
            var n := |s.draws|;
            && |r.draws| == n + 7
            && r.draws[n + 5].target != r.draws[n + 5].sources[3]
            && r.draws[n + 5].inputs[3] == Output(n + 4) && r.draws[n + 4].target == r.draws[n + 5].sources[3]
  {
    SumResult(s, prog, first, fx, fy, offset, true);
    TargetParity(4, s.write);
  }

  // ------------------------------------------------------------ quadrants

  /**
   * One quadrant of run(): fillStage, countStage with OFFSET, and
   * centroidingStage for x with 2*OFFSET and for y with 3*OFFSET, all with
   * the factors (fx, fy).
   */
  function QuadrantWith(s: RunState, fx: int, fy: int, reset: bool): (r: RunState)
    requires Shape(s)
    ensures Shape(r)
  {
    var s1 := FillSpec(s, fx, fy);
    var s2 := SumWith(s1, CountProgram, -1, fx, fy, Offset, reset);
    var s3 := SumWith(s2, CentroidProgram, CentroidX, fx, fy, 2 * Offset, reset);
    SumWith(s3, CentroidProgram, CentroidY, fx, fy, 3 * Offset, reset)
  }

  /** A quadrant as intended, each SAVE sampling its stage's last summing pass. */
  function QuadrantSpec(s: RunState, fx: int, fy: int): (r: RunState)
    requires Shape(s)
    ensures Shape(r)
  {
    QuadrantWith(s, fx, fy, true)
  }

  /**
   * The draws of a quadrant in the log d, from draw base on, the label
   * image holding label, the reduced table table and the original image
   * orig when it starts: the first fill pass reads the label image and the
   * second the first; every later draw sees the filled image (draw
   * base + 1), the original image and the quadrant's factors; each SAVE
   * (draws base + 7, base + 14, base + 21) samples, with reset, its stage's
   * last summing pass and, without, the pass before it; each BLEND (draws base + 8, base + 15, base + 22) samples the table
   * the one before it left, the first the table the quadrant started with.
   */
  predicate QuadDraws(d: seq<DrawCall>, base: nat, labels: Content, table: Content, orig: Content, fx: int, fy: int,
                      reset: bool)
  {
    var late := if reset then 0 else 1;
    && |d| >= base + 23
    && d[base].inputs == [labels] && d[base + 1].inputs == [Output(base)]
    && (forall j :: base + 2 <= j < base + 23 ==> Sees(d[j], Output(base + 1), orig, fx, fy))
    && d[base + 7].inputs[3] == Output(base + 6 - late) && d[base + 14].inputs[3] == Output(base + 13 - late)
    && d[base + 21].inputs[3] == Output(base + 20 - late)
    && d[base + 8].inputs[2] == table && d[base + 15].inputs[2] == Output(base + 8)
    && d[base + 22].inputs[2] == Output(base + 15)
  }

  /** Further draws leave the draws of a quadrant as they were. */
  lemma {:induction false} QuadDrawsExtend(d: seq<DrawCall>, d': seq<DrawCall>, base: nat, labels: Content, table: Content,
                                           orig: Content, fx: int, fy: int, reset: bool)
    requires QuadDraws(d, base, labels, table, orig, fx, fy, reset) && |d'| >= |d| && d'[..|d|] == d
    ensures QuadDraws(d', base, labels, table, orig, fx, fy, reset)
  {
    forall j | base <= j < base + 23
      ensures d'[j] == d[j]
    {
      assert d'[j] == d'[..|d|][j];
    }
  }

  /**
   * r is what a quadrant leaves from s, n being |s.draws|: its 23 draws are
   * as QuadDraws says; the last BLEND output is the reduced table of r and
   * the one before it is in ping-pong texture mRead; the fill texture holds
   * the filled image, the original and label images are untouched, and
   * mRead and mWrite end exchanged.
   */
  ghost predicate QuadDone(s: RunState, fx: int, fy: int, reset: bool, r: RunState)
    requires Shape(s)
  {
    var n := |s.draws|;
    && Shape(r) && r.read == s.write && r.write == s.read
    && |r.draws| == n + 23 && r.draws[..n] == s.draws
    && r.contents[TexOrig] == s.contents[TexOrig] && r.contents[TexLabel] == s.contents[TexLabel]
    && r.contents[TexFill] == Output(n + 1) && r.contents[TexReduced] == Output(n + 22)
    && r.contents[TexPipo + r.read] == Output(n + 15)
    && QuadDraws(r.draws, n, s.contents[TexLabel], s.contents[TexReduced], s.contents[TexOrig], fx, fy, reset)
    && r.countOffset == Offset && r.centroidOffset == 3 * Offset
  }

  /** QuadDone from the results of the four stages. */
  lemma {:induction false} QuadCompose(s: RunState, fx: int, fy: int, reset: bool,
                                       s1: RunState, s2: RunState, s3: RunState, s4: RunState)
    requires Shape(s) && Shape(s1) && Shape(s2) && Shape(s3)
    requires FillDone(s, fx, fy, s1)
    requires Summed(s1, CountProgram, fx, fy, Offset, reset, s2)
    requires Summed(s2, CentroidProgram, fx, fy, 2 * Offset, reset, s3)
    requires Summed(s3, CentroidProgram, fx, fy, 3 * Offset, reset, s4)
    ensures QuadDone(s, fx, fy, reset, s4)
  {
    var n := |s.draws|;
    assert s2.draws[..n] == s1.draws[..n] && s3.draws[..n] == s2.draws[..n] && s4.draws[..n] == s3.draws[..n];
    assert s4.draws[n] == s1.draws[n] && s4.draws[n + 1] == s1.draws[n + 1] by {
      assert s4.draws[n] == s3.draws[n] == s2.draws[n];
      assert s4.draws[n + 1] == s3.draws[n + 1] == s2.draws[n + 1];
    }
    assert s4.draws[n + 7] == s2.draws[n + 7] && s4.draws[n + 8] == s2.draws[n + 8] by {
      assert s4.draws[n + 7] == s3.draws[n + 7];
      assert s4.draws[n + 8] == s3.draws[n + 8];
    }
    assert s4.draws[n + 14] == s3.draws[n + 14] && s4.draws[n + 15] == s3.draws[n + 15];
    forall j | n + 2 <= j < n + 23
      ensures Sees(s4.draws[j], Output(n + 1), s.contents[TexOrig], fx, fy)
    {
      if j < n + 9 {
        assert s4.draws[j] == s3.draws[j] == s2.draws[j];
      } else if j < n + 16 {
        assert s4.draws[j] == s3.draws[j];
      }
    }
  }

  /** A quadrant, as written (reset false) or corrected, does what QuadDone says. */
  lemma {:induction false} QuadrantResult(s: RunState, fx: int, fy: int, reset: bool)
    requires Shape(s)
    ensures QuadDone(s, fx, fy, reset, QuadrantWith(s, fx, fy, reset))
  {
    var s1 := FillSpec(s, fx, fy);
    var s2 := SumWith(s1, CountProgram, -1, fx, fy, Offset, reset);
    var s3 := SumWith(s2, CentroidProgram, CentroidX, fx, fy, 2 * Offset, reset);
    var s4 := SumWith(s3, CentroidProgram, CentroidY, fx, fy, 3 * Offset, reset);
    FillResult(s, fx, fy);
    SumResult(s1, CountProgram, -1, fx, fy, Offset, reset);
    SumSummed(s1, CountProgram, -1, fx, fy, Offset, reset, s2);
    SumResult(s2, CentroidProgram, CentroidX, fx, fy, 2 * Offset, reset);
    SumSummed(s2, CentroidProgram, CentroidX, fx, fy, 2 * Offset, reset, s3);
    SumResult(s3, CentroidProgram, CentroidY, fx, fy, 3 * Offset, reset);
    SumSummed(s3, CentroidProgram, CentroidY, fx, fy, 3 * Offset, reset, s4);
    QuadCompose(s, fx, fy, reset, s1, s2, s3, s4);
  }

  // ------------------------------------------------------------ run()

  /**
   * run(): the four quadrants, with factors (1, 1), (-1, 1), (-1, -1) and
   * (1, -1); reset says whether SAVE resets s_result, as in QuadrantWith.
   */
  function RunWith(s: RunState, reset: bool): (r: RunState)
    requires Shape(s)
    ensures Shape(r)
  {
    var q1 := QuadrantWith(s, 1, 1, reset);
    var q2 := QuadrantWith(q1, -1, 1, reset);
    var q3 := QuadrantWith(q2, -1, -1, reset);
    QuadrantWith(q3, 1, -1, reset)
  }

  /** run() as intended. */
  function RunSpec(s: RunState): (r: RunState)
    requires Shape(s)
    ensures Shape(r)
  {
    RunWith(s, true)
  }

  /** run() as written: no SAVE resets s_result. */
  function RunAsWritten(s: RunState): (r: RunState)
    requires Shape(s)
    ensures Shape(r)
  {
    RunWith(s, false)
  }

  /**
   * r is what run() leaves from s, n being |s.draws|: 92 draws, four
   * quadrants of 23 with the factors (1, 1), (-1, 1), (-1, -1) and (1, -1),
   * each starting from the table the previous one left; the last BLEND
   * (draw n + 91) is the reduced table of r, and ping-pong texture mRead
   * holds the table before it (draw n + 84, the centroid-x BLEND of the last
   * quadrant); mRead and mWrite end as they started.
   */
  ghost predicate RunDone(s: RunState, reset: bool, r: RunState)
    requires Shape(s)
  {
    var n := |s.draws|;
    var labels, orig := s.contents[TexLabel], s.contents[TexOrig];
    && Shape(r) && r.read == s.read && r.write == s.write
    && |r.draws| == n + 92 && r.draws[..n] == s.draws
    && r.contents[TexOrig] == orig && r.contents[TexLabel] == labels
    && r.contents[TexReduced] == Output(n + 91) && r.contents[TexPipo + r.read] == Output(n + 84)
    && QuadDraws(r.draws, n, labels, s.contents[TexReduced], orig, 1, 1, reset)
    && QuadDraws(r.draws, n + 23, labels, Output(n + 22), orig, -1, 1, reset)
    && QuadDraws(r.draws, n + 46, labels, Output(n + 45), orig, -1, -1, reset)
    && QuadDraws(r.draws, n + 69, labels, Output(n + 68), orig, 1, -1, reset)
  }

  /** run(), as written (reset false) or corrected, does what RunDone says. */
  lemma {:induction false} RunResult(s: RunState, reset: bool)
    requires Shape(s)
    ensures RunDone(s, reset, RunWith(s, reset))
  {
    var q1 := QuadrantWith(s, 1, 1, reset);
    var q2 := QuadrantWith(q1, -1, 1, reset);
    var q3 := QuadrantWith(q2, -1, -1, reset);
    var q4 := QuadrantWith(q3, 1, -1, reset);
    QuadrantResult(s, 1, 1, reset);
    QuadrantResult(q1, -1, 1, reset);
    QuadrantResult(q2, -1, -1, reset);
    QuadrantResult(q3, 1, -1, reset);
    RunCompose(s, reset, q1, q2, q3, q4);
  }

  /** RunDone from the results of the four quadrants. */
  lemma {:induction false} RunCompose(s: RunState, reset: bool, q1: RunState, q2: RunState, q3: RunState, q4: RunState)
    requires Shape(s) && Shape(q1) && Shape(q2) && Shape(q3)
    requires QuadDone(s, 1, 1, reset, q1) && QuadDone(q1, -1, 1, reset, q2)
    requires QuadDone(q2, -1, -1, reset, q3) && QuadDone(q3, 1, -1, reset, q4)
    ensures RunDone(s, reset, q4)
  {
    var n := |s.draws|;
    assert q4.draws[..n] == s.draws by {
      assert q4.draws[..n] == q3.draws[..n] == q2.draws[..n] == q1.draws[..n];
    }
    assert q4.draws[..|q1.draws|] == q1.draws by {
      assert q4.draws[..|q1.draws|] == q3.draws[..|q1.draws|] == q2.draws[..|q1.draws|];
    }
    assert q4.draws[..|q2.draws|] == q2.draws by {
      assert q4.draws[..|q2.draws|] == q3.draws[..|q2.draws|];
    }
    QuadDrawsExtend(q1.draws, q4.draws, n, s.contents[TexLabel], s.contents[TexReduced], s.contents[TexOrig], 1, 1, reset);
    QuadDrawsExtend(q2.draws, q4.draws, n + 23, s.contents[TexLabel], Output(n + 22), s.contents[TexOrig], -1, 1, reset);
    QuadDrawsExtend(q3.draws, q4.draws, n + 46, s.contents[TexLabel], Output(n + 45), s.contents[TexOrig], -1, -1, reset);
  }

  // ------------------------------------------------------------ the readback

  /**
   * What glReadPixels reads after run() as written: the last stage leaves
   * fbo[mRead] bound with ping-pong texture mRead attached, which after the
   * closing swap holds the table from before the last BLEND.
   */
  function ReadBackAsWritten(r: RunState): Content
    requires Shape(r)
  {
    r.contents[TexPipo + r.read]
  }

  /** The readback as intended: the reduced table, which holds the last BLEND. */
  function ReadBack(r: RunState): Content
    requires Shape(r)
  {
    r.contents[TexReduced]
  }

  /**
   * As written, run() reads back the centroid-x table of the last quadrant
   * (draw n + 84), which the last BLEND (draw n + 91) took as its previous
   * table, and not the result of that BLEND, which the corrected readback
   * returns.
   */
  lemma {:induction false} ReadBackMissesLastBlend(s: RunState)
    requires Shape(s)
    ensures var r := RunAsWritten(s);
            var n := |s.draws|;
            && ReadBackAsWritten(r) == Output(n + 84) && ReadBack(r) == Output(n + 91)
            && ReadBackAsWritten(r) != ReadBack(r)
            && |r.draws| == n + 92 && r.draws[n + 91].inputs[2] == ReadBackAsWritten(r)
  {
    RunResult(s, false);
    ReadBackOfDone(s, false, RunAsWritten(s));
  }

  /** Where the two readbacks of a finished run() come from. */
  lemma {:induction false} ReadBackOfDone(s: RunState, reset: bool, r: RunState)
    requires Shape(s) && RunDone(s, reset, r)
    ensures var n := |s.draws|;
            && ReadBackAsWritten(r) == Output(n + 84) && ReadBack(r) == Output(n + 91)
            && ReadBackAsWritten(r) != ReadBack(r)
            && |r.draws| == n + 92 && r.draws[n + 91].inputs[2] == ReadBackAsWritten(r)
  {
  }

  // ------------------------------------------------------------ the phase object

  /** The content of texture id, Blank for a name the context does not hold. */
  function Look(textures: map<nat, Content>, id: nat): Content
  {
    if id in textures then textures[id] else Blank
  }

  /** The contents of the textures ids names. */
  function Contents(textures: map<nat, Content>, ids: seq<nat>): (r: seq<Content>)
    ensures |r| == |ids| && forall k :: 0 <= k < |ids| ==> r[k] == Look(textures, ids[k])
  {
    seq(|ids|, k requires 0 <= k < |ids| => Look(textures, ids[k]))
  }

  /** Rendering into the texture of role k changes that role's content only. */
  lemma ContentsWrite(textures: map<nat, Content>, ids: seq<nat>, k: nat, c: Content)
    requires Distinct(ids) && k < |ids|
    ensures Contents(textures[ids[k] := c], ids) == Contents(textures, ids)[k := c]
  {
  }

  /** Exchanging two roles' textures exchanges their contents. */
  lemma ContentsSwap(textures: map<nat, Content>, ids: seq<nat>, i: nat, j: nat)
    requires i < |ids| && j < |ids|
    ensures Contents(textures, Swap(ids, i, j)) == Swap(Contents(textures, ids), i, j)
  {
  }

  /** The texture of each role is bound to the unit us holds for that role. */
  predicate BoundRoles(bindings: map<int, nat>, textures: map<nat, Content>, us: seq<int>, ids: seq<nat>)
  {
    |us| == |ids| && forall k :: 0 <= k < |ids| ==> us[k] in bindings && bindings[us[k]] == ids[k] && ids[k] in textures
  }

  /**
   * Samplers set to the units of some roles see those roles' textures and
   * their contents.
   */
  lemma BoundPick(bindings: map<int, nat>, textures: map<nat, Content>, us: seq<int>, ids: seq<nat>, roles: seq<nat>)
    requires BoundRoles(bindings, textures, us, ids) && forall k :: 0 <= k < |roles| ==> roles[k] < |ids|
    ensures Bound(textures, bindings, Pick(us, roles))
    ensures Sources(bindings, Pick(us, roles)) == Pick(ids, roles)
    ensures Inputs(textures, bindings, Pick(us, roles)) == Pick(Contents(textures, ids), roles)
  {
  }

  /** Exchanging two entries keeps the entries distinct. */
  lemma SwapDistinct(ids: seq<nat>, i: nat, j: nat)
    requires Distinct(ids) && i < |ids| && j < |ids|
    ensures Distinct(Swap(ids, i, j))
  {
    var r := Swap(ids, i, j);
    forall a, b | 0 <= a < |ids| && 0 <= b < |ids| && a != b
      ensures r[a] != r[b]
    {
      var a' := if a == i then j else if a == j then i else a;
      var b' := if b == i then j else if b == j then i else b;
      assert r[a] == ids[a'] && r[b] == ids[b'];
    }
  }

  /** Exchanging two roles' textures together with their units keeps every role bound. */
  lemma BoundSwap(bindings: map<int, nat>, textures: map<nat, Content>, us: seq<int>, ids: seq<nat>, i: nat, j: nat)
    requires BoundRoles(bindings, textures, us, ids) && i < |ids| && j < |ids|
    ensures BoundRoles(bindings, textures, Swap(us, i, j), Swap(ids, i, j))
  {
  }

  /** Rendering into a bound texture keeps every role bound. */
  lemma BoundWrite(bindings: map<int, nat>, textures: map<nat, Content>, us: seq<int>, ids: seq<nat>, t: nat, c: Content)
    requires BoundRoles(bindings, textures, us, ids) && t in textures
    ensures BoundRoles(bindings, textures[t := c], us, ids)
  {
  }

  /** The roles initIndependent() and init() make textures for, in the order they make them. */
  const AllocationOrder: seq<nat> := [TexLabel, TexReduced, TexOrig, TexFill, TexPipo, TexPipo + 1]

  /** What each of those allocations uploads, in the same order. */
  const AllocatedContents: seq<Content> :=
    [Host("mImageLabel"), Host("mImageReduced"), Host("mImageOrig"), Blank, Blank, Blank]

  /** The place of a role in the allocation order. */
  function Rank(role: nat): (k: nat)
    requires role < Roles
    ensures k < Roles && AllocationOrder[k] == role
  {
    [2, 1, 0, 3, 4, 5][role]
  }

  /**
   * Allocation number k into a context that held t0, from bitfield bf0:
   * its role has free unit number k of bf0 and a new texture, other than
   * those of the allocations before it, that is bound to the unit and holds
   * what the allocation uploads.
   */
  ghost predicate MadeOne(t0: map<nat, Content>, textures: map<nat, Content>, bindings: map<int, nat>,
                          us: seq<int>, ids: seq<nat>, bf0: nat, k: nat)
    requires |us| == Roles && |ids| == Roles && k < Roles
  {
    var r := AllocationOrder[k];
    && us[r] >= 0 && NthFree(bf0, us[r] as nat, k)
    && ids[r] !in t0 && ids[r] in textures && textures[ids[r]] == AllocatedContents[k]
    && us[r] in bindings && bindings[us[r]] == ids[r]
    && forall j :: 0 <= j < k ==> ids[AllocationOrder[j]] != ids[r]
  }

  /** The first n allocations were made, and the textures of t0 remain. */
  ghost predicate Made(t0: map<nat, Content>, textures: map<nat, Content>, bindings: map<int, nat>,
                       us: seq<int>, ids: seq<nat>, bf0: nat, n: nat)
    requires |us| == Roles && |ids| == Roles && n <= Roles
    decreases n
  {
    if n == 0 then forall t :: t in t0 ==> t in textures
    else Made(t0, textures, bindings, us, ids, bf0, n - 1) && MadeOne(t0, textures, bindings, us, ids, bf0, n - 1)
  }

  /** Each of the first n allocations was made, over a context holding t0. */
  lemma {:induction false} MadeAll(t0: map<nat, Content>, textures: map<nat, Content>, bindings: map<int, nat>,
                                   us: seq<int>, ids: seq<nat>, bf0: nat, n: nat)
    requires |us| == Roles && |ids| == Roles && n <= Roles && Made(t0, textures, bindings, us, ids, bf0, n)
    ensures forall t :: t in t0 ==> t in textures
    ensures forall k :: 0 <= k < n ==> MadeOne(t0, textures, bindings, us, ids, bf0, k)
  {
    if n > 0 {
      MadeAll(t0, textures, bindings, us, ids, bf0, n - 1);
    }
  }

  /**
   * A later allocation, of a name the context does not hold on a unit of a
   * later rank, leaves the first m allocations as they were.
   */
  lemma {:induction false} MadeKept(t0: map<nat, Content>, textures: map<nat, Content>, bindings: map<int, nat>,
                                    us: seq<int>, ids: seq<nat>, bf0: nat, m: nat, n: nat, u: nat, name: nat, c: Content)
    requires |us| == Roles && |ids| == Roles && m <= n < Roles
    requires Made(t0, textures, bindings, us, ids, bf0, m)
    requires NthFree(bf0, u, n) && name !in textures
    ensures Made(t0, textures[name := c], bindings[u := name], us[AllocationOrder[n] := u as int],
                 ids[AllocationOrder[n] := name], bf0, m)
    decreases m
  {
    if m > 0 {
      MadeKept(t0, textures, bindings, us, ids, bf0, m - 1, n, u, name, c);
      MadeOneKept(t0, textures, bindings, us, ids, bf0, m - 1, n, u, name, c);
    }
  }

  /** A later allocation leaves an earlier one as it was. */
  lemma MadeOneKept(t0: map<nat, Content>, textures: map<nat, Content>, bindings: map<int, nat>,
                    us: seq<int>, ids: seq<nat>, bf0: nat, k: nat, n: nat, u: nat, name: nat, c: Content)
    requires |us| == Roles && |ids| == Roles && k < n < Roles
    requires MadeOne(t0, textures, bindings, us, ids, bf0, k)
    requires NthFree(bf0, u, n) && name !in textures
    ensures MadeOne(t0, textures[name := c], bindings[u := name], us[AllocationOrder[n] := u as int],
                    ids[AllocationOrder[n] := name], bf0, k)
  {
    var r := AllocationOrder[k];
    assert r != AllocationOrder[n];
    NthFreeDistinct(bf0, us[r] as nat, k, u, n);
    var ids' := ids[AllocationOrder[n] := name];
    forall j | 0 <= j < k
      ensures ids'[AllocationOrder[j]] == ids[AllocationOrder[j]]
    {
      assert AllocationOrder[j] != AllocationOrder[n];
    }
  }

  /**
   * One allocation more, on the lowest unit still free after n of them and
   * of a name the context does not hold, is allocation number n.
   */
  lemma MadeNext(t0: map<nat, Content>, textures: map<nat, Content>, bindings: map<int, nat>,
                 us: seq<int>, ids: seq<nat>, bf0: nat, n: nat, bfn: nat, u: nat, name: nat, bf': nat)
    requires |us| == Roles && |ids| == Roles && n < Roles
    requires Made(t0, textures, bindings, us, ids, bf0, n) && ClaimedFirst(bf0, n, bfn)
    requires FirstFree(bfn, {}, u) && Claimed(bfn, {u}, bf') && name !in textures
    ensures Made(t0, textures[name := AllocatedContents[n]], bindings[u := name], us[AllocationOrder[n] := u as int],
                 ids[AllocationOrder[n] := name], bf0, n + 1)
    ensures ClaimedFirst(bf0, n + 1, bf')
  {
    ClaimedNext(bf0, n, bfn, u, bf');
    MadeKept(t0, textures, bindings, us, ids, bf0, n, n, u, name, AllocatedContents[n]);
    MadeAll(t0, textures, bindings, us, ids, bf0, n);
    MadeOneNew(t0, textures, bindings, us, ids, bf0, n, u, name);
  }

  /** The new allocation is allocation number n: its name is none of the earlier allocations'. */
  lemma MadeOneNew(t0: map<nat, Content>, textures: map<nat, Content>, bindings: map<int, nat>,
                   us: seq<int>, ids: seq<nat>, bf0: nat, n: nat, u: nat, name: nat)
    requires |us| == Roles && |ids| == Roles && n < Roles
    requires NthFree(bf0, u, n) && name !in textures && forall t :: t in t0 ==> t in textures
    requires forall k :: 0 <= k < n ==> MadeOne(t0, textures, bindings, us, ids, bf0, k)
    ensures MadeOne(t0, textures[name := AllocatedContents[n]], bindings[u := name], us[AllocationOrder[n] := u as int],
                    ids[AllocationOrder[n] := name], bf0, n)
  {
    var ids' := ids[AllocationOrder[n] := name];
    forall j | 0 <= j < n
      ensures ids'[AllocationOrder[j]] != name
    {
      assert AllocationOrder[j] != AllocationOrder[n];
      assert MadeOne(t0, textures, bindings, us, ids, bf0, j);
    }
  }

  /** The unit of the role of allocation number k is free unit number k of bf. */
  predicate Ranked(bf: nat, us: seq<int>)
    requires |us| == Roles
  {
    forall k :: 0 <= k < Roles ==> us[AllocationOrder[k]] >= 0 && NthFree(bf, us[AllocationOrder[k]] as nat, k)
  }

  /**
   * Once all six allocations are made, every role has its own new texture,
   * bound to the unit allocated for it and holding what its allocation
   * uploaded.
   */
  lemma MadeRoles(t0: map<nat, Content>, textures: map<nat, Content>, bindings: map<int, nat>,
                  us: seq<int>, ids: seq<nat>, bf0: nat)
    requires |us| == Roles && |ids| == Roles && Made(t0, textures, bindings, us, ids, bf0, Roles)
    ensures Ranked(bf0, us)
    ensures Distinct(ids) && BoundRoles(bindings, textures, us, ids)
    ensures Contents(textures, ids) == [Host("mImageOrig"), Host("mImageReduced"), Host("mImageLabel"), Blank, Blank, Blank]
    ensures forall r :: 0 <= r < Roles ==> ids[r] !in t0
  {
    MadeAll(t0, textures, bindings, us, ids, bf0, Roles);
    forall r | 0 <= r < Roles
      ensures us[r] in bindings && bindings[us[r]] == ids[r] && ids[r] in textures && ids[r] !in t0
      ensures Look(textures, ids[r]) == AllocatedContents[Rank(r)]
    {
      assert MadeOne(t0, textures, bindings, us, ids, bf0, Rank(r));
    }
    forall r, r' | 0 <= r < Roles && 0 <= r' < Roles && r != r'
      ensures ids[r] != ids[r']
    {
      if Rank(r) < Rank(r') {
        assert MadeOne(t0, textures, bindings, us, ids, bf0, Rank(r'));
      } else {
        assert MadeOne(t0, textures, bindings, us, ids, bf0, Rank(r));
      }
    }
  }

  class StatsPhase {
    const width: nat
    const height: nat          // mHeight, and mStatsAreaHeight
    const fbo: array<nat>      // mFboId
    const pipo: array<nat>     // mTexPiPoId
    const units: array<int>    // mTextureUnits, indexed by role
    var origId: nat            // mTexOrigId
    var reducedId: nat         // mTexReducedId
    var labelId: nat           // mTexLabelId
    var fillId: nat            // mTexFillId
    var read: int              // mRead
    var write: int             // mWrite
    var countOffset: int       // u_savingOffset of the count program
    var centroidOffset: int    // u_savingOffset of the centroiding program
    var spots: seq<Spot>       // mSpots

    constructor (width: nat, height: nat)
      ensures this.width == width && this.height == height && spots == []
      ensures fresh(fbo) && fresh(pipo) && fresh(units)
      ensures Arrays()
    {
      this.width := width;
      this.height := height;
      fbo := new nat[2];
      pipo := new nat[2];
      units := new int[Roles];
      spots := [];
    }

    /**
     * init(): the framebuffers are stored, mRead = 0 and mWrite = 1, and
     * ping-pong texture 1 is made, empty, on the lowest free unit, which is
     * stored for its role. A program that fails to load is only reported,
     * so GL_TRUE is returned in every case.
     */
    method Init(fbos: seq<nat>, bf: nat, gl: Device) returns (ret: int, bf': nat)
      requires |fbos| == 2 && Arrays()
      requires gl.Valid() && FreeUnits(bf, UnitLimit) >= 1
      modifies this`read, this`write, fbo, pipo, units, gl
      ensures fbo[..] == fbos && read == 0 && write == 1 && ret == GLTrue && gl.Valid()
      ensures units[TexPipo + 1] >= 0 && FirstFree(bf, {}, units[TexPipo + 1] as nat)
      ensures Claimed(bf, {units[TexPipo + 1] as nat}, bf') && FreeUnits(bf', UnitLimit) == FreeUnits(bf, UnitLimit) - 1
      ensures pipo[1] !in old(gl.textures) && pipo[0] == old(pipo[0])
      ensures gl.textures == old(gl.textures)[pipo[1] := Blank]
      ensures gl.units == old(gl.units)[units[TexPipo + 1] := pipo[1]]
      ensures units[..] == old(units[..])[TexPipo + 1 := units[TexPipo + 1]]
      ensures Ids() == old(Ids())[TexPipo + 1 := pipo[1]]
      ensures gl.attachment == old(gl.attachment) && gl.bound == old(gl.bound) && gl.draws == old(gl.draws)
    {
      fbo[0] := fbos[0];
      fbo[1] := fbos[1];
      read := 0;
      write := 1;
      var name, unit;
      name, unit, bf' := NewTexture(gl, bf, Blank);
      pipo[1] := name;
      units[TexPipo + 1] := unit;
      ret := GLTrue;
    }

    /**
     * One block of initIndependent(): the texture for the role of
     * allocation number k is made on the lowest free unit, holding what
     * that allocation uploads, and it and its unit are stored for the role.
     */
    method NewRole(gl: Device, bf: nat, k: nat, ghost t0: map<nat, Content>, ghost bf0: nat) returns (bf': nat)
      requires Arrays() && gl.Valid() && k < Roles - 1 && FreeUnits(bf, UnitLimit) >= 1
      requires Made(t0, gl.textures, gl.units, units[..], Ids(), bf0, k) && ClaimedFirst(bf0, k, bf)
      modifies this`origId, this`reducedId, this`labelId, this`fillId, pipo, units, gl
      ensures gl.Valid() && FreeUnits(bf', UnitLimit) == FreeUnits(bf, UnitLimit) - 1
      ensures Made(t0, gl.textures, gl.units, units[..], Ids(), bf0, k + 1) && ClaimedFirst(bf0, k + 1, bf')
      ensures units[..] == old(units[..])[AllocationOrder[k] := units[AllocationOrder[k]]]
      ensures Ids() == old(Ids())[AllocationOrder[k] := Ids()[AllocationOrder[k]]]
      ensures gl.attachment == old(gl.attachment) && gl.bound == old(gl.bound) && gl.draws == old(gl.draws)
    {
      ghost var t1, b1, us, ids := gl.textures, gl.units, units[..], Ids();
      var name, unit;
      name, unit, bf' := NewTexture(gl, bf, AllocatedContents[k]);
      var role := AllocationOrder[k];
      if role == TexLabel {
        labelId := name;
      } else if role == TexReduced {
        reducedId := name;
      } else if role == TexOrig {
        origId := name;
      } else if role == TexFill {
        fillId := name;
      } else {
        pipo[0] := name;
      }
      units[role] := unit;
      assert units[..] == us[role := unit as int];
      assert Ids() == ids[role := name];
      MadeNext(t0, t1, b1, us, ids, bf0, k, bf, unit, name, bf');
    }

    /**
     * initIndependent(): new textures on the lowest free units, in turn, for
     * the label image, the reduced table and the original image (uploaded
     * from mImageLabel, mImageReduced and mImageOrig) and for the fill
     * texture and ping-pong texture 0 (empty), each stored for its role;
     * then init(), whose result is returned. Allocation number k obtains
     * free unit number k of bfUsedTextures.
     */
    method InitIndependent(fbos: seq<nat>, bf: nat, gl: Device) returns (ret: int, bf': nat)
      requires |fbos| == 2 && Arrays()
      requires gl.Valid() && FreeUnits(bf, UnitLimit) >= Roles
      modifies this`origId, this`reducedId, this`labelId, this`fillId, this`read, this`write, fbo, pipo, units, gl
      ensures fbo[..] == fbos && read == 0 && write == 1 && ret == GLTrue && gl.Valid()
      ensures Ranked(bf, units[..])
      ensures ClaimedFirst(bf, Roles, bf') && FreeUnits(bf', UnitLimit) == FreeUnits(bf, UnitLimit) - Roles
      ensures forall r :: 0 <= r < Roles ==> Ids()[r] !in old(gl.textures)
      ensures Distinct(Ids()) && BoundRoles(gl.units, gl.textures, units[..], Ids())
      ensures Contents(gl.textures, Ids()) == [Host("mImageOrig"), Host("mImageReduced"), Host("mImageLabel"), Blank, Blank, Blank]
      ensures fbos[0] != fbos[1] ==> Ready(gl)
      ensures gl.attachment == old(gl.attachment) && gl.bound == old(gl.bound) && gl.draws == old(gl.draws)
    {
      ghost var t0 := gl.textures;
      bf' := NewRole(gl, bf, 0, t0, bf);
      bf' := NewRole(gl, bf', 1, t0, bf);
      bf' := NewRole(gl, bf', 2, t0, bf);
      bf' := NewRole(gl, bf', 3, t0, bf);
      bf' := NewRole(gl, bf', 4, t0, bf);
      ghost var t5, b5, us, ids, bf5 := gl.textures, gl.units, units[..], Ids(), bf';
      ret, bf' := Init(fbos, bf', gl);
      MadeNext(t0, t5, b5, us, ids, bf, 5, bf5, units[TexPipo + 1] as nat, pipo[1], bf');
      MadeRoles(t0, gl.textures, gl.units, units[..], Ids(), bf);
    }

    /**
     * updateTextures(): the textures of every role but ping-pong texture 1
     * are taken from the phase before, with their units; ping-pong
     * texture 1 and its unit stay.
     */
    method UpdateTextures(origTex: nat, origTexUnit: int, labelTex: nat, labelTexUnit: int,
                          reducedTex: nat, reducedTexUnit: int, freeTex: nat, freeTexUnit: int,
                          freeTex2: nat, freeTexUnit2: int)
      requires Arrays()
      modifies this`origId, this`labelId, this`reducedId, this`fillId, pipo, units
      ensures Ids() == [origTex, reducedTex, labelTex, freeTex, freeTex2, old(pipo[1])]
      ensures units[..] == [origTexUnit, reducedTexUnit, labelTexUnit, freeTexUnit, freeTexUnit2, old(units[TexPipo + 1])]
    {
      origId := origTex;
      units[TexOrig] := origTexUnit;
      labelId := labelTex;
      units[TexLabel] := labelTexUnit;
      reducedId := reducedTex;
      units[TexReduced] := reducedTexUnit;
      fillId := freeTex;
      units[TexFill] := freeTexUnit;
      pipo[0] := freeTex2;
      units[TexPipo] := freeTexUnit2;
    }

    /** The member arrays have their C++ sizes and are distinct. */
    predicate Arrays()
    {
      fbo.Length == 2 && pipo.Length == 2 && units.Length == Roles && fbo != pipo
    }

    /** The texture of each role. */
    function Ids(): (r: seq<nat>)
      reads this`origId, this`reducedId, this`labelId, this`fillId, pipo
      requires Arrays()
      ensures |r| == Roles
    {
      [origId, reducedId, labelId, fillId, pipo[0], pipo[1]]
    }

    /**
     * What run() needs: the indices are 0 and 1 in some order, the two
     * framebuffers are distinct, no two roles share a texture, and the
     * texture of each role is bound to the unit mTextureUnits holds for it.
     */
    ghost predicate Ready(gl: Device)
      reads this`read, this`write, this`origId, this`reducedId, this`labelId, this`fillId, fbo, pipo, units, gl
    {
      Arrays() && ((read == 0 && write == 1) || (read == 1 && write == 0)) && fbo[0] != fbo[1] && gl.Valid() &&
      Distinct(Ids()) && BoundRoles(gl.units, gl.textures, units[..], Ids())
    }

    /** fbo[i] has ping-pong texture i attached. */
    ghost predicate Attached(gl: Device)
      reads fbo, pipo, gl
      requires Arrays()
    {
      fbo[0] in gl.attachment && fbo[1] in gl.attachment &&
      gl.attachment[fbo[0]] == pipo[0] && gl.attachment[fbo[1]] == pipo[1]
    }

    /** The phase and the context as a value. */
    ghost function State(gl: Device): (r: RunState)
      reads this`read, this`write, this`origId, this`reducedId, this`labelId, this`fillId, this`countOffset, this`centroidOffset, pipo, gl
      requires Arrays()
      ensures r.read == read && ((read == 0 && write == 1) || (read == 1 && write == 0) ==> Shape(r))
    {
      RunState(read, write, Ids(), Contents(gl.textures, Ids()), countOffset, centroidOffset, gl.draws)
    }

    /**
     * One pass: bind fbo[mWrite], draw with the samplers set to the units of
     * the given roles, std::swap(mRead, mWrite).
     */
    method DrawSwap(gl: Device, roles: seq<nat>, u: Uniforms)
      requires Ready(gl) && Attached(gl) && forall k :: 0 <= k < |roles| ==> roles[k] < Roles
      modifies this`read, this`write, gl
      ensures Ready(gl) && Attached(gl)
      ensures State(gl) == PassSpec(old(State(gl)), roles, u)
    {
      ghost var s := State(gl);
      ghost var t0, u0 := gl.textures, gl.units;
      var samplers := Pick(units[..], roles);
      BoundPick(u0, t0, units[..], s.ids, roles);
      assert s.ids[TexPipo + write] == pipo[write];
      BoundWrite(u0, t0, units[..], s.ids, pipo[write], Output(|s.draws|));
      gl.BindFramebuffer(fbo[write]);
      gl.Draw(samplers, u);
      ContentsWrite(t0, s.ids, TexPipo + write, Output(|s.draws|));
      read, write := write, read;
    }

    /**
     * The end of fillStage(): the fill texture and ping-pong texture mRead
     * trade ids and units, and fbo[mRead] gets its new texture attached.
     */
    method KeepFill(gl: Device)
      requires Ready(gl) && Attached(gl)
      modifies this`fillId, pipo, units, gl
      ensures Ready(gl) && Attached(gl)
      ensures State(gl) == KeepSpec(old(State(gl)), TexFill)
      ensures units[..] == Swap(old(units[..]), TexFill, TexPipo + read)
    {
      ghost var s := State(gl);
      ghost var us := units[..];
      ghost var ids := Swap(s.ids, TexFill, TexPipo + read);
      SwapDistinct(s.ids, TexFill, TexPipo + read);
      BoundSwap(gl.units, gl.textures, us, s.ids, TexFill, TexPipo + read);
      ContentsSwap(gl.textures, s.ids, TexFill, TexPipo + read);
      fillId, pipo[read] := pipo[read], fillId;
      units[TexFill], units[TexPipo + read] := units[TexPipo + read], units[TexFill];
      assert units[..] == Swap(us, TexFill, TexPipo + read);
      assert Ids() == ids;
      gl.BindFramebuffer(fbo[read]);
      gl.AttachTexture(pipo[read]);
    }

    /**
     * The end of countStage() and centroidingStage(): the reduced table and
     * ping-pong texture mRead trade ids and units, and fbo[mRead] gets its new texture attached.
     */
    method KeepReduced(gl: Device)
      requires Ready(gl) && Attached(gl)
      modifies this`reducedId, pipo, units, gl
      ensures Ready(gl) && Attached(gl)
      ensures State(gl) == KeepSpec(old(State(gl)), TexReduced)
      ensures units[..] == Swap(old(units[..]), TexReduced, TexPipo + read)
    {
      ghost var s := State(gl);
      ghost var us := units[..];
      ghost var ids := Swap(s.ids, TexReduced, TexPipo + read);
      SwapDistinct(s.ids, TexReduced, TexPipo + read);
      BoundSwap(gl.units, gl.textures, us, s.ids, TexReduced, TexPipo + read);
      ContentsSwap(gl.textures, s.ids, TexReduced, TexPipo + read);
      reducedId, pipo[read] := pipo[read], reducedId;
      units[TexReduced], units[TexPipo + read] := units[TexPipo + read], units[TexReduced];
      assert units[..] == Swap(us, TexReduced, TexPipo + read);
      assert Ids() == ids;
      gl.BindFramebuffer(fbo[read]);
      gl.AttachTexture(pipo[read]);
    }

    /** The attachment loop at the start of run(): fbo[i] gets ping-pong texture i. */
    method AttachPingPong(gl: Device)
      requires Ready(gl)
      modifies gl
      ensures Ready(gl) && Attached(gl)
      ensures gl.attachment == old(gl.attachment)[fbo[0] := pipo[0]][fbo[1] := pipo[1]]
      ensures gl.units == old(gl.units) && gl.textures == old(gl.textures) && gl.draws == old(gl.draws)
      ensures State(gl) == old(State(gl))
    {
      ghost var a0: map<nat, nat> := gl.attachment;
      assert Ids()[TexPipo] == pipo[0] && Ids()[TexPipo + 1] == pipo[1];
      for i := 0 to 2
        invariant Ready(gl) && gl.units == old(gl.units) && gl.textures == old(gl.textures) && gl.draws == old(gl.draws)
        invariant gl.attachment == if i == 0 then a0 else if i == 1 then a0[fbo[0] := pipo[0]]
                                   else a0[fbo[0] := pipo[0]][fbo[1] := pipo[1]]
      {
        gl.BindFramebuffer(fbo[i]);
        gl.AttachTexture(pipo[i]);
      }
    }

    /**
     * fillStage(): pass 0 samples the label image through s_label, each
     * later pass the previous pass's output; then the result takes the role
     * of the fill texture.
     */
    method FillStage(gl: Device, fx: int, fy: int)
      requires Ready(gl) && Attached(gl)
      modifies this`read, this`write, this`fillId, pipo, units, gl
      ensures Ready(gl) && Attached(gl)
      ensures State(gl) == FillSpec(old(State(gl)), fx, fy)
    {
      ghost var s0 := State(gl);
      DrawSwap(gl, [TexLabel], Filling(0, fx, fy));
      for i := 1 to Stats.NumFillIterations
        invariant Ready(gl) && Attached(gl)
        invariant State(gl) == LoopSpec(s0, FillLoop(fx, fy), i)
      {
        DrawSwap(gl, [TexPipo + read], Filling(i, fx, fy));
      }
      KeepFill(gl);
    }

    /** glUniform1f(u_savingOffset, offset) on the program. */
    method SetSavingOffset(gl: Device, prog: SumProgram, offset: int)
      requires Ready(gl) && Attached(gl)
      modifies this`countOffset, this`centroidOffset
      ensures Ready(gl) && Attached(gl)
      ensures State(gl) == SetOffset(old(State(gl)), prog, offset)
    {
      if prog == CountProgram {
        countOffset := offset;
      } else {
        centroidOffset := offset;
      }
    }

    /** SAVE, s_result set to ping-pong texture mRead. */
    method SavePass(gl: Device, prog: SumProgram, fx: int, fy: int, offset: int)
      requires Ready(gl) && Attached(gl)
      modifies this`read, this`write, gl
      ensures Ready(gl) && Attached(gl)
      ensures State(gl) == SaveSpec(old(State(gl)), prog, fx, fy, offset, TexPipo + old(read))
    {
      DrawSwap(gl, [TexFill, TexOrig, TexReduced, TexPipo + read],
               SumUniforms(prog, StageSave, Stats.NumSumPasses - 1, fx, fy, offset));
    }

    /** BLEND. */
    method BlendPass(gl: Device, prog: SumProgram, fx: int, fy: int, offset: int)
      requires Ready(gl) && Attached(gl)
      modifies this`read, this`write, gl
      ensures Ready(gl) && Attached(gl)
      ensures State(gl) == BlendSpec(old(State(gl)), prog, fx, fy, offset)
    {
      DrawSwap(gl, [TexFill, TexOrig, TexReduced, TexPipo + read],
               SumUniforms(prog, StageBlend, Stats.NumSumPasses - 1, fx, fy, offset));
    }

    /**
     * The end of countStage() and centroidingStage(): u_savingOffset is set;
     * SAVE samples, besides s_fill and s_orig, the reduced table through
     * s_label and, through s_result, ping-pong texture mRead, the last
     * summing pass's output; BLEND samples the SAVE output through s_result;
     * then the result takes the role of the reduced table.
     */
    method SaveBlendStage(gl: Device, prog: SumProgram, fx: int, fy: int, offset: int)
      requires Ready(gl) && Attached(gl)
      modifies this`read, this`write, this`reducedId, this`countOffset, this`centroidOffset, pipo, units, gl
      ensures Ready(gl) && Attached(gl)
      ensures State(gl) == SaveBlend(old(State(gl)), prog, fx, fy, offset, TexPipo + old(read))
    {
      SetSavingOffset(gl, prog, offset);
      SavePass(gl, prog, fx, fy, offset);
      BlendPass(gl, prog, fx, fy, offset);
      KeepReduced(gl);
    }

    /**
     * Summing pass k of the loop of a summing stage started from s0: the
     * fill, original and label textures and, through s_result, the previous
     * pass's output, with u_pass set to pass.
     */
    method SumPass(gl: Device, prog: SumProgram, first: int, fx: int, fy: int, pass: int, ghost s0: RunState, ghost k: nat)
      requires Ready(gl) && Attached(gl) && Shape(s0)
      requires State(gl) == LoopSpec(s0, SumLoop(prog, first, fx, fy), k) && pass == PassValue(first, k)
      modifies this`read, this`write, gl
      ensures Ready(gl) && Attached(gl)
      ensures State(gl) == LoopSpec(s0, SumLoop(prog, first, fx, fy), k + 1)
    {
      var offset := if prog == CountProgram then countOffset else centroidOffset;
      DrawSwap(gl, FixedRoles() + [TexPipo + read], SumUniforms(prog, SumStage(prog), pass, fx, fy, offset));
    }

    /**
     * countStage(offset): the initialisation pass (u_pass = -1) and the
     * doubling passes u_pass = 0..3, each sampling the fill, original and
     * label textures and, through s_result, the previous pass's output; then
     * SAVE and BLEND.
     */
    method CountStage(gl: Device, fx: int, fy: int, offset: int)
      requires Ready(gl) && Attached(gl)
      modifies this`read, this`write, this`reducedId, this`countOffset, this`centroidOffset, pipo, units, gl
      ensures Ready(gl) && Attached(gl)
      ensures State(gl) == SumSpec(old(State(gl)), CountProgram, -1, fx, fy, offset)
    {
      CountPasses(gl, fx, fy);
      SaveBlendStage(gl, CountProgram, fx, fy, offset);
    }

    /** The summing passes of countStage(): u_pass = -1..3. */
    method CountPasses(gl: Device, fx: int, fy: int)
      requires Ready(gl) && Attached(gl)
      modifies this`read, this`write, gl
      ensures Ready(gl) && Attached(gl)
      ensures State(gl) == LoopSpec(old(State(gl)), SumLoop(CountProgram, -1, fx, fy), Stats.NumSumPasses + 1)
    {
      ghost var s0 := State(gl);
      for i: int := -1 to Stats.NumSumPasses
        invariant Ready(gl) && Attached(gl)
        invariant State(gl) == LoopSpec(s0, SumLoop(CountProgram, -1, fx, fy), i + 1)
      {
        SumPass(gl, CountProgram, -1, fx, fy, i, s0, i + 1);
      }
    }

    /**
     * centroidingStage(coordinate, offset): the initialisation pass
     * (u_pass = coordinate) and the doubling passes u_pass = 0..3, then SAVE
     * and BLEND.
     */
    method CentroidingStage(gl: Device, fx: int, fy: int, coordinate: int, offset: int)
      requires Ready(gl) && Attached(gl)
      modifies this`read, this`write, this`reducedId, this`countOffset, this`centroidOffset, pipo, units, gl
      ensures Ready(gl) && Attached(gl)
      ensures State(gl) == SumSpec(old(State(gl)), CentroidProgram, coordinate, fx, fy, offset)
    {
      CentroidPasses(gl, fx, fy, coordinate);
      SaveBlendStage(gl, CentroidProgram, fx, fy, offset);
    }

    /** The summing passes of centroidingStage(coordinate): u_pass = coordinate, then 0..3. */
    method CentroidPasses(gl: Device, fx: int, fy: int, coordinate: int)
      requires Ready(gl) && Attached(gl)
      modifies this`read, this`write, gl
      ensures Ready(gl) && Attached(gl)
      ensures State(gl) == LoopSpec(old(State(gl)), SumLoop(CentroidProgram, coordinate, fx, fy), Stats.NumSumPasses + 1)
    {
      ghost var s0 := State(gl);
      SumPass(gl, CentroidProgram, coordinate, fx, fy, coordinate, s0, 0);
      for i := 0 to Stats.NumSumPasses
        invariant Ready(gl) && Attached(gl)
        invariant State(gl) == LoopSpec(s0, SumLoop(CentroidProgram, coordinate, fx, fy), i + 1)
      {
        SumPass(gl, CentroidProgram, coordinate, fx, fy, i, s0, i + 1);
      }
    }

    /** One quadrant of run(). */
    method Quadrant(gl: Device, fx: int, fy: int)
      requires Ready(gl) && Attached(gl)
      modifies this`read, this`write, this`fillId, this`reducedId, this`countOffset, this`centroidOffset, pipo, units, gl
      ensures Ready(gl) && Attached(gl)
      ensures State(gl) == QuadrantSpec(old(State(gl)), fx, fy)
    {
      FillStage(gl, fx, fy);
      CountStage(gl, fx, fy, Offset);
      CentroidingStage(gl, fx, fy, CentroidX, 2 * Offset);
      CentroidingStage(gl, fx, fy, CentroidY, 3 * Offset);
    }

    /**
     * The decoding loop of run(): mSpots is cleared, then every cell of the
     * first OFFSET columns of every row of the table, row by row, adds its
     * spot when it holds one.
     */
    method DecodeSpots(data: seq<Byte>, convert: nat -> real, ghost gl: Device)
      requires TableShape(data, height) && Ready(gl)
      modifies this`spots
      ensures spots == TableSpots(data, height, convert)
      ensures Ready(gl) && State(gl) == old(State(gl))
    {
      ghost var t := Table(data, height, convert);
      spots := [];
      assert t[..0] == [];
      for j := 0 to height
        invariant spots == Flatten(t[..j])
      {
        DecodeRow(data, j, convert);
        FlattenNext(t, j);
      }
      assert t[..height] == t;
    }

    /** Row j of the decoding loop: each of the first OFFSET cells adds its spot when it holds one. */
    method DecodeRow(data: seq<Byte>, j: nat, convert: nat -> real)
      requires TableShape(data, height) && j < height
      modifies this`spots
      ensures spots == old(spots) + Somes(Row(data, height, j, convert))
    {
      ghost var row := Row(data, height, j, convert);
      ghost var s0 := spots;
      for i := 0 to AreaWidth / 4
        invariant spots == s0 + Somes(row[..i])
      {
        SomesNext(row, i);
        var index := 4 * (j * AreaWidth + i);
        CellSpotAt(data, height, j, i, convert, index);
        if U16At(data, index + OffsetX) != 0 {
          var area := U16At(data, index + OffsetArea);
          var centre := Centre(data, index, convert);
          if area > 2 {
            spots := spots + [Spot(area, centre)];
          }
        }
      }
      assert row[..Offset] == row;
    }

    /**
     * run(): the attachment loop, the four quadrants, then the corrected
     * readback, which reads the reduced table, and the decoding of the bytes
     * data it yields into mSpots.
     */
    method Run(gl: Device, data: seq<Byte>, convert: nat -> real) returns (table: Content)
      requires Ready(gl) && TableShape(data, height)
      modifies this`read, this`write, this`fillId, this`reducedId, this`countOffset, this`centroidOffset, this`spots
      modifies pipo, units, gl
      ensures Ready(gl)
      ensures State(gl) == RunSpec(old(State(gl)))
      ensures table == ReadBack(State(gl))
      ensures spots == TableSpots(data, height, convert)
    {
      Stages(gl);
      table := ReadReduced(gl);
      DecodeSpots(data, convert, gl);
    }

    /** The attachment loop and the four quadrants of run(). */
    method Stages(gl: Device)
      requires Ready(gl)
      modifies this`read, this`write, this`fillId, this`reducedId, this`countOffset, this`centroidOffset
      modifies pipo, units, gl
      ensures Ready(gl)
      ensures State(gl) == RunSpec(old(State(gl)))
    {
      AttachPingPong(gl);
      Quadrant(gl, 1, 1);
      Quadrant(gl, -1, 1);
      Quadrant(gl, -1, -1);
      Quadrant(gl, 1, -1);
    }

    /**
     * The corrected readback: glReadPixels on a framebuffer with the reduced
     * table attached, which yields that table.
     */
    method ReadReduced(gl: Device) returns (table: Content)
      requires Ready(gl)
      modifies gl
      ensures Ready(gl) && State(gl) == old(State(gl))
      ensures table == ReadBack(State(gl))
    {
      assert Ids()[TexReduced] == reducedId;
      gl.AttachTexture(reducedId);
      table := gl.ReadPixels();
    }
  }
}
