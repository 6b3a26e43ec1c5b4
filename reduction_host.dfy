// The host side of the reduction phase (src/reductionPhase.cpp): four
// textures (the label image, the root texture and a ping-pong pair), the
// root-initialisation draw, and the pass schedule of reduce(length): logBase2
// running-sum passes with u_pass counting up, then as many binary-search
// passes with u_pass counting down. Between the horizontal and the vertical
// reduction the horizontal result takes the place of the root texture.
module ReductionHost {
  import opened Phase
  import opened Units
  import opened Gpu
  import opened Host

  const Horizontal := 0
  const Vertical := 1
  const TexLabel := 0
  const TexRoot := 1
  const TexPipo := 2
  const ModeRunningSum := 0
  const ModeBinarySearch := 1
  const ModeRootInit := 2
  const GLFalse := 0
  const GLTrue := 1

  /** u_stage of pass k of reduce(length), with L = logBase2(length). */
  function ReduceStage(k: nat, L: nat): int
  {
    if k < L then ModeRunningSum else ModeBinarySearch
  }

  /** u_pass of pass k of reduce(length): 0..L-1, then L-1 down to 0. */
  function ReducePass(k: nat, L: nat): int
  {
    if k < L then k else 2 * L - 1 - k
  }

  /**
   * The binary search visits the pass indices of the running sum in reverse:
   * every pass index lies in 0..L-1, and pass k and pass 2L-1-k share it.
   */
  lemma {:induction false} ReduceSchedule(k: nat, L: nat)
    requires k < 2 * L
    ensures 0 <= ReducePass(k, L) < L
    ensures ReducePass(2 * L - 1 - k, L) == ReducePass(k, L)
    ensures ReduceStage(k, L) != ReduceStage(2 * L - 1 - k, L)
  {
  }

  /**
   * Draw k of reduce(length), issued as draw number base + k, when mWrite is
   * w0 before the first pass: it renders into the ping-pong texture of index
   * Target(k, w0); s_texture samples the other one (holding c0 before the
   * first pass, the previous pass's output after), s_values samples root
   * (holding rc throughout); u_stage and u_pass are those of pass k.
   */
  function ReduceDraw(k: nat, L: nat, base: nat, pipo: seq<nat>, w0: int, root: nat, rc: Content,
                      c0: Content, dir: int, debug: int): DrawCall
    requires |pipo| == 2 && (w0 == 0 || w0 == 1)
  {
    DrawCall(pipo[Target(k, w0)],
             [pipo[1 - Target(k, w0)], root],
             [if k == 0 then c0 else Output(base + k - 1), rc],
             Reducing(ReduceStage(k, L), dir, ReducePass(k, L), debug))
  }

  /** The first i draws of reduce(length). */
  function ReduceLog(i: nat, L: nat, base: nat, pipo: seq<nat>, w0: int, root: nat, rc: Content,
                     c0: Content, dir: int, debug: int): (r: seq<DrawCall>)
    requires |pipo| == 2 && (w0 == 0 || w0 == 1)
    ensures |r| == i
  {
    if i == 0 then []
    else ReduceLog(i - 1, L, base, pipo, w0, root, rc, c0, dir, debug) +
         [ReduceDraw(i - 1, L, base, pipo, w0, root, rc, c0, dir, debug)]
  }

  /** Entry k of the log is draw k. */
  lemma {:induction false} ReduceLogAt(i: nat, L: nat, base: nat, pipo: seq<nat>, w0: int, root: nat,
                                       rc: Content, c0: Content, dir: int, debug: int, k: nat)
    requires |pipo| == 2 && (w0 == 0 || w0 == 1) && k < i
    ensures ReduceLog(i, L, base, pipo, w0, root, rc, c0, dir, debug)[k] ==
            ReduceDraw(k, L, base, pipo, w0, root, rc, c0, dir, debug)
  {
    if k < i - 1 {
      ReduceLogAt(i - 1, L, base, pipo, w0, root, rc, c0, dir, debug, k);
    }
  }

  // ------------------------------------------------------------ run() on values

  /**
   * What run() works on, as a value: mRead and mWrite, the texture ids and
   * texture units of the phase, the uniforms it set last, and the context's
   * texture contents, unit bindings, framebuffer attachments and draw log.
   */
  datatype RunState = RunState(read: int, write: int, labelId: nat, rootId: nat, pipo: seq<nat>, units: seq<int>,
                               stage: int, direction: int, pass: int,
                               textures: map<nat, Content>, bindings: map<int, nat>,
                               attachment: map<nat, nat>, draws: seq<DrawCall>)

  /**
   * The indices are 0 and 1 in some order, the root texture and the two
   * ping-pong textures are distinct, and the four textures exist.
   */
  predicate ValidState(s: RunState)
  {
    |s.pipo| == 2 && |s.units| == 4 && ((s.read == 0 && s.write == 1) || (s.read == 1 && s.write == 0)) &&
    s.pipo[0] != s.pipo[1] && s.rootId != s.pipo[0] && s.rootId != s.pipo[1] &&
    s.labelId in s.textures && s.rootId in s.textures && s.pipo[0] in s.textures && s.pipo[1] in s.textures
  }

  /**
   * Stage 1 of run() and the attachment loop of stage 2: u_stage =
   * ROOT_INIT and one draw into the root texture, sampling ping-pong
   * texture 0 through s_texture (unused) and the label image through
   * s_values; then fbo[i] gets pipo[i] attached and u_direction =
   * HORIZONTAL.
   */
  function RootStage(s: RunState, fbo: seq<nat>, debug: int): (r: RunState)
    requires ValidState(s) && |fbo| == 2
    ensures ValidState(r)
  {
    s.(stage := ModeRootInit, direction := Horizontal,
       textures := s.textures[s.rootId := Output(|s.draws|)],
       attachment := s.attachment[fbo[0] := s.pipo[0]][fbo[1] := s.pipo[1]],
       draws := s.draws + [DrawCall(s.rootId, [s.pipo[0], s.labelId], [s.textures[s.pipo[0]], s.textures[s.labelId]],
                                    Reducing(ModeRootInit, s.direction, s.pass, debug))])
  }

  /**
   * One more pass continues the first k passes of reduce(length) from state
   * s0, L = logBase2(length): drawn into the ping-pong texture mWrite names,
   * sampling the one mRead names and the root texture, it leaves the
   * textures and the log that k + 1 passes leave.
   */
  lemma {:induction false} PassNext(s0: RunState, L: nat, k: nat, debug: int)
    requires ValidState(s0)
    ensures var w := Target(k, s0.write);
            var t := TexturesAfter(s0.textures, s0.pipo, w, |s0.draws|, k);
            var d := s0.draws + ReduceLog(k, L, |s0.draws|, s0.pipo, s0.write, s0.rootId, s0.textures[s0.rootId],
                                          s0.textures[s0.pipo[s0.read]], s0.direction, debug);
            s0.pipo[1 - w] in t && s0.rootId in t &&
            t[s0.pipo[w] := Output(|d|)] == TexturesAfter(s0.textures, s0.pipo, Target(k + 1, s0.write), |s0.draws|, k + 1) &&
            d + [DrawCall(s0.pipo[w], [s0.pipo[1 - w], s0.rootId], [t[s0.pipo[1 - w]], t[s0.rootId]],
                          Reducing(ReduceStage(k, L), s0.direction, ReducePass(k, L), debug))] ==
            s0.draws + ReduceLog(k + 1, L, |s0.draws|, s0.pipo, s0.write, s0.rootId, s0.textures[s0.rootId],
                                 s0.textures[s0.pipo[s0.read]], s0.direction, debug)
  {
    TexturesAfterAt(s0.textures, s0.pipo, Target(k, s0.write), |s0.draws|, k);
    TexturesAfterNext(s0.textures, s0.pipo, s0.write, |s0.draws|, k);
    var log := ReduceLog(k, L, |s0.draws|, s0.pipo, s0.write, s0.rootId, s0.textures[s0.rootId],
                         s0.textures[s0.pipo[s0.read]], s0.direction, debug);
    var d := ReduceDraw(k, L, |s0.draws|, s0.pipo, s0.write, s0.rootId, s0.textures[s0.rootId],
                        s0.textures[s0.pipo[s0.read]], s0.direction, debug);
    assert s0.draws + log + [d] == s0.draws + (log + [d]);
  }

  /**
   * What reduce(length) does, on values, L = logBase2(length): u_stage ends
   * as BINARY_SEARCH and u_pass as 0 after a pass; the 2L scheduled draws
   * are logged, the first sampling pipo[mRead] as it was and all sampling
   * the root texture as it was; mRead and mWrite, swapped 2L times, end as
   * they started.
   */
  function ReduceSpec(s: RunState, L: nat, debug: int): (r: RunState)
    requires ValidState(s)
    ensures ValidState(r)
  {
    s.(stage := ModeBinarySearch, pass := if L == 0 then s.pass else 0,
       textures := TexturesAfter(s.textures, s.pipo, s.write, |s.draws|, 2 * L),
       draws := s.draws + ReduceLog(2 * L, L, |s.draws|, s.pipo, s.write, s.rootId, s.textures[s.rootId],
                                    s.textures[s.pipo[s.read]], s.direction, debug))
  }

  /**
   * The result of reduce(length), n = |s.draws|: pipo[mRead] holds the last
   * output (and is untouched when L = 0).
   */
  lemma {:induction false} ReduceResult(s: RunState, L: nat, debug: int)
    requires ValidState(s)
    ensures ReduceSpec(s, L, debug).textures[s.pipo[s.read]] ==
            (if L == 0 then s.textures[s.pipo[s.read]] else Output(|s.draws| + 2 * L - 1))
  {
    TexturesAfterAt(s.textures, s.pipo, s.write, |s.draws|, 2 * L);
  }

  /** reduce(length) writes no texture but the two ping-pong textures; the root texture keeps its content. */
  lemma {:induction false} ReduceKeeps(s: RunState, L: nat, debug: int)
    requires ValidState(s)
    ensures var r := ReduceSpec(s, L, debug);
            forall t :: t in s.textures && t != s.pipo[0] && t != s.pipo[1] ==> t in r.textures && r.textures[t] == s.textures[t]
  {
    TexturesAfterAt(s.textures, s.pipo, s.write, |s.draws|, 2 * L);
  }

  /**
   * Stage 3 of run(): the root texture and ping-pong texture mRead trade ids
   * and texture units, fbo[mRead] gets the new pipo[mRead] attached, and
   * u_direction = VERTICAL.
   */
  function SwapStage(s: RunState, fbo: seq<nat>): (r: RunState)
    requires ValidState(s) && |fbo| == 2
    ensures ValidState(r)
  {
    s.(rootId := s.pipo[s.read], pipo := s.pipo[s.read := s.rootId],
       units := s.units[TexRoot := s.units[TexPipo + s.read]][TexPipo + s.read := s.units[TexRoot]],
       attachment := s.attachment[fbo[s.read] := s.rootId], direction := Vertical)
  }

  /**
   * run() on values, Lw and Lh being logBase2 of the width and the height:
   * stage 1, reduce(width), stage 3, reduce(height).
   */
  function RunSpec(s: RunState, fbo: seq<nat>, Lw: nat, Lh: nat, debug: int): (r: RunState)
    requires ValidState(s) && |fbo| == 2
    ensures ValidState(r)
  {
    ReduceSpec(SwapStage(ReduceSpec(RootStage(s, fbo, debug), Lw, debug), fbo), Lh, debug)
  }

  /**
   * The role swap of run() on values: the root texture and the ping-pong
   * texture of index r trade places, so the three texture ids are permuted.
   */
  lemma {:induction false} SwapPermutes(root: nat, pipo: seq<nat>, r: int)
    requires |pipo| == 2 && (r == 0 || r == 1)
    ensures multiset{pipo[r], pipo[r := root][0], pipo[r := root][1]} == multiset{root, pipo[0], pipo[1]}
  {
    if r == 0 {
      assert pipo[r := root] == [root, pipo[1]];
    } else {
      assert pipo[r := root] == [pipo[0], root];
    }
  }

  /**
   * What run() does to the phase, from state s: the horizontal result has
   * become the root texture, the old root texture takes its place among the
   * ping-pong textures (the three ids are permuted), the units follow,
   * mRead and mWrite end as they started, each framebuffer has its
   * ping-pong texture attached, and u_stage is BINARY_SEARCH, u_direction
   * VERTICAL.
   */
  lemma {:induction false} RunShape(s: RunState, fbo: seq<nat>, Lw: nat, Lh: nat, debug: int)
    requires ValidState(s) && |fbo| == 2 && fbo[0] != fbo[1]
    ensures var r := RunSpec(s, fbo, Lw, Lh, debug);
            r.read == s.read && r.write == s.write && r.labelId == s.labelId &&
            r.rootId == s.pipo[s.read] && r.pipo == s.pipo[s.read := s.rootId] &&
            multiset{r.rootId, r.pipo[0], r.pipo[1]} == multiset{s.rootId, s.pipo[0], s.pipo[1]} &&
            r.units == s.units[TexRoot := s.units[TexPipo + s.read]][TexPipo + s.read := s.units[TexRoot]] &&
            r.bindings == s.bindings && r.stage == ModeBinarySearch && r.direction == Vertical
  {
    var s1 := RootStage(s, fbo, debug);
    var s3 := SwapStage(ReduceSpec(s1, Lw, debug), fbo);
    SwapPermutes(s.rootId, s.pipo, s.read);
  }

  /** After run() each framebuffer has its (new) ping-pong texture attached. */
  lemma {:induction false} RunAttachment(s: RunState, fbo: seq<nat>, Lw: nat, Lh: nat, debug: int)
    requires ValidState(s) && |fbo| == 2 && fbo[0] != fbo[1]
    ensures var r := RunSpec(s, fbo, Lw, Lh, debug);
            r.attachment == s.attachment[fbo[0] := r.pipo[0]][fbo[1] := r.pipo[1]]
  {
    var s1 := RootStage(s, fbo, debug);
    var s3 := SwapStage(ReduceSpec(s1, Lw, debug), fbo);
    var p := s.pipo[s.read := s.rootId];
    if s.read == 0 {
      assert s3.attachment == s.attachment[fbo[0] := s.pipo[0]][fbo[1] := s.pipo[1]][fbo[0] := s.rootId];
      assert s3.attachment == s.attachment[fbo[0] := p[0]][fbo[1] := p[1]];
    } else {
      assert s3.attachment == s.attachment[fbo[0] := s.pipo[0]][fbo[1] := s.pipo[1]][fbo[1] := s.rootId];
      assert s3.attachment == s.attachment[fbo[0] := p[0]][fbo[1] := p[1]];
    }
  }

  /**
   * The draws run() logs, from state s, Lw and Lh being logBase2 of the
   * width and the height and n = |s.draws|: the root pass (draw n), the 2Lw
   * horizontal passes reading the root pass's output through s_values, and
   * the 2Lh vertical passes reading through s_values the last horizontal
   * output (the untouched ping-pong texture when Lw = 0) and through
   * s_texture, before the first, the root pass's output.
   */
  function RunDraws(s: RunState, Lw: nat, Lh: nat, debug: int): seq<DrawCall>
    requires ValidState(s)
  {
    var n := |s.draws|;
    s.draws +
    [DrawCall(s.rootId, [s.pipo[0], s.labelId], [s.textures[s.pipo[0]], s.textures[s.labelId]],
              Reducing(ModeRootInit, s.direction, s.pass, debug))] +
    ReduceLog(2 * Lw, Lw, n + 1, s.pipo, s.write, s.rootId, Output(n), s.textures[s.pipo[s.read]], Horizontal, debug) +
    ReduceLog(2 * Lh, Lh, n + 1 + 2 * Lw, s.pipo[s.read := s.rootId], s.write,
              s.pipo[s.read], if Lw == 0 then s.textures[s.pipo[s.read]] else Output(n + 2 * Lw), Output(n), Vertical, debug)
  }

  /**
   * What stages 1 to 3 of run() leave, from state s, Lw being logBase2 of
   * the width and n = |s.draws|: the roles swapped, mRead and mWrite as
   * they were, the root pass and the 2Lw horizontal passes logged, the new
   * root texture holding the horizontal result (the untouched ping-pong
   * texture when Lw = 0) and the new pipo[mRead] the root pass's output.
   */
  lemma {:induction false} HorizontalStage(s: RunState, fbo: seq<nat>, Lw: nat, debug: int)
    requires ValidState(s) && |fbo| == 2
    ensures var s3 := SwapStage(ReduceSpec(RootStage(s, fbo, debug), Lw, debug), fbo);
            var n := |s.draws|;
            s3.pipo == s.pipo[s.read := s.rootId] && s3.write == s.write && s3.rootId == s.pipo[s.read] &&
            s3.read == s.read && s3.direction == Vertical &&
            s3.draws == s.draws +
                        [DrawCall(s.rootId, [s.pipo[0], s.labelId], [s.textures[s.pipo[0]], s.textures[s.labelId]],
                                  Reducing(ModeRootInit, s.direction, s.pass, debug))] +
                        ReduceLog(2 * Lw, Lw, n + 1, s.pipo, s.write, s.rootId, Output(n), s.textures[s.pipo[s.read]],
                                  Horizontal, debug) &&
            s3.textures[s3.rootId] == (if Lw == 0 then s.textures[s.pipo[s.read]] else Output(n + 2 * Lw)) &&
            s3.textures[s3.pipo[s3.read]] == Output(n)
  {
    var n := |s.draws|;
    var s1 := RootStage(s, fbo, debug);
    assert s1.textures[s1.rootId] == Output(n) && s1.textures[s1.pipo[s1.read]] == s.textures[s.pipo[s.read]];
    assert |s1.draws| == n + 1 && s1.direction == Horizontal;
    ReduceResult(s1, Lw, debug);
    ReduceKeeps(s1, Lw, debug);
  }

  /** The vertical reduction of run() from a state s3 that stages 1 to 3 left, as HorizontalStage says. */
  lemma {:induction false} VerticalLog(s: RunState, s3: RunState, Lw: nat, Lh: nat, debug: int)
    requires ValidState(s) && ValidState(s3)
    requires var n := |s.draws|;
             s3.pipo == s.pipo[s.read := s.rootId] && s3.write == s.write && s3.rootId == s.pipo[s.read] &&
             s3.read == s.read && s3.direction == Vertical &&
             s3.draws == s.draws +
                         [DrawCall(s.rootId, [s.pipo[0], s.labelId], [s.textures[s.pipo[0]], s.textures[s.labelId]],
                                   Reducing(ModeRootInit, s.direction, s.pass, debug))] +
                         ReduceLog(2 * Lw, Lw, n + 1, s.pipo, s.write, s.rootId, Output(n), s.textures[s.pipo[s.read]],
                                   Horizontal, debug) &&
             s3.textures[s3.rootId] == (if Lw == 0 then s.textures[s.pipo[s.read]] else Output(n + 2 * Lw)) &&
             s3.textures[s3.pipo[s3.read]] == Output(n)
    ensures ReduceSpec(s3, Lh, debug).draws == RunDraws(s, Lw, Lh, debug)
  {
    var n := |s.draws|;
    assert |s3.draws| == n + 1 + 2 * Lw;
    var b := ReduceLog(2 * Lh, Lh, n + 1 + 2 * Lw, s.pipo[s.read := s.rootId], s.write, s.pipo[s.read],
                       if Lw == 0 then s.textures[s.pipo[s.read]] else Output(n + 2 * Lw), Output(n), Vertical, debug);
    assert ReduceSpec(s3, Lh, debug).draws == s3.draws + b;
    var root := DrawCall(s.rootId, [s.pipo[0], s.labelId], [s.textures[s.pipo[0]], s.textures[s.labelId]],
                         Reducing(ModeRootInit, s.direction, s.pass, debug));
    var a := ReduceLog(2 * Lw, Lw, n + 1, s.pipo, s.write, s.rootId, Output(n), s.textures[s.pipo[s.read]],
                       Horizontal, debug);
    assert RunDraws(s, Lw, Lh, debug) == s.draws + [root] + a + b;
  }

  /** The draws run() logs are those RunDraws lists. */
  lemma {:induction false} RunLog(s: RunState, fbo: seq<nat>, Lw: nat, Lh: nat, debug: int)
    requires ValidState(s) && |fbo| == 2
    ensures RunSpec(s, fbo, Lw, Lh, debug).draws == RunDraws(s, Lw, Lh, debug)
  {
    var s3 := SwapStage(ReduceSpec(RootStage(s, fbo, debug), Lw, debug), fbo);
    HorizontalStage(s, fbo, Lw, debug);
    VerticalLog(s, s3, Lw, Lh, debug);
  }

  /** The vertical result, when there is one, is in pipo[mRead] after run(). */
  lemma {:induction false} RunResult(s: RunState, fbo: seq<nat>, Lw: nat, Lh: nat, debug: int)
    requires ValidState(s) && |fbo| == 2 && fbo[0] != fbo[1]
    ensures var r := RunSpec(s, fbo, Lw, Lh, debug);
            var n := |s.draws|;
            Lh > 0 ==> r.textures[r.pipo[r.read]] == Output(n + 2 * Lw + 2 * Lh)
  {
    var s1 := RootStage(s, fbo, debug);
    var s3 := SwapStage(ReduceSpec(s1, Lw, debug), fbo);
    ReduceResult(s3, Lh, debug);
  }

  class ReductionPhase {
    const width: int
    const height: int
    const debug: int          // u_debug, 0 unless changed by hand
    const fbo: array<nat>     // mFboId
    const pipo: array<nat>    // mTexPiPoId
    const units: array<int>   // mTextureUnits: TEX_LABEL, TEX_ROOT, TEX_PIPO, TEX_PIPO+1
    var labelId: nat          // mTexLabelId
    var rootId: nat           // mTexRootId
    var read: int             // mRead
    var write: int            // mWrite
    var stage: int            // u_stage as last set
    var direction: int        // u_direction as last set
    var pass: int             // u_pass

    constructor (width: int, height: int)
      ensures this.width == width && this.height == height && debug == 0
      ensures fresh(fbo) && fresh(pipo) && fresh(units)
      ensures Shape()
    {
      this.width := width;
      this.height := height;
      debug := 0;
      fbo := new nat[2];
      pipo := new nat[2];
      units := new int[4];
    }

    /** The member arrays have their C++ sizes and are distinct. */
    predicate Shape()
    {
      fbo.Length == 2 && pipo.Length == 2 && units.Length == 4 && fbo != pipo
    }

    /**
     * What run() needs: the indices are 0 and 1 in some order, the two
     * framebuffers are distinct, the root texture and the two ping-pong
     * textures are distinct, and each of the four roles names the texture
     * bound to its unit.
     */
    ghost predicate Ready(gl: Device)
      reads this, fbo, pipo, units, gl
    {
      Shape() && ((read == 0 && write == 1) || (read == 1 && write == 0)) && fbo[0] != fbo[1] && gl.Valid() &&
      pipo[0] != pipo[1] && rootId != pipo[0] && rootId != pipo[1] &&
      labelId in gl.textures && rootId in gl.textures && pipo[0] in gl.textures && pipo[1] in gl.textures &&
      units[TexLabel] in gl.units && units[TexRoot] in gl.units &&
      units[TexPipo] in gl.units && units[TexPipo + 1] in gl.units &&
      gl.units[units[TexLabel]] == labelId && gl.units[units[TexRoot]] == rootId &&
      gl.units[units[TexPipo]] == pipo[0] && gl.units[units[TexPipo + 1]] == pipo[1]
    }

    /** The phase and the context as a value. */
    ghost function State(gl: Device): RunState
      reads this, pipo, units, gl
    {
      RunState(read, write, labelId, rootId, pipo[..], units[..], stage, direction, pass,
               gl.textures, gl.units, gl.attachment, gl.draws)
    }

    /**
     * init(): the framebuffers are stored and mRead = 0, mWrite = 1; when the
     * program fails to load GL_FALSE is returned before any texture is made,
     * otherwise the two ping-pong textures are made on the two lowest free
     * units.
     */
    method Init(fbos: seq<nat>, bf: nat, gl: Device, programOk: bool) returns (ret: int, bf': nat)
      requires |fbos| == 2 && Shape()
      requires gl.Valid() && FreeUnits(bf, UnitLimit) >= 2
      modifies this`read, this`write, fbo, pipo, units, gl
      ensures fbo[..] == fbos && read == 0 && write == 1 && gl.Valid()
      ensures units[TexLabel] == old(units[TexLabel]) && units[TexRoot] == old(units[TexRoot])
      ensures !programOk ==> ret == GLFalse && bf' == bf && unchanged(gl) && unchanged(pipo) && unchanged(units)
      ensures programOk ==> ret == GLTrue && units[TexPipo] >= 0 && units[TexPipo + 1] >= 0
      ensures programOk ==> FirstFree(bf, {}, units[TexPipo] as nat) &&
                            FirstFree(bf, {units[TexPipo] as nat}, units[TexPipo + 1] as nat)
      ensures programOk ==> Claimed(bf, {units[TexPipo] as nat, units[TexPipo + 1] as nat}, bf')
      ensures programOk ==> FreeUnits(bf', UnitLimit) == FreeUnits(bf, UnitLimit) - 2
      ensures programOk ==> pipo[0] !in old(gl.textures) && pipo[1] !in old(gl.textures) && pipo[0] != pipo[1]
      ensures programOk ==> gl.textures == old(gl.textures)[pipo[0] := Blank][pipo[1] := Blank]
      ensures programOk ==> gl.units == old(gl.units)[units[TexPipo] := pipo[0]][units[TexPipo + 1] := pipo[1]]
      ensures gl.attachment == old(gl.attachment) && gl.bound == old(gl.bound) && gl.draws == old(gl.draws)
    {
      fbo[0] := fbos[0];
      fbo[1] := fbos[1];
      read := 0;
      write := 1;
      if !programOk {
        return GLFalse, bf;
      }
      bf' := NewPingPong(gl, bf, pipo, units, TexPipo);
      ret := GLTrue;
    }

    /**
     * initIndependent(): the label image is uploaded to a new texture on the
     * lowest free unit, an empty root texture is made on the next, then
     * init() runs; its result is returned. When init() fails the two units
     * stay claimed.
     */
    method InitIndependent(fbos: seq<nat>, bf: nat, gl: Device, programOk: bool) returns (ret: int, bf': nat)
      requires |fbos| == 2 && Shape()
      requires gl.Valid() && FreeUnits(bf, UnitLimit) >= 4
      modifies this`labelId, this`rootId, this`read, this`write, fbo, pipo, units, gl
      ensures fbo[..] == fbos && read == 0 && write == 1 && gl.Valid()
      ensures ret == (if programOk then GLTrue else GLFalse)
      ensures units[TexLabel] >= 0 && units[TexRoot] >= 0
      ensures FirstFree(bf, {}, units[TexLabel] as nat) && FirstFree(bf, {units[TexLabel] as nat}, units[TexRoot] as nat)
      ensures labelId !in old(gl.textures) && rootId !in old(gl.textures) && labelId != rootId
      ensures labelId in gl.textures && gl.textures[labelId] == Host("mTgaData") && rootId in gl.textures
      ensures !programOk ==> Claimed(bf, {units[TexLabel] as nat, units[TexRoot] as nat}, bf')
      ensures programOk ==> units[TexPipo] >= 0 && units[TexPipo + 1] >= 0
      ensures programOk ==> FirstFree(bf, {units[TexLabel] as nat, units[TexRoot] as nat}, units[TexPipo] as nat)
      ensures programOk ==> FirstFree(bf, {units[TexLabel] as nat, units[TexRoot] as nat, units[TexPipo] as nat},
                                      units[TexPipo + 1] as nat)
      ensures programOk ==> Claimed(bf, {units[TexLabel] as nat, units[TexRoot] as nat,
                                         units[TexPipo] as nat, units[TexPipo + 1] as nat}, bf')
      ensures programOk && fbos[0] != fbos[1] ==> Ready(gl)
    {
      var unit;
      labelId, unit, bf' := NewTexture(gl, bf, Host("mTgaData"));
      units[TexLabel] := unit;
      ghost var bf1 := bf';
      rootId, unit, bf' := NewTexture(gl, bf', Blank);
      units[TexRoot] := unit;
      assert FirstFree(bf, {units[TexLabel] as nat}, unit) by {
        assert FirstFree(bf1, {}, unit);
      }
      ghost var bf2 := bf';
      ret, bf' := Init(fbos, bf', gl, programOk);
      if programOk {
        assert FirstFree(bf, {units[TexLabel] as nat, units[TexRoot] as nat}, units[TexPipo] as nat) by {
          assert FirstFree(bf2, {}, units[TexPipo] as nat);
        }
        assert FirstFree(bf, {units[TexLabel] as nat, units[TexRoot] as nat, units[TexPipo] as nat},
                         units[TexPipo + 1] as nat) by {
          assert FirstFree(bf2, {units[TexPipo] as nat}, units[TexPipo + 1] as nat);
        }
      }
    }

    /**
     * updateTextures(): the label image and the root texture are taken from
     * the phase before, with their units; nothing else changes.
     */
    method UpdateTextures(labelTex: nat, labelTexUnit: int, freeTex: nat, freeTexUnit: int)
      requires Shape()
      modifies this`labelId, this`rootId, units
      ensures labelId == labelTex && rootId == freeTex
      ensures units[TexLabel] == labelTexUnit && units[TexRoot] == freeTexUnit
      ensures units[TexPipo] == old(units[TexPipo]) && units[TexPipo + 1] == old(units[TexPipo + 1])
    {
      labelId := labelTex;
      units[TexLabel] := labelTexUnit;
      rootId := freeTex;
      units[TexRoot] := freeTexUnit;
    }

    /**
     * When the textures handed over are bound to the units handed over and
     * are not the phase's own ping-pong textures, updateTextures leaves the
     * phase ready to run.
     */
    lemma {:induction false} UpdateKeepsReady(gl: Device)
      requires Shape() && ((read == 0 && write == 1) || (read == 1 && write == 0)) && fbo[0] != fbo[1]
      requires pipo[0] != pipo[1] && gl.Valid()
      requires units[TexPipo] in gl.units && units[TexPipo + 1] in gl.units
      requires gl.units[units[TexPipo]] == pipo[0] && gl.units[units[TexPipo + 1]] == pipo[1]
      requires pipo[0] in gl.textures && pipo[1] in gl.textures
      requires units[TexLabel] in gl.units && gl.units[units[TexLabel]] == labelId && labelId in gl.textures
      requires units[TexRoot] in gl.units && gl.units[units[TexRoot]] == rootId && rootId in gl.textures
      requires rootId != pipo[0] && rootId != pipo[1]
      ensures Ready(gl)
    {
    }

    /**
     * Stage 1 of run(): u_stage = ROOT_INIT, fbo[0] gets the root texture
     * attached and one draw renders into it from the label image
     * (s_values) and ping-pong texture 0 (s_texture, unused); no swap.
     */
    method RootInit(gl: Device)
      requires Ready(gl)
      modifies this`stage, gl
      ensures Ready(gl) && stage == ModeRootInit
      ensures gl.draws == old(gl.draws) + [DrawCall(rootId, [pipo[0], labelId],
                                                    [old(gl.textures[pipo[0]]), old(gl.textures[labelId])],
                                                    Reducing(ModeRootInit, direction, pass, debug))]
      ensures gl.textures == old(gl.textures)[rootId := Output(|old(gl.draws)|)]
      ensures gl.attachment == old(gl.attachment)[fbo[0] := rootId] && gl.bound == fbo[0] && gl.units == old(gl.units)
    {
      stage := ModeRootInit;
      gl.BindFramebuffer(fbo[0]);
      gl.AttachTexture(rootId);
      ghost var u0, t0 := gl.units, gl.textures;
      gl.Draw([units[TexPipo], units[TexLabel]], Reducing(stage, direction, pass, debug));
      assert Sources(u0, [units[TexPipo], units[TexLabel]]) == [pipo[0], labelId];
      assert Inputs(t0, u0, [units[TexPipo], units[TexLabel]]) == [t0[pipo[0]], t0[labelId]];
    }

    /** The attachment loop of run(): fbo[i] gets pipo[i]. */
    method AttachPingPong(gl: Device)
      requires Ready(gl)
      modifies gl
      ensures Ready(gl)
      ensures gl.attachment == old(gl.attachment)[fbo[0] := pipo[0]][fbo[1] := pipo[1]]
      ensures gl.units == old(gl.units) && gl.textures == old(gl.textures) && gl.draws == old(gl.draws)
    {
      ghost var a0: map<nat, nat> := gl.attachment;
      for i := 0 to 2
        invariant Ready(gl) && gl.units == old(gl.units) && gl.textures == old(gl.textures) && gl.draws == old(gl.draws)
        invariant gl.attachment == if i == 0 then a0 else if i == 1 then a0[fbo[0] := pipo[0]]
                                   else a0[fbo[0] := pipo[0]][fbo[1] := pipo[1]]
      {
        gl.BindFramebuffer(fbo[i]);
        gl.AttachTexture(pipo[i]);
      }
    }

    /** fbo[i] has pipo[i] attached. */
    ghost predicate Attached(gl: Device)
      reads this, fbo, pipo, gl
      requires Shape()
    {
      fbo[0] in gl.attachment && fbo[1] in gl.attachment &&
      gl.attachment[fbo[0]] == pipo[0] && gl.attachment[fbo[1]] == pipo[1]
    }

    /**
     * One pass of reduce(): set u_pass, bind fbo[mWrite], sample pipo[mRead]
     * through s_texture and the root texture through s_values, draw, and
     * swap mRead and mWrite.
     */
    method DrawPass(gl: Device, p: int)
      requires Ready(gl) && Attached(gl)
      modifies this`read, this`write, this`pass, gl
      ensures Ready(gl) && Attached(gl) && pass == p
      ensures read == old(write) && write == old(read)
      ensures gl.draws == old(gl.draws) + [DrawCall(pipo[old(write)], [pipo[old(read)], rootId],
                                                    [old(gl.textures[pipo[read]]), old(gl.textures[rootId])],
                                                    Reducing(stage, direction, p, debug))]
      ensures gl.textures == old(gl.textures)[pipo[old(write)] := Output(|old(gl.draws)|)]
      ensures gl.units == old(gl.units) && gl.attachment == old(gl.attachment) && gl.bound == fbo[old(write)]
    {
      ghost var u0, t0 := gl.units, gl.textures;
      pass := p;
      gl.BindFramebuffer(fbo[write]);
      gl.Draw([units[TexPipo + read], units[TexRoot]], Reducing(stage, direction, pass, debug));
      assert Sources(u0, [units[TexPipo + read], units[TexRoot]]) == [pipo[read], rootId];
      assert Inputs(t0, u0, [units[TexPipo + read], units[TexRoot]]) == [t0[pipo[read]], t0[rootId]];
      read, write := write, read;
    }

    /**
     * After the first n passes of a reduce(length) that started in state s0,
     * L = logBase2(length): mRead and mWrite swapped n times, u_pass that of
     * the last pass, the log grown by the n scheduled draws (s_texture
     * reading pipo[mRead] as it was before the first, s_values the root
     * texture throughout), the ping-pong textures holding the last two
     * outputs, and everything else (u_stage aside) as it was.
     */
    ghost predicate Done(gl: Device, s0: RunState, L: nat, n: nat)
      reads this, pipo, units, gl
      requires ValidState(s0)
    {
      read == 1 - Target(n, s0.write) && write == Target(n, s0.write) &&
      pass == (if n == 0 then s0.pass else ReducePass(n - 1, L)) &&
      gl.textures == TexturesAfter(s0.textures, s0.pipo, Target(n, s0.write), |s0.draws|, n) &&
      gl.draws == s0.draws + ReduceLog(n, L, |s0.draws|, s0.pipo, s0.write, s0.rootId, s0.textures[s0.rootId],
                                       s0.textures[s0.pipo[s0.read]], s0.direction, debug) &&
      labelId == s0.labelId && rootId == s0.rootId && pipo[..] == s0.pipo && units[..] == s0.units &&
      direction == s0.direction && gl.units == s0.bindings && gl.attachment == s0.attachment
    }

    /**
     * Pass k of a reduce() that started in state s0, u_stage as scheduled and
     * u_pass set to p, the scheduled value.
     */
    method ReduceStep(gl: Device, ghost k: nat, p: int, L: nat, ghost s0: RunState)
      requires Ready(gl) && Attached(gl) && ValidState(s0) && Done(gl, s0, L, k)
      requires stage == ReduceStage(k, L) && p == ReducePass(k, L)
      modifies this`read, this`write, this`pass, gl
      ensures Ready(gl) && Attached(gl) && Done(gl, s0, L, k + 1)
    {
      PassNext(s0, L, k, debug);
      DrawPass(gl, p);
    }

    /** The running-sum loop of reduce(): u_stage = RUNNING_SUM, u_pass = 0..L-1. */
    method RunningSum(gl: Device, L: nat, ghost s0: RunState)
      requires Ready(gl) && Attached(gl) && ValidState(s0) && State(gl) == s0
      modifies this`read, this`write, this`stage, this`pass, gl
      ensures Ready(gl) && Attached(gl) && Done(gl, s0, L, L) && stage == ModeRunningSum
    {
      stage := ModeRunningSum;
      assert s0.draws + [] == s0.draws;
      for i := 0 to L
        invariant stage == ModeRunningSum && Ready(gl) && Attached(gl)
        invariant Done(gl, s0, L, i)
      {
        ReduceStep(gl, i, i, L, s0);
      }
    }

    /**
     * The binary-search loop of reduce(), after the first L passes from
     * state s0: u_stage = BINARY_SEARCH, u_pass = L-1 down to 0, that is
     * passes L..2L-1 of the schedule. The source counts i = u_pass down;
     * here j = 2L-1-i counts the passes of both loops.
     */
    method BinarySearch(gl: Device, L: nat, ghost s0: RunState)
      requires Ready(gl) && Attached(gl) && ValidState(s0) && Done(gl, s0, L, L)
      modifies this`read, this`write, this`stage, this`pass, gl
      ensures Ready(gl) && Attached(gl) && Done(gl, s0, L, 2 * L) && stage == ModeBinarySearch
    {
      stage := ModeBinarySearch;
      for j := L to 2 * L
        invariant stage == ModeBinarySearch && Ready(gl) && Attached(gl)
        invariant Done(gl, s0, L, j)
      {
        ReduceStep(gl, j, 2 * L - 1 - j, L, s0);
      }
    }

    /**
     * reduce(length): the running-sum loop, then the binary-search loop, each
     * of L = logBase2(length) passes.
     */
    method Reduce(gl: Device, length: int)
      requires Ready(gl) && Attached(gl)
      modifies this`read, this`write, this`stage, this`pass, gl
      ensures Ready(gl) && Attached(gl) && State(gl) == ReduceSpec(old(State(gl)), BitLength(length), debug)
    {
      ghost var s := State(gl);
      var L := LogBase2(length);
      RunningSum(gl, L, s);
      BinarySearch(gl, L, s);
      TargetParity(2 * L, s.write);
    }

    /**
     * Stage 3 of run(): the root texture and ping-pong texture mRead trade
     * ids and units, and fbo[mRead] gets its new texture attached.
     */
    method SwapRoot(gl: Device)
      requires Ready(gl) && Attached(gl)
      modifies this`rootId, pipo, units, gl
      ensures Ready(gl) && Attached(gl)
      ensures rootId == old(pipo[read]) && pipo[..] == old(pipo[..])[read := old(rootId)]
      ensures units[..] == old(units[..])[TexRoot := old(units[TexPipo + read])][TexPipo + read := old(units[TexRoot])]
      ensures gl.attachment == old(gl.attachment)[fbo[read] := pipo[read]] && gl.bound == fbo[read]
      ensures gl.units == old(gl.units) && gl.textures == old(gl.textures) && gl.draws == old(gl.draws)
    {
      rootId, pipo[read] := pipo[read], rootId;
      units[TexRoot], units[TexPipo + read] := units[TexPipo + read], units[TexRoot];
      gl.BindFramebuffer(fbo[read]);
      gl.AttachTexture(pipo[read]);
    }

    /**
     * Stages 1 and 2 of run(): the root pass, the attachment loop, and
     * reduce(width) with u_direction = HORIZONTAL.
     */
    method ReduceHorizontally(gl: Device)
      requires Ready(gl)
      modifies this`read, this`write, this`stage, this`direction, this`pass, gl
      ensures Ready(gl) && Attached(gl)
      ensures State(gl) == ReduceSpec(RootStage(old(State(gl)), fbo[..], debug), BitLength(width), debug)
    {
      RootInit(gl);
      AttachPingPong(gl);
      gl.BindFramebuffer(fbo[write]);
      direction := Horizontal;
      assert State(gl) == RootStage(old(State(gl)), fbo[..], debug);
      Reduce(gl, width);
    }

    /**
     * Stages 3 and 4 of run(): the horizontal result takes the root role,
     * then reduce(height) with u_direction = VERTICAL.
     */
    method ReduceVertically(gl: Device)
      requires Ready(gl) && Attached(gl)
      modifies this`rootId, this`read, this`write, this`stage, this`direction, this`pass, pipo, units, gl
      ensures Ready(gl) && Attached(gl)
      ensures State(gl) == ReduceSpec(SwapStage(old(State(gl)), fbo[..]), BitLength(height), debug)
    {
      SwapRoot(gl);
      direction := Vertical;
      assert State(gl) == SwapStage(old(State(gl)), fbo[..]);
      Reduce(gl, height);
    }

    /**
     * run(): the new state is RunSpec of the old one; RunLog says what that
     * is.
     */
    method Run(gl: Device)
      requires Ready(gl)
      modifies this`rootId, this`read, this`write, this`stage, this`direction, this`pass, pipo, units, gl
      ensures Ready(gl) && Attached(gl)
      ensures State(gl) == RunSpec(old(State(gl)), fbo[..], BitLength(width), BitLength(height), debug)
    {
      ReduceHorizontally(gl);
      ReduceVertically(gl);
    }
  }
}
