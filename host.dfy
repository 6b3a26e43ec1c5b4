// The texture set-up every phase repeats in its `init`/`initIndependent`:
// pick the lowest free texture unit of `bfUsedTextures`, make it active,
// create a texture there (`createSimpleTexture2D`, src/phase.cpp:11-34) and
// claim the unit; the loop `for(j=0; j<2; ++j)` doing that for the two
// ping-pong textures; and what a sequence of ping-pong passes leaves in the
// two textures.
module Host {
  import opened Units
  import opened Gpu

  /** u is the lowest unit that is neither set in bf nor in taken. */
  predicate FirstFree(bf: nat, taken: set<nat>, u: nat)
  {
    u < UnitLimit && !Bit(bf, u) && u !in taken && forall k :: 0 <= k < u ==> Bit(bf, k) || k in taken
  }

  /** bf' is bf with the units of claimed set as well. */
  ghost predicate Claimed(bf: nat, claimed: set<nat>, bf': nat)
  {
    forall k :: Bit(bf', k) == (Bit(bf, k) || k in claimed)
  }

  /** The lowest free unit is unique. */
  lemma FirstFreeUnique(bf: nat, taken: set<nat>, u: nat, v: nat)
    requires FirstFree(bf, taken, u) && FirstFree(bf, taken, v)
    ensures u == v
  {
  }

  /**
   * One allocation: a new texture with the given content, bound to the lowest
   * free unit, which is then claimed.
   */
  method NewTexture(gl: Device, bf: nat, content: Content) returns (name: nat, unit: nat, bf': nat)
    requires gl.Valid() && !content.Output? && FreeUnits(bf, UnitLimit) >= 1
    modifies gl
    ensures gl.Valid()
    ensures FirstFree(bf, {}, unit) && Claimed(bf, {unit}, bf')
    ensures FreeUnits(bf', UnitLimit) == FreeUnits(bf, UnitLimit) - 1
    ensures name !in old(gl.textures)
    ensures gl.textures == old(gl.textures)[name := content] && gl.units == old(gl.units)[unit := name]
    ensures gl.attachment == old(gl.attachment) && gl.bound == old(gl.bound) && gl.draws == old(gl.draws)
  {
    unit, bf' := Allocate(bf);
    name := gl.CreateTexture(unit, content);
  }

  /**
   * The ping-pong loop: two new blank textures ids[0] and ids[1], bound to
   * the two lowest free units, which are stored in units[first] and
   * units[first + 1]; no other entry of units changes.
   */
  method NewPingPong(gl: Device, bf: nat, ids: array<nat>, units: array<int>, first: nat) returns (bf': nat)
    requires gl.Valid() && FreeUnits(bf, UnitLimit) >= 2
    requires ids.Length == 2 && first + 2 <= units.Length
    modifies gl, ids, units
    ensures gl.Valid()
    ensures units[first] >= 0 && units[first + 1] >= 0
    ensures FirstFree(bf, {}, units[first] as nat) && FirstFree(bf, {units[first] as nat}, units[first + 1] as nat)
    ensures Claimed(bf, {units[first] as nat, units[first + 1] as nat}, bf')
    ensures FreeUnits(bf', UnitLimit) == FreeUnits(bf, UnitLimit) - 2
    ensures ids[0] !in old(gl.textures) && ids[1] !in old(gl.textures) && ids[0] != ids[1]
    ensures gl.textures == old(gl.textures)[ids[0] := Blank][ids[1] := Blank]
    ensures gl.units == old(gl.units)[units[first] := ids[0]][units[first + 1] := ids[1]]
    ensures forall k :: 0 <= k < units.Length && k != first && k != first + 1 ==> units[k] == old(units[k])
    ensures gl.attachment == old(gl.attachment) && gl.bound == old(gl.bound) && gl.draws == old(gl.draws)
  {
    ghost var t0: map<nat, Content>, u0: map<int, nat> := gl.textures, gl.units;
    bf' := bf;
    for j := 0 to 2
      invariant gl.Valid()
      invariant FreeUnits(bf', UnitLimit) == FreeUnits(bf, UnitLimit) - j
      invariant j >= 1 ==> units[first] >= 0 && FirstFree(bf, {}, units[first] as nat) && ids[0] !in t0
      invariant j == 1 ==> Claimed(bf, {units[first] as nat}, bf')
      invariant j == 1 ==> gl.textures == t0[ids[0] := Blank] && gl.units == u0[units[first] := ids[0]]
      invariant j == 0 ==> bf' == bf && gl.textures == t0 && gl.units == u0
      invariant j == 2 ==> units[first + 1] >= 0 && FirstFree(bf, {units[first] as nat}, units[first + 1] as nat)
      invariant j == 2 ==> ids[1] !in t0 && ids[0] != ids[1]
      invariant j == 2 ==> Claimed(bf, {units[first] as nat, units[first + 1] as nat}, bf')
      invariant j == 2 ==> gl.textures == t0[ids[0] := Blank][ids[1] := Blank]
      invariant j == 2 ==> gl.units == u0[units[first] := ids[0]][units[first + 1] := ids[1]]
      invariant forall k :: 0 <= k < units.Length && k != first && k != first + 1 ==> units[k] == old(units[k])
      invariant gl.attachment == old(gl.attachment) && gl.bound == old(gl.bound) && gl.draws == old(gl.draws)
    {
      var name, unit;
      name, unit, bf' := NewTexture(gl, bf', Blank);
      ids[j] := name;
      units[first + j] := unit;
    }
  }

  /** u is free unit number i of bf, counting the clear bits from 0. */
  predicate NthFree(bf: nat, u: nat, i: nat)
  {
    u < UnitLimit && !Bit(bf, u) && FreeUnits(bf, u) == i
  }

  /** bf' is bf with its n lowest free units claimed as well. */
  ghost predicate ClaimedFirst(bf: nat, n: nat, bf': nat)
  {
    forall k {:trigger Bit(bf', k)} :: Bit(bf', k) == (Bit(bf, k) || FreeUnits(bf, k) < n)
  }

  /** There are no fewer clear bits below b than below a <= b. */
  lemma {:induction false} FreeUnitsMonotone(bf: nat, a: nat, b: nat)
    requires a <= b
    ensures FreeUnits(bf, a) <= FreeUnits(bf, b)
    decreases b
  {
    if a < b {
      FreeUnitsMonotone(bf, a, b - 1);
    }
  }

  /** When every clear bit below u is among the i lowest, at most i are. */
  lemma {:induction false} FreeUnitsAtMost(bf: nat, u: nat, i: nat)
    requires forall k {:trigger FreeUnits(bf, k)} :: 0 <= k < u && !Bit(bf, k) ==> FreeUnits(bf, k) < i
    ensures FreeUnits(bf, u) <= i
  {
    if u > 0 {
      FreeUnitsAtMost(bf, u - 1, i);
      if !Bit(bf, u - 1) {
        assert FreeUnits(bf, u - 1) < i;
      }
    }
  }

  /**
   * A run of allocations: once the n lowest free units of bf are claimed,
   * the lowest unit still free is free unit number n of bf.
   */
  lemma ClaimedNextUnit(bf: nat, n: nat, bfn: nat, u: nat)
    requires ClaimedFirst(bf, n, bfn) && FirstFree(bfn, {}, u)
    ensures NthFree(bf, u, n)
  {
    assert !Bit(bfn, u);
    forall k | 0 <= k < u && !Bit(bf, k)
      ensures FreeUnits(bf, k) < n
    {
      assert Bit(bfn, k);
    }
    FreeUnitsAtMost(bf, u, n);
  }

  /** Claiming free unit number n as well leaves the n + 1 lowest claimed. */
  lemma ClaimedNext(bf: nat, n: nat, bfn: nat, u: nat, bf': nat)
    requires ClaimedFirst(bf, n, bfn) && FirstFree(bfn, {}, u) && Claimed(bfn, {u}, bf')
    ensures NthFree(bf, u, n) && ClaimedFirst(bf, n + 1, bf')
  {
    ClaimedNextUnit(bf, n, bfn, u);
    assert FreeUnits(bf, u + 1) == n + 1;
    forall k: nat
      ensures Bit(bf', k) == (Bit(bf, k) || FreeUnits(bf, k) < n + 1)
    {
      ClaimedNextBit(bf, n, bfn, u, bf', k);
    }
  }

  lemma ClaimedNextBit(bf: nat, n: nat, bfn: nat, u: nat, bf': nat, k: nat)
    requires ClaimedFirst(bf, n, bfn) && FirstFree(bfn, {}, u) && Claimed(bfn, {u}, bf')
    requires NthFree(bf, u, n) && FreeUnits(bf, u + 1) == n + 1
    ensures Bit(bf', k) == (Bit(bf, k) || FreeUnits(bf, k) < n + 1)
  {
    assert Bit(bf', k) == (Bit(bfn, k) || k == u);
    assert Bit(bfn, k) == (Bit(bf, k) || FreeUnits(bf, k) < n);
    if k < u {
      assert Bit(bfn, k);
    } else if k > u {
      FreeUnitsMonotone(bf, u + 1, k);
    }
  }

  /** Different allocations of a run obtain different units. */
  lemma NthFreeDistinct(bf: nat, u: nat, i: nat, v: nat, j: nat)
    requires NthFree(bf, u, i) && NthFree(bf, v, j) && i != j
    ensures u != v
  {
  }

  // --------------------------------------------------------------- ping-pong

  /**
   * The ping-pong index the k-th pass of a sequence writes, when mWrite is w0
   * before the first pass and every pass ends with std::swap(mRead, mWrite).
   */
  function Target(k: nat, w0: int): (r: int)
    ensures (w0 == 0 || w0 == 1) ==> (r == 0 || r == 1)
  {
    if k == 0 then w0 else 1 - Target(k - 1, w0)
  }

  /** The k-th pass writes w0 again when k is even, the other index when k is odd. */
  lemma {:induction false} TargetParity(k: nat, w0: int)
    ensures Target(k, w0) == if k % 2 == 0 then w0 else 1 - w0
  {
    if k > 0 {
      TargetParity(k - 1, w0);
    }
  }

  /** Consecutive passes write the two ping-pong textures in turn. */
  lemma TargetNext(k: nat, w0: int)
    ensures Target(k + 1, w0) == 1 - Target(k, w0)
  {
  }

  /**
   * The textures after i passes of a ping-pong sequence whose first draw is
   * number base, mWrite being w afterwards: each pass renders into the
   * texture mWrite names before its swap, that is pipo[1 - w] for the last.
   */
  function TexturesAfter(t0: map<nat, Content>, pipo: seq<nat>, w: int, base: nat, i: nat): (r: map<nat, Content>)
    requires |pipo| == 2 && (w == 0 || w == 1)
    ensures forall t :: t in t0 ==> t in r
    ensures i >= 1 ==> pipo[1 - w] in r
    ensures i >= 2 ==> pipo[w] in r
    decreases i
  {
    if i == 0 then t0 else TexturesAfter(t0, pipo, 1 - w, base, i - 1)[pipo[1 - w] := Output(base + i - 1)]
  }

  /** One more pass renders into the texture mWrite named after the earlier ones. */
  lemma TexturesAfterNext(t0: map<nat, Content>, pipo: seq<nat>, w0: int, base: nat, n: nat)
    requires |pipo| == 2 && (w0 == 0 || w0 == 1)
    ensures TexturesAfter(t0, pipo, Target(n + 1, w0), base, n + 1) ==
            TexturesAfter(t0, pipo, Target(n, w0), base, n)[pipo[Target(n, w0)] := Output(base + n)]
  {
    TargetNext(n, w0);
  }

  /**
   * After i >= 1 passes, mWrite being w, the texture mRead names holds the
   * last output, the other ping-pong texture the one before it (or is
   * untouched after one pass), and every other texture is as it was.
   */
  lemma {:induction false} TexturesAfterAt(t0: map<nat, Content>, pipo: seq<nat>, w: int, base: nat, i: nat)
    requires |pipo| == 2 && pipo[0] != pipo[1] && (w == 0 || w == 1)
    ensures i >= 1 ==> TexturesAfter(t0, pipo, w, base, i)[pipo[1 - w]] == Output(base + i - 1)
    ensures i >= 2 ==> TexturesAfter(t0, pipo, w, base, i)[pipo[w]] == Output(base + i - 2)
    ensures i <= 1 && pipo[w] in t0 ==> TexturesAfter(t0, pipo, w, base, i)[pipo[w]] == t0[pipo[w]]
    ensures forall t :: t in t0 && t != pipo[0] && t != pipo[1] ==>
      t in TexturesAfter(t0, pipo, w, base, i) && TexturesAfter(t0, pipo, w, base, i)[t] == t0[t]
    decreases i
  {
    if i > 0 {
      TexturesAfterAt(t0, pipo, 1 - w, base, i - 1);
    }
  }
}
