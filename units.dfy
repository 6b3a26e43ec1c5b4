// Texture-unit allocation from the `bfUsedTextures` bitfield, inlined in the
// `init`/`initIndependent` of every phase: `while((1<<i) & bf) ++i;` picks the
// lowest clear bit and `bf |= 1<<i` claims it.
module Units {
  import opened Phase

  /** Bit k of the bitfield bf. */
  predicate Bit(bf: nat, k: nat)
    decreases k
  {
    if k == 0 then bf % 2 == 1 else Bit(bf / 2, k - 1)
  }

  /** The unit numbers a phase may obtain: `1<<i` is only defined below 32. */
  const UnitLimit: nat := 32

  /** The number of clear bits of bf below n. */
  function FreeUnits(bf: nat, n: nat): (r: nat)
    ensures r <= n
  {
    if n == 0 then 0 else FreeUnits(bf, n - 1) + (if Bit(bf, n - 1) then 0 else 1)
  }

  lemma {:induction false} FreeUnitExists(bf: nat, n: nat)
    requires FreeUnits(bf, n) >= 1
    ensures exists k :: 0 <= k < n && !Bit(bf, k)
  {
    if Bit(bf, n - 1) {
      FreeUnitExists(bf, n - 1);
    }
  }

  /** Adding 2^i to a bitfield whose bit i is clear sets bit i and no other. */
  lemma {:induction false} ClaimBit(bf: nat, i: nat, k: nat)
    requires !Bit(bf, i)
    ensures Bit(bf + Pow2(i), k) == (k == i || Bit(bf, k))
    decreases i
  {
    if i == 0 {
      if k > 0 {
        assert (bf + 1) / 2 == bf / 2;
      }
    } else {
      assert (bf + Pow2(i)) % 2 == bf % 2;
      if k > 0 {
        assert (bf + Pow2(i)) / 2 == bf / 2 + Pow2(i - 1);
        ClaimBit(bf / 2, i - 1, k - 1);
      }
    }
  }

  lemma {:induction false} ClaimReducesFree(bf: nat, i: nat, n: nat)
    requires !Bit(bf, i)
    ensures FreeUnits(bf + Pow2(i), n) == if i < n then FreeUnits(bf, n) - 1 else FreeUnits(bf, n)
  {
    if n > 0 {
      ClaimReducesFree(bf, i, n - 1);
      ClaimBit(bf, i, n - 1);
      if i < n - 1 {
        assert FreeUnits(bf, n - 1) >= 1 by {
          FreeUnitLower(bf, i, n - 1);
        }
      }
    }
  }

  lemma {:induction false} FreeUnitLower(bf: nat, i: nat, n: nat)
    requires i < n && !Bit(bf, i)
    ensures FreeUnits(bf, n) >= 1
  {
    if i < n - 1 {
      FreeUnitLower(bf, i, n - 1);
    }
  }

  /**
   * The search loop `while((1<<i) & bf) ++i;`: the lowest clear bit, which
   * exists below 32 whenever a unit is free.
   */
  method LowestFree(bf: nat) returns (i: nat)
    requires FreeUnits(bf, UnitLimit) >= 1
    ensures i < UnitLimit && !Bit(bf, i)
    ensures forall k :: 0 <= k < i ==> Bit(bf, k)
  {
    FreeUnitExists(bf, UnitLimit);
    ghost var free :| 0 <= free < UnitLimit && !Bit(bf, free);
    i := 0;
    while Bit(bf, i)
      invariant i <= free
      invariant forall k :: 0 <= k < i ==> Bit(bf, k)
      decreases free - i
    {
      i := i + 1;
    }
  }

  /**
   * One allocation: the lowest free unit and the bitfield with that bit
   * claimed; every other bit is as before and one unit fewer is free.
   */
  method Allocate(bf: nat) returns (unit: nat, bf': nat)
    requires FreeUnits(bf, UnitLimit) >= 1
    ensures unit < UnitLimit && !Bit(bf, unit)
    ensures forall k :: 0 <= k < unit ==> Bit(bf, k)
    ensures Bit(bf', unit)
    ensures forall k :: k != unit ==> Bit(bf', k) == Bit(bf, k)
    ensures FreeUnits(bf', UnitLimit) == FreeUnits(bf, UnitLimit) - 1
  {
    unit := LowestFree(bf);
    bf' := bf + Pow2(unit);  // bf |= 1 << i, bit i being clear
    forall k {
      ClaimBit(bf, unit, k);
    }
    ClaimReducesFree(bf, unit, UnitLimit);
  }
}
