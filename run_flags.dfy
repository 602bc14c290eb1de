/** DmsAutomationScriptRunFlags: a [Flags] enumeration over a 32-bit int,
    combined with bitwise OR. */
module RunFlags {

  /** The underlying 32-bit representation of the enumeration. */
  type Flags = bv32

  const None: Flags := 0
  const Lock: Flags := 1
  const ForceLock: Flags := 2
  const NoWait: Flags := 4

  /** A flag value with exactly one bit set. */
  predicate IsSingleBit(f: Flags) {
    f != 0 && f & (f - 1) == 0
  }

  /** `flag` when `on` holds, None otherwise. */
  function When(on: bool, flag: Flags): Flags {
    if on then flag else None
  }

  /** The integer values of the four constants. */
  lemma FlagValues()
    ensures None as int == 0 && Lock as int == 1 && ForceLock as int == 2 && NoWait as int == 4
  {
  }

  /** Lock, ForceLock and NoWait are single bits, pairwise disjoint. */
  lemma FlagsAreDisjointBits()
    ensures IsSingleBit(Lock) && IsSingleBit(ForceLock) && IsSingleBit(NoWait)
    ensures Lock & ForceLock == 0 && Lock & NoWait == 0 && ForceLock & NoWait == 0
  {
  }

  /** Because the bits are disjoint, OR-ing any subset of the flags gives the
      sum of their values, and each flag can be read back from the result. */
  lemma OrOfSubsetIsSum(lock: bool, forceLock: bool, noWait: bool)
    ensures var f := When(lock, Lock) | When(forceLock, ForceLock) | When(noWait, NoWait);
      && f as int == When(lock, Lock) as int + When(forceLock, ForceLock) as int + When(noWait, NoWait) as int
      && (f & Lock != 0 <==> lock)
      && (f & ForceLock != 0 <==> forceLock)
      && (f & NoWait != 0 <==> noWait)
  {
  }

  /** None is the identity of `|`. */
  lemma NoneIsIdentity(f: Flags)
    ensures f | None == f && None | f == f
  {
  }

  /** All three flags together are 7. */
  lemma AllFlagsIsSeven()
    ensures Lock | ForceLock | NoWait == 7
  {
  }
}
