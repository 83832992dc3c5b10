/** The sprite clock every animated entity shares: a frame index that wraps. */
module Animation {
  /** The frame after `frameX`: the next one, or back to 0 after `maxFrame`. */
  function Wrap(frameX: int, maxFrame: int): (f: int)
    ensures 0 <= frameX <= maxFrame ==> 0 <= f <= maxFrame
    ensures f == 0 || f == frameX + 1
  {
    if frameX < maxFrame then frameX + 1 else 0
  }

  /** `n` successive frame advances. */
  function WrapTimes(frameX: int, maxFrame: int, n: nat): int
  {
    if n == 0 then frameX else Wrap(WrapTimes(frameX, maxFrame, n - 1), maxFrame)
  }

  /** Advances split at any point: `a + b` advances are `a` advances followed by `b`. */
  lemma {:induction false} WrapTimesSplit(frameX: int, maxFrame: int, a: nat, b: nat)
    ensures WrapTimes(frameX, maxFrame, a + b) == WrapTimes(WrapTimes(frameX, maxFrame, a), maxFrame, b)
  {
    if b > 0 {
      WrapTimesSplit(frameX, maxFrame, a, b - 1);
    }
  }

  /** Below the bound the frame index simply counts the advances. */
  lemma {:induction false} WrapTimesCounts(frameX: int, maxFrame: int, n: nat)
    requires 0 <= frameX && frameX + n <= maxFrame
    ensures WrapTimes(frameX, maxFrame, n) == frameX + n
  {
    if n > 0 {
      WrapTimesCounts(frameX, maxFrame, n - 1);
    }
  }

  /** The frame index runs through 0, 1, ..., maxFrame cyclically: after maxFrame + 1
      advances the sprite is back on the frame it started from. */
  lemma {:induction false} WrapPeriod(frameX: int, maxFrame: int)
    requires 0 <= frameX <= maxFrame
    ensures WrapTimes(frameX, maxFrame, maxFrame + 1) == frameX
  {
    var up := maxFrame - frameX;
    WrapTimesCounts(frameX, maxFrame, up);
    WrapTimesSplit(frameX, maxFrame, up, 1);
    assert WrapTimes(frameX, maxFrame, up + 1) == 0;
    WrapTimesSplit(frameX, maxFrame, up + 1, frameX);
    WrapTimesCounts(0, maxFrame, frameX);
  }
}
