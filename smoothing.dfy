/** The settled-phase smoothing: each frame the live yaw moves a fixed 0.15
    of the way to the target yaw (a frame-rate dependent low-pass filter). */
module Smoothing {

  const Factor: real := 0.15
  /** The share of the gap that is left after one frame. */
  const Remaining: real := 0.85

  /** One settled frame: `rotation.y += (targetRotationY - rotation.y) * 0.15`. */
  function Approach(yaw: real, target: real): (r: real)
    ensures target - r == Remaining * (target - yaw)
  {
    yaw + (target - yaw) * Factor
  }

  /** `n` settled frames with a fixed target. */
  function ApproachN(yaw: real, target: real, n: nat): (r: real)
    ensures target - r == Power(Remaining, n) * (target - yaw)
    decreases n
  {
    if n == 0 then yaw else Approach(ApproachN(yaw, target, n - 1), target)
  }

  function Power(b: real, n: nat): real
    decreases n
  {
    if n == 0 then 1.0 else b * Power(b, n - 1)
  }

  /** One frame keeps the side of the target the yaw is on, never overshoots,
      never widens the gap, and leaves a yaw already on target where it is. */
  lemma ApproachStep(yaw: real, target: real)
    ensures yaw <= target ==> yaw <= Approach(yaw, target) <= target
    ensures target <= yaw ==> target <= Approach(yaw, target) <= yaw
    ensures yaw == target ==> Approach(yaw, target) == target
    ensures yaw != target ==> Approach(yaw, target) != target
  {
  }

  lemma {:induction false} PowerBounds(n: nat)
    ensures 0.0 < Power(Remaining, n) <= 1.0
    decreases n
  {
    if n > 0 {
      PowerBounds(n - 1);
    }
  }

  /** Scaling a non-negative gap by a factor in (0, 1] keeps it between zero and itself. */
  lemma ShrinkGap(p: real, g: real, scaled: real)
    requires 0.0 < p <= 1.0 && 0.0 <= g && scaled == p * g
    ensures 0.0 <= scaled <= g
  {
    assert (1.0 - p) * g >= 0.0;
  }

  /** Repeated frames with a fixed target move monotonically toward it: from
      below, each frame is at least the previous one and never past the target
      (symmetrically from above). */
  lemma {:induction false} ApproachMonotone(yaw: real, target: real, n: nat)
    ensures yaw <= target ==> yaw <= ApproachN(yaw, target, n) <= ApproachN(yaw, target, n + 1) <= target
    ensures target <= yaw ==> target <= ApproachN(yaw, target, n + 1) <= ApproachN(yaw, target, n) <= yaw
  {
    PowerBounds(n);
    var p, r := Power(Remaining, n), ApproachN(yaw, target, n);
    assert ApproachN(yaw, target, n + 1) == Approach(r, target);
    ApproachStep(r, target);
    if yaw <= target {
      ShrinkGap(p, target - yaw, target - r);
    } else {
      ShrinkGap(p, yaw - target, r - target);
    }
  }

  /** Counting frames from the front or from the back gives the same yaw:
      one frame followed by n more is n + 1 frames. */
  lemma {:induction false} ApproachNShift(yaw: real, target: real, n: nat)
    ensures ApproachN(Approach(yaw, target), target, n) == ApproachN(yaw, target, n + 1)
    decreases n
  {
    if n > 0 {
      ApproachNShift(yaw, target, n - 1);
    }
  }
}
