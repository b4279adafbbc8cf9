/** The bird's vertical motion: one tick of the physics step at the head of `update`. */
module Physics {
  import opened Arith

  /** Downward acceleration per tick while the player is not holding. */
  const Gravity: real := 0.08
  /** Upward acceleration per tick while holding; the source ties it to Gravity. */
  const Lift: real := Gravity
  /** Damping factor applied to the falling velocity every tick. */
  const FallDamp: real := 0.99
  /** Vertical speed limit, in pixels per tick, in both directions. */
  const MaxSpeed: real := 6.0

  /** The bird: fixed horizontal position, vertical position, radius and vertical velocity. */
  datatype Bird = Bird(x: real, y: real, r: real, vy: real)

  /**
   * The velocity after the hold or fall update of one tick, before the speed
   * limit: holding always pushes it upward; falling pushes it downward exactly
   * while it is below the damped terminal speed 7.92.
   */
  function RawVelocity(vy: real, holding: bool): (v: real)
    ensures holding ==> v < vy
    ensures !holding ==> (v > vy <==> vy < 7.92)
  {
    if holding then vy - Lift else (vy + Gravity) * FallDamp
  }

  /** One physics tick: accelerate, limit the speed to [-6, 6], then move by the limited speed. */
  function Step(b: Bird, holding: bool): (next: Bird)
    ensures -MaxSpeed <= next.vy <= MaxSpeed
    ensures next.y == b.y + next.vy
    ensures next.x == b.x && next.r == b.r
    ensures -MaxSpeed <= RawVelocity(b.vy, holding) <= MaxSpeed ==> next.vy == RawVelocity(b.vy, holding)
    ensures RawVelocity(b.vy, holding) > MaxSpeed ==> next.vy == MaxSpeed
    ensures RawVelocity(b.vy, holding) < -MaxSpeed ==> next.vy == -MaxSpeed
  {
    var v := Max(Min(RawVelocity(b.vy, holding), MaxSpeed), -MaxSpeed);
    b.(y := b.y + v, vy := v)
  }

  /** The bird after `n` consecutive ticks with the input held. */
  function HoldTicks(b: Bird, n: nat): Bird
  {
    if n == 0 then b else Step(HoldTicks(b, n - 1), true)
  }

  /**
   * Holding from a velocity within the limit lowers the velocity by exactly Lift
   * each tick until it reaches -6, and it stays at -6 from then on.
   */
  lemma {:induction false} HoldVelocity(b: Bird, n: nat)
    requires -MaxSpeed <= b.vy <= MaxSpeed
    ensures HoldTicks(b, n).vy == Max(-MaxSpeed, b.vy - Lift * n as real)
  {
    if n > 0 {
      HoldVelocity(b, n - 1);
    }
  }

  /**
   * Not holding never makes a bird within the speed limit rise faster, and
   * below the limit it always gains downward speed.
   */
  lemma FallAccelerates(b: Bird)
    requires -MaxSpeed <= b.vy <= MaxSpeed
    ensures Step(b, false).vy >= b.vy
    ensures b.vy < MaxSpeed ==> Step(b, false).vy > b.vy
  {
  }
}
