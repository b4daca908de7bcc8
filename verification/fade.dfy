/**
  The fade pattern generator: a free-running triangle wave computed from the
  millisecond clock, a speed (right shift of the clock) and a phase offset.
  The firmware computes it in 8-bit arithmetic; the contract of FadePattern
  states it on unbounded integers, so the truncations play no part.
 */
module Fade {

  /** The fold of a 5-bit position into the ramp 0..16 and back down 14..0. */
  function Triangle(x: int): (r: int)
    requires 0 <= x < 32
    ensures 0 <= r <= 16
    ensures x <= 16 ==> r == x
    ensures 16 < x ==> r == 31 - x
  {
    if x <= 16 then x else 31 - x
  }

  /** Position within the 32-step period of the clock `ms` slowed down by
      `shift` and advanced by `phase`, computed on the full 32-bit word. */
  function FadePosition(ms: bv32, shift: bv8, phase: bv8): (x: bv8)
    requires shift < 32
    ensures x < 32
  {
    (((ms >> (shift as bv32)) + phase as bv32) & 0x1f) as bv8
  }

  /** The value of the fade pattern as the firmware computes it, in uint8_t:
      truncating the shifted clock to 8 bits does not change the result. */
  function FadePattern(ms: bv32, shift: bv8, phase: bv8): (r: bv8)
    requires shift < 32
    ensures r <= 16
    ensures r as int == Triangle(FadePosition(ms, shift, phase) as int)
  {
    var x0 := ((ms >> (shift as bv32)) & 0xff) as bv8;
    var x := (x0 + phase) & 0x1f;
    assert x == FadePosition(ms, shift, phase);
    if x <= 0x10 then x else 0x1f - x
  }

  /** The pattern rises by one step per position up to 16, then falls. */
  lemma TriangleShape(x: int, y: int)
    requires 0 <= x <= y < 32
    ensures y <= 16 ==> Triangle(x) <= Triangle(y)
    ensures 16 <= x ==> Triangle(x) >= Triangle(y)
  {
  }

  /** The position, and so by the contract of FadePattern the pattern, is
      periodic in the clock with period 32 << shift, also across the
      wrap-around of the 32-bit clock. */
  lemma FadePeriodic(ms: bv32, shift: bv8, phase: bv8)
    requires shift <= 27
    ensures FadePosition(ms + ((32 as bv32) << (shift as bv32)), shift, phase) == FadePosition(ms, shift, phase)
  {
  }

  /** At the two speeds the controller uses, one clock tick leaves the
      position alone or advances it by one, modulo 32, including at the
      wrap-around of the 32-bit clock. */
  lemma PositionStep(ms: bv32, shift: bv8, phase: bv8)
    requires shift == 4 || shift == 6
    ensures var x, y := FadePosition(ms, shift, phase), FadePosition(ms + 1, shift, phase);
            y == x || y == (x + 1) & 0x1f
  {
  }

  /** At the two speeds the controller uses, one clock tick moves the
      pattern by at most two steps, including at the wrap-around of the
      32-bit clock: the animation never jumps. */
  lemma FadeContinuous(ms: bv32, shift: bv8, phase: bv8)
    requires shift == 4 || shift == 6
    ensures -2 <= FadePattern(ms + 1, shift, phase) as int - FadePattern(ms, shift, phase) as int <= 2
  {
    PositionStep(ms, shift, phase);
    PatternStep(FadePattern(ms, shift, phase), FadePattern(ms + 1, shift, phase),
                FadePosition(ms, shift, phase), FadePosition(ms + 1, shift, phase));
  }

  lemma PatternStep(a: bv8, b: bv8, x: bv8, y: bv8)
    requires x < 32 && (y == x || y == (x + 1) & 0x1f)
    requires a as int == Triangle(x as int) && b as int == Triangle(y as int)
    ensures -2 <= b as int - a as int <= 2
  {
    StepAsInt(x, y);
    TriangleStep(x as int, y as int);
  }

  lemma StepAsInt(x: bv8, y: bv8)
    requires x < 32 && (y == x || y == (x + 1) & 0x1f)
    ensures y as int == x as int || y as int == (x as int + 1) % 32
  {
  }

  lemma TriangleStep(x: int, y: int)
    requires 0 <= x < 32 && (y == x || y == (x + 1) % 32)
    ensures -2 <= Triangle(y) - Triangle(x) <= 2
  {
  }
}
