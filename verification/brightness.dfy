/**
 The brightness mapper of the main loop: each raw 12-bit joystick sample is
 turned into a PWM level for one LED (X drives blue, Y drives red), the level
 being twice the sample's distance from the rest value 2048. When PWM is
 switched off by button A both LEDs are driven to level 0.
 */
module Brightness {

  /** A raw ADC sample: the converter is 12 bits wide. */
  type Sample = v: int | 0 <= v <= 4095

  /** The sample value treated as the joystick's rest position. */
  const CENTER: int := 2048

  /** The wrap (top) value every LED's PWM slice is configured with. */
  const PWM_WRAP: int := 4095

  /** The largest level the mapper can produce. */
  const MAX_LEVEL: int := 4096

  function Abs(n: int): nat {
    if n < 0 then -n else n
  }

  /** C's conversion of an `int` into a `uint16_t`: reduction modulo 2^16. */
  function ToUint16(n: int): int {
    n % 0x1_0000
  }

  /** The level computed for one sample: the conditional expression is evaluated
      in `int` and then stored into a `uint16_t`. */
  function Level(v: Sample): (r: int)
    ensures r == 2 * Abs(v - CENTER)
    ensures 0 <= r <= MAX_LEVEL
    ensures r == 0 <==> v == CENTER
    ensures r == MAX_LEVEL <==> v == 0
  {
    ToUint16(if v > CENTER then (v - CENTER) * 2 else (CENTER - v) * 2)
  }

  /** The levels written to the two LED channels in one cycle. */
  datatype Duties = Duties(blue: int, red: int)

  /** What the main loop writes to the blue (X) and red (Y) LEDs. */
  function Duty(pwmEnabled: bool, x: Sample, y: Sample): (d: Duties)
    ensures !pwmEnabled ==> d.blue == 0 && d.red == 0
    ensures pwmEnabled ==> d.blue == 2 * Abs(x - CENTER) && d.red == 2 * Abs(y - CENTER)
    ensures 0 <= d.blue <= MAX_LEVEL && 0 <= d.red <= MAX_LEVEL
  {
    if pwmEnabled then Duties(Level(x), Level(y)) else Duties(0, 0)
  }

  /** The `uint16_t` store never truncates: the level equals the untruncated
      `int` value of the conditional expression. */
  lemma NoTruncation(v: Sample)
    ensures Level(v) == (if v > CENTER then (v - CENTER) * 2 else (CENTER - v) * 2)
    ensures Level(v) < 0x1_0000
  {
  }

  /** Mirror images around the rest value give the same brightness. */
  lemma LevelSymmetric(d: int)
    requires -2047 <= d <= 2047
    ensures Level(CENTER + d) == Level(CENTER - d)
  {
  }

  /** Two samples give the same level exactly when they are equal or mirror
      images of each other around 2048. */
  lemma LevelEqualIff(v: Sample, w: Sample)
    ensures Level(v) == Level(w) <==> v == w || v + w == 2 * CENTER
  {
  }

  /** Brightness grows with the displacement from rest on either side. */
  lemma LevelMonotoneAway(v: Sample, w: Sample)
    ensures v <= w <= CENTER ==> Level(v) >= Level(w)
    ensures CENTER <= v <= w ==> Level(v) <= Level(w)
  {
  }

  /** The level exceeds the PWM wrap value only for the sample 0. */
  lemma AboveWrapOnlyAtZero(v: Sample)
    ensures Level(v) > PWM_WRAP <==> v == 0
  {
  }

  /** No cross-talk: the blue level depends only on X and the red level only on Y. */
  lemma NoCrossTalk(pwmEnabled: bool, x: Sample, y: Sample, x': Sample, y': Sample)
    ensures Duty(pwmEnabled, x, y).blue == Duty(pwmEnabled, x, y').blue
    ensures Duty(pwmEnabled, x, y).red == Duty(pwmEnabled, x', y).red
  {
  }
}
