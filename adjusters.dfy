/**
 * The clamped adjusters `adjustSpeed` and `adjustFontSize`. Speed is held in integer tenths
 * (1.0x is 10), so the one-decimal rounding the scripts apply after clamping is exact here;
 * font size is an integer number of pixels.
 */
module Adjusters {

  const MinSpeedTenths := 1
  const MaxSpeedTenths := 50
  const DefaultSpeedTenths := 10

  const MinFontSize := 12
  const MaxFontSize := 72
  const DefaultFontSize := 24

  function Min(a: int, b: int): int { if a <= b then a else b }

  function Max(a: int, b: int): int { if a >= b then a else b }

  /** `Math.max(lo, Math.min(hi, x))`: the value of [lo, hi] nearest to x. */
  function Clamp(x: int, lo: int, hi: int): (r: int)
    requires lo <= hi
    ensures lo <= r <= hi
    ensures lo <= x <= hi ==> r == x
    ensures x < lo ==> r == lo
    ensures hi < x ==> r == hi
  {
    Max(lo, Min(hi, x))
  }

  /** The speed, in tenths, after `adjustSpeed(delta / 10)`. */
  function AdjustedSpeed(tenths: int, delta: int): (r: int)
    ensures MinSpeedTenths <= r <= MaxSpeedTenths
    ensures tenths == MaxSpeedTenths && delta >= 0 ==> r == MaxSpeedTenths
    ensures tenths == MinSpeedTenths && delta <= 0 ==> r == MinSpeedTenths
    ensures MinSpeedTenths <= tenths + delta <= MaxSpeedTenths ==> r == tenths + delta
  {
    Clamp(tenths + delta, MinSpeedTenths, MaxSpeedTenths)
  }

  /** The font size after `adjustFontSize(delta)`. */
  function AdjustedFontSize(size: int, delta: int): (r: int)
    ensures MinFontSize <= r <= MaxFontSize
    ensures size % 2 == 0 && delta % 2 == 0 ==> r % 2 == 0
    ensures MinFontSize <= size + delta <= MaxFontSize ==> r == size + delta
  {
    Clamp(size + delta, MinFontSize, MaxFontSize)
  }

  /** The value after n presses of a control that adds `d` and clamps each time. */
  function Pressed(x: int, d: int, n: nat, lo: int, hi: int): int
    requires lo <= hi
  {
    if n == 0 then x else Clamp(Pressed(x, d, n - 1, lo, hi) + d, lo, hi)
  }

  /** How far n presses of a step `d` travel before any clamping. */
  function Travel(d: int, n: nat): (t: int)
    ensures d >= 0 ==> t >= 0
    ensures d <= 0 ==> t <= 0
  {
    if n == 0 then 0 else Travel(d, n - 1) + d
  }

  lemma {:induction false} TravelIsProduct(d: int, n: nat)
    ensures Travel(d, n) == n * d
  {
    if n > 0 {
      TravelIsProduct(d, n - 1);
      assert n * d == (n - 1) * d + d;
    }
  }

  /** One more press from where the earlier ones have got to: a value already past a limit lies in
      the direction of travel, so clamping it first changes nothing. */
  lemma ClampStep(p: int, d: int, lo: int, hi: int)
    requires lo <= hi
    requires p > hi ==> d >= 0
    requires p < lo ==> d <= 0
    ensures Clamp(Clamp(p, lo, hi) + d, lo, hi) == Clamp(p + d, lo, hi)
  {
  }

  lemma {:induction false} PressedTravels(x: int, d: int, n: nat, lo: int, hi: int)
    requires lo <= x <= hi
    ensures Pressed(x, d, n, lo, hi) == Clamp(x + Travel(d, n), lo, hi)
  {
    if n > 0 {
      PressedTravels(x, d, n - 1, lo, hi);
      ClampStep(x + Travel(d, n - 1), d, lo, hi);
    }
  }

  /** Pressing a control n times from an in-range value lands where one press of n times the
      step would: once the limit is reached, further presses in that direction change nothing. */
  lemma PressedIsOneClamp(x: int, d: int, n: nat, lo: int, hi: int)
    requires lo <= x <= hi
    ensures Pressed(x, d, n, lo, hi) == Clamp(x + n * d, lo, hi)
  {
    PressedTravels(x, d, n, lo, hi);
    TravelIsProduct(d, n);
  }
}
