/**
 * The altitude-dependent atmosphere used by the flight simulator: the
 * piecewise temperature profile and the inverse-square gravity law.
 * Altitudes are in metres, temperatures in degrees Celsius, accelerations
 * in m/s^2. Floating-point values are modelled as exact reals.
 */
module Atmosphere {

  /** Acceleration due to gravity at the Earth's surface. */
  const SurfaceGravity: real := 9.81

  /** Radius of the Earth (6.371 * 10^6 m). */
  const EarthRadius: real := 6371000.0

  /** The temperature of the isothermal layer between 11 km and 25 km. */
  const LayerTemperature: real := -56.46

  /**
   * Temperature of the atmosphere at altitude `h`. The guards are tried from
   * the top down; a boundary altitude belongs to the lower layer. The three
   * guards cover every altitude, so the final branch is unreachable.
   */
  function Temperature(h: real): (t: real)
    ensures t >= LayerTemperature
    ensures t + 273.1 > 0.0
  {
    if h > 25000.0 then -131.21 + 0.00299 * h
    else if 25000.0 >= h > 11000.0 then LayerTemperature
    else if 11000.0 >= h then 15.04 - 0.00649 * h
    else assert false; 0.0
  }

  /** The coldest temperature is reached exactly on the isothermal layer. */
  lemma {:induction false} ColdestExactlyInLayer(h: real)
    ensures Temperature(h) == LayerTemperature <==> 11000.0 < h <= 25000.0
  {
    if h > 25000.0 {
      assert Temperature(h) - LayerTemperature == 0.00299 * (h - 25000.0);
    }
  }

  /** Sample values: sea level, both sides of 11 km, 25 km and 30 km. */
  lemma {:induction false} TemperatureSamples()
    ensures Temperature(0.0) == 15.04
    ensures Temperature(11000.0) == -56.35
    ensures Temperature(11000.0) - LayerTemperature == 0.11
    ensures Temperature(25000.0) == LayerTemperature
    ensures Temperature(30000.0) == -41.51
  {
  }

  /**
   * Just above 11 km the profile jumps down by 0.11 degrees, while at 25 km
   * the upper formula starts from the layer temperature, so the profile is
   * continuous there: above 25 km the excess over the layer temperature is
   * proportional to the height above 25 km.
   */
  lemma {:induction false} TemperatureAtBoundaries(h: real)
    ensures 11000.0 < h <= 25000.0 ==> Temperature(h) == Temperature(11000.0) - 0.11
    ensures h > 25000.0 ==> Temperature(h) - LayerTemperature == 0.00299 * (h - 25000.0)
  {
  }

  /**
   * The profile falls through the troposphere, is constant in the
   * isothermal layer and rises above 25 km.
   */
  lemma {:induction false} TemperatureShape(h1: real, h2: real)
    requires h1 < h2
    ensures h2 <= 11000.0 ==> Temperature(h2) < Temperature(h1)
    ensures 11000.0 < h1 && h2 <= 25000.0 ==> Temperature(h2) == Temperature(h1)
    ensures 25000.0 < h1 ==> Temperature(h1) < Temperature(h2)
  {
  }

  /**
   * Gravity at altitude `h` by the inverse-square law. The source divides by
   * (1 + h / R)^2, which is zero only at the centre of the Earth.
   */
  function Gravity(h: real): (g: real)
    requires h != -EarthRadius
    ensures g > 0.0
    ensures h >= 0.0 ==> g <= SurfaceGravity
  {
    var d := 1.0 + h / EarthRadius;
    assert d != 0.0;
    assert d * d > 0.0;
    assert h >= 0.0 ==> d * d >= 1.0 by {
      if h >= 0.0 {
        assert d >= 1.0;
        MulMonotone(1.0, d);
      }
    }
    SurfaceGravity / (d * d)
  }

  /** Squaring is strictly increasing on positive reals. */
  lemma {:induction false} MulMonotone(a: real, b: real)
    requires 0.0 < a <= b
    ensures 0.0 < a * a <= b * b
    ensures a < b ==> a * a < b * b
  {
    assert a * a <= a * b;
    assert a * b <= b * b;
    if a < b {
      assert a * a < a * b;
    }
  }

  /** Gravity at sea level is the surface value. */
  lemma {:induction false} GravityAtSeaLevel()
    ensures Gravity(0.0) == SurfaceGravity
  {
  }

  /** Above the centre of the Earth, gravity strictly decreases with altitude. */
  lemma {:induction false} GravityDecreasing(h1: real, h2: real)
    requires -EarthRadius < h1 < h2
    ensures Gravity(h2) < Gravity(h1)
  {
    var d1 := 1.0 + h1 / EarthRadius;
    var d2 := 1.0 + h2 / EarthRadius;
    assert 0.0 < d1 < d2;
    MulMonotone(d1, d2);
    DivAntitone(SurfaceGravity, d1 * d1, d2 * d2);
    assert Gravity(h1) == SurfaceGravity / (d1 * d1);
    assert Gravity(h2) == SurfaceGravity / (d2 * d2);
  }

  /** Dividing a positive number by a larger positive divisor gives less. */
  lemma {:induction false} DivAntitone(c: real, x: real, y: real)
    requires c > 0.0 && 0.0 < x < y
    ensures c / y < c / x
  {
    var a, b := c / x, c / y;
    assert a * x == c && b * y == c;
    if b >= a {
      assert b * y >= a * y;
      assert a * y > a * x;
    }
  }
}
