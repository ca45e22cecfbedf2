/**
 * The readings the classifiers are fed. aggregated_live_dash.py and
 * live_dashboard_values.py truncate the forecast's floats with Python's
 * `int()` before classifying; live_dashboard_values.py and
 * dash_bootstrap_test.py draw rain (and, in the latter, temperature) with
 * `random.randint`, whose results are modelled as integers in the inclusive
 * ranges it is called with.
 */
module Readings {
  import opened Icons
  import BootstrapIcons

  /** Python's `int()` applied to a float: truncation toward zero. */
  function PyInt(x: real): (n: int)
    ensures 0.0 <= x ==> n as real <= x < n as real + 1.0
    ensures x < 0.0 ==> n as real - 1.0 < x <= n as real
  {
    if x >= 0.0 then x.Floor else -((-x).Floor)
  }

  /** The icon of the current-weather temperature card: the reading is
      truncated first, so only readings at or below -1 show the snowflake.
      Every band ends at an integer, so elsewhere truncation changes nothing. */
  function TemperatureCardOutcome(reading: real): (o: Outcome)
    ensures o == Icon(Snowflake) <==> reading <= -1.0
    ensures -1.0 < reading < 5.0 ==> o == Icon(TemperatureEmpty)
    ensures o == GetInside <==> 30.0 <= reading
    ensures !(-1.0 < reading < 0.0) ==> o == Icons.TempOutcome(reading)
  {
    Icons.TempOutcome(PyInt(reading) as real)
  }

  /** The icon of the current-weather precipitation card: the reading is
      truncated first, so the cloud-sun band (0, 1) is never reached and
      every reading strictly between -1 and 1 shows the sun. Every other
      band ends at an integer, so elsewhere truncation changes nothing. */
  function PrecipitationCardOutcome(reading: real): (o: Outcome)
    ensures o != Icon(CloudSun)
    ensures o == Icon(Sun) <==> -1.0 < reading < 1.0
    ensures o == GetInside <==> reading <= -1.0 || 8.0 <= reading
    ensures !(-1.0 < reading < 1.0) ==> o == RainOutcome(reading)
  {
    RainOutcome(PyInt(reading) as real)
  }

  /** A slight frost between -1 and 0 degrees is classified as a snowflake,
      yet the card shows the empty thermometer. */
  lemma SlightFrostShowsEmptyThermometer(reading: real)
    requires -1.0 < reading < 0.0
    ensures Icons.TempOutcome(reading) == Icon(Snowflake)
    ensures TemperatureCardOutcome(reading) == Icon(TemperatureEmpty)
  {
  }

  /** Drizzle below 1 mm is classified as cloud-sun, yet the card shows the sun. */
  lemma DrizzleShowsSun(reading: real)
    requires 0.0 < reading < 1.0
    ensures RainOutcome(reading) == Icon(CloudSun)
    ensures PrecipitationCardOutcome(reading) == Icon(Sun)
  {
  }

  /** The rain icon for an integer amount, as `update_text_2` of
      live_dashboard_values.py classifies its drawn `rain_quant`. */
  function DrawnRainOutcome(n: int): (o: Outcome)
    ensures n == 0 <==> o == Icon(Sun)
    ensures n == 1 <==> o == Icon(Cloud)
    ensures 2 <= n <= 3 <==> o == Icon(CloudRain)
    ensures 4 <= n <= 7 <==> o == Icon(CloudShowersHeavy)
    ensures n < 0 || 8 <= n <==> o == GetInside
  {
    RainOutcome(n as real)
  }

  /** The temperature icon for an integer reading in the dash_bootstrap_test.py copy. */
  function DrawnTemperatureOutcome(n: int): (o: Outcome)
    ensures o.Icon? <==> 0 <= n < 30
    ensures o != Icon(Snowflake)
    ensures 0 <= n ==> o == Icons.TempOutcome(n as real)
  {
    BootstrapIcons.TempOutcome(n as real)
  }

  /** The outcomes a rain amount drawn from 0..10 can show: all but cloud-sun. */
  lemma DrawnRainOutcomes()
    ensures (set n | 0 <= n <= 10 :: DrawnRainOutcome(n))
         == {Icon(Sun), Icon(Cloud), Icon(CloudRain), Icon(CloudShowersHeavy), GetInside}
  {
    var shown := set n | 0 <= n <= 10 :: DrawnRainOutcome(n);
    assert DrawnRainOutcome(0) == Icon(Sun);
    assert DrawnRainOutcome(1) == Icon(Cloud);
    assert DrawnRainOutcome(2) == Icon(CloudRain);
    assert DrawnRainOutcome(4) == Icon(CloudShowersHeavy);
    assert DrawnRainOutcome(8) == GetInside;
    forall o | o in shown
      ensures o in {Icon(Sun), Icon(Cloud), Icon(CloudRain), Icon(CloudShowersHeavy), GetInside}
    {
      var n :| 0 <= n <= 10 && DrawnRainOutcome(n) == o;
    }
  }

  /** The outcomes an ambient temperature drawn from 0..40 can show in the
      dash_bootstrap_test.py copy: every thermometer and the fallback, never
      the snowflake. */
  lemma DrawnTemperatureOutcomes()
    ensures (set n | 0 <= n <= 40 :: DrawnTemperatureOutcome(n))
         == {Icon(TemperatureEmpty), Icon(TemperatureQuarter), Icon(TemperatureHalf),
             Icon(TemperatureThreeQuarters), Icon(TemperatureFull), GetInside}
  {
    var shown := set n | 0 <= n <= 40 :: DrawnTemperatureOutcome(n);
    assert DrawnTemperatureOutcome(0) == Icon(TemperatureEmpty);
    assert DrawnTemperatureOutcome(5) == Icon(TemperatureQuarter);
    assert DrawnTemperatureOutcome(10) == Icon(TemperatureHalf);
    assert DrawnTemperatureOutcome(20) == Icon(TemperatureThreeQuarters);
    assert DrawnTemperatureOutcome(25) == Icon(TemperatureFull);
    assert DrawnTemperatureOutcome(30) == GetInside;
  }

  /** A drawn ambient temperature of 30..40 shows the fallback text. */
  lemma DrawnHeatGetsInside(n: int)
    requires 30 <= n <= 40
    ensures BootstrapIcons.TempOutcome(n as real) == GetInside
    ensures BootstrapIcons.MapTempToIconAsWritten(n as real) == Paragraph(GetInsideText, GetInsideFontSize)
  {
  }
}
