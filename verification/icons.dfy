/**
 * The icon classifiers of the weather cards: `map_temp_to_icon` and
 * `map_rain_to_icon`, as written in aggregated_live_dash.py and (identically)
 * in live_dashboard_values.py.
 *
 * Each classifier is an if/elif cascade over a reading. Its partner is a band
 * table: an ordered list of half-open bands and the outcome each one shows.
 * The lemmas prove that the cascade shows, for every reading, the outcome of
 * the one band that contains it.
 */
module Icons {
  import opened Wrappers
  import opened Intervals

  /** The Font Awesome glyphs the cards use. */
  datatype Glyph =
    | Snowflake
    | TemperatureEmpty
    | TemperatureQuarter
    | TemperatureHalf
    | TemperatureThreeQuarters
    | TemperatureFull
    | Sun
    | CloudSun
    | Cloud
    | CloudRain
    | CloudShowersHeavy

  /** What a classifier picks: an icon, or the "Get inside!" fallback text. */
  datatype Outcome = Icon(glyph: Glyph) | GetInside

  /** The Dash element a classifier returns: `html.I(className=…)` for an
      icon, `html.P(text, style={"fontSize": …})` for the fallback. */
  datatype Element = IconElement(className: string) | Paragraph(text: string, fontSize: string)

  const StylePrefix: string := "fa-solid fa-"
  const SizeSuffix: string := " fa-10x"
  const GetInsideText: string := "Get inside!"
  const GetInsideFontSize: string := "40px"

  /** The Font Awesome name of a glyph. */
  function GlyphName(g: Glyph): string {
    match g
    case Snowflake => "snowflake"
    case TemperatureEmpty => "temperature-empty"
    case TemperatureQuarter => "temperature-quarter"
    case TemperatureHalf => "temperature-half"
    case TemperatureThreeQuarters => "temperature-three-quarters"
    case TemperatureFull => "temperature-full"
    case Sun => "sun"
    case CloudSun => "cloud-sun"
    case Cloud => "cloud"
    case CloudRain => "cloud-rain"
    case CloudShowersHeavy => "cloud-showers-heavy"
  }

  /** The glyph with a given Font Awesome name, if any. */
  function GlyphNamed(name: string): (r: Option<Glyph>)
    ensures r.Some? ==> GlyphName(r.value) == name
  {
    if name == "snowflake" then Some(Snowflake)
    else if name == "temperature-empty" then Some(TemperatureEmpty)
    else if name == "temperature-quarter" then Some(TemperatureQuarter)
    else if name == "temperature-half" then Some(TemperatureHalf)
    else if name == "temperature-three-quarters" then Some(TemperatureThreeQuarters)
    else if name == "temperature-full" then Some(TemperatureFull)
    else if name == "sun" then Some(Sun)
    else if name == "cloud-sun" then Some(CloudSun)
    else if name == "cloud" then Some(Cloud)
    else if name == "cloud-rain" then Some(CloudRain)
    else if name == "cloud-showers-heavy" then Some(CloudShowersHeavy)
    else None
  }

  /** Every glyph is found again under its own name. */
  lemma GlyphNamedInverse(g: Glyph)
    ensures GlyphNamed(GlyphName(g)) == Some(g)
  {
  }

  /** The class string of a solid glyph at the dashboard's 10x size. */
  function ClassName(g: Glyph): string {
    StylePrefix + GlyphName(g) + SizeSuffix
  }

  /** The glyph name inside a class string of the dashboard's form, if it has that form. */
  function StripClass(c: string): (r: Option<string>)
    ensures r.Some? ==> c == StylePrefix + r.value + SizeSuffix
  {
    if |c| >= |StylePrefix| + |SizeSuffix|
       && c[..|StylePrefix|] == StylePrefix
       && c[|c| - |SizeSuffix|..] == SizeSuffix
    then
      var name := c[|StylePrefix|..|c| - |SizeSuffix|];
      assert c == c[..|StylePrefix|] + name + c[|c| - |SizeSuffix|..];
      Some(name)
    else None
  }

  lemma {:induction false} StripClassInverse(name: string)
    ensures StripClass(StylePrefix + name + SizeSuffix) == Some(name)
  {
    var c := StylePrefix + name + SizeSuffix;
    assert c[..|StylePrefix|] == StylePrefix;
    assert c[|c| - |SizeSuffix|..] == SizeSuffix;
    assert c[|StylePrefix|..|c| - |SizeSuffix|] == name;
  }

  /** The element a classifier outcome is rendered as. */
  function Render(o: Outcome): Element {
    match o
    case Icon(g) => IconElement(ClassName(g))
    case GetInside => Paragraph(GetInsideText, GetInsideFontSize)
  }

  /** Reads back the outcome an element shows, if it is one the dashboard renders. */
  function Recognise(e: Element): Option<Outcome> {
    match e
    case IconElement(c) =>
      (match StripClass(c)
       case None => None
       case Some(name) =>
         (match GlyphNamed(name)
          case None => None
          case Some(g) => Some(Icon(g))))
    case Paragraph(text, size) =>
      if text == GetInsideText && size == GetInsideFontSize then Some(GetInside) else None
  }

  /** Rendering loses nothing: the outcome is recovered from the element, so
      two different outcomes never render alike. */
  lemma RenderRoundTrip(o: Outcome)
    ensures Recognise(Render(o)) == Some(o)
  {
    if o.Icon? {
      StripClassInverse(GlyphName(o.glyph));
      GlyphNamedInverse(o.glyph);
    }
  }

  lemma RenderInjective(a: Outcome, b: Outcome)
    ensures Render(a) == Render(b) ==> a == b
  {
    RenderRoundTrip(a);
    RenderRoundTrip(b);
  }

  // ---------------------------------------------------------------- temperature

  /** The temperature bands, coldest first. */
  const TempTable: Table<Outcome> := [
    (Below(0), Icon(Snowflake)),
    (HalfOpen(0, 5), Icon(TemperatureEmpty)),
    (HalfOpen(5, 10), Icon(TemperatureQuarter)),
    (HalfOpen(10, 20), Icon(TemperatureHalf)),
    (HalfOpen(20, 25), Icon(TemperatureThreeQuarters)),
    (HalfOpen(25, 30), Icon(TemperatureFull)),
    (AtLeast(30), GetInside)
  ]

  /** `map_temp_to_icon`: the cascade of comparisons, in the source's order. */
  function TempOutcome(v: real): (o: Outcome)
    ensures forall i | 0 <= i < |TempTable| && Contains(TempTable[i].0, v) :: TempTable[i].1 == o
  {
    if v < 0.0 then Icon(Snowflake)
    else if 0.0 <= v < 5.0 then Icon(TemperatureEmpty)
    else if 5.0 <= v < 10.0 then Icon(TemperatureQuarter)
    else if 10.0 <= v < 20.0 then Icon(TemperatureHalf)
    else if 20.0 <= v < 25.0 then Icon(TemperatureThreeQuarters)
    else if 25.0 <= v < 30.0 then Icon(TemperatureFull)
    else GetInside
  }

  /** The element `map_temp_to_icon` returns. */
  function MapTempToIcon(v: real): (e: Element)
    ensures e.Paragraph? <==> 30.0 <= v
    ensures Recognise(e) == Some(TempOutcome(v))
  {
    RenderRoundTrip(TempOutcome(v));
    Render(TempOutcome(v))
  }

  lemma TempTableIsChain()
    ensures Chain(TempTable)
  {
  }

  /** The temperature bands are contiguous and non-overlapping and cover every reading. */
  lemma TempTableIsPartition()
    ensures Covers(TempTable) && Disjoint(TempTable)
  {
    TempTableIsChain();
    ChainIsPartition(TempTable);
  }

  /** Which bin: the cascade shows `o` exactly when `v` lies in a band showing `o`. */
  lemma TempWhichBand(v: real, o: Outcome)
    ensures TempOutcome(v) == o <==> Shows(TempTable, v, o)
  {
    TempTableIsPartition();
    assert Located(TempTable, v);
  }

  // ---------------------------------------------------------------- precipitation

  /** The precipitation bands, lowest first; both ends show the fallback text. */
  const RainTable: Table<Outcome> := [
    (Below(0), GetInside),
    (Point(0), Icon(Sun)),
    (Open(0, 1), Icon(CloudSun)),
    (HalfOpen(1, 2), Icon(Cloud)),
    (HalfOpen(2, 4), Icon(CloudRain)),
    (HalfOpen(4, 8), Icon(CloudShowersHeavy)),
    (AtLeast(8), GetInside)
  ]

  /** `map_rain_to_icon`: the cascade of comparisons, in the source's order. */
  function RainOutcome(v: real): (o: Outcome)
    ensures forall i | 0 <= i < |RainTable| && Contains(RainTable[i].0, v) :: RainTable[i].1 == o
  {
    if v == 0.0 then Icon(Sun)
    else if 0.0 < v < 1.0 then Icon(CloudSun)
    else if 1.0 <= v < 2.0 then Icon(Cloud)
    else if 2.0 <= v < 4.0 then Icon(CloudRain)
    else if 4.0 <= v < 8.0 then Icon(CloudShowersHeavy)
    else GetInside
  }

  /** The element `map_rain_to_icon` returns. */
  function MapRainToIcon(v: real): (e: Element)
    ensures e.Paragraph? <==> v < 0.0 || 8.0 <= v
    ensures Recognise(e) == Some(RainOutcome(v))
  {
    RenderRoundTrip(RainOutcome(v));
    Render(RainOutcome(v))
  }

  lemma RainTableIsChain()
    ensures Chain(RainTable)
  {
  }

  lemma RainTableIsPartition()
    ensures Covers(RainTable) && Disjoint(RainTable)
  {
    RainTableIsChain();
    ChainIsPartition(RainTable);
  }

  lemma RainWhichBand(v: real, o: Outcome)
    ensures RainOutcome(v) == o <==> Shows(RainTable, v, o)
  {
    RainTableIsPartition();
    assert Located(RainTable, v);
  }

  /** An integer reading never shows the cloud-sun icon: its band (0, 1) holds no integer. */
  lemma NoCloudSunForIntegers(n: int)
    ensures RainOutcome(n as real) != Icon(CloudSun)
  {
  }
}
