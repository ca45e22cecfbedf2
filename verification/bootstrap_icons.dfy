/**
 * The classifier copy in dash_bootstrap_test.py. Its temperature cascade
 * starts at `0 <= value < 5`, so it has no band for negative readings, and
 * its [25, 30) icon carries the size class `fa-10` where every other icon
 * carries `fa-10x`. Its rain classifier is the same as the other copies'.
 */
module BootstrapIcons {
  import opened Wrappers
  import opened Intervals
  import opened Icons

  /** The temperature bands of this copy; negatives fall through to the fallback. */
  const BootstrapTempTable: Table<Outcome> := [
    (Below(0), GetInside),
    (HalfOpen(0, 5), Icon(TemperatureEmpty)),
    (HalfOpen(5, 10), Icon(TemperatureQuarter)),
    (HalfOpen(10, 20), Icon(TemperatureHalf)),
    (HalfOpen(20, 25), Icon(TemperatureThreeQuarters)),
    (HalfOpen(25, 30), Icon(TemperatureFull)),
    (AtLeast(30), GetInside)
  ]

  /** The cascade of this copy's `map_temp_to_icon`, in the source's order. */
  function TempOutcome(v: real): (o: Outcome)
    ensures forall i | 0 <= i < |BootstrapTempTable| && Contains(BootstrapTempTable[i].0, v) ::
      BootstrapTempTable[i].1 == o
    ensures o != Icon(Snowflake)
  {
    if 0.0 <= v < 5.0 then Icon(TemperatureEmpty)
    else if 5.0 <= v < 10.0 then Icon(TemperatureQuarter)
    else if 10.0 <= v < 20.0 then Icon(TemperatureHalf)
    else if 20.0 <= v < 25.0 then Icon(TemperatureThreeQuarters)
    else if 25.0 <= v < 30.0 then Icon(TemperatureFull)
    else GetInside
  }

  lemma BootstrapTempTableIsPartition()
    ensures Covers(BootstrapTempTable) && Disjoint(BootstrapTempTable)
  {
    assert Chain(BootstrapTempTable);
    ChainIsPartition(BootstrapTempTable);
  }

  lemma BootstrapTempWhichBand(v: real, o: Outcome)
    ensures TempOutcome(v) == o <==> Shows(BootstrapTempTable, v, o)
  {
    BootstrapTempTableIsPartition();
    assert Located(BootstrapTempTable, v);
  }

  /** The two copies agree on every non-negative reading and disagree on every
      negative one: there the other copy shows a snowflake, this one the text. */
  lemma AgreesWithSharedCopy(v: real)
    ensures 0.0 <= v ==> TempOutcome(v) == Icons.TempOutcome(v)
    ensures v < 0.0 ==> TempOutcome(v) == GetInside && Icons.TempOutcome(v) == Icon(Snowflake)
  {
  }

  /** The class string this copy writes for a glyph, as written: the full
      thermometer drops the `x` of the size class. */
  function ClassNameAsWritten(g: Glyph): (c: string)
    ensures c == ClassName(g) <==> g != TemperatureFull
    ensures StripClass(c).None? <==> g == TemperatureFull
  {
    if g == TemperatureFull then
      var c := "fa-solid fa-temperature-full fa-10";
      assert |c| != |ClassName(g)|;
      assert c[|c| - |SizeSuffix|..] != SizeSuffix by {
        assert c[|c| - 1] == '0';
      }
      c
    else
      StripClassInverse(GlyphName(g));
      ClassName(g)
  }

  /** The element this copy's `map_temp_to_icon` returns, as written. */
  function MapTempToIconAsWritten(v: real): (e: Element)
    ensures e.Paragraph? <==> v < 0.0 || 30.0 <= v
    ensures e.Paragraph? ==> e == Paragraph(GetInsideText, GetInsideFontSize)
    ensures 0.0 <= v < 25.0 ==> e == Icons.MapTempToIcon(v)
    ensures 25.0 <= v < 30.0 ==> e == IconElement("fa-solid fa-temperature-full fa-10")
  {
    match TempOutcome(v)
    case Icon(g) => IconElement(ClassNameAsWritten(g))
    case GetInside => Paragraph(GetInsideText, GetInsideFontSize)
  }

  /** The dashboard's icons all end in the 10x size class. */
  predicate HasSizeClass(e: Element) {
    e.IconElement? ==> |e.className| >= |SizeSuffix| && e.className[|e.className| - |SizeSuffix|..] == SizeSuffix
  }

  /** As written, every reading in [25, 30), 27 degrees for one, renders an
      icon without the 10x size class, which the dashboard cannot recognise
      as any glyph. */
  lemma FullThermometerLacksSizeClass(v: real)
    requires 25.0 <= v < 30.0
    ensures MapTempToIconAsWritten(v).IconElement?
    ensures !HasSizeClass(MapTempToIconAsWritten(v))
    ensures Recognise(MapTempToIconAsWritten(v)) == None
  {
    var c := MapTempToIconAsWritten(v).className;
    assert c == ClassNameAsWritten(TemperatureFull);
    assert c[|c| - |SizeSuffix|..] != SizeSuffix by {
      assert c[|c| - 1] == '0';
    }
  }

  /** This copy's `map_temp_to_icon` with the size class corrected to `fa-10x`. */
  function MapTempToIcon(v: real): (e: Element)
    ensures e.Paragraph? <==> v < 0.0 || 30.0 <= v
    ensures HasSizeClass(e)
    ensures Recognise(e) == Some(TempOutcome(v))
  {
    var o := TempOutcome(v);
    RenderRoundTrip(o);
    if o.Icon? then
      var c := ClassName(o.glyph);
      assert c[|c| - |SizeSuffix|..] == SizeSuffix;
      Render(o)
    else
      Render(o)
  }

  /** Corrected, this copy renders exactly what the shared copy renders on
      every non-negative reading. */
  lemma CorrectedMatchesSharedCopy(v: real)
    requires 0.0 <= v
    ensures MapTempToIcon(v) == Icons.MapTempToIcon(v)
  {
  }
}
