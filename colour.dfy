/** Colour values of the sweep: the tunable-white colour temperature, the
    atrium's RGB gradient and the lounge's RGB tint. */
module Colour {
  import opened Numeric

  datatype Rgb = Rgb(red: int, green: int, blue: int)

  predicate ValidRgb(c: Rgb) {
    0 <= c.red <= 255 && 0 <= c.green <= 255 && 0 <= c.blue <= 255
  }

  /** int(lerp(a, b, t)) for integer end points. */
  function Mix(a: int, b: int, t: real): (r: int)
    ensures t == 0.0 ==> r == a
    ensures t == 1.0 ==> r == b
    ensures 0.0 <= t <= 1.0 && a <= b ==> a <= r <= b
    ensures 0.0 <= t <= 1.0 && b <= a ==> b <= r <= a
  {
    Trunc(Lerp(a as real, b as real, t))
  }

  // ---------------------------------------------------------------------
  // Tunable-white colour temperature

  /** tw_kelvin(p): 5500 K until 60, down to 3500 K at 80, down to 2200 K at 100. */
  function TwKelvin(p: real): (k: int)
    ensures p < 60.0 ==> k == 5500
    ensures p <= 100.0 ==> 2200 <= k <= 5500
    ensures p == 80.0 ==> k == 3500
    ensures p == 100.0 ==> k == 2200
  {
    if p < 60.0 then
      5500
    else if p < 80.0 then
      var t := (p - 60.0) / 20.0;
      Trunc(Lerp(5500.0, 3500.0, t))
    else
      var t := (p - 80.0) / 20.0;
      Trunc(Lerp(3500.0, 2200.0, t))
  }

  /** The exact curve that tw_kelvin truncates, stated by its slopes:
      flat, then 100 K per unit of position, then 65 K per unit. */
  ghost function KelvinCurve(p: real): real {
    if p < 60.0 then 5500.0
    else if p < 80.0 then 5500.0 - 100.0 * (p - 60.0)
    else 3500.0 - 65.0 * (p - 80.0)
  }

  lemma TwKelvinTruncatesCurve(p: real)
    ensures TwKelvin(p) == Trunc(KelvinCurve(p))
  {
  }

  /** The exact curve is non-increasing and continuous: it never drops by
      more than 100 K per unit of position, across both breakpoints. */
  lemma KelvinCurveContinuous(p1: real, p2: real)
    requires p1 <= p2
    ensures 0.0 <= KelvinCurve(p1) - KelvinCurve(p2) <= 100.0 * (p2 - p1)
  {
  }

  lemma TwKelvinNonIncreasing(p1: real, p2: real)
    requires p1 <= p2
    ensures TwKelvin(p1) >= TwKelvin(p2)
  {
    TwKelvinTruncatesCurve(p1);
    TwKelvinTruncatesCurve(p2);
    KelvinCurveContinuous(p1, p2);
    TruncMonotone(KelvinCurve(p2), KelvinCurve(p1));
  }

  /** tw_kelvin itself jumps by at most the curve's drop plus less than one
      Kelvin of truncation, so the ramps meet at 60 and at 80. */
  lemma TwKelvinContinuous(p1: real, p2: real)
    requires p1 <= p2
    ensures 0.0 <= (TwKelvin(p1) - TwKelvin(p2)) as real < 100.0 * (p2 - p1) + 1.0
  {
    TwKelvinNonIncreasing(p1, p2);
    TwKelvinTruncatesCurve(p1);
    TwKelvinTruncatesCurve(p2);
    KelvinCurveContinuous(p1, p2);
  }

  // ---------------------------------------------------------------------
  // Atrium RGB gradient

  /** atrium_rgb(p, uplight); the uplight flag is accepted and not used. */
  function AtriumRgb(p: real, uplight: bool): (c: Rgb)
    ensures p <= 20.0 ==> c == Rgb(30, 50, 160)
    ensures p == 100.0 ==> c == Rgb(200, 20, 255)
    ensures p <= 100.0 ==> ValidRgb(c)
  {
    if p <= 20.0 then
      Rgb(30, 50, 160)
    else if p <= 40.0 then
      var t := (p - 20.0) / 20.0;
      Rgb(Mix(30, 120, t), Mix(50, 180, t), Mix(160, 255, t))
    else if p <= 60.0 then
      var t := (p - 40.0) / 20.0;
      Rgb(Mix(120, 255, t), Mix(180, 255, t), Mix(255, 245, t))
    else if p <= 80.0 then
      var t := (p - 60.0) / 20.0;
      Rgb(255, Mix(255, 140, t), Mix(245, 40, t))
    else
      var t := (p - 80.0) / 20.0;
      Rgb(Mix(255, 200, t), Mix(140, 20, t), Mix(40, 255, t))
  }

  /** An RGB value with exact, untruncated channels. */
  datatype Shade = Shade(red: real, green: real, blue: real)

  /** The colours the gradient passes through at positions 20, 40, 60, 80 and 100. */
  const AtriumStops: seq<Rgb> :=
    [Rgb(30, 50, 160), Rgb(120, 180, 255), Rgb(255, 255, 245), Rgb(255, 140, 40), Rgb(200, 20, 255)]

  function Blend(from: Rgb, to: Rgb, t: real): Shade {
    Shade(Lerp(from.red as real, to.red as real, t),
          Lerp(from.green as real, to.green as real, t),
          Lerp(from.blue as real, to.blue as real, t))
  }

  /** The k-th linear segment, from stop k - 1 (t = 0) to stop k (t = 1). */
  function Segment(k: nat, t: real): Shade
    requires 1 <= k < |AtriumStops|
  {
    Blend(AtriumStops[k - 1], AtriumStops[k], t)
  }

  /** The exact gradient through the stops that atrium_rgb truncates. */
  ghost function AtriumShade(p: real): Shade {
    if p <= 20.0 then Blend(AtriumStops[0], AtriumStops[0], 0.0)
    else if p <= 40.0 then Segment(1, (p - 20.0) / 20.0)
    else if p <= 60.0 then Segment(2, (p - 40.0) / 20.0)
    else if p <= 80.0 then Segment(3, (p - 60.0) / 20.0)
    else Segment(4, (p - 80.0) / 20.0)
  }

  function TruncShade(s: Shade): Rgb {
    Rgb(Trunc(s.red), Trunc(s.green), Trunc(s.blue))
  }

  lemma AtriumRgbTruncatesShade(p: real, uplight: bool)
    ensures AtriumRgb(p, uplight) == TruncShade(AtriumShade(p))
  {
  }

  /** Adjacent segments agree: at each breakpoint 20k the gradient's value
      is where the next segment starts. */
  lemma AtriumSegmentsMeet(k: nat)
    requires 1 <= k < |AtriumStops|
    ensures AtriumShade(20.0 * k as real) == Segment(k, 0.0)
  {
  }

  /** At each breakpoint 20, 40, 60, 80 and 100 atrium_rgb takes the colour
      stop exactly: the source's own channel literals meet the stops. */
  lemma AtriumRgbAtStops(k: nat, uplight: bool)
    requires k < |AtriumStops|
    ensures AtriumRgb(20.0 * (k + 1) as real, uplight) == AtriumStops[k]
  {
  }

  /** The exact gradient written out segment by segment as slopes per unit
      of position. */
  lemma AtriumShadeSlopes(p: real)
    ensures p <= 20.0 ==> AtriumShade(p) == Shade(30.0, 50.0, 160.0)
    ensures 20.0 < p <= 40.0 ==> (AtriumShade(p) ==
      Shade(30.0 + 4.5 * (p - 20.0), 50.0 + 6.5 * (p - 20.0), 160.0 + 4.75 * (p - 20.0)))
    ensures 40.0 < p <= 60.0 ==> (AtriumShade(p) ==
      Shade(120.0 + 6.75 * (p - 40.0), 180.0 + 3.75 * (p - 40.0), 255.0 - 0.5 * (p - 40.0)))
    ensures 60.0 < p <= 80.0 ==> (AtriumShade(p) ==
      Shade(255.0, 255.0 - 5.75 * (p - 60.0), 245.0 - 10.25 * (p - 60.0)))
    ensures 80.0 < p ==> (AtriumShade(p) ==
      Shade(255.0 - 2.75 * (p - 80.0), 140.0 - 6.0 * (p - 80.0), 40.0 + 10.75 * (p - 80.0)))
  {
  }

  /** The exact gradient is continuous: no channel moves by more than
      11 per unit of position. */
  lemma AtriumShadeContinuous(p1: real, p2: real)
    requires p1 <= p2
    ensures Abs(AtriumShade(p1).red - AtriumShade(p2).red) <= 11.0 * (p2 - p1)
    ensures Abs(AtriumShade(p1).green - AtriumShade(p2).green) <= 11.0 * (p2 - p1)
    ensures Abs(AtriumShade(p1).blue - AtriumShade(p2).blue) <= 11.0 * (p2 - p1)
  {
    AtriumShadeSlopes(p1);
    AtriumShadeSlopes(p2);
  }

  /** Truncation adds less than one unit to each channel's movement. */
  lemma AtriumRgbContinuous(p1: real, p2: real, uplight: bool)
    requires p1 <= p2
    ensures Abs((AtriumRgb(p1, uplight).red - AtriumRgb(p2, uplight).red) as real) < 11.0 * (p2 - p1) + 1.0
    ensures Abs((AtriumRgb(p1, uplight).green - AtriumRgb(p2, uplight).green) as real) < 11.0 * (p2 - p1) + 1.0
    ensures Abs((AtriumRgb(p1, uplight).blue - AtriumRgb(p2, uplight).blue) as real) < 11.0 * (p2 - p1) + 1.0
  {
    AtriumRgbTruncatesShade(p1, uplight);
    AtriumRgbTruncatesShade(p2, uplight);
    AtriumShadeContinuous(p1, p2);
  }

  // ---------------------------------------------------------------------
  // Lounge RGB tint

  const CoolTint := Rgb(180, 200, 255)
  const NeutralTint := Rgb(255, 235, 200)
  const AmberTint := Rgb(255, 200, 150)

  /** The lounge's RGB tint, chosen from the colour temperature. */
  function LoungeTint(kelvin: int): (c: Rgb)
    ensures ValidRgb(c)
    ensures c == CoolTint <==> kelvin >= 5000
    ensures c == NeutralTint <==> 3500 <= kelvin < 5000
    ensures c == AmberTint <==> kelvin < 3500
  {
    if kelvin >= 5000 then CoolTint
    else if kelvin >= 3500 then NeutralTint
    else AmberTint
  }

  /** Along the sweep the tint is cool up to position 65, neutral up to 80
      and amber after. */
  lemma LoungeTintByPosition(p: real)
    ensures LoungeTint(TwKelvin(p)) ==
      if p <= 65.0 then CoolTint else if p <= 80.0 then NeutralTint else AmberTint
  {
  }
}
