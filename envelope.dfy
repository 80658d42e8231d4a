/** The brightness envelopes of the three zones: a cubic-falloff bell per
    zone, centred on the zone's position along the sweep, whose width is the
    zone's base width scaled by the severity. */
module Envelope {
  import opened Numeric

  /** The normalised distance |(x - center) / width| that the bell falls off over. */
  function Offset(x: real, center: real, width: real): (dx: real)
    requires width != 0.0
    ensures dx == Abs(x - center) / Abs(width)
    ensures dx >= 1.0 <==> Abs(x - center) >= Abs(width)
  {
    AbsQuotient(x - center, width);
    QuotientAtLeastOne(Abs(x - center), Abs(width));
    Abs((x - center) / width)
  }

  /** bell(x, center, width) with its default power 3. */
  function Bell(x: real, center: real, width: real): (r: real)
    requires width != 0.0
    ensures 0.0 <= r <= 1.0
    ensures r == 1.0 <==> x == center
    ensures r == 0.0 <==> Abs(x - center) >= Abs(width)
  {
    var dx := Offset(x, center, width);
    if dx >= 1.0 then 0.0
    else
      CubeBelowOne(dx);
      1.0 - dx * dx * dx
  }

  /** The bell only depends on the offset, and a larger offset never gives a
      larger value. */
  lemma BellByOffset(x1: real, c1: real, w1: real, x2: real, c2: real, w2: real)
    requires w1 != 0.0 && w2 != 0.0
    requires Offset(x1, c1, w1) >= Offset(x2, c2, w2)
    ensures Bell(x1, c1, w1) <= Bell(x2, c2, w2)
  {
    var d1, d2 := Offset(x1, c1, w1), Offset(x2, c2, w2);
    if d1 < 1.0 {
      CubeMonotone(d2, d1);
    }
  }

  /** Left of its centre the bell never falls as x grows. */
  lemma BellRises(x1: real, x2: real, center: real, width: real)
    requires 0.0 < width
    requires x1 <= x2 <= center
    ensures Bell(x1, center, width) <= Bell(x2, center, width)
  {
    QuotientMonotone(center - x2, center - x1, width);
    BellByOffset(x1, center, width, x2, center, width);
  }

  /** Right of its centre the bell never rises as x grows. */
  lemma BellFalls(x1: real, x2: real, center: real, width: real)
    requires 0.0 < width
    requires center <= x1 <= x2
    ensures Bell(x1, center, width) >= Bell(x2, center, width)
  {
    QuotientMonotone(x1 - center, x2 - center, width);
    BellByOffset(x2, center, width, x1, center, width);
  }

  /** A wider bell is nowhere lower than a narrower one with the same centre. */
  lemma BellWidens(x: real, center: real, w1: real, w2: real)
    requires 0.0 < w1 <= w2
    ensures Bell(x, center, w1) <= Bell(x, center, w2)
  {
    QuotientAntitone(Abs(x - center), w1, w2);
    BellByOffset(x, center, w1, x, center, w2);
  }

  datatype Zone = Lounge | Kitchen | Atrium

  function Center(z: Zone): real {
    match z
    case Lounge => 30.0
    case Kitchen => 55.0
    case Atrium => 85.0
  }

  function BaseWidth(z: Zone): real {
    match z
    case Lounge => 25.0
    case Kitchen => 30.0
    case Atrium => 35.0
  }

  function MaxBrightness(z: Zone): int {
    match z
    case Lounge => 85
    case Kitchen => 100
    case Atrium => 100
  }

  /** The zone's width scaled by the severity. */
  function Width(z: Zone, severity: real): (w: real)
    ensures w != 0.0 <==> severity != 0.0
    ensures 0.0 < severity ==> 0.0 < w
  {
    BaseWidth(z) * severity
  }

  lemma WidthMonotone(z: Zone, s1: real, s2: real)
    requires s1 <= s2
    ensures Width(z, s1) <= Width(z, s2)
  {
  }

  /** clamp(int(x), 0, 100): a brightness value turned into a percentage. */
  function Level(x: real): (r: int)
    ensures 0 <= r <= 100
    ensures 0.0 <= x <= 100.0 ==> r as real <= x < r as real + 1.0
    ensures x < 0.0 ==> r == 0
    ensures 100.0 <= x ==> r == 100
  {
    ClampInt(Trunc(x), 0, 100)
  }

  lemma LevelFacts(x: real, max: int)
    ensures 0.0 <= x <= max as real && max <= 100 ==> 0 <= Level(x) <= max
    ensures x == max as real && 0 <= max <= 100 ==> Level(x) == max
    ensures x == 0.0 ==> Level(x) == 0
  {
  }

  lemma LevelMonotone(x: real, y: real)
    requires x <= y
    ensures Level(x) <= Level(y)
  {
    TruncMonotone(x, y);
    ClampIntMonotone(Trunc(x), Trunc(y), 0, 100);
  }

  /** clamp(int(b * max_brightness[z]), 0, 100) for a bell value b, with the
      zone's maximum written out in each case. */
  function Percent(z: Zone, b: real): (pct: int)
    ensures 0.0 <= b <= 1.0 ==> 0 <= pct <= MaxBrightness(z)
    ensures b == 1.0 ==> pct == MaxBrightness(z)
    ensures b == 0.0 ==> pct == 0
  {
    match z
    case Lounge => LevelFacts(b * 85.0, 85); Level(b * 85.0)
    case Kitchen => LevelFacts(b * 100.0, 100); Level(b * 100.0)
    case Atrium => LevelFacts(b * 100.0, 100); Level(b * 100.0)
  }

  /** The per-zone products are the bell value times the zone's maximum. */
  lemma PercentScalesByMax(z: Zone, b: real)
    ensures Percent(z, b) == Level(b * MaxBrightness(z) as real)
  {
    match z
    case Lounge => assert MaxBrightness(z) as real == 85.0;
    case Kitchen => assert MaxBrightness(z) as real == 100.0;
    case Atrium => assert MaxBrightness(z) as real == 100.0;
  }

  lemma PercentMonotone(z: Zone, b1: real, b2: real)
    requires b1 <= b2
    ensures Percent(z, b1) <= Percent(z, b2)
  {
    match z
    case Lounge => LevelMonotone(b1 * 85.0, b2 * 85.0);
    case Kitchen => LevelMonotone(b1 * 100.0, b2 * 100.0);
    case Atrium => LevelMonotone(b1 * 100.0, b2 * 100.0);
  }

  /** The zone's brightness percentage at sun position pos. */
  function ZonePct(z: Zone, pos: real, severity: real): (pct: int)
    requires severity != 0.0
    ensures 0 <= pct <= MaxBrightness(z) <= 100
    ensures pos == Center(z) ==> pct == MaxBrightness(z)
    ensures Abs(pos - Center(z)) >= Abs(Width(z, severity)) ==> pct == 0
  {
    Percent(z, Bell(pos, Center(z), Width(z, severity)))
  }

  /** Each zone lights up towards its centre and fades after it. */
  lemma ZonePctUnimodal(z: Zone, p1: real, p2: real, severity: real)
    requires 0.0 < severity && p1 <= p2
    ensures p2 <= Center(z) ==> ZonePct(z, p1, severity) <= ZonePct(z, p2, severity)
    ensures Center(z) <= p1 ==> ZonePct(z, p1, severity) >= ZonePct(z, p2, severity)
  {
    var c, w := Center(z), Width(z, severity);
    if p2 <= c {
      BellRises(p1, p2, c, w);
      PercentMonotone(z, Bell(p1, c, w), Bell(p2, c, w));
    }
    if c <= p1 {
      BellFalls(p1, p2, c, w);
      PercentMonotone(z, Bell(p2, c, w), Bell(p1, c, w));
    }
  }

  /** Raising the severity widens every zone, so at a fixed position no zone
      gets darker. */
  lemma ZonePctSeverityMonotone(z: Zone, pos: real, s1: real, s2: real)
    requires 0.0 < s1 <= s2
    ensures ZonePct(z, pos, s1) <= ZonePct(z, pos, s2)
  {
    var c, w1, w2 := Center(z), Width(z, s1), Width(z, s2);
    WidthMonotone(z, s1, s2);
    BellWidens(pos, c, w1, w2);
    PercentMonotone(z, Bell(pos, c, w1), Bell(pos, c, w2));
  }
}
