# Sun sweep lighting curves

A Dafny model of `sun_sweep.py`, a Home Assistant script that drives a room's
lights from one "sun position" slider (0 = dawn, 100 = dusk) and a "severity"
slider (0.5 to 2.0). For each run it computes

- one brightness envelope per zone (lounge, kitchen, atrium): a cubic-falloff
  bell around the zone's centre (30, 55, 85) whose width (25, 30, 35) is
  scaled by the severity, times the zone's maximum brightness (85, 100, 100),
  truncated and clamped to a percentage;
- one colour temperature for every tunable-white light: 5500 K until
  position 60, a linear ramp to 3500 K at 80, then to 2200 K at 100;
- an RGB gradient for the atrium colour fixtures through five colour stops,
  and a three-bucket RGB tint for the lounge colour lights chosen from the
  colour temperature;

and then sends one "turn on" command per light with a brightness, a colour
and a transition time (6 s for the lounge and kitchen, 20 s for the atrium;
some lights get their zone's brightness dimmed by 0.95 or 0.9).

Files and modules:

- `numeric.dfy`, module `Numeric`: `clamp`, `lerp` and Python's `int()`
  truncation over exact reals, plus small arithmetic lemmas.
- `envelope.dfy`, module `Envelope`: `bell`, the severity-scaled widths and
  the per-zone percentages.
- `colour.dfy`, module `Colour`: `tw_kelvin`, `atrium_rgb` and the lounge
  tint, each with an exact (untruncated) reference curve used to state
  continuity.
- `dispatch.dfy`, module `Dispatch`: the command plan as a function `Plan`,
  the script's loops as the methods `SendEach` and `Run` (proved to produce
  exactly `Plan`), and lemmas about the plan.

Python floats are modelled as Dafny `real`, which is exact. Python `int()`
is modelled as truncation toward zero (`Numeric.Trunc`). Sending a command
is modelled as appending a `Command` record to the sequence of commands sent.

The script as written has no severity brightness floor, no extra warm-down
of the colour temperature past position 85, no clamp of the Kelvin value to
a device range, no channel clamp in `atrium_rgb` and no "sunset only"
fallback for the atrium colours. Other iterations of this script add some of
these; this model follows this file and adds none of them. In particular the
atrium channels stay within 0..255 only for positions up to 100 (beyond it
the blue channel exceeds 255), and the contracts say so.

## Model

| member | source | states |
|---|---|---|
| Numeric.Trunc | sun_sweep.py:71 | `int()` truncates toward zero: for x >= 0 the result is the largest integer not above x, for x < 0 the smallest not below it |
| Numeric.Clamp | sun_sweep.py:37-38 | `clamp(v, a, b)` is one of v, a, b; lies in [a, b] when a <= b; returns v unchanged when it is in range; a when v < a; b when v > b; a when b < a |
| Numeric.ClampInt | sun_sweep.py:71-73 | clamp on ints stays in [lo, hi] when lo <= hi and leaves an in-range value unchanged |
| Numeric.ClampIntIsClamp | sun_sweep.py:37-38 | the integer clamp is the real clamp applied to integers |
| Numeric.Lerp | sun_sweep.py:40-41 | `lerp(a, b, t)` is a at t = 0, b at t = 1, and between a and b for t in [0, 1] |
| Envelope.Offset | sun_sweep.py:44 | the normalised distance equals abs(x - center) / abs(width) and is at least 1 exactly when abs(x - center) >= abs(width) |
| Envelope.Bell | sun_sweep.py:43-47 | the bell lies in [0, 1]; it is 1 exactly at the centre and 0 exactly when abs(x - center) >= abs(width) |
| Envelope.BellRises | sun_sweep.py:43-47 | for width > 0 the bell is non-decreasing left of the centre |
| Envelope.BellFalls | sun_sweep.py:43-47 | for width > 0 the bell is non-increasing right of the centre |
| Envelope.BellWidens | sun_sweep.py:43-47 | at a fixed position and centre a wider bell is never lower |
| Envelope.Width | sun_sweep.py:61 | a scaled width is non-zero exactly when the severity is, and positive when the severity is |
| Envelope.WidthMonotone | sun_sweep.py:61 | a larger severity never gives a smaller width |
| Envelope.Level | sun_sweep.py:71-73 | `clamp(int(x), 0, 100)` lies in [0, 100]; for x in [0, 100] it is the integer part of x; it is 0 below 0 and 100 from 100 up |
| Envelope.Percent | sun_sweep.py:71-73 | `clamp(int(b * max_brightness[zone]), 0, 100)` lies in [0, the zone's maximum] for a bell value b in [0, 1]; it is the maximum when b = 1 and 0 when b = 0 |
| Envelope.PercentScalesByMax | sun_sweep.py:71-73 | the per-zone percentage is the bell value times the zone's entry in the maximum-brightness table, truncated and clamped |
| Envelope.PercentMonotone | sun_sweep.py:71-73 | in every zone a larger bell value never gives a smaller percentage |
| Envelope.ZonePct | sun_sweep.py:50-73 | each zone's percentage lies in [0, the zone's maximum brightness] within [0, 100]; it is the maximum at the zone's centre and 0 at or beyond the scaled width |
| Envelope.ZonePctUnimodal | sun_sweep.py:71-73 | for severity > 0 each zone's percentage never falls as the position approaches the centre from the left and never rises past it |
| Envelope.ZonePctSeverityMonotone | sun_sweep.py:61-73 | at a fixed position a larger positive severity never gives a smaller zone percentage |
| Colour.TwKelvin | sun_sweep.py:76-84 | 5500 K for p < 60; within [2200, 5500] for every p <= 100; 3500 K at p = 80 and 2200 K at p = 100 |
| Colour.TwKelvinTruncatesCurve | sun_sweep.py:76-84 | `tw_kelvin` is the truncation of the exact curve that is flat at 5500, falls 100 K per unit to 3500 at 80 and then 65 K per unit |
| Colour.KelvinCurveContinuous | sun_sweep.py:76-84 | the exact curve is non-increasing and drops at most 100 K per unit of position, so its ramps meet at 60 and at 80 |
| Colour.TwKelvinNonIncreasing | sun_sweep.py:76-84 | `tw_kelvin` never rises as the position grows |
| Colour.TwKelvinContinuous | sun_sweep.py:76-84 | between two positions `tw_kelvin` drops by less than 100 K per unit plus one Kelvin of truncation, across both breakpoints |
| Colour.Mix | sun_sweep.py:96-105 | `int(lerp(a, b, t))` on integer end points is a at t = 0, b at t = 1, and between a and b for t in [0, 1] |
| Colour.AtriumRgb | sun_sweep.py:91-105 | (30, 50, 160) for p <= 20, (200, 20, 255) at p = 100, every channel in [0, 255] for p <= 100 |
| Colour.AtriumRgbTruncatesShade | sun_sweep.py:91-105 | `atrium_rgb` is the channel-wise truncation of the exact gradient through the five colour stops, whatever the uplight flag |
| Colour.AtriumSegmentsMeet | sun_sweep.py:91-105 | at each breakpoint 20, 40, 60 and 80 the exact gradient's value is where its next segment starts; that the source's literals form this gradient is `AtriumRgbTruncatesShade` |
| Colour.AtriumRgbAtStops | sun_sweep.py:91-105 | at positions 20, 40, 60, 80 and 100 `atrium_rgb` returns exactly the colour stops (30, 50, 160), (120, 180, 255), (255, 255, 245), (255, 140, 40) and (200, 20, 255) |
| Colour.AtriumShadeSlopes | sun_sweep.py:91-105 | the exact gradient written as per-segment slopes per unit of position |
| Colour.AtriumShadeContinuous | sun_sweep.py:91-105 | no channel of the exact gradient moves by more than 11 per unit of position |
| Colour.AtriumRgbContinuous | sun_sweep.py:91-105 | no channel of `atrium_rgb` moves by more than 11 per unit of position plus one unit of truncation |
| Colour.LoungeTint | sun_sweep.py:123-129 | the tint is a valid RGB triple; it is the cool tint (180, 200, 255) exactly when the Kelvin value is >= 5000, the neutral tint (255, 235, 200) exactly when it is in [3500, 5000), and the amber tint (255, 200, 150) exactly when it is < 3500 |
| Colour.LoungeTintByPosition | sun_sweep.py:86-129 | along the sweep the lounge tint is cool for p <= 65, neutral for 65 < p <= 80 and amber after |
| Dispatch.Scaled | sun_sweep.py:132-165 | `int(clamp(pct * factor, 0, 100))` for the factors 0.95 and 0.9 always lies in [0, 100], never exceeds a non-negative pct, and for pct in [0, 100] is the integer part of pct * factor |
| Dispatch.Batch | sun_sweep.py:113-119 | a loop's commands: one per entity, in list order, each with the loop's payload |
| Dispatch.Plan | sun_sweep.py:112-167 | the commands of one run: one per entity, command i addressing the i-th entity in the script's order (lounge white, lounge colour, kitchen, atrium white, atrium colour) |
| Dispatch.SendEach | sun_sweep.py:113-119 | sending the same payload to each entity in turn appends exactly that loop's batch to what was sent before |
| Dispatch.Run | sun_sweep.py:86-167 | the script's run sends exactly the plan's commands, in order |
| Dispatch.AllEntitiesDistinct | sun_sweep.py:14-34 | the 13 entity identifiers are pairwise distinct |
| Dispatch.EntityGroups | sun_sweep.py:14-34 | in the script's order the lounge white lights are positions 0-3, the lounge colour lights 4-7, the kitchen light 8, the atrium white lights 9-10 and the atrium colour fixtures 11-12 |
| Dispatch.PlanAddressesEachEntityOnce | sun_sweep.py:112-167 | the plan has one command per entity of every list, in the script's order, and no entity is addressed twice |
| Dispatch.PlanTransitions | sun_sweep.py:109-167 | atrium commands use transition 20, every other command transition 6 |
| Dispatch.PlanBrightness | sun_sweep.py:112-167 | every brightness is in [0, 100]; lounge white lights, the kitchen and the atrium uplight colour fixture get their zone percentage exactly; lounge colour lights get the lounge percentage dimmed by 0.95, the atrium white lights and the downlight colour fixture the atrium percentage dimmed by 0.9; so none gets more than its zone |
| Dispatch.PlanSettings | sun_sweep.py:112-167 | white lights get `tw_kelvin(pos)`, lounge colour lights the tint, both atrium colour fixtures the same `atrium_rgb` triple; for pos <= 100 every colour is in its range |

## Left out

- The Home Assistant calls `hass.services.call` and `hass.states.set` (sun_sweep.py:114-171): the model produces the commands that would be sent, not the sending.
- Reading `position` and `severity` from the trigger data with their defaults (sun_sweep.py:10-11): they are parameters of the model. The evaluator only needs severity != 0 (the division in `bell`); no other domain is assumed except where a lemma says so.
- The debug string and its status field (sun_sweep.py:170-171): display only.
- IEEE-754 rounding: values are exact reals, so the model does not reproduce float artefacts where `int()` of a value such as 3499.9999 would differ.
- The `power` parameter of `bell`: every call uses the default 3, which the model fixes.
- Entity identifiers are kept as the script's strings; nothing is assumed of them beyond being distinct.
- Colour.TwKelvinContinuous and Colour.AtriumRgbContinuous: because `int()` truncates, the source's values just past a breakpoint sit one unit below the value at the breakpoint (5499 K just past 60), so continuity is stated for the exact curves and up to one unit for the truncated values.
