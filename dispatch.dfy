/** The commands one run of the sweep sends: one "turn on" per light entity,
    in the order the script issues them. Sending a command is modelled as
    appending it to the sequence of commands sent so far. */
module Dispatch {
  import opened Numeric
  import opened Envelope
  import opened Colour

  const LoungeTwEntities: seq<string> :=
    ["light.slope_spot", "light.music_corner", "light.reading_light", "light.music_stand"]
  const LoungeRgbEntities: seq<string> :=
    ["light.towards_slope", "light.foot_stool", "light.burner", "light.towards_axel"]
  const KitchenTwEntities: seq<string> := ["light.kitchen"]
  const AtriumRgbEntities: seq<string> :=
    ["light.table_uplight_colour", "light.table_downlight_colour"]
  const AtriumTwEntities: seq<string> :=
    ["light.table_uplight_white", "light.table_downlight_white"]

  /** Every entity, in the order the script addresses them. */
  const AllEntities: seq<string> :=
    LoungeTwEntities + LoungeRgbEntities + KitchenTwEntities + AtriumTwEntities + AtriumRgbEntities

  const TransitionFast := 6
  const TransitionSlow := 20

  /** A command carries either a colour temperature or an RGB colour. */
  datatype Setting = ColourTemp(kelvin: int) | RgbColour(rgb: Rgb)

  datatype Command = Command(entity: string, brightness: int, setting: Setting, transition: int)

  /** The two dimming factors the script applies to a zone percentage:
      0.95 for the lounge colour lights, 0.9 for the atrium lights. */
  datatype Dimming = Dim95 | Dim90

  function Factor(d: Dimming): real {
    match d
    case Dim95 => 0.95
    case Dim90 => 0.9
  }

  /** int(clamp(pct * factor, 0, 100)): a zone percentage dimmed by a factor,
      with the factor written out in each case. */
  function Scaled(pct: int, d: Dimming): (r: int)
    ensures 0 <= r <= 100
    ensures 0 <= pct <= 100 ==> r as real <= pct as real * Factor(d) < r as real + 1.0
    ensures 0 <= pct ==> r <= pct
  {
    match d
    case Dim95 => Trunc(Clamp(pct as real * 0.95, 0.0, 100.0))
    case Dim90 => Trunc(Clamp(pct as real * 0.9, 0.0, 100.0))
  }

  /** The commands of one for-loop over entities, all with the same payload. */
  function Batch(entities: seq<string>, brightness: int, setting: Setting, transition: int): (cmds: seq<Command>)
    ensures |cmds| == |entities|
    ensures forall i :: 0 <= i < |entities| ==>
      cmds[i] == Command(entities[i], brightness, setting, transition)
  {
    if entities == [] then
      []
    else
      [Command(entities[0], brightness, setting, transition)]
      + Batch(entities[1..], brightness, setting, transition)
  }

  lemma BatchAppend(entities: seq<string>, e: string, brightness: int, setting: Setting, transition: int)
    ensures Batch(entities + [e], brightness, setting, transition)
      == Batch(entities, brightness, setting, transition) + [Command(e, brightness, setting, transition)]
  {
    var lhs := Batch(entities + [e], brightness, setting, transition);
    var rhs := Batch(entities, brightness, setting, transition) + [Command(e, brightness, setting, transition)];
    assert |lhs| == |rhs|;
    forall i | 0 <= i < |lhs|
      ensures lhs[i] == rhs[i]
    {
      if i < |entities| {
        assert (entities + [e])[i] == entities[i];
      }
    }
  }

  /** Everything one run sends, for sun position pos and severity. */
  function Plan(pos: real, severity: real): (plan: seq<Command>)
    requires severity != 0.0
    ensures |plan| == |AllEntities|
    ensures forall i :: 0 <= i < |plan| ==> plan[i].entity == AllEntities[i]
  {
    var loungePct := ZonePct(Lounge, pos, severity);
    var kitchenPct := ZonePct(Kitchen, pos, severity);
    var atriumPct := ZonePct(Atrium, pos, severity);
    var kelvin := TwKelvin(pos);
    Batch(LoungeTwEntities, loungePct, ColourTemp(kelvin), TransitionFast)
    + Batch(LoungeRgbEntities, Scaled(loungePct, Dim95), RgbColour(LoungeTint(kelvin)), TransitionFast)
    + Batch(KitchenTwEntities, kitchenPct, ColourTemp(kelvin), TransitionFast)
    + Batch(AtriumTwEntities, Scaled(atriumPct, Dim90), ColourTemp(kelvin), TransitionSlow)
    + [Command(AtriumRgbEntities[0], atriumPct, RgbColour(AtriumRgb(pos, true)), TransitionSlow),
       Command(AtriumRgbEntities[1], Scaled(atriumPct, Dim90), RgbColour(AtriumRgb(pos, false)), TransitionSlow)]
  }

  /** One for-loop of the script: send the same payload to each entity in turn. */
  method SendEach(sent: seq<Command>, entities: seq<string>, brightness: int, setting: Setting, transition: int)
    returns (out: seq<Command>)
    ensures out == sent + Batch(entities, brightness, setting, transition)
  {
    out := sent;
    for i := 0 to |entities|
      invariant out == sent + Batch(entities[..i], brightness, setting, transition)
    {
      assert entities[..i + 1] == entities[..i] + [entities[i]];
      BatchAppend(entities[..i], entities[i], brightness, setting, transition);
      out := out + [Command(entities[i], brightness, setting, transition)];
    }
    assert entities[..|entities|] == entities;
  }

  /** The script's run: compute the envelopes and colours, then send the
      commands loop by loop. */
  method Run(pos: real, severity: real) returns (sent: seq<Command>)
    requires severity != 0.0
    ensures sent == Plan(pos, severity)
  {
    var loungePct := ZonePct(Lounge, pos, severity);
    var kitchenPct := ZonePct(Kitchen, pos, severity);
    var atriumPct := ZonePct(Atrium, pos, severity);
    var loungeCt := TwKelvin(pos);
    var kitchenCt := TwKelvin(pos);
    var atriumCt := TwKelvin(pos);

    sent := [];
    sent := SendEach(sent, LoungeTwEntities, loungePct, ColourTemp(loungeCt), TransitionFast);
    assert sent == Batch(LoungeTwEntities, loungePct, ColourTemp(loungeCt), TransitionFast);
    // The tint is chosen inside the script's loop; it is the same for every entity.
    var colour := LoungeTint(loungeCt);
    sent := SendEach(sent, LoungeRgbEntities, Scaled(loungePct, Dim95), RgbColour(colour), TransitionFast);
    sent := SendEach(sent, KitchenTwEntities, kitchenPct, ColourTemp(kitchenCt), TransitionFast);
    sent := SendEach(sent, AtriumTwEntities, Scaled(atriumPct, Dim90), ColourTemp(atriumCt), TransitionSlow);
    ghost var loops := sent;
    var uplight := Command(AtriumRgbEntities[0], atriumPct, RgbColour(AtriumRgb(pos, true)), TransitionSlow);
    var downlight := Command(AtriumRgbEntities[1], Scaled(atriumPct, Dim90), RgbColour(AtriumRgb(pos, false)), TransitionSlow);
    sent := sent + [uplight];
    sent := sent + [downlight];
    assert sent == loops + [uplight, downlight];
  }

  // ---------------------------------------------------------------------
  // Properties of the plan

  lemma AllEntitiesDistinct()
    ensures |AllEntities| == 13
    ensures forall i, j :: 0 <= i < j < |AllEntities| ==> AllEntities[i] != AllEntities[j]
  {
  }

  /** Which list each position of AllEntities comes from. */
  lemma EntityGroups()
    ensures forall i :: 0 <= i < |AllEntities| ==> (AllEntities[i] in LoungeTwEntities <==> i < 4)
    ensures forall i :: 0 <= i < |AllEntities| ==> (AllEntities[i] in LoungeRgbEntities <==> 4 <= i < 8)
    ensures forall i :: 0 <= i < |AllEntities| ==> (AllEntities[i] in KitchenTwEntities <==> i == 8)
    ensures forall i :: 0 <= i < |AllEntities| ==> (AllEntities[i] in AtriumTwEntities <==> 9 <= i < 11)
    ensures forall i :: 0 <= i < |AllEntities| ==> (AllEntities[i] in AtriumRgbEntities <==> 11 <= i)
  {
    AllEntitiesDistinct();
  }

  /** Every entity of every list is sent exactly one command, in list order. */
  lemma PlanAddressesEachEntityOnce(pos: real, severity: real)
    requires severity != 0.0
    ensures |Plan(pos, severity)| == |AllEntities|
    ensures forall i :: 0 <= i < |AllEntities| ==> Plan(pos, severity)[i].entity == AllEntities[i]
    ensures forall i, j :: 0 <= i < j < |Plan(pos, severity)| ==>
      Plan(pos, severity)[i].entity != Plan(pos, severity)[j].entity
  {
    AllEntitiesDistinct();
  }

  /** Lounge and kitchen lights fade fast; the atrium lights fade slowly. */
  lemma PlanTransitions(pos: real, severity: real)
    requires severity != 0.0
    ensures forall i :: 0 <= i < |Plan(pos, severity)| ==>
      Plan(pos, severity)[i].transition ==
        if Plan(pos, severity)[i].entity in AtriumTwEntities + AtriumRgbEntities
        then TransitionSlow else TransitionFast
  {
    var plan := Plan(pos, severity);
    EntityGroups();
    forall i | 0 <= i < |plan|
      ensures plan[i].transition ==
        if plan[i].entity in AtriumTwEntities + AtriumRgbEntities then TransitionSlow else TransitionFast
    {
      assert plan[i].entity == AllEntities[i];
    }
  }

  /** Every command's brightness is a percentage: the zone's own for the lounge
      white lights, the kitchen and the atrium uplight, the zone's dimmed by
      0.95 or 0.9 for the others, so never above its zone's envelope. */
  lemma PlanBrightness(pos: real, severity: real)
    requires severity != 0.0
    ensures forall i :: 0 <= i < |Plan(pos, severity)| ==> 0 <= Plan(pos, severity)[i].brightness <= 100
    ensures forall i :: 0 <= i < |Plan(pos, severity)| && Plan(pos, severity)[i].entity in LoungeTwEntities ==>
      Plan(pos, severity)[i].brightness == ZonePct(Lounge, pos, severity)
    ensures forall i :: 0 <= i < |Plan(pos, severity)| && Plan(pos, severity)[i].entity in LoungeRgbEntities ==>
      Plan(pos, severity)[i].brightness <= ZonePct(Lounge, pos, severity)
    ensures forall i :: 0 <= i < |Plan(pos, severity)| && Plan(pos, severity)[i].entity in KitchenTwEntities ==>
      Plan(pos, severity)[i].brightness == ZonePct(Kitchen, pos, severity)
    ensures forall i :: 0 <= i < |Plan(pos, severity)| && Plan(pos, severity)[i].entity in AtriumTwEntities + AtriumRgbEntities ==>
      Plan(pos, severity)[i].brightness <= ZonePct(Atrium, pos, severity)
    ensures forall i :: 0 <= i < |Plan(pos, severity)| && Plan(pos, severity)[i].entity in LoungeRgbEntities ==>
      Plan(pos, severity)[i].brightness == Scaled(ZonePct(Lounge, pos, severity), Dim95)
    ensures forall i :: 0 <= i < |Plan(pos, severity)| && Plan(pos, severity)[i].entity in AtriumTwEntities ==>
      Plan(pos, severity)[i].brightness == Scaled(ZonePct(Atrium, pos, severity), Dim90)
    ensures forall i :: 0 <= i < |Plan(pos, severity)| && Plan(pos, severity)[i].entity == AtriumRgbEntities[0] ==>
      Plan(pos, severity)[i].brightness == ZonePct(Atrium, pos, severity)
    ensures forall i :: 0 <= i < |Plan(pos, severity)| && Plan(pos, severity)[i].entity == AtriumRgbEntities[1] ==>
      Plan(pos, severity)[i].brightness == Scaled(ZonePct(Atrium, pos, severity), Dim90)
  {
    var plan := Plan(pos, severity);
    var loungePct, kitchenPct, atriumPct :=
      ZonePct(Lounge, pos, severity), ZonePct(Kitchen, pos, severity), ZonePct(Atrium, pos, severity);
    EntityGroups();
    forall i | 0 <= i < |plan|
      ensures 0 <= plan[i].brightness <= 100
      ensures plan[i].entity in LoungeTwEntities ==> plan[i].brightness == loungePct
      ensures plan[i].entity in LoungeRgbEntities ==> plan[i].brightness <= loungePct
      ensures plan[i].entity in KitchenTwEntities ==> plan[i].brightness == kitchenPct
      ensures plan[i].entity in AtriumTwEntities + AtriumRgbEntities ==> plan[i].brightness <= atriumPct
      ensures plan[i].entity in LoungeRgbEntities ==> plan[i].brightness == Scaled(loungePct, Dim95)
      ensures plan[i].entity in AtriumTwEntities ==> plan[i].brightness == Scaled(atriumPct, Dim90)
      ensures plan[i].entity == AtriumRgbEntities[0] ==> plan[i].brightness == atriumPct
      ensures plan[i].entity == AtriumRgbEntities[1] ==> plan[i].brightness == Scaled(atriumPct, Dim90)
    {
      assert plan[i].entity == AllEntities[i];
    }
  }

  /** Tunable-white lights get tw_kelvin(pos), the lounge RGB lights its tint
      and both atrium colour fixtures the same atrium_rgb triple; for a
      position within the sweep every value is in its device range. */
  lemma PlanSettings(pos: real, severity: real)
    requires severity != 0.0
    ensures forall i :: 0 <= i < |Plan(pos, severity)| && Plan(pos, severity)[i].entity in LoungeTwEntities + KitchenTwEntities + AtriumTwEntities ==>
      Plan(pos, severity)[i].setting == ColourTemp(TwKelvin(pos))
    ensures forall i :: 0 <= i < |Plan(pos, severity)| && Plan(pos, severity)[i].entity in LoungeRgbEntities ==>
      Plan(pos, severity)[i].setting == RgbColour(LoungeTint(TwKelvin(pos)))
    ensures forall i :: 0 <= i < |Plan(pos, severity)| && Plan(pos, severity)[i].entity in AtriumRgbEntities ==>
      Plan(pos, severity)[i].setting == RgbColour(AtriumRgb(pos, true))
    ensures pos <= 100.0 ==> forall i :: 0 <= i < |Plan(pos, severity)| ==> ValidSetting(Plan(pos, severity)[i].setting)
  {
    var plan := Plan(pos, severity);
    var kelvin := TwKelvin(pos);
    EntityGroups();
    forall i | 0 <= i < |plan|
      ensures plan[i].entity in LoungeTwEntities + KitchenTwEntities + AtriumTwEntities ==>
        plan[i].setting == ColourTemp(kelvin)
      ensures plan[i].entity in LoungeRgbEntities ==> plan[i].setting == RgbColour(LoungeTint(kelvin))
      ensures plan[i].entity in AtriumRgbEntities ==> plan[i].setting == RgbColour(AtriumRgb(pos, true))
      ensures pos <= 100.0 ==> ValidSetting(plan[i].setting)
    {
      assert plan[i].entity == AllEntities[i];
    }
  }

  predicate ValidSetting(s: Setting) {
    match s
    case ColourTemp(k) => 2200 <= k <= 5500
    case RgbColour(c) => ValidRgb(c)
  }
}
