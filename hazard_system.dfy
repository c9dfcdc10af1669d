// Random tunnel hazards: cave-ins, gas pockets and magma flows
// (services/systems/HazardSystem.ts).

module HazardSystem {
  import opened GameTypes

  const MinDepthForHazards: real := 2000.0

  /** The state the hazard check reads. */
  datatype HazardState = HazardState(
    depth: real, hasBoss: bool, combatMinigameActive: bool, isCoolingGameActive: bool,
    isDrilling: bool, eventQueueLength: nat, integrity: real, heat: real)

  /** The partial update; None marks a field left as it was. */
  datatype HazardUpdate = HazardUpdate(integrity: Option<real>, heat: Option<real>)

  datatype HazardResult = HazardResult(update: HazardUpdate, events: seq<VisualEvent>)

  /**
   * The three random draws in the order the source makes them: the
   * trigger draw, the hazard roll and the cave-in damage draw.
   */
  datatype HazardDraws = HazardDraws(trigger: real, hazardRoll: real, damageDraw: real)

  /** Hazards are off shallower than 2 km, during a boss, a combat minigame or the cooling game, and when not drilling. */
  predicate Suppressed(s: HazardState)
  {
    s.depth < MinDepthForHazards || s.hasBoss || s.combatMinigameActive || s.isCoolingGameActive || !s.isDrilling
  }

  /** The per-second chance: 0.5% growing with depth to 2%, halved with QUANTUM_STABILITY. */
  function ChancePerSecond(depth: real, perks: seq<string>): (c: real)
    ensures "QUANTUM_STABILITY" !in perks ==> 0.005 <= c <= 0.02
    ensures "QUANTUM_STABILITY" in perks ==> 0.0025 <= c <= 0.01
  {
    var deepness := Max(0.0, depth - MinDepthForHazards);
    var chance := Min(0.02, 0.005 + deepness / 2000000.0);
    if "QUANTUM_STABILITY" in perks then chance * 0.5 else chance
  }

  /** The chance grows with depth, up to the cap. */
  lemma ChanceMonotone(d1: real, d2: real, perks: seq<string>)
    requires d1 <= d2
    ensures ChancePerSecond(d1, perks) <= ChancePerSecond(d2, perks)
  {
  }

  /** The cave-in's base damage: floor(10·draw) + 5. */
  function BaseDamage(draw: real): (dmg: int)
    requires 0.0 <= draw < 1.0
    ensures 5 <= dmg <= 14
  {
    (draw * 10.0).Floor + 5
  }

  /** `baseDmg · (1 − resist/100)`, kept as one term. */
  function Resisted(baseDmg: int, resistMultiplier: real): real
  {
    baseDmg as real * resistMultiplier
  }

  /** The cave-in's damage after hazard resistance, floored. */
  function CaveInDamage(draw: real, hazardResist: real): (dmg: real)
    requires 0.0 <= draw < 1.0
    ensures 0.0 <= hazardResist <= 100.0 ==> 0.0 <= dmg <= 14.0
    ensures hazardResist == 0.0 ==> dmg == BaseDamage(draw) as real
  {
    var resistMultiplier := 1.0 - hazardResist / 100.0;
    var d := Resisted(BaseDamage(draw), resistMultiplier);
    assert 0.0 <= hazardResist <= 100.0 ==> 0.0 <= d <= 14.0 by {
      if 0.0 <= hazardResist <= 100.0 {
        MultiplierBound(BaseDamage(draw), resistMultiplier);
      }
    }
    Floor(d)
  }

  lemma MultiplierBound(b: int, m: real)
    requires 5 <= b <= 14 && 0.0 <= m <= 1.0
    ensures 0.0 <= Resisted(b, m) <= 14.0
  {
    var x := b as real;
    var rest := 1.0 - m;
    assert x * rest >= 0.0;
    assert x * m == x - x * rest;
    assert x * m >= 0.0;
  }

  /**
   * `processHazards`: when not suppressed, with an empty event queue and a
   * trigger draw below chance·dt, the hazard roll picks a cave-in (below
   * 0.4, only above 20 integrity), a gas pocket (below 0.7, only under 80
   * heat) or a magma flow (only deeper than 15 km and under 70 heat).
   */
  function ProcessHazards(s: HazardState, hazardResist: real, dt: real, perks: seq<string>, d: HazardDraws): (r: HazardResult)
    requires 0.0 <= d.damageDraw < 1.0
    ensures Suppressed(s) || s.eventQueueLength > 0 ==> r == HazardResult(HazardUpdate(None, None), [])
    ensures r.update.integrity.None? || r.update.heat.None?
    ensures r.update.integrity.Some? ==>
              s.integrity > 20.0 && d.hazardRoll < 0.4 && r.update.integrity.value >= 0.0 &&
              (0.0 <= hazardResist <= 100.0 ==> s.integrity - 14.0 <= r.update.integrity.value <= s.integrity)
    ensures r.update.heat.Some? ==>
              d.hazardRoll >= 0.4 && s.heat < 80.0 && s.heat < r.update.heat.value <= 100.0
    ensures r.update.heat.Some? && d.hazardRoll >= 0.7 ==> s.depth > 15000.0 && s.heat < 70.0
    ensures (r.update.integrity.Some? || r.update.heat.Some?) ==> d.trigger < ChancePerSecond(s.depth, perks) * dt
  {
    var none := HazardResult(HazardUpdate(None, None), []);
    if Suppressed(s) then none
    else
      var chancePerSecond := ChancePerSecond(s.depth, perks);
      if s.eventQueueLength > 0 then none
      else if d.trigger < chancePerSecond * dt then
        if d.hazardRoll < 0.4 then
          if s.integrity > 20.0 then
            var finalDmg := CaveInDamage(d.damageDraw, hazardResist);
            HazardResult(HazardUpdate(Some(Max(0.0, s.integrity - finalDmg)), None), [LogAmount("hazard_cave_in", finalDmg)])
          else none
        else if d.hazardRoll < 0.7 then
          if s.heat < 80.0 then
            HazardResult(HazardUpdate(None, Some(Min(100.0, s.heat + 10.0))), [Log("hazard_gas_pocket")])
          else none
        else if s.depth > 15000.0 && s.heat < 70.0 then
          HazardResult(HazardUpdate(None, Some(Min(100.0, s.heat + 20.0))), [Log("hazard_magma_flow")])
        else none
      else none
  }

  /** The exact effects of the three hazards when they apply. */
  lemma HazardEffects(s: HazardState, hazardResist: real, dt: real, perks: seq<string>, d: HazardDraws)
    requires 0.0 <= d.damageDraw < 1.0
    requires !Suppressed(s) && s.eventQueueLength == 0 && d.trigger < ChancePerSecond(s.depth, perks) * dt
    ensures var r := ProcessHazards(s, hazardResist, dt, perks, d);
            (d.hazardRoll < 0.4 && s.integrity > 20.0 ==>
               r.update == HazardUpdate(Some(Max(0.0, s.integrity - CaveInDamage(d.damageDraw, hazardResist))), None)) &&
            (0.4 <= d.hazardRoll < 0.7 && s.heat < 80.0 ==> r.update == HazardUpdate(None, Some(Min(100.0, s.heat + 10.0)))) &&
            (d.hazardRoll >= 0.7 && s.depth > 15000.0 && s.heat < 70.0 ==>
               r.update == HazardUpdate(None, Some(Min(100.0, s.heat + 20.0))))
  {
  }

  /** A zero time step never triggers a hazard (the trigger draw is never negative). */
  lemma NoHazardInZeroTime(s: HazardState, hazardResist: real, perks: seq<string>, d: HazardDraws)
    requires 0.0 <= d.damageDraw < 1.0 && d.trigger >= 0.0
    ensures ProcessHazards(s, hazardResist, 0.0, perks, d).update == HazardUpdate(None, None)
  {
  }
}
