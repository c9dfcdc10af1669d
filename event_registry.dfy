// The random-event catalogue, the effect generator and the weighted event
// roll (services/eventRegistry.ts).

module EventRegistry {
  import opened GameTypes

  /** The contexts an event can fire in. */
  datatype EventTrigger =
    | Drilling | Traveling | BaseVisit | MarketUpdate | CombatTrigger
    | GlobalMapActive | CaravanTraveling | StuckInSpace | BaseRaid

  /** The depth modifiers of the Poisson models, by event. */
  datatype DepthModifier = NoDepthModifier | GasModifier | CoalModifier | OilModifier

  /** The `calculateChance` closures of the conditional models, by event. */
  datatype ChanceRule = PirateRule | DelayRule | DefendRule

  /** An event's probability model (its numbers are evaluated elsewhere). */
  datatype ProbabilityModel =
    | NoModel
    | Poisson(lambda: real, modifier: DepthModifier)
    | DepthDecay(baseChance: real, scale: real)
    | Conditional(rule: ChanceRule)

  /** A resource granted on the spot, drawn from a clamped normal distribution. */
  datatype InstantResource = InstantResource(
    kind: string, amountMin: Option<real>, amountMax: Option<real>,
    amountMean: Option<real>, amountStdDev: Option<real>)

  /** A choice offered by an event; `risk` is shown next to it. */
  datatype EventOption = EventOption(actionId: string, risk: Option<string>)

  /**
   * A game event. Numeric fields the source leaves out are 0 here, which is
   * how the code reads them (every test is a truthiness test); `cooldown`
   * is in seconds.
   */
  datatype GameEvent = GameEvent(
    id: string,
    weight: real,
    minDepth: real,
    triggers: seq<EventTrigger> := [],
    model: ProbabilityModel := NoModel,
    effectId: Option<string> := None,
    forceArtifactDrop: bool := false,
    instantDamage: real := 0.0,
    instantDepth: real := 0.0,
    instantXp: real := 0.0,
    instantHeat: real := 0.0,
    instantResource: Option<InstantResource> := None,
    options: seq<EventOption> := [],
    cooldown: real := 0.0)

  // Option action ids.
  const TectonicHold := "tectonic_hold"
  const TectonicPush := "tectonic_push"
  const PodLaser := "pod_laser"
  const PodHack := "pod_hack"
  const AcceptFluctuation := "accept_fluctuation"
  const RejectFluctuation := "reject_fluctuation"
  const AiTrust := "ai_trust"
  const AiReboot := "ai_reboot"
  const PurgeNanomites := "purge_nanomites"
  const CrystalAbsorb := "crystal_absorb"
  const TunnelSafe := "tunnel_safe"
  const TunnelRisky := "tunnel_risky"
  const TunnelCrystal := "tunnel_crystal"
  const TunnelMine := "tunnel_mine"
  const TunnelNest := "tunnel_nest"
  const BlackMarketBuy := "black_market_buy"
  const BlackMarketRefuse := "black_market_refuse"
  const RescueAccept := "rescue_accept"
  const RescueRefuse := "rescue_refuse"

  function Choice(actionId: string): EventOption { EventOption(actionId, None) }

  /** The catalogue, in the order the roll walks it. */
  const Events: seq<GameEvent> := [
    GameEvent("GAS_POCKET", 15.0, 200.0, instantDamage := 0.15, instantHeat := 20.0),
    GameEvent("GOLD_VEIN", 35.0, 100.0, effectId := Some("GOLD_RUSH_EFFECT")),
    GameEvent("TECTONIC_SHIFT", 25.0, 1000.0, options := [Choice(TectonicHold), Choice(TectonicPush)]),
    GameEvent("GAS_POCKET_FUEL", 15.0, 200.0, triggers := [Drilling], model := Poisson(0.05, GasModifier),
      instantResource := Some(InstantResource("gas", Some(50.0), Some(150.0), Some(100.0), Some(25.0))),
      cooldown := 60.0),
    GameEvent("COAL_SEAM", 12.0, 50.0, triggers := [Drilling], model := Poisson(0.03, CoalModifier),
      effectId := Some("COAL_SEAM_BUFF"), cooldown := 120.0),
    GameEvent("OIL_DEPOSIT", 10.0, 500.0, triggers := [Drilling], model := Poisson(0.02, OilModifier),
      instantResource := Some(InstantResource("oil", Some(200.0), Some(500.0), Some(350.0), Some(100.0))),
      cooldown := 180.0),
    GameEvent("COSMIC_STORM", 5.0, 0.0, triggers := [GlobalMapActive], model := Poisson(0.01, NoDepthModifier),
      cooldown := 180.0),
    GameEvent("PIRATE_RAID", 8.0, 0.0, triggers := [CaravanTraveling], model := Conditional(PirateRule),
      cooldown := 60.0),
    GameEvent("CARAVAN_DELAY", 20.0, 0.0, triggers := [CaravanTraveling], model := Conditional(DelayRule)),
    GameEvent("BLACK_MARKET_TIP", 3.0, 0.0, triggers := [BaseVisit], model := Poisson(0.005, NoDepthModifier),
      options := [Choice(BlackMarketBuy), Choice(BlackMarketRefuse)], cooldown := 360.0),
    GameEvent("WRECKAGE_DISCOVERY", 5.0, 1000.0, triggers := [Drilling], model := DepthDecay(0.01, 5000.0),
      forceArtifactDrop := true, cooldown := 240.0),
    GameEvent("RESCUE_CONVOY", 15.0, 0.0, triggers := [StuckInSpace], model := Poisson(0.30, NoDepthModifier),
      options := [Choice(RescueAccept), Choice(RescueRefuse)]),
    GameEvent("DEFEND_THE_BASE", 2.0, 0.0, triggers := [BaseRaid], model := Conditional(DefendRule),
      cooldown := 1440.0),
    GameEvent("PRICE_SPIKE", 10.0, 0.0, triggers := [MarketUpdate], model := Poisson(0.02, NoDepthModifier),
      effectId := Some("PRICE_SPIKE_EFFECT"), cooldown := 720.0),
    GameEvent("FOSSIL_FIND", 20.0, 10.0, forceArtifactDrop := true),
    GameEvent("DORMANT_POD", 30.0, 50.0, options := [Choice(PodLaser), Choice(PodHack)]),
    GameEvent("QUANTUM_FLUCTUATION", 20.0, 500.0, options := [Choice(AcceptFluctuation), Choice(RejectFluctuation)]),
    GameEvent("MAGNETIC_STORM", 20.0, 50.0, effectId := Some("MAGNETIC_INTERFERENCE")),
    GameEvent("AI_GLITCH", 15.0, 2000.0, options := [Choice(AiTrust), Choice(AiReboot)]),
    GameEvent("NANOMITE_SWARM", 10.0, 1000.0, options := [Choice(PurgeNanomites)]),
    GameEvent("GRAVITY_ANOMALY", 10.0, 3000.0, effectId := Some("GRAVITY_WARP")),
    GameEvent("CRYSTAL_OVERLOAD", 15.0, 8000.0, options := [Choice(CrystalAbsorb)]),
    GameEvent("PRECURSOR_ECHO", 5.0, 100.0, instantXp := 500.0),
    GameEvent("QUANTUM_JUMP", 2.0, 1000.0, instantDepth := 5000.0),
    GameEvent("SIDE_TUNNEL_DISCOVERY", 25.0, 300.0, options := [Choice(TunnelSafe), Choice(TunnelRisky)]),
    GameEvent("CORE_RESONANCE", 5.0, 100000.0)
  ]

  /** Every catalogue weight is positive. */
  predicate PositiveWeights(events: seq<GameEvent>)
  {
    forall i :: 0 <= i < |events| ==> events[i].weight > 0.0
  }

  /** The catalogue has 26 events with distinct ids and positive weights. */
  lemma CatalogueWellFormed()
    ensures |Events| == 26
    ensures PositiveWeights(Events)
    ensures forall i, j :: 0 <= i < j < |Events| ==> Events[i].id != Events[j].id
  {
    CatalogueWeightsPositive();
    IdsDistinctFirstHalf();
    IdsDistinctSecondHalf();
    IdsDistinctAcrossLow();
    IdsDistinctAcrossHigh();
  }

  /** Every catalogue weight is positive. */
  lemma CatalogueWeightsPositive()
    ensures |Events| == 26 && PositiveWeights(Events)
  {
  }

  /** Events in [lo, hi) carry distinct ids. */
  predicate DistinctIn(lo: nat, hi: nat)
    requires lo <= hi <= |Events|
  {
    forall i, j :: lo <= i < j < hi ==> Events[i].id != Events[j].id
  }

  /** Events in [lo1, hi1) and [lo2, hi2) carry distinct ids. */
  predicate DistinctAcross(lo1: nat, hi1: nat, lo2: nat, hi2: nat)
    requires lo1 <= hi1 <= |Events| && lo2 <= hi2 <= |Events|
  {
    forall i, j :: lo1 <= i < hi1 && lo2 <= j < hi2 ==> Events[i].id != Events[j].id
  }

  // The distinct-id proof, split into blocks of the catalogue so that each
  // obligation compares only a few ids.
  lemma IdsDistinctFirstHalf() ensures DistinctIn(0, 13) { IdsDistinctBlockA(); IdsDistinctBlockB(); IdsDistinctBlocksAB(); }
  lemma IdsDistinctBlockA() ensures DistinctIn(0, 7) {}
  lemma IdsDistinctBlockB() ensures DistinctIn(7, 13) {}
  lemma IdsDistinctBlocksAB() ensures DistinctAcross(0, 7, 7, 13) {}
  lemma IdsDistinctSecondHalf() ensures DistinctIn(13, 26) {}
  lemma IdsDistinctAcrossLow() ensures DistinctAcross(0, 13, 13, 20) {}
  lemma IdsDistinctAcrossHigh() ensures DistinctAcross(0, 13, 20, 26) {}

  // ---- Effects ----

  datatype EffectKind = Buff | Debuff | Neutral | Anomaly

  /** The multipliers and switches an effect applies; absent ones are None/false. */
  datatype Modifiers = Modifiers(
    heatGenMultiplier: Option<real>,
    coolingDisabled: bool,
    resourceMultiplier: Option<real>,
    drillSpeedMultiplier: Option<real>,
    clickPowerMultiplier: Option<real>,
    autoClickDisabled: bool,
    heatInstability: bool)

  const NoModifiers := Modifiers(None, false, None, None, None, false, false)

  /** A timed effect; `duration` is in ticks. Names and descriptions are display text and dropped. */
  datatype ActiveEffect = ActiveEffect(id: string, duration: real, kind: EffectKind, modifiers: Modifiers)

  /** The effect ids `createEffect` has a case for. */
  const EffectIds: set<string> := {
    "QUANTUM_FLUCTUATION_EFFECT", "GAS_BURN", "NANOMITE_DAMAGE", "GOLD_RUSH_EFFECT", "AI_OVERCLOCK",
    "MAGNETIC_INTERFERENCE", "GRAVITY_WARP",
    "PREMIUM_NANO_REPAIR", "PREMIUM_DIAMOND_COAT", "PREMIUM_VOID_SHIELD", "PREMIUM_QUANTUM_LUCK",
    "PREMIUM_ABSOLUTE_ZERO", "PREMIUM_MAGNETIC_STORM", "PREMIUM_OVERDRIVE", "PREMIUM_CHRONOS",
    "BAR_OIL_STOUT", "BAR_RUSTY_NAIL", "BAR_NUCLEAR_WHISKEY", "BAR_VOID_COCKTAIL"
  }

  /** The effect for an id, or None for an id without a case. */
  function CreateEffect(id: string): (r: Option<ActiveEffect>)
    ensures r.Some? <==> id in EffectIds
    ensures r.Some? ==> r.value.duration > 0.0
  {
    if id == "QUANTUM_FLUCTUATION_EFFECT" then
      Some(ActiveEffect("q_fluct", 100.0, Buff, NoModifiers.(resourceMultiplier := Some(5.0), coolingDisabled := true)))
    else if id == "GAS_BURN" then
      Some(ActiveEffect("gas_burn", 150.0, Debuff, NoModifiers.(drillSpeedMultiplier := Some(1.5), heatGenMultiplier := Some(2.0))))
    else if id == "NANOMITE_DAMAGE" then
      Some(ActiveEffect("nano_dmg", 300.0, Debuff, NoModifiers.(drillSpeedMultiplier := Some(0.7))))
    else if id == "GOLD_RUSH_EFFECT" then
      Some(ActiveEffect("gold_rush", 200.0, Buff, NoModifiers.(resourceMultiplier := Some(5.0))))
    else if id == "AI_OVERCLOCK" then
      Some(ActiveEffect("ai_oc", 150.0, Buff, NoModifiers.(drillSpeedMultiplier := Some(3.0), heatGenMultiplier := Some(2.0))))
    else if id == "MAGNETIC_INTERFERENCE" then
      Some(ActiveEffect("mag_storm", 300.0, Debuff, NoModifiers.(autoClickDisabled := true)))
    else if id == "GRAVITY_WARP" then
      Some(ActiveEffect("grav_warp", 200.0, Anomaly, NoModifiers.(heatInstability := true)))
    else if id == "PREMIUM_NANO_REPAIR" then Some(ActiveEffect("buff_regen", 6000.0, Buff, NoModifiers))
    else if id == "PREMIUM_DIAMOND_COAT" then
      Some(ActiveEffect("buff_sharp", 3000.0, Buff, NoModifiers.(drillSpeedMultiplier := Some(2.0))))
    else if id == "PREMIUM_VOID_SHIELD" then Some(ActiveEffect("buff_shield", 1800.0, Buff, NoModifiers))
    else if id == "PREMIUM_QUANTUM_LUCK" then Some(ActiveEffect("buff_luck", 3000.0, Buff, NoModifiers))
    else if id == "PREMIUM_ABSOLUTE_ZERO" then
      Some(ActiveEffect("buff_cold", 1200.0, Buff, NoModifiers.(heatGenMultiplier := Some(0.0))))
    else if id == "PREMIUM_MAGNETIC_STORM" then
      Some(ActiveEffect("buff_magnet", 3000.0, Buff, NoModifiers.(resourceMultiplier := Some(3.0))))
    else if id == "PREMIUM_OVERDRIVE" then
      Some(ActiveEffect("buff_power", 600.0, Buff, NoModifiers.(clickPowerMultiplier := Some(5.0))))
    else if id == "PREMIUM_CHRONOS" then
      Some(ActiveEffect("buff_time", 3000.0, Buff, NoModifiers.(drillSpeedMultiplier := Some(3.0))))
    else if id == "BAR_OIL_STOUT" then
      Some(ActiveEffect("bar_oil", 600.0, Buff, NoModifiers.(heatGenMultiplier := Some(2.0))))
    else if id == "BAR_RUSTY_NAIL" then
      Some(ActiveEffect("bar_rusty", 600.0, Buff, NoModifiers.(clickPowerMultiplier := Some(3.0), drillSpeedMultiplier := Some(0.5))))
    else if id == "BAR_NUCLEAR_WHISKEY" then
      Some(ActiveEffect("bar_nuke", 300.0, Anomaly, NoModifiers.(drillSpeedMultiplier := Some(5.0))))
    else if id == "BAR_VOID_COCKTAIL" then
      Some(ActiveEffect("bar_void", 450.0, Buff, NoModifiers.(resourceMultiplier := Some(10.0))))
    else None
  }

  /**
   * Of the catalogue's effect ids, COAL_SEAM_BUFF and PRICE_SPIKE_EFFECT have
   * no case, so those two events never apply an effect.
   */
  lemma CatalogueEffects()
    ensures forall i :: 0 <= i < |Events| && Events[i].effectId.Some? ==>
              (CreateEffect(Events[i].effectId.value).None? <==>
                 Events[i].id == "COAL_SEAM" || Events[i].id == "PRICE_SPIKE")
  {
  }

  // ---- Chance closures ----

  /** PIRATE_RAID: the zone's risk plus min(0.2, cargoValue / 100000); a missing zone reads as green. */
  function PirateRaidChance(zone: Option<ZoneColor>, cargoValue: real): (p: real)
    ensures cargoValue >= 0.0 ==> 0.05 <= p <= 0.5
    ensures cargoValue <= 0.0 ==> p == (match zone case Some(Yellow) => 0.15 case Some(Red) => 0.30 case _ => 0.05) + cargoValue / 100000.0
  {
    var z := match zone case Some(z) => z case None => Green;
    var zoneRisk := match z case Green => 0.05 case Yellow => 0.15 case Red => 0.30;
    zoneRisk + Min(0.2, cargoValue / 100000.0)
  }

  /** Riskier zones never lower the pirate chance at equal cargo value. */
  lemma PirateRaidZoneOrder(cargoValue: real)
    ensures PirateRaidChance(Some(Green), cargoValue) <= PirateRaidChance(Some(Yellow), cargoValue)
    ensures PirateRaidChance(Some(Yellow), cargoValue) <= PirateRaidChance(Some(Red), cargoValue)
    ensures PirateRaidChance(None, cargoValue) == PirateRaidChance(Some(Green), cargoValue)
  {
  }

  /** CARAVAN_DELAY: 0.10 / caravanLevel, a level of 0 read as 1. */
  function CaravanDelayChance(caravanLevel: real): (p: real)
    requires caravanLevel >= 0.0
    ensures caravanLevel == 0.0 || caravanLevel == 1.0 ==> p == 0.10
    ensures caravanLevel >= 1.0 ==> 0.0 < p <= 0.10
    ensures caravanLevel > 0.0 ==> p * caravanLevel == 0.10
  {
    if caravanLevel == 0.0 then 0.10
    else DelayDivision(caravanLevel); 0.10 / caravanLevel
  }

  lemma DelayDivision(level: real)
    requires level > 0.0
    ensures (0.10 / level) * level == 0.10 && 0.10 / level > 0.0
    ensures level >= 1.0 ==> 0.10 / level <= 0.10
  {
    var q := 0.10 / level;
    assert q * level == 0.10;
    if level >= 1.0 {
      assert q <= q * level;
    }
  }

  /** DEFEND_THE_BASE: only red-zone bases without fortification are at risk; guards cut the chance. */
  function DefendBaseChance(zone: ZoneColor, hasFortification: bool, hasGuards: bool): (p: real)
    ensures zone != Red || hasFortification ==> p == 0.0
    ensures zone == Red && !hasFortification && hasGuards ==> p == 0.001
    ensures zone == Red && !hasFortification && !hasGuards ==> p == 0.005
  {
    if zone != Red then 0.0
    else if hasFortification then 0.0
    else if hasGuards then 0.001
    else 0.005
  }

  /** Guards never raise the base-raid chance, fortification makes it 0. */
  lemma DefencesOnlyHelp(zone: ZoneColor, fort: bool)
    ensures DefendBaseChance(zone, fort, true) <= DefendBaseChance(zone, fort, false)
    ensures DefendBaseChance(zone, true, false) == 0.0
  {
  }

  /** The depth multiplier of a Poisson model. */
  function DepthMultiplier(m: DepthModifier, depth: real): (k: real)
    ensures m == GasModifier ==> 0.5 <= k <= 1.0 && (k == 1.0 <==> 3000.0 <= depth <= 6000.0)
    ensures m == CoalModifier ==> (k == 1.5 <==> depth < 3000.0) && (k == 0.5 <==> depth >= 3000.0)
    ensures m == OilModifier && depth >= 0.0 ==> 1.0 <= k <= 3.0
    ensures m == OilModifier && depth >= 10000.0 ==> k == 3.0
    ensures m == NoDepthModifier ==> k == 1.0
  {
    match m
    case NoDepthModifier => 1.0
    case GasModifier => if depth < 3000.0 then 0.5 else if depth > 6000.0 then 0.7 else 1.0
    case CoalModifier => if depth < 3000.0 then 1.5 else 0.5
    case OilModifier => Min(3.0, 1.0 + depth / 5000.0)
  }

  /** The oil multiplier never falls as depth grows. */
  lemma OilMultiplierMonotone(d1: real, d2: real)
    requires d1 <= d2
    ensures DepthMultiplier(OilModifier, d1) <= DepthMultiplier(OilModifier, d2)
  {
    assert d1 / 5000.0 <= d2 / 5000.0;
  }

  // ---- The roll ----

  /** An event survives the filter: not recent, and deep enough when it has a minimum depth. */
  predicate Eligible(e: GameEvent, recent: seq<string>, depth: real)
  {
    e.id !in recent && !(e.minDepth != 0.0 && depth < e.minDepth)
  }

  /** The events that survive the filter, in catalogue order. */
  function Candidates(events: seq<GameEvent>, recent: seq<string>, depth: real): (r: seq<GameEvent>)
    ensures |r| <= |events|
    ensures forall e :: e in r <==> e in events && Eligible(e, recent, depth)
    ensures PositiveWeights(events) ==> PositiveWeights(r)
  {
    if |events| == 0 then []
    else
      var init := events[..|events| - 1];
      var last := events[|events| - 1];
      assert events == init + [last];
      Candidates(init, recent, depth) + (if Eligible(last, recent, depth) then [last] else [])
  }

  /** The sum of the weights (the source's `reduce`). */
  function WeightSum(events: seq<GameEvent>): real
  {
    if |events| == 0 then 0.0 else events[0].weight + WeightSum(events[1..])
  }

  /** Walks the list, subtracting each weight from `random` until it falls below one. */
  function PickByWeight(events: seq<GameEvent>, random: real): Option<GameEvent>
  {
    if |events| == 0 then None
    else if random < events[0].weight then Some(events[0])
    else PickByWeight(events[1..], random - events[0].weight)
  }

  lemma WeightSumPositive(events: seq<GameEvent>)
    requires PositiveWeights(events) && |events| > 0
    ensures WeightSum(events) > 0.0
  {
    if |events| > 1 {
      WeightSumPositive(events[1..]);
    }
  }

  /**
   * With 0 <= r < WeightSum, the pick is the first event whose cumulative
   * weight exceeds r.
   */
  lemma {:induction false} PickIsFirstExceeding(events: seq<GameEvent>, r: real)
    requires 0.0 <= r < WeightSum(events)
    ensures exists k :: 0 <= k < |events| && PickByWeight(events, r) == Some(events[k]) &&
                        WeightSum(events[..k]) <= r < WeightSum(events[..k + 1])
  {
    if r < events[0].weight {
      assert events[..0] == [];
      assert events[..1] == [events[0]];
      assert WeightSum(events[..1]) == events[0].weight + WeightSum([]);
    } else {
      var rest := events[1..];
      PickIsFirstExceeding(rest, r - events[0].weight);
      var k :| 0 <= k < |rest| && PickByWeight(rest, r - events[0].weight) == Some(rest[k]) &&
               WeightSum(rest[..k]) <= r - events[0].weight < WeightSum(rest[..k + 1]);
      assert events[..k + 1][1..] == rest[..k];
      assert events[..k + 2][1..] == rest[..k + 1];
      assert events[k + 1] == rest[k];
    }
  }

  /** A picked event comes from the list. */
  lemma {:induction false} PickInList(events: seq<GameEvent>, random: real)
    ensures PickByWeight(events, random).Some? ==> PickByWeight(events, random).value in events
  {
    if |events| > 0 && random >= events[0].weight {
      PickInList(events[1..], random - events[0].weight);
    }
  }

  /** A draw `u` scaled by the total weight (`Math.random() * totalWeight`). */
  function Scale(u: real, total: real): real
  {
    u * total
  }

  /** A draw in [0, 1) scaled by a positive total lies in [0, total). */
  lemma DrawBelowTotal(u: real, total: real)
    requires 0.0 <= u < 1.0 && total > 0.0
    ensures 0.0 <= Scale(u, total) < total
  {
  }

  /** The pick over the surviving `events` for a draw `u`: null when none survives. */
  function RollOver(events: seq<GameEvent>, recent: seq<string>, depth: real, u: real): Option<GameEvent>
  {
    var valid := Candidates(events, recent, depth);
    if |valid| == 0 then None else PickByWeight(valid, Scale(u, WeightSum(valid)))
  }

  /** With candidates, the roll is the weighted pick over them. */
  lemma RollOverUnfold(events: seq<GameEvent>, recent: seq<string>, depth: real, u: real)
    requires |Candidates(events, recent, depth)| > 0
    ensures var valid := Candidates(events, recent, depth);
            RollOver(events, recent, depth, u) == PickByWeight(valid, Scale(u, WeightSum(valid)))
  {
  }

  /** The event chosen from the catalogue for a draw `u`. */
  function RollOutcome(recent: seq<string>, depth: real, u: real): Option<GameEvent>
  {
    RollOver(Events, recent, depth, u)
  }

  /**
   * `rollRandomEvent`: filter the catalogue, scale the draw `u` (Math.random())
   * by the total weight and walk the candidates. `heat` is unused, as in the source.
   */
  method RollRandomEvent(recent: seq<string>, depth: real, heat: real, u: real) returns (r: Option<GameEvent>)
    ensures r == RollOutcome(recent, depth, u)
  {
    var validEvents := Candidates(Events, recent, depth);
    if |validEvents| == 0 {
      return None;
    }
    var totalWeight := WeightSum(validEvents);
    var random := Scale(u, totalWeight);
    RollOverUnfold(Events, recent, depth, u);
    ghost var random0 := random;
    var i := 0;
    while i < |validEvents|
      invariant 0 <= i <= |validEvents|
      invariant PickByWeight(validEvents[i..], random) == PickByWeight(validEvents, random0)
    {
      var event := validEvents[i];
      assert validEvents[i..][0] == event && validEvents[i..][1..] == validEvents[i + 1..];
      if random < event.weight {
        return Some(event);
      }
      random := random - event.weight;
      i := i + 1;
    }
    return None;
  }

  /** A roll never returns a recent event nor one deeper than `depth`. */
  lemma RollOverIsEligible(events: seq<GameEvent>, recent: seq<string>, depth: real, u: real)
    ensures var r := RollOver(events, recent, depth, u);
            r.Some? ==> r.value in events && Eligible(r.value, recent, depth)
  {
    var valid := Candidates(events, recent, depth);
    if |valid| > 0 {
      RollOverUnfold(events, recent, depth, u);
      var x := PickByWeight(valid, Scale(u, WeightSum(valid)));
      PickInList(valid, Scale(u, WeightSum(valid)));
      if x.Some? {
        assert x.value in valid;
      }
    }
  }

  /**
   * With positive weights and a draw in [0, 1), a roll with candidates picks
   * the first one whose cumulative weight exceeds the scaled draw.
   */
  lemma RollOverPicksFirstExceeding(events: seq<GameEvent>, recent: seq<string>, depth: real, u: real)
    requires PositiveWeights(events) && 0.0 <= u < 1.0
    requires |Candidates(events, recent, depth)| > 0
    ensures var valid := Candidates(events, recent, depth);
            var r := Scale(u, WeightSum(valid));
            exists k :: 0 <= k < |valid| && RollOver(events, recent, depth, u) == Some(valid[k]) &&
                        WeightSum(valid[..k]) <= r < WeightSum(valid[..k + 1])
  {
    var valid := Candidates(events, recent, depth);
    var r := Scale(u, WeightSum(valid));
    WeightSumPositive(valid);
    DrawBelowTotal(u, WeightSum(valid));
    PickIsFirstExceeding(valid, r);
    RollOverUnfold(events, recent, depth, u);
    var k :| 0 <= k < |valid| && PickByWeight(valid, r) == Some(valid[k]) &&
             WeightSum(valid[..k]) <= r < WeightSum(valid[..k + 1]);
    assert RollOver(events, recent, depth, u) == Some(valid[k]);
  }

  /** With positive weights and a draw in [0, 1), a roll is null exactly when no event survives the filter. */
  lemma RollOverNullIffNoCandidate(events: seq<GameEvent>, recent: seq<string>, depth: real, u: real)
    requires PositiveWeights(events) && 0.0 <= u < 1.0
    ensures RollOver(events, recent, depth, u).None? <==>
              forall i :: 0 <= i < |events| ==> !Eligible(events[i], recent, depth)
  {
    var valid := Candidates(events, recent, depth);
    if |valid| > 0 {
      RollOverPicksFirstExceeding(events, recent, depth, u);
      assert valid[0] in valid;
    } else {
      forall i | 0 <= i < |events|
        ensures !Eligible(events[i], recent, depth)
      {
        assert events[i] in events;
      }
    }
  }

  /** The catalogue roll never returns a recent event nor one deeper than `depth`. */
  lemma RollIsEligible(recent: seq<string>, depth: real, u: real)
    ensures var r := RollOutcome(recent, depth, u);
            r.Some? ==> r.value in Events && r.value.id !in recent &&
                        (r.value.minDepth == 0.0 || depth >= r.value.minDepth)
  {
    RollOverIsEligible(Events, recent, depth, u);
  }

  /** With a draw in [0, 1), the catalogue roll is null exactly when no event survives the filter. */
  lemma RollNullIffNoCandidate(recent: seq<string>, depth: real, u: real)
    requires 0.0 <= u < 1.0
    ensures RollOutcome(recent, depth, u).None? <==>
              forall i :: 0 <= i < |Events| ==> !Eligible(Events[i], recent, depth)
  {
    CatalogueWeightsPositive();
    RollOverNullIffNoCandidate(Events, recent, depth, u);
  }

  /** With a draw in [0, 1), a catalogue roll with candidates is the first one whose cumulative weight exceeds the scaled draw. */
  lemma RollPicksFirstExceeding(recent: seq<string>, depth: real, u: real)
    requires 0.0 <= u < 1.0
    requires |Candidates(Events, recent, depth)| > 0
    ensures var valid := Candidates(Events, recent, depth);
            var r := Scale(u, WeightSum(valid));
            exists k :: 0 <= k < |valid| && RollOutcome(recent, depth, u) == Some(valid[k]) &&
                        WeightSum(valid[..k]) <= r < WeightSum(valid[..k + 1])
  {
    CatalogueWeightsPositive();
    RollOverPicksFirstExceeding(Events, recent, depth, u);
  }
}
