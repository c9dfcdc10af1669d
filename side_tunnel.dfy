// Side tunnels: the five tunnel kinds, the tunnel event generator and the
// resolution of entering a tunnel (services/systems/SideTunnelSystem.ts).

module SideTunnel {
  import opened GameTypes
  import opened EventRegistry

  datatype TunnelType = Safe | Risky | Crystal | Mine | Nest

  function TypeKey(t: TunnelType): string
  {
    match t
    case Safe => "SAFE"
    case Risky => "RISKY"
    case Crystal => "CRYSTAL"
    case Mine => "MINE"
    case Nest => "NEST"
  }

  /** A resource reward: an amount drawn uniformly in [min, max). */
  datatype ResourceRange = ResourceRange(kind: string, min: real, max: real)

  /** A tunnel definition (names, texts and the atmosphere effect are not modelled). */
  datatype TunnelDef = TunnelDef(
    actionId: string,
    minDepth: real,
    baseRisk: real,
    resources: seq<ResourceRange>,
    artifactChance: real,
    techChance: real,
    techAmount: real)

  /** `TUNNEL_DEFINITIONS`. */
  function Def(t: TunnelType): (d: TunnelDef)
    ensures 0.0 <= d.baseRisk < 1.0 && d.minDepth >= 0.0 && d.techAmount > 0.0
    ensures forall i :: 0 <= i < |d.resources| ==> 0.0 < d.resources[i].min < d.resources[i].max
  {
    match t
    case Safe =>
      TunnelDef(TunnelSafe, 0.0, 0.0,
                [ResourceRange("copper", 20.0, 50.0), ResourceRange("iron", 10.0, 30.0)],
                0.05, 0.1, 5.0)
    case Risky =>
      TunnelDef(TunnelRisky, 0.0, 0.4, [], 0.3, 0.5, 15.0)
    case Crystal =>
      TunnelDef(TunnelCrystal, 2000.0, 0.2,
                [ResourceRange("rubies", 5.0, 15.0), ResourceRange("emeralds", 2.0, 8.0),
                 ResourceRange("diamonds", 1.0, 3.0)],
                0.4, 0.2, 20.0)
    case Mine =>
      TunnelDef(TunnelMine, 1000.0, 0.6,
                [ResourceRange("coal", 100.0, 300.0), ResourceRange("iron", 50.0, 150.0),
                 ResourceRange("gold", 10.0, 30.0)],
                0.2, 0.8, 40.0)
    case Nest =>
      TunnelDef(TunnelNest, 3000.0, 0.8, [ResourceRange("nanoSwarm", 50.0, 200.0)], 0.6, 0.4, 30.0)
  }

  /** The tunnel an option action enters; None for any other action. */
  function ActionToType(actionId: string): (r: Option<TunnelType>)
    ensures r.Some? ==> Def(r.value).actionId == actionId
  {
    if actionId == TunnelSafe then Some(Safe)
    else if actionId == TunnelRisky then Some(Risky)
    else if actionId == TunnelCrystal then Some(Crystal)
    else if actionId == TunnelMine then Some(Mine)
    else if actionId == TunnelNest then Some(Nest)
    else None
  }

  /** Each tunnel's action leads back to that tunnel. */
  lemma ActionRoundTrip(t: TunnelType)
    ensures ActionToType(Def(t).actionId) == Some(t)
  {
  }

  /**
   * The failure chance: the base risk less 1% per luck point, floored at 0,
   * and less another 0.1 (floored at 0) with the SABOTAGE perk.
   */
  function ActualRisk(baseRisk: real, luck: real, perks: seq<string>): (risk: real)
    ensures risk >= 0.0
    ensures luck >= 0.0 && baseRisk >= 0.0 ==> risk <= baseRisk
    ensures "SABOTAGE" !in perks ==> risk == Max(0.0, baseRisk - luck * 0.01)
    ensures "SABOTAGE" in perks ==> risk == Max(0.0, Max(0.0, baseRisk - luck * 0.01) - 0.1)
  {
    var riskReduction := luck * 0.01;
    var actualRisk := Max(0.0, baseRisk - riskReduction);
    if "SABOTAGE" in perks then Max(0.0, actualRisk - 0.1) else actualRisk
  }

  /** With no negative luck, the SAFE tunnel has no risk: any draw succeeds. */
  lemma SafeHasNoRisk(luck: real, perks: seq<string>, roll: real)
    requires luck >= 0.0 && roll >= 0.0
    ensures roll >= ActualRisk(Def(Safe).baseRisk, luck, perks)
  {
  }

  // ----- Generating a tunnel event -----

  /** The special tunnels deep enough for `depth`, in the order the source pushes them. */
  function SpecialTypes(depth: real): (ts: seq<TunnelType>)
    ensures Crystal in ts <==> depth >= Def(Crystal).minDepth
    ensures Mine in ts <==> depth >= Def(Mine).minDepth
    ensures Nest in ts <==> depth >= Def(Nest).minDepth
    ensures Safe !in ts && Risky !in ts
  {
    (if depth >= Def(Crystal).minDepth then [Crystal] else []) +
    (if depth >= Def(Mine).minDepth then [Mine] else []) +
    (if depth >= Def(Nest).minDepth then [Nest] else [])
  }

  /** The chance of a special tunnel, growing with depth up to one half. */
  function SpecialChance(depth: real): (c: real)
    ensures c <= 0.5
    ensures depth >= 0.0 ==> c >= 0.0
  {
    Min(0.5, depth / 10000.0)
  }

  /**
   * The tunnel type: RISKY when `riskyDraw` < 0.4; else a special tunnel
   * picked by `pickDraw` when `specialDraw` < the special chance and one is
   * deep enough; SAFE otherwise.
   */
  function ChooseTunnel(depth: real, riskyDraw: real, specialDraw: real, pickDraw: real): (t: TunnelType)
    requires 0.0 <= pickDraw < 1.0
    ensures depth >= 0.0 ==> depth >= Def(t).minDepth
    ensures t == Risky <==> riskyDraw < 0.4
    ensures t in {Crystal, Mine, Nest} ==> specialDraw < SpecialChance(depth)
  {
    if riskyDraw < 0.4 then Risky
    else if specialDraw < SpecialChance(depth) then
      var types := SpecialTypes(depth);
      if |types| > 0 then types[PickIndex(pickDraw, |types|)] else Safe
    else Safe
  }

  /** `Math.floor(draw * n)` for a draw in [0, 1). */
  function PickIndex(draw: real, n: nat): (i: nat)
    requires 0.0 <= draw < 1.0 && n > 0
    ensures i < n && i as real <= draw * (n as real) < i as real + 1.0
  {
    var x := draw * (n as real);
    assert x < n as real;
    x.Floor
  }

  /** The risk label shown on the entering option. */
  function RiskLabel(baseRisk: real): (tag: string)
    ensures baseRisk > 0.3 ==> tag == "HIGH"
    ensures 0.0 < baseRisk <= 0.3 ==> tag == "MEDIUM"
    ensures baseRisk <= 0.0 ==> tag == "LOW"
  {
    if baseRisk > 0.3 then "HIGH" else if baseRisk > 0.0 then "MEDIUM" else "LOW"
  }

  /**
   * `generateEvent`: a tunnel event with id `TUNNEL_<type>_<now>`, weight
   * 100, the drilling trigger and two options, entering and ignoring.
   */
  function GenerateEvent(depth: real, now: nat, riskyDraw: real, specialDraw: real, pickDraw: real): (e: GameEvent)
    requires 0.0 <= pickDraw < 1.0
    ensures var t := ChooseTunnel(depth, riskyDraw, specialDraw, pickDraw);
            e.id == "TUNNEL_" + TypeKey(t) + "_" + NatToString(now) &&
            e.weight == 100.0 && e.triggers == [Drilling] &&
            e.options == [EventOption(Def(t).actionId, Some(RiskLabel(Def(t).baseRisk))),
                          EventOption("encounter_ignore", None)]
  {
    var t := ChooseTunnel(depth, riskyDraw, specialDraw, pickDraw);
    var def := Def(t);
    GameEvent("TUNNEL_" + TypeKey(t) + "_" + NatToString(now), 100.0, 0.0,
      options := [EventOption(def.actionId, Some(RiskLabel(def.baseRisk))), EventOption("encounter_ignore", None)],
      triggers := [Drilling])
  }

  /**
   * The generated event's first option enters a tunnel deep enough for the
   * depth, and below depth 1000 that tunnel is SAFE or RISKY.
   */
  lemma GeneratedTunnelReachable(depth: real, now: nat, riskyDraw: real, specialDraw: real, pickDraw: real)
    requires 0.0 <= pickDraw < 1.0 && depth >= 0.0
    ensures var e := GenerateEvent(depth, now, riskyDraw, specialDraw, pickDraw);
            var t := ActionToType(e.options[0].actionId);
            t.Some? && depth >= Def(t.value).minDepth &&
            (depth < 1000.0 ==> t.value in {Safe, Risky})
  {
    var t := ChooseTunnel(depth, riskyDraw, specialDraw, pickDraw);
    ActionRoundTrip(t);
    if depth < 1000.0 {
      assert SpecialTypes(depth) == [];
    }
  }

  // ----- Resolving a tunnel -----

  /** The draw for the `i`-th resource (0 when none is supplied). */
  function DrawAt(draws: seq<real>, i: nat): real
  {
    if i < |draws| then draws[i] else 0.0
  }

  /** `amount · mult`, kept as one term. */
  function Scaled(amount: real, mult: real): real
  {
    amount * mult
  }

  /**
   * A resource's gain: floor(min + u·(max − min)), scaled by
   * 1 + depth/5000 and floored.
   */
  function ResourceGain(rd: ResourceRange, u: real, depth: real): real
  {
    var amount := Floor(rd.min + Scaled(u, rd.max - rd.min));
    var mult := 1.0 + depth / 5000.0;
    Floor(Scaled(amount, mult))
  }

  /**
   * The resources after crediting every listed reward with a positive gain,
   * with one log line per credited reward.
   */
  function Credited(r: Resources, rewards: seq<ResourceRange>, draws: seq<real>, depth: real): (c: (Resources, seq<VisualEvent>))
    ensures forall k :: Amount(c.0, k) >= Amount(r, k)
    ensures r.Keys <= c.0.Keys
    ensures forall k :: k in c.0 && k !in r ==> exists i :: 0 <= i < |rewards| && rewards[i].kind == k
    decreases |rewards|
  {
    if |rewards| == 0 then (r, [])
    else
      var n := |rewards| - 1;
      var prev := Credited(r, rewards[..n], draws, depth);
      var total := ResourceGain(rewards[n], DrawAt(draws, n), depth);
      if total > 0.0 then
        (Credit(prev.0, rewards[n].kind, total), prev.1 + [LogAmount(rewards[n].kind, total)])
      else prev
  }

  /** Adding the next reward extends the prefix result. */
  lemma CreditedStep(r: Resources, rewards: seq<ResourceRange>, draws: seq<real>, depth: real, i: nat)
    requires i < |rewards|
    ensures var prev := Credited(r, rewards[..i], draws, depth);
            var total := ResourceGain(rewards[i], DrawAt(draws, i), depth);
            Credited(r, rewards[..i + 1], draws, depth) ==
              if total > 0.0 then (Credit(prev.0, rewards[i].kind, total), prev.1 + [LogAmount(rewards[i].kind, total)])
              else prev
  {
    assert rewards[..i + 1][..i] == rewards[..i];
  }

  /** The `forEach` over the tunnel's rewards, on a copy of the resources. */
  method CreditRewards(r0: Resources, rewards: seq<ResourceRange>, draws: seq<real>, depth: real)
    returns (r: Resources, logs: seq<VisualEvent>)
    ensures (r, logs) == Credited(r0, rewards, draws, depth)
  {
    r := r0;
    logs := [];
    var i := 0;
    while i < |rewards|
      invariant 0 <= i <= |rewards|
      invariant (r, logs) == Credited(r0, rewards[..i], draws, depth)
    {
      CreditedStep(r0, rewards, draws, depth, i);
      var resDef := rewards[i];
      var amount := Floor(resDef.min + Scaled(DrawAt(draws, i), resDef.max - resDef.min));
      var mult := 1.0 + depth / 5000.0;
      var total := Floor(Scaled(amount, mult));
      if total > 0.0 {
        r := Credit(r, resDef.kind, total);
        logs := logs + [LogAmount(resDef.kind, total)];
      }
      i := i + 1;
    }
    assert rewards[..i] == rewards;
  }

  /** The state a tunnel resolution reads. */
  datatype TunnelState = TunnelState(
    resources: Resources, inventory: Inventory, storageLevel: int, integrity: real, depth: real)

  /** The computed stats it uses: luck, defense and the hull's max integrity. */
  datatype TunnelStats = TunnelStats(luck: real, defense: real, maxIntegrity: real)

  /**
   * The random draws in the order the source makes them: the success roll,
   * one per resource reward, the tech check and amount, the artifact check;
   * then the artifact's instance id and the rolled artifact definition.
   */
  datatype TunnelDraws = TunnelDraws(
    roll: real, resourceDraws: seq<real>, techDraw: real, techAmountDraw: real,
    artifactDraw: real, artifactInstanceId: string, artifactDefId: string)

  /** The partial update; None marks a field left as it was. */
  datatype TunnelUpdates = TunnelUpdates(
    resources: Option<Resources>, inventory: Option<Inventory>, storageLevel: Option<int>, integrity: Option<real>)

  datatype TunnelResult = TunnelResult(updates: TunnelUpdates, logs: seq<VisualEvent>)

  const NoUpdates := TunnelUpdates(None, None, None, None)

  /** Damage on failure: 30% of max integrity for RISKY and MINE, 15% for CRYSTAL, 50% for NEST, floored; none for SAFE. */
  function FailureDamage(t: TunnelType, maxIntegrity: real): (damage: real)
    ensures maxIntegrity >= 0.0 ==> 0.0 <= damage <= maxIntegrity
  {
    match t
    case Risky => Floor(maxIntegrity * 0.3)
    case Mine => Floor(maxIntegrity * 0.3)
    case Crystal => Floor(maxIntegrity * 0.15)
    case Nest => Floor(maxIntegrity * 0.5)
    case Safe => 0.0
  }

  function FailureLog(t: TunnelType, damage: real): VisualEvent
  {
    match t
    case Risky => LogAmount("tunnel_cave_in", damage)
    case Mine => LogAmount("tunnel_cave_in", damage)
    case Crystal => LogAmount("tunnel_resonance", damage)
    case Nest => LogAmount("tunnel_swarm", damage)
    case Safe => Log("tunnel_empty")
  }

  /** The ancient tech gained: floor(techAmount · (1 + u)). */
  function TechGain(techAmount: real, u: real): real
  {
    Floor(Scaled(techAmount, 1.0 + u))
  }

  /** A successful entry: rewards, tech, and possibly an artifact. */
  function SuccessResult(t: TunnelType, st: TunnelState, d: TunnelDraws, now: int): TunnelResult
  {
    var def := Def(t);
    var credited := Credited(st.resources, def.resources, d.resourceDraws, st.depth);
    var tech := TechGain(def.techAmount, d.techAmountDraw);
    var r := if d.techDraw < def.techChance then Credit(credited.0, "ancientTech", tech) else credited.0;
    var techLog := if d.techDraw < def.techChance then [LogAmount("ancientTech", tech)] else [];
    var found := d.artifactDraw < def.artifactChance;
    var inventory := if found then Some(AddArtifact(st.inventory, d.artifactInstanceId, d.artifactDefId, now)) else None;
    var storage := if found && st.storageLevel == 0 then Some(1) else None;
    var artifactLog := if found then [Log("tunnel_artifact")] else [];
    TunnelResult(TunnelUpdates(Some(r), inventory, storage, None),
                 [Sound("ACHIEVEMENT")] + credited.1 + techLog + artifactLog)
  }

  /** A failed entry: type-dependent damage, less defense, off the integrity. */
  function FailureResult(t: TunnelType, st: TunnelState, stats: TunnelStats): TunnelResult
  {
    var damage := FailureDamage(t, stats.maxIntegrity);
    var damageTaken := Max(0.0, damage - stats.defense);
    TunnelResult(TunnelUpdates(Some(st.resources), None, None, Some(Max(0.0, st.integrity - damageTaken))),
                 [Sound("GLITCH"), FailureLog(t, damage)])
  }

  /** `resolveTunnel`: an action that enters no tunnel changes nothing and logs nothing. */
  function ResolveOutcome(actionId: string, st: TunnelState, perks: seq<string>, stats: TunnelStats,
                          d: TunnelDraws, now: int): (r: TunnelResult)
    ensures ActionToType(actionId).None? ==> r == TunnelResult(NoUpdates, [])
    ensures ActionToType(actionId).Some? ==> r.updates.resources.Some? && |r.logs| > 0
    ensures r.updates.integrity.Some? ==> r.updates.integrity.value >= 0.0
  {
    match ActionToType(actionId)
    case None => TunnelResult(NoUpdates, [])
    case Some(t) =>
      if d.roll >= ActualRisk(Def(t).baseRisk, stats.luck, perks) then SuccessResult(t, st, d, now)
      else FailureResult(t, st, stats)
  }

  /** The success branch of the source's resolution. */
  method ApplySuccess(t: TunnelType, st: TunnelState, d: TunnelDraws, now: int) returns (result: TunnelResult)
    ensures result == SuccessResult(t, st, d, now)
  {
    var def := Def(t);
    var updates := NoUpdates;
    var logs := [Sound("ACHIEVEMENT")];
    var r, resourceLogs := CreditRewards(st.resources, def.resources, d.resourceDraws, st.depth);
    logs := logs + resourceLogs;
    if d.techDraw < def.techChance {
      var amount := TechGain(def.techAmount, d.techAmountDraw);
      r := Credit(r, "ancientTech", amount);
      logs := logs + [LogAmount("ancientTech", amount)];
    }
    if d.artifactDraw < def.artifactChance {
      updates := updates.(inventory := Some(AddArtifact(st.inventory, d.artifactInstanceId, d.artifactDefId, now)));
      if st.storageLevel == 0 {
        updates := updates.(storageLevel := Some(1));
      }
      logs := logs + [Log("tunnel_artifact")];
    }
    updates := updates.(resources := Some(r));
    result := TunnelResult(updates, logs);
  }

  /** The source's imperative resolution, proved equal to `ResolveOutcome`. */
  method ResolveTunnel(actionId: string, st: TunnelState, perks: seq<string>, stats: TunnelStats,
                       d: TunnelDraws, now: int) returns (result: TunnelResult)
    ensures result == ResolveOutcome(actionId, st, perks, stats, d, now)
  {
    var tunnel := ActionToType(actionId);
    if tunnel.None? {
      return TunnelResult(NoUpdates, []);
    }
    var t := tunnel.value;
    var actualRisk := ActualRisk(Def(t).baseRisk, stats.luck, perks);
    if d.roll >= actualRisk {
      result := ApplySuccess(t, st, d, now);
    } else {
      var damage := FailureDamage(t, stats.maxIntegrity);
      var logs := [Sound("GLITCH"), FailureLog(t, damage)];
      var damageTaken := Max(0.0, damage - stats.defense);
      var updates := NoUpdates.(integrity := Some(Max(0.0, st.integrity - damageTaken)));
      updates := updates.(resources := Some(st.resources));
      result := TunnelResult(updates, logs);
    }
  }

  /** No resource amount ever decreases, on success or failure. */
  lemma ResourcesNeverDecrease(actionId: string, st: TunnelState, perks: seq<string>, stats: TunnelStats,
                               d: TunnelDraws, now: int)
    requires d.techAmountDraw >= 0.0
    ensures var r := ResolveOutcome(actionId, st, perks, stats, d, now);
            r.updates.resources.Some? ==> forall k :: Amount(r.updates.resources.value, k) >= Amount(st.resources, k)
  {
    var t := ActionToType(actionId);
    if t.Some? {
      var def := Def(t.value);
      assert Scaled(def.techAmount, 1.0 + d.techAmountDraw) >= 0.0;
    }
  }

  /**
   * A failed entry costs max(0, damage − defense) integrity, floored at 0,
   * and never heals; resources are written back unchanged.
   */
  lemma FailureDamageApplied(t: TunnelType, st: TunnelState, perks: seq<string>, stats: TunnelStats,
                             d: TunnelDraws, now: int)
    requires d.roll < ActualRisk(Def(t).baseRisk, stats.luck, perks)
    ensures var r := ResolveOutcome(Def(t).actionId, st, perks, stats, d, now);
            var taken := Max(0.0, FailureDamage(t, stats.maxIntegrity) - stats.defense);
            r.updates == TunnelUpdates(Some(st.resources), None, None, Some(Max(0.0, st.integrity - taken))) &&
            (st.integrity >= 0.0 ==> 0.0 <= r.updates.integrity.value <= st.integrity)
  {
    ActionRoundTrip(t);
  }

  /**
   * A successful entry never touches integrity; an artifact draw adds
   * exactly one unidentified, unequipped item and lifts storage level 0 to 1.
   */
  lemma SuccessRewards(t: TunnelType, st: TunnelState, perks: seq<string>, stats: TunnelStats,
                       d: TunnelDraws, now: int)
    requires d.roll >= ActualRisk(Def(t).baseRisk, stats.luck, perks)
    ensures var r := ResolveOutcome(Def(t).actionId, st, perks, stats, d, now);
            r.updates.integrity.None? && r.logs[0] == Sound("ACHIEVEMENT") &&
            (r.updates.inventory.Some? <==> d.artifactDraw < Def(t).artifactChance) &&
            (r.updates.inventory.Some? ==>
               r.updates.inventory.value.Keys == st.inventory.Keys + {d.artifactInstanceId} &&
               r.updates.inventory.value[d.artifactInstanceId] ==
                 InventoryItem(d.artifactInstanceId, d.artifactDefId, now, false, false)) &&
            (r.updates.storageLevel.Some? <==> r.updates.inventory.Some? && st.storageLevel == 0) &&
            (r.updates.storageLevel.Some? ==> r.updates.storageLevel.value == 1)
  {
    ActionRoundTrip(t);
  }

  /** With no negative luck and a draw in [0, 1), entering the SAFE tunnel always succeeds. */
  lemma SafeTunnelSucceeds(st: TunnelState, perks: seq<string>, stats: TunnelStats, d: TunnelDraws, now: int)
    requires stats.luck >= 0.0 && d.roll >= 0.0
    ensures var r := ResolveOutcome(TunnelSafe, st, perks, stats, d, now);
            r.updates.integrity.None? && r.logs[0] == Sound("ACHIEVEMENT")
  {
    SafeHasNoRisk(stats.luck, perks, d.roll);
    SuccessRewards(Safe, st, perks, stats, d, now);
  }
}
