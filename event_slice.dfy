// Store actions for events (store/slices/eventSlice.ts): answering the head
// of the event queue, the combat minigame's outcome, venting and overheat.

module EventSlice {
  import opened GameTypes
  import opened EventRegistry
  import opened FactionLogic
  import opened SideTunnel

  /** The part of a boss these actions touch; its other fields are carried along unchanged. */
  datatype Boss = Boss(id: string, maxHp: real, currentHp: real, isInvulnerable: bool)

  /** The store fields an answer to an event can change. */
  datatype Ship = Ship(
    integrity: real,
    depth: real,
    heat: real,
    resources: Resources,
    inventory: Inventory,
    storageLevel: int,
    activeEffects: seq<ActiveEffect>)

  /** The store fields the event actions read or write. */
  datatype EventSliceState = EventSliceState(
    eventQueue: seq<GameEvent>,
    actionLogQueue: seq<VisualEvent>,
    ship: Ship,
    reputation: map<string, real>,
    combatMinigameActive: bool,
    currentBoss: Option<Boss>,
    isCoolingGameActive: bool,
    isOverheated: bool)

  /**
   * The random and external inputs of one answer: the pod laser's draw,
   * the tunnel draws, and the instance id and rolled definition of a granted
   * artifact.
   */
  datatype EventDraws = EventDraws(laserDraw: real, tunnel: TunnelDraws, artifactInstanceId: string, artifactDefId: string)

  /** A non-empty option id (an empty or missing id is JavaScript-falsy). */
  predicate HasOption(optionId: Option<string>)
  {
    optionId.Some? && optionId.value != ""
  }

  /** The state the tunnel resolution reads. */
  function TunnelView(s: Ship): TunnelState
  {
    TunnelState(s.resources, s.inventory, s.storageLevel, s.integrity, s.depth)
  }

  /** Merges a tunnel result: resources always, inventory and integrity when set, storage level when truthy. */
  function MergeTunnel(s: Ship, u: TunnelUpdates): Ship
  {
    var s1 := if u.resources.Some? then s.(resources := u.resources.value) else s;
    var s2 := if u.inventory.Some? then s1.(inventory := u.inventory.value) else s1;
    var s3 := if u.integrity.Some? then s2.(integrity := u.integrity.value) else s2;
    if u.storageLevel.Some? && u.storageLevel.value != 0 then s3.(storageLevel := u.storageLevel.value) else s3
  }

  /** An effect stamped with the current time, as the source appends it. */
  function Stamped(e: ActiveEffect, now: nat): ActiveEffect
  {
    e.(id := e.id + "_" + NatToString(now))
  }

  /**
   * The option cases: the state after answering with `optionId` (the queue
   * already dequeued) and the log lines produced. Ids with no case change
   * nothing.
   */
  function ApplyOption(s: Ship, reputation: map<string, real>, optionId: string, d: EventDraws, stats: TunnelStats, now: nat)
    : (Ship, seq<VisualEvent>)
  {
    if optionId == TectonicHold then
      (s.(integrity := Max(0.0, s.integrity - 30.0)), [DamageText(30.0), Log("tectonic_hold")])
    else if optionId == TectonicPush then
      (s.(depth := s.depth + 1500.0, heat := Min(100.0, s.heat + 40.0)), [Log("tectonic_push")])
    else if optionId == PodLaser then
      if d.laserDraw > 0.5 then (s, [Log("pod_laser_destroyed")])
      else (s.(resources := Credit(s.resources, "ancientTech", 20.0)), [LogAmount("ancientTech", 20.0)])
    else if optionId == PodHack then
      (s.(resources := Credit(s.resources, "ancientTech", 5.0)), [LogAmount("ancientTech", 5.0)])
    else if optionId == AcceptFluctuation then
      var eff := CreateEffect("QUANTUM_FLUCTUATION_EFFECT");
      var effects := if eff.Some? then s.activeEffects + [Stamped(eff.value, now)] else s.activeEffects;
      (s.(activeEffects := effects, heat := 90.0), [Log("accept_fluctuation")])
    else if optionId == RejectFluctuation then
      (s, [Log("reject_fluctuation")])
    else if optionId == AiTrust then
      (s.(depth := s.depth + 3000.0, heat := Min(100.0, s.heat + 20.0)), [Log("ai_trust")])
    else if optionId == AiReboot then
      (s.(heat := 0.0), [Log("ai_reboot")])
    else if optionId == PurgeNanomites then
      (s.(resources := Credit(s.resources, "nanoSwarm", 50.0)), [LogAmount("nanoSwarm", 50.0)])
    else if optionId == CrystalAbsorb then
      (s.(resources := Credit(s.resources, "diamonds", 2.0), heat := Min(100.0, s.heat + 50.0)),
       [LogAmount("diamonds", 2.0)])
    else if ActionToType(optionId).Some? then TunnelAnswer(s, reputation, optionId, d, stats, now)
    else (s, [])
  }

  /** A tunnel action: resolved with the active perk ids of the reputation, then merged. */
  function TunnelAnswer(s: Ship, reputation: map<string, real>, optionId: string, d: EventDraws, stats: TunnelStats, now: nat)
    : (r: (Ship, seq<VisualEvent>))
    ensures s.integrity >= 0.0 ==> r.0.integrity >= 0.0
    ensures r.0.heat == s.heat && r.0.depth == s.depth && r.0.activeEffects == s.activeEffects
  {
    var perks := PerkIds(AllActivePerks(reputation));
    var result := ResolveOutcome(optionId, TunnelView(s), perks, stats, d.tunnel, now);
    (MergeTunnel(s, result.updates), result.logs)
  }

  /**
   * No option chosen: the event's effect (when it names one `createEffect`
   * knows) and, with `forceArtifactDrop`, one unidentified artifact.
   */
  function ApplyPassive(s: Ship, event: GameEvent, d: EventDraws, now: nat)
    : (Ship, seq<VisualEvent>)
  {
    var effect := if event.effectId.Some? && event.effectId.value != "" then CreateEffect(event.effectId.value) else None;
    var s1 := if effect.Some? then s.(activeEffects := s.activeEffects + [Stamped(effect.value, now)]) else s;
    var effectLog := if effect.Some? then [Log("effect_" + effect.value.id)] else [];
    if event.forceArtifactDrop then
      var s2 := s1.(inventory := AddArtifact(s.inventory, d.artifactInstanceId, d.artifactDefId, now));
      var s3 := if s.storageLevel == 0 then s2.(storageLevel := 1) else s2;
      (s3, effectLog + [Log("artifact_found"), Sound("ACHIEVEMENT")])
    else (s1, effectLog)
  }

  /**
   * `handleEventOption`: with an empty queue nothing changes; otherwise the
   * head is dequeued, answered, and every log line is appended.
   */
  function HandleOutcome(s: EventSliceState, optionId: Option<string>, d: EventDraws, stats: TunnelStats, now: nat)
    : (r: EventSliceState)
    ensures |s.eventQueue| == 0 ==> r == s
    ensures |s.eventQueue| > 0 ==>
              r.eventQueue == s.eventQueue[1..] &&
              |r.actionLogQueue| >= |s.actionLogQueue| && r.actionLogQueue[..|s.actionLogQueue|] == s.actionLogQueue
    ensures r.reputation == s.reputation && r.currentBoss == s.currentBoss &&
            r.combatMinigameActive == s.combatMinigameActive && r.isOverheated == s.isOverheated &&
            r.isCoolingGameActive == s.isCoolingGameActive
  {
    if |s.eventQueue| == 0 then s
    else
      var event := s.eventQueue[0];
      var answered := if HasOption(optionId) then ApplyOption(s.ship, s.reputation, optionId.value, d, stats, now)
                      else ApplyPassive(s.ship, event, d, now);
      s.(eventQueue := s.eventQueue[1..], ship := answered.0, actionLogQueue := s.actionLogQueue + answered.1)
  }

  /** The options that only change integrity, depth and heat, with their exact effects. */
  lemma StateOptions(s: EventSliceState, d: EventDraws, stats: TunnelStats, now: nat)
    requires |s.eventQueue| > 0
    ensures var r := HandleOutcome(s, Some(TectonicHold), d, stats, now);
            r.ship.integrity == Max(0.0, s.ship.integrity - 30.0) && r.ship.depth == s.ship.depth && r.ship.heat == s.ship.heat &&
            r.ship.resources == s.ship.resources
    ensures var r := HandleOutcome(s, Some(TectonicPush), d, stats, now);
            r.ship.depth == s.ship.depth + 1500.0 && r.ship.heat == Min(100.0, s.ship.heat + 40.0) && r.ship.integrity == s.ship.integrity
    ensures var r := HandleOutcome(s, Some(AiTrust), d, stats, now);
            r.ship.depth == s.ship.depth + 3000.0 && r.ship.heat == Min(100.0, s.ship.heat + 20.0) && r.ship.integrity == s.ship.integrity
    ensures HandleOutcome(s, Some(AiReboot), d, stats, now).ship.heat == 0.0
    ensures var r := HandleOutcome(s, Some(AcceptFluctuation), d, stats, now);
            r.ship.heat == 90.0 && |r.ship.activeEffects| == |s.ship.activeEffects| + 1 &&
            r.ship.activeEffects[..|s.ship.activeEffects|] == s.ship.activeEffects
  {
    assert CreateEffect("QUANTUM_FLUCTUATION_EFFECT").Some?;
  }

  /** POD_HACK adds 5 ancientTech and leaves every other amount alone. */
  lemma PodHackAnswer(s: EventSliceState, d: EventDraws, stats: TunnelStats, now: nat, k: string)
    requires |s.eventQueue| > 0
    ensures var r := HandleOutcome(s, Some(PodHack), d, stats, now).ship.resources;
            Amount(r, "ancientTech") == Amount(s.ship.resources, "ancientTech") + 5.0 &&
            (k != "ancientTech" ==> Amount(r, k) == Amount(s.ship.resources, k))
  {
  }

  /** PURGE_NANOMITES adds 50 nanoSwarm and leaves every other amount alone. */
  lemma PurgeNanomitesAnswer(s: EventSliceState, d: EventDraws, stats: TunnelStats, now: nat, k: string)
    requires |s.eventQueue| > 0
    ensures var r := HandleOutcome(s, Some(PurgeNanomites), d, stats, now).ship.resources;
            Amount(r, "nanoSwarm") == Amount(s.ship.resources, "nanoSwarm") + 50.0 &&
            (k != "nanoSwarm" ==> Amount(r, k) == Amount(s.ship.resources, k))
  {
  }

  /** CRYSTAL_ABSORB adds 2 diamonds, leaves every other amount alone and heats by 50 up to 100. */
  lemma CrystalAbsorbAnswer(s: EventSliceState, d: EventDraws, stats: TunnelStats, now: nat, k: string)
    requires |s.eventQueue| > 0
    ensures var r := HandleOutcome(s, Some(CrystalAbsorb), d, stats, now);
            Amount(r.ship.resources, "diamonds") == Amount(s.ship.resources, "diamonds") + 2.0 &&
            (k != "diamonds" ==> Amount(r.ship.resources, k) == Amount(s.ship.resources, k)) &&
            r.ship.heat == Min(100.0, s.ship.heat + 50.0)
  {
  }

  /** POD_LASER: a draw above 0.5 destroys the pod, otherwise 20 ancientTech and nothing else. */
  lemma PodLaserAnswer(s: EventSliceState, d: EventDraws, stats: TunnelStats, now: nat, k: string)
    requires |s.eventQueue| > 0
    ensures var r := HandleOutcome(s, Some(PodLaser), d, stats, now).ship.resources;
            (d.laserDraw > 0.5 ==> r == s.ship.resources) &&
            (d.laserDraw <= 0.5 ==> Amount(r, "ancientTech") == Amount(s.ship.resources, "ancientTech") + 20.0 &&
                                    (k != "ancientTech" ==> Amount(r, k) == Amount(s.ship.resources, k)))
  {
  }

  /** An option id with no case (such as "encounter_ignore") only dequeues the event. */
  lemma UnknownOptionOnlyDequeues(s: EventSliceState, optionId: string, d: EventDraws, stats: TunnelStats, now: nat)
    requires |s.eventQueue| > 0 && optionId != ""
    requires optionId !in {TectonicHold, TectonicPush, PodLaser, PodHack, AcceptFluctuation, RejectFluctuation,
                           AiTrust, AiReboot, PurgeNanomites, CrystalAbsorb}
    requires ActionToType(optionId).None?
    ensures HandleOutcome(s, Some(optionId), d, stats, now) == s.(eventQueue := s.eventQueue[1..])
  {
    assert s.actionLogQueue + [] == s.actionLogQueue;
  }

  /**
   * With no option, the effect is appended only when `createEffect` knows
   * it, and exactly one artifact is granted iff the event forces a drop,
   * lifting storage level 0 to 1.
   */
  lemma PassiveAnswer(s: EventSliceState, d: EventDraws, stats: TunnelStats, now: nat)
    requires |s.eventQueue| > 0
    ensures var e := s.eventQueue[0];
            var r := HandleOutcome(s, None, d, stats, now);
            var known := e.effectId.Some? && e.effectId.value != "" && e.effectId.value in EffectIds;
            (known ==> |r.ship.activeEffects| == |s.ship.activeEffects| + 1 && r.ship.activeEffects[..|s.ship.activeEffects|] == s.ship.activeEffects) &&
            (!known ==> r.ship.activeEffects == s.ship.activeEffects) &&
            (e.forceArtifactDrop ==> r.ship.inventory.Keys == s.ship.inventory.Keys + {d.artifactInstanceId} &&
                                     !r.ship.inventory[d.artifactInstanceId].isIdentified &&
                                     (s.ship.storageLevel == 0 ==> r.ship.storageLevel == 1)) &&
            (!e.forceArtifactDrop ==> r.ship.inventory == s.ship.inventory && r.ship.storageLevel == s.ship.storageLevel)
  {
  }

  /** No option drives integrity below 0 nor heat above 100 when they start in range. */
  lemma OptionKeepsGauges(s: Ship, reputation: map<string, real>, optionId: string, d: EventDraws, stats: TunnelStats, now: nat)
    requires s.integrity >= 0.0 && s.heat <= 100.0
    ensures var r := ApplyOption(s, reputation, optionId, d, stats, now).0;
            r.integrity >= 0.0 && r.heat <= 100.0
  {
    if optionId !in {TectonicHold, TectonicPush, PodLaser, PodHack, AcceptFluctuation, RejectFluctuation,
                     AiTrust, AiReboot, PurgeNanomites, CrystalAbsorb} && ActionToType(optionId).Some? {
      var _ := TunnelAnswer(s, reputation, optionId, d, stats, now);
    }
  }

  /** Answering never drives integrity below 0 nor heat above 100 when they start in range. */
  lemma AnswerKeepsGauges(s: EventSliceState, optionId: Option<string>, d: EventDraws, stats: TunnelStats, now: nat)
    requires s.ship.integrity >= 0.0 && s.ship.heat <= 100.0
    ensures var r := HandleOutcome(s, optionId, d, stats, now);
            r.ship.integrity >= 0.0 && r.ship.heat <= 100.0
  {
    if |s.eventQueue| > 0 && HasOption(optionId) {
      OptionKeepsGauges(s.ship, s.reputation, optionId.value, d, stats, now);
    }
  }

  /**
   * `completeCombatMinigame`: the minigame is cleared; with a boss, success
   * takes a quarter of its max hp and failure costs 20 integrity (floored
   * at 0); either way the boss loses invulnerability.
   */
  function CombatOutcome(s: EventSliceState, success: bool): (r: EventSliceState)
    ensures !r.combatMinigameActive
    ensures s.currentBoss.None? ==> r == s.(combatMinigameActive := false)
    ensures s.currentBoss.Some? ==>
              (r.currentBoss.Some? && !r.currentBoss.value.isInvulnerable &&
               r.currentBoss.value.maxHp == s.currentBoss.value.maxHp && r.currentBoss.value.id == s.currentBoss.value.id)
    ensures s.currentBoss.Some? && success ==>
              r.currentBoss.value.currentHp == s.currentBoss.value.currentHp - s.currentBoss.value.maxHp * 0.25 &&
              r.ship.integrity == s.ship.integrity
    ensures s.currentBoss.Some? && !success ==>
              r.currentBoss.value.currentHp == s.currentBoss.value.currentHp &&
              r.ship.integrity == Max(0.0, s.ship.integrity - 20.0)
  {
    var cleared := s.(combatMinigameActive := false);
    match s.currentBoss
    case None => cleared
    case Some(boss) =>
      if success then
        cleared.(currentBoss := Some(boss.(currentHp := boss.currentHp - boss.maxHp * 0.25, isInvulnerable := false)))
      else
        cleared.(ship := s.ship.(integrity := Max(0.0, s.ship.integrity - 20.0)), currentBoss := Some(boss.(isInvulnerable := false)))
  }

  /** Four successes take a boss from full health to at most 0 hp. */
  lemma FourHitsDefeatBoss(s: EventSliceState)
    requires s.currentBoss.Some? && s.currentBoss.value.currentHp <= s.currentBoss.value.maxHp
    ensures var r := CombatOutcome(CombatOutcome(CombatOutcome(CombatOutcome(s, true), true), true), true);
            r.currentBoss.Some? && r.currentBoss.value.currentHp <= 0.0
  {
  }

  /** `triggerOverheat`: heat 100, overheated, cooling game off, and ceil(20% of max integrity) damage. */
  function OverheatOutcome(s: EventSliceState, maxIntegrity: real): (r: EventSliceState)
    ensures r.ship.heat == 100.0 && r.isOverheated && !r.isCoolingGameActive
    ensures r.ship.integrity == Max(0.0, s.ship.integrity - Ceil(maxIntegrity * 0.2) as real)
    ensures maxIntegrity >= 0.0 && s.ship.integrity >= 0.0 ==> 0.0 <= r.ship.integrity <= s.ship.integrity
  {
    var dmg := Ceil(maxIntegrity * 0.2);
    s.(ship := s.ship.(heat := 100.0, integrity := Max(0.0, s.ship.integrity - dmg as real)),
       isOverheated := true, isCoolingGameActive := false)
  }

  /** The event actions over the store. */
  class EventStore {
    var eventQueue: seq<GameEvent>
    var actionLogQueue: seq<VisualEvent>
    var integrity: real
    var depth: real
    var heat: real
    var resources: Resources
    var inventory: Inventory
    var storageLevel: int
    var activeEffects: seq<ActiveEffect>
    var reputation: map<string, real>
    var combatMinigameActive: bool
    var currentBoss: Option<Boss>
    var isCoolingGameActive: bool
    var isOverheated: bool

    /** The fields an answer can change, as one record. */
    function ShipState(): Ship
      reads this
    {
      Ship(integrity, depth, heat, resources, inventory, storageLevel, activeEffects)
    }

    /** The fields as one record. */
    function State(): EventSliceState
      reads this
    {
      EventSliceState(eventQueue, actionLogQueue, ShipState(), reputation, combatMinigameActive, currentBoss,
                      isCoolingGameActive, isOverheated)
    }

    /** Writes a record of the answerable fields back. */
    method SetShip(s: Ship)
      modifies this
      ensures ShipState() == s
      ensures eventQueue == old(eventQueue) && actionLogQueue == old(actionLogQueue) && reputation == old(reputation)
      ensures combatMinigameActive == old(combatMinigameActive) && currentBoss == old(currentBoss)
      ensures isCoolingGameActive == old(isCoolingGameActive) && isOverheated == old(isOverheated)
    {
      integrity := s.integrity;
      depth := s.depth;
      heat := s.heat;
      resources := s.resources;
      inventory := s.inventory;
      storageLevel := s.storageLevel;
      activeEffects := s.activeEffects;
    }

    /** `handleEventOption`. */
    method HandleEventOption(optionId: Option<string>, d: EventDraws, stats: TunnelStats, now: nat)
      modifies this
      ensures State() == HandleOutcome(old(State()), optionId, d, stats, now)
    {
      var s := ShipState();
      if |eventQueue| == 0 {
        return;
      }
      var event := eventQueue[0];
      var updates: Ship;
      var logs: seq<VisualEvent>;
      if HasOption(optionId) {
        updates, logs := AnswerOption(s, reputation, optionId.value, d, stats, now);
      } else {
        updates, logs := PassiveAnswer(s, event, d, now);
      }
      eventQueue := eventQueue[1..];
      SetShip(updates);
      actionLogQueue := actionLogQueue + logs;
    }

    /** The branch without an option: the event's own effect and forced artifact. */
    static method PassiveAnswer(s: Ship, event: GameEvent, d: EventDraws, now: nat)
      returns (updates: Ship, logs: seq<VisualEvent>)
      ensures (updates, logs) == ApplyPassive(s, event, d, now)
    {
      updates := s;
      logs := [];
      if event.effectId.Some? && event.effectId.value != "" {
        var effect := CreateEffect(event.effectId.value);
        if effect.Some? {
          updates := updates.(activeEffects := s.activeEffects + [Stamped(effect.value, now)]);
          logs := [Log("effect_" + effect.value.id)];
        }
      }
      if event.forceArtifactDrop {
        updates := updates.(inventory := AddArtifact(s.inventory, d.artifactInstanceId, d.artifactDefId, now));
        if s.storageLevel == 0 {
          updates := updates.(storageLevel := 1);
        }
        logs := logs + [Log("artifact_found"), Sound("ACHIEVEMENT")];
      }
    }

    /** The option `switch`, on a copy of the answerable fields. */
    static method AnswerOption(s: Ship, reputation: map<string, real>, optionId: string, d: EventDraws,
                               stats: TunnelStats, now: nat)
      returns (updates: Ship, logs: seq<VisualEvent>)
      ensures (updates, logs) == ApplyOption(s, reputation, optionId, d, stats, now)
    {
      updates := s;
      logs := [];
      if optionId == TectonicHold {
        updates := updates.(integrity := Max(0.0, s.integrity - 30.0));
        logs := [DamageText(30.0), Log("tectonic_hold")];
      } else if optionId == TectonicPush {
        updates := updates.(depth := s.depth + 1500.0, heat := Min(100.0, s.heat + 40.0));
        logs := [Log("tectonic_push")];
      } else if optionId == PodLaser {
        if d.laserDraw > 0.5 {
          logs := [Log("pod_laser_destroyed")];
        } else {
          updates := updates.(resources := Credit(s.resources, "ancientTech", 20.0));
          logs := [LogAmount("ancientTech", 20.0)];
        }
      } else if optionId == PodHack {
        updates := updates.(resources := Credit(s.resources, "ancientTech", 5.0));
        logs := [LogAmount("ancientTech", 5.0)];
      } else if optionId == AcceptFluctuation {
        var eff := CreateEffect("QUANTUM_FLUCTUATION_EFFECT");
        if eff.Some? {
          updates := updates.(activeEffects := s.activeEffects + [Stamped(eff.value, now)]);
        }
        updates := updates.(heat := 90.0);
        logs := [Log("accept_fluctuation")];
      } else if optionId == RejectFluctuation {
        logs := [Log("reject_fluctuation")];
      } else if optionId == AiTrust {
        updates := updates.(depth := s.depth + 3000.0, heat := Min(100.0, s.heat + 20.0));
        logs := [Log("ai_trust")];
      } else if optionId == AiReboot {
        updates := updates.(heat := 0.0);
        logs := [Log("ai_reboot")];
      } else if optionId == PurgeNanomites {
        updates := updates.(resources := Credit(s.resources, "nanoSwarm", 50.0));
        logs := [LogAmount("nanoSwarm", 50.0)];
      } else if optionId == CrystalAbsorb {
        updates := updates.(resources := Credit(s.resources, "diamonds", 2.0), heat := Min(100.0, s.heat + 50.0));
        logs := [LogAmount("diamonds", 2.0)];
      } else if ActionToType(optionId).Some? {
        updates, logs := AnswerTunnel(s, reputation, optionId, d, stats, now);
      }
    }

    /** The tunnel cases of the `switch`. */
    static method AnswerTunnel(s: Ship, reputation: map<string, real>, optionId: string, d: EventDraws,
                               stats: TunnelStats, now: nat)
      returns (updates: Ship, logs: seq<VisualEvent>)
      requires ActionToType(optionId).Some?
      ensures (updates, logs) == TunnelAnswer(s, reputation, optionId, d, stats, now)
    {
      updates := s;
      var activePerks := GetActivePerkIds(reputation);
      var result := ResolveTunnel(optionId, TunnelView(s), activePerks, stats, d.tunnel, now);
      updates := updates.(resources := result.updates.resources.value);
      if result.updates.inventory.Some? {
        updates := updates.(inventory := result.updates.inventory.value);
      }
      if result.updates.integrity.Some? {
        updates := updates.(integrity := result.updates.integrity.value);
      }
      if result.updates.storageLevel.Some? && result.updates.storageLevel.value != 0 {
        updates := updates.(storageLevel := result.updates.storageLevel.value);
      }
      logs := result.logs;
    }

    /** `completeCombatMinigame`. */
    method CompleteCombatMinigame(success: bool)
      modifies this
      ensures State() == CombatOutcome(old(State()), success)
    {
      combatMinigameActive := false;
      if currentBoss.Some? {
        var boss := currentBoss.value;
        if success {
          currentBoss := Some(boss.(currentHp := boss.currentHp - boss.maxHp * 0.25, isInvulnerable := false));
        } else {
          integrity := Max(0.0, integrity - 20.0);
          currentBoss := Some(boss.(isInvulnerable := false));
        }
      }
    }

    /** `setCoolingGame`. */
    method SetCoolingGame(active: bool)
      modifies this
      ensures State() == old(State()).(isCoolingGameActive := active)
    {
      isCoolingGameActive := active;
    }

    /** `forceVentHeat`: heat drops by `amount` and never below 0. */
    method ForceVentHeat(amount: real)
      modifies this
      ensures State() == old(State()).(ship := old(ShipState()).(heat := Max(0.0, old(heat) - amount)))
      ensures heat >= 0.0 && (amount >= 0.0 ==> heat <= old(heat) || heat == 0.0)
    {
      heat := Max(0.0, heat - amount);
    }

    /** `triggerOverheat`; `maxIntegrity` is the hull's base max integrity. */
    method TriggerOverheat(maxIntegrity: real)
      modifies this
      ensures State() == OverheatOutcome(old(State()), maxIntegrity)
    {
      var dmg := Ceil(maxIntegrity * 0.2);
      heat := 100.0;
      isOverheated := true;
      integrity := Max(0.0, integrity - dmg as real);
      isCoolingGameActive := false;
    }
  }
}
