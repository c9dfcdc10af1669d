// The event tick: trigger and cooldown gating, the event queue, the window
// of recent ids, the cooldown table and instant effects
// (services/systems/EventSystem.ts).

module EventSystem {
  import opened GameTypes
  import opened EventRegistry

  /** An event with no triggers fires anywhere; otherwise only on a listed trigger. */
  function MatchesTrigger(e: GameEvent, t: EventTrigger): (r: bool)
    ensures r <==> |e.triggers| == 0 || t in e.triggers
  {
    if |e.triggers| == 0 then true else t in e.triggers
  }

  /** The tick always checks the drilling trigger, so a catalogue event can fire only if it has no triggers or lists drilling. */
  lemma DrillingOnlyEvents()
    ensures forall i :: 0 <= i < |Events| ==> (!MatchesTrigger(Events[i], Drilling) <==> Events[i].id in NonDrillingIds)
  {
    DrillingOnlyIn(0, 13);
    DrillingOnlyIn(13, 26);
  }

  /** The catalogue events that never fire from the drilling tick. */
  const NonDrillingIds: set<string> :=
    {"COSMIC_STORM", "PIRATE_RAID", "CARAVAN_DELAY", "BLACK_MARKET_TIP", "RESCUE_CONVOY", "DEFEND_THE_BASE", "PRICE_SPIKE"}

  /** DrillingOnlyEvents for the events in [lo, hi), one half of the catalogue at a time. */
  lemma DrillingOnlyIn(lo: nat, hi: nat)
    requires (lo, hi) == (0, 13) || (lo, hi) == (13, 26)
    ensures forall i :: lo <= i < hi ==> (!MatchesTrigger(Events[i], Drilling) <==> Events[i].id in NonDrillingIds)
  {
  }

  /** The last firing time of an event, a missing entry read as 0. */
  function LastTrigger(cooldowns: map<string, int>, id: string): int
  {
    if id in cooldowns then cooldowns[id] else 0
  }

  /** Within `cooldown` seconds of the last firing; a 0 cooldown never blocks. */
  function IsOnCooldown(id: string, cooldowns: map<string, int>, now: int, cooldown: real): (r: bool)
    ensures cooldown == 0.0 ==> !r
    ensures cooldown != 0.0 ==> (r <==> ((now - LastTrigger(cooldowns, id)) as real) < cooldown * 1000.0)
  {
    if cooldown == 0.0 then false
    else
      var timeSinceLastTrigger := now - LastTrigger(cooldowns, id);
      (timeSinceLastTrigger as real) < cooldown * 1000.0
  }

  /** Firing at `t` blocks the event until `t + cooldown·1000` and no longer. */
  lemma CooldownWindow(id: string, cooldowns: map<string, int>, t: int, now: int, cooldown: real)
    requires cooldown > 0.0 && now >= t
    ensures IsOnCooldown(id, cooldowns[id := t], now, cooldown) <==> ((now - t) as real) < cooldown * 1000.0
    ensures now == t ==> IsOnCooldown(id, cooldowns[id := t], now, cooldown)
  {
  }

  /** Appends an id and drops the oldest one once when more than five are held. */
  function PushRecent(recent: seq<string>, id: string): (r: seq<string>)
    ensures |r| > 0 && r[|r| - 1] == id
    ensures |recent| <= 5 ==> |r| <= 5
    ensures (|r| == |recent| + 1 || |r| == |recent|) && r == (recent + [id])[|recent| + 1 - |r|..]
  {
    var appended := recent + [id];
    if |appended| > 5 then appended[1..] else appended
  }

  /** The game state the tick reads. `eventCheckTick` missing is read as 0. */
  datatype EventState = EventState(
    eventCheckTick: nat,
    eventQueue: seq<GameEvent>,
    recentEventIds: seq<string>,
    hasBoss: bool,
    combatMinigameActive: bool,
    depth: real,
    heat: real,
    integrity: real,
    xp: real)

  /** The tick's partial update; None marks a field it does not write. */
  datatype EventUpdate = EventUpdate(
    eventCheckTick: nat,
    eventQueue: seq<GameEvent>,
    recentEventIds: seq<string>,
    integrity: Option<real>,
    depth: Option<real>,
    xp: Option<real>,
    heat: Option<real>)

  /** A check runs on the tenth tick with an empty queue, no boss and no combat minigame. */
  predicate CheckRuns(s: EventState)
  {
    s.eventCheckTick + 1 >= 10 && |s.eventQueue| == 0 && !s.hasBoss && !s.combatMinigameActive
  }

  /**
   * The event that fires: a check runs, the roll (draw `u`) yields a
   * candidate that matches the drilling trigger and is off cooldown, and the
   * draw `draw` falls below its probability `probabilityOf(e)`.
   */
  function Fired(s: EventState, cooldowns: map<string, int>, now: int, u: real,
                 probabilityOf: GameEvent -> real, draw: real): (r: Option<GameEvent>)
    ensures r.Some? ==> CheckRuns(s) && RollOutcome(s.recentEventIds, s.depth, u) == r
    ensures r.Some? ==> MatchesTrigger(r.value, Drilling) && draw < probabilityOf(r.value)
    ensures r.Some? ==> !IsOnCooldown(r.value.id, cooldowns, now, r.value.cooldown)
  {
    if !CheckRuns(s) then None
    else match RollOutcome(s.recentEventIds, s.depth, u)
      case None => None
      case Some(e) =>
        if !MatchesTrigger(e, Drilling) then None
        else if e.cooldown != 0.0 && IsOnCooldown(e.id, cooldowns, now, e.cooldown) then None
        else if draw < probabilityOf(e) then Some(e)
        else None
  }

  /** Updates and log lines of the instant effects of a fired event. */
  datatype InstantResult = InstantResult(
    integrity: Option<real>, depth: Option<real>, xp: Option<real>, heat: Option<real>,
    events: seq<VisualEvent>)

  /**
   * Instant damage (a fraction of the stats' max integrity, floored), depth,
   * xp and heat; each applies only when its field is non-zero.
   */
  function InstantEffects(e: GameEvent, s: EventState, statsIntegrity: real): (r: InstantResult)
    ensures r.integrity.Some? <==> e.instantDamage != 0.0
    ensures r.integrity.Some? ==>
              (r.integrity.value >= 0.0 &&
               r.integrity.value == Max(0.0, s.integrity - Floor(statsIntegrity * e.instantDamage)))
    ensures r.depth.Some? <==> e.instantDepth != 0.0
    ensures r.depth.Some? ==> r.depth.value == s.depth + e.instantDepth
    ensures r.xp.Some? <==> e.instantXp != 0.0
    ensures r.xp.Some? ==> r.xp.value == s.xp + e.instantXp
    ensures r.heat.Some? <==> e.instantHeat != 0.0
    ensures r.heat.Some? ==> (r.heat.value <= 100.0 && r.heat.value == Min(100.0, s.heat + e.instantHeat))
  {
    var dmg := Floor(statsIntegrity * e.instantDamage);
    var damage := if e.instantDamage != 0.0 then Some(Max(0.0, s.integrity - dmg)) else None;
    var damageLog := if e.instantDamage != 0.0 then [LogAmount("critical_damage", dmg), DamageText(dmg)] else [];
    var depth := if e.instantDepth != 0.0 then Some(s.depth + e.instantDepth) else None;
    var depthLog := if e.instantDepth != 0.0 then [LogAmount("depth_jump", e.instantDepth)] else [];
    var xp := if e.instantXp != 0.0 then Some(s.xp + e.instantXp) else None;
    var xpLog := if e.instantXp != 0.0 then [LogAmount("xp_gain", e.instantXp)] else [];
    var heat := if e.instantHeat != 0.0 then Some(Min(100.0, s.heat + e.instantHeat)) else None;
    var heatLog := if e.instantHeat != 0.0 then [LogAmount("heat_gain", e.instantHeat)] else [];
    InstantResult(damage, depth, xp, heat, damageLog + depthLog + xpLog + heatLog)
  }

  /**
   * The amount of an instant resource: the mean (100 when absent); with a
   * mean and a deviation, the normal `sample` clamped into
   * [amountMin or 0, amountMax or 1000].
   */
  function InstantAmount(res: InstantResource, sample: real): (amount: real)
    ensures var lo := if Truthy(res.amountMin) then res.amountMin.value else 0.0;
            var hi := if Truthy(res.amountMax) then res.amountMax.value else 1000.0;
            Truthy(res.amountMean) && Truthy(res.amountStdDev) && lo <= hi ==> lo <= amount <= hi
    ensures !(Truthy(res.amountMean) && Truthy(res.amountStdDev)) ==>
              amount == (if Truthy(res.amountMean) then res.amountMean.value else 100.0)
  {
    var mean := if Truthy(res.amountMean) then res.amountMean.value else 100.0;
    if Truthy(res.amountMean) && Truthy(res.amountStdDev) then
      var lo := if Truthy(res.amountMin) then res.amountMin.value else 0.0;
      var hi := if Truthy(res.amountMax) then res.amountMax.value else 1000.0;
      Max(lo, Min(hi, sample))
    else mean
  }

  /** A present, non-zero number (JavaScript truthiness). */
  predicate Truthy(x: Option<real>)
  {
    x.Some? && x.value != 0.0
  }

  /** Catalogue instant resources clamp any sample into their declared range. */
  lemma CatalogueInstantAmounts(sample: real)
    ensures 50.0 <= InstantAmount(Events[3].instantResource.value, sample) <= 150.0
    ensures 200.0 <= InstantAmount(Events[5].instantResource.value, sample) <= 500.0
  {
  }

  /** The log line of an instant resource (the resource itself is not credited). */
  function InstantResourceLog(e: GameEvent, sample: real): seq<VisualEvent>
  {
    match e.instantResource
    case Some(res) => [LogAmount("instant_" + res.kind, Floor(InstantAmount(res, sample)))]
    case None => []
  }

  datatype TickResult = TickResult(update: EventUpdate, events: seq<VisualEvent>)

  /**
   * One event tick (without the in-place cooldown write): the counter, the
   * queue, the recent window, the instant effects and the visual events.
   */
  function EventTick(s: EventState, cooldowns: map<string, int>, now: int, u: real,
                     probabilityOf: GameEvent -> real, draw: real, sample: real, statsIntegrity: real): (r: TickResult)
    ensures r.update.eventCheckTick == 0 <==> CheckRuns(s)
    ensures !CheckRuns(s) ==> r.update.eventCheckTick == s.eventCheckTick + 1
    ensures Fired(s, cooldowns, now, u, probabilityOf, draw).None? ==>
              r.update == EventUpdate(r.update.eventCheckTick, s.eventQueue, s.recentEventIds, None, None, None, None) &&
              r.events == []
    ensures Fired(s, cooldowns, now, u, probabilityOf, draw).Some? ==>
              var e := Fired(s, cooldowns, now, u, probabilityOf, draw).value;
              r.update.eventQueue == s.eventQueue + [e] &&
              r.update.recentEventIds == PushRecent(s.recentEventIds, e.id) &&
              |r.events| >= 2 && r.events[..2] == [Sound("LOG"), Log("event_" + e.id)]
    ensures |s.recentEventIds| <= 5 ==> |r.update.recentEventIds| <= 5
    ensures r.update.integrity.Some? ==> r.update.integrity.value >= 0.0
    ensures r.update.heat.Some? ==> r.update.heat.value <= 100.0
  {
    var tick := if CheckRuns(s) then 0 else s.eventCheckTick + 1;
    match Fired(s, cooldowns, now, u, probabilityOf, draw)
    case None => TickResult(EventUpdate(tick, s.eventQueue, s.recentEventIds, None, None, None, None), [])
    case Some(e) =>
      var inst := InstantEffects(e, s, statsIntegrity);
      TickResult(
        EventUpdate(tick, s.eventQueue + [e], PushRecent(s.recentEventIds, e.id), inst.integrity, inst.depth, inst.xp, inst.heat),
        [Sound("LOG"), Log("event_" + e.id)] + inst.events + InstantResourceLog(e, sample))
  }

  /** A fired event is a catalogue event that was not recent and is deep enough. */
  lemma FiredIsEligible(s: EventState, cooldowns: map<string, int>, now: int, u: real,
                        probabilityOf: GameEvent -> real, draw: real)
    ensures var r := Fired(s, cooldowns, now, u, probabilityOf, draw);
            r.Some? ==> r.value in Events && r.value.id !in s.recentEventIds &&
                        (r.value.minDepth == 0.0 || s.depth >= r.value.minDepth)
  {
    RollIsEligible(s.recentEventIds, s.depth, u);
  }

  /** With a non-empty queue, a boss or a combat minigame, nothing fires and the counter only counts. */
  lemma BlockedTickOnlyCounts(s: EventState, cooldowns: map<string, int>, now: int, u: real,
                              probabilityOf: GameEvent -> real, draw: real, sample: real, statsIntegrity: real)
    requires |s.eventQueue| > 0 || s.hasBoss || s.combatMinigameActive
    ensures var r := EventTick(s, cooldowns, now, u, probabilityOf, draw, sample, statsIntegrity);
            r.update == EventUpdate(s.eventCheckTick + 1, s.eventQueue, s.recentEventIds, None, None, None, None) &&
            r.events == []
  {
  }

  /** The tick's result when the event `e` fires. */
  lemma FiredTick(s: EventState, cooldowns: map<string, int>, now: int, u: real,
                  probabilityOf: GameEvent -> real, draw: real, sample: real, statsIntegrity: real, e: GameEvent)
    requires Fired(s, cooldowns, now, u, probabilityOf, draw) == Some(e)
    ensures var inst := InstantEffects(e, s, statsIntegrity);
            EventTick(s, cooldowns, now, u, probabilityOf, draw, sample, statsIntegrity) ==
              TickResult(
                EventUpdate(0, s.eventQueue + [e], PushRecent(s.recentEventIds, e.id), inst.integrity, inst.depth, inst.xp, inst.heat),
                [Sound("LOG"), Log("event_" + e.id)] + inst.events + InstantResourceLog(e, sample))
  {
  }

  /** The cooldown table, an object the tick writes in place. */
  class CooldownTable {
    var entries: map<string, int>

    constructor(entries: map<string, int>)
      ensures this.entries == entries
    {
      this.entries := entries;
    }
  }

  /**
   * `processEvents`: the tick as the source runs it. `now` is Date.now(),
   * `u` the roll's draw, `probabilityOf` the event probability model,
   * `draw` the draw compared with it, `sample` the normal sample and
   * `statsIntegrity` the computed max integrity. A fired event's time is
   * written into `cooldowns` in place.
   */
  method ProcessEvents(s: EventState, cooldowns: CooldownTable, now: int, u: real,
                       probabilityOf: GameEvent -> real, draw: real, sample: real, statsIntegrity: real)
    returns (update: EventUpdate, events: seq<VisualEvent>)
    modifies cooldowns
    ensures TickResult(update, events) == EventTick(s, old(cooldowns.entries), now, u, probabilityOf, draw, sample, statsIntegrity)
    ensures var fired := Fired(s, old(cooldowns.entries), now, u, probabilityOf, draw);
            cooldowns.entries == if fired.Some? then old(cooldowns.entries)[fired.value.id := now] else old(cooldowns.entries)
  {
    ghost var fired := Fired(s, cooldowns.entries, now, u, probabilityOf, draw);
    events := [];
    var eventCheckTick := s.eventCheckTick + 1;
    var eventQueue := s.eventQueue;
    var recentEventIds := s.recentEventIds;
    update := EventUpdate(eventCheckTick, eventQueue, recentEventIds, None, None, None, None);
    if eventCheckTick >= 10 && |eventQueue| == 0 && !s.hasBoss && !s.combatMinigameActive {
      eventCheckTick := 0;
      update := update.(eventCheckTick := 0);
      var candidate := RollRandomEvent(recentEventIds, s.depth, s.heat, u);
      if candidate.Some? {
        var e := candidate.value;
        if !MatchesTrigger(e, Drilling) {
          assert fired.None?;
          return;
        }
        if e.cooldown != 0.0 && IsOnCooldown(e.id, cooldowns.entries, now, e.cooldown) {
          assert fired.None?;
          return;
        }
        var probability := probabilityOf(e);
        if draw < probability {
          assert fired == Some(e);
          FiredTick(s, cooldowns.entries, now, u, probabilityOf, draw, sample, statsIntegrity, e);
          eventQueue := eventQueue + [e];
          recentEventIds := recentEventIds + [e.id];
          cooldowns.entries := cooldowns.entries[e.id := now];
          if |recentEventIds| > 5 {
            recentEventIds := recentEventIds[1..];
          }
          events := [Sound("LOG"), Log("event_" + e.id)];
          var inst := InstantEffects(e, s, statsIntegrity);
          events := events + inst.events + InstantResourceLog(e, sample);
          update := EventUpdate(eventCheckTick, eventQueue, recentEventIds, inst.integrity, inst.depth, inst.xp, inst.heat);
        } else {
          assert fired.None?;
        }
      } else {
        assert fired.None?;
      }
    } else {
      assert fired.None?;
    }
  }
}
