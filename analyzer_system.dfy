// The artifact analyzer: its countdown, sped up by a research lab, and the
// identification of the analysed item (services/systems/AnalyzerSystem.ts).

module AnalyzerSystem {
  import opened GameTypes

  /** `GameState.analyzer`: the item under analysis (null when idle) and its timer. */
  datatype AnalyzerState = AnalyzerState(activeItemInstanceId: Option<string>, timeLeft: real, maxTime: real)

  /** What one analyzer tick produces. */
  datatype AnalyzerResult = AnalyzerResult(
    analyzer: AnalyzerState,
    discoveredArtifacts: seq<string>,
    inventoryChanges: map<string, InventoryItem>,
    events: seq<VisualEvent>)

  /** The JavaScript truthiness of the active id: set and not the empty string. */
  predicate Busy(an: AnalyzerState)
  {
    an.activeItemInstanceId.Some? && an.activeItemInstanceId.value != ""
  }

  /**
   * The first active base of the region exists but carries no `facilities`:
   * `regionBase?.facilities.includes(...)` then throws a TypeError, since the
   * optional chain only covers a missing base.
   */
  predicate LabLookupThrows(bases: seq<PlayerBase>, region: RegionId)
  {
    var b := FindBase(bases, region, true);
    b.Some? && b.value.facilities.None?
  }

  /** The first active base of the region has a research lab. */
  predicate HasLab(bases: seq<PlayerBase>, region: RegionId)
  {
    var b := FindBase(bases, region, true);
    b.Some? && b.value.facilities.Some? && "research_lab" in b.value.facilities.value
  }

  /** No entry of the list occurs twice. */
  predicate NoDuplicates(s: seq<string>)
  {
    forall i, j :: 0 <= i < j < |s| ==> s[i] != s[j]
  }

  /** The countdown step: 2 with a lab in the current region, otherwise 1; the lab lookup may throw. */
  function Decrement(bases: seq<PlayerBase>, region: RegionId): (d: Result<real, string>)
    ensures d.Err? <==> LabLookupThrows(bases, region)
    ensures d.Ok? ==> d.value == 1.0 || d.value == 2.0
    ensures d == Ok(2.0) <==> HasLab(bases, region)
  {
    var b := FindBase(bases, region, true);
    if b.None? then Ok(1.0)
    else if b.value.facilities.None? then Err("TypeError")
    else if "research_lab" in b.value.facilities.value then Ok(2.0)
    else Ok(1.0)
  }

  /** The countdown step of one tick runs: the item is set and time is left. */
  predicate Counting(an: AnalyzerState)
  {
    Busy(an) && an.timeLeft > 0.0
  }

  /** The timer after the countdown step of one tick, or the error the lab lookup throws. */
  function CountedDown(an: AnalyzerState, bases: seq<PlayerBase>, region: RegionId): (r: Result<AnalyzerState, string>)
    ensures r.Err? <==> Counting(an) && LabLookupThrows(bases, region)
    ensures r.Ok? ==> r.value.activeItemInstanceId == an.activeItemInstanceId && r.value.maxTime == an.maxTime
    ensures r.Ok? && Counting(an) ==> r.value.timeLeft >= 0.0 && (r.value.timeLeft <= an.timeLeft - 1.0 || r.value.timeLeft == 0.0)
    ensures !Counting(an) ==> r == Ok(an)
  {
    if Counting(an) then
      match Decrement(bases, region)
      case Err(e) => Err(e)
      case Ok(d) => Ok(an.(timeLeft := Max(0.0, an.timeLeft - d)))
    else Ok(an)
  }

  /**
   * `processAnalyzer`. `artifactIds` are the ids of the artifact catalogue,
   * which is not part of this model; an item whose definition is not in it is
   * still identified, but nothing is added to the discovered list. A throw
   * of the lab lookup is the `Err` result.
   */
  function ProcessAnalyzer(an: AnalyzerState, discovered: seq<string>, inventory: Inventory,
                           bases: seq<PlayerBase>, currentRegion: RegionId, artifactIds: set<string>): (r: Result<AnalyzerResult, string>)
    // The tick throws exactly when it counts down and the region's active base has no facilities.
    ensures r.Err? <==> Counting(an) && LabLookupThrows(bases, currentRegion)
    // Idle: nothing changes.
    ensures !Busy(an) ==> r == Ok(AnalyzerResult(an, discovered, map[], []))
    // The countdown: by 2 with a research lab in an active base of the region, else by 1, floored at 0.
    ensures Counting(an) && Decrement(bases, currentRegion).Ok? && an.timeLeft > Decrement(bases, currentRegion).value ==>
      r.Ok? && r.value.analyzer == an.(timeLeft := an.timeLeft - (if HasLab(bases, currentRegion) then 2.0 else 1.0))
    ensures r.Ok? ==> r.value.analyzer.maxTime == an.maxTime
    // Completion with the item present: identified, the id cleared, a log and a sound.
    ensures (Busy(an) && CountedDown(an, bases, currentRegion).Ok? && CountedDown(an, bases, currentRegion).value.timeLeft <= 0.0 &&
             an.activeItemInstanceId.value in inventory) ==>
      r.Ok? &&
      (var id := an.activeItemInstanceId.value;
       r.value.inventoryChanges == map[id := inventory[id].(isIdentified := true)] &&
       r.value.analyzer.activeItemInstanceId.None? && |r.value.events| == 2 && r.value.events[1] == Sound("ACHIEVEMENT"))
    // A missing item keeps the analyzer waiting with its id set.
    ensures r.Ok? && Busy(an) && an.activeItemInstanceId.value !in inventory ==>
      r.value.analyzer.activeItemInstanceId == an.activeItemInstanceId && r.value.inventoryChanges == map[] && r.value.events == []
    // At most one inventory change, keyed by the active id.
    ensures r.Ok? ==> r.value.inventoryChanges.Keys <= (if Busy(an) then {an.activeItemInstanceId.value} else {})
    // The discovered list only gains the item's definition id, and only if it was absent.
    ensures r.Ok? ==> (r.value.discoveredArtifacts == discovered ||
      (exists d :: d in artifactIds && d !in discovered && r.value.discoveredArtifacts == discovered + [d]))
    ensures r.Ok? && NoDuplicates(discovered) ==> NoDuplicates(r.value.discoveredArtifacts)
  {
    match CountedDown(an, bases, currentRegion)
    case Err(e) => Err(e)
    case Ok(next) =>
      if Busy(next) && next.timeLeft <= 0.0 && next.activeItemInstanceId.value in inventory then
        var itemId := next.activeItemInstanceId.value;
        var item := inventory[itemId];
        var discovered' :=
          if item.definitionId in artifactIds && item.definitionId !in discovered then discovered + [item.definitionId]
          else discovered;
        Ok(AnalyzerResult(next.(activeItemInstanceId := None), discovered',
                          map[itemId := item.(isIdentified := true)],
                          [Log("ANALYSIS_COMPLETE"), Sound("ACHIEVEMENT")]))
      else Ok(AnalyzerResult(next, discovered, map[], []))
  }

  /** The analyzer after `n` ticks with the same inventory, bases and region, or the first error. */
  function Ticks(an: AnalyzerState, n: nat, inventory: Inventory, bases: seq<PlayerBase>, region: RegionId): Result<AnalyzerState, string>
    decreases n
  {
    if n == 0 then Ok(an)
    else
      match ProcessAnalyzer(an, [], inventory, bases, region, {})
      case Err(e) => Err(e)
      case Ok(t) => Ticks(t.analyzer, n - 1, inventory, bases, region)
  }

  /** Once idle, the analyzer stays idle. */
  lemma {:induction false} IdleStaysIdle(an: AnalyzerState, n: nat, inventory: Inventory, bases: seq<PlayerBase>, region: RegionId)
    requires !Busy(an)
    ensures Ticks(an, n, inventory, bases, region) == Ok(an)
    decreases n
  {
    if n > 0 {
      IdleStaysIdle(an, n - 1, inventory, bases, region);
    }
  }

  /**
   * An item present in the inventory is identified within `n` ticks whenever
   * its remaining time is at most `n` and the region's lab lookup does not
   * throw: every tick takes at least 1 off.
   */
  lemma {:induction false} AnalysisCompletes(an: AnalyzerState, n: nat, inventory: Inventory, bases: seq<PlayerBase>, region: RegionId)
    requires Busy(an) && an.activeItemInstanceId.value in inventory
    requires !LabLookupThrows(bases, region)
    requires n >= 1 && an.timeLeft <= n as real
    ensures Ticks(an, n, inventory, bases, region).Ok? && !Busy(Ticks(an, n, inventory, bases, region).value)
    decreases n
  {
    var next := ProcessAnalyzer(an, [], inventory, bases, region, {}).value.analyzer;
    if !Busy(next) {
      IdleStaysIdle(next, n - 1, inventory, bases, region);
    } else {
      assert next.timeLeft <= (n - 1) as real;
      AnalysisCompletes(next, n - 1, inventory, bases, region);
    }
  }
}
