// Building player bases and finishing their construction
// (store/slices/baseSlice.ts). The cost, build time, storage capacity and
// workshop range tables live in a constants file that is not part of this
// model; the actions take the entries for the chosen base type as inputs.

module BaseSlice {
  import opened GameTypes
  import AnalyzerSystem

  /** `BASE_COSTS[type]`: rubies plus material entries in their listed order. */
  datatype BaseCost = BaseCost(credits: real, materials: seq<(string, real)>)

  /** What one base type costs and gets, read from the tables for the chosen type and region. */
  datatype BaseTerms = BaseTerms(cost: BaseCost, buildTime: nat, storageCapacity: real, workshopTierRange: TierRange)

  /** The fields the slice writes. */
  datatype BaseState = BaseState(resources: Resources, playerBases: seq<PlayerBase>, actionLogQueue: seq<VisualEvent>)

  /** At most one base per region. */
  predicate OneBasePerRegion(bases: seq<PlayerBase>)
  {
    forall i, j :: 0 <= i < j < |bases| ==> bases[i].regionId != bases[j].regionId
  }

  /** The base `buildBase` creates at time `now`; its literal sets no `facilities`. */
  function NewBase(regionId: RegionId, baseType: BaseType, terms: BaseTerms, now: nat): (b: PlayerBase)
    ensures b.id == "base_" + RegionKey(regionId) + "_" + NatToString(now)
    ensures b.regionId == regionId && b.baseType == baseType
    ensures b.status == Active <==> terms.buildTime == 0
    ensures b.constructionStartTime == b.lastVisitedAt == now
    ensures b.constructionCompletionTime == now + terms.buildTime
    ensures b.storedResources == map[] && b.upgradeLevel == 1 && b.storageCapacity == terms.storageCapacity
    ensures b.hasWorkshop <==> baseType != Outpost
    ensures (b.hasFuelFacilities <==> baseType == Station) && (b.hasMarket <==> baseType == Station)
    ensures !b.hasFortification && !b.hasGuards
    ensures b.facilities.None?
  {
    PlayerBase(
      "base_" + RegionKey(regionId) + "_" + NatToString(now), regionId, baseType,
      if terms.buildTime == 0 then Active else Building,
      terms.storageCapacity, map[],
      baseType != Outpost, terms.workshopTierRange, baseType == Station, baseType == Station, false, false,
      now, now + terms.buildTime, now,
      1, None)
  }

  datatype BuildDecision = AlreadyBuilt | ShortOfRubies | ShortOfMaterials | Built

  /** The checks of `buildBase`, in the source's order. */
  function CheckBuild(s: BaseState, regionId: RegionId, terms: BaseTerms): (d: BuildDecision)
    ensures d == AlreadyBuilt <==> exists i :: 0 <= i < |s.playerBases| && s.playerBases[i].regionId == regionId
    ensures d == ShortOfRubies ==> Amount(s.resources, "rubies") < terms.cost.credits
    ensures d == ShortOfMaterials ==>
      exists j :: 0 <= j < |terms.cost.materials| && Amount(s.resources, terms.cost.materials[j].0) < terms.cost.materials[j].1
    ensures d == Built <==>
      (forall i :: 0 <= i < |s.playerBases| ==> s.playerBases[i].regionId != regionId) &&
      Amount(s.resources, "rubies") >= terms.cost.credits &&
      (forall j :: 0 <= j < |terms.cost.materials| ==> Amount(s.resources, terms.cost.materials[j].0) >= terms.cost.materials[j].1)
  {
    if FindBase(s.playerBases, regionId, false).Some? then AlreadyBuilt
    else if Amount(s.resources, "rubies") < terms.cost.credits then ShortOfRubies
    else if FirstUncovered(terms.cost.materials, s.resources) < |terms.cost.materials| then ShortOfMaterials
    else Built
  }

  /** `buildBase`: a failed check appends its log line only; a success pays, appends the base and logs. */
  function BuildOutcome(s: BaseState, regionId: RegionId, baseType: BaseType, terms: BaseTerms, now: nat): (s': BaseState)
    ensures CheckBuild(s, regionId, terms) != Built ==>
      s'.resources == s.resources && s'.playerBases == s.playerBases && |s'.actionLogQueue| == |s.actionLogQueue| + 1
    ensures CheckBuild(s, regionId, terms) == Built ==>
      s'.playerBases == s.playerBases + [NewBase(regionId, baseType, terms, now)] &&
      s'.resources == Debit(s.resources["rubies" := Amount(s.resources, "rubies") - terms.cost.credits], terms.cost.materials) &&
      |s'.actionLogQueue| == |s.actionLogQueue| + 1
    ensures s'.actionLogQueue[..|s.actionLogQueue|] == s.actionLogQueue
  {
    match CheckBuild(s, regionId, terms)
    case AlreadyBuilt => s.(actionLogQueue := s.actionLogQueue + [Log("base_already_in_region")])
    case ShortOfRubies => s.(actionLogQueue := s.actionLogQueue + [LogAmount("not_enough_rubies", terms.cost.credits)])
    case ShortOfMaterials => s.(actionLogQueue := s.actionLogQueue + [Log("not_enough_materials")])
    case Built =>
      var paid := Debit(s.resources["rubies" := Amount(s.resources, "rubies") - terms.cost.credits], terms.cost.materials);
      BaseState(paid, s.playerBases + [NewBase(regionId, baseType, terms, now)],
                s.actionLogQueue + [Log("base_construction_started")])
  }

  /** Building keeps at most one base per region. */
  lemma {:induction false} BuildKeepsOneBasePerRegion(s: BaseState, regionId: RegionId, baseType: BaseType, terms: BaseTerms, now: nat)
    requires OneBasePerRegion(s.playerBases)
    ensures OneBasePerRegion(BuildOutcome(s, regionId, baseType, terms, now).playerBases)
  {
    var b := BuildOutcome(s, regionId, baseType, terms, now).playerBases;
    if CheckBuild(s, regionId, terms) == Built {
      forall i, j | 0 <= i < j < |b|
        ensures b[i].regionId != b[j].regionId
      {
        if j == |b| - 1 {
          assert b[i] == s.playerBases[i];
        } else {
          assert b[i] == s.playerBases[i] && b[j] == s.playerBases[j];
        }
      }
    }
  }

  /** A successful build costs exactly the listed rubies and materials, and nothing else. */
  lemma BuildPaysExactly(s: BaseState, regionId: RegionId, baseType: BaseType, terms: BaseTerms, now: nat, k: string)
    requires CheckBuild(s, regionId, terms) == Built
    ensures Amount(BuildOutcome(s, regionId, baseType, terms, now).resources, k) ==
            Amount(s.resources, k) - Total(terms.cost.materials, k) - (if k == "rubies" then terms.cost.credits else 0.0)
  {
  }

  /** A building base whose completion time has come. */
  predicate Due(b: PlayerBase, now: int)
  {
    b.status == Building && now >= b.constructionCompletionTime
  }

  /** One base after the completion check. */
  function CompleteOne(b: PlayerBase, now: int): (b': PlayerBase)
    ensures b' == b.(status := b'.status)
    ensures b'.status == (if Due(b, now) then Active else b.status)
  {
    if Due(b, now) then b.(status := Active) else b
  }

  /** The bases after the completion check: the same bases in the same order, due ones active. */
  function CompleteAll(bases: seq<PlayerBase>, now: int): (r: seq<PlayerBase>)
    ensures |r| == |bases| && forall i :: 0 <= i < |bases| ==> r[i] == CompleteOne(bases[i], now)
  {
    seq(|bases|, i requires 0 <= i < |bases| => CompleteOne(bases[i], now))
  }

  predicate AnyDue(bases: seq<PlayerBase>, now: int)
  {
    exists i :: 0 <= i < |bases| && Due(bases[i], now)
  }

  /** `checkBaseCompletion`: writes bases and one log line only when some base completed. */
  function CompletionOutcome(s: BaseState, now: int): (s': BaseState)
    ensures !AnyDue(s.playerBases, now) ==> s' == s
    ensures AnyDue(s.playerBases, now) ==>
      s' == s.(playerBases := CompleteAll(s.playerBases, now), actionLogQueue := s.actionLogQueue + [Log("base_construction_complete")])
  {
    if AnyDue(s.playerBases, now)
    then s.(playerBases := CompleteAll(s.playerBases, now), actionLogQueue := s.actionLogQueue + [Log("base_construction_complete")])
    else s
  }

  /** The completion check keeps regions (so one base per region), and after it nothing is due. */
  lemma CompletionSettles(bases: seq<PlayerBase>, now: int)
    ensures OneBasePerRegion(bases) ==> OneBasePerRegion(CompleteAll(bases, now))
    ensures !AnyDue(CompleteAll(bases, now), now)
    ensures CompleteAll(CompleteAll(bases, now), now) == CompleteAll(bases, now)
  {
  }

  /** The only active base of a region, appended last, is the one the analyzer's lookup finds. */
  lemma LastActiveFound(pre: seq<PlayerBase>, b: PlayerBase, regionId: RegionId)
    requires forall i :: 0 <= i < |pre| ==> pre[i].regionId != regionId
    requires b.regionId == regionId && b.status == Active
    ensures FindBase(pre + [b], regionId, true) == Some(b)
  {
    assert BaseMatches((pre + [b])[|pre|], regionId, true);
  }

  /**
   * A base that `buildBase` creates has no `facilities`; with no build time it
   * is active at once, and the analyzer's lab lookup in its region throws.
   */
  lemma BuiltBaseBreaksLabLookup(s: BaseState, regionId: RegionId, baseType: BaseType, terms: BaseTerms, now: nat)
    requires CheckBuild(s, regionId, terms) == Built && terms.buildTime == 0
    ensures AnalyzerSystem.LabLookupThrows(BuildOutcome(s, regionId, baseType, terms, now).playerBases, regionId)
  {
    LastActiveFound(s.playerBases, NewBase(regionId, baseType, terms, now), regionId);
  }

  /**
   * The same once a built base is completed: after the completion check at or
   * after its completion time, the analyzer's lab lookup in its region throws.
   */
  lemma CompletedBaseBreaksLabLookup(s: BaseState, regionId: RegionId, baseType: BaseType, terms: BaseTerms, now: nat, t: int)
    requires CheckBuild(s, regionId, terms) == Built && t >= now + terms.buildTime
    ensures AnalyzerSystem.LabLookupThrows(CompletionOutcome(BuildOutcome(s, regionId, baseType, terms, now), t).playerBases, regionId)
  {
    var nb := NewBase(regionId, baseType, terms, now);
    var built := BuildOutcome(s, regionId, baseType, terms, now);
    var done := CompletionOutcome(built, t).playerBases;
    var pre := CompleteAll(s.playerBases, t);
    assert Due(nb, t) || nb.status == Active;
    assert built.playerBases == s.playerBases + [nb];
    if AnyDue(built.playerBases, t) {
      assert done == pre + [CompleteOne(nb, t)];
      assert forall i :: 0 <= i < |pre| ==> pre[i].regionId == s.playerBases[i].regionId;
      LastActiveFound(pre, CompleteOne(nb, t), regionId);
    } else {
      assert built.playerBases[|s.playerBases|] == nb;
      LastActiveFound(s.playerBases, nb, regionId);
    }
  }

  /** The bases, resources and action log of the store. */
  class BaseStore {
    var resources: Resources
    var playerBases: seq<PlayerBase>
    var actionLogQueue: seq<VisualEvent>

    function State(): BaseState
      reads this
    {
      BaseState(resources, playerBases, actionLogQueue)
    }

    ghost predicate Valid()
      reads this
    {
      OneBasePerRegion(playerBases)
    }

    /** The guard chain and payment of `buildBase`, on a snapshot of the store. */
    static method Build(s: BaseState, regionId: RegionId, baseType: BaseType, terms: BaseTerms, now: nat)
      returns (t: BaseState)
      ensures t == BuildOutcome(s, regionId, baseType, terms, now)
    {
      ghost var d := CheckBuild(s, regionId, terms);
      var existingBase := FindBase(s.playerBases, regionId, false);
      if existingBase.Some? {
        assert d == AlreadyBuilt;
        return s.(actionLogQueue := s.actionLogQueue + [Log("base_already_in_region")]);
      }
      var cost := terms.cost;
      if Amount(s.resources, "rubies") < cost.credits {
        assert d == ShortOfRubies;
        return s.(actionLogQueue := s.actionLogQueue + [LogAmount("not_enough_rubies", cost.credits)]);
      }
      var covered := EntriesCovered(cost.materials, s.resources);
      if !covered {
        assert d == ShortOfMaterials;
        return s.(actionLogQueue := s.actionLogQueue + [Log("not_enough_materials")]);
      }
      assert d == Built;
      var newResources := PayEntries(s.resources["rubies" := Amount(s.resources, "rubies") - cost.credits], cost.materials);
      var newBase := NewBase(regionId, baseType, terms, now);
      t := BaseState(newResources, s.playerBases + [newBase], s.actionLogQueue + [Log("base_construction_started")]);
    }

    /** `buildBase` with the table entries of the chosen type and region. */
    method BuildBase(regionId: RegionId, baseType: BaseType, terms: BaseTerms, now: nat)
      requires Valid()
      modifies this
      ensures Valid()
      ensures State() == BuildOutcome(old(State()), regionId, baseType, terms, now)
    {
      BuildKeepsOneBasePerRegion(State(), regionId, baseType, terms, now);
      var t := Build(State(), regionId, baseType, terms, now);
      resources := t.resources;
      playerBases := t.playerBases;
      actionLogQueue := t.actionLogQueue;
    }

    /** `checkBaseCompletion` at time `now`. */
    method CheckBaseCompletion(now: int)
      requires Valid()
      modifies this
      ensures Valid()
      ensures State() == CompletionOutcome(old(State()), now)
    {
      CompletionSettles(playerBases, now);
      var hasCompletions := false;
      var updatedBases: seq<PlayerBase> := [];
      var i := 0;
      while i < |playerBases|
        invariant 0 <= i <= |playerBases|
        invariant |updatedBases| == i && forall j :: 0 <= j < i ==> updatedBases[j] == CompleteOne(playerBases[j], now)
        invariant hasCompletions <==> exists j :: 0 <= j < i && Due(playerBases[j], now)
      {
        var base := playerBases[i];
        if base.status == Building && now >= base.constructionCompletionTime {
          hasCompletions := true;
          updatedBases := updatedBases + [base.(status := Active)];
        } else {
          updatedBases := updatedBases + [base];
        }
        i := i + 1;
      }
      if hasCompletions {
        playerBases := updatedBases;
        actionLogQueue := actionLogQueue + [Log("base_construction_complete")];
      }
    }
  }
}
