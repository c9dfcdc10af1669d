// The story quest catalogue and the random contract generator
// (services/questRegistry.ts, with the quest table of constants/quests.ts).

module QuestRegistry {
  import opened GameTypes

  datatype RewardKind = ResourceReward | XpReward | TechReward | ReputationReward | UnlockReward | BlueprintReward

  /** A reward; unlocks and blueprints have no amount and carry 0. */
  datatype QuestReward = QuestReward(kind: RewardKind, target: string, amount: real)

  datatype Objective = Objective(id: string, kind: string, target: string, required: real, current: real)

  /**
   * A quest (titles and descriptions are not modelled). `issuer` and
   * `reputationReward` are legacy fields no quest of the catalogue or the
   * generator sets.
   */
  datatype Quest = Quest(
    id: string,
    status: string,
    kind: string,
    factionId: Option<string>,
    prerequisites: Option<seq<string>>,
    objectives: seq<Objective>,
    rewards: seq<QuestReward>,
    issuer: Option<string>,
    reputationReward: Option<real>)

  function Story(id: string, kind: string, faction: Option<string>, prerequisites: Option<seq<string>>,
                 objectives: seq<Objective>, rewards: seq<QuestReward>): Quest
  {
    Quest(id, "available", kind, faction, prerequisites, objectives, rewards, None, None)
  }

  /** `QUESTS`, the story quests in catalogue order. */
  const Quests: seq<Quest> := [
    Story("QUEST_LOGISTICS_TROUBLE", "DELIVERY", Some("CORPORATE"), None,
          [Objective("deliver_iron", "DELIVER", "iron", 500.0, 0.0)],
          [QuestReward(ReputationReward, "CORPORATE", 50.0), QuestReward(UnlockReward, "caravan_2star", 0.0),
           QuestReward(ResourceReward, "rubies", 5000.0)]),
    Story("QUEST_CORPORATE_EXPANSION", "EXPLORATION", Some("CORPORATE"), Some(["QUEST_LOGISTICS_TROUBLE"]),
          [Objective("build_station_magma", "BUILD_BASE", "magma_core", 1.0, 0.0)],
          [QuestReward(ReputationReward, "CORPORATE", 100.0), QuestReward(ResourceReward, "rubies", 10000.0),
           QuestReward(BlueprintReward, "corporate_drill_mk2", 0.0)]),
    Story("QUEST_ANCIENT_RUINS", "COLLECTION", Some("SCIENCE"), None,
          [Objective("collect_artifacts", "COLLECT", "artifact", 5.0, 0.0)],
          [QuestReward(ReputationReward, "SCIENCE", 75.0), QuestReward(BlueprintReward, "anomaly_scanner", 0.0),
           QuestReward(ResourceReward, "rubies", 3000.0)]),
    Story("QUEST_DEEP_MYSTERIES", "EXPLORATION", Some("SCIENCE"), Some(["QUEST_ANCIENT_RUINS"]),
          [Objective("reach_50km", "REACH_DEPTH", "50000", 1.0, 0.0),
           Objective("collect_ancient_tech", "COLLECT", "ancientTech", 10.0, 0.0)],
          [QuestReward(ReputationReward, "SCIENCE", 150.0), QuestReward(XpReward, "player", 5000.0),
           QuestReward(BlueprintReward, "void_resonator", 0.0)]),
    Story("QUEST_SMUGGLER_RUN", "DELIVERY", Some("REBELS"), None,
          [Objective("smuggle_gas", "DELIVER", "gas", 200.0, 0.0)],
          [QuestReward(ReputationReward, "REBELS", 60.0), QuestReward(UnlockReward, "smuggler_routes", 0.0),
           QuestReward(ResourceReward, "rubies", 8000.0)]),
    Story("QUEST_FREEDOM_FIGHTER", "COMBAT", Some("REBELS"), Some(["QUEST_SMUGGLER_RUN"]),
          [Objective("defeat_corporate_bosses", "DEFEAT_BOSS", "corporate_boss", 3.0, 0.0)],
          [QuestReward(ReputationReward, "REBELS", 120.0), QuestReward(ReputationReward, "CORPORATE", -50.0),
           QuestReward(UnlockReward, "black_market", 0.0), QuestReward(ResourceReward, "rubies", 15000.0)]),
    Story("QUEST_NEUTRAL_TRADER", "EXPLORATION", None, None,
          [Objective("visit_all_regions", "TRAVEL_TO", "all_regions", 5.0, 0.0)],
          [QuestReward(ReputationReward, "CORPORATE", 25.0), QuestReward(ReputationReward, "SCIENCE", 25.0),
           QuestReward(ReputationReward, "REBELS", 25.0), QuestReward(ResourceReward, "rubies", 10000.0)])
  ]

  /** `QUESTS.find(q => q.id === id)` over any list. */
  function FindQuest(qs: seq<Quest>, id: string): (r: Option<Quest>)
    ensures r.None? <==> forall i :: 0 <= i < |qs| ==> qs[i].id != id
    ensures r.Some? ==> r.value.id == id && exists i :: 0 <= i < |qs| && qs[i] == r.value &&
                                                      forall j :: 0 <= j < i ==> qs[j].id != id
  {
    if |qs| == 0 then None
    else if qs[0].id == id then Some(qs[0])
    else
      var r := FindQuest(qs[1..], id);
      if r.Some? then
        ghost var i :| 0 <= i < |qs[1..]| && qs[1..][i] == r.value && forall j :: 0 <= j < i ==> qs[1..][j] != qs[1..][j].(id := id);
        assert qs[i + 1] == r.value;
        r
      else r
  }

  /** `getQuestById`. */
  function GetQuestById(id: string): (r: Option<Quest>)
    ensures r.None? <==> forall i :: 0 <= i < |Quests| ==> Quests[i].id != id
    ensures r.Some? ==> r.value.id == id && r.value in Quests
  {
    FindQuest(Quests, id)
  }

  /** `getQuestsByFaction`: the quests of that faction, in catalogue order. */
  function QuestsByFaction(qs: seq<Quest>, factionId: string): (r: seq<Quest>)
    ensures forall q :: q in r <==> q in qs && q.factionId == Some(factionId)
    ensures |r| <= |qs|
  {
    if |qs| == 0 then []
    else (if qs[0].factionId == Some(factionId) then [qs[0]] else []) + QuestsByFaction(qs[1..], factionId)
  }

  function GetQuestsByFaction(factionId: string): (r: seq<Quest>)
    ensures forall q :: q in r <==> q in Quests && q.factionId == Some(factionId)
  {
    QuestsByFaction(Quests, factionId)
  }

  /** The availability test: status 'available' and every prerequisite completed. */
  predicate IsAvailable(q: Quest, completed: seq<string>)
  {
    q.status == "available" &&
    (q.prerequisites.Some? ==> forall p :: p in q.prerequisites.value ==> p in completed)
  }

  function AvailableAmong(qs: seq<Quest>, completed: seq<string>): (r: seq<Quest>)
    ensures forall q :: q in r <==> q in qs && IsAvailable(q, completed)
    ensures |r| <= |qs|
  {
    if |qs| == 0 then []
    else (if IsAvailable(qs[0], completed) then [qs[0]] else []) + AvailableAmong(qs[1..], completed)
  }

  /** `getAvailableQuests`. */
  function GetAvailableQuests(completed: seq<string>): (r: seq<Quest>)
    ensures forall q :: q in r <==> q in Quests && IsAvailable(q, completed)
  {
    AvailableAmong(Quests, completed)
  }

  /** Completing more quests never makes a quest unavailable. */
  lemma AvailabilityMonotone(c1: seq<string>, c2: seq<string>, q: Quest)
    requires forall id :: id in c1 ==> id in c2
    requires q in GetAvailableQuests(c1)
    ensures q in GetAvailableQuests(c2)
  {
  }

  /** Every story quest starts available, and a prerequisite list names exactly one quest. */
  lemma QuestsShape()
    ensures forall i :: 0 <= i < |Quests| ==>
              Quests[i].status == "available" &&
              (Quests[i].prerequisites.Some? ==> |Quests[i].prerequisites.value| == 1)
  {
  }

  /** With nothing completed, exactly the quests without prerequisites are open. */
  lemma {:induction false} OpeningQuests()
    ensures forall q :: q in GetAvailableQuests([]) <==> q in Quests && q.prerequisites.None?
  {
    QuestsShape();
    forall q | q in Quests
      ensures IsAvailable(q, []) <==> q.prerequisites.None?
    {
      var i :| 0 <= i < |Quests| && Quests[i] == q;
      if q.prerequisites.Some? {
        assert q.prerequisites.value[0] in q.prerequisites.value;
      }
    }
  }

  // ---- Contract generation ----

  /** `getResourcesForDepth`: clay and stone, then a tier more past 500, 5000 and 20000 m. */
  function ResourcesForDepth(depth: real): (pool: seq<string>)
    ensures |pool| >= 2 && pool[..2] == ["clay", "stone"]
    ensures |pool| == 2 + (if depth > 500.0 then 2 else 0) + (if depth > 5000.0 then 2 else 0) + (if depth > 20000.0 then 2 else 0)
  {
    ["clay", "stone"]
    + (if depth > 500.0 then ["copper", "iron"] else [])
    + (if depth > 5000.0 then ["silver", "gold"] else [])
    + (if depth > 20000.0 then ["titanium", "uranium"] else [])
  }

  /** Deeper pools extend shallower ones. */
  lemma PoolGrowsWithDepth(d1: real, d2: real)
    requires d1 <= d2
    ensures ResourcesForDepth(d1) <= ResourcesForDepth(d2)
  {
  }

  /** `draw * n`, summed up one `draw` at a time. */
  function Multiple(draw: real, n: nat): (x: real)
    requires IsDraw(draw)
    ensures 0.0 <= x && (n > 0 ==> x < n as real)
    decreases n
  {
    if n == 0 then 0.0 else Multiple(draw, n - 1) + draw
  }

  lemma {:induction false} MultipleIsProduct(draw: real, n: nat)
    requires IsDraw(draw)
    ensures Multiple(draw, n) == draw * (n as real)
    decreases n
  {
    if n > 0 {
      MultipleIsProduct(draw, n - 1);
    }
  }

  /** `Math.floor(draw * n)` for a draw in [0, 1): an index into a list of `n`. */
  function Pick(draw: real, n: nat): (i: nat)
    requires IsDraw(draw) && n > 0
    ensures i < n
  {
    Multiple(draw, n).Floor
  }

  predicate IsDraw(x: real) { 0.0 <= x < 1.0 }

  /**
   * The reward resource after the retry loop: redraw from `draws[i..]` while
   * it equals the target and the pool has more than one resource. The
   * source redraws until it differs; a finite list of draws stops the model
   * when it runs out.
   */
  function RewardAfter(pool: seq<string>, target: string, draws: seq<real>, i: nat, current: string): (r: string)
    requires |pool| > 0 && forall k :: 0 <= k < |draws| ==> IsDraw(draws[k])
    ensures r == current || r in pool
    decreases |draws| - i
  {
    if current == target && |pool| > 1 && i < |draws| then
      RewardAfter(pool, target, draws, i + 1, pool[Pick(draws[i], |pool|)])
    else current
  }

  /** Whenever some later draw names another resource, the reward differs from the target. */
  lemma {:induction false} RewardDiffers(pool: seq<string>, target: string, draws: seq<real>, i: nat, current: string, j: nat)
    requires |pool| > 1 && forall k :: 0 <= k < |draws| ==> IsDraw(draws[k])
    requires i <= j < |draws| && pool[Pick(draws[j], |pool|)] != target
    ensures RewardAfter(pool, target, draws, i, current) != target
    decreases |draws| - i
  {
    if current == target && i < j {
      RewardDiffers(pool, target, draws, i + 1, pool[Pick(draws[i], |pool|)], j);
    }
  }

  /** The random inputs of one `generateQuest` call. */
  datatype QuestDraws = QuestDraws(
    issuerDraw: real,
    targetDraw: real,
    rewardDraws: seq<real>,
    amountDraw: real,
    rewardKindDraw: real,
    questUuid: string,
    objectiveUuid: string)

  predicate ValidDraws(d: QuestDraws)
  {
    IsDraw(d.issuerDraw) && IsDraw(d.targetDraw) && |d.rewardDraws| > 0 &&
    (forall k :: 0 <= k < |d.rewardDraws| ==> IsDraw(d.rewardDraws[k])) && IsDraw(d.amountDraw)
  }

  const Issuers: seq<string> := ["CORPORATE", "SCIENCE", "REBELS"]

  function Times(a: real, b: real): real { a * b }

  /** The difficulty multiplier. */
  function QuestScale(depth: real, level: real): real
  {
    1.0 + depth / 1000.0 + level * 0.5
  }

  /** The quest record for the drawn issuer, target and reward resources. */
  function BuildQuest(issuer: string, targetRes: string, rewardRes: string, depth: real, level: real, d: QuestDraws): (q: Quest)
    requires issuer in Issuers
    ensures q.id == "rnd_" + d.questUuid && q.status == "available" && q.factionId == Some(issuer)
    ensures |q.objectives| == 1 && q.objectives[0].target == targetRes && q.objectives[0].current == 0.0
    ensures |q.rewards| == 1 && q.prerequisites.None? && q.reputationReward.None?
    ensures issuer == "SCIENCE" ==> q.rewards[0].kind == XpReward && q.rewards[0].amount == Floor(q.objectives[0].required * 5.0)
    ensures issuer != "SCIENCE" ==> q.rewards[0].kind == ResourceReward &&
                                    (q.rewards[0].target == rewardRes || q.rewards[0].target == "ancientTech")
    ensures issuer == "REBELS" && rewardRes != targetRes ==> q.rewards[0].target == rewardRes
  {
    var scale := QuestScale(depth, level);
    var base := Quest("rnd_" + d.questUuid, "available", "COLLECTION", Some(issuer), None, [], [], None, None);
    var tech := QuestReward(ResourceReward, "ancientTech", Floor(5.0 + scale));
    if issuer == "CORPORATE" then
      var amount := Floor(Times(100.0 + d.amountDraw * 200.0, scale));
      base.(kind := "DELIVERY", objectives := [Objective(d.objectiveUuid, "COLLECT", targetRes, amount, 0.0)],
            rewards := if d.rewardKindDraw > 0.5 then [QuestReward(ResourceReward, rewardRes, Floor(amount * 0.6))] else [tech])
    else if issuer == "SCIENCE" then
      var amount := Floor(Times(50.0, scale));
      base.(kind := "COLLECTION", objectives := [Objective(d.objectiveUuid, "COLLECT", targetRes, amount, 0.0)],
            rewards := [QuestReward(XpReward, "player", Floor(amount * 5.0))])
    else
      var amount := Floor(Times(200.0, scale));
      base.(kind := "DELIVERY", objectives := [Objective(d.objectiveUuid, "COLLECT", targetRes, amount, 0.0)],
            rewards := if rewardRes == targetRes then [tech] else [QuestReward(ResourceReward, rewardRes, Floor(amount * 0.8))])
  }

  /** A new contract: open, one objective on a resource of the depth's pool, not started, one reward. */
  predicate FreshContract(q: Quest, depth: real)
  {
    q.status == "available" && |q.objectives| == 1 && q.objectives[0].target in ResourcesForDepth(depth) &&
    q.objectives[0].current == 0.0 && |q.rewards| == 1
  }

  /** The quest `generateQuest` returns for these draws. */
  function GeneratedQuest(depth: real, level: real, d: QuestDraws): (q: Quest)
    requires ValidDraws(d)
    ensures q.factionId.Some? && q.factionId.value in Issuers
    ensures FreshContract(q, depth)
  {
    var issuer := Issuers[Pick(d.issuerDraw, 3)];
    var pool := ResourcesForDepth(depth);
    var targetRes := pool[Pick(d.targetDraw, |pool|)];
    var rewardRes := RewardAfter(pool, targetRes, d.rewardDraws, 1, pool[Pick(d.rewardDraws[0], |pool|)]);
    BuildQuest(issuer, targetRes, rewardRes, depth, level, d)
  }

  /** The redraw loop of `generateQuest`. */
  method DrawReward(pool: seq<string>, targetRes: string, draws: seq<real>) returns (rewardRes: string)
    requires |pool| > 0 && |draws| > 0 && forall k :: 0 <= k < |draws| ==> IsDraw(draws[k])
    ensures rewardRes == RewardAfter(pool, targetRes, draws, 1, pool[Pick(draws[0], |pool|)])
  {
    rewardRes := pool[Pick(draws[0], |pool|)];
    var i := 1;
    while rewardRes == targetRes && |pool| > 1 && i < |draws|
      invariant 1 <= i <= |draws|
      invariant RewardAfter(pool, targetRes, draws, i, rewardRes) == RewardAfter(pool, targetRes, draws, 1, pool[Pick(draws[0], |pool|)])
      decreases |draws| - i
    {
      rewardRes := pool[Pick(draws[i], |pool|)];
      i := i + 1;
    }
  }

  /** `generateQuest`. */
  method GenerateQuest(depth: real, level: real, d: QuestDraws) returns (q: Quest)
    requires ValidDraws(d)
    ensures q == GeneratedQuest(depth, level, d)
  {
    var issuer := Issuers[Pick(d.issuerDraw, 3)];
    var availableRes := ResourcesForDepth(depth);
    var targetRes := availableRes[Pick(d.targetDraw, |availableRes|)];
    var rewardRes := DrawReward(availableRes, targetRes, d.rewardDraws);
    q := BuildQuest(issuer, targetRes, rewardRes, depth, level, d);
  }

  /** The three contracts generated for three draw sets, in order; every one is fresh. */
  function GeneratedBatch(depth: real, level: real, d1: QuestDraws, d2: QuestDraws, d3: QuestDraws): (board: seq<Quest>)
    requires ValidDraws(d1) && ValidDraws(d2) && ValidDraws(d3)
    ensures |board| == 3
    ensures forall i :: 0 <= i < |board| ==> FreshContract(board[i], depth)
    ensures forall i :: 0 <= i < |board| ==> board[i].factionId.Some? && board[i].factionId.value in Issuers
  {
    [GeneratedQuest(depth, level, d1), GeneratedQuest(depth, level, d2), GeneratedQuest(depth, level, d3)]
  }

  /** `generateQuestBatch`: three independent contracts. */
  method GenerateQuestBatch(depth: real, level: real, d1: QuestDraws, d2: QuestDraws, d3: QuestDraws) returns (qs: seq<Quest>)
    requires ValidDraws(d1) && ValidDraws(d2) && ValidDraws(d3)
    ensures qs == GeneratedBatch(depth, level, d1, d2, d3)
  {
    var q1 := GenerateQuest(depth, level, d1);
    var q2 := GenerateQuest(depth, level, d2);
    var q3 := GenerateQuest(depth, level, d3);
    qs := [q1, q2, q3];
  }
}
