// Store actions of the city screen (store/slices/citySlice.ts): trading,
// cooling, hull repair, buffs, gambling, contract completion and the contract
// board refresh. The cargo weight (a helper that is not part of this model),
// the repair quote, the random draws and the generated contracts' draws are
// inputs.

module CitySlice {
  import opened GameTypes
  import opened EventRegistry
  import opened FactionLogic
  import opened FactionSlice
  import opened QuestRegistry
  import opened Factions

  /** The fields the slice writes. */
  datatype CityState = CityState(
    resources: Resources,
    currentCargoWeight: real,
    xp: real,
    heat: real,
    integrity: real,
    activeEffects: seq<ActiveEffect>,
    activeQuests: map<string, Quest>,
    actionLogQueue: seq<VisualEvent>,
    reputation: map<string, real>)

  /**
   * `s.resources[k] >= v` as the source writes it: a missing resource is
   * `undefined`, which compares false.
   */
  predicate Holds(r: Resources, k: string, v: real)
  {
    k in r && r[k] >= v
  }

  /** The `every` check of `tradeCity`. */
  predicate CanAfford(cost: seq<(string, real)>, r: Resources)
  {
    forall j :: 0 <= j < |cost| ==> Holds(r, cost[j].0, cost[j].1)
  }

  /** The entries of a record: no key twice. */
  predicate DistinctKeys(entries: seq<(string, real)>)
  {
    forall i, j :: 0 <= i < j < |entries| ==> entries[i].0 != entries[j].0
  }

  /** The value of the last `XP` entry, if there is one. */
  function LastXp(reward: seq<(string, real)>): (v: Option<real>)
    ensures v.None? <==> forall j :: 0 <= j < |reward| ==> reward[j].0 != "XP"
    ensures v.Some? ==> exists j :: 0 <= j < |reward| && reward[j].0 == "XP" && v.value == reward[j].1 &&
                                    forall i :: j < i < |reward| ==> reward[i].0 != "XP"
    decreases |reward|
  {
    if |reward| == 0 then None
    else if reward[|reward| - 1].0 == "XP" then Some(reward[|reward| - 1].1)
    else
      var init := reward[..|reward| - 1];
      var v := LastXp(init);
      assert forall j :: 0 <= j < |init| ==> init[j] == reward[j];
      assert v.Some? ==> exists j :: 0 <= j < |reward| && reward[j].0 == "XP" && v.value == reward[j].1 &&
                                     forall i :: j < i < |reward| ==> reward[i].0 != "XP" by {
        if v.Some? {
          var j :| 0 <= j < |init| && init[j].0 == "XP" && v.value == init[j].1 &&
                   forall i :: j < i < |init| ==> init[i].0 != "XP";
          assert reward[j] == init[j];
        }
      }
      v
  }

  /**
   * The reward loop of `tradeCity` from resources `r` and experience `xp0`:
   * an `XP` entry sets the experience to `xp0` plus its value (so the last
   * one counts), any other entry is added to its resource.
   */
  function TradeRewards(r: Resources, xp0: real, reward: seq<(string, real)>): (out: (Resources, real))
    ensures forall k :: k != "XP" ==> Amount(out.0, k) == Amount(r, k) + Total(reward, k)
    ensures ("XP" in out.0 <==> "XP" in r) && Amount(out.0, "XP") == Amount(r, "XP")
    ensures out.1 == match LastXp(reward) case None => xp0 case Some(v) => xp0 + v
    decreases |reward|
  {
    if |reward| == 0 then (r, xp0)
    else
      var prev := TradeRewards(r, xp0, reward[..|reward| - 1]);
      var last := reward[|reward| - 1];
      if last.0 == "XP" then (prev.0, xp0 + last.1)
      else (Credit(prev.0, last.0, last.1), prev.1)
  }

  /** One more reward entry, as the loop takes it. */
  lemma TradeRewardsStep(r: Resources, xp0: real, reward: seq<(string, real)>, i: nat)
    requires i < |reward|
    ensures var prev := TradeRewards(r, xp0, reward[..i]);
            TradeRewards(r, xp0, reward[..i + 1]) ==
              if reward[i].0 == "XP" then (prev.0, xp0 + reward[i].1) else (Credit(prev.0, reward[i].0, reward[i].1), prev.1)
  {
    assert reward[..i + 1][..i] == reward[..i];
  }

  /** `tradeCity(cost, reward)`: all-or-nothing; pay every cost entry, then take every reward. */
  function TradeOutcome(s: CityState, cost: seq<(string, real)>, reward: seq<(string, real)>,
                        cargoWeight: Resources -> real): (s': CityState)
    ensures !CanAfford(cost, s.resources) ==> s' == s
    ensures CanAfford(cost, s.resources) ==>
      (forall k :: k != "XP" ==> Amount(s'.resources, k) == Amount(s.resources, k) - Total(cost, k) + Total(reward, k)) &&
      s'.xp == TradeRewards(Debit(s.resources, cost), s.xp, reward).1 &&
      s'.currentCargoWeight == cargoWeight(s'.resources) &&
      s' == s.(resources := s'.resources, currentCargoWeight := s'.currentCargoWeight, xp := s'.xp)
  {
    if !CanAfford(cost, s.resources) then s
    else
      var out := TradeRewards(Debit(s.resources, cost), s.xp, reward);
      s.(resources := out.0, currentCargoWeight := cargoWeight(out.0), xp := out.1)
  }

  /** In a listing without repeated keys, the total for an entry's key is its own amount. */
  lemma {:induction false} TotalOfDistinct(entries: seq<(string, real)>, j: nat)
    requires DistinctKeys(entries) && j < |entries|
    ensures Total(entries, entries[j].0) == entries[j].1
    decreases |entries|
  {
    var init := entries[..|entries| - 1];
    if j < |entries| - 1 {
      assert init[j] == entries[j];
      TotalOfDistinct(init, j);
      TotalAbsent(init, entries[|entries| - 1].0);
    } else {
      TotalAbsent(init, entries[j].0);
    }
  }

  /** A key no entry names totals 0. */
  lemma {:induction false} TotalAbsent(entries: seq<(string, real)>, k: string)
    requires forall i :: 0 <= i < |entries| ==> entries[i].0 != k
    ensures Total(entries, k) == 0.0
    decreases |entries|
  {
    if |entries| > 0 {
      TotalAbsent(entries[..|entries| - 1], k);
    }
  }

  /** Non-negative amounts total a non-negative sum. */
  lemma {:induction false} TotalNonNegative(entries: seq<(string, real)>, k: string)
    requires forall i :: 0 <= i < |entries| ==> entries[i].1 >= 0.0
    ensures Total(entries, k) >= 0.0
    decreases |entries|
  {
    if |entries| > 0 {
      TotalNonNegative(entries[..|entries| - 1], k);
    }
  }

  /** A trade never leaves a paid resource below zero (a cost record names each resource once). */
  lemma TradeNeverOverdraws(s: CityState, cost: seq<(string, real)>, reward: seq<(string, real)>,
                            cargoWeight: Resources -> real, j: nat)
    requires DistinctKeys(cost) && j < |cost| && cost[j].0 != "XP"
    requires forall i :: 0 <= i < |reward| ==> reward[i].1 >= 0.0
    requires CanAfford(cost, s.resources)
    ensures Amount(TradeOutcome(s, cost, reward, cargoWeight).resources, cost[j].0) >= 0.0
  {
    TotalOfDistinct(cost, j);
    TotalNonNegative(reward, cost[j].0);
    assert Holds(s.resources, cost[j].0, cost[j].1);
  }

  /** `healCity`: the heat drops to 0. */
  function HealOutcome(s: CityState): (s': CityState)
    ensures s'.heat == 0.0 && s' == s.(heat := 0.0)
  {
    s.(heat := 0.0)
  }

  /**
   * `repairHull` with the repair quote (`resource`, `cost`) for the hull's
   * maximum integrity `maxIntegrity`: nothing to repair when the cost is not
   * positive; otherwise pay and restore the hull, or log the missing resource.
   */
  function RepairOutcome(s: CityState, maxIntegrity: real, resource: string, cost: real,
                         cargoWeight: Resources -> real): (s': CityState)
    ensures cost <= 0.0 ==> s' == s
    ensures cost > 0.0 && Holds(s.resources, resource, cost) ==>
      s'.integrity == maxIntegrity && Amount(s'.resources, resource) == Amount(s.resources, resource) - cost &&
      (forall k :: k != resource ==> Amount(s'.resources, k) == Amount(s.resources, k)) &&
      s' == s.(integrity := maxIntegrity, resources := s'.resources, currentCargoWeight := cargoWeight(s'.resources))
    ensures cost > 0.0 && !Holds(s.resources, resource, cost) ==>
      s' == s.(actionLogQueue := s.actionLogQueue + [Log("not_enough_resources_" + resource)])
  {
    if cost <= 0.0 then s
    else if Holds(s.resources, resource, cost) then
      var newRes := s.resources[resource := s.resources[resource] - cost];
      s.(integrity := maxIntegrity, resources := newRes, currentCargoWeight := cargoWeight(newRes))
    else s.(actionLogQueue := s.actionLogQueue + [Log("not_enough_resources_" + resource)])
  }

  /**
   * `buyCityBuff(cost, res, effectId)`: pay and gain the effect; an effect id
   * without a definition charges nothing and changes nothing.
   */
  function BuffOutcome(s: CityState, cost: real, res: string, effectId: string, cargoWeight: Resources -> real): (s': CityState)
    ensures !Holds(s.resources, res, cost) || effectId !in EffectIds ==> s' == s
    ensures Holds(s.resources, res, cost) && effectId in EffectIds ==>
      Amount(s'.resources, res) == Amount(s.resources, res) - cost &&
      (forall k :: k != res ==> Amount(s'.resources, k) == Amount(s.resources, k)) &&
      s'.activeEffects == s.activeEffects + [CreateEffect(effectId).value] &&
      s' == s.(resources := s'.resources, currentCargoWeight := cargoWeight(s'.resources), activeEffects := s'.activeEffects,
               actionLogQueue := s.actionLogQueue + [Log("effect_" + CreateEffect(effectId).value.id)])
  {
    if !Holds(s.resources, res, cost) then s
    else
      var newRes := s.resources[res := s.resources[res] - cost];
      match CreateEffect(effectId)
      case None => s
      case Some(effect) =>
        s.(resources := newRes, currentCargoWeight := cargoWeight(newRes), activeEffects := s.activeEffects + [effect],
           actionLogQueue := s.actionLogQueue + [Log("effect_" + effect.id)])
  }

  /** The winning draws of `gambleResources`. */
  predicate Wins(draw: real) { draw < 0.45 }

  /**
   * `gambleResources(res, amount)` with the draw `draw` in [0, 1): the stake
   * is doubled on a win and lost otherwise.
   */
  function GambleOutcome(s: CityState, res: string, amount: real, draw: real, cargoWeight: Resources -> real): (s': CityState)
    ensures !Holds(s.resources, res, amount) ==> s' == s
    ensures Holds(s.resources, res, amount) ==>
      Amount(s'.resources, res) == Amount(s.resources, res) + (if Wins(draw) then amount else -amount) &&
      (forall k :: k != res ==> Amount(s'.resources, k) == Amount(s.resources, k)) &&
      s' == s.(resources := s'.resources, currentCargoWeight := cargoWeight(s'.resources),
               actionLogQueue := s.actionLogQueue + [if Wins(draw) then LogAmount("gamble_win", amount) else Log("gamble_loss")])
  {
    if !Holds(s.resources, res, amount) then s
    else
      var staked := s.resources[res := s.resources[res] - amount];
      var newRes := if Wins(draw) then staked[res := staked[res] + amount * 2.0] else staked;
      s.(resources := newRes, currentCargoWeight := cargoWeight(newRes),
         actionLogQueue := s.actionLogQueue + [if Wins(draw) then LogAmount("gamble_win", amount) else Log("gamble_loss")])
  }

  /** The faction a reputation key names, if any. */
  function FactionOfKey(key: string): (f: Option<FactionId>)
    ensures f.Some? ==> FactionKey(f.value) == key
    ensures forall g :: key == FactionKey(g) ==> f == Some(g)
  {
    if key == "CORPORATE" then Some(Corporate)
    else if key == "SCIENCE" then Some(Science)
    else if key == "REBELS" then Some(Rebels)
    else None
  }

  /**
   * `addReputation(key, amount)` for a key given as a string: a faction's key
   * takes the rivalry rule; any other key is clamped to [0, 10000] alone.
   */
  function ReputationByKey(rep: map<string, real>, key: string, amount: real): (r: map<string, real>)
    ensures FactionOfKey(key).Some? ==> r == ReputationAfter(rep, FactionOfKey(key).value, amount)
    ensures RepOf(r, key) == Min(ReputationCap, Max(0.0, RepOf(rep, key) + amount))
  {
    match FactionOfKey(key)
    case Some(f) => ReputationAfter(rep, f, amount)
    case None => rep[key := Min(ReputationCap, Max(0.0, RepOf(rep, key) + amount))]
  }

  lemma ReputationByKeyInRange(rep: map<string, real>, key: string, amount: real)
    requires InRange(rep)
    ensures InRange(ReputationByKey(rep, key, amount))
  {
    if FactionOfKey(key).Some? {
      ReputationAfterInRange(rep, FactionOfKey(key).value, amount);
    }
  }

  /** The sum of the RESOURCE and TECH rewards for resource `k`. */
  function Credited(rewards: seq<QuestReward>, k: string): real
    decreases |rewards|
  {
    if |rewards| == 0 then 0.0
    else
      var last := rewards[|rewards| - 1];
      Credited(rewards[..|rewards| - 1], k) +
      (if (last.kind == ResourceReward || last.kind == TechReward) && last.target == k then last.amount else 0.0)
  }

  /** The sum of the XP rewards. */
  function XpTotal(rewards: seq<QuestReward>): real
    decreases |rewards|
  {
    if |rewards| == 0 then 0.0
    else
      var last := rewards[|rewards| - 1];
      XpTotal(rewards[..|rewards| - 1]) + (if last.kind == XpReward then last.amount else 0.0)
  }

  datatype Payout = Payout(resources: Resources, xpGain: real, reputation: map<string, real>)

  /** The reward loop of `completeQuest`, from resources `r` and reputation `rep`. */
  function QuestPayout(rewards: seq<QuestReward>, r: Resources, rep: map<string, real>): (p: Payout)
    ensures forall k :: Amount(p.resources, k) == Amount(r, k) + Credited(rewards, k)
    ensures p.xpGain == XpTotal(rewards)
    ensures (forall i :: 0 <= i < |rewards| ==> rewards[i].kind != ReputationReward) ==> p.reputation == rep
    decreases |rewards|
  {
    if |rewards| == 0 then Payout(r, 0.0, rep)
    else
      var prev := QuestPayout(rewards[..|rewards| - 1], r, rep);
      var last := rewards[|rewards| - 1];
      assert forall i :: 0 <= i < |rewards| - 1 ==> rewards[..|rewards| - 1][i] == rewards[i];
      match last.kind
      case ResourceReward => prev.(resources := Credit(prev.resources, last.target, last.amount))
      case TechReward => prev.(resources := Credit(prev.resources, last.target, last.amount))
      case XpReward => prev.(xpGain := prev.xpGain + last.amount)
      case ReputationReward => prev.(reputation := ReputationByKey(prev.reputation, last.target, last.amount))
      case UnlockReward => prev
      case BlueprintReward => prev
  }

  /** One more reward, as the loop pays it. */
  lemma QuestPayoutStep(rewards: seq<QuestReward>, r: Resources, rep: map<string, real>, i: nat)
    requires i < |rewards|
    ensures var prev := QuestPayout(rewards[..i], r, rep);
            var w := rewards[i];
            QuestPayout(rewards[..i + 1], r, rep) ==
              if w.kind == ResourceReward || w.kind == TechReward then prev.(resources := Credit(prev.resources, w.target, w.amount))
              else if w.kind == XpReward then prev.(xpGain := prev.xpGain + w.amount)
              else if w.kind == ReputationReward then prev.(reputation := ReputationByKey(prev.reputation, w.target, w.amount))
              else prev
  {
    assert rewards[..i + 1][..i] == rewards[..i];
  }

  /** Reputation rewards keep every reputation within [0, 10000]. */
  lemma {:induction false} PayoutKeepsReputationInRange(rewards: seq<QuestReward>, r: Resources, rep: map<string, real>)
    requires InRange(rep)
    ensures InRange(QuestPayout(rewards, r, rep).reputation)
    decreases |rewards|
  {
    if |rewards| > 0 {
      var init := rewards[..|rewards| - 1];
      PayoutKeepsReputationInRange(init, r, rep);
      var last := rewards[|rewards| - 1];
      if last.kind == ReputationReward {
        ReputationByKeyInRange(QuestPayout(init, r, rep).reputation, last.target, last.amount);
      }
    }
  }

  /** The key the legacy `reputationReward` goes to: `CORP` is renamed, any other issuer is kept. */
  function LegacyFactionKey(issuer: Option<string>): (key: string)
    ensures issuer == Some("CORP") ==> key == "CORPORATE"
    ensures issuer.Some? && issuer.value != "CORP" ==> key == issuer.value
  {
    match issuer
    case None => "undefined"
    case Some(i) => if i == "CORP" then "CORPORATE" else i
  }

  /** The legacy reputation bonus, paid when the field is present and not 0. */
  function LegacyBonus(q: Quest, rep: map<string, real>): (r: map<string, real>)
    ensures q.reputationReward.None? || q.reputationReward.value == 0.0 ==> r == rep
  {
    if q.reputationReward.Some? && q.reputationReward.value != 0.0
    then ReputationByKey(rep, LegacyFactionKey(q.issuer), q.reputationReward.value)
    else rep
  }

  /**
   * `completeQuest(id)`: pay the rewards, drop the contract and log it. The
   * log entries `addReputation` appends are overwritten by the final write,
   * which starts from the log as it was when the action began.
   */
  function CompleteOutcome(s: CityState, id: string, cargoWeight: Resources -> real): (s': CityState)
    ensures id !in s.activeQuests ==> s' == s
    ensures id in s.activeQuests ==>
      var q := s.activeQuests[id];
      (forall k :: Amount(s'.resources, k) == Amount(s.resources, k) + Credited(q.rewards, k)) &&
      s'.xp == s.xp + XpTotal(q.rewards) &&
      s'.activeQuests == s.activeQuests - {id} &&
      s'.actionLogQueue == s.actionLogQueue + [Log("contract_complete")] &&
      s'.reputation == LegacyBonus(q, QuestPayout(q.rewards, s.resources, s.reputation).reputation) &&
      s' == s.(resources := s'.resources, currentCargoWeight := cargoWeight(s'.resources), xp := s'.xp,
               activeQuests := s'.activeQuests, actionLogQueue := s'.actionLogQueue, reputation := s'.reputation)
  {
    if id !in s.activeQuests then s
    else
      var q := s.activeQuests[id];
      var p := QuestPayout(q.rewards, s.resources, s.reputation);
      s.(resources := p.resources, currentCargoWeight := cargoWeight(p.resources), xp := s.xp + p.xpGain,
         activeQuests := s.activeQuests - {id}, actionLogQueue := s.actionLogQueue + [Log("contract_complete")],
         reputation := LegacyBonus(q, p.reputation))
  }

  /** Completing a contract keeps reputations within [0, 10000]. */
  lemma CompletionKeepsReputationInRange(s: CityState, id: string, cargoWeight: Resources -> real)
    requires InRange(s.reputation)
    ensures InRange(CompleteOutcome(s, id, cargoWeight).reputation)
  {
    if id in s.activeQuests {
      var q := s.activeQuests[id];
      PayoutKeepsReputationInRange(q.rewards, s.resources, s.reputation);
      var p := QuestPayout(q.rewards, s.resources, s.reputation);
      if q.reputationReward.Some? && q.reputationReward.value != 0.0 {
        ReputationByKeyInRange(p.reputation, LegacyFactionKey(q.issuer), q.reputationReward.value);
      }
    }
  }

  /** The first story contract pays 5000 rubies and no experience. */
  lemma {:induction false} LogisticsTroublePays(r: Resources, rep: map<string, real>)
    ensures var p := QuestPayout(Quests[0].rewards, r, rep);
            Amount(p.resources, "rubies") == Amount(r, "rubies") + 5000.0 && p.xpGain == 0.0 &&
            RepOf(p.reputation, "CORPORATE") == Min(ReputationCap, Max(0.0, RepOf(rep, "CORPORATE") + 50.0))
  {
    var rw := Quests[0].rewards;
    assert rw[..2][..1] == [rw[0]] && rw[..2] == [rw[0], rw[1]] && rw[..3] == rw;
    assert Credited([rw[0]], "rubies") == 0.0 by {
      assert [rw[0]][..0] == [];
    }
  }

  /** The board after a refresh: each contract under its id, a later one winning a shared id. */
  function QuestMap(qs: seq<Quest>): (m: map<string, Quest>)
    ensures forall k :: k in m <==> exists i :: 0 <= i < |qs| && qs[i].id == k
    ensures forall k :: k in m ==> m[k].id == k && m[k] in qs
    decreases |qs|
  {
    if |qs| == 0 then map[]
    else
      var last := qs[|qs| - 1];
      var m := QuestMap(qs[..|qs| - 1]);
      assert forall i :: 0 <= i < |qs| - 1 ==> qs[..|qs| - 1][i] == qs[i];
      m[last.id := last]
  }

  /** One more contract on the board, as the loop adds it. */
  lemma QuestMapStep(qs: seq<Quest>, i: nat)
    requires i < |qs|
    ensures QuestMap(qs[..i + 1]) == QuestMap(qs[..i])[qs[i].id := qs[i]]
  {
    assert qs[..i + 1][..i] == qs[..i];
  }

  /** Contracts with distinct ids all reach the board. */
  lemma {:induction false} QuestMapHoldsAll(qs: seq<Quest>, i: nat)
    requires i < |qs|
    requires forall a, b :: 0 <= a < b < |qs| ==> qs[a].id != qs[b].id
    ensures qs[i].id in QuestMap(qs) && QuestMap(qs)[qs[i].id] == qs[i]
    decreases |qs|
  {
    if i < |qs| - 1 {
      var init := qs[..|qs| - 1];
      assert init[i] == qs[i];
      QuestMapHoldsAll(init, i);
    }
  }

  /**
   * `refreshQuests` with the freshly generated contracts `board`: 100 clay
   * buys the board, which replaces the old one.
   */
  function RefreshOutcome(s: CityState, board: seq<Quest>, cargoWeight: Resources -> real): (s': CityState)
    ensures !Holds(s.resources, "clay", 100.0) ==> s' == s
    ensures Holds(s.resources, "clay", 100.0) ==>
      Amount(s'.resources, "clay") == Amount(s.resources, "clay") - 100.0 &&
      (forall k :: k != "clay" ==> Amount(s'.resources, k) == Amount(s.resources, k)) &&
      s'.activeQuests == QuestMap(board) && |s'.activeQuests| <= |board| &&
      s' == s.(resources := s'.resources, currentCargoWeight := cargoWeight(s'.resources), activeQuests := s'.activeQuests)
  {
    if !Holds(s.resources, "clay", 100.0) then s
    else
      var newRes := s.resources["clay" := s.resources["clay"] - 100.0];
      QuestMapSize(board);
      s.(resources := newRes, currentCargoWeight := cargoWeight(newRes), activeQuests := QuestMap(board))
  }

  /**
   * A paid refresh with a generated batch (see `GeneratedBatch`) leaves only
   * fresh contracts on the board, each under its own id.
   */
  lemma RefreshedBoardIsFresh(s: CityState, board: seq<Quest>, depth: real, cargoWeight: Resources -> real)
    requires 0 < |board| && forall i :: 0 <= i < |board| ==> FreshContract(board[i], depth)
    requires Holds(s.resources, "clay", 100.0)
    ensures var s' := RefreshOutcome(s, board, cargoWeight);
            0 < |s'.activeQuests| <= |board| &&
            forall id :: id in s'.activeQuests ==> s'.activeQuests[id].id == id && FreshContract(s'.activeQuests[id], depth)
  {
    var m := QuestMap(board);
    assert board[0].id in m;
    forall id | id in m
      ensures FreshContract(m[id], depth)
    {
      var i :| 0 <= i < |board| && board[i] == m[id];
    }
  }

  lemma {:induction false} QuestMapSize(qs: seq<Quest>)
    ensures |QuestMap(qs)| <= |qs|
    decreases |qs|
  {
    if |qs| > 0 {
      QuestMapSize(qs[..|qs| - 1]);
    }
  }

  /** The city part of the store. */
  class CityStore {
    var resources: Resources
    var currentCargoWeight: real
    var xp: real
    var heat: real
    var integrity: real
    var activeEffects: seq<ActiveEffect>
    var activeQuests: map<string, Quest>
    var actionLogQueue: seq<VisualEvent>
    var reputation: map<string, real>

    function State(): CityState
      reads this
    {
      CityState(resources, currentCargoWeight, xp, heat, integrity, activeEffects, activeQuests, actionLogQueue, reputation)
    }

    /** The affordability loop. */
    static method Affordable(cost: seq<(string, real)>, stock: Resources) returns (ok: bool)
      ensures ok <==> CanAfford(cost, stock)
    {
      var i := 0;
      while i < |cost|
        invariant 0 <= i <= |cost|
        invariant forall j :: 0 <= j < i ==> Holds(stock, cost[j].0, cost[j].1)
      {
        var (k, v) := cost[i];
        if !(k in stock && stock[k] >= v) {
          return false;
        }
        i := i + 1;
      }
      return true;
    }

    /** The reward loop of `tradeCity`. */
    static method TakeRewards(r: Resources, xp0: real, reward: seq<(string, real)>) returns (r': Resources, xp': real)
      ensures (r', xp') == TradeRewards(r, xp0, reward)
    {
      r', xp' := r, xp0;
      var i := 0;
      while i < |reward|
        invariant 0 <= i <= |reward|
        invariant (r', xp') == TradeRewards(r, xp0, reward[..i])
      {
        var (k, v) := reward[i];
        TradeRewardsStep(r, xp0, reward, i);
        if k == "XP" {
          xp' := xp0 + v;
        } else {
          r' := Credit(r', k, v);
        }
        i := i + 1;
      }
      assert reward[..i] == reward;
    }

    method TradeCity(cost: seq<(string, real)>, reward: seq<(string, real)>, cargoWeight: Resources -> real)
      modifies this
      ensures State() == TradeOutcome(old(State()), cost, reward, cargoWeight)
    {
      var canAfford := Affordable(cost, resources);
      if canAfford {
        var newRes := PayEntries(resources, cost);
        var newXp;
        newRes, newXp := TakeRewards(newRes, xp, reward);
        xp := newXp;
        resources := newRes;
        currentCargoWeight := cargoWeight(newRes);
      }
    }

    method HealCity()
      modifies this
      ensures State() == HealOutcome(old(State()))
    {
      heat := 0.0;
    }

    method RepairHull(maxIntegrity: real, resource: string, cost: real, cargoWeight: Resources -> real)
      modifies this
      ensures State() == RepairOutcome(old(State()), maxIntegrity, resource, cost, cargoWeight)
    {
      if cost <= 0.0 {
        return;
      }
      if resource in resources && resources[resource] >= cost {
        var newRes := resources[resource := resources[resource] - cost];
        integrity := maxIntegrity;
        resources := newRes;
        currentCargoWeight := cargoWeight(newRes);
      } else {
        actionLogQueue := actionLogQueue + [Log("not_enough_resources_" + resource)];
      }
    }

    method BuyCityBuff(cost: real, res: string, effectId: string, cargoWeight: Resources -> real)
      modifies this
      ensures State() == BuffOutcome(old(State()), cost, res, effectId, cargoWeight)
    {
      if res in resources && resources[res] >= cost {
        var newRes := resources[res := resources[res] - cost];
        var effect := CreateEffect(effectId);
        if effect.Some? {
          resources := newRes;
          currentCargoWeight := cargoWeight(newRes);
          activeEffects := activeEffects + [effect.value];
          actionLogQueue := actionLogQueue + [Log("effect_" + effect.value.id)];
        }
      }
    }

    method GambleResources(res: string, amount: real, draw: real, cargoWeight: Resources -> real)
      modifies this
      ensures State() == GambleOutcome(old(State()), res, amount, draw, cargoWeight)
    {
      if res in resources && resources[res] >= amount {
        var win := draw < 0.45;
        var newRes := resources[res := resources[res] - amount];
        if win {
          newRes := newRes[res := newRes[res] + amount * 2.0];
          resources := newRes;
          currentCargoWeight := cargoWeight(newRes);
          actionLogQueue := actionLogQueue + [LogAmount("gamble_win", amount)];
        } else {
          resources := newRes;
          currentCargoWeight := cargoWeight(newRes);
          actionLogQueue := actionLogQueue + [Log("gamble_loss")];
        }
      }
    }

    /** The reward loop of `completeQuest`. */
    static method PayRewards(rewards: seq<QuestReward>, r: Resources, rep: map<string, real>) returns (p: Payout)
      ensures p == QuestPayout(rewards, r, rep)
    {
      var newRes, xpGain, newRep := r, 0.0, rep;
      var i := 0;
      while i < |rewards|
        invariant 0 <= i <= |rewards|
        invariant Payout(newRes, xpGain, newRep) == QuestPayout(rewards[..i], r, rep)
      {
        var reward := rewards[i];
        QuestPayoutStep(rewards, r, rep, i);
        if reward.kind == ResourceReward || reward.kind == TechReward {
          newRes := Credit(newRes, reward.target, reward.amount);
        }
        if reward.kind == XpReward {
          xpGain := xpGain + reward.amount;
        }
        if reward.kind == ReputationReward {
          newRep := ReputationByKey(newRep, reward.target, reward.amount);
        }
        i := i + 1;
      }
      assert rewards[..i] == rewards;
      p := Payout(newRes, xpGain, newRep);
    }

    /** The body of `completeQuest` once the contract is found, on a snapshot of the store. */
    static method Completed(s: CityState, id: string, cargoWeight: Resources -> real) returns (t: CityState)
      requires id in s.activeQuests
      ensures t == CompleteOutcome(s, id, cargoWeight)
    {
      var quest := s.activeQuests[id];
      var p := PayRewards(quest.rewards, s.resources, s.reputation);
      var newRep := p.reputation;
      if quest.reputationReward.Some? && quest.reputationReward.value != 0.0 {
        var factionId := LegacyFactionKey(quest.issuer);
        newRep := ReputationByKey(newRep, factionId, quest.reputationReward.value);
      }
      t := s.(resources := p.resources, currentCargoWeight := cargoWeight(p.resources), xp := s.xp + p.xpGain,
              activeQuests := s.activeQuests - {id}, actionLogQueue := s.actionLogQueue + [Log("contract_complete")],
              reputation := newRep);
    }

    method CompleteQuest(id: string, cargoWeight: Resources -> real)
      modifies this
      ensures State() == CompleteOutcome(old(State()), id, cargoWeight)
    {
      if id !in activeQuests {
        return;
      }
      var t := Completed(State(), id, cargoWeight);
      reputation := t.reputation;
      resources := t.resources;
      currentCargoWeight := t.currentCargoWeight;
      xp := t.xp;
      activeQuests := t.activeQuests;
      actionLogQueue := t.actionLogQueue;
    }

    /** The `reduce` that files the contracts under their ids. */
    static method Board(quests: seq<Quest>) returns (questMap: map<string, Quest>)
      ensures questMap == QuestMap(quests)
    {
      questMap := map[];
      var i := 0;
      while i < |quests|
        invariant 0 <= i <= |quests|
        invariant questMap == QuestMap(quests[..i])
      {
        QuestMapStep(quests, i);
        questMap := questMap[quests[i].id := quests[i]];
        i := i + 1;
      }
      assert quests[..i] == quests;
    }

    /**
     * `refreshQuests`, with the three contracts `generateQuestBatch` drew for
     * this call (at the store's depth and level) as `batch`.
     */
    method RefreshQuests(batch: seq<Quest>, cargoWeight: Resources -> real)
      modifies this
      ensures State() == RefreshOutcome(old(State()), batch, cargoWeight)
    {
      if "clay" in resources && resources["clay"] >= 100.0 {
        var questMap := Board(batch);
        var newRes := resources["clay" := resources["clay"] - 100.0];
        resources := newRes;
        currentCargoWeight := cargoWeight(newRes);
        activeQuests := questMap;
      }
    }
  }
}
