// Store actions for faction reputation (store/slices/factionSlice.ts): the
// reputation map with its CORPORATE/REBELS rivalry, and the level, tier
// name and perk queries over it.

module FactionSlice {
  import opened GameTypes
  import opened Factions
  import opened FactionLogic

  /** The faction that loses reputation when `f` gains some. */
  function Rival(f: FactionId): Option<FactionId>
  {
    match f
    case Corporate => Some(Rebels)
    case Rebels => Some(Corporate)
    case Science => None
  }

  /** Every reputation lies in [0, cap]. */
  ghost predicate InRange(reputation: map<string, real>)
  {
    forall k :: k in reputation ==> 0.0 <= reputation[k] <= ReputationCap
  }

  /**
   * The reputation map after `addReputation(f, amount)`: the faction's value
   * moves by `amount` clamped to [0, 10000]; a gain also takes
   * floor(amount / 2) from a rival that has reputation, floored at 0.
   */
  function ReputationAfter(reputation: map<string, real>, f: FactionId, amount: real): (r: map<string, real>)
    ensures RepOf(r, FactionKey(f)) == Min(ReputationCap, Max(0.0, RepOf(reputation, FactionKey(f)) + amount))
    ensures forall k :: k != FactionKey(f) && (Rival(f).None? || k != FactionKey(Rival(f).value)) ==>
              (k in r <==> k in reputation) && (k in reputation ==> r[k] == reputation[k])
    ensures Rival(f).Some? ==>
              var rk := FactionKey(Rival(f).value);
              var before := RepOf(reputation, rk);
              if amount > 0.0 && before > 0.0
              then RepOf(r, rk) == Max(0.0, before - Floor(amount * 0.5))
              else RepOf(r, rk) == before && (rk in r <==> rk in reputation)
  {
    var key := FactionKey(f);
    var updated := reputation[key := Min(ReputationCap, Max(0.0, RepOf(reputation, key) + amount))];
    match Rival(f)
    case None => updated
    case Some(rival) =>
      var rk := FactionKey(rival);
      var before := RepOf(reputation, rk);
      if amount > 0.0 && before > 0.0 then updated[rk := Max(0.0, before - Floor(amount * 0.5))]
      else updated
  }

  /** Reputations stay within [0, 10000]. */
  lemma ReputationAfterInRange(reputation: map<string, real>, f: FactionId, amount: real)
    requires InRange(reputation)
    ensures InRange(ReputationAfter(reputation, f, amount))
  {
    var r := ReputationAfter(reputation, f, amount);
    forall k | k in r
      ensures 0.0 <= r[k] <= ReputationCap
    {
      if k != FactionKey(f) && Rival(f).Some? && k == FactionKey(Rival(f).value) {
        var before := RepOf(reputation, k);
        if amount > 0.0 && before > 0.0 {
          assert Floor(amount * 0.5) >= 0.0;
        }
      }
    }
  }

  /**
   * The rival never gains; it loses at most floor(amount / 2), and nothing
   * at all when it has no reputation or the change is not a gain.
   */
  lemma RivalryPenaltyBounded(reputation: map<string, real>, f: FactionId, amount: real)
    requires InRange(reputation) && Rival(f).Some?
    ensures var rk := FactionKey(Rival(f).value);
            var after := RepOf(ReputationAfter(reputation, f, amount), rk);
            after <= RepOf(reputation, rk) &&
            (amount > 0.0 ==> RepOf(reputation, rk) - after <= Floor(amount * 0.5)) &&
            (amount <= 0.0 || RepOf(reputation, rk) == 0.0 ==> after == RepOf(reputation, rk))
  {
    var rk := FactionKey(Rival(f).value);
    if rk in reputation {
      assert 0.0 <= reputation[rk];
    }
    if amount > 0.0 {
      assert Floor(amount * 0.5) >= 0.0;
    }
  }

  /** SCIENCE has no rival: only its own entry changes. */
  lemma ScienceHasNoRivalry(reputation: map<string, real>, amount: real)
    ensures var r := ReputationAfter(reputation, Science, amount);
            RepOf(r, "CORPORATE") == RepOf(reputation, "CORPORATE") &&
            RepOf(r, "REBELS") == RepOf(reputation, "REBELS")
  {
  }

  /** A gain never lowers the faction's own level. */
  lemma GainNeverLowersLevel(reputation: map<string, real>, f: FactionId, amount: real)
    requires InRange(reputation) && amount >= 0.0
    ensures FactionLevel(RepOf(ReputationAfter(reputation, f, amount), FactionKey(f))) >=
            FactionLevel(RepOf(reputation, FactionKey(f)))
  {
    var before := RepOf(reputation, FactionKey(f));
    if FactionKey(f) in reputation {
      assert before <= ReputationCap;
    }
    FactionLevelMonotone(before, RepOf(ReputationAfter(reputation, f, amount), FactionKey(f)));
  }

  /** Every listed perk whose requirement `level` meets, and no other. */
  lemma UnlockedPerksExactly(perks: seq<FactionPerk>, level: nat)
    ensures forall p :: p in UnlockedPerks(perks, level) <==> p in perks && p.levelRequired <= level
  {
    forall p
      ensures p in UnlockedPerks(perks, level) <==> p in perks && p.levelRequired <= level
    {
      UnlockedPerksMembership(perks, level, p);
    }
  }

  /** The faction part of the store. */
  class FactionStore {
    var reputation: map<string, real>
    var actionLogQueue: seq<VisualEvent>

    ghost predicate Valid()
      reads this
    {
      InRange(reputation)
    }

    /** Applies a reputation change with its rivalry penalty and logs the signed amount. */
    method AddReputation(f: FactionId, amount: real)
      requires Valid()
      modifies this
      ensures Valid()
      ensures reputation == ReputationAfter(old(reputation), f, amount)
      ensures actionLogQueue == old(actionLogQueue) + [LogAmount("reputation_" + FactionKey(f), amount)]
    {
      var key := FactionKey(f);
      var current := RepOf(reputation, key);
      var newRep := Min(ReputationCap, Max(0.0, current + amount));
      var updates := reputation[key := newRep];
      if amount > 0.0 {
        if f == Corporate {
          var rebelRep := RepOf(reputation, "REBELS");
          if rebelRep > 0.0 {
            var penalty := Floor(amount * 0.5);
            updates := updates["REBELS" := Max(0.0, rebelRep - penalty)];
          }
        } else if f == Rebels {
          var corpRep := RepOf(reputation, "CORPORATE");
          if corpRep > 0.0 {
            var penalty := Floor(amount * 0.5);
            updates := updates["CORPORATE" := Max(0.0, corpRep - penalty)];
          }
        }
      }
      assert updates == ReputationAfter(reputation, f, amount) by {
        assert FactionKey(Corporate) == "CORPORATE" && FactionKey(Rebels) == "REBELS";
      }
      ReputationAfterInRange(reputation, f, amount);
      reputation := updates;
      actionLogQueue := actionLogQueue + [LogAmount("reputation_" + FactionKey(f), amount)];
    }

    /** The highest level whose threshold the faction's reputation reaches (1 if none). */
    function GetReputationLevel(f: FactionId): (level: nat)
      reads this
      ensures 1 <= level <= 10
      ensures RepOf(reputation, FactionKey(f)) >= 0.0 ==> FactionTiers[level - 1].min <= RepOf(reputation, FactionKey(f))
      ensures level < 10 ==> RepOf(reputation, FactionKey(f)) < FactionTiers[level].min
    {
      FactionLevel(RepOf(reputation, FactionKey(f)))
    }

    /** The name of that tier; "Unknown" when no threshold is reached. */
    function GetReputationTierName(f: FactionId): (name: string)
      reads this
      ensures RepOf(reputation, FactionKey(f)) >= 0.0 ==> name == FactionTiers[GetReputationLevel(f) - 1].name
      ensures RepOf(reputation, FactionKey(f)) < 0.0 ==> name == "Unknown"
    {
      TiersOrdered();
      match HighestTierBelow(RepOf(reputation, FactionKey(f)), |FactionTiers|)
      case Some(k) => FactionTiers[k].name
      case None => "Unknown"
    }

    /** The faction's perks whose requirement its level meets, in catalogue order. */
    function GetActivePerks(f: FactionId): (perks: seq<FactionPerk>)
      reads this
      ensures forall p :: p in perks <==> p in Perks(f) && p.levelRequired <= GetReputationLevel(f)
    {
      UnlockedPerksExactly(Perks(f), GetReputationLevel(f));
      UnlockedPerks(Perks(f), GetReputationLevel(f))
    }

    /** The perks among `perks` that `level` unlocks, collected in order. */
    static method CollectUnlocked(perks: seq<FactionPerk>, level: nat) returns (unlocked: seq<FactionPerk>)
      ensures unlocked == UnlockedPerks(perks, level)
    {
      unlocked := [];
      var pi := 0;
      while pi < |perks|
        invariant 0 <= pi <= |perks|
        invariant unlocked == UnlockedPerks(perks[..pi], level)
      {
        assert perks[..pi + 1][..pi] == perks[..pi];
        if perks[pi].levelRequired <= level {
          unlocked := unlocked + [perks[pi]];
        }
        pi := pi + 1;
      }
      assert perks[..pi] == perks;
    }

    /** All active perks: CORPORATE's, then SCIENCE's, then REBELS'. */
    method GetAllActivePerks() returns (allPerks: seq<FactionPerk>)
      ensures allPerks == AllActivePerks(reputation)
    {
      allPerks := [];
      var factions := FactionOrder;
      var fi := 0;
      while fi < |factions|
        invariant 0 <= fi <= |factions|
        invariant allPerks == ActivePerksOf(reputation, factions[..fi])
      {
        var f := factions[fi];
        var level := FactionLevel(RepOf(reputation, FactionKey(f)));
        var unlocked := CollectUnlocked(Perks(f), level);
        ActivePerksStep(reputation, factions, fi);
        allPerks := allPerks + unlocked;
        fi := fi + 1;
      }
      assert factions[..fi] == FactionOrder;
    }

    /** Whether some active perk carries the id. */
    method HasPerk(perkId: string) returns (b: bool)
      ensures b <==> exists p :: p in AllActivePerks(reputation) && p.id == perkId
    {
      var perks := GetAllActivePerks();
      b := false;
      var i := 0;
      while i < |perks|
        invariant 0 <= i <= |perks|
        invariant b <==> exists j :: 0 <= j < i && perks[j].id == perkId
      {
        if perks[i].id == perkId {
          b := true;
        }
        i := i + 1;
      }
    }
  }

  /** A listed perk is held iff its own faction's level meets its requirement. */
  lemma HasPerkIff(reputation: map<string, real>, f: FactionId, i: nat)
    requires i < |Perks(f)|
    ensures (exists p :: p in AllActivePerks(reputation) && p.id == Perks(f)[i].id) <==>
              Perks(f)[i].levelRequired <= FactionLevel(RepOf(reputation, FactionKey(f)))
  {
    var all := AllActivePerks(reputation);
    ActivePerkIdIff(reputation, f, i);
    if exists p :: p in all && p.id == Perks(f)[i].id {
      var p :| p in all && p.id == Perks(f)[i].id;
      var k :| 0 <= k < |all| && all[k] == p;
      assert PerkIds(all)[k] == p.id;
    }
    if Perks(f)[i].id in PerkIds(all) {
      var k :| 0 <= k < |PerkIds(all)| && PerkIds(all)[k] == Perks(f)[i].id;
      assert all[k] in all && all[k].id == Perks(f)[i].id;
    }
  }
}
