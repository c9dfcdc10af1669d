// Faction levels and the active-perk list (services/factionLogic.ts).

module FactionLogic {
  import opened GameTypes
  import opened Factions

  /** A faction's reputation with a missing entry read as 0 (`reputation[f] || 0`). */
  function RepOf(reputation: map<string, real>, key: string): real
  {
    if key in reputation then reputation[key] else 0.0
  }

  /** The highest tier index below `i` whose threshold `rep` reaches (a reversed `find`). */
  function HighestTierBelow(rep: real, i: nat): (r: Option<nat>)
    requires i <= |FactionTiers|
    ensures r.Some? ==> r.value < i && FactionTiers[r.value].min <= rep
    ensures r.Some? ==> forall j :: r.value < j < i ==> FactionTiers[j].min > rep
    ensures r.None? ==> forall j :: 0 <= j < i ==> FactionTiers[j].min > rep
  {
    if i == 0 then None
    else if FactionTiers[i - 1].min <= rep then Some(i - 1)
    else HighestTierBelow(rep, i - 1)
  }

  /**
   * The faction level for a reputation: the highest level whose threshold
   * is reached, or 1 when none is (a negative reputation).
   */
  function FactionLevel(rep: real): (level: nat)
    ensures 1 <= level <= 10
    ensures rep >= 0.0 ==> FactionTiers[level - 1].min <= rep
    ensures level < 10 ==> rep < FactionTiers[level].min
  {
    TiersOrdered();
    match HighestTierBelow(rep, |FactionTiers|)
    case Some(k) => FactionTiers[k].level
    case None => 1
  }

  /** More reputation never means a lower level. */
  lemma FactionLevelMonotone(r1: real, r2: real)
    requires r1 <= r2
    ensures FactionLevel(r1) <= FactionLevel(r2)
  {
    TiersOrdered();
  }

  /** The perks among `perks` whose level requirement `level` meets, in order. */
  function UnlockedPerks(perks: seq<FactionPerk>, level: nat): (r: seq<FactionPerk>)
    ensures |r| <= |perks|
  {
    if |perks| == 0 then []
    else
      var last := perks[|perks| - 1];
      UnlockedPerks(perks[..|perks| - 1], level) + (if last.levelRequired <= level then [last] else [])
  }

  /** A perk is unlocked iff it is listed and its requirement is met. */
  lemma {:induction false} UnlockedPerksMembership(perks: seq<FactionPerk>, level: nat, p: FactionPerk)
    ensures p in UnlockedPerks(perks, level) <==> p in perks && p.levelRequired <= level
  {
    if |perks| > 0 {
      var init := perks[..|perks| - 1];
      UnlockedPerksMembership(init, level, p);
      assert perks == init + [perks[|perks| - 1]];
    }
  }

  /** The active perks of the factions in `fs`, grouped by faction in order. */
  function ActivePerksOf(reputation: map<string, real>, fs: seq<FactionId>): seq<FactionPerk>
  {
    if |fs| == 0 then []
    else
      var f := fs[|fs| - 1];
      ActivePerksOf(reputation, fs[..|fs| - 1]) + UnlockedPerks(Perks(f), FactionLevel(RepOf(reputation, FactionKey(f))))
  }

  /** All active perks: CORPORATE's, then SCIENCE's, then REBELS'. */
  function AllActivePerks(reputation: map<string, real>): seq<FactionPerk>
  {
    ActivePerksOf(reputation, FactionOrder)
  }

  function PerkIds(perks: seq<FactionPerk>): (ids: seq<string>)
    ensures |ids| == |perks|
    ensures forall i :: 0 <= i < |perks| ==> ids[i] == perks[i].id
  {
    if |perks| == 0 then [] else PerkIds(perks[..|perks| - 1]) + [perks[|perks| - 1].id]
  }

  lemma PerkIdsAppend(a: seq<FactionPerk>, b: seq<FactionPerk>)
    ensures PerkIds(a + b) == PerkIds(a) + PerkIds(b)
  {
  }

  /** The active perks of one faction. */
  function UnlockedFor(reputation: map<string, real>, f: FactionId): seq<FactionPerk>
  {
    UnlockedPerks(Perks(f), FactionLevel(RepOf(reputation, FactionKey(f))))
  }

  /** The three faction groups, in order. */
  lemma AllActivePerksUnfold(reputation: map<string, real>)
    ensures AllActivePerks(reputation) ==
              UnlockedFor(reputation, Corporate) + UnlockedFor(reputation, Science) + UnlockedFor(reputation, Rebels)
  {
    assert [Corporate][..0] == [];
    assert ActivePerksOf(reputation, [Corporate]) == UnlockedFor(reputation, Corporate);
    assert [Corporate, Science][..1] == [Corporate];
    assert ActivePerksOf(reputation, [Corporate, Science]) ==
           UnlockedFor(reputation, Corporate) + UnlockedFor(reputation, Science);
    assert FactionOrder[..2] == [Corporate, Science];
  }

  /** An unlocked perk is a listed one. */
  lemma UnlockedIsListed(perks: seq<FactionPerk>, level: nat, q: FactionPerk)
    requires q in UnlockedPerks(perks, level)
    ensures q in perks
  {
    UnlockedPerksMembership(perks, level, q);
  }

  /** Every active perk is one of some faction's listed perks. */
  lemma ActiveIsListed(reputation: map<string, real>, q: FactionPerk)
    requires q in AllActivePerks(reputation)
    ensures q in Perks(Corporate) || q in Perks(Science) || q in Perks(Rebels)
  {
    AllActivePerksUnfold(reputation);
    var a, b, c := UnlockedFor(reputation, Corporate), UnlockedFor(reputation, Science), UnlockedFor(reputation, Rebels);
    if q in a {
      UnlockedIsListed(Perks(Corporate), FactionLevel(RepOf(reputation, FactionKey(Corporate))), q);
    } else if q in b {
      UnlockedIsListed(Perks(Science), FactionLevel(RepOf(reputation, FactionKey(Science))), q);
    } else {
      assert q in c;
      UnlockedIsListed(Perks(Rebels), FactionLevel(RepOf(reputation, FactionKey(Rebels))), q);
    }
  }

  /** One more perk considered: its id is appended iff its requirement is met. */
  lemma UnlockedStep(perks: seq<FactionPerk>, pi: nat, level: nat)
    requires pi < |perks|
    ensures PerkIds(UnlockedPerks(perks[..pi + 1], level)) ==
              PerkIds(UnlockedPerks(perks[..pi], level)) +
              (if perks[pi].levelRequired <= level then [perks[pi].id] else [])
  {
    assert perks[..pi + 1][..pi] == perks[..pi];
    var extra := if perks[pi].levelRequired <= level then [perks[pi]] else [];
    PerkIdsAppend(UnlockedPerks(perks[..pi], level), extra);
  }

  /** One more faction considered: its unlocked perks are appended. */
  lemma ActivePerksStep(reputation: map<string, real>, fs: seq<FactionId>, fi: nat)
    requires fi < |fs|
    ensures ActivePerksOf(reputation, fs[..fi + 1]) == ActivePerksOf(reputation, fs[..fi]) + UnlockedFor(reputation, fs[fi])
  {
    assert fs[..fi + 1][..fi] == fs[..fi];
  }

  /** One more faction considered: its unlocked perks' ids are appended. */
  lemma FactionStep(reputation: map<string, real>, fs: seq<FactionId>, fi: nat)
    requires fi < |fs|
    ensures PerkIds(ActivePerksOf(reputation, fs[..fi + 1])) ==
              PerkIds(ActivePerksOf(reputation, fs[..fi])) + PerkIds(UnlockedFor(reputation, fs[fi]))
  {
    assert fs[..fi + 1][..fi] == fs[..fi];
    PerkIdsAppend(ActivePerksOf(reputation, fs[..fi]), UnlockedFor(reputation, fs[fi]));
  }

  /** The ids of the perks among `perks` that `level` unlocks, in order. */
  method UnlockedIds(perks: seq<FactionPerk>, level: nat) returns (ids: seq<string>)
    ensures ids == PerkIds(UnlockedPerks(perks, level))
  {
    ids := [];
    var pi := 0;
    while pi < |perks|
      invariant 0 <= pi <= |perks|
      invariant ids == PerkIds(UnlockedPerks(perks[..pi], level))
    {
      UnlockedStep(perks, pi, level);
      if perks[pi].levelRequired <= level {
        ids := ids + [perks[pi].id];
      }
      pi := pi + 1;
    }
    assert perks[..pi] == perks;
  }

  /**
   * The active perk ids: for each faction in CORPORATE, SCIENCE, REBELS
   * order, the ids of its perks whose level requirement the faction's
   * level meets.
   */
  method GetActivePerkIds(reputation: map<string, real>) returns (ids: seq<string>)
    ensures ids == PerkIds(AllActivePerks(reputation))
  {
    ids := [];
    var factionIds := FactionOrder;
    var fi := 0;
    while fi < |factionIds|
      invariant 0 <= fi <= |factionIds|
      invariant ids == PerkIds(ActivePerksOf(reputation, factionIds[..fi]))
    {
      var fid := factionIds[fi];
      var level := FactionLevel(RepOf(reputation, FactionKey(fid)));
      var unlocked := UnlockedIds(Perks(fid), level);
      FactionStep(reputation, factionIds, fi);
      ids := ids + unlocked;
      fi := fi + 1;
    }
    assert factionIds[..fi] == FactionOrder;
  }

  /** A listed perk of `f` is among `g`'s unlocked perks only when g is f and f's level meets it. */
  lemma UnlockedForOwnerOnly(reputation: map<string, real>, f: FactionId, i: nat, g: FactionId)
    requires i < |Perks(f)|
    ensures Perks(f)[i] in UnlockedFor(reputation, g) <==>
              g == f && Perks(f)[i].levelRequired <= FactionLevel(RepOf(reputation, FactionKey(f)))
  {
    var p := Perks(f)[i];
    UnlockedPerksMembership(Perks(g), FactionLevel(RepOf(reputation, FactionKey(g))), p);
    if p in Perks(g) {
      var j :| 0 <= j < |Perks(g)| && Perks(g)[j] == p;
      PerkIdsDistinct(f, g, i, j);
    }
  }

  /** A listed perk is active iff its faction's level meets its requirement. */
  lemma ActivePerkIff(reputation: map<string, real>, f: FactionId, i: nat)
    requires i < |Perks(f)|
    ensures Perks(f)[i] in AllActivePerks(reputation) <==>
              Perks(f)[i].levelRequired <= FactionLevel(RepOf(reputation, FactionKey(f)))
  {
    AllActivePerksUnfold(reputation);
    UnlockedForOwnerOnly(reputation, f, i, Corporate);
    UnlockedForOwnerOnly(reputation, f, i, Science);
    UnlockedForOwnerOnly(reputation, f, i, Rebels);
  }

  /** The same holds for perk ids, since ids are distinct across factions. */
  lemma ActivePerkIdIff(reputation: map<string, real>, f: FactionId, i: nat)
    requires i < |Perks(f)|
    ensures Perks(f)[i].id in PerkIds(AllActivePerks(reputation)) <==>
              Perks(f)[i].levelRequired <= FactionLevel(RepOf(reputation, FactionKey(f)))
  {
    var p := Perks(f)[i];
    var all := AllActivePerks(reputation);
    ActivePerkIff(reputation, f, i);
    if p in all {
      var k :| 0 <= k < |all| && all[k] == p;
      assert PerkIds(all)[k] == p.id;
    }
    if p.id in PerkIds(all) {
      var k :| 0 <= k < |all| && PerkIds(all)[k] == p.id;
      var q := all[k];
      ActiveIsListed(reputation, q);
      var g: FactionId :| q in Perks(g);
      var j :| 0 <= j < |Perks(g)| && Perks(g)[j] == q;
      PerkIdsDistinct(f, g, i, j);
    }
  }

  /** A faction at missing or zero reputation contributes no perk (the lowest requirement is 3). */
  lemma ZeroReputationNoPerks(reputation: map<string, real>, f: FactionId, i: nat)
    requires i < |Perks(f)| && RepOf(reputation, FactionKey(f)) == 0.0
    ensures Perks(f)[i].id !in PerkIds(AllActivePerks(reputation))
  {
    FourPerksEach(f);
    ActivePerkIdIff(reputation, f, i);
  }

  /** Raising reputations never removes an active perk id. */
  lemma ActivePerksGrowWithReputation(r1: map<string, real>, r2: map<string, real>, f: FactionId, i: nat)
    requires i < |Perks(f)|
    requires forall g :: RepOf(r1, FactionKey(g)) <= RepOf(r2, FactionKey(g))
    ensures Perks(f)[i].id in PerkIds(AllActivePerks(r1)) ==> Perks(f)[i].id in PerkIds(AllActivePerks(r2))
  {
    ActivePerkIdIff(r1, f, i);
    ActivePerkIdIff(r2, f, i);
    FactionLevelMonotone(RepOf(r1, FactionKey(f)), RepOf(r2, FactionKey(f)));
  }
}
