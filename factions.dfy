// Faction reputation levels and perk tables (constants/factions.ts).

module Factions {
  import opened GameTypes

  /** A faction reputation level, reached at `min` reputation. */
  datatype FactionTier = FactionTier(level: nat, min: real, name: string)

  const FactionTiers: seq<FactionTier> := [
    FactionTier(1, 0.0, "Neutral"),
    FactionTier(2, 100.0, "Associate"),
    FactionTier(3, 300.0, "Contractor"),
    FactionTier(4, 600.0, "Partner"),
    FactionTier(5, 1000.0, "Ally"),
    FactionTier(6, 1500.0, "Insider"),
    FactionTier(7, 2500.0, "Executive"),
    FactionTier(8, 4000.0, "Council"),
    FactionTier(9, 6000.0, "Leader"),
    FactionTier(10, 10000.0, "Legend")
  ]

  /** The cap `addReputation` clamps every faction's reputation to. */
  const ReputationCap: real := 10000.0

  datatype PerkEffect = Market | LogisticsEffect | Passive | Scanner | Combat

  /** A perk unlocked at `levelRequired`; some perks carry no value. */
  datatype FactionPerk = FactionPerk(id: string, levelRequired: nat, effect: PerkEffect, value: Option<real>)

  /** The perks of each faction, in catalogue order. */
  function Perks(f: FactionId): seq<FactionPerk>
  {
    match f
    case Corporate => [
      FactionPerk("CORP_EXCHANGE", 3, Market, Some(0.05)),
      FactionPerk("BULK_LOGISTICS", 5, LogisticsEffect, Some(0.2)),
      FactionPerk("INSURANCE", 7, LogisticsEffect, Some(0.5)),
      FactionPerk("EXECUTIVE", 10, Passive, Some(2.0))
    ]
    case Science => [
      FactionPerk("RESEARCH_GRANT", 3, Passive, Some(0.1)),
      FactionPerk("AUTO_ANALYSIS", 5, Passive, Some(0.25)),
      FactionPerk("ANOMALY_SCANNER", 7, Scanner, None),
      FactionPerk("QUANTUM_STABILITY", 10, Passive, Some(0.5))
    ]
    case Rebels => [
      FactionPerk("BLACK_MARKET", 3, Market, None),
      FactionPerk("SMUGGLER", 5, LogisticsEffect, Some(0.2)),
      FactionPerk("SABOTAGE", 7, Passive, Some(0.1)),
      FactionPerk("LIBERATION", 10, Combat, Some(0.5))
    ]
  }

  /** The order in which the perk helpers walk the factions. */
  const FactionOrder: seq<FactionId> := [Corporate, Science, Rebels]

  /** Levels run 1..10 in order with strictly increasing thresholds from 0; the top one is the cap. */
  lemma TiersOrdered()
    ensures |FactionTiers| == 10
    ensures forall i :: 0 <= i < |FactionTiers| ==> FactionTiers[i].level == i + 1
    ensures FactionTiers[0].min == 0.0
    ensures forall i, j :: 0 <= i < j < |FactionTiers| ==> FactionTiers[i].min < FactionTiers[j].min
    ensures FactionTiers[9].min == ReputationCap
  {
  }

  /** Each faction has four perks, unlocked at levels 3, 5, 7 and 10. */
  lemma FourPerksEach(f: FactionId)
    ensures |Perks(f)| == 4
    ensures Perks(f)[0].levelRequired == 3 && Perks(f)[1].levelRequired == 5
    ensures Perks(f)[2].levelRequired == 7 && Perks(f)[3].levelRequired == 10
  {
  }

  /** No perk id appears twice, within or across factions. */
  lemma PerkIdsDistinct(f: FactionId, g: FactionId, i: nat, j: nat)
    requires i < |Perks(f)| && j < |Perks(g)|
    requires Perks(f)[i].id == Perks(g)[j].id
    ensures f == g && i == j
  {
  }

  /** The INSURANCE and BULK_LOGISTICS values are the factors the caravan rules hard-code. */
  lemma CaravanPerkValues()
    ensures Perks(Corporate)[2].id == "INSURANCE" && Perks(Corporate)[2].value == Some(0.5)
    ensures Perks(Corporate)[1].id == "BULK_LOGISTICS" && Perks(Corporate)[1].value == Some(0.2)
  {
  }
}
