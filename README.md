# Cosmic Excavator rule layer in Dafny

Cosmic Excavator is an idle mining game. The player drills downward, collects
resources, fights bosses, and runs a meta game of regions, bases, caravans,
licences, factions, a market and contracts. This project models the game's
rule layer: the transforms that the game loop and the store actions apply to
the game state. Each transform is stated in Dafny and its properties are proved.

The model has four parts.

- **The random-event pipeline.** This covers:
  - the event catalogue and its weighted roll (`event_registry.dfy`);
  - the event tick with trigger, cooldown and recent-id gating (`event_system.dfy`);
  - answering the head of the event queue (`event_slice.dfy`);
  - side tunnels (`side_tunnel.dfy`);
  - tunnel hazards (`hazard_system.dfy`).
- **Per-tick subsystems.** These are the shield, drones and regeneration, the
  ability cooldown/duration state machine (a class), the artifact analyzer and
  timed travel.
- **Progression and economy.** This covers:
  - reputation tiers, zone licences and regional permits;
  - faction reputation with rivalry and perks;
  - caravans;
  - base construction;
  - the station market;
  - the city's trades, gambling and contracts;
  - quest availability and generation;
  - refinery and workshop recipes.
- **Small helpers.** These are `clamp`, `lerp`, `factorial`, `weightedRandom`
  and friends, region colours and distances, the isometric projection, the
  monster codex and the responsive breakpoint fallback.

## How the model is built

- **One module per source file.** Each source file becomes one Dafny module.
  The shared vocabulary lives in `GameTypes` (`common.dfy`):
  - resource maps, with a missing key read as 0;
  - zones, regions and factions;
  - the visual events the actions append to the log.
- **Numbers.** JavaScript numbers are `real`. Timestamps are `int`.
  `Math.floor`, `Math.round` and `Math.ceil` are written out.
- **Randomness and time.** Every `Math.random()` draw is a parameter in
  [0, 1), and every `Date.now()` is a parameter `now`.
- **Helpers from outside the model are inputs.** This covers:
  - stats, cargo weight, repair quotes and market quotes;
  - artifact rolls;
  - the base cost tables;
  - the generated contracts.
- **Mutating code becomes imperative Dafny.** A store slice is a class whose
  fields are the store fields it writes. A store action is a method whose
  postcondition sets the new state equal to a specification function of the
  old state. A loop in the source is a `while` loop proved against a
  recursive specification function. Invariants the actions keep appear as
  `Valid()` predicates. Examples are the licence ladder, one base per region,
  and reputations within [0, 10000].
- **Pure code stays pure.** The pure modules are functions with named results,
  plus lemmas relating them.

A few resource keys are lower-case string keys named by the code, such as
`scrap`, `ice`, `credits`, `repairKit`, `coolantPaste` and `advancedCoolant`.
The `Resources` interface and the `ResourceType` alias in `types.ts` do not
list them all. `ResourceType` is a type alias there, yet the recipe and market
tables write `ResourceType.IRON` and so on; the model uses the lower-case
string keys the rest of the code reads.

## Model

| member | source | states |
|---|---|---|
| MathUtils.PoissonProbability | services/mathUtils.ts:20-23 | negative k or λ gives 0; otherwise the closed-form value |
| MathUtils.PoissonEventChance | services/mathUtils.ts:41-44 | a non-positive rate or period gives 0; otherwise the chance lies in [0, 1) |
| MathUtils.ExponentialDecay | services/mathUtils.ts:61-68 | a non-positive scale gives 0; for non-negative value and base the result lies in [0, base] |
| MathUtils.Uniform | services/mathUtils.ts:99-101 | a draw in [0, 1) lands in [min, max] |
| MathUtils.UniformInt | services/mathUtils.ts:110-112 | a draw in [0, 1) gives an integer in [min, max] |
| MathUtils.PercentChance | services/mathUtils.ts:249-251 | 100 % or more always succeeds, 0 % or less never does |
| MathUtils.RollDice | services/mathUtils.ts:259-261 | a die with s ≥ 1 sides rolls a value in [1, s] |
| MathUtils.Clamp | services/mathUtils.ts:190-192 | the result lies in [lo, hi] when lo ≤ hi, is the value itself when already in range, lo below and hi above |
| MathUtils.Lerp | services/mathUtils.ts:202-204 | start for t ≤ 0, end for t ≥ 1, always between start and end |
| MathUtils.InterpolationBetween | services/mathUtils.ts:202-204 | a factor in [0, 1] keeps the interpolation between both ends |
| MathUtils.Fact | services/mathUtils.ts:219-236 | n! is at least 1 and at least n |
| MathUtils.FactorialCache.constructor | services/mathUtils.ts:216 | the cache starts as {0: 1, 1: 1} and every entry is a true factorial |
| MathUtils.FactorialCache.Factorial | services/mathUtils.ts:219-236 | 0 for n < 0, Infinity for n > 170, n! otherwise; a cache hit leaves the cache alone, and every entry written is the true factorial |
| MathUtils.FirstReaching | services/mathUtils.ts:145-153 | the walk stops at the first index whose running weight reaches the target, or at the last index |
| MathUtils.FirstReachingStep | services/mathUtils.ts:145-153 | one step of the subtraction walk: stop here or move to the next index |
| MathUtils.WeightedRandom | services/mathUtils.ts:132-154 | an empty list and a non-positive total are errors; otherwise the item where the running weight first reaches draw·total, else the last |
| MathUtils.WeightedIndexOwnsTarget | services/mathUtils.ts:145-153 | with positive weights the chosen index owns the slice of the weight line holding the target, so each item is picked in proportion to its weight |
| MathUtils.ExpectedValue | services/mathUtils.ts:176-180 | definition: the reduce sum of prob · reward, from 0; its properties are stated by ExpectedValueAppend and ExpectedValueBounds |
| MathUtils.ExpectedValueAppend | services/mathUtils.ts:176-180 | the expected value of a concatenation is the sum of both parts' |
| MathUtils.ExpectedValueBounds | services/mathUtils.ts:176-180 | with non-negative probabilities and rewards in [lo, hi], the expected value lies between lo and hi times the probability mass |
| EventRegistry.CatalogueWellFormed | services/eventRegistry.ts:5-479 | the catalogue holds 26 events with distinct ids and positive weights |
| EventRegistry.CreateEffect | services/eventRegistry.ts:482-567 | an effect exactly for the ids with a case, always with positive duration; null otherwise |
| EventRegistry.CatalogueEffects | services/eventRegistry.ts:5-479 | among catalogue events with an effect id, exactly COAL_SEAM and PRICE_SPIKE name an id without a case |
| EventRegistry.PirateRaidChance | services/eventRegistry.ts:170-175 | zone risk (0.05 / 0.15 / 0.30, missing = green) plus min(0.2, value/100000); within [0.05, 0.5] for non-negative cargo value |
| EventRegistry.PirateRaidZoneOrder | services/eventRegistry.ts:170-175 | green ≤ yellow ≤ red at equal cargo value, and a missing zone is green |
| EventRegistry.CaravanDelayChance | services/eventRegistry.ts:198-203 | 0.10 / level with level 0 read as 1: 0.10 at level 0 and 1, in (0, 0.10] from level 1 up, and p·level = 0.10 |
| EventRegistry.DefendBaseChance | services/eventRegistry.ts:302-307 | 0 outside red zones or with fortification, 0.001 with guards, 0.005 otherwise |
| EventRegistry.DefencesOnlyHelp | services/eventRegistry.ts:302-307 | guards never raise the chance and fortification makes it 0 |
| EventRegistry.DepthMultiplier | services/eventRegistry.ts:59-119 | gas multiplier in [0.5, 1] and 1 exactly on 3000–6000 m; coal 1.5 shallower than 3000 m and 0.5 from 3000 m down; oil in [1, 3] and 3 from 10000 m |
| EventRegistry.OilMultiplierMonotone | services/eventRegistry.ts:116-119 | the oil multiplier never falls with depth |
| EventRegistry.Candidates | services/eventRegistry.ts:570-576 | the survivors are exactly the catalogue events that are not recent and not deeper than `depth`, keeping positive weights |
| EventRegistry.PickIsFirstExceeding | services/eventRegistry.ts:583-586 | for r in [0, total) the walk returns the first event whose cumulative weight exceeds r |
| EventRegistry.PickInList | services/eventRegistry.ts:583-586 | a picked event comes from the list walked |
| EventRegistry.DrawBelowTotal | services/eventRegistry.ts:580-581 | a draw in [0, 1) times a positive total lies in [0, total) |
| EventRegistry.RollOverUnfold | services/eventRegistry.ts:578-588 | with survivors the roll is the weighted walk over them |
| EventRegistry.RollRandomEvent | services/eventRegistry.ts:569-589 | the loop returns the roll the filter-and-walk specification gives |
| EventRegistry.RollOverIsEligible | services/eventRegistry.ts:570-576 | a roll never returns a recent event nor one deeper than `depth` |
| EventRegistry.RollOverPicksFirstExceeding | services/eventRegistry.ts:580-586 | a roll with survivors picks the first whose cumulative weight exceeds draw·total |
| EventRegistry.RollOverNullIffNoCandidate | services/eventRegistry.ts:578 | the roll is null exactly when no event survives the filter |
| EventRegistry.RollIsEligible | services/eventRegistry.ts:570-576 | the catalogue roll never returns a recent id nor an event with a non-zero minDepth above `depth` |
| EventRegistry.RollNullIffNoCandidate | services/eventRegistry.ts:578 | the catalogue roll is null exactly when no catalogue event survives |
| EventRegistry.RollPicksFirstExceeding | services/eventRegistry.ts:580-586 | a catalogue roll with survivors is the first whose cumulative weight exceeds draw·total |
| EventSystem.MatchesTrigger | services/systems/EventSystem.ts:31-36 | true iff the event has no triggers or lists the given one |
| EventSystem.DrillingOnlyEvents | services/systems/EventSystem.ts:121-134 | with the trigger fixed to drilling, exactly seven catalogue events can never pass the trigger check |
| EventSystem.IsOnCooldown | services/systems/EventSystem.ts:41-48 | a 0 cooldown never blocks; otherwise blocked iff now − last (missing = 0) < cooldown·1000 |
| EventSystem.CooldownWindow | services/systems/EventSystem.ts:41-48 | a firing at t blocks exactly until t + cooldown·1000 |
| EventSystem.PushRecent | services/systems/EventSystem.ts:154-160 | the id is appended and the oldest dropped once past five, so a window of at most five stays at most five |
| EventSystem.Fired | services/systems/EventSystem.ts:117-150 | an event fires only when the check runs, it is the roll's result, it matches the trigger, it is off cooldown and the draw is below its probability |
| EventSystem.InstantEffects | services/systems/EventSystem.ts:170-190 | each instant field applies iff non-zero: integrity max(0, i − floor(max·damage)), depth and xp exact sums, heat min(100, h + x) |
| EventSystem.InstantAmount | services/systems/EventSystem.ts:193-206 | with mean and deviation any sample is clamped into [min or 0, max or 1000]; otherwise the mean, or 100 |
| EventSystem.CatalogueInstantAmounts | services/systems/EventSystem.ts:193-206 | the gas and oil deposits yield within [50, 150] and [200, 500] for any sample |
| EventSystem.EventTick | services/systems/EventSystem.ts:104-223 | the counter resets iff a check runs; a rejected roll returns queue and recent ids unchanged; a fired event is appended to the queue and its id pushed to the recent window (length ≤ 5 kept), integrity ≥ 0, heat ≤ 100 |
| EventSystem.FiredIsEligible | services/systems/EventSystem.ts:124 | a fired event is a catalogue event that was not recent and is deep enough |
| EventSystem.BlockedTickOnlyCounts | services/systems/EventSystem.ts:107-117 | with a queued event, a boss or a combat minigame, only the counter moves |
| EventSystem.CooldownTable.constructor | services/systems/EventSystem.ts:110 | the cooldown record holds the given entries |
| EventSystem.ProcessEvents | services/systems/EventSystem.ts:104-223 | the method's result is the tick specification, and the fired event's cooldown time becomes now in the shared record, the record otherwise unchanged |
| EventSlice.TunnelAnswer | store/slices/eventSlice.ts:104-116 | a tunnel answer merges the resolution with the active perks; integrity stays ≥ 0, heat, depth and effects are untouched |
| EventSlice.HandleOutcome | store/slices/eventSlice.ts:21-133 | an empty queue changes nothing; otherwise the queue loses its head, the old log is a prefix of the new, and reputation, boss, minigame and overheat flags are untouched |
| EventSlice.ApplyOption | store/slices/eventSlice.ts:43-117 | definition: the option switch, one case per known id, tunnel actions resolved by TunnelAnswer and any other id changing nothing; its properties are stated by StateOptions, the four resource answers, UnknownOptionOnlyDequeues and OptionKeepsGauges |
| EventSlice.StateOptions | store/slices/eventSlice.ts:45-88 | TECTONIC_HOLD max(0, i−30); TECTONIC_PUSH depth +1500 and heat min(100, h+40); AI_TRUST +3000 and min(100, h+20); AI_REBOOT heat 0; ACCEPT_FLUCTUATION heat 90 |
| EventSlice.PodHackAnswer | store/slices/eventSlice.ts:65-70 | POD_HACK adds 5 ancientTech; every other amount untouched |
| EventSlice.PurgeNanomitesAnswer | store/slices/eventSlice.ts:89-94 | PURGE_NANOMITES adds 50 nanoSwarm; every other amount untouched |
| EventSlice.CrystalAbsorbAnswer | store/slices/eventSlice.ts:95-101 | CRYSTAL_ABSORB adds 2 diamonds, heat becomes min(100, h+50); every other amount untouched |
| EventSlice.PodLaserAnswer | store/slices/eventSlice.ts:55-64 | POD_LASER: a draw above 0.5 changes no resource, otherwise +20 ancientTech and every other amount untouched |
| EventSlice.UnknownOptionOnlyDequeues | store/slices/eventSlice.ts:44-117 | an option id without a case only dequeues the event |
| EventSlice.ApplyPassive | store/slices/eventSlice.ts:119-130 | definition: with no option, the known effect stamped with the time and, on a forced drop, the artifact grant of lines 31-40; its properties are stated by PassiveAnswer |
| EventSlice.PassiveAnswer | store/slices/eventSlice.ts:119-130 | with no option the effect is appended only when createEffect knows it, and one artifact is added iff the event forces a drop, lifting storage level 0 to 1 |
| EventSlice.OptionKeepsGauges | store/slices/eventSlice.ts:44-117 | no option drives integrity below 0 or heat above 100 from in-range values |
| EventSlice.AnswerKeepsGauges | store/slices/eventSlice.ts:21-133 | answering keeps integrity ≥ 0 and heat ≤ 100 |
| EventSlice.CombatOutcome | store/slices/eventSlice.ts:135-157 | the minigame is cleared; with a boss, success takes 25 % of max hp, failure costs 20 integrity floored at 0, and invulnerability ends |
| EventSlice.FourHitsDefeatBoss | store/slices/eventSlice.ts:140-146 | four successes bring a boss at most at full health to hp ≤ 0 |
| EventSlice.OverheatOutcome | store/slices/eventSlice.ts:161-169 | heat 100, overheated, cooling game off, and integrity max(0, i − ceil(0.2·max)), within [0, i] |
| EventSlice.EventStore.SetShip | store/slices/eventSlice.ts:132 | writes the answerable fields and leaves queue, log, reputation, boss and flags alone |
| EventSlice.EventStore.HandleEventOption | store/slices/eventSlice.ts:21-133 | the store moves to HandleOutcome of its old state |
| EventSlice.EventStore.AnswerOption | store/slices/eventSlice.ts:44-117 | the switch produces exactly the ApplyOption updates and log lines |
| EventSlice.EventStore.AnswerTunnel | store/slices/eventSlice.ts:104-116 | the tunnel cases produce exactly the TunnelAnswer updates and log lines |
| EventSlice.EventStore.CompleteCombatMinigame | store/slices/eventSlice.ts:135-157 | the store moves to CombatOutcome of its old state |
| EventSlice.EventStore.SetCoolingGame | store/slices/eventSlice.ts:159 | only the cooling-game flag changes |
| EventSlice.EventStore.ForceVentHeat | store/slices/eventSlice.ts:160 | heat becomes max(0, h − amount), never negative, nothing else changes |
| EventSlice.EventStore.TriggerOverheat | store/slices/eventSlice.ts:161-169 | the store moves to OverheatOutcome of its old state |
| SideTunnel.Def | services/systems/SideTunnelSystem.ts:29-117 | every tunnel has a base risk in [0, 1), a non-negative minimum depth, positive tech and resource ranges with min < max |
| SideTunnel.ActionToType | services/systems/SideTunnelSystem.ts:192-199 | an action maps to the tunnel whose action it is, other actions to none |
| SideTunnel.ActionRoundTrip | services/systems/SideTunnelSystem.ts:192-199 | each tunnel's action leads back to that tunnel |
| SideTunnel.ActualRisk | services/systems/SideTunnelSystem.ts:208-214 | max(0, base − luck·0.01), less another 0.1 floored at 0 with SABOTAGE; never negative and never above the base for non-negative luck |
| SideTunnel.SafeHasNoRisk | services/systems/SideTunnelSystem.ts:216-218 | with non-negative luck every draw succeeds in the SAFE tunnel |
| SideTunnel.SpecialTypes | services/systems/SideTunnelSystem.ts:133-136 | a special tunnel is offered iff the depth reaches its minimum; SAFE and RISKY never |
| SideTunnel.SpecialChance | services/systems/SideTunnelSystem.ts:125 | min(0.5, depth/10000): at most one half, non-negative for non-negative depth |
| SideTunnel.ChooseTunnel | services/systems/SideTunnelSystem.ts:127-141 | RISKY iff the first draw is below 0.4; a special tunnel only when the second draw is below the special chance; the chosen tunnel is deep enough |
| SideTunnel.PickIndex | services/systems/SideTunnelSystem.ts:139 | floor(draw·n) is an index below n |
| SideTunnel.RiskLabel | services/systems/SideTunnelSystem.ts:170 | HIGH above 0.3, MEDIUM above 0, LOW otherwise |
| SideTunnel.GenerateEvent | services/systems/SideTunnelSystem.ts:123-180 | id TUNNEL_<type>_<now>, weight 100, the drilling trigger, and the enter and ignore options |
| SideTunnel.GeneratedTunnelReachable | services/systems/SideTunnelSystem.ts:123-180 | the entering option leads to a tunnel deep enough for the depth, SAFE or RISKY below 1000 m |
| SideTunnel.Credited | services/systems/SideTunnelSystem.ts:223-235 | crediting only raises amounts, and only listed rewards add keys |
| SideTunnel.CreditedStep | services/systems/SideTunnelSystem.ts:224-234 | each reward with a positive gain is credited and logged; others are skipped |
| SideTunnel.CreditRewards | services/systems/SideTunnelSystem.ts:223-235 | the forEach loop computes Credited |
| SideTunnel.FailureDamage | services/systems/SideTunnelSystem.ts:263-284 | 30 % of max integrity for RISKY and MINE, 15 % for CRYSTAL, 50 % for NEST, floored; 0 for SAFE; within [0, max] |
| SideTunnel.ResolveOutcome | services/systems/SideTunnelSystem.ts:186-293 | an action entering no tunnel yields no updates and no logs; otherwise resources are always written and at least one log line is produced; an integrity it writes is never negative |
| SideTunnel.SuccessResult | services/systems/SideTunnelSystem.ts:220-251 | definition: the success branch (rewards, tech and artifact draws); its properties are stated by SuccessRewards, ResourcesNeverDecrease and ApplySuccess |
| SideTunnel.FailureResult | services/systems/SideTunnelSystem.ts:258-289 | definition: the failure branch (per-type damage less defense, integrity floored at 0); its properties are stated by FailureDamageApplied and ResourcesNeverDecrease |
| SideTunnel.ApplySuccess | services/systems/SideTunnelSystem.ts:220-257 | the success branch computes SuccessResult |
| SideTunnel.ResolveTunnel | services/systems/SideTunnelSystem.ts:186-293 | the imperative resolution equals ResolveOutcome |
| SideTunnel.ResourcesNeverDecrease | services/systems/SideTunnelSystem.ts:220-291 | no resource amount ever decreases, on success or failure |
| SideTunnel.FailureDamageApplied | services/systems/SideTunnelSystem.ts:258-289 | a failure costs max(0, damage − defense) integrity, floored at 0, never heals, and leaves resources as they were |
| SideTunnel.SuccessRewards | services/systems/SideTunnelSystem.ts:220-257 | success never touches integrity; an artifact draw adds exactly one unidentified item and lifts storage level 0 to 1 |
| SideTunnel.SafeTunnelSucceeds | services/systems/SideTunnelSystem.ts:208-218 | entering the SAFE tunnel with non-negative luck always succeeds |
| HazardSystem.ChancePerSecond | services/systems/HazardSystem.ts:36-43 | 0.5 % growing with depth up to 2 % per second, halved (0.25 %–1 %) with QUANTUM_STABILITY |
| HazardSystem.ChanceMonotone | services/systems/HazardSystem.ts:36-38 | the chance never falls with depth |
| HazardSystem.BaseDamage | services/systems/HazardSystem.ts:55 | floor(10·draw) + 5 lies in [5, 14] |
| HazardSystem.CaveInDamage | services/systems/HazardSystem.ts:55-59 | with resistance in [0, 100] the damage lies in [0, 14]; without resistance it is the base damage |
| HazardSystem.ProcessHazards | services/systems/HazardSystem.ts:21-99 | suppressed states and a queued event change nothing; at most one of integrity and heat is written; a cave-in needs integrity > 20 and a roll below 0.4, keeps integrity ≥ 0 and costs at most 14; heat stays ≤ 100 |
| HazardSystem.HazardEffects | services/systems/HazardSystem.ts:48-95 | cave-in max(0, i − damage); gas pocket min(100, h+10) below 80 heat; magma min(100, h+20) deeper than 15000 m and below 70 heat; nothing otherwise |
| HazardSystem.NoHazardInZeroTime | services/systems/HazardSystem.ts:48 | a zero time step never triggers a hazard |
| ShieldSystem.ProcessShield | services/systems/ShieldSystem.ts:20-37 | +5/s up to 100 while drilling and not overheated; −20/s while idle with charge (shielding iff charge remains); otherwise a −1/s leak; shielding only when idle |
| ShieldSystem.ChargeStaysInRange | services/systems/ShieldSystem.ts:20-37 | the charge stays in [0, 100] |
| ShieldSystem.OnlyDrillingCharges | services/systems/ShieldSystem.ts:24-34 | the charge rises only while drilling and not overheated |
| DroneSystem.ProcessDrones | services/systems/DroneSystem.ts:19-52 | no update iff neither drone acts; the repair drone adds 0.05·lvl·efficiency up to the max, the cooler takes 0.1·lvl·efficiency down to ambient; an idle drone leaves its value |
| DroneSystem.DronesOnlyHelp | services/systems/DroneSystem.ts:19-52 | with non-negative levels and efficiency drones never lower integrity nor raise heat |
| DroneSystem.ProcessRegeneration | services/systems/DroneSystem.ts:57-66 | with positive regen, below max and not broken, integrity rises and stays ≤ max; otherwise unchanged |
| DroneSystem.RegenerationSettles | services/systems/DroneSystem.ts:57-66 | regeneration never overshoots the max and stays there once reached |
| AbilitySystem.Abilities | services/systems/AbilitySystem.ts:10-51 | each definition carries its own id, a positive cooldown and no energy cost |
| AbilitySystem.Tick | services/systems/AbilitySystem.ts:118-137 | a running cooldown drops by 1000·dt floored at 0; an active ability's duration drops and it stays active iff time is left; well-formed states stay well formed |
| AbilitySystem.Reduce | services/systems/AbilitySystem.ts:140-147 | a positive cooldown drops by the amount floored at 0; nothing else changes |
| AbilitySystem.CanActivateState | services/systems/AbilitySystem.ts:87-98 | ready iff off cooldown, not active, and a positive heat cost keeps heat below 100 |
| AbilitySystem.ThermalStrikeNeverHeatBlocked | services/systems/AbilitySystem.ts:87-98 | THERMAL_STRIKE's readiness does not depend on heat |
| AbilitySystem.Activated | services/systems/AbilitySystem.ts:100-116 | full cooldown; BARRIER active for 4 s and OVERLOAD for 6 s; the others keep their activity |
| AbilitySystem.NoImmediateReactivation | services/systems/AbilitySystem.ts:87-116 | an ability just activated cannot fire again |
| AbilitySystem.ReadyAfterCooldown | services/systems/AbilitySystem.ts:100-137 | after a tick at least as long as cooldown and duration, the ability is off cooldown and inactive |
| AbilitySystem.AbilityTracker.constructor | services/systems/AbilitySystem.ts:57-73 | four fresh states filed under their ids and an empty queue |
| AbilitySystem.AbilityTracker.CreateState | services/systems/AbilitySystem.ts:66-73 | a fresh, well-formed state for the id |
| AbilitySystem.AbilityTracker.GetAbilityDef | services/systems/AbilitySystem.ts:75-77 | the definition of that id |
| AbilitySystem.AbilityTracker.GetState | services/systems/AbilitySystem.ts:79-81 | the well-formed state filed under that id |
| AbilitySystem.AbilityTracker.GetAllStates | services/systems/AbilitySystem.ts:83-85 | the four states in record order |
| AbilitySystem.AbilityTracker.CanActivate | services/systems/AbilitySystem.ts:87-98 | the answer is CanActivateState of the stored state |
| AbilitySystem.AbilityTracker.Activate | services/systems/AbilitySystem.ts:100-116 | only that ability's state changes, to Activated, and its id is queued at the end |
| AbilitySystem.AbilityTracker.Update | services/systems/AbilitySystem.ts:118-137 | every state advances by one Tick; the queue is untouched |
| AbilitySystem.AbilityTracker.ReduceCooldowns | services/systems/AbilitySystem.ts:140-147 | every state is reduced by the amount; the queue is untouched |
| AbilitySystem.AbilityTracker.ConsumeActivationEvents | services/systems/AbilitySystem.ts:149-153 | the queued ids are returned in order and the queue is emptied |
| AnalyzerSystem.Decrement | services/systems/AnalyzerSystem.ts:35-40 | 2 with a research lab in the first active base of the region, else 1; an error exactly when that base has no `facilities`, where the lookup throws |
| AnalyzerSystem.CountedDown | services/systems/AnalyzerSystem.ts:33-42 | a busy timer drops by at least 1 or reaches 0, never below 0; an idle one is unchanged; an error exactly when it counts and the lab lookup throws |
| AnalyzerSystem.ProcessAnalyzer | services/systems/AnalyzerSystem.ts:26-77 | an error exactly when the countdown meets a region base without `facilities`; otherwise idle changes nothing, the countdown uses the decrement, and on completion a present item is identified, the id cleared, the definition discovered once, and a log and a sound produced |
| AnalyzerSystem.IdleStaysIdle | services/systems/AnalyzerSystem.ts:33-45 | an idle analyzer stays idle, without error, over any number of ticks |
| AnalyzerSystem.AnalysisCompletes | services/systems/AnalyzerSystem.ts:33-66 | when the lab lookup does not throw, an item in the inventory with at most n seconds left is identified within n ticks |
| TravelSystem.Apply | services/systems/TravelSystem.ts:36-42 | no update keeps the state; an arrival sets the region and clears the journey |
| TravelSystem.ProcessTravel | services/systems/TravelSystem.ts:15-46 | no journey: nothing; arrived: region becomes the target, journey cleared, one log; still travelling: nothing |
| TravelSystem.ArrivalIsApplied | services/systems/TravelSystem.ts:15-46 | after an applied arrival later ticks change nothing |
| TravelSystem.StaysUntilArrival | services/systems/TravelSystem.ts:23-26 | the region changes only once the arrival time has come |
| Licenses.TiersContiguous | constants/licenses.ts:10-16 | the reputation tiers start at 0, each begins one above the previous maximum, and only the last is unbounded |
| Licenses.TiersTileNaturals | constants/licenses.ts:10-16 | every non-negative whole reputation lies in exactly one tier |
| Licenses.DiscountsNonDecreasing | constants/licenses.ts:10-16 | discounts never fall going up the tiers, from 0 at tier 1 to 0.30 at tier 5, and tiers are numbered 1 to 5 in order |
| Licenses.LicensePrice | constants/licenses.ts:19-23 | definition: LICENSE_PRICES; its properties are stated by PriceOrdering |
| Licenses.PermitPrices | constants/licenses.ts:26-32 | definition: PERMIT_PRICES; its properties are stated by PriceOrdering |
| Licenses.RegionZoneRequirement | constants/licenses.ts:35-41 | definition: REGION_ZONE_REQUIREMENTS; its values are stated by LicenseManager.GetRequiredLicense |
| Licenses.PriceOrdering | constants/licenses.ts:19-32 | green < yellow < red licence prices; temporary permits cost less than permanent ones where they are sold; Rust Valley is free and Void Chasm is quest-only (-1) |
| LicenseManager.FindTier | services/licenseManager.ts:12-14 | the first tier whose [min, max] holds the reputation, and none exactly when no tier holds it |
| LicenseManager.GetReputationTier | services/licenseManager.ts:11-15 | the tier holding the reputation when one does, tier 1 otherwise; its discount lies in [0, 0.30] |
| LicenseManager.DiscountMonotone | services/licenseManager.ts:11-15 | more whole reputation never gives a lower tier or a smaller discount |
| LicenseManager.DiscountIsTableValue | services/licenseManager.ts:11-15 | the discount is always one of the five table values |
| LicenseManager.MaxZoneRank | services/licenseManager.ts:27-30 | the largest zone rank among the unlocked licences, -1 exactly when there are none |
| LicenseManager.HasRequiredLicense | services/licenseManager.ts:20-33 | true iff some unlocked licence ranks at or above the required zone; never with no licences |
| LicenseManager.HasActivePermit | services/licenseManager.ts:38-57 | Rust Valley always; otherwise a permanent permit, or a temporary one iff its non-zero expiration lies after now |
| LicenseManager.CalculatePermitPrice | services/licenseManager.ts:62-68 | a non-negative base gives a price between 0 and the base; the quest-only base -1 stays -1 |
| LicenseManager.PermitPriceMonotone | services/licenseManager.ts:62-68 | with a non-negative base the price never rises as whole reputation grows |
| LicenseManager.GetRequiredLicense | services/licenseManager.ts:73-75 | green for Rust Valley and Crystal Wastes, yellow for Iron Gates, red for Magma Core and Void Chasm |
| LicenseManager.CreatePermit | services/licenseManager.ts:80-91 | the permit is for the given region and kind; a temporary one expires seven days after now, a permanent one never |
| LicenseManager.FreshPermitActive | services/licenseManager.ts:80-91 | a permit just bought is active until its expiration |
| LicenseSlice.CheckLicensePurchase | store/slices/licenseSlice.ts:28-76 | already owned iff the zone is held; the prerequisite is missing iff yellow without green or red without yellow, and the missing zone is the one below; a purchase or a shortfall only passes the earlier checks |
| LicenseSlice.LicensePurchaseKeepsLadder | store/slices/licenseSlice.ts:28-98 | a successful purchase keeps the licence list free of repeats and ordered green before yellow before red |
| LicenseSlice.LadderOrder | store/slices/licenseSlice.ts:43-61 | a licence can be bought only when every lower zone is already held |
| LicenseSlice.CheckPermitPurchase | store/slices/licenseSlice.ts:103-156 | refused for a held permanent permit, then for a quest-only price (only Void Chasm), then for a missing zone licence naming the required zone |
| LicenseSlice.NewGlobalReputation | store/slices/licenseSlice.ts:188 | reputation after a change is floored at 0 and is the plain sum otherwise |
| LicenseSlice.LossNeverRaisesTier | store/slices/licenseSlice.ts:185-203 | losing whole reputation never logs a tier rise |
| LicenseSlice.LicenseStore.BuyLicense | store/slices/licenseSlice.ts:28-98 | a failed check appends only its log line; a purchase deducts the discounted price from rubies, appends the zone and recomputes cargo weight; the ladder invariant is kept |
| LicenseSlice.LicenseStore.BuyPermit | store/slices/licenseSlice.ts:103-180 | a failed check appends only its log line; a purchase stores a fresh permit under the region and deducts the discounted price; the invariant is kept |
| LicenseSlice.LicenseStore.AddGlobalReputation | store/slices/licenseSlice.ts:185-203 | the new reputation is the floored sum, and one log line is appended exactly when the tier number rose |
| Factions.TiersOrdered | constants/factions.ts:3-14 | ten levels numbered 1 to 10 in order, with thresholds rising strictly from 0 up to the cap of 10000 |
| Factions.Perks | constants/factions.ts:16-132 | definition: the perk tables of the three factions; their properties are stated by FourPerksEach, PerkIdsDistinct and CaravanPerkValues |
| Factions.FourPerksEach | constants/factions.ts:16-132 | every faction has four perks, unlocked at levels 3, 5, 7 and 10 |
| Factions.PerkIdsDistinct | constants/factions.ts:16-132 | no perk id appears twice, within a faction or across factions |
| Factions.CaravanPerkValues | constants/factions.ts:31-45 | BULK_LOGISTICS is worth 0.2 and INSURANCE 0.5 |
| FactionLogic.FactionLevel | services/factionLogic.ts:15-16 | the level lies in 1..10; a non-negative reputation reaches its level's threshold and stays below the next one |
| FactionLogic.FactionLevelMonotone | services/factionLogic.ts:15-16 | more reputation never gives a lower level |
| FactionLogic.UnlockedPerksMembership | services/factionLogic.ts:20-24 | a perk is unlocked iff it is listed and its level requirement is met |
| FactionLogic.ActiveIsListed | services/factionLogic.ts:8-29 | every active perk is a listed perk of some faction |
| FactionLogic.GetActivePerkIds | services/factionLogic.ts:8-29 | the ids of the unlocked perks of CORPORATE, SCIENCE and REBELS, in that order |
| FactionLogic.ActivePerkIff | services/factionLogic.ts:8-29 | a listed perk is active iff its own faction's level meets its requirement |
| FactionLogic.ActivePerkIdIff | services/factionLogic.ts:8-29 | the same holds for perk ids, because ids are distinct across factions |
| FactionLogic.ZeroReputationNoPerks | services/factionLogic.ts:13-24 | a faction with missing or zero reputation contributes no perk |
| FactionLogic.ActivePerksGrowWithReputation | services/factionLogic.ts:8-29 | raising reputations never removes an active perk id |
| FactionSlice.ReputationAfter | store/slices/factionSlice.ts:16-47 | the faction's reputation moves by the amount clamped to [0, 10000]; on a gain a rival with reputation loses floor(amount/2), floored at 0; every other entry is unchanged |
| FactionSlice.ReputationAfterInRange | store/slices/factionSlice.ts:15-55 | reputations within [0, 10000] stay there |
| FactionSlice.RivalryPenaltyBounded | store/slices/factionSlice.ts:27-41 | the rival never gains and loses at most floor(amount/2); it loses nothing on a non-gain or when it has no reputation |
| FactionSlice.ScienceHasNoRivalry | store/slices/factionSlice.ts:27-41 | a SCIENCE change leaves CORPORATE and REBELS untouched |
| FactionSlice.GainNeverLowersLevel | store/slices/factionSlice.ts:15-62 | a gain never lowers the faction's own level |
| FactionSlice.UnlockedPerksExactly | store/slices/factionSlice.ts:76 | the filter keeps exactly the listed perks whose requirement the level meets |
| FactionSlice.FactionStore.AddReputation | store/slices/factionSlice.ts:15-55 | the reputation map becomes the after-change map, one signed log line is appended, and reputations stay in range |
| FactionSlice.FactionStore.GetReputationLevel | store/slices/factionSlice.ts:57-62 | the level lies in 1..10; a non-negative reputation reaches its level's threshold and stays below the next one |
| FactionSlice.FactionStore.GetReputationTierName | store/slices/factionSlice.ts:64-68 | the name of the reached tier, or "Unknown" when no threshold is reached |
| FactionSlice.FactionStore.GetActivePerks | store/slices/factionSlice.ts:70-77 | exactly the faction's perks whose requirement its level meets |
| FactionSlice.FactionStore.CollectUnlocked | store/slices/factionSlice.ts:88-92 | the loop collects exactly the unlocked perks, in order |
| FactionSlice.FactionStore.GetAllActivePerks | store/slices/factionSlice.ts:79-96 | all active perks of CORPORATE, SCIENCE and REBELS, in that order |
| FactionSlice.FactionStore.HasPerk | store/slices/factionSlice.ts:98-102 | true iff some active perk carries the id |
| FactionSlice.HasPerkIff | store/slices/factionSlice.ts:98-102 | a listed perk is held iff its own faction's level meets its requirement |
| FactionLogic.HighestTierBelow | services/factionLogic.ts:15 | the reversed search finds the highest tier whose threshold the reputation reaches, and none only when no threshold is reached |
| FactionLogic.UnlockedIds | services/factionLogic.ts:20-24 | the inner loop pushes exactly the ids of the unlocked perks, in order |
| Caravans.CaravanSpecs | constants/caravans.ts:16-58 | each tier's entry carries its own tier, a positive capacity and travel time, and base risks in [0, 1] |
| Caravans.RiskGrowsWithDanger | constants/caravans.ts:16-58 | within a tier the base risk grows from green to yellow to red |
| Caravans.HigherTierIsBetter | constants/caravans.ts:16-58 | a higher tier carries more, travels faster and is lost no more often in any zone |
| Caravans.OneStarUnlockCost | constants/caravans.ts:16-63 | the 1★ unlock cost equals the Basic Logistics price of 15000 |
| Caravans.IsCaravanUnlocked | constants/caravans.ts:68-73 | true iff the tier is among the unlocked tiers |
| Caravans.GetCaravanSpec | constants/caravans.ts:78-80 | the table entry of the tier, which carries that tier |
| CaravanManager.MaxZone | services/caravanManager.ts:27-29 | the more dangerous of the two zones, and one of them |
| CaravanManager.CalculateCaravanRisk | services/caravanManager.ts:14-39 | the tier's base risk in the more dangerous zone of the two regions, halved with INSURANCE; within [0, 1] and never above the red-zone risk |
| CaravanManager.RiskSymmetric | services/caravanManager.ts:14-39 | the risk does not depend on the direction of travel |
| CaravanManager.CreateCaravan | services/caravanManager.ts:44-66 | an in-transit caravan departing now, arriving one tier travel time later, carrying the given cargo, with the computed loss chance |
| CaravanManager.CheckCaravanCompletion | services/caravanManager.ts:75-86 | pending iff the arrival time has not come; lost iff it has and the draw is below the loss chance |
| CaravanManager.RisklessCaravanArrives | services/caravanManager.ts:75-86 | a caravan with zero loss chance is never lost |
| CaravanManager.Capacity | services/caravanManager.ts:100-104 | the tier's capacity, 20% more with BULK_LOGISTICS |
| CaravanManager.SendVerdict | services/caravanManager.ts:91-126 | sending is allowed iff the weight fits the capacity and every cargo entry is held at the sending base; a refusal names the capacity or a short entry with its needed and available amounts |
| CaravanManager.CanSendCaravan | services/caravanManager.ts:91-126 | the capacity check and then the loop over the entries give exactly the verdict above |
| CaravanManager.PerkFactorsMatchCatalogue | services/caravanManager.ts:34-36 | the hard-coded 0.5 and 1.2 factors agree with the INSURANCE and BULK_LOGISTICS values of the faction catalogue |
| CaravanManager.GetCaravanEta | services/caravanManager.ts:131-142 | the remaining time is the time to arrival floored at 0, arrived iff it is 0, and the minutes are its ceiling in whole minutes |
| RegionMath.Regions | constants/regions.ts:14-83 | each region's entry is filed under its own id |
| RegionMath.RoundSqrt | services/regionMath.ts:36 | the rounded square root of a whole number |
| RegionMath.SearchRoundSqrt | services/regionMath.ts:36 | the upward search ends at the rounded square root |
| RegionMath.RoundSqrtUnique | services/regionMath.ts:36 | a whole number has only one rounded square root |
| RegionMath.GetRegionById | services/regionMath.ts:76-85 | the table entry for a string naming a region, nothing otherwise |
| RegionMath.CalculateDistance | services/regionMath.ts:24-37 | 0 when either id is unknown, else the rounded straight-line distance between the two regions |
| RegionMath.DistanceSymmetric | services/regionMath.ts:24-37 | the distance does not depend on the direction |
| RegionMath.DistanceToSelf | services/regionMath.ts:24-37 | a region is at distance 0 from itself |
| RegionMath.KnownDistances | services/regionMath.ts:19-24 | Rust Valley to Crystal Wastes is 1000 and Rust Valley to Magma Core rounds to 990 |
| RegionMath.GetRegionColor | services/regionMath.ts:57-68 | green iff the player is 20 or more levels above the recommendation, yellow from the recommendation up to that, red below it |
| RegionMath.ColorNeverWorsens | services/regionMath.ts:57-68 | gaining levels never makes a region look more dangerous |
| RegionMath.ZoneColorEmoji | services/regionMath.ts:93-99 | one icon per zone colour |
| RegionMath.ZoneColorLabel | services/regionMath.ts:107-113 | a non-empty label per zone colour |
| RegionMath.ZoneLabelsDistinct | services/regionMath.ts:93-113 | different colours get different icons and labels |
| IsometricMath.GridToIso | services/isometricMath.ts:23-28 | half a tile (64) across per step of x − y, half a tile (32) down per step of x + y |
| IsometricMath.IsoToGrid | services/isometricMath.ts:36-51 | the grid point whose x + y and x − y match the screen position |
| IsometricMath.GridRoundTrip | services/isometricMath.ts:23-51 | projecting a grid point to the screen and back gives the grid point |
| IsometricMath.ScreenRoundTrip | services/isometricMath.ts:23-51 | mapping a screen point to the grid and back gives the screen point |
| IsometricMath.GetDepth | services/isometricMath.ts:57-59 | the depth key orders tiles exactly as their screen height does |
| IsometricMath.StepMovesDown | services/isometricMath.ts:23-59 | a step along either grid axis moves a tile half a tile down and one depth step nearer |
| MarketPrices.TableWellFormed | constants/marketPrices.ts:10-172 | every row holds a modifier for each of the five regions, and every modifier is positive |
| MarketPrices.TableEntry | constants/marketPrices.ts:178 | definition: the `REGIONAL_PRICE_MODIFIERS[resource]?.[regionId]` lookup; its properties are stated by TableWellFormed and ModifierIsEntryOrDefault |
| MarketPrices.GetRegionalModifier | constants/marketPrices.ts:177-179 | the table entry when there is one (and it is not 0), 1.0 when the resource or region is missing |
| MarketPrices.ModifierIsEntryOrDefault | constants/marketPrices.ts:177-179 | since no entry is 0, the fallback fires exactly on missing keys, every listed pair has an entry, and every modifier is positive |
| MarketPrices.CreditsEverywhereOne | constants/marketPrices.ts:144-150 | credits have modifier 1.0 in every region |
| MarketSlice.BuyOutcome | store/slices/marketSlice.ts:23-72 | nothing changes away from a station or when rubies do not cover price × amount; otherwise one buy record is appended, the resource grows by the amount, rubies drop by the cost, every other resource is kept and the cargo weight is recomputed |
| MarketSlice.BuyingRubiesIgnoresCost | store/slices/marketSlice.ts:47-51 | buying rubies ends at old rubies + amount: the later key of the spread overwrites the payment |
| MarketSlice.SellOutcome | store/slices/marketSlice.ts:74-122 | nothing changes away from a station or when the resource held is short of the amount; otherwise one sell record is appended, the resource drops by the amount, rubies grow by the revenue, every other resource is kept and the cargo weight is recomputed |
| MarketSlice.SaleKeepsStockNonNegative | store/slices/marketSlice.ts:85-100 | a sale never leaves a non-negative stock below zero |
| MarketSlice.HistoryOnlyGrows | store/slices/marketSlice.ts:23-122 | a trade either changes nothing or appends exactly one record, keeping the earlier history |
| MarketSlice.MarketStore.Bought | store/slices/marketSlice.ts:23-72 | the station check, the ruby check and the trade, run on a snapshot of the wallet, give exactly the buy outcome |
| MarketSlice.MarketStore.BuyFromMarket | store/slices/marketSlice.ts:23-72 | the store's resources, cargo weight and history become the buy outcome; bases and region are untouched |
| MarketSlice.MarketStore.Sold | store/slices/marketSlice.ts:74-122 | the station check, the stock check and the trade, run on a snapshot of the wallet, give exactly the sell outcome |
| MarketSlice.MarketStore.SellToMarket | store/slices/marketSlice.ts:74-122 | the store's resources, cargo weight and history become the sell outcome; bases and region are untouched |
| BaseSlice.NewBase | store/slices/baseSlice.ts:67-92 | the new base is filed under `base_<region>_<now>` in that region with that type; it is active iff the build time is 0 and completes build time after now; it starts empty at level 1; a workshop unless an outpost; fuel and market only at a station; no fortification or guards; no `facilities` field, as the literal sets none |
| BaseSlice.CheckBuild | store/slices/baseSlice.ts:19-58 | already built iff the region has a base; a rubies shortfall or a short material is reported as such; the build goes ahead iff the region is free, the rubies cover the cost and every material entry is held |
| BaseSlice.BuildOutcome | store/slices/baseSlice.ts:19-107 | a refused build keeps resources and bases and appends one log line; a build pays rubies and materials, appends the new base and one log line; the earlier log is kept |
| BaseSlice.BuildKeepsOneBasePerRegion | store/slices/baseSlice.ts:23-32 | building never puts a second base in a region |
| BaseSlice.BuildPaysExactly | store/slices/baseSlice.ts:60-64 | a build lowers each resource by exactly its listed amount, plus the rubies cost for rubies, and nothing else |
| BaseSlice.CompleteOne | store/slices/baseSlice.ts:118-124 | a base whose construction time has come becomes active; nothing else about it changes |
| BaseSlice.CompleteAll | store/slices/baseSlice.ts:118-124 | the same bases in the same order, each through the completion rule |
| BaseSlice.CompletionOutcome | store/slices/baseSlice.ts:113-140 | nothing changes when no base is due; otherwise the bases are completed and one log line is appended |
| BaseSlice.CompletionSettles | store/slices/baseSlice.ts:113-140 | completion keeps one base per region, leaves nothing due and is idempotent |
| BaseSlice.BuiltBaseBreaksLabLookup | services/systems/AnalyzerSystem.ts:35-37 | a base built with no build time is the region's active base without `facilities`, so the analyzer's lab lookup there throws |
| BaseSlice.CompletedBaseBreaksLabLookup | services/systems/AnalyzerSystem.ts:35-37 | the same for any built base once the completion check runs at or after its completion time |
| BaseSlice.BaseStore.Build | store/slices/baseSlice.ts:19-107 | the region, ruby and material checks in order, then the payment and the new base, give exactly the build outcome |
| BaseSlice.BaseStore.BuildBase | store/slices/baseSlice.ts:19-107 | the store's resources, bases and log become the build outcome, and one base per region is kept |
| BaseSlice.BaseStore.CheckBaseCompletion | store/slices/baseSlice.ts:113-140 | the loop over the bases gives exactly the completion outcome, and one base per region is kept |
| CitySlice.LastXp | store/slices/citySlice.ts:29-30 | none iff no reward entry is XP; otherwise the value of the last XP entry |
| CitySlice.TradeRewards | store/slices/citySlice.ts:29-32 | every resource other than XP grows by its reward total; the XP resource is untouched; experience becomes the starting experience plus the last XP entry |
| CitySlice.TradeRewardsStep | store/slices/citySlice.ts:29-32 | one more reward entry sets the experience when it is XP and credits its resource otherwise |
| CitySlice.TradeOutcome | store/slices/citySlice.ts:23-39 | nothing changes unless every cost entry is held; otherwise each resource moves by its reward total minus its cost total, experience follows the last XP reward, the cargo weight is recomputed and nothing else changes |
| CitySlice.TotalOfDistinct | store/slices/citySlice.ts:28 | in a record without repeated keys, a key's total is its own amount |
| CitySlice.TotalAbsent | store/slices/citySlice.ts:28 | a key no entry names totals 0 |
| CitySlice.TotalNonNegative | store/slices/citySlice.ts:31 | non-negative amounts total a non-negative sum |
| CitySlice.TradeNeverOverdraws | store/slices/citySlice.ts:23-39 | an affordable trade never leaves a paid resource below zero |
| CitySlice.HealOutcome | store/slices/citySlice.ts:41-44 | the heat becomes 0 and nothing else changes |
| CitySlice.RepairOutcome | store/slices/citySlice.ts:46-69 | nothing happens when the repair costs nothing; with enough of the resource the hull is restored to its maximum and only that resource is paid; otherwise only a log line is appended |
| CitySlice.BuffOutcome | store/slices/citySlice.ts:71-90 | with enough of the resource and a known effect id, the cost is paid, the effect appended and a log line added; otherwise nothing changes |
| CitySlice.GambleOutcome | store/slices/citySlice.ts:92-116 | with enough stake, a winning draw (below 0.45) adds the stake and a losing one removes it, with one log line; otherwise nothing changes |
| CitySlice.FactionOfKey | store/slices/citySlice.ts:138 | the faction whose key the string is, and only that one |
| CitySlice.ReputationByKey | store/slices/citySlice.ts:137-138 | a faction key follows the rivalry rule of `addReputation`; every key ends at its old value plus the amount clamped to [0, 10000] |
| CitySlice.ReputationByKeyInRange | store/slices/citySlice.ts:137-138 | reputations within [0, 10000] stay there |
| CitySlice.QuestPayout | store/slices/citySlice.ts:122-140 | each resource grows by its RESOURCE and TECH rewards, experience gained is the sum of the XP rewards, and reputation is untouched without REPUTATION rewards |
| CitySlice.QuestPayoutStep | store/slices/citySlice.ts:124-140 | one more reward is paid by its kind: credited, added to experience or passed to the reputation rule |
| CitySlice.PayoutKeepsReputationInRange | store/slices/citySlice.ts:128-139 | reputation rewards keep every reputation within [0, 10000] |
| CitySlice.LegacyFactionKey | store/slices/citySlice.ts:144-145 | the legacy issuer CORP becomes CORPORATE; any other issuer is kept |
| CitySlice.LegacyBonus | store/slices/citySlice.ts:143-147 | a missing or zero legacy reputation reward changes nothing |
| CitySlice.CompleteOutcome | store/slices/citySlice.ts:118-162 | an unknown id changes nothing; otherwise the rewards are paid, experience grows by the XP total, the contract leaves the board and one log line is appended to the log as it was |
| CitySlice.CompletionKeepsReputationInRange | store/slices/citySlice.ts:118-162 | completing a contract keeps reputations within [0, 10000] |
| CitySlice.LogisticsTroublePays | store/slices/citySlice.ts:124-140 | the first story contract pays 5000 rubies, no experience and 50 CORPORATE reputation |
| CitySlice.QuestMap | store/slices/citySlice.ts:168 | the board holds a contract under each id of the batch, each filed under its own id and taken from the batch |
| CitySlice.QuestMapStep | store/slices/citySlice.ts:168 | one more contract is filed under its id, overriding an earlier one with the same id |
| CitySlice.QuestMapHoldsAll | store/slices/citySlice.ts:168 | contracts with distinct ids all reach the board |
| CitySlice.QuestMapSize | store/slices/citySlice.ts:168 | the board is no larger than the batch |
| CitySlice.RefreshOutcome | store/slices/citySlice.ts:164-176 | with at least 100 clay, exactly 100 clay is paid and the board is replaced by the new batch; otherwise nothing changes |
| CitySlice.RefreshedBoardIsFresh | store/slices/citySlice.ts:164-176 | after a paid refresh with freshly generated contracts, the board is non-empty and holds only fresh contracts, each under its own id |
| CitySlice.CityStore.Affordable | store/slices/citySlice.ts:25 | the loop answers exactly whether every cost entry is held |
| CitySlice.CityStore.TakeRewards | store/slices/citySlice.ts:29-32 | the loop computes exactly the reward outcome |
| CitySlice.CityStore.TradeCity | store/slices/citySlice.ts:23-39 | the store's state becomes the trade outcome |
| CitySlice.CityStore.HealCity | store/slices/citySlice.ts:41-44 | the store's state becomes the heal outcome |
| CitySlice.CityStore.RepairHull | store/slices/citySlice.ts:46-69 | the store's state becomes the repair outcome |
| CitySlice.CityStore.BuyCityBuff | store/slices/citySlice.ts:71-90 | the store's state becomes the buff outcome |
| CitySlice.CityStore.GambleResources | store/slices/citySlice.ts:92-116 | the store's state becomes the gamble outcome for the draw |
| CitySlice.CityStore.PayRewards | store/slices/citySlice.ts:124-140 | the reward loop computes exactly the quest payout |
| CitySlice.CityStore.Completed | store/slices/citySlice.ts:118-162 | paying a found contract's rewards (the reward loop and the legacy faction bonus), dropping it and logging give exactly the completion outcome |
| CitySlice.CityStore.CompleteQuest | store/slices/citySlice.ts:118-162 | the store's state becomes the completion outcome |
| CitySlice.CityStore.Board | store/slices/citySlice.ts:168 | the reduce builds exactly the board of the batch |
| CitySlice.CityStore.RefreshQuests | store/slices/citySlice.ts:164-176 | the store's state becomes the refresh outcome for the batch |
| QuestRegistry.FindQuest | services/questRegistry.ts:8 | none iff no quest has the id; otherwise the first quest with that id |
| QuestRegistry.GetQuestById | services/questRegistry.ts:7-9 | none iff no story quest has the id; otherwise a story quest with that id |
| QuestRegistry.QuestsByFaction | services/questRegistry.ts:12 | exactly the listed quests of that faction, no more than the list |
| QuestRegistry.GetQuestsByFaction | services/questRegistry.ts:11-13 | exactly the story quests of that faction |
| QuestRegistry.AvailableAmong | services/questRegistry.ts:16-25 | exactly the listed quests that are open and whose prerequisites are all completed |
| QuestRegistry.GetAvailableQuests | services/questRegistry.ts:15-26 | exactly the story quests that are open and whose prerequisites are all completed |
| QuestRegistry.AvailabilityMonotone | services/questRegistry.ts:15-26 | completing more quests never makes a quest unavailable |
| QuestRegistry.OpeningQuests | services/questRegistry.ts:15-26 | with nothing completed, exactly the story quests without prerequisites are open |
| QuestRegistry.ResourcesForDepth | services/questRegistry.ts:42-53 | clay and stone first, then two more resources past each of 500, 5000 and 20000 m |
| QuestRegistry.PoolGrowsWithDepth | services/questRegistry.ts:47-53 | a deeper pool extends a shallower one |
| QuestRegistry.Pick | services/questRegistry.ts:61-64 | a draw in [0, 1) picks an index inside a list of n |
| QuestRegistry.RewardAfter | services/questRegistry.ts:67-70 | the reward resource after the redraws is the first pick or a pool resource |
| QuestRegistry.RewardDiffers | services/questRegistry.ts:67-70 | with a pool of two or more, once some later draw names another resource the reward differs from the target |
| QuestRegistry.BuildQuest | services/questRegistry.ts:73-167 | an open `rnd_` contract of the issuer with one not-started objective on the target and one reward: experience of five times the amount for SCIENCE, else the reward resource or ancient tech; REBELS pay the reward resource when it differs from the target |
| QuestRegistry.GeneratedQuest | services/questRegistry.ts:58-168 | a generated contract comes from one of the three issuers and is fresh: open, one not-started objective on a resource of the depth's pool, one reward |
| QuestRegistry.DrawReward | services/questRegistry.ts:67-70 | the redraw loop ends on the reward the redraw rule names |
| QuestRegistry.GenerateQuest | services/questRegistry.ts:58-168 | the generated contract for these draws |
| QuestRegistry.GeneratedBatch | services/questRegistry.ts:170-176 | three contracts, one per draw set in order; each is fresh (available, one objective on a resource of the depth's pool, nothing collected, one reward) and issued by CORPORATE, SCIENCE or REBELS |
| QuestRegistry.GenerateQuestBatch | services/questRegistry.ts:170-176 | the three contracts generated for the three draw sets |
| GameTypes.AddArtifact | store/slices/eventSlice.ts:33-35 | the new artifact is filed under its instance id, unidentified and unequipped, and every other item is kept |
| GameTypes.FindBase | store/slices/baseSlice.ts:23 | none iff no base matches; otherwise the first matching base |
| GameTypes.FirstUncovered | store/slices/baseSlice.ts:48-58 | the index of the first entry the stock does not cover: every earlier one is covered and this one is short |
| GameTypes.FirstUncoveredAt | store/slices/baseSlice.ts:48-58 | the first short entry is the only index with that property |
| GameTypes.Debit | store/slices/baseSlice.ts:61-64 | each resource drops by exactly the total listed for it |
| GameTypes.PayEntries | store/slices/baseSlice.ts:62-64 | the payment loop computes exactly the debit |
| GameTypes.EntriesCovered | constants/craftingRecipes.ts:56-61 | the check loop answers true iff every listed amount is held |
| FuelRecipes.CatalogueWellFormed | constants/fuelRecipes.ts:14-39 | recipe ids are distinct and every input and output amount is positive |
| FuelRecipes.GetRecipeById | constants/fuelRecipes.ts:44-46 | none iff no recipe has the id; otherwise a catalogue recipe with that id |
| FuelRecipes.CanCraftRecipe | constants/fuelRecipes.ts:51-64 | true iff a required facility is present and the input resource (0 when missing) covers the input amount |
| FuelRecipes.CraftableStaysCraftable | constants/fuelRecipes.ts:51-64 | more of the input and more facilities never make a recipe uncraftable |
| FuelRecipes.EveryRecipeNeedsARefinery | constants/fuelRecipes.ts:14-39 | no catalogue recipe can run without a facility |
| CraftingRecipes.CatalogueWellFormed | constants/craftingRecipes.ts:6-50 | recipe ids are distinct; each makes one unit from a non-empty list of positive amounts |
| CraftingRecipes.GetCraftingRecipeById | constants/craftingRecipes.ts:52-54 | none iff no recipe has the id; otherwise a catalogue recipe with that id |
| CraftingRecipes.CanCraftRecipe | constants/craftingRecipes.ts:56-61 | true iff every input amount is held, a missing resource counting as 0 |
| CraftingRecipes.FacilityIgnored | constants/craftingRecipes.ts:56-61 | two recipes with the same inputs are craftable alike: the facility is not consulted |
| CraftingRecipes.RepairKitNeeds | constants/craftingRecipes.ts:6-61 | a repair kit can be made iff 50 iron and 100 scrap are held |
| Monsters.BossTypeKey | types.ts:299-304 | each kind's string value is a non-empty upper-case word |
| Monsters.Lower | constants/monsters.ts:143 | lower-casing keeps the length and lowers each letter |
| Monsters.CodexWith | constants/monsters.ts:14-124 | the codex has ten entries |
| Monsters.CodexWellFormed | constants/monsters.ts:14-124 | distinct ids and English names; every entry has a kind, basic entries tier 1 and advanced ones tier 2 |
| Monsters.ByType | constants/monsters.ts:127-129 | exactly the entries of the kind, in codex order, never more than the codex |
| Monsters.GetMonstersByType | constants/monsters.ts:127-129 | exactly the codex entries of the kind |
| Monsters.MonstersByTypeListed | constants/monsters.ts:127-129 | each kind lists exactly its basic entry and then its advanced one |
| Monsters.PairSelected | constants/monsters.ts:128 | a codex whose only entries of a kind are one adjacent pair lists exactly that pair |
| Monsters.ByTypeAppend | constants/monsters.ts:128 | filtering distributes over concatenation |
| Monsters.FindIndex | constants/monsters.ts:134-139 | the first entry of the kind carrying the name, or the end when none does |
| Monsters.FallbackAsWritten | constants/monsters.ts:142-144 | the lower-cased kind followed by `_basic` |
| Monsters.GetBossCodexIdAsWritten | constants/monsters.ts:132-147 | the first entry of the kind with that name when one exists; otherwise the fallback, which fails exactly for the undefined void kind |
| Monsters.DeclaredFallbacks | constants/monsters.ts:142-144 | the fallbacks are worm_basic, core_basic, construct_basic and swarm_basic, and void_sentinel_basic for the void kind |
| Monsters.VoidIdsHaveNoKind | constants/monsters.ts:104-123 | as written, the void entries carry no kind |
| Monsters.VoidEntriesUnreachableAsWritten | constants/monsters.ts:104-147 | as written, no declared kind is logged under or lists a void entry |
| Monsters.VoidSentinelAsWormAsWritten | constants/monsters.ts:132-147 | as written, the Void Sentinel reported as a WORM is logged as worm_basic |
| Monsters.VoidFallbackMissing | constants/monsters.ts:142-144 | the fallback for the void kind names no codex entry |
| Monsters.BasicId | constants/monsters.ts:142-144 | the id of the kind's tier-1 entry, equal to the written fallback for every declared kind |
| Monsters.GetBossCodexId | constants/monsters.ts:132-147 | the entry of the kind carrying the name, else the kind's basic entry; always an existing entry of the boss's own kind |
| Monsters.NamesIdentify | constants/monsters.ts:134-139 | within one kind, a name picks out a single entry |
| Monsters.EveryEntryReachable | constants/monsters.ts:132-147 | every entry is reached by its own English or Russian name and kind |
| Monsters.CorrectionAgreesOnDeclaredKinds | constants/monsters.ts:132-147 | the corrected lookup gives the written result for every declared kind |
| Monsters.FindIndexIgnoresVoidKind | constants/monsters.ts:134-139 | for a declared kind, the written and the corrected codex answer every lookup alike |
| Responsive.Width | services/hooks/useResponsive.ts:10-16 | every breakpoint is at least 320 pixels wide |
| Responsive.IndexOf | services/hooks/useResponsive.ts:176-177 | the position of the breakpoint in the order |
| Responsive.BreakpointsIncreasing | services/hooks/useResponsive.ts:10-16 | the order lists every breakpoint, by strictly increasing width |
| Responsive.Nearest | services/hooks/useResponsive.ts:172-188 | nothing iff no breakpoint at or below has a value; otherwise the value of the widest such breakpoint |
| Responsive.GetResponsiveValue | services/hooks/useResponsive.ts:172-188 | the downward loop returns exactly that nearest value |
| Responsive.ExactHit | services/hooks/useResponsive.ts:180-185 | a value given for the current breakpoint is the one used |
| Responsive.NeverAbove | services/hooks/useResponsive.ts:172-188 | a value found comes from the widest breakpoint with a value that is no wider than the current one |
| Responsive.NothingBelow | services/hooks/useResponsive.ts:187 | nothing is found iff every breakpoint with a value is wider than the current one |
| GameTypes.Credit | store/slices/citySlice.ts:125 | the resource grows by the amount (from 0 when missing) and every other resource is kept |

## Left out

- **Not modelled:**
  - Audio (`audioEngine`), `console` output, the React components and hooks, canvas rendering, and the mobile shell.
  - Titles, descriptions, icons and log message texts. A log entry is a tag string, plus an amount where the text carries one.
- **Modelled as parameters or inputs:**
  - `Math.random()` and `Date.now()`, which are parameters. Where the source redraws in a loop, the draws are a finite list.
  - `calculateStats`, `calculateRepairCost` and `rollArtifact`, whose results are inputs.
  - `recalculateCargoWeight` and `calculateCargoWeight`, which are passed in as a function.
  - `calculateMarketPrice` and `calculateSellRevenue`, whose quoted prices are inputs.
  - The base cost, build time, capacity and workshop range tables, whose entries for the chosen base are inputs. Those modules are not part of this model.
- `store/slices/types.ts` is not part of this model, so `pushLog` is modelled as appending one entry to the action log.
- **Numbers:** JavaScript numbers are exact reals. Rounding error and NaN are not modelled. Where the source does arithmetic on a missing resource key (`x += v` gives NaN), the model reads the key as 0. `Infinity` appears only as `factorial`'s result above 170.
- **Transcendental functions:** the model keeps only the guards of `poissonProbability`, `poissonEventChance` and `exponentialDecay`. `Math.exp` is passed in as a function where a bound needs it.
- `normalDistribution` is not modelled. The normal sample of an instant resource is a parameter, and the model proves the clamp for every sample.
- `calculateEventProbability` is not modelled. The event tick takes the event's probability as a parameter.
- `CARAVAN_DELAY`'s `delayMinutes`, drawn once with `Math.log(Math.random())` when the module loads, is not modelled.
- RegionMath.CalculateDistance: `Math.round(Math.sqrt(n))` is characterized by `RoundSqrt`, the unique k with k² − k < n ≤ k² + k, which is exact for the whole-number coordinates of the region table.
- QuestRegistry.RewardAfter: the source redraws the reward until it differs from the target. The model redraws over a finite list of draws and keeps the last pick if the list runs out. `RewardDiffers` states the guarantee for a list that contains a differing draw.
- QuestRegistry.BuildQuest: the SCIENCE issuer's two branches are identical apart from their texts, so the branch draw has no effect and is not modelled.
- CitySlice.CityStore.RefreshQuests: the three contracts `generateQuestBatch` returns are an input. `RefreshedBoardIsFresh` and `QuestRegistry.GeneratedBatch` connect them to the generator.
- CitySlice.CompleteOutcome: the log lines that `addReputation` appends while rewards are paid are overwritten by the final write, which starts from the log as it was before. The model reproduces this.
- CitySlice.LegacyFactionKey: a contract without an issuer sends the legacy bonus to the key "undefined", as the JavaScript property lookup does.
- EventSystem.EventTick: an instant resource is logged but not credited to the resources, as in the source.
- **Assumed string values:** `types.ts` does not declare the resource keys `scrap`, `ice`, `credits`, `repairKit`, `coolantPaste` and `advancedCoolant`. Nor does it declare the string values of the tunnel action ids. The model uses the names the code reads.
- Monsters.GetBossCodexIdAsWritten: the source compares a codex name that is a plain string directly with the boss name. Every codex entry has an RU/EN name object, so only that branch is modelled. When the fallback is reached for the undefined `VOID_SENTINEL` kind, `toLowerCase` throws. That is modelled as a `None` result.
- FuelRecipes.CanCraftRecipe: `requiredFacility` is optional. An empty facility id counts as none, as the source's truthiness test does.
- BaseSlice.NewBase: the base literal of `buildBase` (store/slices/baseSlice.ts:71-92) sets no `facilities`, so the field is undefined on every base built. The model keeps that as `None`. Once such a base is the region's active base, the analyzer's lab lookup throws a TypeError (`BuiltBaseBreaksLabLookup`, `CompletedBaseBreaksLabLookup`). The model shows it as an `Err` result of `AnalyzerSystem.ProcessAnalyzer`; what the game loop does with the exception is not part of this model. No modelled action fills `facilities`.

## Findings

| source | as written | input that shows it | evidently intended | confidence | as-written member | corrected member |
|---|---|---|---|---|---|---|
| constants/monsters.ts:107 | The two void entries are typed `BossType.VOID_SENTINEL`, but the `BossType` enum (types.ts:299-304) declares only WORM, CORE, CONSTRUCT and SWARM. Their type is therefore `undefined`: no boss type lists them and no boss is ever logged under them. | `getBossCodexId("Void Sentinel", BossType.WORM)` returns "worm_basic"; `getMonstersByType(t)` never lists void_basic or void_advanced for any declared t | a `VOID_SENTINEL` member of `BossType`, so that the void entries belong to their own kind | high; not executed | Monsters.VoidEntriesUnreachableAsWritten | Monsters.EveryEntryReachable |
| constants/monsters.ts:142-144 | The fallback id is the lower-cased enum value plus `_basic`. For the void kind this gives "void_sentinel_basic", which is no codex id. (As written, the undefined value instead makes `toLowerCase` throw.) | `getBossCodexId("Unknown boss", VOID_SENTINEL)` once the enum member exists | the kind's tier-1 entry, "void_basic" | medium; not executed | Monsters.VoidFallbackMissing | Monsters.GetBossCodexId |
