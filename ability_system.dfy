// Combat abilities: their definitions, cooldowns, active durations and the
// activation queue (services/systems/AbilitySystem.ts).

module AbilitySystem {

  datatype AbilityType = EmpBurst | ThermalStrike | Barrier | Overload

  /** An ability definition (names, descriptions and icons are not modelled). */
  datatype AbilityDef = AbilityDef(id: AbilityType, cooldownMs: real, energyCost: real, heatCost: real, unlockLevel: nat)

  /** `ABILITIES`. */
  function Abilities(id: AbilityType): (d: AbilityDef)
    ensures d.id == id && d.cooldownMs > 0.0 && d.energyCost == 0.0
  {
    match id
    case EmpBurst => AbilityDef(EmpBurst, 15000.0, 0.0, 20.0, 5)
    case ThermalStrike => AbilityDef(ThermalStrike, 8000.0, 0.0, -25.0, 2)
    case Barrier => AbilityDef(Barrier, 20000.0, 0.0, 10.0, 10)
    case Overload => AbilityDef(Overload, 30000.0, 0.0, 5.0, 15)
  }

  /** The abilities in the order the state record lists them. */
  const AllAbilities: seq<AbilityType> := [EmpBurst, ThermalStrike, Barrier, Overload]

  /** Position of an ability in AllAbilities. */
  function AbilityIndex(a: AbilityType): (i: nat)
    ensures i < |AllAbilities| && AllAbilities[i] == a
  {
    match a
    case EmpBurst => 0
    case ThermalStrike => 1
    case Barrier => 2
    case Overload => 3
  }

  /** One ability's live state. */
  datatype AbilityState = AbilityState(id: AbilityType, cooldownRemaining: real, isActive: bool, durationRemaining: real)

  /** Cooldown and duration are never negative, and an inactive ability has no duration left. */
  predicate WellFormed(st: AbilityState)
  {
    st.cooldownRemaining >= 0.0 && st.durationRemaining >= 0.0 && (!st.isActive ==> st.durationRemaining == 0.0)
  }

  /** One `update` step of a state: cooldown down by 1000·dt (floored at 0); duration down, expiring at 0. */
  function Tick(st: AbilityState, dt: real): (r: AbilityState)
    ensures r.id == st.id
    ensures WellFormed(st) && dt >= 0.0 ==> WellFormed(r)
    ensures st.cooldownRemaining > 0.0 ==> r.cooldownRemaining == Max0(st.cooldownRemaining - dt * 1000.0)
    ensures st.cooldownRemaining <= 0.0 ==> r.cooldownRemaining == st.cooldownRemaining
    ensures !st.isActive ==> r.isActive == st.isActive && r.durationRemaining == st.durationRemaining
    ensures st.isActive ==> (r.isActive <==> st.durationRemaining - dt * 1000.0 > 0.0)
  {
    var cooled := if st.cooldownRemaining > 0.0 then st.(cooldownRemaining := Max0(st.cooldownRemaining - dt * 1000.0)) else st;
    if cooled.isActive then
      var left := cooled.durationRemaining - dt * 1000.0;
      if left <= 0.0 then cooled.(isActive := false, durationRemaining := 0.0)
      else cooled.(durationRemaining := left)
    else cooled
  }

  function Max0(x: real): real { if x >= 0.0 then x else 0.0 }

  /** `reduceCooldowns` on one state: a positive cooldown drops by `amount`, floored at 0. */
  function Reduce(st: AbilityState, amount: real): (r: AbilityState)
    ensures r == st.(cooldownRemaining := r.cooldownRemaining)
    ensures st.cooldownRemaining > 0.0 ==> r.cooldownRemaining == Max0(st.cooldownRemaining - amount)
    ensures st.cooldownRemaining <= 0.0 ==> r == st
    ensures WellFormed(st) ==> WellFormed(r)
  {
    if st.cooldownRemaining > 0.0 then st.(cooldownRemaining := Max0(st.cooldownRemaining - amount)) else st
  }

  /** Whether an ability may fire: off cooldown, not active, and a positive heat cost keeps heat below 100. */
  function CanActivateState(st: AbilityState, currentHeat: real): (ok: bool)
    ensures ok ==> st.cooldownRemaining <= 0.0 && !st.isActive
    ensures ok ==> Abilities(st.id).heatCost <= 0.0 || currentHeat + Abilities(st.id).heatCost < 100.0
    ensures st.cooldownRemaining <= 0.0 && !st.isActive && Abilities(st.id).heatCost <= 0.0 ==> ok
  {
    var def := Abilities(st.id);
    if st.cooldownRemaining > 0.0 then false
    else if st.isActive then false
    else if def.heatCost > 0.0 && currentHeat + def.heatCost >= 100.0 then false
    else true
  }

  /** THERMAL_STRIKE cools rather than heats, so heat never blocks it. */
  lemma ThermalStrikeNeverHeatBlocked(st: AbilityState, heat1: real, heat2: real)
    requires st.id == ThermalStrike
    ensures CanActivateState(st, heat1) == CanActivateState(st, heat2)
  {
  }

  /** `activate` on one state: full cooldown; BARRIER and OVERLOAD become active for 4 s and 6 s. */
  function Activated(st: AbilityState): (r: AbilityState)
    ensures r.id == st.id && r.cooldownRemaining == Abilities(st.id).cooldownMs
    ensures st.id == Barrier ==> r.isActive && r.durationRemaining == 4000.0
    ensures st.id == Overload ==> r.isActive && r.durationRemaining == 6000.0
    ensures st.id in {EmpBurst, ThermalStrike} ==> r.isActive == st.isActive && r.durationRemaining == st.durationRemaining
    ensures WellFormed(st) ==> WellFormed(r)
  {
    var cooled := st.(cooldownRemaining := Abilities(st.id).cooldownMs);
    if st.id == Barrier then cooled.(isActive := true, durationRemaining := 4000.0)
    else if st.id == Overload then cooled.(isActive := true, durationRemaining := 6000.0)
    else cooled
  }

  /** An activated ability cannot fire again until its cooldown has fully run down. */
  lemma NoImmediateReactivation(st: AbilityState, heat: real)
    ensures !CanActivateState(Activated(st), heat)
  {
  }

  /** Enough time after activation, an ability is ready again (heat permitting). */
  lemma ReadyAfterCooldown(st: AbilityState, dt: real)
    requires WellFormed(st) && dt * 1000.0 >= Abilities(st.id).cooldownMs && dt * 1000.0 >= 6000.0
    requires dt * 1000.0 >= st.durationRemaining
    ensures var r := Tick(Activated(st), dt);
            r.cooldownRemaining == 0.0 && !r.isActive
  {
  }

  /** The combat ability tracker. */
  class AbilityTracker {
    var states: map<AbilityType, AbilityState>
    var activationQueue: seq<AbilityType>

    /** Every ability has a well-formed state filed under its own id. */
    ghost predicate Valid()
      reads this
    {
      (forall a :: a in states) && (forall a :: WellFormed(states[a]) && states[a].id == a)
    }

    /** Four fresh states: no cooldown, inactive, no duration; an empty queue. */
    constructor()
      ensures Valid()
      ensures forall a :: states[a] == AbilityState(a, 0.0, false, 0.0)
      ensures activationQueue == []
    {
      states := map[EmpBurst := CreateState(EmpBurst), ThermalStrike := CreateState(ThermalStrike),
                    Barrier := CreateState(Barrier), Overload := CreateState(Overload)];
      activationQueue := [];
      new;
      assert forall a :: a in states by {
        forall a ensures a in states {
          assert a == EmpBurst || a == ThermalStrike || a == Barrier || a == Overload;
        }
      }
    }

    static function CreateState(id: AbilityType): (st: AbilityState)
      ensures WellFormed(st) && st.id == id
    {
      AbilityState(id, 0.0, false, 0.0)
    }

    function GetAbilityDef(id: AbilityType): (d: AbilityDef)
      ensures d.id == id
    {
      Abilities(id)
    }

    function GetState(id: AbilityType): (st: AbilityState)
      reads this
      requires Valid()
      ensures st.id == id && WellFormed(st)
    {
      states[id]
    }

    /** The states in record order. */
    function GetAllStates(): (all: seq<AbilityState>)
      reads this
      requires Valid()
      ensures |all| == 4 && forall i :: 0 <= i < 4 ==> all[i] == states[AllAbilities[i]] && all[i].id == AllAbilities[i]
    {
      [states[EmpBurst], states[ThermalStrike], states[Barrier], states[Overload]]
    }

    function CanActivate(id: AbilityType, currentHeat: real): (ok: bool)
      reads this
      requires Valid()
      ensures ok == CanActivateState(states[id], currentHeat)
    {
      var state := states[id];
      var def := Abilities(id);
      if state.cooldownRemaining > 0.0 then false
      else if state.isActive then false
      else if def.heatCost > 0.0 && currentHeat + def.heatCost >= 100.0 then false
      else true
    }

    /** Activates an ability (without checking `CanActivate`) and queues its id. */
    method Activate(id: AbilityType)
      requires Valid()
      modifies this
      ensures Valid()
      ensures states == old(states)[id := Activated(old(states)[id])]
      ensures activationQueue == old(activationQueue) + [id]
    {
      var state := states[id];
      var def := Abilities(id);
      state := state.(cooldownRemaining := def.cooldownMs);
      if id == Barrier {
        state := state.(isActive := true, durationRemaining := 4000.0);
      } else if id == Overload {
        state := state.(isActive := true, durationRemaining := 6000.0);
      }
      states := states[id := state];
      activationQueue := activationQueue + [id];
    }

    /** Advances every state by `dt` seconds. */
    method Update(dt: real)
      requires Valid() && dt >= 0.0
      modifies this
      ensures Valid()
      ensures forall a :: states[a] == Tick(old(states)[a], dt)
      ensures activationQueue == old(activationQueue)
    {
      var keys := AllAbilities;
      var i := 0;
      while i < |keys|
        invariant 0 <= i <= |keys|
        invariant states.Keys == old(states).Keys
        invariant forall j :: 0 <= j < i ==> states[keys[j]] == Tick(old(states)[keys[j]], dt)
        invariant forall j :: i <= j < |keys| ==> states[keys[j]] == old(states)[keys[j]]
        invariant activationQueue == old(activationQueue)
      {
        var key := keys[i];
        var state := states[key];
        if state.cooldownRemaining > 0.0 {
          state := state.(cooldownRemaining := Max0(state.cooldownRemaining - dt * 1000.0));
        }
        if state.isActive {
          state := state.(durationRemaining := state.durationRemaining - dt * 1000.0);
          if state.durationRemaining <= 0.0 {
            state := state.(isActive := false, durationRemaining := 0.0);
          }
        }
        assert state == Tick(old(states)[key], dt);
        states := states[key := state];
        i := i + 1;
      }
      forall a ensures states[a] == Tick(old(states)[a], dt) {
        assert a == keys[AbilityIndex(a)];
      }
    }

    /** Takes `amountMs` off every running cooldown. */
    method ReduceCooldowns(amountMs: real)
      requires Valid()
      modifies this
      ensures Valid()
      ensures forall a :: states[a] == Reduce(old(states)[a], amountMs)
      ensures activationQueue == old(activationQueue)
    {
      var keys := AllAbilities;
      var i := 0;
      while i < |keys|
        invariant 0 <= i <= |keys|
        invariant states.Keys == old(states).Keys
        invariant forall j :: 0 <= j < i ==> states[keys[j]] == Reduce(old(states)[keys[j]], amountMs)
        invariant forall j :: i <= j < |keys| ==> states[keys[j]] == old(states)[keys[j]]
        invariant activationQueue == old(activationQueue)
      {
        var key := keys[i];
        var state := states[key];
        if state.cooldownRemaining > 0.0 {
          state := state.(cooldownRemaining := Max0(state.cooldownRemaining - amountMs));
        }
        assert state == Reduce(old(states)[key], amountMs);
        states := states[key := state];
        i := i + 1;
      }
      forall a ensures states[a] == Reduce(old(states)[a], amountMs) {
        assert a == keys[AbilityIndex(a)];
      }
    }

    /** Hands out the queued activations in order and empties the queue. */
    method ConsumeActivationEvents() returns (events: seq<AbilityType>)
      modifies this
      ensures events == old(activationQueue) && activationQueue == []
      ensures states == old(states)
    {
      events := activationQueue;
      activationQueue := [];
    }
  }
}
