// The energy shield: charging while drilling, discharging while shielding
// and a passive leak (services/systems/ShieldSystem.ts).

module ShieldSystem {
  import opened GameTypes

  datatype ShieldState = ShieldState(shieldCharge: real, isDrilling: bool, isOverheated: bool, isCoolingGameActive: bool)

  datatype ShieldUpdate = ShieldUpdate(shieldCharge: real, isShielding: bool)

  /**
   * `processShield`: +5/s while drilling and not overheated; −20/s while
   * idle with charge, not overheated and no cooling game (shielding while
   * charge remains); otherwise a −1/s leak.
   */
  function ProcessShield(s: ShieldState, dt: real): (r: ShieldUpdate)
    ensures r.isShielding ==> !s.isDrilling && !s.isOverheated && !s.isCoolingGameActive && r.shieldCharge > 0.0
    ensures s.isDrilling && !s.isOverheated ==> !r.isShielding && r.shieldCharge == Min(100.0, s.shieldCharge + 5.0 * dt)
    ensures !s.isDrilling && !s.isOverheated && s.shieldCharge > 0.0 && !s.isCoolingGameActive ==>
              r.shieldCharge == Max(0.0, s.shieldCharge - 20.0 * dt) && (r.isShielding <==> r.shieldCharge > 0.0)
    ensures s.isOverheated || (!s.isDrilling && (s.shieldCharge <= 0.0 || s.isCoolingGameActive)) ==>
              !r.isShielding && r.shieldCharge == Max(0.0, s.shieldCharge - dt)
  {
    if s.isDrilling && !s.isOverheated then
      ShieldUpdate(Min(100.0, s.shieldCharge + 5.0 * dt), false)
    else if !s.isDrilling && !s.isOverheated && s.shieldCharge > 0.0 && !s.isCoolingGameActive then
      var charge := Max(0.0, s.shieldCharge - 20.0 * dt);
      ShieldUpdate(charge, charge > 0.0)
    else
      ShieldUpdate(Max(0.0, s.shieldCharge - 1.0 * dt), false)
  }

  /** The charge stays in [0, 100] for a non-negative time step. */
  lemma ChargeStaysInRange(s: ShieldState, dt: real)
    requires 0.0 <= s.shieldCharge <= 100.0 && dt >= 0.0
    ensures 0.0 <= ProcessShield(s, dt).shieldCharge <= 100.0
  {
  }

  /** Only drilling charges the shield; every other branch drains it. */
  lemma OnlyDrillingCharges(s: ShieldState, dt: real)
    requires dt >= 0.0 && s.shieldCharge >= 0.0
    ensures ProcessShield(s, dt).shieldCharge > s.shieldCharge ==> s.isDrilling && !s.isOverheated
  {
  }
}
