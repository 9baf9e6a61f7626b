/**
 * The weapon actor (ARMLWeapon), an item with ammunition and a falling
 * phase after it is thrown. The engine class derives from the item; here a
 * weapon owns its item part, `item`, and changes the inherited state through
 * it. The throw timer is replaced by an explicit call to StopFalling.
 */
module Weapons {
  import opened Items

  /** EWeaponType, in declaration order. */
  datatype WeaponType = SubmachineGun | AssaultRifle | WeaponTypeMax

  /** EAmmoType is declared outside this model; a weapon only carries its tag. */
  datatype AmmoType = AmmoType(tag: nat)

  /** Delay of the throw timer that ends the falling phase. */
  const ThrowWeaponTime: real := 0.7

  /** Ammo after one DecrementAmmo: one less, but never below zero. */
  function AmmoAfterDecrement(ammo: Int32): (r: Int32)
    ensures r >= 0
    ensures ammo > 0 ==> r == ammo - 1
    ensures ammo <= 0 ==> r == 0
  {
    if ammo - 1 > 0 then ammo - 1 else 0
  }

  /** Ammo after `shots` successive DecrementAmmo calls. */
  function AmmoAfterDecrements(ammo: Int32, shots: nat): Int32
    decreases shots
  {
    if shots == 0 then ammo else AmmoAfterDecrements(AmmoAfterDecrement(ammo), shots - 1)
  }

  /**
   * From a non-negative count, `shots` decrements remove exactly `shots`
   * rounds while any remain and then stay at zero.
   */
  lemma {:induction false} DecrementsSaturate(ammo: Int32, shots: nat)
    requires ammo >= 0
    ensures AmmoAfterDecrements(ammo, shots) == if shots <= ammo then ammo - shots else 0
  {
    if shots > 0 {
      DecrementsSaturate(AmmoAfterDecrement(ammo), shots - 1);
    }
  }

  /** At zero, DecrementAmmo is idempotent: any number of further calls leave zero. */
  lemma {:induction false} DecrementIdempotentAtZero(shots: nat)
    ensures AmmoAfterDecrements(0, shots) == 0
  {
    DecrementsSaturate(0, shots);
  }

  /** Tick's guard: the upright correction runs only while Falling and falling. */
  predicate UprightCorrectionApplies(state: ItemState, falling: bool)
  {
    state == Falling && falling
  }

  class Weapon {
    const item: Item
    var throwWeaponTime: real
    var falling: bool
    var ammo: Int32
    var magazineCapacity: Int32
    var weaponType: WeaponType
    var ammoType: AmmoType

    /**
     * The constructor's defaults on top of the item's. Capacity, weapon type
     * and ammo type have no initialiser and start from zero-filled memory.
     */
    constructor ()
      ensures item.Valid() && fresh(item)
      ensures ammo == 0 && !falling && throwWeaponTime == ThrowWeaponTime
      ensures magazineCapacity == 0 && weaponType == SubmachineGun && ammoType == AmmoType(0)
      ensures item.itemState == Pickup && !item.interping && item.itemCount == 0
    {
      item := new Item();
      throwWeaponTime := ThrowWeaponTime;
      falling := false;
      ammo := 0;
      magazineCapacity := 0;
      weaponType := SubmachineGun;
      ammoType := AmmoType(0);
    }

    /** DecrementAmmo: one round fewer, floored at zero; nothing else changes. */
    method DecrementAmmo()
      modifies this`ammo
      ensures ammo == AmmoAfterDecrement(old(ammo))
      ensures magazineCapacity == old(magazineCapacity) && ammoType == old(ammoType)
      ensures weaponType == old(weaponType) && item.itemState == old(item.itemState)
    {
      ammo := if ammo - 1 > 0 then ammo - 1 else 0;
    }

    /**
     * ThrowWeapon: straighten the mesh to its yaw and enter the falling
     * phase. The impulse is physics. `timerDelay` is the delay the throw
     * timer is armed with; the caller invokes StopFalling when it would
     * fire. The item state is not changed here.
     */
    method ThrowWeapon() returns (timerDelay: real)
      modifies this`falling, item`rotation
      ensures falling && timerDelay == throwWeaponTime
      ensures item.rotation == Upright(old(item.rotation))
      ensures item.itemState == old(item.itemState)
    {
      item.rotation := Upright(item.rotation);
      falling := true;
      timerDelay := throwWeaponTime;
    }

    /** StopFalling, the throw timer's callback: land and become a pickup again. */
    method StopFalling()
      modifies this`falling, item`itemState
      ensures !falling && item.itemState == Pickup
    {
      falling := false;
      item.SetItemState(Pickup);
    }

    /**
     * Tick: the item's interpolation step, then, only while the item is
     * Falling and the weapon is falling, the mesh is straightened to its yaw.
     */
    method Tick(cameraYaw: real, scaleSample: real)
      modifies item`rotation, item`scale
      ensures item.scale == old(item.InterpScale(scaleSample))
      ensures item.rotation ==
        if UprightCorrectionApplies(item.itemState, falling)
        then Upright(old(item.InterpRotation(cameraYaw)))
        else old(item.InterpRotation(cameraYaw))
    {
      item.Tick(cameraYaw, scaleSample);
      if item.itemState == Falling && falling {
        item.rotation := Upright(item.rotation);
      }
    }
  }
}
