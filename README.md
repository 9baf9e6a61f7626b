# Item and weapon lifecycle of the RML shooter module

This project models the engine-independent bookkeeping of the shooter's
pickup items and weapons, and proves properties about it in Dafny.

- **Items** (`item.dfy`) covers the item actor `ARMLItem`:
  - the rarity-star array `ActiveStars` that `InitActiveStars` builds;
  - the lifecycle state `EItemState` and `SetItemState`;
  - the equip interpolation session, from `StartItemCurve` through
    `ItemInterp` to the timer callback `HandleFinishInterping`;
  - the overlap callbacks, which forward +1 or -1 to a shooter character.
- **Weapons** (`weapon.dfy`) covers the weapon actor `ARMLWeapon`:
  - the constructor defaults;
  - the saturating `DecrementAmmo`;
  - the falling phase (`ThrowWeapon`, `StopFalling`);
  - the guard on the upright-rotation correction in `Tick`.

Both actors are classes whose methods update their fields in place. The
engine class `ARMLWeapon` derives from `ARMLItem`. Here a `Weapon` owns its
item part as the field `item` and changes the inherited state through it.

Engine timers become explicit calls. `StartItemCurve` and `ThrowWeapon`
return the delay they arm their timer with. The caller then invokes the
callback (`HandleFinishInterping` or `StopFalling`) where the timer would
fire. `RMLShooterCharacter.h` declares the character methods `GetPickupItem`
and `IncrementOverlappedItemCount`, but `RMLShooterCharacter.cpp` does not
define them. So the model
returns each call as a value: which character is called, and with what
amount. It does not model what the call does.

Designer-editable properties are plain fields that a caller may assign after
construction, as the engine does before `BeginPlay`. These are the item name,
the item count, the rarity, the curve assets, the ammo, the magazine capacity
and the weapon and ammo types. So a weapon's starting ammo is normally set by
a designer; 0 is only the constructor's default. The constructors ensure the
C++ constructor defaults. `Item`'s constructor also ensures the identity
rotation and unit scale; these are the spawn transform the engine gives the
actor, not values `ARMLItem()` sets. `MagazineCapacity`,
`WeaponType` and `AmmoType` have no initialiser in the constructor, so they
start from the engine's zero-filled object memory (0, the first enumerator,
tag 0). `EAmmoType` is declared in `AmmoType.h`, which is not part of this
model; a weapon carries only an opaque tag for it.

## Model

| member | source | states |
|---|---|---|
| `Items.StarCount` | Source/RMLTheShooter/RMLItem.cpp:90-113 | the rarity switch lights between 1 and 5 stars, always fewer than the 6 slots: the enum position plus one, and 5 for `EIR_MAX` (1, 2, 3, 4, 5, 5) |
| `Items.StarCountMonotone` | Source/RMLTheShooter/RMLItem.cpp:90-113 | a later rarity in the enumeration never shows fewer stars |
| `Items.StarsAfterInit` | Source/RMLTheShooter/RMLItem.cpp:83-119 | `InitActiveStars` appends six entries to the array |
| `Items.StarsFromEmpty` | Source/RMLTheShooter/RMLItem.cpp:83-119 | from an empty array: exactly 6 entries, entry 0 unlit, entry i lit exactly when 1 <= i <= star count, and exactly star-count entries lit |
| `Items.StarsInitTwice` | Source/RMLTheShooter/RMLItem.cpp:85-88 | the operation appends rather than resets: a second call yields 12 entries, keeps the first six, adds six unlit ones, and the lit count is still the star count |
| `Items.Item.InitActiveStars` | Source/RMLTheShooter/RMLItem.cpp:83-119 | the array afterwards is the old array plus six unlit entries, with entries 1..star count lit; every index the second loop writes is in bounds |
| `Items.Item.BeginPlay` | Source/RMLTheShooter/RMLItem.cpp:44-61 | builds the star array once, as `InitActiveStars` does |
| `Items.Item.constructor` | Source/RMLTheShooter/RMLItem.cpp:12-23 | a new item is named "Not Set", has count 0 and rarity Common, is in `EIS_Pickup`, is not interpolating, has a 0.7 curve time, an empty star array, no owner and no yaw offset |
| `Items.Item.SetItemState` | Source/RMLTheShooter/RMLItem.cpp:260-264 | the item's state afterwards is the given state |
| `Items.Item.StartItemCurve` | Source/RMLTheShooter/RMLItem.cpp:266-286 | records the owning character, sets interpolating and `EIS_EquipInterping`, arms the timer with the curve time, and captures item yaw minus camera yaw as the offset; keeps "interpolating implies an owner" |
| `Items.Item.HandleFinishInterping` | Source/RMLTheShooter/RMLItem.cpp:197-206 | clears interpolating, resets scale to 1, and hands the item to the owner exactly when there is one; an item that was interpolating always has an owner to hand it to |
| `Items.Item.InterpRotation` | Source/RMLTheShooter/RMLItem.cpp:240-242 | during an active step the item is upright and its yaw exceeds the camera's yaw by the captured offset; otherwise the rotation is kept |
| `Items.Item.InterpScale` | Source/RMLTheShooter/RMLItem.cpp:244-248 | an active step with a scale curve sets the scale to the curve's sample; in every other case the scale is kept |
| `Items.Item.ItemInterp` | Source/RMLTheShooter/RMLItem.cpp:208-250 | changes nothing while not interpolating; otherwise rotation and scale follow `InterpRotation` and `InterpScale` |
| `Items.Item.Tick` | Source/RMLTheShooter/RMLItem.cpp:253-258 | one `ItemInterp` step per frame |
| `Items.PickupLifecycle` | Source/RMLTheShooter/RMLItem.cpp:197-286 | spawn, start the curve, one interpolation step and the timer callback: the item keeps its yaw relative to a turning camera, ends at unit scale, not interpolating, and is handed to the requesting character (the hand-over call is returned, not applied, so the state is still `EIS_EquipInterping`); as a default Common item it shows two stars |
| `Items.TryChangeOverlapAmount` | Source/RMLTheShooter/RMLItem.cpp:288-302 | answers true exactly when the actor is non-null and a shooter character; it forwards the amount to that character exactly then, and forwards nothing otherwise |
| `Items.OnAreaSphereBeginOverlap` | Source/RMLTheShooter/RMLItem.cpp:63-72 | forwards +1 to the overlapping actor exactly when it is a shooter character, and nothing otherwise |
| `Items.OnAreaSphereEndOverlap` | Source/RMLTheShooter/RMLItem.cpp:74-81 | forwards -1 to the overlapping actor exactly when it is a shooter character, and nothing otherwise |
| `Items.OverlapBeginEndCancel` | Source/RMLTheShooter/RMLItem.cpp:63-81 | begin and end overlap of the same actor both forward or both do not; when they do, they reach the same character and their amounts sum to zero |
| `Items.Upright` | Source/RMLTheShooter/RMLWeapon.cpp:28-29 | the straightened mesh rotation has zero pitch and roll and keeps the yaw |
| `Items.UprightFixesUpright` | Source/RMLTheShooter/RMLWeapon.cpp:19-23 | straightening leaves a rotation unchanged exactly when it is already upright, so repeating the correction every tick is harmless |
| `Weapons.Weapon.constructor` | Source/RMLTheShooter/RMLWeapon.cpp:6-12 | a new weapon has 0 ammo, is not falling, has a 0.7 throw time, and its item part is a fresh item in `EIS_Pickup` |
| `Weapons.AmmoAfterDecrement` | Source/RMLTheShooter/RMLWeapon.cpp:51-54 | the result is never negative; positive ammo drops by exactly one; zero or negative ammo becomes zero |
| `Weapons.DecrementsSaturate` | Source/RMLTheShooter/RMLWeapon.cpp:51-54 | k decrements from non-negative ammo a leave a - k while k <= a, and 0 after that |
| `Weapons.DecrementIdempotentAtZero` | Source/RMLTheShooter/RMLWeapon.cpp:51-54 | at zero, any number of further decrements leaves zero |
| `Weapons.Weapon.DecrementAmmo` | Source/RMLTheShooter/RMLWeapon.cpp:51-54 | the new ammo is the saturating decrement of the old ammo; capacity, ammo type, weapon type and item state are unchanged |
| `Weapons.Weapon.ThrowWeapon` | Source/RMLTheShooter/RMLWeapon.cpp:26-49 | sets falling, straightens the mesh to its yaw, arms the throw timer with the throw time, and leaves the item state alone |
| `Weapons.Weapon.StopFalling` | Source/RMLTheShooter/RMLWeapon.cpp:56-60 | clears falling and returns the item to `EIS_Pickup` |
| `Weapons.Weapon.Tick` | Source/RMLTheShooter/RMLWeapon.cpp:14-24 | runs the item's interpolation step, then straightens the mesh exactly when the item is `EIS_Falling` and the weapon is falling |

## Left out

- Item positions are not modelled. This covers the start location, the Z-curve height blend, the `FInterpTo` horizontal approach and `SetActorLocation` in `ItemInterp`, and the location capture in `StartItemCurve`. They are floating-point vector math over engine curve assets.
- Angles, scales and the timer delays are exact `real`s. The source's `0.7f` delays (`ZCurveTime`, `ThrowWeaponTime`) are single-precision values near, but not exactly, 0.7. Single-precision rounding and the engine's yaw normalisation are not modelled.
- `SetItemProperties` is not modelled. It only configures engine collision, physics and visibility per state, so `SetItemState` here only records the state.
- The engine side of `BeginPlay` is not modelled: hiding the pickup widget and binding the overlap delegates.
- Timer scheduling is not modelled. `SetTimer` is replaced by returning the delay, and `GetTimerElapsed` by the curve sample the caller passes to `ItemInterp`.
- The physics impulse and the random yaw range in `ThrowWeapon` are not modelled.
- The effects of `GetPickupItem` and `IncrementOverlappedItemCount` are not modelled, because `RMLShooterCharacter.cpp` does not define them. The model records only which character is called and with what amount.
- The combat state machine, firing, reloading, ammo transfer and the crosshair spread are not modelled. The character only declares them. `ReloadAmmo` and `ClipIsFull` are likewise declared without bodies in `RMLWeapon.h`.
- The animation instance, the player controller's HUD widgets and the character's camera and spring-arm construction are not modelled. They are engine plumbing.
- `InitActiveStars` has a `default` branch that leaves the star count uninitialised. Every enumerator of `EItemRarity` has its own case, so that branch cannot be reached, and the model's match has no such case.
- `Weapons.AmmoAfterDecrement`: `Ammo - 1` is computed on unbounded integers. At the int32 minimum, C++ signed overflow is undefined behaviour; the model instead yields 0 there.
- Items.Item.StartItemCurve: the character is never null in the model (`CharacterId` has no null value). The source accepts a null `CharacterToMove`: it stores it, sets interpolating and `EIS_EquipInterping` and arms the timer, then dereferences it to read the camera yaw and crashes. The model does not capture that crash. Its invariant "interpolating implies an owner" holds only because this case is excluded.
