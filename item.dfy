/**
 * The pickup item actor (ARMLItem): its rarity stars, its lifecycle state,
 * the equip interpolation session and the overlap notifications it sends to
 * a shooter character.
 *
 * Engine timers are replaced by explicit calls: StartItemCurve arms the
 * interpolation timer and the caller later invokes HandleFinishInterping,
 * which is the timer's callback. Calls the item makes into the character
 * (GetPickupItem, IncrementOverlappedItemCount) are declared in
 * RMLShooterCharacter.h but not defined in RMLShooterCharacter.cpp, so they
 * are returned as values describing the call.
 */
module Items {

  datatype Option<+T> = None | Some(value: T)

  /** A signed 32-bit integer (the engine's int32). */
  type Int32 = x: int | -0x8000_0000 <= x <= 0x7FFF_FFFF

  /** EItemRarity, in declaration order. */
  datatype ItemRarity = Damaged | Common | Uncommon | Rare | Legendary | RarityMax

  /** EItemState, in declaration order. */
  datatype ItemState = Pickup | EquipInterping | PickedUp | Equipped | Falling | StateMax

  /** Identity of a shooter character (a non-null ARMLShooterCharacter pointer). */
  type CharacterId = nat

  /** The dynamic kind of an actor that touches the item's area sphere. */
  datatype Actor = ShooterCharacter(character: CharacterId) | OtherActor(id: nat)

  /** A call `character->IncrementOverlappedItemCount(amount)`. */
  datatype Increment = Increment(character: CharacterId, amount: int)

  /** What TryChangeOverlapAmount returns and which call it makes, if any. */
  datatype OverlapOutcome = OverlapOutcome(handled: bool, call: Option<Increment>)

  /** An actor rotation; angles are in degrees. */
  datatype Rotator = Rotator(pitch: real, yaw: real, roll: real)

  /** Duration of the Z curve, which is also the interpolation timer's delay. */
  const ZCurveTime: real := 0.7

  /** Number of entries InitActiveStars appends to ActiveStars. */
  const StarSlots: nat := 6

  // ---------------------------------------------------------------------------
  // Rarity stars

  /** Position of a rarity in the EItemRarity enumeration. */
  function RarityOrdinal(r: ItemRarity): nat
  {
    match r
    case Damaged => 0
    case Common => 1
    case Uncommon => 2
    case Rare => 3
    case Legendary => 4
    case RarityMax => 5
  }

  /** The number of lit stars the rarity switch selects. */
  function StarCount(r: ItemRarity): (n: nat)
    ensures 1 <= n < StarSlots
    ensures n == if r == RarityMax then 5 else RarityOrdinal(r) + 1
  {
    match r
    case Damaged => 1
    case Common => 2
    case Uncommon => 3
    case Rare => 4
    case Legendary => 5
    case RarityMax => 5
  }

  /** A higher rarity never shows fewer stars. */
  lemma StarCountMonotone(a: ItemRarity, b: ItemRarity)
    requires RarityOrdinal(a) <= RarityOrdinal(b)
    ensures StarCount(a) <= StarCount(b)
  {
  }

  /**
   * ActiveStars after InitActiveStars: six `false` entries are appended to
   * `s`, then entries 1 through StarCount(r) of the whole array are set.
   */
  function StarsAfterInit(s: seq<bool>, r: ItemRarity): (t: seq<bool>)
    ensures |t| == |s| + StarSlots
  {
    seq(|s| + StarSlots, i requires 0 <= i < |s| + StarSlots =>
      if 1 <= i <= StarCount(r) then true
      else if i < |s| then s[i]
      else false)
  }

  /** The number of `true` entries of `s`. */
  function CountTrue(s: seq<bool>): (k: nat)
    ensures k <= |s|
  {
    if s == [] then 0
    else CountTrue(s[..|s| - 1]) + (if s[|s| - 1] then 1 else 0)
  }

  function Min(a: int, b: int): int
  {
    if a <= b then a else b
  }

  /**
   * A non-empty array whose entry i is lit exactly when 1 <= i <= n has
   * min(n, |s| - 1) lit entries.
   */
  lemma {:induction false} CountTrueOfLitRange(s: seq<bool>, n: nat)
    requires |s| > 0
    requires forall i :: 0 <= i < |s| ==> (s[i] <==> 1 <= i <= n)
    ensures CountTrue(s) == Min(n, |s| - 1)
  {
    if |s| == 1 {
      assert s == [false];
      assert CountTrue(s) == CountTrue([]) + 0;
    } else {
      var p := s[..|s| - 1];
      CountTrueOfLitRange(p, n);
    }
  }

  /**
   * Called on an empty ActiveStars, InitActiveStars leaves exactly six
   * entries: entry 0 is unlit, entry i is lit exactly when
   * 1 <= i <= StarCount(r), so exactly StarCount(r) stars are lit.
   */
  lemma StarsFromEmpty(r: ItemRarity)
    ensures |StarsAfterInit([], r)| == StarSlots
    ensures !StarsAfterInit([], r)[0]
    ensures forall i :: 0 <= i < StarSlots ==>
      (StarsAfterInit([], r)[i] <==> 1 <= i <= StarCount(r))
    ensures CountTrue(StarsAfterInit([], r)) == StarCount(r)
  {
    CountTrueOfLitRange(StarsAfterInit([], r), StarCount(r));
  }

  /**
   * InitActiveStars appends rather than resets: a second call adds six more
   * entries, all unlit, and leaves the first six as the first call made them.
   */
  lemma StarsInitTwice(r: ItemRarity)
    ensures |StarsAfterInit(StarsAfterInit([], r), r)| == 2 * StarSlots
    ensures StarsAfterInit(StarsAfterInit([], r), r)[..StarSlots] == StarsAfterInit([], r)
    ensures forall i :: StarSlots <= i < 2 * StarSlots ==>
      !StarsAfterInit(StarsAfterInit([], r), r)[i]
    ensures CountTrue(StarsAfterInit(StarsAfterInit([], r), r)) == StarCount(r)
  {
    var once := StarsAfterInit([], r);
    var twice := StarsAfterInit(once, r);
    assert twice[..StarSlots] == once;
    CountTrueOfLitRange(twice, StarCount(r));
  }

  // ---------------------------------------------------------------------------
  // Overlap notifications

  /**
   * TryChangeOverlapAmount: when the other actor is a shooter character, it
   * forwards `amount` to that character and answers true; a null actor or
   * any other kind of actor is ignored and the answer is false.
   */
  function TryChangeOverlapAmount(other: Option<Actor>, amount: int): (r: OverlapOutcome)
    ensures r.handled <==> other.Some? && other.value.ShooterCharacter?
    ensures r.call.Some? <==> r.handled
    ensures r.handled ==> r.call.value == Increment(other.value.character, amount)
  {
    match other
    case Some(ShooterCharacter(c)) => OverlapOutcome(true, Some(Increment(c, amount)))
    case _ => OverlapOutcome(false, None)
  }

  /** OnAreaSphereBeginOverlap: ask the overlapping character for +1 overlapped item. */
  function OnAreaSphereBeginOverlap(other: Option<Actor>): (call: Option<Increment>)
    ensures other.Some? && other.value.ShooterCharacter? ==>
      call == Some(Increment(other.value.character, 1))
    ensures call.Some? <==> other.Some? && other.value.ShooterCharacter?
  {
    TryChangeOverlapAmount(other, 1).call
  }

  /** OnAreaSphereEndOverlap: ask the overlapping character for -1 overlapped item. */
  function OnAreaSphereEndOverlap(other: Option<Actor>): (call: Option<Increment>)
    ensures other.Some? && other.value.ShooterCharacter? ==>
      call == Some(Increment(other.value.character, -1))
    ensures call.Some? <==> other.Some? && other.value.ShooterCharacter?
  {
    TryChangeOverlapAmount(other, -1).call
  }

  /**
   * A begin overlap followed by an end overlap of the same actor either
   * sends nothing, or sends +1 and -1 to the same character: the net
   * change of that character's overlapped item count is zero.
   */
  lemma OverlapBeginEndCancel(other: Option<Actor>)
    ensures OnAreaSphereBeginOverlap(other).Some? == OnAreaSphereEndOverlap(other).Some?
    ensures OnAreaSphereBeginOverlap(other).Some? ==>
      OnAreaSphereBeginOverlap(other).value.character == OnAreaSphereEndOverlap(other).value.character &&
      OnAreaSphereBeginOverlap(other).value.amount + OnAreaSphereEndOverlap(other).value.amount == 0
  {
  }

  // ---------------------------------------------------------------------------
  // Rotations

  predicate IsUpright(r: Rotator)
  {
    r.pitch == 0.0 && r.roll == 0.0
  }

  /** The rotation with pitch and roll cleared and the yaw kept. */
  function Upright(r: Rotator): (u: Rotator)
    ensures IsUpright(u) && u.yaw == r.yaw
  {
    Rotator(0.0, r.yaw, 0.0)
  }

  /** Straightening an upright rotation changes nothing. */
  lemma UprightFixesUpright(r: Rotator)
    ensures IsUpright(r) <==> Upright(r) == r
  {
  }

  // ---------------------------------------------------------------------------
  // The item actor

  class Item {
    var itemName: string
    var itemCount: Int32
    var itemRarity: ItemRarity
    var activeStars: seq<bool>
    var itemState: ItemState
    var interping: bool
    var zCurveTime: real
    /** The character the item is travelling to (ShooterCharacter, null when None). */
    var shooterCharacter: Option<CharacterId>
    /** Whether the ItemZCurve and ItemScaleCurve assets are assigned. */
    var hasZCurve: bool
    var hasScaleCurve: bool
    var interpInitialYawOffset: real
    /** The actor's rotation and uniform scale. */
    var rotation: Rotator
    var scale: real

    /** While the item is interpolating it knows which character it travels to. */
    ghost predicate Valid()
      reads this
    {
      interping ==> shooterCharacter.Some?
    }

    /**
     * The constructor's defaults. The owner pointer and the curve assets
     * start null, and the actor starts with the identity transform.
     */
    constructor ()
      ensures Valid()
      ensures itemName == "Not Set" && itemCount == 0 && itemRarity == Common
      ensures itemState == Pickup && !interping && zCurveTime == ZCurveTime
      ensures activeStars == [] && shooterCharacter == None
      ensures !hasZCurve && !hasScaleCurve
      ensures interpInitialYawOffset == 0.0
      ensures rotation == Rotator(0.0, 0.0, 0.0) && scale == 1.0
    {
      itemName := "Not Set";
      itemCount := 0;
      itemRarity := Common;
      activeStars := [];
      itemState := Pickup;
      interping := false;
      zCurveTime := ZCurveTime;
      shooterCharacter := None;
      hasZCurve := false;
      hasScaleCurve := false;
      interpInitialYawOffset := 0.0;
      rotation := Rotator(0.0, 0.0, 0.0);
      scale := 1.0;
    }

    /** BeginPlay: builds the star array (widget and collision setup are engine work). */
    method BeginPlay()
      modifies this`activeStars
      ensures activeStars == StarsAfterInit(old(activeStars), itemRarity)
    {
      InitActiveStars();
    }

    /**
     * Appends six unlit entries, then lights entries 1 through the rarity's
     * star count. Every index written is in bounds because the count is at
     * most 5 and the array holds at least 6 entries.
     */
    method InitActiveStars()
      modifies this`activeStars
      ensures activeStars == StarsAfterInit(old(activeStars), itemRarity)
    {
      ghost var s := activeStars;
      var i := 0;
      while i <= 5
        invariant 0 <= i <= StarSlots
        invariant activeStars == s + seq(i, _ => false)
      {
        activeStars := activeStars + [false];
        i := i + 1;
      }

      var starsAmount := StarCount(itemRarity);
      i := 1;
      while i <= starsAmount
        invariant 1 <= i <= starsAmount + 1
        invariant |activeStars| == |s| + StarSlots
        invariant forall k :: 0 <= k < |activeStars| ==>
          activeStars[k] == if 1 <= k < i then true else if k < |s| then s[k] else false
      {
        activeStars := activeStars[i := true];
        i := i + 1;
      }
    }

    /** SetItemState records the new state (the collision setup it triggers is engine work). */
    method SetItemState(newItemState: ItemState)
      modifies this`itemState
      ensures itemState == newItemState
    {
      itemState := newItemState;
    }

    /**
     * StartItemCurve: record the owning character, start interpolating in
     * EquipInterping and capture the yaw offset between item and camera.
     * `timerDelay` is the delay the interpolation timer is armed with; the
     * caller invokes HandleFinishInterping when it would fire.
     */
    method StartItemCurve(characterToMove: CharacterId, cameraYaw: real) returns (timerDelay: real)
      modifies this`shooterCharacter, this`interping, this`itemState, this`interpInitialYawOffset
      ensures Valid()
      ensures shooterCharacter == Some(characterToMove)
      ensures interping && itemState == EquipInterping
      ensures interpInitialYawOffset == rotation.yaw - cameraYaw
      ensures timerDelay == zCurveTime
    {
      shooterCharacter := Some(characterToMove);
      interping := true;
      SetItemState(EquipInterping);
      timerDelay := zCurveTime;
      interpInitialYawOffset := rotation.yaw - cameraYaw;
    }

    /**
     * The interpolation timer's callback: stop interpolating, hand the item
     * to the owning character if there is one, and reset the scale to unit.
     * `pickedUpBy` is the character whose GetPickupItem is called.
     */
    method HandleFinishInterping() returns (pickedUpBy: Option<CharacterId>)
      modifies this`interping, this`scale
      ensures Valid()
      ensures !interping && scale == 1.0
      ensures pickedUpBy == shooterCharacter
      ensures old(Valid()) && old(interping) ==> pickedUpBy.Some?
    {
      interping := false;
      pickedUpBy := shooterCharacter;
      scale := 1.0;
    }

    /** Whether an ItemInterp step moves the item at all. */
    predicate InterpActive()
      reads this
    {
      interping && shooterCharacter.Some? && hasZCurve
    }

    /**
     * The rotation an ItemInterp step leaves: the camera's yaw plus the
     * offset captured by StartItemCurve, upright.
     */
    function InterpRotation(cameraYaw: real): (r: Rotator)
      reads this
      ensures !InterpActive() ==> r == rotation
      ensures InterpActive() ==> IsUpright(r) && r.yaw - cameraYaw == interpInitialYawOffset
    {
      if InterpActive() then Rotator(0.0, cameraYaw + interpInitialYawOffset, 0.0) else rotation
    }

    /** The scale an ItemInterp step leaves, given the scale curve's sample. */
    function InterpScale(scaleSample: real): (s: real)
      reads this
      ensures InterpActive() && hasScaleCurve ==> s == scaleSample
      ensures s != scale ==> InterpActive() && hasScaleCurve
    {
      if InterpActive() && hasScaleCurve then scaleSample else scale
    }

    /**
     * One interpolation step. Nothing changes unless the item is
     * interpolating; with an owner and a Z curve the item faces the camera's
     * yaw plus the captured offset, and a scale curve sets the scale.
     * `scaleSample` is the scale curve's value at the elapsed time.
     */
    method ItemInterp(cameraYaw: real, scaleSample: real)
      modifies this`rotation, this`scale
      ensures rotation == old(InterpRotation(cameraYaw))
      ensures scale == old(InterpScale(scaleSample))
      ensures !old(interping) ==> rotation == old(rotation) && scale == old(scale)
    {
      if !interping {
        return;
      }
      if shooterCharacter.Some? && hasZCurve {
        rotation := Rotator(0.0, cameraYaw + interpInitialYawOffset, 0.0);
        if hasScaleCurve {
          scale := scaleSample;
        }
      }
    }

    /** Tick: one interpolation step per frame. */
    method Tick(cameraYaw: real, scaleSample: real)
      modifies this`rotation, this`scale
      ensures rotation == old(InterpRotation(cameraYaw))
      ensures scale == old(InterpScale(scaleSample))
    {
      ItemInterp(cameraYaw, scaleSample);
    }
  }

  /**
   * An item's life from spawn to pickup: it starts in Pickup, travels in
   * EquipInterping keeping its yaw relative to the camera, and once the
   * timer fires is handed to the character at unit scale. As a default
   * (Common) item it shows two stars. The hand-over is the returned
   * GetPickupItem call, which the model does not apply; so the item is
   * still in EquipInterping here, whatever state that call would set.
   */
  method PickupLifecycle(character: CharacterId, itemYaw: real, cameraYaw: real, turn: real)
    returns (item: Item, pickedUpBy: Option<CharacterId>)
    ensures item.itemState == EquipInterping && !item.interping && item.scale == 1.0
    ensures item.rotation == Rotator(0.0, itemYaw + turn, 0.0)
    ensures pickedUpBy == Some(character)
    ensures CountTrue(item.activeStars) == StarCount(Common)
  {
    item := new Item();
    item.hasZCurve := true;
    item.rotation := Rotator(0.0, itemYaw, 0.0);
    item.BeginPlay();
    StarsFromEmpty(item.itemRarity);
    var delay := item.StartItemCurve(character, cameraYaw);
    item.Tick(cameraYaw + turn, 0.5);
    pickedUpBy := item.HandleFinishInterping();
  }
}
