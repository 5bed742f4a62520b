/** The first-person player character (AFirstPersonCharacter): a main collision
    capsule, a camera, and a second "fall over" capsule that serves as a ragdoll
    proxy. On a hit the character falls over: the camera moves onto the proxy,
    the proxy is detached and simulated, and the main capsule stops colliding.
    GetBackUp stands it up again through a latent 0.5-second move whose
    completion restores the constructor's arrangement. The class also tracks
    one touch press at a time. */
module Character {
  import opened Components

  /** Where the camera sits relative to its parent: at the rest offset the
      constructor sets, or wherever an attach that kept its world transform left it. */
  datatype CameraPlacement = RestOffset | KeptWorld

  /** The camera fields the code writes. */
  datatype Camera = Camera(parent: AttachParent, placement: CameraPlacement,
                           usePawnControlRotation: bool, lockToHmd: bool)

  /** The fall-over capsule (FallOverCapsuleComponent). `location` is its world
      location; `impulses` are the impulses requested on it, oldest first. */
  datatype ProxyCapsule = ProxyCapsule(parent: AttachParent, profile: string, simulating: bool,
                                       location: Vec, impulses: seq<Impulse>)

  /** The latent MoveComponentTo that GetBackUp starts on the proxy; on
      completion it calls ResetCharacterPostFall. */
  datatype LatentMove = LatentMove(target: Vec, duration: real)

  const RecoveryMoveDuration: real := 0.5

  /** TouchItem. */
  datatype TouchData = TouchData(pressed: bool, finger: nat, location: Vec, moved: bool)

  /** Everything the knockdown and touch code reads or writes. `itemUses`
      counts the OnUseItem broadcasts made by OnPrimaryAction. */
  datatype PlayerState = PlayerState(
    fallen: bool,
    location: Vec,
    capsuleProfile: string,
    camera: Camera,
    proxy: Option<ProxyCapsule>,
    pendingMove: Option<LatentMove>,
    touch: TouchData,
    itemUses: nat)

  /** The camera as the constructor sets it up: on the main capsule at its rest
      offset, following the control rotation, locked to the HMD (the engine's
      default for bLockToHmd). */
  const RestCamera := Camera(MainCapsule, RestOffset, true, true)

  /** The camera as FallOver leaves it. */
  const FallenCamera := Camera(Proxy, KeptWorld, false, false)

  /** The upright arrangement: the constructor's, and the one
      ResetCharacterPostFall restores. */
  predicate Upright(s: PlayerState) {
    && !s.fallen
    && s.pendingMove.None?
    && s.camera == RestCamera
    && s.capsuleProfile == PawnProfile
    && s.proxy.Some?
    && s.proxy.value.parent == MainCapsule
    && s.proxy.value.profile == NoCollisionProfile
    && !s.proxy.value.simulating
    && s.proxy.value.location == s.location
  }

  /** The arrangement FallOver sets up. */
  predicate Ragdolled(s: PlayerState) {
    && s.camera == FallenCamera
    && s.capsuleProfile == NoCollisionProfile
    && s.proxy.Some?
    && s.proxy.value.parent == Detached
    && s.proxy.value.simulating
    && s.proxy.value.profile == RagdollProfile
  }

  /** Neither the touch item, the item-use count, the actor's location nor
      the pending move differ between s and r. */
  predicate SameBesideKnockdown(s: PlayerState, r: PlayerState) {
    r.touch == s.touch && r.itemUses == s.itemUses && r.location == s.location && r.pendingMove == s.pendingMove
  }

  /** The character as constructed at `at`, with the main capsule's engine
      default profile "Pawn" and the touch item zero-initialised. */
  function Constructed(at: Vec): (s: PlayerState)
    ensures Upright(s) && s.location == at
    ensures s.proxy.value.impulses == [] && !s.touch.pressed && !s.touch.moved && s.itemUses == 0
  {
    PlayerState(false, at, PawnProfile, RestCamera,
                Some(ProxyCapsule(MainCapsule, NoCollisionProfile, false, at, [])),
                None, TouchData(false, 0, ZeroVector, false), 0)
  }

  /** FallOver: guarded by a present proxy and not being fallen already. */
  function FellOver(s: PlayerState): (r: PlayerState)
    ensures s.fallen || s.proxy.None? ==> r == s
    ensures !s.fallen && s.proxy.Some? ==>
      && r.fallen && Ragdolled(r) && SameBesideKnockdown(s, r)
      && r.proxy.value.location == s.proxy.value.location
      && r.proxy.value.impulses == s.proxy.value.impulses
    ensures r.proxy.Some? ==> r.fallen
  {
    if s.proxy.Some? && !s.fallen then
      var p := s.proxy.value;
      s.(fallen := true,
         camera := FallenCamera,
         proxy := Some(p.(parent := Detached, simulating := true, profile := RagdollProfile)),
         capsuleProfile := NoCollisionProfile)
    else
      s
  }

  /** OnHitWithBall: FallOver, then an impulse on the proxy whatever FallOver did.
      The proxy is dereferenced without a check, so it must be present. */
  function HitWithBall(s: PlayerState, impulse: Vec, at: Vec): (r: PlayerState)
    requires s.proxy.Some?
    ensures r.fallen && r.proxy.Some?
    ensures r.proxy.value.impulses == s.proxy.value.impulses + [Impulse(impulse, at)]
    ensures s.fallen ==> r == s.(proxy := Some(s.proxy.value.(impulses := s.proxy.value.impulses + [Impulse(impulse, at)])))
    ensures !s.fallen ==>
      && Ragdolled(r) && SameBesideKnockdown(s, r)
      && r.proxy.value.location == s.proxy.value.location
  {
    var f := FellOver(s);
    var p := f.proxy.value;
    f.(proxy := Some(p.(impulses := p.impulses + [Impulse(impulse, at)])))
  }

  /** GetBackUp: guarded by a present proxy and being fallen. It clears the
      flag at once, stops the proxy, moves the actor to the proxy and starts the
      recovery move; the camera stays where it is until that move completes. */
  function GotBackUp(s: PlayerState): (r: PlayerState)
    ensures !s.fallen || s.proxy.None? ==> r == s
    ensures s.fallen && s.proxy.Some? ==>
      && !r.fallen
      && r.location == s.proxy.value.location
      && r.proxy == Some(s.proxy.value.(simulating := false, profile := PawnProfile))
      && r.pendingMove == Some(LatentMove(r.location, RecoveryMoveDuration))
      && r.camera == s.camera && r.capsuleProfile == s.capsuleProfile
      && r.touch == s.touch && r.itemUses == s.itemUses
    ensures s.proxy.Some? ==> !r.fallen
  {
    if s.proxy.Some? && s.fallen then
      var p := s.proxy.value.(simulating := false, profile := PawnProfile);
      var at := p.location;
      s.(fallen := false, proxy := Some(p), location := at,
         pendingMove := Some(LatentMove(at, RecoveryMoveDuration)))
    else
      s
  }

  /** ToggleFallOver: the fall branch is commented out, so only getting up remains. */
  function Toggled(s: PlayerState): (r: PlayerState)
    ensures !s.fallen ==> r == s
    ensures s.fallen && s.proxy.Some? ==> !r.fallen && r.pendingMove.Some?
    ensures s.proxy.Some? ==> !r.fallen
  {
    if s.fallen then GotBackUp(s) else s
  }

  /** ResetCharacterPostFall: camera back on the main capsule at its rest
      offset, proxy re-attached at the actor's location with no collision,
      main capsule back to "Pawn". The proxy is dereferenced without a check. */
  function PostFallReset(s: PlayerState): (r: PlayerState)
    requires s.proxy.Some?
    ensures r.camera == RestCamera && r.capsuleProfile == PawnProfile
    ensures r.proxy == Some(s.proxy.value.(parent := MainCapsule, location := s.location, profile := NoCollisionProfile))
    ensures r.fallen == s.fallen && SameBesideKnockdown(s, r)
    ensures !s.fallen && !s.proxy.value.simulating && s.pendingMove.None? ==> Upright(r)
  {
    var p := s.proxy.value.(parent := MainCapsule, location := s.location, profile := NoCollisionProfile);
    s.(camera := RestCamera, proxy := Some(p), capsuleProfile := PawnProfile)
  }

  /** Completion of the latent recovery move: the proxy arrives at the move's
      target, the move is gone, and ResetCharacterPostFall runs. */
  function RecoveryMoveFinished(s: PlayerState): (r: PlayerState)
    requires s.proxy.Some? && s.pendingMove.Some?
    ensures r.pendingMove.None? && r.camera == RestCamera && r.proxy.Some? && r.proxy.value.parent == MainCapsule
    ensures r.capsuleProfile == PawnProfile && r.proxy.value.profile == NoCollisionProfile
    ensures r.proxy.value.location == r.location && r.proxy.value.simulating == s.proxy.value.simulating
    ensures r.fallen == s.fallen && r.location == s.location && r.touch == s.touch && r.itemUses == s.itemUses
    ensures !s.fallen && !s.proxy.value.simulating ==> Upright(r)
  {
    var arrived := s.proxy.value.(location := s.pendingMove.value.target);
    PostFallReset(s.(pendingMove := None, proxy := Some(arrived)))
  }

  /** The physics simulation moves the proxy whenever it simulates, attached
      or not. */
  predicate PhysicsMovesProxy(s: PlayerState) {
    s.proxy.Some? && s.proxy.value.simulating
  }

  function ProxyMoved(s: PlayerState, to: Vec): PlayerState
    requires PhysicsMovesProxy(s)
  {
    s.(proxy := Some(s.proxy.value.(location := to)))
  }

  /** BeginTouch: ignored while a press is held; otherwise records the press,
      and fires the primary action when the same finger as last time touches
      and the touch has not moved. */
  function TouchBegan(s: PlayerState, finger: nat, at: Vec): (r: PlayerState)
    ensures s.touch.pressed ==> r == s
    ensures !s.touch.pressed ==> r.touch == TouchData(true, finger, at, false)
    ensures !s.touch.pressed ==>
      r.itemUses == if finger == s.touch.finger && !s.touch.moved then s.itemUses + 1 else s.itemUses
    ensures r.(touch := s.touch, itemUses := s.itemUses) == s
  {
    if s.touch.pressed then s
    else
      var uses := if finger == s.touch.finger && !s.touch.moved then s.itemUses + 1 else s.itemUses;
      s.(touch := TouchData(true, finger, at, false), itemUses := uses)
  }

  /** EndTouch: clears the press if one is held; the finger and location stay recorded. */
  function TouchEnded(s: PlayerState): (r: PlayerState)
    ensures !r.touch.pressed
    ensures r == s.(touch := s.touch.(pressed := false))
  {
    if s.touch.pressed then s.(touch := s.touch.(pressed := false)) else s
  }

  class FirstPersonCharacter {
    var hasFallenOver: bool
    var actorLocation: Vec
    var capsuleProfile: string
    var firstPersonCamera: Camera
    var fallOverCapsule: Option<ProxyCapsule>
    var pendingMove: Option<LatentMove>
    var touchItem: TouchData
    var itemUses: nat

    function State(): PlayerState
      reads this
    {
      PlayerState(hasFallenOver, actorLocation, capsuleProfile, firstPersonCamera,
                  fallOverCapsule, pendingMove, touchItem, itemUses)
    }

    constructor (at: Vec)
      ensures State() == Constructed(at)
    {
      hasFallenOver := false;
      actorLocation := at;
      capsuleProfile := PawnProfile;
      fallOverCapsule := Some(ProxyCapsule(MainCapsule, NoCollisionProfile, false, at, []));
      firstPersonCamera := RestCamera;
      pendingMove := None;
      touchItem := TouchData(false, 0, ZeroVector, false);
      itemUses := 0;
    }

    /** Broadcasts OnUseItem. */
    method OnPrimaryAction()
      modifies this
      ensures State() == old(State()).(itemUses := old(itemUses) + 1)
    {
      itemUses := itemUses + 1;
    }

    method BeginTouch(finger: nat, at: Vec)
      modifies this
      ensures State() == TouchBegan(old(State()), finger, at)
    {
      if touchItem.pressed {
        return;
      }
      if finger == touchItem.finger && !touchItem.moved {
        OnPrimaryAction();
      }
      touchItem := touchItem.(pressed := true);
      touchItem := touchItem.(finger := finger);
      touchItem := touchItem.(location := at);
      touchItem := touchItem.(moved := false);
    }

    method EndTouch(finger: nat, at: Vec)
      modifies this
      ensures State() == TouchEnded(old(State()))
    {
      if !touchItem.pressed {
        return;
      }
      touchItem := touchItem.(pressed := false);
    }

    method ResetCharacterPostFall()
      requires fallOverCapsule.Some?
      modifies this
      ensures State() == PostFallReset(old(State()))
    {
      firstPersonCamera := firstPersonCamera.(parent := Detached, placement := KeptWorld);
      firstPersonCamera := firstPersonCamera.(parent := MainCapsule);
      firstPersonCamera := firstPersonCamera.(placement := RestOffset);
      firstPersonCamera := firstPersonCamera.(usePawnControlRotation := true);
      firstPersonCamera := firstPersonCamera.(lockToHmd := true);

      var p := fallOverCapsule.value;
      p := p.(location := actorLocation);
      p := p.(parent := MainCapsule);
      p := p.(profile := NoCollisionProfile);
      fallOverCapsule := Some(p);
      capsuleProfile := PawnProfile;
    }

    method ToggleFallOver()
      modifies this
      ensures State() == Toggled(old(State()))
    {
      if hasFallenOver {
        GetBackUp();
      }
    }

    method OnHitWithBall(impulse: Vec, at: Vec)
      requires fallOverCapsule.Some?
      modifies this
      ensures State() == HitWithBall(old(State()), impulse, at)
    {
      FallOver();
      var p := fallOverCapsule.value;
      fallOverCapsule := Some(p.(impulses := p.impulses + [Impulse(impulse, at)]));
    }

    method FallOver()
      modifies this
      ensures State() == FellOver(old(State()))
    {
      if fallOverCapsule.Some? && !hasFallenOver {
        hasFallenOver := true;
        firstPersonCamera := firstPersonCamera.(usePawnControlRotation := false);
        firstPersonCamera := firstPersonCamera.(lockToHmd := false);
        firstPersonCamera := firstPersonCamera.(parent := Detached, placement := KeptWorld);
        firstPersonCamera := firstPersonCamera.(parent := Proxy);

        var p := fallOverCapsule.value;
        p := p.(parent := Detached);
        p := p.(simulating := true);
        p := p.(profile := RagdollProfile);
        fallOverCapsule := Some(p);
        capsuleProfile := NoCollisionProfile;
      }
    }

    method GetBackUp()
      modifies this
      ensures State() == GotBackUp(old(State()))
    {
      if fallOverCapsule.Some? && hasFallenOver {
        hasFallenOver := false;
        var p := fallOverCapsule.value;
        p := p.(simulating := false);
        p := p.(profile := PawnProfile);
        fallOverCapsule := Some(p);
        actorLocation := p.location;
        pendingMove := Some(LatentMove(actorLocation, RecoveryMoveDuration));
      }
    }

    /** The engine completing the latent recovery move and calling back. */
    method FinishRecoveryMove()
      requires fallOverCapsule.Some? && pendingMove.Some?
      modifies this
      ensures State() == RecoveryMoveFinished(old(State()))
    {
      var target := pendingMove.value.target;
      pendingMove := None;
      fallOverCapsule := Some(fallOverCapsule.value.(location := target));
      ResetCharacterPostFall();
    }

    /** AddImpulseAtLocation on the proxy, as another actor calls it. */
    method AddProxyImpulse(i: Impulse)
      requires fallOverCapsule.Some?
      modifies this
      ensures State() == old(State()).(proxy := Some(old(fallOverCapsule.value).(impulses := old(fallOverCapsule.value.impulses) + [i])))
    {
      var p := fallOverCapsule.value;
      fallOverCapsule := Some(p.(impulses := p.impulses + [i]));
    }

    /** The physics simulation moving the proxy. */
    method MoveProxyByPhysics(to: Vec)
      requires PhysicsMovesProxy(State())
      modifies this
      ensures State() == ProxyMoved(old(State()), to)
    {
      fallOverCapsule := Some(fallOverCapsule.value.(location := to));
    }
  }
}
