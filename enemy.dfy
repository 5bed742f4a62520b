/** The Wraith enemy (AWraith). A hit from the ball ragdolls its skeletal
    mesh: the capsule stops colliding, the mesh simulates, the weapon bone is
    hidden, movement stops and is disabled, the AI controller's behaviour tree
    is stopped, and a one-shot 2-second timer is armed to call GetBackUp.
    GetBackUp undoes all of that except the disabled movement mode. */
module Enemy {
  import opened Components
  import opened EnemyAI

  /** The capsule fields the code writes. */
  datatype CapsuleCollision = CapsuleCollision(enabled: CollisionEnabled, response: Response, profile: string)

  /** The skeletal mesh fields the code writes; `impulses` are the impulses
      requested on the mesh, oldest first. */
  datatype SkeletalMesh = SkeletalMesh(enabled: CollisionEnabled, simulating: bool, blendPhysics: bool,
                                       hiddenBones: set<string>, location: Vec, impulses: seq<Impulse>)

  /** EMovementMode; `Disabled` is MOVE_None, what DisableMovement sets. */
  datatype MovementMode = Walking | NavWalking | Falling | Swimming | Flying | Custom | Disabled

  /** The character movement fields the code writes. */
  datatype Movement = Movement(velocity: Vec, mode: MovementMode, tickEnabled: bool)

  /** A timer armed on the world timer manager with GetBackUp as its callback. */
  datatype Timer = Timer(rate: real, looping: bool, firstDelay: real)

  /** The recovery timer: rate 1.0, not looping, first (and only) call after 2.0. */
  const GetUpTimer := Timer(1.0, false, 2.0)

  const WeaponBone := "weapon_r"

  /** `getUpTimer` is the slot behind GetUpTimerHandle; `controller` is the
      possessing controller's state when it is a WraithAIController, None when
      it is absent or of another class. */
  datatype WraithState = WraithState(
    fallen: bool,
    location: Vec,
    capsule: CapsuleCollision,
    mesh: SkeletalMesh,
    movement: Movement,
    getUpTimer: Option<Timer>,
    controller: Option<ControllerState>)

  /** The arrangement OnHitWithBall sets up. */
  predicate Ragdolled(w: WraithState) {
    && w.capsule.enabled == NoCollision && w.capsule.response == IgnoreAll
    && w.mesh.enabled == QueryAndPhysics && w.mesh.simulating && w.mesh.blendPhysics
    && WeaponBone in w.mesh.hiddenBones
    && w.movement.mode == Disabled && !w.movement.tickEnabled
  }

  /** The arrangement GetBackUp sets up. */
  predicate Standing(w: WraithState) {
    && w.capsule == CapsuleCollision(QueryAndPhysics, BlockAll, PawnProfile)
    && w.mesh.enabled == NoCollision && !w.mesh.simulating && !w.mesh.blendPhysics
    && WeaponBone !in w.mesh.hiddenBones
    && w.movement.tickEnabled
  }

  function ControllerStopped(c: Option<ControllerState>): Option<ControllerState> {
    if c.Some? then Some(TreeStopped(c.value)) else None
  }

  function ControllerRestarted(c: Option<ControllerState>): Option<ControllerState> {
    if c.Some? then Some(TreeRestarted(c.value)) else None
  }

  /** The Wraith as constructed: upright with no timer armed. Its components
      start as the engine and the Blueprint set them up. */
  function Constructed(at: Vec, capsule: CapsuleCollision, mesh: SkeletalMesh, movement: Movement,
                       controller: Option<ControllerState>): (w: WraithState)
    ensures !w.fallen && w.getUpTimer.None?
    ensures w.capsule == capsule && w.mesh == mesh && w.movement == movement && w.controller == controller
  {
    WraithState(false, at, capsule, mesh, movement, None, controller)
  }

  /** OnHitWithBall: the knockdown runs only from upright; the impulse on the
      mesh is requested either way. */
  function HitWithBall(w: WraithState, impulse: Vec, at: Vec): (r: WraithState)
    ensures r.fallen && r.mesh.impulses == w.mesh.impulses + [Impulse(impulse, at)]
    ensures w.fallen ==> r == w.(mesh := w.mesh.(impulses := w.mesh.impulses + [Impulse(impulse, at)]))
    ensures !w.fallen ==>
      && Ragdolled(r)
      && r.getUpTimer == Some(GetUpTimer)
      && r.mesh.hiddenBones == w.mesh.hiddenBones + {WeaponBone}
      && r.movement.velocity == ZeroVector
      && r.controller == ControllerStopped(w.controller)
      && r.location == w.location && r.capsule.profile == w.capsule.profile
      && r.mesh.location == w.mesh.location
  {
    var down :=
      if w.fallen then w
      else
        w.(fallen := true,
           capsule := w.capsule.(enabled := NoCollision, response := IgnoreAll),
           mesh := w.mesh.(enabled := QueryAndPhysics, simulating := true, blendPhysics := true,
                           hiddenBones := w.mesh.hiddenBones + {WeaponBone}),
           movement := Movement(ZeroVector, Disabled, false),
           controller := ControllerStopped(w.controller),
           getUpTimer := Some(GetUpTimer));
    down.(mesh := down.mesh.(impulses := down.mesh.impulses + [Impulse(impulse, at)]))
  }

  /** GetBackUp: only while fallen. It moves the actor to the mesh, restores
      the capsule and mesh, re-enables the movement tick (but not the movement
      mode), restarts the behaviour tree, clears the flag and the timer. */
  function GotBackUp(w: WraithState): (r: WraithState)
    ensures !w.fallen ==> r == w
    ensures w.fallen ==>
      && !r.fallen && r.getUpTimer.None? && Standing(r)
      && r.location == w.mesh.location
      && r.mesh.hiddenBones == w.mesh.hiddenBones - {WeaponBone}
      && r.mesh.location == w.mesh.location && r.mesh.impulses == w.mesh.impulses
      && r.movement == w.movement.(tickEnabled := true)
      && r.controller == ControllerRestarted(w.controller)
    ensures !r.fallen && r.getUpTimer == (if w.fallen then None else w.getUpTimer)
  {
    if w.fallen then
      w.(location := w.mesh.location,
         capsule := CapsuleCollision(QueryAndPhysics, BlockAll, PawnProfile),
         mesh := w.mesh.(enabled := NoCollision, simulating := false, blendPhysics := false,
                         hiddenBones := w.mesh.hiddenBones - {WeaponBone}),
         movement := w.movement.(tickEnabled := true),
         controller := ControllerRestarted(w.controller),
         fallen := false,
         getUpTimer := None)
    else
      w
  }

  /** The one-shot timer firing: the timer manager drops it, then calls GetBackUp. */
  function GetUpTimerFired(w: WraithState): (r: WraithState)
    requires w.getUpTimer.Some?
    ensures !r.fallen && r.getUpTimer.None?
    ensures w.fallen ==> r == GotBackUp(w)
  {
    GotBackUp(w.(getUpTimer := None))
  }

  /** The physics simulation moving the simulating mesh. */
  function MeshMoved(w: WraithState, to: Vec): WraithState
    requires w.mesh.simulating
  {
    w.(mesh := w.mesh.(location := to))
  }

  class Wraith {
    var hasFallenOver: bool
    var actorLocation: Vec
    var capsule: CapsuleCollision
    var mesh: SkeletalMesh
    var movement: Movement
    var getUpTimerHandle: Option<Timer>
    /** The possessing controller when it is a WraithAIController, else null. */
    const controller: WraithAIController?

    function State(): WraithState
      reads this, controller
    {
      WraithState(hasFallenOver, actorLocation, capsule, mesh, movement, getUpTimerHandle,
                  if controller == null then None else Some(controller.State()))
    }

    constructor (at: Vec, capsule0: CapsuleCollision, mesh0: SkeletalMesh, movement0: Movement,
                 controller0: WraithAIController?)
      ensures controller == controller0
      ensures State() == Constructed(at, capsule0, mesh0, movement0,
                                     if controller0 == null then None else Some(controller0.State()))
    {
      hasFallenOver := false;
      actorLocation := at;
      capsule := capsule0;
      mesh := mesh0;
      movement := movement0;
      getUpTimerHandle := None;
      controller := controller0;
    }

    method OnHitWithBall(impulse: Vec, at: Vec)
      modifies this, controller
      ensures State() == HitWithBall(old(State()), impulse, at)
    {
      if !hasFallenOver {
        hasFallenOver := true;
        capsule := capsule.(enabled := NoCollision);
        capsule := capsule.(response := IgnoreAll);
        mesh := mesh.(enabled := QueryAndPhysics);
        mesh := mesh.(simulating := true);
        mesh := mesh.(blendPhysics := true);
        mesh := mesh.(hiddenBones := mesh.hiddenBones + {WeaponBone});
        movement := movement.(velocity := ZeroVector);
        movement := movement.(mode := Disabled);
        movement := movement.(tickEnabled := false);
        if controller != null {
          controller.StopBehaviourTree();
        }
        getUpTimerHandle := Some(GetUpTimer);
      }
      mesh := mesh.(impulses := mesh.impulses + [Impulse(impulse, at)]);
    }

    method GetBackUp()
      modifies this, controller
      ensures State() == GotBackUp(old(State()))
    {
      if hasFallenOver {
        actorLocation := mesh.location;
        capsule := capsule.(enabled := QueryAndPhysics);
        capsule := capsule.(response := BlockAll);
        capsule := capsule.(profile := PawnProfile);

        mesh := mesh.(enabled := NoCollision);
        mesh := mesh.(simulating := false);
        mesh := mesh.(blendPhysics := false);
        mesh := mesh.(hiddenBones := mesh.hiddenBones - {WeaponBone});

        movement := movement.(tickEnabled := true);

        if controller != null {
          controller.RestartBehaviourTree();
        }

        hasFallenOver := false;
        getUpTimerHandle := None;
      }
    }

    /** The timer manager firing the armed recovery timer. */
    method FireGetUpTimer()
      requires getUpTimerHandle.Some?
      modifies this, controller
      ensures State() == GetUpTimerFired(old(State()))
    {
      getUpTimerHandle := None;
      GetBackUp();
    }

    /** The physics simulation moving the mesh. */
    method MoveMeshByPhysics(to: Vec)
      requires mesh.simulating
      modifies this
      ensures State() == MeshMoved(old(State()), to)
    {
      mesh := mesh.(location := to);
    }

    /** AddImpulseAtLocation on the mesh component, as another actor calls it. */
    method AddMeshImpulse(i: Impulse)
      modifies this
      ensures State() == old(State()).(mesh := old(mesh).(impulses := old(mesh.impulses) + [i]))
    {
      mesh := mesh.(impulses := mesh.impulses + [i]);
    }
  }
}
