# Knockdown state machines of the CollisionGame FirstPerson module

This project models the gameplay code that knocks characters down and stands
them back up again. It covers two actors, the controller of one of them, and the
ball that hits them:

- **The player character** (`AFirstPersonCharacter`) has a main collision
  capsule, a first-person camera, and a second "fall over" capsule that serves as
  a ragdoll proxy. `FallOver` does four things:
  - moves the camera onto the proxy;
  - detaches the proxy;
  - makes the proxy simulate physics with the "Ragdoll" profile;
  - switches the main capsule to "NoCollision".

  `GetBackUp` clears the fallen flag at once and starts a 0.5-second latent move.
  When that move completes it calls `ResetCharacterPostFall`, which restores the
  constructor's arrangement. The same class tracks one touch press at a time
  (`TouchItem`).
- **The Wraith** (`AWraith`) ragdolls its skeletal mesh on a ball hit:
  - its capsule stops colliding;
  - its mesh simulates with physics blending;
  - the `weapon_r` bone is hidden;
  - movement is stopped, disabled and its tick turned off;
  - its AI controller's behaviour tree is stopped;
  - a one-shot timer is armed to call `GetBackUp` after 2.0.

  `GetBackUp` writes the standing arrangement back (fixed collision settings,
  not the ones the Wraith had before), re-enables the movement tick but not the
  movement mode, and restarts the behaviour tree.
- **The Wraith's AI controller** (`AWraithAIController`) starts its behaviour tree
  when play begins. It stops and restarts the tree only when its brain component
  is a behaviour-tree component.
- **The ball** (`AFirstPersonProjectile`) tells a struck Wraith that it was hit;
  the call for the player is commented out. Then, if the struck component
  simulates physics, the ball pushes that component with 20 times its velocity
  and destroys itself. Otherwise it bounces on, with a 3.0 lifespan.

Each actor is a class. Its engine components are records (datatypes) held in
fields and reassigned in place, in the order the source writes them. Each class has
a `State()` function giving a snapshot of its fields. Each method's postcondition
says that the new snapshot equals a pure function of the old snapshot. Those pure
functions carry the per-call properties. The modules `CharacterProperties` and
`EnemyProperties` drive the pure functions with arbitrary sequences of events.
There they prove:
- the invariants of every reachable state;
- the fall-and-recover round trips;
- what the two deliberate gaps lead to: the player's commented-out fall branch
  and the Wraith's never re-enabled movement.

The model does not control engine behaviour; it receives it as explicit events
or parameters:
- The latent move's completion, the timer firing and the physics moving a ragdoll
  are explicit events. A move completes only while one is pending, the timer
  fires only while armed, and the physics moves a proxy or mesh whenever it
  simulates physics, attached or not.
- The Wraith's component defaults come from the engine and its Blueprint, so they
  are parameters of its constructor.
- The player's constructor takes the engine defaults it relies on:
  - the main capsule's "Pawn" profile;
  - the camera's HMD lock on;
  - the proxy not simulating;
  - a zero-initialised touch item (FirstPersonCharacter.h is not part of this model).

## Model

| member | source | states |
|---|---|---|
| Character.Constructed | Source/FirstPerson/FirstPersonCharacter.cpp:27-37 | The constructed character is upright: not fallen, camera on the main capsule at its rest offset with control rotation and HMD lock on, proxy attached to the main capsule with "NoCollision", main capsule "Pawn", no pending move. |
| Character.FirstPersonCharacter.constructor | Source/FirstPerson/FirstPersonCharacter.cpp:19-48 | The new object's state is the constructed arrangement at the spawn location. |
| Character.FellOver | Source/FirstPerson/FirstPersonCharacter.cpp:202-220 | While fallen or without a proxy nothing changes. Otherwise the character becomes fallen, the camera moves to the proxy with control rotation and HMD lock off, the proxy is detached, simulating, "Ragdoll", the main capsule "NoCollision"; location, touch and pending move are untouched. |
| Character.FirstPersonCharacter.FallOver | Source/FirstPerson/FirstPersonCharacter.cpp:202-220 | Makes the field updates in the source's order; the new state is FellOver of the old. |
| Character.HitWithBall | Source/FirstPerson/FirstPersonCharacter.cpp:195-200 | Afterwards the character is fallen and the proxy's impulse log has grown by exactly this impulse, also when already fallen; then that is the only change. From upright it is ragdolled as by FallOver, the proxy staying where it was. |
| Character.FirstPersonCharacter.OnHitWithBall | Source/FirstPerson/FirstPersonCharacter.cpp:195-200 | Calls FallOver, then requests the impulse on the proxy, which it dereferences unchecked (so the proxy must exist). |
| Character.GotBackUp | Source/FirstPerson/FirstPersonCharacter.cpp:222-239 | While upright nothing changes. While fallen the flag is cleared at once, the proxy stops simulating with profile "Pawn", the actor moves to the proxy's location and one 0.5 move towards it is pending; camera and main capsule stay as they were. |
| Character.FirstPersonCharacter.GetBackUp | Source/FirstPerson/FirstPersonCharacter.cpp:222-239 | The new state is GotBackUp of the old. |
| Character.Toggled | Source/FirstPerson/FirstPersonCharacter.cpp:185-193 | Upright: no change; fallen: no longer fallen, with a recovery move pending. |
| Character.FirstPersonCharacter.ToggleFallOver | Source/FirstPerson/FirstPersonCharacter.cpp:185-193 | Calls GetBackUp only when fallen. |
| Character.PostFallReset | Source/FirstPerson/FirstPersonCharacter.cpp:164-183 | Camera back on the main capsule at its rest offset with control rotation and HMD lock on; proxy re-attached to the main capsule at the actor's location with "NoCollision"; main capsule "Pawn"; flag and simulation untouched; from a recovering state the result is the upright arrangement. |
| Character.FirstPersonCharacter.ResetCharacterPostFall | Source/FirstPerson/FirstPersonCharacter.cpp:164-183 | The new state is PostFallReset of the old; the proxy is dereferenced unchecked. |
| Character.RecoveryMoveFinished | Source/FirstPerson/FirstPersonCharacter.cpp:232-237 | Completing the latent move clears it and runs the reset in every case: camera at rest on the main capsule, main capsule "Pawn", proxy attached at the actor's location with "NoCollision", its simulation, the flag, location, touch and use count unchanged; upright if the character was recovering. |
| Character.FirstPersonCharacter.FinishRecoveryMove | Source/FirstPerson/FirstPersonCharacter.cpp:232-237 | The engine completing the move and calling ResetCharacterPostFall. |
| Character.TouchBegan | Source/FirstPerson/FirstPersonCharacter.cpp:96-110 | While pressed nothing changes; otherwise the press, finger and location are recorded with moved cleared, and the primary action fires exactly when the finger equals the recorded one and moved was false. |
| Character.FirstPersonCharacter.BeginTouch | Source/FirstPerson/FirstPersonCharacter.cpp:96-110 | The new state is TouchBegan of the old; firing calls OnPrimaryAction. |
| Character.FirstPersonCharacter.OnPrimaryAction | Source/FirstPerson/FirstPersonCharacter.cpp:90-94 | Broadcasts OnUseItem once (the use count grows by one) and changes nothing else. |
| Character.TouchEnded | Source/FirstPerson/FirstPersonCharacter.cpp:112-119 | Only the pressed flag is cleared; finger and location stay recorded. |
| Character.FirstPersonCharacter.EndTouch | Source/FirstPerson/FirstPersonCharacter.cpp:112-119 | The new state is TouchEnded of the old. |
| CharacterProperties.RunKeepsCoherent | Source/FirstPerson/FirstPersonCharacter.cpp:164-239 | Over any sequence of hits, FallOver inputs, move completions, physics moves and touches, the coherence invariant holds. The camera is on the main capsule exactly when the proxy is attached; with it go the rest offset, control rotation, HMD lock and the "Pawn" main capsule. The proxy simulates exactly while fallen, and an attached proxy that does not simulate sits at the actor's location. When neither fallen nor recovering the character is upright. |
| CharacterProperties.CameraOnCapsuleOrProxy | Source/FirstPerson/FirstPersonCharacter.cpp:168-170 | After construction and any events, the camera is attached to exactly one of main capsule and proxy, and to the proxy only while the proxy is detached. |
| CharacterProperties.FallenIffProxySimulates | Source/FirstPerson/FirstPersonCharacter.cpp:206-237 | After construction and any events, fallen holds exactly when the proxy simulates, and a pending move is always the 0.5 one. |
| CharacterProperties.FallOverIdempotent | Source/FirstPerson/FirstPersonCharacter.cpp:206 | A second FallOver changes nothing. |
| CharacterProperties.ToggleIsGetBackUpWhenFallen | Source/FirstPerson/FirstPersonCharacter.cpp:185-193 | ToggleFallOver equals GetBackUp when fallen and is the identity when upright. |
| CharacterProperties.KnockdownRoundTrip | Source/FirstPerson/FirstPersonCharacter.cpp:164-239 | From upright: hit, proxy tumbling to x, FallOver input, move completion give back the upright arrangement at x; only the location and the proxy's impulse log differ from the start. |
| CharacterProperties.CameraWaitsForRecoveryMove | Source/FirstPerson/FirstPersonCharacter.cpp:226-237 | After getting up the flag is clear but the camera is still on the proxy with a 0.5 move pending. |
| CharacterProperties.HitDuringRecoveryMove | Source/FirstPerson/FirstPersonCharacter.cpp:164-237 | A hit during the pending recovery move ragdolls the character again; the move still completes and resets, leaving it fallen with the camera on the main capsule and the proxy attached yet simulating; the physics still moves that attached proxy, and one more FallOver input and move make the character upright where the proxy came to rest. |
| CharacterProperties.TapFiresOnSameFinger | Source/FirstPerson/FirstPersonCharacter.cpp:96-110 | In a reachable state a press while pressed is ignored; otherwise the primary action fires exactly when the same finger as last time touches. |
| CharacterProperties.RepeatedTapFires | Source/FirstPerson/FirstPersonCharacter.cpp:96-119 | After any events, release, press and release with one finger followed by another press with it always fires the primary action. |
| EnemyAI.BeganPlay | Source/FirstPerson/WraithAIController.cpp:9-15 | RunBehaviorTree is called before the base BeginPlay; with an asset configured the brain is a running behaviour tree, without one the brain is untouched. |
| EnemyAI.WraithAIController.BeginPlay | Source/FirstPerson/WraithAIController.cpp:9-15 | The new state is BeganPlay of the old. |
| EnemyAI.TreeStopped | Source/FirstPerson/WraithAIController.cpp:54-59 | A behaviour-tree brain is stopped with one StopTree call; any other brain sees no call and no change. |
| EnemyAI.WraithAIController.StopBehaviourTree | Source/FirstPerson/WraithAIController.cpp:54-59 | The new state is TreeStopped of the old. |
| EnemyAI.TreeRestarted | Source/FirstPerson/WraithAIController.cpp:61-66 | A behaviour-tree brain is running again after one RestartTree call; any other brain sees no call and no change. |
| EnemyAI.WraithAIController.RestartBehaviourTree | Source/FirstPerson/WraithAIController.cpp:61-66 | The new state is TreeRestarted of the old. |
| EnemyAI.StopThenRestartResumes | Source/FirstPerson/WraithAIController.cpp:54-66 | Stop then restart leaves a tree brain running with exactly the two calls logged, and leaves any other brain untouched. |
| EnemyAI.WraithAIController.FindAnEnemy | Source/FirstPerson/WraithAIController.cpp:17 | Changes nothing. |
| EnemyAI.WraithAIController.AttackEnemy | Source/FirstPerson/WraithAIController.cpp:52 | Changes nothing. |
| Enemy.Constructed | Source/FirstPerson/Wraith.cpp:15-17 | A new Wraith is not fallen and has no timer armed; its components are as given. |
| Enemy.Wraith.constructor | Source/FirstPerson/Wraith.cpp:15-17 | The new object's state is the constructed one. |
| Enemy.HitWithBall | Source/FirstPerson/Wraith.cpp:120-147 | Afterwards the Wraith is fallen and the mesh's impulse log has grown by exactly this impulse. While already fallen that is the only change, so no timer is re-armed. From upright it also becomes ragdolled: capsule NoCollision and ignoring all; mesh QueryAndPhysics, simulating, blending; weapon_r hidden; movement stopped, disabled, tick off. The tree is stopped and the one timer (rate 1.0, not looping, first delay 2.0) armed. |
| Enemy.Wraith.OnHitWithBall | Source/FirstPerson/Wraith.cpp:120-147 | Makes the field updates in the source's order; the new state (controller included) is HitWithBall of the old. |
| Enemy.GotBackUp | Source/FirstPerson/Wraith.cpp:149-177 | While upright nothing changes. While fallen, the actor moves to the mesh. The capsule becomes QueryAndPhysics, blocking all, "Pawn". The mesh becomes NoCollision, not simulating, not blending, weapon_r shown. The movement tick comes back on with the mode untouched. The tree restarts, the flag clears and the timer slot empties. |
| Enemy.Wraith.GetBackUp | Source/FirstPerson/Wraith.cpp:149-177 | The new state (controller included) is GotBackUp of the old. |
| Enemy.GetUpTimerFired | Source/FirstPerson/Wraith.cpp:143 | The armed timer firing leaves the Wraith up with no timer armed. |
| Enemy.Wraith.FireGetUpTimer | Source/FirstPerson/Wraith.cpp:143 | The engine firing the timer and calling GetBackUp. |
| EnemyProperties.RunKeepsCoherent | Source/FirstPerson/Wraith.cpp:120-177 | Over any sequence of hits, timer firings, direct GetBackUp calls and physics moves: the timer slot holds the one recovery timer exactly while fallen; a fallen Wraith is ragdolled; its behaviour tree, if any, is stopped. |
| EnemyProperties.OneTimerExactlyWhileDown | Source/FirstPerson/Wraith.cpp:122-143 | After construction and any events, a timer is armed exactly while fallen and is the 2.0 one-shot. |
| EnemyProperties.HitsWhileDownOnlyAccumulate | Source/FirstPerson/Wraith.cpp:122-146 | Any number of hits on a fallen Wraith only append their impulses to the mesh's log. |
| EnemyProperties.KnockdownRoundTrip | Source/FirstPerson/Wraith.cpp:120-177 | From standing: hit, mesh tumbling to x and timer firing give back the standing arrangement at x. Every field is restored other than the movement (stopped, mode disabled), the mesh's impulse log (grown by the hit) and the controller (StopTree and RestartTree logged, a tree brain left running). |
| EnemyProperties.FirstRecoveryStands | Source/FirstPerson/Wraith.cpp:156-166 | Whatever components a Wraith was built with, a hit and the timer firing leave it standing with a QueryAndPhysics, block-all "Pawn" capsule and a non-colliding mesh: the constructed settings are overwritten, not restored, and the movement mode stays disabled. |
| EnemyProperties.MovementStaysDisabled | Source/FirstPerson/Wraith.cpp:135-166 | Once disabled, the movement mode stays disabled through any events. |
| EnemyProperties.FirstKnockdownDisablesForGood | Source/FirstPerson/Wraith.cpp:135-166 | After a first knockdown, the movement mode is disabled forever, whatever follows. |
| EnemyProperties.TreePausedAcrossKnockdown | Source/FirstPerson/Wraith.cpp:137-141 | With a behaviour-tree brain the knockdown stops the tree, recovery restarts it, and exactly StopTree then RestartTree are logged. With no WraithAIController or another brain, nothing changes. |
| EnemyProperties.HitThenTimerScenario | Source/FirstPerson/Wraith.cpp:120-177 | A standing Wraith hit by (0, 0, 500) at the origin is down with its capsule off, its mesh simulating, its weapon hidden and the 2.0 timer armed. When the timer fires it is up with its capsule colliding. |
| Projectile.FirstPersonProjectile.constructor | Source/FirstPerson/FirstPersonProjectile.cpp:27-33 | Speed 3000, bouncing, lifespan 3.0, not destroyed. |
| Projectile.FirstPersonProjectile.OnHit | Source/FirstPerson/FirstPersonProjectile.cpp:36-57 | A struck Wraith gets OnHitWithBall with the ball's velocity and location. A struck player is not told. The ball is destroyed exactly when the actor is non-null and not the ball, the component is non-null, and the component simulates after the dispatch; the push of velocity times 20 lands on that component first. A standing Wraith hit on its mesh always destroys the ball. |
| Projectile.WraithMeshHitDestroys | Source/FirstPerson/FirstPersonProjectile.cpp:44-51 | A hit on a Wraith's mesh destroys the ball exactly when the Wraith was standing or its mesh already simulated. |

## Left out

- Input binding and movement glue (`SetupPlayerInputComponent`, `MoveForward`, `MoveRight`, `TurnAtRate`, `LookUpAtRate`, the Wraith's `TouchStarted`/`TouchStopped`, `EnableTouchscreenMovement`): engine wrappers and floating-point rate arithmetic.
- `MoveCloseToEnemy`: pathfinding and world queries are engine calls, and nothing calls it.
- On-screen debug messages; the unguarded `GEngine` dereference in the Wraith's `GetBackUp` and the `check(GEngine)` assertion in the controller's `BeginPlay` are taken to succeed.
- The `check()` attachment assertions are taken to succeed, so an attach always sets the new parent.
- Rotations, component sizes, offsets and the movement tuning constants: the camera rest offset is a named placement, and rotations are not tracked.
- Physics: the simulation is reduced to moving a simulating body to a given location. Impulses are a log of requests; the engine's ignoring of impulses on bodies that do not simulate is not modelled. `WakeAllRigidBodies` is not modelled.
- The side effects of a collision profile name on the enabled mode and channel responses: each of the three fields holds what the code last wrote to it.
- The latent move's interpolation and the timer manager's clock: both are reduced to a pending slot with its duration constant and an explicit completion event.
- Possession changes: a Wraith's controller is fixed at construction.
- Projectile.FirstPersonProjectile.OnHit: vectors are reals, so the float rounding of `velocity * 20` is not modelled.
