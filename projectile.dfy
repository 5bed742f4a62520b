/** The ball (AFirstPersonProjectile). On a hit it tells a struck Wraith it
    was hit with the ball; the call for the player character is commented out.
    Then, if the struck component simulates physics, it pushes that component
    and destroys itself; otherwise it bounces on until its lifespan ends. */
module Projectile {
  import opened Components
  import Character
  import Enemy

  /** A physics-simulated component of some other actor. */
  class PhysicsBody {
    var simulating: bool
    var impulses: seq<Impulse>

    constructor (simulating0: bool)
      ensures simulating == simulating0 && impulses == []
    {
      simulating := simulating0;
      impulses := [];
    }
  }

  /** The OtherActor of a hit, after the `Cast<>`s: null, the ball itself,
      the player character, a Wraith, or any other actor. */
  datatype ActorRef =
    | NullActor
    | SelfActor
    | PlayerActor(player: Character.FirstPersonCharacter)
    | WraithActor(wraith: Enemy.Wraith)
    | OtherActor

  /** The OtherComp of a hit: null, the struck character's capsule or
      skeletal mesh, the player's fall-over capsule, or some other body. */
  datatype ComponentRef =
    | NullComponent
    | ActorCapsule
    | ActorMesh
    | PlayerProxy
    | OtherComponent(body: PhysicsBody)

  /** The engine reports a component of the struck actor. */
  predicate Belongs(other: ActorRef, comp: ComponentRef) {
    match comp
    case ActorCapsule => other.PlayerActor? || other.WraithActor?
    case ActorMesh => other.PlayerActor? || other.WraithActor?
    case PlayerProxy => other.PlayerActor?
    case _ => true
  }

  const ImpulseScale: real := 20.0
  const LifeSpan: real := 3.0
  const Speed: real := 3000.0

  /** The objects a hit may change besides the ball. */
  function HitFrame(other: ActorRef, comp: ComponentRef): set<object> {
    (match other
     case PlayerActor(p) => {p}
     case WraithActor(w) => if w.controller == null then {w} else {w, w.controller}
     case _ => {})
    + (if comp.OtherComponent? then {comp.body} else {})
  }

  /** IsSimulatingPhysics on the struck component. The capsules and the
      player's first-person mesh are never set to simulate in this code. */
  function ComponentSimulating(other: ActorRef, comp: ComponentRef): bool
    reads HitFrame(other, comp)
  {
    match comp
    case ActorMesh => other.WraithActor? && other.wraith.mesh.simulating
    case PlayerProxy =>
      other.PlayerActor? && other.player.fallOverCapsule.Some? && other.player.fallOverCapsule.value.simulating
    case OtherComponent(b) => b.simulating
    case _ => false
  }

  /** The condition for pushing the struck component and destroying the ball:
      a present actor other than the ball, a present component, and that
      component simulating physics. */
  predicate DestroysOnHit(actorPresent: bool, actorIsSelf: bool, componentPresent: bool, simulating: bool) {
    actorPresent && !actorIsSelf && componentPresent && simulating
  }

  /** The dispatch to a Wraith runs before the simulation check, so hitting a
      Wraith's mesh destroys the ball exactly when that mesh simulates after
      the Wraith's own reaction: always if the Wraith was standing, since the
      hit ragdolls it. */
  lemma WraithMeshHitDestroys(w: Enemy.WraithState, velocity: Vec, at: Vec)
    ensures DestroysOnHit(true, false, true, Enemy.HitWithBall(w, velocity, at).mesh.simulating)
        <==> !w.fallen || w.mesh.simulating
  {
  }

  class FirstPersonProjectile {
    const initialLifeSpan: real
    const shouldBounce: bool
    const initialSpeed: real
    const maxSpeed: real
    var velocity: Vec
    var location: Vec
    var destroyed: bool

    constructor (at: Vec, velocity0: Vec)
      ensures initialLifeSpan == 3.0 && shouldBounce && initialSpeed == 3000.0 && maxSpeed == 3000.0
      ensures location == at && velocity == velocity0 && !destroyed
    {
      initialLifeSpan := LifeSpan;
      shouldBounce := true;
      initialSpeed := Speed;
      maxSpeed := Speed;
      location := at;
      velocity := velocity0;
      destroyed := false;
    }

    method OnHit(other: ActorRef, comp: ComponentRef)
      requires Belongs(other, comp)
      modifies this, HitFrame(other, comp)
      ensures velocity == old(velocity) && location == old(location)
      ensures var push := Impulse(Scale(velocity, ImpulseScale), location);
        var struck := DestroysOnHit(other != NullActor, other == SelfActor, comp != NullComponent,
                                    ComponentSimulating(other, comp));
        && destroyed == (old(destroyed) || struck)
        && (other.WraithActor? ==>
              var hit := Enemy.HitWithBall(old(other.wraith.State()), velocity, location);
              other.wraith.State() ==
                if struck && comp.ActorMesh? then hit.(mesh := hit.mesh.(impulses := hit.mesh.impulses + [push]))
                else hit)
        && (other.PlayerActor? ==>
              var was := old(other.player.State());
              other.player.State() ==
                if struck && comp.PlayerProxy? && was.proxy.Some? then was.(proxy := Some(was.proxy.value.(impulses := was.proxy.value.impulses + [push])))
                else was)
        && (comp.OtherComponent? ==>
              comp.body.simulating == old(comp.body.simulating)
              && comp.body.impulses == old(comp.body.impulses) + (if struck then [push] else []))
      ensures other.WraithActor? && comp.ActorMesh? && !old(other.wraith.hasFallenOver) ==> destroyed
    {
      // A struck player character is not told: that call is commented out.
      if other != NullActor && other.WraithActor? {
        other.wraith.OnHitWithBall(velocity, location);
      }

      var simulating := false;
      match comp {
        case ActorMesh =>
          simulating := other.WraithActor? && other.wraith.mesh.simulating;
        case PlayerProxy =>
          simulating := other.player.fallOverCapsule.Some? && other.player.fallOverCapsule.value.simulating;
        case OtherComponent(b) =>
          simulating := b.simulating;
        case _ =>
      }

      if other != NullActor && other != SelfActor && comp != NullComponent && simulating {
        var push := Impulse(Scale(velocity, ImpulseScale), location);
        match comp {
          case ActorMesh =>
            if other.WraithActor? {
              other.wraith.AddMeshImpulse(push);
            }
          case PlayerProxy =>
            other.player.AddProxyImpulse(push);
          case OtherComponent(b) =>
            b.impulses := b.impulses + [push];
          case _ =>
        }
        destroyed := true;
      }
    }
  }
}
