/** Engine-side values that the gameplay code writes or passes along.
    Vectors, impulses and locations are carried around but never computed
    with, except for the projectile's impulse scaling. */
module Components {

  datatype Option<T> = None | Some(value: T)

  /** A world-space vector: a location, a velocity or an impulse. */
  datatype Vec = Vec(x: real, y: real, z: real)

  const ZeroVector := Vec(0.0, 0.0, 0.0)

  /** Component-wise scaling, as `FVector * float`. */
  function Scale(v: Vec, k: real): Vec {
    Vec(v.x * k, v.y * k, v.z * k)
  }

  /** An impulse requested on a body at a world location (AddImpulseAtLocation). */
  datatype Impulse = Impulse(impulse: Vec, at: Vec)

  /** The component a scene component is attached to. */
  datatype AttachParent = MainCapsule | Proxy | Detached

  /** ECollisionEnabled. */
  datatype CollisionEnabled = NoCollision | QueryOnly | PhysicsOnly | QueryAndPhysics

  /** What SetCollisionResponseToAllChannels last wrote, or the profile's own responses. */
  datatype Response = ProfileResponses | IgnoreAll | BlockAll

  /** Collision profile names the code writes. */
  const NoCollisionProfile: string := "NoCollision"
  const PawnProfile: string := "Pawn"
  const RagdollProfile: string := "Ragdoll"
}
