/** What holds of the player character across any sequence of calls: the
    camera always hangs off the main capsule or the proxy, the fallen flag and
    the proxy's simulation go together, and a fall followed by a full recovery
    restores the constructor's arrangement. */
module CharacterProperties {
  import opened Components
  import opened Character

  /** The calls that reach the knockdown and touch code: OnHitWithBall called
      from outside (the ball's own call to it is commented out, and so is
      ToggleFallOver's fall branch, so nothing in this code makes it), the
      FallOver input (bound to ToggleFallOver), the engine completing the latent
      recovery move, the physics moving the ragdoll proxy, and touch input. */
  datatype PlayerEvent =
    | BallHit(impulse: Vec, at: Vec)
    | FallOverPressed
    | RecoveryMoveCompleted
    | ProxyMovedByPhysics(to: Vec)
    | TouchPressed(finger: nat, at: Vec)
    | TouchReleased(finger: nat, at: Vec)

  /** One event. The engine only completes a move that is pending and only
      moves a proxy that simulates; any other event in those states changes
      nothing. */
  function Step(s: PlayerState, e: PlayerEvent): PlayerState {
    match e
    case BallHit(impulse, at) => if s.proxy.Some? then HitWithBall(s, impulse, at) else s
    case FallOverPressed => Toggled(s)
    case RecoveryMoveCompleted => if s.proxy.Some? && s.pendingMove.Some? then RecoveryMoveFinished(s) else s
    case ProxyMovedByPhysics(to) => if PhysicsMovesProxy(s) then ProxyMoved(s, to) else s
    case TouchPressed(finger, at) => TouchBegan(s, finger, at)
    case TouchReleased(_, _) => TouchEnded(s)
  }

  function Run(s: PlayerState, es: seq<PlayerEvent>): PlayerState
    decreases |es|
  {
    if es == [] then s else Run(Step(s, es[0]), es[1..])
  }

  /** The invariant of every reachable state. The camera rides on the main
      capsule exactly when the proxy is attached to it, and then sits at its rest
      offset with control rotation and HMD lock on while the main capsule
      collides as "Pawn"; otherwise it rides on the detached proxy with all of
      those off. The proxy simulates exactly while fallen. When neither fallen
      nor recovering, the character is upright. The touch is never marked as moved. */
  predicate Coherent(s: PlayerState) {
    && s.proxy.Some?
    && (s.camera.parent == MainCapsule || s.camera.parent == Proxy)
    && (s.proxy.value.parent == MainCapsule || s.proxy.value.parent == Detached)
    && (s.camera.parent == MainCapsule <==> s.proxy.value.parent == MainCapsule)
    && (s.camera.parent == MainCapsule <==> s.camera.placement == RestOffset)
    && (s.camera.parent == MainCapsule <==> s.camera.usePawnControlRotation)
    && (s.camera.parent == MainCapsule <==> s.camera.lockToHmd)
    && s.capsuleProfile == (if s.camera.parent == MainCapsule then PawnProfile else NoCollisionProfile)
    && (s.fallen <==> s.proxy.value.simulating)
    && (s.proxy.value.parent == MainCapsule && !s.proxy.value.simulating ==> s.proxy.value.location == s.location)
    && (s.pendingMove.Some? ==> s.pendingMove.value.duration == RecoveryMoveDuration)
    && (!s.fallen && s.pendingMove.None? ==> Upright(s))
    && !s.touch.moved
  }

  lemma ConstructedIsCoherent(at: Vec)
    ensures Coherent(Constructed(at))
  {
  }

  lemma StepKeepsCoherent(s: PlayerState, e: PlayerEvent)
    requires Coherent(s)
    ensures Coherent(Step(s, e))
  {
  }

  lemma {:induction false} RunKeepsCoherent(s: PlayerState, es: seq<PlayerEvent>)
    requires Coherent(s)
    ensures Coherent(Run(s, es))
    decreases |es|
  {
    if es != [] {
      StepKeepsCoherent(s, es[0]);
      RunKeepsCoherent(Step(s, es[0]), es[1..]);
    }
  }

  /** Whatever happens after construction, the camera is attached to exactly
      one of the main capsule and the proxy, and it is on the proxy only while
      the proxy is detached. */
  lemma CameraOnCapsuleOrProxy(at: Vec, es: seq<PlayerEvent>)
    ensures var r := Run(Constructed(at), es);
      && (r.camera.parent == MainCapsule || r.camera.parent == Proxy)
      && (r.camera.parent == Proxy ==> r.proxy.Some? && r.proxy.value.parent == Detached)
  {
    ConstructedIsCoherent(at);
    RunKeepsCoherent(Constructed(at), es);
  }

  /** Whatever happens after construction, being fallen and the proxy
      simulating go together, and any pending move is the 0.5-second one. */
  lemma FallenIffProxySimulates(at: Vec, es: seq<PlayerEvent>)
    ensures var r := Run(Constructed(at), es);
      && r.proxy.Some? && (r.fallen <==> r.proxy.value.simulating)
      && (r.pendingMove.Some? ==> r.pendingMove.value.duration == 0.5)
  {
    ConstructedIsCoherent(at);
    RunKeepsCoherent(Constructed(at), es);
  }

  /** FallOver while fallen, or without a proxy, changes nothing; so FallOver
      is idempotent. */
  lemma FallOverIdempotent(s: PlayerState)
    ensures FellOver(FellOver(s)) == FellOver(s)
  {
  }

  /** ToggleFallOver is GetBackUp when fallen and nothing when upright. */
  lemma ToggleIsGetBackUpWhenFallen(s: PlayerState)
    ensures s.fallen ==> Toggled(s) == GotBackUp(s)
    ensures !s.fallen ==> Toggled(s) == s && GotBackUp(s) == s
  {
  }

  /** From the upright arrangement, a hit, the proxy tumbling to `x`, the
      FallOver input and the end of the recovery move bring back the upright
      arrangement at `x`. Only the actor's location and the proxy's impulse log
      differ from the start. */
  lemma KnockdownRoundTrip(s: PlayerState, impulse: Vec, at: Vec, x: Vec)
    requires Upright(s)
    ensures var r := Run(s, [BallHit(impulse, at), ProxyMovedByPhysics(x), FallOverPressed, RecoveryMoveCompleted]);
      && Upright(r)
      && r == s.(location := x, proxy := Some(s.proxy.value.(location := x, impulses := s.proxy.value.impulses + [Impulse(impulse, at)])))
  {
    var s1 := Step(s, BallHit(impulse, at));
    var s2 := Step(s1, ProxyMovedByPhysics(x));
    var s3 := Step(s2, FallOverPressed);
    var s4 := Step(s3, RecoveryMoveCompleted);
    assert Run(s3, [RecoveryMoveCompleted]) == s4;
    assert Run(s2, [FallOverPressed, RecoveryMoveCompleted]) == Run(s3, [RecoveryMoveCompleted]);
    assert Run(s1, [ProxyMovedByPhysics(x), FallOverPressed, RecoveryMoveCompleted])
        == Run(s2, [FallOverPressed, RecoveryMoveCompleted]);
  }

  /** Getting up clears the fallen flag at once, but the camera stays on the
      proxy until the recovery move completes. */
  lemma CameraWaitsForRecoveryMove(s: PlayerState, impulse: Vec, at: Vec)
    requires Upright(s)
    ensures var r := Step(Step(s, BallHit(impulse, at)), FallOverPressed);
      && !r.fallen && r.camera.parent == Proxy && r.pendingMove.Some?
      && r.pendingMove.value.duration == RecoveryMoveDuration
  {
  }

  /** A hit that lands while the recovery move is still pending knocks the
      character down again, but the pending move still completes and runs
      ResetCharacterPostFall: the character is then fallen, with its proxy
      simulating yet re-attached and the camera back on the main capsule. The
      physics still moves that proxy, and one more FallOver input and recovery
      move bring the character upright where the proxy came to rest. */
  lemma HitDuringRecoveryMove(s: PlayerState, i1: Vec, a1: Vec, i2: Vec, a2: Vec, x: Vec)
    requires Upright(s)
    ensures var r := Step(Step(Step(Step(s, BallHit(i1, a1)), FallOverPressed), BallHit(i2, a2)), RecoveryMoveCompleted);
      && r.fallen && r.camera.parent == MainCapsule
      && r.proxy.value.parent == MainCapsule && r.proxy.value.simulating
      && Upright(Step(Step(r, FallOverPressed), RecoveryMoveCompleted))
      && var up := Step(Step(Step(r, ProxyMovedByPhysics(x)), FallOverPressed), RecoveryMoveCompleted);
         Upright(up) && up.location == x
  {
  }

  /** A touch press while another is held is ignored; otherwise, since nothing
      ever marks the touch as moved, the primary action fires exactly when the
      same finger as the last press touches again. */
  lemma TapFiresOnSameFinger(s: PlayerState, finger: nat, at: Vec)
    requires Coherent(s)
    ensures s.touch.pressed ==> TouchBegan(s, finger, at) == s
    ensures !s.touch.pressed ==>
      (TouchBegan(s, finger, at).itemUses == s.itemUses + 1 <==> finger == s.touch.finger)
  {
  }

  /** Pressing and releasing a finger, then pressing the same finger again,
      always fires the primary action on the second press, wherever the
      character is in its knockdown cycle. */
  lemma {:induction false} RepeatedTapFires(at: Vec, es: seq<PlayerEvent>, finger: nat, where: Vec)
    ensures var s := Run(Constructed(at), es + [TouchReleased(finger, where), TouchPressed(finger, where), TouchReleased(finger, where)]);
      Step(s, TouchPressed(finger, where)).itemUses == s.itemUses + 1
  {
    var s0 := Run(Constructed(at), es);
    ConstructedIsCoherent(at);
    RunKeepsCoherent(Constructed(at), es);
    RunAppend(Constructed(at), es, [TouchReleased(finger, where), TouchPressed(finger, where), TouchReleased(finger, where)]);
    var s1 := Step(s0, TouchReleased(finger, where));
    var s2 := Step(s1, TouchPressed(finger, where));
    var s3 := Step(s2, TouchReleased(finger, where));
    assert Run(s2, [TouchReleased(finger, where)]) == s3;
    assert Run(s1, [TouchPressed(finger, where), TouchReleased(finger, where)]) == Run(s2, [TouchReleased(finger, where)]);
  }

  lemma {:induction false} RunAppend(s: PlayerState, es: seq<PlayerEvent>, more: seq<PlayerEvent>)
    ensures Run(s, es + more) == Run(Run(s, es), more)
    decreases |es|
  {
    if es != [] {
      assert (es + more)[0] == es[0];
      assert (es + more)[1..] == es[1..] + more;
      RunAppend(Step(s, es[0]), es[1..], more);
      assert Run(s, es + more) == Run(Step(s, es[0]), es[1..] + more);
    } else {
      assert es + more == more;
    }
  }
}
