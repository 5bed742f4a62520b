/** What holds of the Wraith across any sequence of calls: the recovery timer
    is armed exactly while the Wraith is down, and only one; repeated hits while
    down only add impulses; from the standing arrangement a knockdown followed
    by recovery restores it, apart from the impulse log, the controller's
    stop and restart, and the movement mode, which stays disabled for good. */
module EnemyProperties {
  import opened Components
  import opened EnemyAI
  import opened Enemy

  /** The calls that reach the knockdown code: a ball hit, the recovery timer
      firing, GetBackUp called directly, and the physics moving the mesh. */
  datatype WraithEvent =
    | BallHit(impulse: Vec, at: Vec)
    | GetUpTimerFires
    | GetBackUpCalled
    | MeshMovedByPhysics(to: Vec)

  /** One event. The timer manager only fires an armed timer and the physics
      only moves a simulating mesh; otherwise those events change nothing. */
  function Step(w: WraithState, e: WraithEvent): WraithState {
    match e
    case BallHit(impulse, at) => HitWithBall(w, impulse, at)
    case GetUpTimerFires => if w.getUpTimer.Some? then GetUpTimerFired(w) else w
    case GetBackUpCalled => GotBackUp(w)
    case MeshMovedByPhysics(to) => if w.mesh.simulating then MeshMoved(w, to) else w
  }

  function Run(w: WraithState, es: seq<WraithEvent>): WraithState
    decreases |es|
  {
    if es == [] then w else Run(Step(w, es[0]), es[1..])
  }

  /** The invariant of every reachable state: the timer slot holds the one
      recovery timer exactly while the Wraith is down, a downed Wraith is
      ragdolled, and its behaviour tree, if it has one, is stopped. */
  predicate Coherent(w: WraithState) {
    && w.getUpTimer == (if w.fallen then Some(GetUpTimer) else None)
    && (w.fallen ==> Ragdolled(w))
    && (w.fallen && w.controller.Some? && w.controller.value.brain.TreeComponent? ==>
          !w.controller.value.brain.running)
  }

  lemma ConstructedIsCoherent(at: Vec, capsule: CapsuleCollision, mesh: SkeletalMesh, movement: Movement,
                              controller: Option<ControllerState>)
    ensures Coherent(Constructed(at, capsule, mesh, movement, controller))
  {
  }

  lemma StepKeepsCoherent(w: WraithState, e: WraithEvent)
    requires Coherent(w)
    ensures Coherent(Step(w, e))
  {
  }

  lemma {:induction false} RunKeepsCoherent(w: WraithState, es: seq<WraithEvent>)
    requires Coherent(w)
    ensures Coherent(Run(w, es))
    decreases |es|
  {
    if es != [] {
      StepKeepsCoherent(w, es[0]);
      RunKeepsCoherent(Step(w, es[0]), es[1..]);
    }
  }

  /** After construction and any sequence of calls, the timer slot holds the
      single non-looping 2-second recovery timer if and only if the Wraith is
      down: two hits before recovery never leave two timers behind. */
  lemma OneTimerExactlyWhileDown(at: Vec, capsule: CapsuleCollision, mesh: SkeletalMesh, movement: Movement,
                                 controller: Option<ControllerState>, es: seq<WraithEvent>)
    ensures var w := Run(Constructed(at, capsule, mesh, movement, controller), es);
      && (w.fallen <==> w.getUpTimer.Some?)
      && (w.getUpTimer.Some? ==> w.getUpTimer.value == Timer(1.0, false, 2.0))
  {
    ConstructedIsCoherent(at, capsule, mesh, movement, controller);
    RunKeepsCoherent(Constructed(at, capsule, mesh, movement, controller), es);
  }

  function Hits(hits: seq<Impulse>): seq<WraithEvent> {
    seq(|hits|, i requires 0 <= i < |hits| => BallHit(hits[i].impulse, hits[i].at))
  }

  /** Any number of hits on a downed Wraith neither re-arm the timer nor touch
      anything but the mesh's impulse log, which grows by exactly those hits. */
  lemma {:induction false} HitsWhileDownOnlyAccumulate(w: WraithState, hits: seq<Impulse>)
    requires w.fallen
    ensures Run(w, Hits(hits)) == w.(mesh := w.mesh.(impulses := w.mesh.impulses + hits))
    decreases |hits|
  {
    if hits == [] {
      assert w.mesh.impulses + hits == w.mesh.impulses;
    } else {
      var w1 := Step(w, Hits(hits)[0]);
      assert Hits(hits)[1..] == Hits(hits[1..]);
      HitsWhileDownOnlyAccumulate(w1, hits[1..]);
      assert w.mesh.impulses + [hits[0]] + hits[1..] == w.mesh.impulses + hits;
    }
  }

  /** From the standing arrangement, a hit, the mesh tumbling to `x` and the
      timer firing bring back the standing arrangement at `x`. Every field is
      restored other than the movement, which stays stopped with its mode
      disabled because GetBackUp never re-enables it; the mesh's impulse log,
      grown by the hit; and the controller, which logged StopTree and
      RestartTree and whose tree brain, if any, is left running. */
  lemma KnockdownRoundTrip(w: WraithState, impulse: Vec, at: Vec, x: Vec)
    requires !w.fallen && w.getUpTimer.None? && Standing(w)
    ensures var r := Run(w, [BallHit(impulse, at), MeshMovedByPhysics(x), GetUpTimerFires]);
      && Standing(r)
      && r == w.(location := x,
                 mesh := w.mesh.(location := x, impulses := w.mesh.impulses + [Impulse(impulse, at)]),
                 movement := Movement(ZeroVector, Disabled, true),
                 controller := ControllerRestarted(ControllerStopped(w.controller)))
  {
    var w1 := Step(w, BallHit(impulse, at));
    var w2 := Step(w1, MeshMovedByPhysics(x));
    var w3 := Step(w2, GetUpTimerFires);
    assert Run(w2, [GetUpTimerFires]) == w3;
    assert Run(w1, [MeshMovedByPhysics(x), GetUpTimerFires]) == Run(w2, [GetUpTimerFires]);
    assert w.mesh.hiddenBones + {WeaponBone} - {WeaponBone} == w.mesh.hiddenBones;
  }

  /** Whatever components a Wraith was built with, its first recovery leaves
      the standing arrangement GetBackUp writes: the constructed capsule
      responses and mesh collision are not restored but overwritten. */
  lemma FirstRecoveryStands(at: Vec, capsule: CapsuleCollision, mesh: SkeletalMesh, movement: Movement,
                            controller: Option<ControllerState>, impulse: Vec, hitAt: Vec)
    ensures var r := Step(Step(Constructed(at, capsule, mesh, movement, controller), BallHit(impulse, hitAt)),
                          GetUpTimerFires);
      && Standing(r) && !r.fallen && r.getUpTimer.None?
      && r.capsule == CapsuleCollision(QueryAndPhysics, BlockAll, PawnProfile)
      && r.mesh.enabled == NoCollision && r.movement.mode == Disabled
  {
  }

  /** Nothing re-enables movement: once disabled, the mode stays disabled
      through any sequence of calls. */
  lemma {:induction false} MovementStaysDisabled(w: WraithState, es: seq<WraithEvent>)
    requires w.movement.mode == Disabled
    ensures Run(w, es).movement.mode == Disabled
    decreases |es|
  {
    if es != [] {
      MovementStaysDisabled(Step(w, es[0]), es[1..]);
    }
  }

  /** So after the first knockdown the Wraith's movement mode is disabled
      forever, however often it gets back up. */
  lemma FirstKnockdownDisablesForGood(w: WraithState, impulse: Vec, at: Vec, es: seq<WraithEvent>)
    requires !w.fallen
    ensures Run(Step(w, BallHit(impulse, at)), es).movement.mode == Disabled
  {
    MovementStaysDisabled(Step(w, BallHit(impulse, at)), es);
  }

  /** The controller sees a StopTree on the knockdown and a RestartTree on
      recovery only when it is a WraithAIController with a behaviour-tree
      brain; its tree is then running again. Otherwise it sees no call. */
  lemma TreePausedAcrossKnockdown(w: WraithState, impulse: Vec, at: Vec)
    requires !w.fallen
    ensures var down := HitWithBall(w, impulse, at);
      && (w.controller.Some? && w.controller.value.brain.TreeComponent? ==>
            && down.controller.value.brain == TreeComponent(false)
            && GotBackUp(down).controller.value.brain == TreeComponent(true)
            && GotBackUp(down).controller.value.calls == w.controller.value.calls + [StopTree, RestartTree])
      && (w.controller.None? || !w.controller.value.brain.TreeComponent? ==>
            GotBackUp(down).controller == w.controller)
  {
    if w.controller.Some? {
      StopThenRestartResumes(w.controller.value);
    }
  }

  /** A Wraith hit by (0, 0, 500) at the origin is down with its capsule
      off, its mesh simulating, its weapon hidden and the 2-second timer armed;
      when the timer fires it is up again with its capsule colliding. */
  lemma HitThenTimerScenario(w: WraithState)
    requires Coherent(w) && !w.fallen
    ensures var down := Step(w, BallHit(Vec(0.0, 0.0, 500.0), ZeroVector));
      && down.fallen && down.capsule.enabled == NoCollision && down.mesh.simulating
      && WeaponBone in down.mesh.hiddenBones && down.getUpTimer == Some(Timer(1.0, false, 2.0))
      && var up := Step(down, GetUpTimerFires);
         !up.fallen && up.capsule.enabled == QueryAndPhysics && up.getUpTimer.None?
  {
  }
}
