/** The Wraith's AI controller (AWraithAIController): it starts its configured
    behaviour tree when play begins and lets the Wraith stop and restart that
    tree around a knockdown. The tree itself runs inside the engine; the model
    keeps only whether it is running and the calls the controller makes. */
module EnemyAI {

  /** The controller's brain component, after the `Cast<UBehaviorTreeComponent>`:
      absent, some other kind of brain, or a behaviour-tree component. */
  datatype Brain = NoBrain | OtherBrain | TreeComponent(running: bool)

  /** Calls the controller makes into the engine, in order. */
  datatype EngineCall = RunBehaviorTree | BaseBeginPlay | StopTree | RestartTree

  /** `hasTreeAsset` is whether the `BehaviourTree` property is set. */
  datatype ControllerState = ControllerState(hasTreeAsset: bool, brain: Brain, calls: seq<EngineCall>)

  /** BeginPlay: RunBehaviorTree on the configured asset, then the base class's
      BeginPlay. The engine's RunBehaviorTree does nothing for a missing asset;
      otherwise it reuses or creates a behaviour-tree brain and starts it. */
  function BeganPlay(c: ControllerState): (r: ControllerState)
    ensures r.calls == c.calls + [RunBehaviorTree, BaseBeginPlay]
    ensures r.hasTreeAsset == c.hasTreeAsset
    ensures c.hasTreeAsset ==> r.brain == TreeComponent(true)
    ensures !c.hasTreeAsset ==> r.brain == c.brain
  {
    var brain := if c.hasTreeAsset then TreeComponent(true) else c.brain;
    c.(brain := brain, calls := c.calls + [RunBehaviorTree, BaseBeginPlay])
  }

  /** StopBehaviourTree: StopTree on a behaviour-tree brain, nothing otherwise. */
  function TreeStopped(c: ControllerState): (r: ControllerState)
    ensures c.brain.TreeComponent? ==> r.brain == TreeComponent(false) && r.calls == c.calls + [StopTree]
    ensures !c.brain.TreeComponent? ==> r == c
    ensures r.hasTreeAsset == c.hasTreeAsset && r.brain.TreeComponent? == c.brain.TreeComponent?
  {
    if c.brain.TreeComponent? then c.(brain := TreeComponent(false), calls := c.calls + [StopTree]) else c
  }

  /** RestartBehaviourTree: RestartTree on a behaviour-tree brain, nothing otherwise. */
  function TreeRestarted(c: ControllerState): (r: ControllerState)
    ensures c.brain.TreeComponent? ==> r.brain == TreeComponent(true) && r.calls == c.calls + [RestartTree]
    ensures !c.brain.TreeComponent? ==> r == c
    ensures r.hasTreeAsset == c.hasTreeAsset && r.brain.TreeComponent? == c.brain.TreeComponent?
  {
    if c.brain.TreeComponent? then c.(brain := TreeComponent(true), calls := c.calls + [RestartTree]) else c
  }

  /** Stopping and then restarting leaves the brain as BeginPlay left it:
      a tree brain is running again, any other brain is untouched and saw no call. */
  lemma StopThenRestartResumes(c: ControllerState)
    ensures c.brain.TreeComponent? ==> TreeRestarted(TreeStopped(c)) == c.(brain := TreeComponent(true), calls := c.calls + [StopTree, RestartTree])
    ensures !c.brain.TreeComponent? ==> TreeRestarted(TreeStopped(c)) == c
  {
    if c.brain.TreeComponent? {
      assert c.calls + [StopTree] + [RestartTree] == c.calls + [StopTree, RestartTree];
    }
  }

  class WraithAIController {
    /** Whether the editor-set `BehaviourTree` property names an asset. */
    const hasTreeAsset: bool
    var brain: Brain
    var calls: seq<EngineCall>

    function State(): ControllerState
      reads this
    {
      ControllerState(hasTreeAsset, brain, calls)
    }

    /** A controller as spawned: no brain component yet, no calls made. */
    constructor (treeAsset: bool)
      ensures State() == ControllerState(treeAsset, NoBrain, [])
    {
      hasTreeAsset := treeAsset;
      brain := NoBrain;
      calls := [];
    }

    method BeginPlay()
      modifies this
      ensures State() == BeganPlay(old(State()))
    {
      calls := calls + [RunBehaviorTree];
      if hasTreeAsset {
        brain := TreeComponent(true);
      }
      calls := calls + [BaseBeginPlay];
    }

    /** Left empty in the source. */
    method FindAnEnemy()
      ensures unchanged(this)
    {
    }

    /** Left empty in the source. */
    method AttackEnemy()
      ensures unchanged(this)
    {
    }

    method StopBehaviourTree()
      modifies this
      ensures State() == TreeStopped(old(State()))
    {
      if brain.TreeComponent? {
        calls := calls + [StopTree];
        brain := TreeComponent(false);
      }
    }

    method RestartBehaviourTree()
      modifies this
      ensures State() == TreeRestarted(old(State()))
    {
      if brain.TreeComponent? {
        calls := calls + [RestartTree];
        brain := TreeComponent(true);
      }
    }
  }
}
