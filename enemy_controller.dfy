/**
 * One enemy in the scene: its loaded model, its state machine, and the
 * per-frame policy that turns the distance to the camera into state changes
 * (idle -> walk within 20 units, walk -> attack within 2, walk -> idle beyond
 * 20) and moves a walking enemy along +z at 1.5 units per second.
 */
module EnemyController {
  import opened Wrappers
  import opened SceneGraph
  import opened EnemyStateMachine
  import opened EnemyLoader

  const WalkSpeed: real := 1.5
  const DetectRange: real := 20.0
  const AttackRange: real := 2.0

  function Abs(x: real): real {
    if x < 0.0 then -x else x
  }

  /** The controller's choice in one tick: the enemy's new z and the transition it requests. */
  datatype Decision = Decision(z: real, request: Option<EnemyState>)

  /**
   * The policy, on the machine's view after its own update. The distance is
   * measured before a walking enemy moves; the move is the same whichever
   * side of the enemy the camera is on.
   */
  function Decide(v: MachineView, z: real, cameraZ: real, delta: real): (d: Decision)
    ensures v.dead || v.state == Attack || v.state == Death ==> d == Decision(z, None)
    ensures !v.dead && v.state == Idle ==>
      && d.z == z
      && (d.request == Some(Walk) <==> Abs(z - cameraZ) < DetectRange)
      && (d.request == None <==> Abs(z - cameraZ) >= DetectRange)
    ensures !v.dead && v.state == Walk ==>
      && d.z == z + WalkSpeed * delta
      && (d.request == Some(Attack) <==> Abs(z - cameraZ) < AttackRange)
      && (d.request == Some(Idle) <==> Abs(z - cameraZ) > DetectRange)
      && (d.request == None <==> AttackRange <= Abs(z - cameraZ) <= DetectRange)
  {
    if v.dead then Decision(z, None)
    else
      var dist := Abs(z - cameraZ);
      match v.state
      case Idle => Decision(z, if dist < DetectRange then Some(Walk) else None)
      case Walk =>
        Decision(z + WalkSpeed * delta,
                 if dist < AttackRange then Some(Attack)
                 else if dist > DetectRange then Some(Idle)
                 else None)
      case _ => Decision(z, None)
  }

  /** What the controller observes and changes: the machine's view and the enemy's z. */
  datatype Agent = Agent(view: MachineView, z: real)

  function Apply(v: MachineView, request: Option<EnemyState>): MachineView {
    if request.Some? then Step(v, request.value) else v
  }

  /** One `update(delta, cameraZ)`: the machine's update (with the notifications it raises), then the policy. */
  function Tick(a: Agent, cameraZ: real, delta: real, finished: seq<EnemyState>): (r: Agent)
    ensures Consistent(a.view) ==> Consistent(r.view)
    ensures Consistent(a.view) && a.view.dead ==> r == a
  {
    var v := AfterEvents(a.view, finished);
    var d := Decide(v, a.z, cameraZ, delta);
    Agent(Apply(v, d.request), d.z)
  }

  /** The mixer calls one tick makes, in order. */
  function TickOps(a: Agent, cameraZ: real, delta: real, finished: seq<EnemyState>): seq<MixerOp> {
    var v := AfterEvents(a.view, finished);
    var d := Decide(v, a.z, cameraZ, delta);
    [AdvanceOp(delta)] + EventOps(a.view, finished)
      + (if d.request.Some? then TransitionOps(v, d.request.value) else [])
  }

  /** The mixer state one tick leaves: the machine's notifications, then the policy's request, replayed in order. */
  lemma TickReplay(prior: Option<Fade>, a: Agent, cameraZ: real, delta: real, finished: seq<EnemyState>)
    ensures var v := AfterEvents(a.view, finished);
      var d := Decide(v, a.z, cameraZ, delta);
      var events := EventOps(a.view, finished);
      var request := if d.request.Some? then TransitionOps(v, d.request.value) else [];
      && TickOps(a, cameraZ, delta, finished) == [AdvanceOp(delta)] + events + request
      && Started(TickOps(a, cameraZ, delta, finished)) == Started(events) + Started(request)
      && LatestFade(prior, TickOps(a, cameraZ, delta, finished)) == LatestFade(LatestFade(prior, events), request)
  {
    var v := AfterEvents(a.view, finished);
    var d := Decide(v, a.z, cameraZ, delta);
    var events := EventOps(a.view, finished);
    var request := if d.request.Some? then TransitionOps(v, d.request.value) else [];
    var advance: seq<MixerOp> := [AdvanceOp(delta)];
    assert advance[..0] == [];
    ReplayAppend(prior, advance, events);
    ReplayAppend(prior, advance + events, request);
  }

  /** `n` ticks of equal length with the camera held still and no clip finishing. */
  function Run(a: Agent, cameraZ: real, delta: real, n: nat): Agent
    decreases n
  {
    if n == 0 then a else Run(Tick(a, cameraZ, delta, []), cameraZ, delta, n - 1)
  }

  /** An attacking enemy with no clip finishing is left where it is, in `attack`. */
  lemma {:induction false} AttackHolds(a: Agent, cameraZ: real, delta: real, n: nat)
    requires a.view == MachineView(Attack, false)
    ensures Run(a, cameraZ, delta, n) == a
    decreases n
  {
    if n > 0 {
      assert Tick(a, cameraZ, delta, []) == a;
      AttackHolds(a, cameraZ, delta, n - 1);
    }
  }

  /**
   * A walking enemy with the camera ahead of it (in +z) within detection
   * range, and a step no longer than the attack range, reaches `attack`
   * within k + 1 ticks once k steps cover the gap down to the attack range.
   */
  lemma {:induction false} WalkReachesAttack(a: Agent, cameraZ: real, delta: real, k: nat)
    requires a.view == MachineView(Walk, false)
    requires 0.0 < WalkSpeed * delta <= AttackRange
    requires a.z <= cameraZ <= a.z + DetectRange
    requires cameraZ - a.z < AttackRange + k as real * (WalkSpeed * delta)
    ensures Run(a, cameraZ, delta, k + 1).view == MachineView(Attack, false)
    decreases k
  {
    var next := Tick(a, cameraZ, delta, []);
    if cameraZ - a.z < AttackRange {
      assert next.view == MachineView(Attack, false);
      AttackHolds(next, cameraZ, delta, k);
    } else {
      assert next == Agent(MachineView(Walk, false), a.z + WalkSpeed * delta);
      assert k > 0;
      assert cameraZ - next.z < AttackRange + (k - 1) as real * (WalkSpeed * delta);
      WalkReachesAttack(next, cameraZ, delta, k - 1);
    }
  }

  /** A walking enemy with the camera ahead of it moves closer by exactly one step per tick. */
  lemma WalkCloses(a: Agent, cameraZ: real, delta: real)
    requires a.view == MachineView(Walk, false)
    requires 0.0 <= WalkSpeed * delta
    requires AttackRange <= cameraZ - a.z <= DetectRange
    ensures Tick(a, cameraZ, delta, []).view == a.view
    ensures cameraZ - Tick(a, cameraZ, delta, []).z == (cameraZ - a.z) - WalkSpeed * delta
  {
  }

  /**
   * The step is always along +z: with the camera behind a walking enemy (in
   * -z), each tick takes the enemy one step further away.
   */
  lemma WalkRecedesFromCameraBehind(a: Agent, cameraZ: real, delta: real)
    requires a.view == MachineView(Walk, false)
    requires 0.0 <= WalkSpeed * delta
    requires AttackRange <= a.z - cameraZ <= DetectRange
    ensures Tick(a, cameraZ, delta, []).view == a.view
    ensures Tick(a, cameraZ, delta, []).z - cameraZ == (a.z - cameraZ) + WalkSpeed * delta
  {
  }

  class EnemyInstance {
    const model: EnemyModel
    const stateMachine: StateMachine
    const scene: Node3D

    ghost predicate Valid()
      reads this, stateMachine
    {
      stateMachine.Valid()
    }

    function Pose(): Agent
      reads this, stateMachine, model.group
    {
      Agent(stateMachine.Observe(), model.group.position.z)
    }

    /** `createEnemyInstance(model, scene, spawnZ)`, with the model's mixer passed alongside. */
    constructor (model: EnemyModel, mixer: Mixer, scene: Node3D, spawnZ: real)
      modifies mixer, model.group, scene
      ensures this.model == model && this.scene == scene
      ensures fresh(stateMachine) && stateMachine.mixer == mixer
      ensures Valid() && stateMachine.Observe() == Initial
      ensures Configured(mixer.loops) && mixer.playing == old(mixer.playing) + {Idle}
      ensures mixer.log == old(mixer.log) + [PlayOp(Idle)]
      ensures mixer.lastFade == old(mixer.lastFade) && mixer.clock == old(mixer.clock)
      ensures model.group.position == Vec3(0.0, 0.0, spawnZ)
      ensures model.group.rotation == old(model.group.rotation) && model.group.scale == old(model.group.scale)
      ensures model.group.children == old(model.group.children) && model.group.material == old(model.group.material)
      ensures model.group != scene ==>
        && scene.position == old(scene.position) && scene.rotation == old(scene.rotation)
        && scene.scale == old(scene.scale) && scene.material == old(scene.material)
      ensures scene.children == if model.group == scene then old(scene.children)
                                else RemoveFirst(old(scene.children), model.group) + [model.group]
    {
      this.model, this.scene := model, scene;
      stateMachine := new StateMachine(mixer);
      model.group.position := Vec3(0.0, 0.0, spawnZ);
      scene.Add(model.group);
    }

    /** The policy half of `update`: decides on the view after the machine's own update, then moves and requests. */
    method Steer(delta: real, cameraZ: real)
      requires Valid()
      modifies stateMachine, stateMachine.mixer, model.group
      ensures Valid()
      ensures var v := old(stateMachine.Observe());
        var d := Decide(v, old(model.group.position.z), cameraZ, delta);
        var ops := if d.request.Some? then TransitionOps(v, d.request.value) else [];
        && Pose() == Agent(Apply(v, d.request), d.z)
        && stateMachine.mixer.log == old(stateMachine.mixer.log) + ops
        && stateMachine.mixer.playing == old(stateMachine.mixer.playing) + Started(ops)
        && stateMachine.mixer.lastFade == LatestFade(old(stateMachine.mixer.lastFade), ops)
      ensures stateMachine.mixer.clock == old(stateMachine.mixer.clock)
      ensures stateMachine.mixer.loops == old(stateMachine.mixer.loops)
      ensures model.group.position == old(model.group.position).(z := model.group.position.z)
      ensures model.group.rotation == old(model.group.rotation) && model.group.scale == old(model.group.scale)
      ensures model.group.material == old(model.group.material) && model.group.children == old(model.group.children)
    {
      if stateMachine.isDead {
        return;
      }
      var dist := Abs(model.group.position.z - cameraZ);
      match stateMachine.currentState {
        case Idle =>
          if dist < DetectRange {
            TransitionReplay(stateMachine.mixer.lastFade, stateMachine.Observe(), Walk);
            stateMachine.Transition(Walk);
          }
        case Walk =>
          model.group.position := model.group.position.(z := model.group.position.z + WalkSpeed * delta);
          if dist < AttackRange {
            TransitionReplay(stateMachine.mixer.lastFade, stateMachine.Observe(), Attack);
            stateMachine.Transition(Attack);
          } else if dist > DetectRange {
            TransitionReplay(stateMachine.mixer.lastFade, stateMachine.Observe(), Idle);
            stateMachine.Transition(Idle);
          }
        case _ =>
      }
    }

    /** `update(delta, cameraZ)`; `finished` lists the clips the mixer reports finished during its advance. */
    method Update(delta: real, cameraZ: real, finished: seq<EnemyState>)
      requires Valid()
      modifies stateMachine, stateMachine.mixer, model.group
      ensures Valid()
      ensures Pose() == Tick(old(Pose()), cameraZ, delta, finished)
      ensures var ops := TickOps(old(Pose()), cameraZ, delta, finished);
        && stateMachine.mixer.log == old(stateMachine.mixer.log) + ops
        && stateMachine.mixer.playing == old(stateMachine.mixer.playing) + Started(ops)
        && stateMachine.mixer.lastFade == LatestFade(old(stateMachine.mixer.lastFade), ops)
      ensures stateMachine.mixer.clock == old(stateMachine.mixer.clock) + delta
      ensures stateMachine.mixer.loops == old(stateMachine.mixer.loops)
      ensures model.group.position == old(model.group.position).(z := model.group.position.z)
      ensures model.group.rotation == old(model.group.rotation) && model.group.scale == old(model.group.scale)
      ensures model.group.material == old(model.group.material) && model.group.children == old(model.group.children)
    {
      ghost var a := Pose();
      ghost var fade0 := stateMachine.mixer.lastFade;
      stateMachine.Update(delta, finished);
      ghost var mid := Pose();
      ghost var log1 := stateMachine.mixer.log;
      assert mid == Agent(AfterEvents(a.view, finished), a.z);
      Steer(delta, cameraZ);
      ghost var d := Decide(mid.view, mid.z, cameraZ, delta);
      ghost var request := if d.request.Some? then TransitionOps(mid.view, d.request.value) else [];
      ghost var events := EventOps(a.view, finished);
      assert Pose() == Agent(Apply(mid.view, d.request), d.z) == Tick(a, cameraZ, delta, finished);
      assert stateMachine.mixer.log == log1 + request;
      TickReplay(fade0, a, cameraZ, delta, finished);
      ghost var ops := TickOps(a, cameraZ, delta, finished);
      AppendAssoc(old(stateMachine.mixer.log), [AdvanceOp(delta)] + events, request);
      assert stateMachine.mixer.log == old(stateMachine.mixer.log) + ops;
    }

    /** `dispose()`: detaches the model's group from the scene and disposes the model. */
    method Dispose()
      modifies scene, model
      ensures scene.children == RemoveFirst(old(scene.children), model.group)
      ensures scene.position == old(scene.position) && scene.rotation == old(scene.rotation)
      ensures scene.scale == old(scene.scale) && scene.material == old(scene.material)
      ensures model.released == old(model.released) + TraversalReleases(model.traversal)
    {
      scene.Remove(model.group);
      model.Dispose();
    }
  }
}
