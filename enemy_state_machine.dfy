/**
 * The per-enemy animation state machine (skeletal variant): four clip actions
 * on one animation mixer, `death` absorbing, a cached `isDead` flag, and the
 * mixer's `finished` notification for the attack clip sending the enemy back
 * to `idle`.
 *
 * The three.js mixer is abstract here: which actions have been started, the
 * last cross-fade requested, each action's loop setting, the mixer clock and
 * a log of every reset/play/cross-fade/advance call in the order made.
 */
module EnemyStateMachine {
  import opened Wrappers

  datatype EnemyState = Idle | Walk | Attack | Death

  const AllStates: set<EnemyState> := {Idle, Walk, Attack, Death}

  /** Cross-fade window used by every accepted transition, in seconds. */
  const CrossFadeSeconds: real := 0.3

  datatype LoopMode = LoopRepeat | LoopOnce

  /** An action's loop setting; `repetitions == None` stands for `Infinity`. */
  datatype LoopSetting = LoopSetting(mode: LoopMode, repetitions: Option<nat>, clampWhenFinished: bool)

  /** What `clipAction` gives a new action. */
  const DefaultLoop := LoopSetting(LoopRepeat, None, false)

  datatype Fade = Fade(from: EnemyState, to: EnemyState, duration: real, warp: bool)

  datatype MixerOp =
    | ResetOp(action: EnemyState)
    | PlayOp(action: EnemyState)
    | FadeOp(fade: Fade)
    | AdvanceOp(delta: real)

  /** The animation mixer; actions are named by the state they animate. */
  class Mixer {
    var playing: set<EnemyState>
    var lastFade: Option<Fade>
    var loops: map<EnemyState, LoopSetting>
    var clock: real
    var log: seq<MixerOp>

    constructor ()
      ensures playing == {} && lastFade == None && loops == map[] && clock == 0.0 && log == []
    {
      playing, lastFade, loops, clock, log := {}, None, map[], 0.0, [];
    }

    /** `clipAction(clip)`: creates the action with the default loop setting, or returns the existing one. */
    method ClipAction(a: EnemyState)
      modifies this
      ensures a in loops && loops == old(loops)[a := loops[a]]
    ensures a in old(loops) ==> loops == old(loops)
    ensures a !in old(loops) ==> loops[a] == DefaultLoop
      ensures playing == old(playing) && lastFade == old(lastFade) && clock == old(clock) && log == old(log)
    {
      if a !in loops {
        loops := loops[a := DefaultLoop];
      }
    }

    /** `action.setLoop(mode, repetitions)`. */
    method SetLoop(a: EnemyState, mode: LoopMode, repetitions: Option<nat>)
      requires a in loops
      modifies this
      ensures loops == old(loops)[a := old(loops)[a].(mode := mode, repetitions := repetitions)]
      ensures playing == old(playing) && lastFade == old(lastFade) && clock == old(clock) && log == old(log)
    {
      loops := loops[a := loops[a].(mode := mode, repetitions := repetitions)];
    }

    /** `action.clampWhenFinished = true`. */
    method SetClamp(a: EnemyState)
      requires a in loops
      modifies this
      ensures loops == old(loops)[a := old(loops)[a].(clampWhenFinished := true)]
      ensures playing == old(playing) && lastFade == old(lastFade) && clock == old(clock) && log == old(log)
    {
      loops := loops[a := loops[a].(clampWhenFinished := true)];
    }

    /** `action.reset()`: rewinds the action to frame zero. */
    method Reset(a: EnemyState)
      modifies this
      ensures log == old(log) + [ResetOp(a)]
      ensures playing == old(playing) && lastFade == old(lastFade) && loops == old(loops) && clock == old(clock)
    {
      log := log + [ResetOp(a)];
    }

    /** `action.play()`. */
    method Play(a: EnemyState)
      modifies this
      ensures playing == old(playing) + {a} && log == old(log) + [PlayOp(a)]
      ensures lastFade == old(lastFade) && loops == old(loops) && clock == old(clock)
    {
      playing := playing + {a};
      log := log + [PlayOp(a)];
    }

    /** `from.crossFadeTo(to, duration, warp)`. */
    method CrossFadeTo(from: EnemyState, to: EnemyState, duration: real, warp: bool)
      modifies this
      ensures lastFade == Some(Fade(from, to, duration, warp))
      ensures log == old(log) + [FadeOp(Fade(from, to, duration, warp))]
      ensures playing == old(playing) && loops == old(loops) && clock == old(clock)
    {
      lastFade := Some(Fade(from, to, duration, warp));
      log := log + [FadeOp(lastFade.value)];
    }

    /** `mixer.update(delta)`: advances the shared animation clock. */
    method Update(delta: real)
      modifies this
      ensures clock == old(clock) + delta && log == old(log) + [AdvanceOp(delta)]
      ensures playing == old(playing) && lastFade == old(lastFade) && loops == old(loops)
    {
      clock := clock + delta;
      log := log + [AdvanceOp(delta)];
    }
  }

  /** The observable part of the machine: `currentState` and the cached `isDead`. */
  datatype MachineView = MachineView(state: EnemyState, dead: bool)

  const Initial := MachineView(Idle, false)

  /** The invariant the cached flag is meant to keep. */
  predicate Consistent(v: MachineView) {
    v.dead <==> v.state == Death
  }

  /** Whether `transition(target)` gets past its two guards. */
  predicate Accepts(v: MachineView, target: EnemyState) {
    !(v.dead && target != Death) && target != v.state
  }

  /** The view after `transition(target)`. */
  function Step(v: MachineView, target: EnemyState): (r: MachineView)
    ensures Consistent(v) ==> Consistent(r)
    ensures Consistent(v) && v.dead ==> r == v
    ensures target == v.state ==> r == v
    ensures Consistent(v) && !v.dead && target != v.state ==> r.state == target
  {
    if Accepts(v, target) then MachineView(target, v.dead || target == Death) else v
  }

  /** The mixer calls `transition(target)` makes: none when refused. */
  function TransitionOps(v: MachineView, target: EnemyState): seq<MixerOp> {
    if Accepts(v, target) then
      [ResetOp(target), PlayOp(target), FadeOp(Fade(v.state, target, CrossFadeSeconds, true))]
    else []
  }

  /** The actions a run of mixer calls starts: those it plays. */
  function Started(ops: seq<MixerOp>): set<EnemyState> {
    if ops == [] then {}
    else Started(ops[..|ops| - 1]) + (if ops[|ops| - 1].PlayOp? then {ops[|ops| - 1].action} else {})
  }

  /** The cross-fade in effect after a run of mixer calls: its last one, or `prior` when it has none. */
  function LatestFade(prior: Option<Fade>, ops: seq<MixerOp>): Option<Fade> {
    if ops == [] then prior
    else if ops[|ops| - 1].FadeOp? then Some(ops[|ops| - 1].fade)
    else LatestFade(prior, ops[..|ops| - 1])
  }

  /** Replaying two runs of mixer calls one after the other is replaying them joined. */
  lemma {:induction false} ReplayAppend(prior: Option<Fade>, a: seq<MixerOp>, b: seq<MixerOp>)
    ensures Started(a + b) == Started(a) + Started(b)
    ensures LatestFade(prior, a + b) == LatestFade(LatestFade(prior, a), b)
    decreases |b|
  {
    if b == [] {
      assert a + b == a;
    } else {
      var init := b[..|b| - 1];
      assert (a + b)[..|a + b| - 1] == a + init;
      ReplayAppend(prior, a, init);
    }
  }

  /** An accepted transition starts its target and fades into it from the old state; a refused one does neither. */
  lemma TransitionReplay(prior: Option<Fade>, v: MachineView, target: EnemyState)
    ensures Started(TransitionOps(v, target)) == if Accepts(v, target) then {target} else {}
    ensures LatestFade(prior, TransitionOps(v, target)) ==
      if Accepts(v, target) then Some(Fade(v.state, target, CrossFadeSeconds, true)) else prior
  {
    if Accepts(v, target) {
      var ops := TransitionOps(v, target);
      var reset, played := [ResetOp(target)], [ResetOp(target), PlayOp(target)];
      assert reset[..0] == [] && played[..1] == reset && ops[..2] == played;
      assert Started(reset) == {};
      assert Started(played) == {target};
    }
  }

  /** Whether the `finished` listener reacts to a notification for `action`. */
  predicate ReturnsToIdle(v: MachineView, action: EnemyState) {
    action == Attack && !v.dead
  }

  /** The view after the `finished` listener sees a notification for `action`. */
  function AfterFinished(v: MachineView, action: EnemyState): MachineView {
    if ReturnsToIdle(v, action) then Step(v, Idle) else v
  }

  function FinishedOps(v: MachineView, action: EnemyState): seq<MixerOp> {
    if ReturnsToIdle(v, action) then TransitionOps(v, Idle) else []
  }

  /** The view after a sequence of `finished` notifications, handled in order. */
  function AfterEvents(v: MachineView, events: seq<EnemyState>): (r: MachineView)
    ensures Consistent(v) ==> Consistent(r)
    ensures r.state == v.state || r.state == Idle
    ensures Consistent(v) && v.dead ==> r == v
    ensures Attack !in events ==> r == v
    ensures Consistent(v) && !v.dead && Attack in events ==> r == MachineView(Idle, false)
  {
    if events == [] then v
    else
      var init := events[..|events| - 1];
      assert events == init + [events[|events| - 1]];
      AfterFinished(AfterEvents(v, init), events[|events| - 1])
  }

  /** The mixer calls made by the listener over a sequence of notifications. */
  function EventOps(v: MachineView, events: seq<EnemyState>): seq<MixerOp> {
    if events == [] then []
    else
      var init := events[..|events| - 1];
      EventOps(v, init) + FinishedOps(AfterEvents(v, init), events[|events| - 1])
  }

  /** The view after a sequence of `transition` requests. */
  function Transitions(v: MachineView, targets: seq<EnemyState>): MachineView
    decreases |targets|
  {
    if targets == [] then v else Transitions(Step(v, targets[0]), targets[1..])
  }

  /** Once `transition('death')` has run, no later request leaves `death` or clears `isDead`. */
  lemma {:induction false} KilledStaysDead(v: MachineView, targets: seq<EnemyState>)
    requires Consistent(v)
    ensures Transitions(Step(v, Death), targets) == MachineView(Death, true)
    decreases |targets|
  {
    if targets != [] {
      KilledStaysDead(Step(v, Death), targets[1..]);
    }
  }

  /** From the initial view, the invariant holds after any sequence of requests. */
  lemma {:induction false} TransitionsKeepConsistent(v: MachineView, targets: seq<EnemyState>)
    requires Consistent(v)
    ensures Consistent(Transitions(v, targets))
    ensures v.dead ==> Transitions(v, targets) == v
    decreases |targets|
  {
    if targets != [] {
      TransitionsKeepConsistent(Step(v, targets[0]), targets[1..]);
    }
  }

  /** Idle and walk repeat forever; attack and death play once and hold their last frame. */
  predicate Configured(loops: map<EnemyState, LoopSetting>) {
    && Idle in loops && Walk in loops && Attack in loops && Death in loops
    && loops[Idle].mode == LoopRepeat && loops[Idle].repetitions == None
    && loops[Walk].mode == LoopRepeat && loops[Walk].repetitions == None
    && loops[Attack] == LoopSetting(LoopOnce, Some(1), true)
    && loops[Death] == LoopSetting(LoopOnce, Some(1), true)
  }

  /** The action set-up of `createEnemyStateMachine`: one action per clip and its loop setting. */
  method ConfigureActions(m: Mixer)
    modifies m
    ensures Configured(m.loops)
    ensures m.playing == old(m.playing) && m.lastFade == old(m.lastFade)
    ensures m.clock == old(m.clock) && m.log == old(m.log)
  {
    m.ClipAction(Idle);
    m.ClipAction(Walk);
    m.ClipAction(Attack);
    m.ClipAction(Death);
    m.SetLoop(Idle, LoopRepeat, None);
    m.SetLoop(Walk, LoopRepeat, None);
    m.SetLoop(Attack, LoopOnce, Some(1));
    m.SetClamp(Attack);
    m.SetLoop(Death, LoopOnce, Some(1));
    m.SetClamp(Death);
  }

  class StateMachine {
    const mixer: Mixer
    var currentState: EnemyState
    var isDead: bool

    ghost predicate Valid()
      reads this
    {
      Consistent(Observe())
    }

    function Observe(): MachineView
      reads this
    {
      MachineView(currentState, isDead)
    }

    /** `createEnemyStateMachine(mixer, clips)`: configures the actions, then starts `idle`. */
    constructor (m: Mixer)
      modifies m
      ensures mixer == m && Valid() && Observe() == Initial
      ensures Configured(m.loops)
      ensures m.playing == old(m.playing) + {Idle} && m.log == old(m.log) + [PlayOp(Idle)]
      ensures m.lastFade == old(m.lastFade) && m.clock == old(m.clock)
    {
      mixer := m;
      ConfigureActions(m);
      currentState := Idle;
      isDead := false;
      m.Play(Idle);
    }

    /** `transition(newState)`. */
    method Transition(newState: EnemyState)
      requires Valid()
      modifies this, mixer
      ensures Valid()
      ensures Observe() == Step(old(Observe()), newState)
      ensures mixer.log == old(mixer.log) + TransitionOps(old(Observe()), newState)
      ensures Accepts(old(Observe()), newState) ==>
        mixer.playing == old(mixer.playing) + {newState} &&
        mixer.lastFade == Some(Fade(old(currentState), newState, CrossFadeSeconds, true))
      ensures !Accepts(old(Observe()), newState) ==>
        mixer.playing == old(mixer.playing) && mixer.lastFade == old(mixer.lastFade)
      ensures mixer.loops == old(mixer.loops) && mixer.clock == old(mixer.clock)
    {
      if isDead && newState != Death {
        return;
      }
      if newState == currentState {
        return;
      }
      var oldAction := currentState;
      mixer.Reset(newState);
      mixer.Play(newState);
      mixer.CrossFadeTo(oldAction, newState, CrossFadeSeconds, true);
      currentState := newState;
      if newState == Death {
        isDead := true;
      }
    }

    /** The mixer's `finished` listener, for a notification about `action`. */
    method OnFinished(action: EnemyState)
      requires Valid()
      modifies this, mixer
      ensures Valid()
      ensures Observe() == AfterFinished(old(Observe()), action)
      ensures mixer.log == old(mixer.log) + FinishedOps(old(Observe()), action)
      ensures mixer.loops == old(mixer.loops) && mixer.clock == old(mixer.clock)
      ensures mixer.playing == old(mixer.playing) + Started(FinishedOps(old(Observe()), action))
      ensures mixer.lastFade == LatestFade(old(mixer.lastFade), FinishedOps(old(Observe()), action))
    {
      TransitionReplay(mixer.lastFade, Observe(), Idle);
      if action == Attack && !isDead {
        Transition(Idle);
      }
    }

    /**
     * `update(delta)`: advances the mixer; `finished` lists, in order, the
     * actions the mixer reports as finished during that advance.
     */
    method Update(delta: real, finished: seq<EnemyState>)
      requires Valid()
      modifies this, mixer
      ensures Valid()
      ensures Observe() == AfterEvents(old(Observe()), finished)
      ensures mixer.clock == old(mixer.clock) + delta
      ensures mixer.log == old(mixer.log) + [AdvanceOp(delta)] + EventOps(old(Observe()), finished)
      ensures mixer.playing == old(mixer.playing) + Started(EventOps(old(Observe()), finished))
      ensures mixer.lastFade == LatestFade(old(mixer.lastFade), EventOps(old(Observe()), finished))
      ensures mixer.loops == old(mixer.loops)
    {
      mixer.Update(delta);
      HandleFinished(finished);
    }

    /** The listener run on each notification of one advance, in order. */
    method HandleFinished(finished: seq<EnemyState>)
      requires Valid()
      modifies this, mixer
      ensures Valid()
      ensures Observe() == AfterEvents(old(Observe()), finished)
      ensures mixer.log == old(mixer.log) + EventOps(old(Observe()), finished)
      ensures mixer.playing == old(mixer.playing) + Started(EventOps(old(Observe()), finished))
      ensures mixer.lastFade == LatestFade(old(mixer.lastFade), EventOps(old(Observe()), finished))
      ensures mixer.clock == old(mixer.clock) && mixer.loops == old(mixer.loops)
    {
      ghost var start := Observe();
      var i := 0;
      while i < |finished|
        invariant 0 <= i <= |finished|
        invariant Valid()
        invariant Observe() == AfterEvents(start, finished[..i])
        invariant mixer.log == old(mixer.log) + EventOps(start, finished[..i])
        invariant mixer.playing == old(mixer.playing) + Started(EventOps(start, finished[..i]))
        invariant mixer.lastFade == LatestFade(old(mixer.lastFade), EventOps(start, finished[..i]))
        invariant mixer.clock == old(mixer.clock) && mixer.loops == old(mixer.loops)
      {
        assert finished[..i + 1][..i] == finished[..i];
        ghost var done := EventOps(start, finished[..i]);
        ghost var next := FinishedOps(AfterEvents(start, finished[..i]), finished[i]);
        OnFinished(finished[i]);
        ReplayAppend(old(mixer.lastFade), done, next);
        AppendAssoc(old(mixer.log), done, next);
        i := i + 1;
      }
      assert finished[..i] == finished;
    }
  }
}
