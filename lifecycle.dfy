/** The animation lifecycle as values: everything an animation instance holds
    (its logical state, bound target, build-once flag, saved position and the
    storyboard it drives), and one function per operation of the base class.
    The class in module Animation is proved to change its fields exactly as
    these functions say; the lemmas here state what the operations promise. */
module Lifecycle {
  import opened Wrappers
  import Host
  import Repeat
  import opened Configuration
  import PointToPoint
  import PathFollower

  /** The logical state the instance reports. */
  datatype AnimationState = Stopped | Playing | Paused

  /** The concrete animation, which decides what CreateAnimation adds. */
  datatype AnimationKind =
    | PointToPointKind(endpoints: PointToPoint.Endpoints)
    | PathFollowerKind(pathGeometry: string)

  /** Exceptions the base class can raise: a null storyboard dereferenced, or
      the dispatcher helper's guard. */
  datatype Fault = NullReference | InvalidOperation

  /** An animation instance. `created` is the build-once flag, `savedTime` the
      one-shot saved position (0 meaning none), `board` the master storyboard
      (None while it has not been built). */
  datatype AnimationModel = AnimationModel(
    kind: AnimationKind,
    config: AnimationConfiguration,
    state: AnimationState,
    bound: Option<Host.Target>,
    created: bool,
    savedTime: int,
    board: Option<Host.BoardState>)

  /** A new instance: Stopped, unbound, nothing built, nothing saved. */
  function Fresh(kind: AnimationKind, config: AnimationConfiguration): (m: AnimationModel)
  {
    AnimationModel(kind, config, Stopped, None, false, 0, None)
  }

  /** The settings CreateStoryboard copies from the configuration. */
  function Settings(config: AnimationConfiguration): (t: Host.Timeline)
  {
    Host.Timeline(config.duration, Repeat.ToRepeatBehavior(config.repeatBehavior),
      config.accelerationRatio, config.decelerationRatio, config.autoReverse, [])
  }

  /** What the concrete animation's CreateAnimation does to the timeline. */
  function Animate(kind: AnimationKind, config: AnimationConfiguration, t: Host.Timeline): (r: Host.Timeline)
  {
    match kind
    case PointToPointKind(p) => PointToPoint.Animated(t, p, config)
    case PathFollowerKind(_) => PathFollower.Animated(t, config)
  }

  /** The timeline graph after CreateStoryboard and CreateAnimation: the
      configured settings, and exactly two frozen children over the configured
      duration, the first driving Canvas.Left and the second Canvas.Top. */
  function Built(kind: AnimationKind, config: AnimationConfiguration): (t: Host.Timeline)
    ensures t.duration == config.duration
    ensures t.repeat == Repeat.ToRepeatBehavior(config.repeatBehavior)
    ensures t.accelerationRatio == config.accelerationRatio && t.decelerationRatio == config.decelerationRatio
    ensures t.autoReverse == config.autoReverse
    ensures |t.children| == 2
    ensures t.children[0].property == Host.CanvasLeft && t.children[1].property == Host.CanvasTop
    ensures forall i :: 0 <= i < 2 ==> t.children[i].frozen && t.children[i].duration == config.duration
  {
    Animate(kind, config, Host.NewBoard(Settings(config)).timeline)
  }

  /** Whenever the instance is bound, its storyboard exists. */
  ghost predicate Wired(m: AnimationModel)
  {
    m.bound.Some? ==> m.board.Some?
  }

  /** The storyboard exists exactly when the build-once flag is set, and a built
      storyboard is frozen and holds exactly the graph built for this instance. */
  ghost predicate Formed(m: AnimationModel)
  {
    && (m.created <==> m.board.Some?)
    && (m.board.Some? ==> m.board.value.frozen && m.board.value.timeline == Built(m.kind, m.config))
  }

  /** The invariant every completed public operation keeps: formed, wired, and
      the storyboard targets exactly the bound object. */
  ghost predicate Inv(m: AnimationModel)
  {
    && Formed(m)
    && Wired(m)
    && (m.board.Some? ==> m.board.value.target == m.bound)
  }

  /** The state between DetachAnimation and AttachAnimation: formed, and the
      storyboard (if any) has no target. */
  ghost predicate Detached(m: AnimationModel)
  {
    Formed(m) && (m.board.Some? ==> m.board.value.target.None?)
  }

  /** BeginAnimation: when bound, the storyboard begins and ends up at the saved
      position (its start when nothing is saved), and the saved position is
      consumed. Unbound, nothing changes. */
  function Begin(m: AnimationModel): (r: AnimationModel)
    requires Wired(m)
    ensures Wired(r) && (Inv(m) ==> Inv(r))
    ensures m.bound.None? ==> r == m
    ensures m.bound.Some? ==> r == m.(board := Some(Host.AfterBegin(m.board.value).(position := m.savedTime)), savedTime := 0)
  {
    if m.bound.None? then m
    else
      var begun := Host.AfterBegin(m.board.value);
      if m.savedTime != 0 then m.(board := Some(Host.AfterSeek(begun, m.savedTime)), savedTime := 0)
      else m.(board := Some(begun))
  }

  /** PlayAnimation: unbound, nothing changes. Bound and Paused, the storyboard
      resumes where it was. Bound otherwise, it begins again from the saved
      position (or its start) and the saved position is consumed. Bound, the
      state always ends Playing. */
  function Play(m: AnimationModel): (r: AnimationModel)
    requires Wired(m)
    ensures Wired(r) && (Inv(m) ==> Inv(r))
    ensures m.bound.None? ==> r == m
    ensures m.bound.Some? ==> r.state == Playing
    ensures m.bound.Some? && m.state == Paused ==>
      r == m.(state := Playing, board := Some(Host.AfterResume(m.board.value)))
    ensures m.bound.Some? && m.state != Paused ==>
      r == m.(state := Playing, board := Some(Host.AfterBegin(m.board.value).(position := m.savedTime)), savedTime := 0)
  {
    if m.bound.None? then m
    else if m.state == Paused then m.(board := Some(Host.AfterResume(m.board.value)), state := Playing)
    else Begin(m).(state := Playing)
  }

  /** PauseAnimation: unbound, nothing changes; bound, the storyboard is paused
      and the state ends Paused, whatever it was. */
  function Pause(m: AnimationModel): (r: AnimationModel)
    requires Wired(m)
    ensures Wired(r) && (Inv(m) ==> Inv(r))
    ensures m.bound.None? ==> r == m
    ensures m.bound.Some? ==> r == m.(state := Paused, board := Some(Host.AfterPause(m.board.value)))
  {
    if m.bound.None? then m
    else m.(board := Some(Host.AfterPause(m.board.value)), state := Paused)
  }

  /** StopAnimation: unbound, nothing changes; bound, the storyboard is stopped
      and the state ends Stopped. The saved position is kept. */
  function Stop(m: AnimationModel): (r: AnimationModel)
    requires Wired(m)
    ensures Wired(r) && (Inv(m) ==> Inv(r))
    ensures m.bound.None? ==> r == m
    ensures m.bound.Some? ==> r == m.(state := Stopped, board := Some(Host.AfterStop(m.board.value)))
  {
    if m.bound.None? then m
    else m.(board := Some(Host.AfterStop(m.board.value)), state := Stopped)
  }

  /** The guard of the dispatcher helper: it throws when the instance is unbound. */
  function DispatchGuard(m: AnimationModel): (r: Outcome<Fault>)
    ensures r.Fail? <==> m.bound.None?
    ensures r.Fail? ==> r.error == InvalidOperation
  {
    if m.bound.None? then Fail(InvalidOperation) else Pass
  }

  /** DetachAnimation: with a target, playback is stopped (so the state becomes
      Stopped) and the storyboard's target is cleared; without one, nothing
      changes. */
  function Detach(m: AnimationModel): (r: AnimationModel)
    requires Inv(m)
    ensures Detached(r) && r.bound == m.bound && r.created == m.created
    ensures m.bound.None? ==> r == m
    ensures m.bound.Some? ==> r.state == Stopped && r.board.value.phase == Host.Stopped && r.board.value.target.None?
    ensures m.bound.Some? ==> r.savedTime == m.savedTime && r.board.value.timeline == m.board.value.timeline
  {
    if m.bound.None? then m
    else
      var stopped := Stop(m);
      stopped.(board := Some(Host.AfterSetTarget(stopped.board.value, None)))
  }

  /** The board built on first attach: CreateStoryboard, then CreateAnimation. */
  function BuiltBoard(kind: AnimationKind, config: AnimationConfiguration): (b: Host.BoardState)
    ensures b.timeline == Built(kind, config) && b.phase == Host.NotBegun && b.position == 0
  {
    var created := Host.NewBoard(Settings(config));
    created.(timeline := Animate(kind, config, created.timeline))
  }

  /** SyncCurrentState: replays the logical state against the storyboard.
      Playing plays, Paused begins then pauses, Stopped does nothing. */
  function SyncCurrentState(m: AnimationModel): (r: AnimationModel)
    requires Wired(m)
    ensures Wired(r) && (Inv(m) ==> Inv(r))
    ensures r.state == m.state && r.bound == m.bound
  {
    match m.state
    case Playing => Play(m)
    case Paused => Pause(Begin(m))
    case Stopped => m
  }

  /** AttachAnimation: with a target, the storyboard is built if it never was,
      targeted at the bound object, frozen, and the state is replayed; without
      one, nothing changes. */
  function Attach(m: AnimationModel): (r: AnimationModel)
    requires Detached(m)
    ensures Inv(r) && r.bound == m.bound && r.state == m.state
    ensures m.bound.None? ==> r == m
    ensures m.bound.Some? ==> r.created
    ensures m.created ==> r.board.value.timeline == m.board.value.timeline
  {
    if m.bound.None? then m
    else
      var built := if m.created then m else m.(board := Some(BuiltBoard(m.kind, m.config)), created := true);
      var targeted := built.(board := Some(Host.AfterFreeze(Host.AfterSetTarget(built.board.value, m.bound))));
      SyncCurrentState(targeted)
  }

  /** The BoundObject setter: detach, assign, attach. */
  function SetBoundObject(m: AnimationModel, value: Option<Host.Target>): (r: AnimationModel)
    requires Inv(m)
    ensures Inv(r) && r.bound == value && r.kind == m.kind && r.config == m.config
    ensures r.created <==> m.created || value.Some?
    ensures m.created ==> r.board.value.timeline == m.board.value.timeline
    ensures m.bound.Some? ==> r.state == Stopped
    ensures m.bound.None? ==> r.state == m.state
  {
    Attach(Detach(m).(bound := value))
  }

  /** OnSerializing / SaveState: the saved position is overwritten with the
      storyboard's current position; with no storyboard built the source
      dereferences null. */
  function OnSerializing(m: AnimationModel): (r: Result<AnimationModel, Fault>)
    ensures r.Failure? <==> m.board.None?
    ensures r.Failure? ==> r.error == NullReference
    ensures r.Success? ==> r.value == m.(savedTime := m.board.value.position)
  {
    if m.board.None? then Failure(NullReference)
    else Success(m.(savedTime := m.board.value.position))
  }

  /** What the binary formatter writes: every field not marked [NonSerialized]. */
  datatype Snapshot = Snapshot(kind: AnimationKind, config: AnimationConfiguration, state: AnimationState, savedTime: int)

  function Capture(m: AnimationModel): (s: Snapshot)
  {
    Snapshot(m.kind, m.config, m.state, m.savedTime)
  }

  /** A deserialised instance: its serialised fields come back, the
      non-serialised ones (target, storyboard, build-once flag) are defaults. */
  function Deserialized(s: Snapshot): (m: AnimationModel)
    ensures Inv(m) && m.bound.None? && !m.created
    ensures Capture(m) == s
  {
    AnimationModel(s.kind, s.config, s.state, None, false, s.savedTime, None)
  }

  // ---------------------------------------------------------------------------
  // Properties of the operations

  /** Play, Pause and Stop on an unbound instance change nothing. */
  lemma UnboundOperationsChangeNothing(m: AnimationModel)
    requires Wired(m) && m.bound.None?
    ensures Play(m) == m && Pause(m) == m && Stop(m) == m
  {
  }

  /** Bound, the transitions are: Play ends Playing (resuming from Paused
      without touching the position, beginning again otherwise), Pause ends
      Paused, Stop ends Stopped; from Stopped, Pause too changes the state. */
  lemma BoundTransitions(m: AnimationModel)
    requires Inv(m) && m.bound.Some?
    ensures Play(m).state == Playing && Pause(m).state == Paused && Stop(m).state == Stopped
    ensures m.state == Paused ==> Play(m).board.value.position == m.board.value.position && Play(m).savedTime == m.savedTime
    ensures m.state != Paused ==> Play(m).board.value.phase == Host.Running && Play(m).board.value.position == m.savedTime
    ensures m.state == Stopped ==> Pause(m).state == Paused
  {
  }

  /** Beginning seeks to the saved position when there is one and then clears
      it, so a second begin starts from the storyboard's start. */
  lemma SavedPositionConsumedOnce(m: AnimationModel)
    requires Inv(m) && m.bound.Some?
    ensures Begin(m).savedTime == 0
    ensures Begin(m).board.value.position == m.savedTime
    ensures Begin(Begin(m)).board.value.position == 0
  {
  }

  /** Pausing a bound, stopped instance reports Paused without pausing the
      storyboard's clock, so a following Play reports Playing and resumes a
      clock that never began: the storyboard keeps its phase. */
  lemma PlayAfterPauseFromStopped(m: AnimationModel)
    requires Inv(m) && m.bound.Some? && m.state == Stopped
    requires m.board.value.phase == Host.NotBegun || m.board.value.phase == Host.Stopped
    ensures Play(Pause(m)).state == Playing
    ensures Play(Pause(m)).board.value.phase == m.board.value.phase
  {
  }

  /** Rebinding or unbinding an instance that is bound always ends Stopped,
      with the storyboard stopped at its start and aimed at the new value. */
  lemma RebindFromBoundEndsStopped(m: AnimationModel, value: Option<Host.Target>)
    requires Inv(m) && m.bound.Some?
    ensures var r := SetBoundObject(m, value);
      && r.state == Stopped
      && r.board.value.phase == Host.Stopped && r.board.value.position == 0
      && r.board.value.target == value
      && r.savedTime == m.savedTime
  {
  }

  /** Binding an unbound instance replays its state against the new target:
      Playing begins (at the saved position), Paused begins then pauses there,
      Stopped leaves the storyboard as it was. */
  lemma BindFromUnboundReplaysState(m: AnimationModel, t: Host.Target)
    requires Inv(m) && m.bound.None?
    ensures var r := SetBoundObject(m, Some(t));
      && r.state == m.state && r.board.value.target == Some(t)
      && (m.state == Playing ==> r.board.value.phase == Host.Running && r.board.value.position == m.savedTime && r.savedTime == 0)
      && (m.state == Paused ==> r.board.value.phase == Host.Paused && r.board.value.position == m.savedTime && r.savedTime == 0)
      && (m.state == Stopped ==>
            r.savedTime == m.savedTime && r.board.value.phase == (if m.created then m.board.value.phase else Host.NotBegun))
  {
  }

  /** Assigning null is the same as unbinding: the instance ends unbound with its
      storyboard untargeted, and an unbound instance is left as it was. */
  lemma UnbindDetaches(m: AnimationModel)
    requires Inv(m)
    ensures SetBoundObject(m, None) == Detach(m).(bound := None)
    ensures m.bound.None? ==> SetBoundObject(m, None) == m
  {
  }

  /** Binding again reuses the storyboard and its children: the graph is never
      rebuilt, and the storyboard exists from the first binding on. */
  lemma RebindReusesTimeline(m: AnimationModel, a: Host.Target, b: Option<Host.Target>)
    requires Inv(m)
    ensures var once := SetBoundObject(m, Some(a));
      && once.board.value.timeline == Built(m.kind, m.config)
      && SetBoundObject(once, b).board.value.timeline == once.board.value.timeline
  {
  }

  /** The path-follower's timeline does not depend on the path string given to
      its constructor. */
  lemma PathFollowerIgnoresStoredPath(p: string, q: string, config: AnimationConfiguration)
    ensures Built(PathFollowerKind(p), config) == Built(PathFollowerKind(q), config)
  {
  }

  /** The two hooks differ on the duration: point-to-point sets the
      storyboard's duration to the configured one whatever it was, while the
      path-follower leaves whatever CreateStoryboard set. Both reach the
      configured duration only because CreateStoryboard already set it. */
  lemma OnlyPointToPointSetsDuration(p: PointToPoint.Endpoints, path: string, config: AnimationConfiguration, t: Host.Timeline)
    ensures Animate(PointToPointKind(p), config, t).duration == config.duration
    ensures Animate(PathFollowerKind(path), config, t).duration == t.duration
    ensures t.duration != config.duration ==>
      Animate(PointToPointKind(p), config, t).duration != Animate(PathFollowerKind(path), config, t).duration
  {
  }

  /** Serialising records the position, and deserialising gives back an unbound
      instance with the same state and that position saved. */
  lemma SerializationRoundTrip(m: AnimationModel)
    requires Inv(m) && m.created
    ensures OnSerializing(m).Success?
    ensures var back := Deserialized(Capture(OnSerializing(m).value));
      back == Fresh(m.kind, m.config).(state := m.state, savedTime := m.board.value.position)
  {
  }

  /** A snapshot taken while Playing, restored and bound, plays again from the
      saved position, and the restored instance no longer holds that position. */
  lemma RestoredPlayingResumesAtSavedPosition(s: Snapshot, t: Host.Target)
    requires s.state == Playing
    ensures var r := SetBoundObject(Deserialized(s), Some(t));
      && r.state == Playing
      && r.board.value.phase == Host.Running && r.board.value.position == s.savedTime
      && r.savedTime == 0
  {
  }

  // ---------------------------------------------------------------------------
  // Any sequence of public operations

  /** Time passing while the instance is left alone: a running storyboard's
      clock advances by d ticks, and nothing else changes. */
  function Elapse(m: AnimationModel, d: nat): (r: AnimationModel)
    ensures (Inv(m) ==> Inv(r)) && Keeps(m, r)
    ensures r.state == m.state && r.bound == m.bound && r.savedTime == m.savedTime && r.created == m.created
    ensures r.board.Some? <==> m.board.Some?
    ensures m.board.Some? ==> r.board.value == Host.AfterElapse(m.board.value, d)
  {
    match m.board
    case None => m
    case Some(b) => m.(board := Some(Host.AfterElapse(b, d)))
  }

  /** A public operation on an animation instance, or time passing. */
  datatype Operation = PlayOp | PauseOp | StopOp | BindOp(value: Option<Host.Target>) | SerializeOp | ElapseOp(ticks: nat)

  /** What no operation changes: the configuration, the variant, and once
      built, the storyboard's graph. */
  ghost predicate Keeps(m: AnimationModel, r: AnimationModel)
  {
    && r.kind == m.kind && r.config == m.config
    && (m.board.Some? ==> r.board.Some? && r.board.value.timeline == m.board.value.timeline)
  }

  /** One public operation; a serialisation that throws changes nothing. */
  function Apply(m: AnimationModel, op: Operation): (r: AnimationModel)
    requires Inv(m)
    ensures Inv(r) && Keeps(m, r)
  {
    match op
    case PlayOp => Play(m)
    case PauseOp => Pause(m)
    case StopOp => Stop(m)
    case BindOp(value) => SetBoundObject(m, value)
    case ElapseOp(d) => Elapse(m, d)
    case SerializeOp =>
      match OnSerializing(m)
      case Success(n) => n
      case Failure(_) => m
  }

  /** A sequence of public operations keeps the invariant and never rebuilds
      the storyboard. */
  function Run(m: AnimationModel, ops: seq<Operation>): (r: AnimationModel)
    requires Inv(m)
    ensures Inv(r) && Keeps(m, r)
    decreases |ops|
  {
    if ops == [] then m else Run(Apply(m, ops[0]), ops[1..])
  }

  /** From construction, whatever the operations, the storyboard is built at
      most once (it always holds exactly the two children of one build) and
      exists whenever the instance is bound. */
  lemma BuiltAtMostOnce(kind: AnimationKind, config: AnimationConfiguration, ops: seq<Operation>)
    ensures var r := Run(Fresh(kind, config), ops);
      && (r.bound.Some? ==> r.created && r.board.Some?)
      && (r.created ==> |r.board.value.timeline.children| == 2 && r.board.value.timeline == Built(kind, config))
  {
  }

  /** Time that passes while playing is what a save records and a restore
      resumes from: from construction, bind, play, let d ticks pass and
      serialise; the saved time is d, and the snapshot restored onto the
      target runs from d. */
  lemma {:induction false} ElapsedTimeIsSavedAndResumed(kind: AnimationKind, config: AnimationConfiguration, t: Host.Target, d: nat)
    ensures var saved := Run(Fresh(kind, config), [BindOp(Some(t)), PlayOp, ElapseOp(d), SerializeOp]);
      var restored := SetBoundObject(Deserialized(Capture(saved)), Some(t));
      && saved.state == Playing && saved.savedTime == d
      && restored.state == Playing
      && restored.board.value.phase == Host.Running && restored.board.value.position == d
  {
    var ops := [BindOp(Some(t)), PlayOp, ElapseOp(d), SerializeOp];
    var bound := SetBoundObject(Fresh(kind, config), Some(t));
    var played := Play(bound);
    var elapsed := Elapse(played, d);
    assert bound.board.value.position == 0 && bound.savedTime == 0 && bound.state == Stopped;
    assert played.board.value.phase == Host.Running && played.board.value.position == 0;
    assert elapsed.board.value.position == d;
    calc {
      Run(Fresh(kind, config), ops);
      Run(bound, ops[1..]);
      { assert ops[1..][1..] == [ElapseOp(d), SerializeOp]; }
      Run(played, [ElapseOp(d), SerializeOp]);
      { assert [ElapseOp(d), SerializeOp][1..] == [SerializeOp]; }
      Run(elapsed, [SerializeOp]);
      OnSerializing(elapsed).value;
    }
    RestoredPlayingResumesAtSavedPosition(Capture(OnSerializing(elapsed).value), t);
  }
}
