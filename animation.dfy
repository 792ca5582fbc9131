/** The animation base class: the lifecycle state machine over a mutable
    storyboard. Each method changes the fields exactly as the function of the
    same name in module Lifecycle says; the two concrete animations are the two
    variants of `kind`, whose CreateAnimation hooks live in modules
    PointToPoint and PathFollower. */
module Animation {
  import opened Wrappers
  import Host
  import opened Configuration
  import PointToPoint
  import PathFollower
  import opened Lifecycle

  class AnimationBase {
    /** The concrete animation and what it was constructed with. */
    const kind: AnimationKind
    const animationConfiguration: AnimationConfiguration
    var currentAnimationState: AnimationState
    /** Saved position for restoring the timeline; 0 means nothing saved. */
    var currentTime: int
    /** The master storyboard; null until first attached. */
    var masterStoryboard: Host.Storyboard?
    var boundObject: Option<Host.Target>
    var animationCreated: bool

    /** The instance as a value. */
    function Model(): AnimationModel
      reads this, masterStoryboard
    {
      AnimationModel(kind, animationConfiguration, currentAnimationState, boundObject, animationCreated, currentTime,
        if masterStoryboard == null then None else Some(masterStoryboard.State()))
    }

    ghost predicate Valid()
      reads this, masterStoryboard
    {
      Inv(Model())
    }

    /** The base constructor: Stopped, unbound, with nothing built. */
    constructor (kind: AnimationKind, configuration: AnimationConfiguration)
      ensures Valid() && Model() == Fresh(kind, configuration)
      ensures currentAnimationState == Stopped && !IsBound() && !animationCreated && masterStoryboard == null
    {
      this.kind := kind;
      animationConfiguration := configuration;
      currentAnimationState := Stopped;
      currentTime := 0;
      masterStoryboard := null;
      boundObject := None;
      animationCreated := false;
    }

    /** An instance as the binary formatter rebuilds it from a snapshot. */
    constructor Deserialize(s: Snapshot)
      ensures Valid() && Model() == Deserialized(s)
    {
      kind := s.kind;
      animationConfiguration := s.config;
      currentAnimationState := s.state;
      currentTime := s.savedTime;
      masterStoryboard := null;
      boundObject := None;
      animationCreated := false;
    }

    /** `new PointToPointAnimation(startX, startY, endX, endY, configuration)` */
    static method NewPointToPoint(startX: real, startY: real, endX: real, endY: real, configuration: AnimationConfiguration)
      returns (a: AnimationBase)
      ensures fresh(a) && a.Valid() && a.masterStoryboard == null
      ensures a.Model() == Fresh(PointToPointKind(PointToPoint.Endpoints(startX, startY, endX, endY)), configuration)
    {
      a := new AnimationBase(PointToPointKind(PointToPoint.Endpoints(startX, startY, endX, endY)), configuration);
    }

    /** `new PathFollowerAnimation(pathGeometry, configuration)`: throws
        ArgumentException when the path is null, empty or all white space,
        and otherwise keeps the path unchanged. */
    static method NewPathFollower(pathGeometry: Option<string>, configuration: AnimationConfiguration)
      returns (r: Result<AnimationBase, PathFollower.ArgumentError>)
      ensures r.Failure? <==> PathFollower.IsNullOrWhiteSpace(pathGeometry)
      ensures r.Failure? ==> r.error == PathFollower.ArgumentException("pathGeometry")
      ensures r.Success? ==> fresh(r.value) && r.value.Valid() && r.value.masterStoryboard == null
      ensures r.Success? ==> r.value.Model() == Fresh(PathFollowerKind(pathGeometry.value), configuration)
    {
      match PathFollower.ValidatePathGeometry(pathGeometry)
      case Failure(e) =>
        r := Failure(e);
      case Success(path) =>
        var a := new AnimationBase(PathFollowerKind(path), configuration);
        r := Success(a);
    }

    /** IsBound: whether a target is set. It is exactly the condition under
        which the dispatcher helper does not throw, and on a valid instance a
        bound one always has its storyboard. */
    predicate IsBound(): (b: bool)
      reads this, masterStoryboard
      ensures b <==> Lifecycle.DispatchGuard(Model()).Pass?
      ensures b && Valid() ==> masterStoryboard != null && masterStoryboard.target == boundObject
    {
      boundObject.Some?
    }

    /** The BoundObject setter: detach from the old target, assign, attach. */
    method SetBoundObject(value: Option<Host.Target>)
      requires Valid()
      modifies this, masterStoryboard
      ensures Valid() && Model() == Lifecycle.SetBoundObject(old(Model()), value)
      ensures old(masterStoryboard) != null ==> masterStoryboard == old(masterStoryboard)
      ensures old(masterStoryboard) == null && masterStoryboard != null ==> fresh(masterStoryboard)
    {
      DetachAnimation();
      boundObject := value;
      AttachAnimation();
    }

    /** Plays the animation: resumes if paused, starts from the start (or the
        saved position) otherwise. */
    method PlayAnimation()
      requires Wired(Model())
      modifies this, masterStoryboard
      ensures masterStoryboard == old(masterStoryboard)
      ensures Model() == Play(old(Model()))
    {
      if !IsBound() {
        return;
      }
      if currentAnimationState == Paused {
        masterStoryboard.Resume();
      } else {
        BeginAnimation();
      }
      currentAnimationState := Playing;
    }

    method PauseAnimation()
      requires Wired(Model())
      modifies this, masterStoryboard
      ensures masterStoryboard == old(masterStoryboard)
      ensures Model() == Pause(old(Model()))
    {
      if !IsBound() {
        return;
      }
      masterStoryboard.Pause();
      currentAnimationState := Paused;
    }

    method StopAnimation()
      requires Wired(Model())
      modifies this, masterStoryboard
      ensures masterStoryboard == old(masterStoryboard)
      ensures Model() == Stop(old(Model()))
    {
      if !IsBound() {
        return;
      }
      masterStoryboard.Stop();
      currentAnimationState := Stopped;
    }

    /** Stops playback on the old target and clears the storyboard's target.
        The dispatcher helper's guard cannot fire: the target was checked first. */
    method DetachAnimation()
      requires Valid()
      modifies this, masterStoryboard
      ensures masterStoryboard == old(masterStoryboard)
      ensures Model() == Detach(old(Model()))
    {
      if boundObject.None? {
        return;
      }
      assert DispatchGuard(Model()).Pass?;
      StopAnimation();
      masterStoryboard.SetTarget(None);
    }

    /** Builds the storyboard once, targets it at the bound object, freezes it
        and replays the logical state. The dispatcher helper's guard cannot
        fire: the target was checked first. */
    method AttachAnimation()
      requires Detached(Model())
      modifies this, masterStoryboard
      ensures Model() == Attach(old(Model()))
      ensures old(masterStoryboard) != null ==> masterStoryboard == old(masterStoryboard)
      ensures old(masterStoryboard) == null && masterStoryboard != null ==> fresh(masterStoryboard)
    {
      if !IsBound() {
        return;
      }
      assert DispatchGuard(Model()).Pass?;
      if !animationCreated {
        CreateStoryboard();
        CreateAnimation();
        animationCreated := true;
      }
      masterStoryboard.SetTarget(boundObject);
      masterStoryboard.Freeze();
      SyncCurrentState();
    }

    /** The concrete animation's hook, dispatched on the variant. */
    method CreateAnimation()
      requires masterStoryboard != null
      modifies masterStoryboard
      ensures masterStoryboard.State() == old(masterStoryboard.State()).(timeline := Animate(kind, animationConfiguration, old(masterStoryboard.State()).timeline))
    {
      match kind
      case PointToPointKind(p) => PointToPoint.CreateAnimation(masterStoryboard, p, animationConfiguration);
      case PathFollowerKind(_) => PathFollower.CreateAnimation(masterStoryboard, animationConfiguration);
    }

    /** Serialisation callback (SaveState): records the storyboard's current
        position as the saved position; with no storyboard built it throws. */
    method OnSerializing() returns (outcome: Outcome<Fault>)
      modifies this
      ensures masterStoryboard == old(masterStoryboard)
      ensures outcome.Fail? <==> Lifecycle.OnSerializing(old(Model())).Failure?
      ensures outcome.Fail? ==> outcome.error == NullReference && Model() == old(Model())
      ensures outcome.Pass? ==> Model() == Lifecycle.OnSerializing(old(Model())).value
    {
      if masterStoryboard == null {
        return Fail(NullReference);
      }
      currentTime := masterStoryboard.GetCurrentTime();
      outcome := Pass;
    }

    /** Creates the master storyboard from the configuration. */
    method CreateStoryboard()
      modifies this
      ensures fresh(masterStoryboard) && masterStoryboard.State() == Host.NewBoard(Settings(animationConfiguration))
      ensures currentAnimationState == old(currentAnimationState) && currentTime == old(currentTime)
      ensures boundObject == old(boundObject) && animationCreated == old(animationCreated)
    {
      masterStoryboard := new Host.Storyboard(Settings(animationConfiguration));
    }

    /** Starts the storyboard from its beginning, then seeks to the saved
        position if there is one and clears it. */
    method BeginAnimation()
      requires Wired(Model())
      modifies this, masterStoryboard
      ensures masterStoryboard == old(masterStoryboard)
      ensures Model() == Begin(old(Model()))
    {
      if !IsBound() {
        return;
      }
      masterStoryboard.Begin();
      if currentTime != 0 {
        masterStoryboard.Seek(currentTime);
        currentTime := 0;
      }
    }

    /** Replays the logical state against the storyboard. */
    method SyncCurrentState()
      requires Wired(Model())
      modifies this, masterStoryboard
      ensures masterStoryboard == old(masterStoryboard)
      ensures Model() == Lifecycle.SyncCurrentState(old(Model()))
    {
      match currentAnimationState
      case Playing =>
        PlayAnimation();
      case Paused =>
        BeginAnimation();
        PauseAnimation();
      case Stopped =>
    }
  }
}
