/** The main window's view model: the command-token dispatch, the
    animation-swap rule, and the save/restore of the animation's state. */
module ViewModel {
  import opened Wrappers
  import Host
  import Repeat
  import opened Configuration
  import PointToPoint
  import PathFollower
  import Lifecycle
  import opened Animation

  // ---------------------------------------------------------------------------
  // Command tokens

  /** The command parameter as it arrives: null, a string, or some other object
      (which `parameter as string` also turns into null). */
  datatype CommandParameter = NullParameter | Text(value: string) | NotText

  datatype AnimationCommand = PlayCommand | PauseCommand | StopCommand

  /** Lower-casing of one character; only the ASCII letters change. */
  function LowerChar(c: char): (l: char)
  {
    if 'A' <= c <= 'Z' then (c as int - 'A' as int + 'a' as int) as char else c
  }

  /** `string.ToLower()`, character by character. */
  function ToLower(s: string): (r: string)
    ensures |r| == |s|
    ensures forall i :: 0 <= i < |s| ==> r[i] == LowerChar(s[i])
  {
    if s == [] then [] else [LowerChar(s[0])] + ToLower(s[1..])
  }

  /** `s` spells the lower-case word `word` in any mix of cases. */
  predicate EqualsIgnoringCase(s: string, word: string)
  {
    |s| == |word| && forall i :: 0 <= i < |s| ==> LowerChar(s[i]) == word[i]
  }

  /** The token classification of HandleStartStopPause: "play", "pause" and
      "stop", in any case, select their command; a null, empty or non-string
      parameter, or any other token, selects none. */
  function ParseCommand(parameter: CommandParameter): (r: Option<AnimationCommand>)
    ensures r == Some(PlayCommand) <==> parameter.Text? && EqualsIgnoringCase(parameter.value, "play")
    ensures r == Some(PauseCommand) <==> parameter.Text? && EqualsIgnoringCase(parameter.value, "pause")
    ensures r == Some(StopCommand) <==> parameter.Text? && EqualsIgnoringCase(parameter.value, "stop")
  {
    match parameter
    case Text(s) =>
      if s == "" then None
      else
        var token := ToLower(s);
        if token == "play" then Some(PlayCommand)
        else if token == "pause" then Some(PauseCommand)
        else if token == "stop" then Some(StopCommand)
        else None
    case _ => None
  }

  /** What a selected command does to the animation. */
  function Dispatch(m: Lifecycle.AnimationModel, command: Option<AnimationCommand>): (r: Lifecycle.AnimationModel)
    requires Lifecycle.Inv(m)
    ensures Lifecycle.Inv(r)
  {
    match command
    case None => m
    case Some(PlayCommand) => Lifecycle.Play(m)
    case Some(PauseCommand) => Lifecycle.Pause(m)
    case Some(StopCommand) => Lifecycle.Stop(m)
  }

  /** Null, empty and non-string parameters, and unknown tokens, do nothing. */
  lemma NonCommandsDoNothing(m: Lifecycle.AnimationModel, parameter: CommandParameter)
    requires Lifecycle.Inv(m)
    requires parameter.NullParameter? || parameter.NotText? || parameter == Text("")
      || (parameter.Text? && !EqualsIgnoringCase(parameter.value, "play")
          && !EqualsIgnoringCase(parameter.value, "pause") && !EqualsIgnoringCase(parameter.value, "stop"))
    ensures Dispatch(m, ParseCommand(parameter)) == m
  {
  }

  /** The three tokens, in any case, run exactly their operation. */
  lemma CommandsRunTheirOperation(m: Lifecycle.AnimationModel, s: string)
    requires Lifecycle.Inv(m)
    ensures EqualsIgnoringCase(s, "play") ==> Dispatch(m, ParseCommand(Text(s))) == Lifecycle.Play(m)
    ensures EqualsIgnoringCase(s, "pause") ==> Dispatch(m, ParseCommand(Text(s))) == Lifecycle.Pause(m)
    ensures EqualsIgnoringCase(s, "stop") ==> Dispatch(m, ParseCommand(Text(s))) == Lifecycle.Stop(m)
  {
  }

  // ---------------------------------------------------------------------------
  // The animation-swap rule

  /** Two seconds, in ticks. */
  const TwoSeconds: int := 20_000_000

  /** The view model's configuration: two seconds, accelerating and decelerating
      over 0.3 each, auto-reversing, repeating forever. */
  const DefaultConfiguration: AnimationConfiguration :=
    AnimationConfiguration(TwoSeconds, Repeat.AnimationRepeatBehavior.Forever(), 0.3, 0.3, true)

  /** The path the view model passes to the path follower. */
  const SelectablePath: string := "M 10,100 C 10,300 300,-200 300,100"

  const PointToPointEndpoints: PointToPoint.Endpoints := PointToPoint.Endpoints(50.0, 50.0, 200.0, 200.0)

  /** The animation an index selects: 0 the point-to-point (50,50) to
      (200,200), 1 the path follower; any other index selects none. */
  function AnimationFor(index: int): (r: Option<Lifecycle.AnimationKind>)
    ensures r.Some? <==> index == 0 || index == 1
  {
    if index == 0 then Some(Lifecycle.PointToPointKind(PointToPointEndpoints))
    else if index == 1 then Some(Lifecycle.PathFollowerKind(SelectablePath))
    else None
  }

  /** The outcome of SetAnimation: the animation that was in place, and the one
      in place afterwards (a new one when `replaced`). */
  datatype Swap = Swap(retired: Lifecycle.AnimationModel, current: Lifecycle.AnimationModel, replaced: bool)

  /** SetAnimation: the old animation is stopped; the selected animation, or
      the old one when the index selects none, is bound to the old target.
      Stopping an unbound animation does nothing, so an unbound old animation
      kept in place keeps its state. */
  function SwapAnimation(previous: Lifecycle.AnimationModel, index: int): (s: Swap)
    requires Lifecycle.Inv(previous)
    ensures s.retired == Lifecycle.Stop(previous)
    ensures s.replaced <==> index == 0 || index == 1
    ensures s.replaced ==> s.current.kind == AnimationFor(index).value && s.current.config == DefaultConfiguration
    ensures !s.replaced ==> s.current.kind == previous.kind && s.current.config == previous.config
    ensures Lifecycle.Inv(s.current) && s.current.bound == previous.bound
    ensures s.replaced || previous.bound.Some? ==> s.current.state == Lifecycle.Stopped
    ensures !s.replaced && previous.bound.None? ==> s.current == previous
  {
    var stopped := Lifecycle.Stop(previous);
    match AnimationFor(index)
    case Some(kind) =>
      Swap(stopped, Lifecycle.SetBoundObject(Lifecycle.Fresh(kind, DefaultConfiguration), previous.bound), true)
    case None =>
      Swap(stopped, Lifecycle.SetBoundObject(stopped, previous.bound), false)
  }

  /** A new animation put in place by the swap is fresh apart from its target:
      nothing saved, and its storyboard built exactly when there is a target. */
  lemma SwapInstallsFreshAnimation(previous: Lifecycle.AnimationModel, index: int)
    requires Lifecycle.Inv(previous) && (index == 0 || index == 1)
    ensures var s := SwapAnimation(previous, index);
      && s.current.savedTime == 0
      && (s.current.created <==> previous.bound.Some?)
      && (previous.bound.Some? ==> s.current.board.value.phase == Host.NotBegun)
  {
  }

  // ---------------------------------------------------------------------------
  // The view model

  class MainWindowViewModel {
    /** The animation in place (the Animation property). */
    var animation: AnimationBase
    var currentAnimation: int
    var x: real
    var y: real
    /** The saved animation bytes, as the snapshot they encode. */
    var animationState: Option<Lifecycle.Snapshot>
    const animationConfiguration: AnimationConfiguration

    ghost predicate Valid()
      reads this, animation, animation.masterStoryboard
    {
      animation.Valid() && animationConfiguration == DefaultConfiguration
    }

    /** X and Y start at 200; animation 0 is installed, unbound. */
    constructor ()
      ensures Valid() && fresh(animation)
      ensures x == 200.0 && y == 200.0 && currentAnimation == 0 && animationState.None?
      ensures animation.Model() == Lifecycle.Fresh(AnimationFor(0).value, DefaultConfiguration)
    {
      x, y := 200.0, 200.0;
      currentAnimation := 0;
      animationState := None;
      animationConfiguration := DefaultConfiguration;
      var installed := AnimationBase.NewPointToPoint(50.0, 50.0, 200.0, 200.0, DefaultConfiguration);
      animation := installed;
      new;
      animation.SetBoundObject(None);
    }

    /** The CurrentAnimation setter: the current index again does nothing;
        another one is recorded and the animations are swapped. */
    method SetCurrentAnimation(value: int)
      requires Valid()
      modifies this, animation, animation.masterStoryboard
      ensures Valid() && x == old(x) && y == old(y) && currentAnimation == value
      ensures value == old(currentAnimation) ==>
        animation == old(animation) && animation.Model() == old(animation.Model()) && animationState == old(animationState)
      ensures value != old(currentAnimation) ==> currentAnimation == value && animationState.None?
      ensures value != old(currentAnimation) ==>
        var s := SwapAnimation(old(animation.Model()), value);
        && old(animation).Model() == s.retired && animation.Model() == s.current
        && (s.replaced ==> fresh(animation)) && (!s.replaced ==> animation == old(animation))
    {
      if currentAnimation == value {
        return;
      }
      currentAnimation := value;
      SetAnimation(value);
    }

    /** SetAnimation: clears the saved bytes, stops the old animation, and binds
        the selected animation (or the old one) to the old one's target. */
    method SetAnimation(value: int)
      requires Valid()
      modifies this, animation, animation.masterStoryboard
      ensures Valid() && currentAnimation == old(currentAnimation) && x == old(x) && y == old(y)
      ensures animationState.None?
      ensures var s := SwapAnimation(old(animation.Model()), value);
        && old(animation).Model() == s.retired && animation.Model() == s.current
        && (s.replaced ==> fresh(animation)) && (!s.replaced ==> animation == old(animation))
    {
      animationState := None;
      animation.StopAnimation();
      var tempObject := animation.boundObject;
      if value == 0 {
        animation := AnimationBase.NewPointToPoint(50.0, 50.0, 200.0, 200.0, animationConfiguration);
      } else if value == 1 {
        assert !PathFollower.IsWhiteSpace(SelectablePath[0]);
        var created := AnimationBase.NewPathFollower(Some(SelectablePath), animationConfiguration);
        match created
        case Success(a) =>
          animation := a;
        case Failure(_) =>
          assert false;
      }
      animation.SetBoundObject(tempObject);
    }

    /** HandleStartStopPause: runs exactly the operation the token selects. */
    method HandleStartStopPause(parameter: CommandParameter)
      requires Valid()
      modifies animation, animation.masterStoryboard
      ensures Valid() && animation.masterStoryboard == old(animation.masterStoryboard)
      ensures animation.Model() == Dispatch(old(animation.Model()), ParseCommand(parameter))
    {
      var command := ParseCommand(parameter);
      match command
      case None =>
      case Some(PlayCommand) =>
        animation.PlayAnimation();
      case Some(PauseCommand) =>
        animation.PauseAnimation();
      case Some(StopCommand) =>
        animation.StopAnimation();
    }

    /** SaveAnimationState, run inline: serialise the animation (which records
        its position), keep the snapshot, then stop the animation. With no
        storyboard built, serialisation throws and nothing is kept. */
    method SaveAnimationState() returns (outcome: Outcome<Lifecycle.Fault>)
      requires Valid()
      modifies this, animation, animation.masterStoryboard
      ensures Valid() && animation == old(animation) && animation.masterStoryboard == old(animation.masterStoryboard)
      ensures currentAnimation == old(currentAnimation) && x == old(x) && y == old(y)
      ensures outcome.Fail? <==> old(animation.masterStoryboard) == null
      ensures outcome.Fail? ==> animationState == old(animationState) && animation.Model() == old(animation.Model())
      ensures outcome.Pass? ==>
        var saved := Lifecycle.OnSerializing(old(animation.Model())).value;
        animationState == Some(Lifecycle.Capture(saved)) && animation.Model() == Lifecycle.Stop(saved)
    {
      outcome := animation.OnSerializing();
      if outcome.Fail? {
        return;
      }
      animationState := Some(Lifecycle.Capture(animation.Model()));
      animation.StopAnimation();
    }

    /** RestoreAnimationState, run inline: with no saved bytes, nothing happens;
        otherwise the animation is replaced by the deserialised one and bound
        to the old animation's target. The old animation is left as it was,
        and the saved bytes are kept. */
    method RestoreAnimationState()
      requires Valid()
      modifies this
      ensures Valid() && animationState == old(animationState) && currentAnimation == old(currentAnimation)
      ensures x == old(x) && y == old(y)
      ensures old(animationState).None? ==> animation == old(animation)
      ensures old(animationState).Some? ==>
        && fresh(animation)
        && animation.Model() == Lifecycle.SetBoundObject(Lifecycle.Deserialized(old(animationState).value), old(animation.boundObject))
      ensures old(animation).Model() == old(animation.Model())
    {
      if animationState.None? {
        return;
      }
      var oldBoundObject := animation.boundObject;
      animation := new AnimationBase.Deserialize(animationState.value);
      animation.SetBoundObject(oldBoundObject);
    }
  }

  /** Saving a playing animation and restoring it onto its target plays it
      again from the position it had when saved. */
  lemma SaveRestoreResumes(m: Lifecycle.AnimationModel, t: Host.Target)
    requires Lifecycle.Inv(m) && m.bound == Some(t) && m.state == Lifecycle.Playing
    ensures var saved := Lifecycle.Capture(Lifecycle.OnSerializing(m).value);
      var restored := Lifecycle.SetBoundObject(Lifecycle.Deserialized(saved), Some(t));
      && restored.state == Lifecycle.Playing
      && restored.board.value.phase == Host.Running
      && restored.board.value.position == m.board.value.position
      && restored.savedTime == 0
  {
    Lifecycle.RestoredPlayingResumesAtSavedPosition(Lifecycle.Capture(Lifecycle.OnSerializing(m).value), t);
  }

  /** Saving changes the live animation too: serialisation records its
      position as the saved time, which the stop that follows keeps. So playing
      the live animation after a save resumes where it was saved, not from the
      start. */
  lemma SaveLeavesLiveAnimationResumable(m: Lifecycle.AnimationModel)
    requires Lifecycle.Inv(m) && m.bound.Some? && m.board.Some?
    ensures Lifecycle.OnSerializing(m).Success?
    ensures var after := Lifecycle.Play(Lifecycle.Stop(Lifecycle.OnSerializing(m).value));
      && after.state == Lifecycle.Playing
      && after.board.value.phase == Host.Running
      && after.board.value.position == m.board.value.position
      && after.savedTime == 0
  {
  }
}
