# Saveable code-based animations: a Dafny model of the animation lifecycle

This project models the core of a small WPF demo that drives "code based"
animations. An animation instance holds a logical state (Stopped, Playing or
Paused), an optional bound visual target, a build-once flag for its master
storyboard, and a one-shot saved playback position recorded when the instance
is serialised. Play, pause and stop are guarded no-ops while unbound. Setting
the bound object first detaches (stops playback and clears the storyboard's
target), then attaches (builds the storyboard and its two child curves once,
targets and freezes it, and replays the logical state). Two concrete
animations (point-to-point and path-follower) supply the child curves; a
repeat-behaviour value converts to the host's repeat value; a view model
dispatches "play"/"pause"/"stop" tokens, swaps animations and saves/restores
the animation's state.

Layout (one module per file):

- `wrappers.dfy` (`Wrappers`): Option, Result and Outcome, standing for null and thrown exceptions.
- `storyboard.dfy` (`Host`): the host storyboard as a class with the fields the core touches
  (phase NotBegun/Running/Paused/Stopped, target, position, children, frozen flag, timeline settings)
  and one method per engine call (Begin, Resume, Pause, Stop, Seek, GetCurrentTime, SetTarget, Freeze,
  adding a child, setting the duration). It is foreign code: its contracts only say what each call does to those fields.
- `repeat.dfy` (`Repeat`): `AnimationRepeatBehavior`, its four factories and the conversion.
- `configuration.dfy` (`Configuration`): the configuration record.
- `point_to_point.dfy`, `path_follower.dfy`: the constructors' data and validation, and each `CreateAnimation` hook.
- `lifecycle.dfy` (`Lifecycle`): the instance as a value and one function per base-class operation,
  with the invariant they keep and the lemmas about them.
- `animation.dfy` (`Animation`): the base class `AnimationBase` with the source's fields. Each method is
  proved to change the fields exactly as a `Lifecycle` or `Host` function says. For the public operations
  and the attach/detach helpers that is the `Lifecycle` function of the same name. `CreateStoryboard`
  follows `Host.NewBoard` of the configured settings, and `CreateAnimation` follows `Lifecycle.Animate`.
  The two constructors follow `Lifecycle.Fresh` and `Lifecycle.Deserialized`.
- `view_model.dfy` (`ViewModel`): token parsing, the swap rule, and the `MainWindowViewModel` class.

Modelling choices:

- The C# class hierarchy (abstract base, two subclasses, virtual `CreateAnimation`) is one class
  with a `kind` field, PointToPointKind or PathFollowerKind. `CreateAnimation` dispatches on it.
- TimeSpan and Duration values are integers counting 100 ns ticks. Two seconds is 20,000,000 ticks.
  A saved position of 0 is `default(TimeSpan)`, so a saved zero looks the same as "nothing saved".
- Time passing is an operation of its own (`Lifecycle.Elapse`, `ElapseOp`): it advances a running
  storyboard's position by a number of ticks and changes nothing else. It is what gives a save a
  non-zero position to record (`Lifecycle.ElapsedTimeIsSavedAndResumed`).
- Doubles (coordinates, ratios, iteration counts) are `real`. The model never does arithmetic on them.
- Parsed path geometry is kept as its text.
- `Dispatcher.Invoke` runs its action inline. The helper's unbound guard is `Lifecycle.DispatchGuard`.
  `DetachAnimation` and `AttachAnimation` assert that the guard cannot fire.
- The binary formatter is reduced to its net effect. A `Snapshot` holds the fields not marked
  `[NonSerialized]`: kind, configuration, logical state and saved position. Deserialising gives an
  unbound instance with no storyboard. The save and restore work items run inline.
- The host storyboard's semantics are an assumption of this model. Begin runs from position 0.
  Resume acts only on a paused clock. Pause acts only on a running clock. Stop halts and rewinds.
  Seek sets the position.
- `ToLower` changes only the ASCII letters. The non-ASCII case mappings that end in an ASCII letter
  produce only `i` and `k`, and neither letter occurs in "play", "pause" or "stop".

Behaviours of the code that a reader might not expect:

- `DetachAnimation` calls `StopAnimation` while the old target is still bound, which sets the state
  to Stopped. So rebinding or unbinding a bound instance always ends Stopped, and the new target
  does not start playing. Only binding from the unbound condition replays Playing or Paused
  (`Lifecycle.RebindFromBoundEndsStopped`, `Lifecycle.BindFromUnboundReplaysState`).
- `PauseAnimation` changes a bound, Stopped instance to Paused. So Stopped also has a Pause
  transition, not only Play (`Lifecycle.BoundTransitions`).
- `CurrentAnimationState` is an auto-property whose backing field is serialised. So the restored
  instance keeps the logical state it was saved with, and a saved Playing instance plays again when
  bound (`Lifecycle.RestoredPlayingResumesAtSavedPosition`).
- Restoring does not clear the saved bytes (`ViewModel.MainWindowViewModel.RestoreAnimationState`
  keeps `animationState`). The deserialised instance's saved position is consumed when it begins, but
  a second restore deserialises the same bytes again, so it resumes at the same point.
- Saving also changes the live animation: serialisation records its position as its saved time, and
  the stop that follows keeps it. Playing it after a save resumes where it was saved, not from the
  start (`ViewModel.SaveLeavesLiveAnimationResumable`).
- The configuration's ratios are not constrained; the code enforces no range on them.

## Model

| member | source | states |
|---|---|---|
| `Repeat.AnimationRepeatBehavior.Forever` | AnimationTestingPartDeux/Animation/AnimationRepeatBehavior.cs:52-58 | the Forever factory converts to the host's Forever repeat |
| `Repeat.AnimationRepeatBehavior.Once` | AnimationTestingPartDeux/Animation/AnimationRepeatBehavior.cs:63-69 | Once is the same value as Iterations(1) and converts to a count-based repeat of 1 |
| `Repeat.AnimationRepeatBehavior.Timed` | AnimationTestingPartDeux/Animation/AnimationRepeatBehavior.cs:76-79 | Timed(t) converts to a duration-based repeat carrying exactly t |
| `Repeat.AnimationRepeatBehavior.Iterations` | AnimationTestingPartDeux/Animation/AnimationRepeatBehavior.cs:86-89 | Iterations(n) converts to a count-based repeat carrying exactly n |
| `Repeat.ConversionLosesNothing` | AnimationTestingPartDeux/Animation/AnimationRepeatBehavior.cs:92-105 | on every factory-built behaviour the conversion is undone by choosing the matching factory: nothing the mode uses is lost |
| `Repeat.ConversionIsOnto` | AnimationTestingPartDeux/Animation/AnimationRepeatBehavior.cs:92-105 | every host repeat value is the conversion of some factory value, so no host repeat kind is out of reach of the factories |
| `Repeat.ToRepeatBehavior` | AnimationTestingPartDeux/Animation/AnimationRepeatBehavior.cs:92-105 | the kind of host repeat is decided by the mode alone, in both directions (Forever, Timed, Numbered); a timed repeat carries the behaviour's duration and a counted one its iterations; every mode is handled, so the trailing fallback after the switch is never reached |
| `PointToPoint.Animated` | AnimationTestingPartDeux/Animation/PointToPointAnimation.cs:54-71 | the storyboard duration becomes the configured one; exactly two children are appended, X (StartX to EndX, Canvas.Left) then Y (StartY to EndY, Canvas.Top), both frozen and over the configured duration; the existing children and all other settings are unchanged |
| `PointToPoint.CreateAnimation` | AnimationTestingPartDeux/Animation/PointToPointAnimation.cs:54-71 | running the hook against the storyboard changes its timeline exactly as `Animated` says and leaves phase, target, position and frozen flag alone |
| `PathFollower.AllWhiteSpaceMeansNoOtherCharacter` | AnimationTestingPartDeux/Animation/PathFollowerAnimation.cs:25 | the character-by-character white-space scan accepts a string exactly when every character is white space |
| `PathFollower.ValidatePathGeometry` | AnimationTestingPartDeux/Animation/PathFollowerAnimation.cs:22-31 | a path is accepted, unchanged, exactly when it is non-null and has a character that is not white space; otherwise ArgumentException naming "pathGeometry" |
| `PathFollower.Animated` | AnimationTestingPartDeux/Animation/PathFollowerAnimation.cs:36-63 | exactly two children are appended, X (path source X, Canvas.Left) then Y (path source Y, Canvas.Top), both frozen, over the configured duration and sharing the geometry of the hard-coded path; the storyboard's own duration and settings are untouched |
| `PathFollower.CreateAnimation` | AnimationTestingPartDeux/Animation/PathFollowerAnimation.cs:36-63 | running the hook against the storyboard changes its timeline exactly as `Animated` says |
| `Lifecycle.Built` | AnimationTestingPartDeux/Animation/AnimationBase.cs:190-196 | the storyboard built on first attach has the configured duration, converted repeat, ratios and auto-reverse, and exactly two frozen children over the configured duration, Canvas.Left first and Canvas.Top second |
| `Lifecycle.Begin` | AnimationTestingPartDeux/Animation/AnimationBase.cs:249-263 | unbound, nothing changes; bound, the storyboard is running at the saved position (its start when nothing is saved) and the saved position is consumed |
| `Lifecycle.Play` | AnimationTestingPartDeux/Animation/AnimationBase.cs:110-127 | unbound, nothing changes; bound, the state ends Playing; from Paused the storyboard resumes and the position and saved time are untouched; otherwise it begins again at the saved position, which is consumed |
| `Lifecycle.Pause` | AnimationTestingPartDeux/Animation/AnimationBase.cs:132-142 | unbound, nothing changes; bound, the storyboard is paused and the state ends Paused whatever it was |
| `Lifecycle.Stop` | AnimationTestingPartDeux/Animation/AnimationBase.cs:147-157 | unbound, nothing changes; bound, the storyboard is stopped and the state ends Stopped; the saved time is kept |
| `Lifecycle.DispatchGuard` | AnimationTestingPartDeux/Animation/AnimationBase.cs:221-229 | the dispatcher helper fails with InvalidOperation exactly when the instance is unbound |
| `Lifecycle.Detach` | AnimationTestingPartDeux/Animation/AnimationBase.cs:162-175 | with a target, the state becomes Stopped, the storyboard is stopped and untargeted, and the saved time and the graph are kept; without one, nothing changes |
| `Lifecycle.BuiltBoard` | AnimationTestingPartDeux/Animation/AnimationBase.cs:234-244 | CreateStoryboard followed by CreateAnimation gives a not-yet-begun storyboard at position 0 holding the built graph |
| `Lifecycle.SyncCurrentState` | AnimationTestingPartDeux/Animation/AnimationBase.cs:268-282 | replaying keeps the logical state and the target, and keeps the invariant |
| `Lifecycle.Attach` | AnimationTestingPartDeux/Animation/AnimationBase.cs:180-202 | with a target, the storyboard exists afterwards, targets the bound object and the invariant holds; an existing graph is reused, not rebuilt; the logical state is kept; without a target, nothing changes |
| `Lifecycle.SetBoundObject` | AnimationTestingPartDeux/Animation/AnimationBase.cs:61-66 | the new target is recorded and the invariant kept; the storyboard exists from the first non-null target on and is never rebuilt; a bound instance always ends Stopped, an unbound one keeps its state |
| `Lifecycle.OnSerializing` | AnimationTestingPartDeux/Animation/AnimationBase.cs:288-292 | the saved time is overwritten with the storyboard's current position; with no storyboard the source dereferences null |
| `Lifecycle.Deserialized` | AnimationTestingPartDeux/Animation/AnimationBase.cs:16-37 | a deserialised instance is unbound, has no storyboard, keeps the invariant, and carries back exactly the serialised fields |
| `Lifecycle.UnboundOperationsChangeNothing` | AnimationTestingPartDeux/Animation/AnimationBase.cs:112-152 | Play, Pause and Stop on an unbound instance leave state, saved time and storyboard untouched |
| `Lifecycle.BoundTransitions` | AnimationTestingPartDeux/Animation/AnimationBase.cs:117-156 | bound: Play ends Playing, Pause ends Paused, Stop ends Stopped; Play from Paused keeps the position, from any other state runs from the saved position; Pause from Stopped gives Paused |
| `Lifecycle.SavedPositionConsumedOnce` | AnimationTestingPartDeux/Animation/AnimationBase.cs:256-262 | a begin seeks to the saved position and clears it, so the next begin starts from the start |
| `Lifecycle.PlayAfterPauseFromStopped` | AnimationTestingPartDeux/Animation/AnimationBase.cs:117-141 | pausing a bound Stopped instance and then playing it reports Playing while the storyboard keeps its not-running phase |
| `Lifecycle.RebindFromBoundEndsStopped` | AnimationTestingPartDeux/Animation/AnimationBase.cs:162-174 | rebinding or unbinding a bound instance ends Stopped, with the storyboard stopped at its start, aimed at the new value, and the saved time kept |
| `Lifecycle.BindFromUnboundReplaysState` | AnimationTestingPartDeux/Animation/AnimationBase.cs:268-281 | binding from unbound keeps the state: Playing runs from the saved position, Paused is paused there, and Stopped leaves the storyboard and saved time as they were |
| `Lifecycle.UnbindDetaches` | AnimationTestingPartDeux/Animation/AnimationBase.cs:61-66 | assigning null is detaching and leaving unbound; on an unbound instance it changes nothing |
| `Lifecycle.RebindReusesTimeline` | AnimationTestingPartDeux/Animation/AnimationBase.cs:190-198 | after the first binding the storyboard holds the built graph, and any later binding keeps that same graph |
| `Lifecycle.PathFollowerIgnoresStoredPath` | AnimationTestingPartDeux/Animation/PathFollowerAnimation.cs:38-39 | the path-follower's built storyboard is the same whatever path string was given to the constructor |
| `Lifecycle.OnlyPointToPointSetsDuration` | AnimationTestingPartDeux/Animation/PointToPointAnimation.cs:54-71 | the point-to-point hook sets the storyboard's duration to the configured one whatever it was, the path-follower hook leaves it as it found it, so the two differ whenever the storyboard's duration was not the configured one |
| `Lifecycle.SerializationRoundTrip` | AnimationTestingPartDeux/Animation/AnimationBase.cs:212-215 | serialising a built instance succeeds, and deserialising gives back a fresh unbound instance with the same state and the storyboard's position saved |
| `Lifecycle.RestoredPlayingResumesAtSavedPosition` | AnimationTestingPartDeux/Animation/AnimationBase.cs:256-281 | a snapshot saved while Playing, deserialised and bound, runs from the saved position and no longer holds it |
| `Lifecycle.Apply` | AnimationTestingPartDeux/Animation/AnimationBase.cs:61-157 | every public operation, and time passing, keeps the invariant, the variant and configuration, and once built, the storyboard's graph |
| `Lifecycle.Elapse` | AnimationTestingPartDeux/Animation/AnimationBase.cs:211-214 | time passing moves only a running storyboard's position, by exactly the elapsed ticks, which is the current time `SaveState` reads; state, target, saved time and graph are unchanged and the invariant is kept |
| `Lifecycle.Run` | AnimationTestingPartDeux/Animation/AnimationBase.cs:61-157 | any sequence of public operations, with time passing between them, keeps the invariant and never rebuilds the storyboard |
| `Lifecycle.BuiltAtMostOnce` | AnimationTestingPartDeux/Animation/AnimationBase.cs:190-198 | from construction, whatever the operations, a bound instance has its storyboard, and a built storyboard holds exactly one build's two children |
| `Animation.AnimationBase.constructor` | AnimationTestingPartDeux/Animation/AnimationBase.cs:43-47 | a new instance is Stopped, unbound, has nothing saved and no storyboard |
| `Animation.AnimationBase.Deserialize` | AnimationTestingPartDeux/Animation/AnimationBase.cs:16-37 | a rebuilt instance has exactly the fields `Lifecycle.Deserialized` gives |
| `Animation.AnimationBase.NewPointToPoint` | AnimationTestingPartDeux/Animation/PointToPointAnimation.cs:22-29 | stores StartX, StartY, EndX and EndY as given, with the configuration, in a new Stopped, unbound instance |
| `Animation.AnimationBase.NewPathFollower` | AnimationTestingPartDeux/Animation/PathFollowerAnimation.cs:22-31 | throws ArgumentException exactly when the path is null or white space; otherwise a new Stopped, unbound instance storing the path unchanged |
| `Animation.AnimationBase.IsBound` | AnimationTestingPartDeux/Animation/AnimationBase.cs:73-79 | true exactly when the dispatcher helper's unbound guard does not fire; on a valid instance a bound one has its storyboard, aimed at the bound target |
| `Animation.AnimationBase.SetBoundObject` | AnimationTestingPartDeux/Animation/AnimationBase.cs:61-66 | the fields change as `Lifecycle.SetBoundObject` says; an existing storyboard object is kept, a new one is only made when there was none |
| `Animation.AnimationBase.PlayAnimation` | AnimationTestingPartDeux/Animation/AnimationBase.cs:110-127 | the fields change as `Lifecycle.Play` says and the storyboard object is kept |
| `Animation.AnimationBase.PauseAnimation` | AnimationTestingPartDeux/Animation/AnimationBase.cs:132-142 | the fields change as `Lifecycle.Pause` says |
| `Animation.AnimationBase.StopAnimation` | AnimationTestingPartDeux/Animation/AnimationBase.cs:147-157 | the fields change as `Lifecycle.Stop` says |
| `Animation.AnimationBase.DetachAnimation` | AnimationTestingPartDeux/Animation/AnimationBase.cs:162-175 | the fields change as `Lifecycle.Detach` says, and the dispatcher guard cannot fire |
| `Animation.AnimationBase.AttachAnimation` | AnimationTestingPartDeux/Animation/AnimationBase.cs:180-202 | the fields change as `Lifecycle.Attach` says, and the dispatcher guard cannot fire |
| `Animation.AnimationBase.CreateAnimation` | AnimationTestingPartDeux/Animation/AnimationBase.cs:207 | the variant's hook changes the storyboard's timeline as that variant's `Animated` says |
| `Animation.AnimationBase.OnSerializing` | AnimationTestingPartDeux/Animation/AnimationBase.cs:212-215 | the saved time becomes the storyboard's current position, or the call fails with a null dereference and changes nothing |
| `Animation.AnimationBase.CreateStoryboard` | AnimationTestingPartDeux/Animation/AnimationBase.cs:234-244 | a new storyboard with the configuration's settings and no children; nothing else changes |
| `Animation.AnimationBase.BeginAnimation` | AnimationTestingPartDeux/Animation/AnimationBase.cs:249-263 | the fields change as `Lifecycle.Begin` says |
| `Animation.AnimationBase.SyncCurrentState` | AnimationTestingPartDeux/Animation/AnimationBase.cs:268-282 | the fields change as `Lifecycle.SyncCurrentState` says |
| `ViewModel.ToLower` | AnimationTestingPartDeux/ViewModels/MainWindowViewModel.cs:218 | lower-casing keeps the length and lower-cases each character in place |
| `ViewModel.ParseCommand` | AnimationTestingPartDeux/ViewModels/MainWindowViewModel.cs:209-230 | "play", "pause" and "stop", in any mix of case, select exactly their command, and nothing else selects one |
| `ViewModel.Dispatch` | AnimationTestingPartDeux/ViewModels/MainWindowViewModel.cs:218-229 | each selected command runs its animation operation, keeping the animation's invariant |
| `ViewModel.NonCommandsDoNothing` | AnimationTestingPartDeux/ViewModels/MainWindowViewModel.cs:211-216 | a null, empty or non-string parameter, or any other token, leaves the animation unchanged |
| `ViewModel.CommandsRunTheirOperation` | AnimationTestingPartDeux/ViewModels/MainWindowViewModel.cs:218-229 | "play", "pause" and "stop", in any case, run exactly Play, Pause and Stop |
| `ViewModel.AnimationFor` | AnimationTestingPartDeux/ViewModels/MainWindowViewModel.cs:193-201 | only indices 0 and 1 select an animation |
| `ViewModel.SwapAnimation` | AnimationTestingPartDeux/ViewModels/MainWindowViewModel.cs:182-207 | the old animation is stopped; the animation in place afterwards is bound to the old target; indices 0 and 1 install point-to-point (50,50) to (200,200) or the path follower with the default configuration, Stopped; any other index keeps the old, stopped animation |
| `ViewModel.SwapInstallsFreshAnimation` | AnimationTestingPartDeux/ViewModels/MainWindowViewModel.cs:193-206 | a newly installed animation has nothing saved and has its storyboard built exactly when the old animation had a target |
| `Lifecycle.ElapsedTimeIsSavedAndResumed` | AnimationTestingPartDeux/Animation/AnimationBase.cs:211-262 | from construction, binding, playing and letting d ticks pass, serialising saves exactly d, and the snapshot restored onto the target runs from d in the Playing state |
| `ViewModel.SaveRestoreResumes` | AnimationTestingPartDeux/ViewModels/MainWindowViewModel.cs:137-180 | saving a playing animation and restoring it onto its target plays it from the position it had when saved, |
| `ViewModel.SaveLeavesLiveAnimationResumable` | AnimationTestingPartDeux/ViewModels/MainWindowViewModel.cs:137-154 | saving a bound animation records its position in the live instance, so playing it after the save resumes at that position, not from the start |
| `ViewModel.MainWindowViewModel.constructor` | AnimationTestingPartDeux/ViewModels/MainWindowViewModel.cs:126-135 | X = Y = 200, index 0, no saved bytes, and a new, unbound point-to-point animation (50,50) to (200,200) with the two-second auto-reversing forever configuration |
| `ViewModel.MainWindowViewModel.SetCurrentAnimation` | AnimationTestingPartDeux/ViewModels/MainWindowViewModel.cs:30-42 | the index ends as the value set, and X and Y are kept; setting the current index again changes nothing else; another index is recorded and the animations are swapped as `SwapAnimation` says |
| `ViewModel.MainWindowViewModel.SetAnimation` | AnimationTestingPartDeux/ViewModels/MainWindowViewModel.cs:182-207 | the saved bytes are cleared and the old and new animations are as `SwapAnimation` says |
| `ViewModel.MainWindowViewModel.HandleStartStopPause` | AnimationTestingPartDeux/ViewModels/MainWindowViewModel.cs:209-230 | the animation changes exactly as the parsed command's operation says |
| `ViewModel.MainWindowViewModel.SaveAnimationState` | AnimationTestingPartDeux/ViewModels/MainWindowViewModel.cs:137-154 | the kept snapshot records the animation with its current position saved, and the animation is then stopped; with no storyboard the save throws and nothing changes; the index, X and Y are always kept |
| `ViewModel.MainWindowViewModel.RestoreAnimationState` | AnimationTestingPartDeux/ViewModels/MainWindowViewModel.cs:156-180 | with no saved bytes nothing happens; otherwise a new deserialised animation is bound to the old target, the old animation is left as it was, and the bytes, the index, X and Y are kept |

## Left out

- WPF storyboard engine internals (clock scheduling beyond `Elapse`, interpolation, `Geometry.Parse`, easing ratios): the
  storyboard is reduced to the fields above, and its methods' effects on them are an assumption.
- The host's rule that a frozen object cannot be changed is not modelled. `SetTarget` succeeds on
  the frozen storyboard. The real toolkit would refuse it on a second attach or on a detach.
- `Dispatcher.Invoke` thread marshalling: the action runs inline. UI-thread affinity is a concurrency concern.
- `ThreadPool` work items and `BinaryFormatter` byte streams in save/restore: the work runs inline,
  and the bytes are the snapshot they encode. In the program, saving before any storyboard exists
  makes `SaveState` (AnimationTestingPartDeux/Animation/AnimationBase.cs:213) throw a
  NullReferenceException out of `BinaryFormatter.Serialize`; the work item
  (AnimationTestingPartDeux/ViewModels/MainWindowViewModel.cs:141-153) has no handler, so the runtime
  treats it as fatal and ends the process. The model's failed outcome, which changes nothing, stands
  for that case; the process ending is not modelled.
- A configuration whose repeat behaviour is null is not modelled. The conversion would dereference
  null. The view model never builds one.
- The host's own checks in `RepeatBehavior`'s constructors are not modelled. They reject negative
  or non-finite counts and negative durations.
- `PropertyChanged` notification and the X, Y and Angle setters' equality guards: these are UI
  notification plumbing. Only the constructor's X = Y = 200 is modelled.
- `AttachToAnimationBehavior` (it sets and clears `BoundObject` when a UI element attaches or
  detaches) is UI glue; the model exposes the setter it calls.
- `IAnimation` is an interface with no behaviour. Its members are the class's public methods.
- In the view model, `Animation` is never null. The source's null checks in `SetAnimation` only
  matter during construction. The constructor creates the point-to-point animation and assigns it a
  null target, which is the net effect of `SetAnimation(0)` on a null `Animation`.
- The public setters of `StartX`, `StartY`, `EndX`, `EndY` and `PathGeometry` are not modelled: the
  variant's data is fixed at construction. Setting them before the first attach would change the
  curves that get built; nothing in the modelled code calls them.
- ViewModel.ToLower: it lower-cases only ASCII letters and does not model culture-specific
  case mapping. This cannot change the outcome for the three command words.
