/** The host toolkit's timeline engine (a WPF Storyboard), reduced to the state
    the animations read and write: its playback phase, its target, its current
    position, its frozen flag and its timeline settings with the child curves.
    The engine itself is foreign code; these members only say what each call
    does to that state. */
module Host {
  import opened Wrappers

  /** A visual element an animation can be bound to; only its identity matters. */
  datatype Target = Target(id: nat)

  /** Playback phase of the storyboard's clock. */
  datatype Phase = NotBegun | Running | Paused | Stopped

  /** The attached property a child curve drives. */
  datatype TargetProperty = CanvasLeft | CanvasTop

  /** Which coordinate of a path a path-driven curve reads. */
  datatype PathSource = SourceX | SourceY

  /** Parsed path geometry; the path text is kept as an opaque token. */
  datatype Geometry = Geometry(pathText: string)

  /** A child curve: a from/to interpolation, or a value read off a path. */
  datatype Curve =
    | Linear(from: real, to: real)
    | AlongPath(geometry: Geometry, source: PathSource)

  /** A child animation of the storyboard. Durations are in ticks. */
  datatype Child = Child(curve: Curve, duration: int, property: TargetProperty, frozen: bool)

  /** The host's own repeat value. */
  datatype RepeatBehavior = RepeatForever | RepeatFor(duration: int) | RepeatCount(count: real)

  /** The timeline graph: the settings copied from the configuration and the child curves. */
  datatype Timeline = Timeline(
    duration: int,
    repeat: RepeatBehavior,
    accelerationRatio: real,
    decelerationRatio: real,
    autoReverse: bool,
    children: seq<Child>)

  /** Everything observable about a storyboard. */
  datatype BoardState = BoardState(
    phase: Phase,
    target: Option<Target>,
    position: int,
    frozen: bool,
    timeline: Timeline)

  /** A freshly built storyboard with the given settings and no children. */
  function NewBoard(t: Timeline): (r: BoardState)
  {
    BoardState(NotBegun, None, 0, false, t.(children := []))
  }

  function AfterBegin(b: BoardState): (r: BoardState)
  {
    b.(phase := Running, position := 0)
  }

  function AfterResume(b: BoardState): (r: BoardState)
  {
    if b.phase == Paused then b.(phase := Running) else b
  }

  function AfterPause(b: BoardState): (r: BoardState)
  {
    if b.phase == Running then b.(phase := Paused) else b
  }

  function AfterStop(b: BoardState): (r: BoardState)
  {
    b.(phase := Stopped, position := 0)
  }

  function AfterSeek(b: BoardState, t: int): (r: BoardState)
  {
    b.(position := t)
  }

  /** The clock advancing by d ticks: only a running storyboard's position
      moves, by exactly d; a storyboard that is not running is unchanged. */
  function AfterElapse(b: BoardState, d: nat): (r: BoardState)
    ensures r.phase == b.phase && r.target == b.target && r.frozen == b.frozen && r.timeline == b.timeline
    ensures r.position == if b.phase == Running then b.position + d else b.position
  {
    if b.phase == Running then b.(position := b.position + d) else b
  }

  function AfterSetTarget(b: BoardState, t: Option<Target>): (r: BoardState)
  {
    b.(target := t)
  }

  function AfterFreeze(b: BoardState): (r: BoardState)
  {
    b.(frozen := true)
  }

  /** The storyboard object; its methods are the engine calls the animations make. */
  class Storyboard {
    var phase: Phase
    var target: Option<Target>
    var position: int
    var children: seq<Child>
    var frozen: bool
    var duration: int
    var repeatBehavior: RepeatBehavior
    var accelerationRatio: real
    var decelerationRatio: real
    var autoReverse: bool

    function State(): BoardState
      reads this
    {
      BoardState(phase, target, position, frozen,
        Timeline(duration, repeatBehavior, accelerationRatio, decelerationRatio, autoReverse, children))
    }

    /** `new Storyboard { Duration = …, RepeatBehavior = …, … }` */
    constructor (settings: Timeline)
      ensures State() == NewBoard(settings)
    {
      phase, target, position, children, frozen := NotBegun, None, 0, [], false;
      duration := settings.duration;
      repeatBehavior := settings.repeat;
      accelerationRatio := settings.accelerationRatio;
      decelerationRatio := settings.decelerationRatio;
      autoReverse := settings.autoReverse;
    }

    method Begin()
      modifies this
      ensures State() == AfterBegin(old(State()))
    {
      phase, position := Running, 0;
    }

    method Resume()
      modifies this
      ensures State() == AfterResume(old(State()))
    {
      if phase == Paused {
        phase := Running;
      }
    }

    method Pause()
      modifies this
      ensures State() == AfterPause(old(State()))
    {
      if phase == Running {
        phase := Paused;
      }
    }

    method Stop()
      modifies this
      ensures State() == AfterStop(old(State()))
    {
      phase, position := Stopped, 0;
    }

    method Seek(t: int)
      modifies this
      ensures State() == AfterSeek(old(State()), t)
    {
      position := t;
    }

    method GetCurrentTime() returns (t: int)
      ensures t == State().position
    {
      t := position;
    }

    /** `Storyboard.SetTarget(board, t)` */
    method SetTarget(t: Option<Target>)
      modifies this
      ensures State() == AfterSetTarget(old(State()), t)
    {
      target := t;
    }

    method Freeze()
      modifies this
      ensures State() == AfterFreeze(old(State()))
    {
      frozen := true;
    }

    /** `board.Children.Add(c)` */
    method AddChild(c: Child)
      modifies this
      ensures State() == old(State()).(timeline := old(State()).timeline.(children := old(children) + [c]))
    {
      children := children + [c];
    }

    /** `board.Duration = d` */
    method SetDuration(d: int)
      modifies this
      ensures State() == old(State()).(timeline := old(State()).timeline.(duration := d))
    {
      duration := d;
    }
  }
}
