/** The point-to-point animation's contribution to the timeline: one linear
    curve per coordinate, from the start point to the end point. */
module PointToPoint {
  import Host
  import opened Configuration

  /** StartX, StartY, EndX and EndY, stored exactly as given to the constructor. */
  datatype Endpoints = Endpoints(startX: real, startY: real, endX: real, endY: real)

  /** CreateAnimation's effect on the timeline: the storyboard duration becomes
      the configured one, the X curve (Canvas.Left, StartX to EndX) and then the
      Y curve (Canvas.Top, StartY to EndY) are appended, both frozen and both
      over the configured duration; nothing else changes. */
  function Animated(t: Host.Timeline, p: Endpoints, config: AnimationConfiguration): (r: Host.Timeline)
    ensures r.duration == config.duration
    ensures |r.children| == |t.children| + 2 && r.children[..|t.children|] == t.children
    ensures r.children[|t.children|] == Host.Child(Host.Linear(p.startX, p.endX), config.duration, Host.CanvasLeft, true)
    ensures r.children[|t.children| + 1] == Host.Child(Host.Linear(p.startY, p.endY), config.duration, Host.CanvasTop, true)
    ensures r.(duration := t.duration, children := t.children) == t
  {
    var x := Host.Child(Host.Linear(p.startX, p.endX), config.duration, Host.CanvasLeft, true);
    var y := Host.Child(Host.Linear(p.startY, p.endY), config.duration, Host.CanvasTop, true);
    t.(duration := config.duration, children := t.children + [x, y])
  }

  /** `PointToPointAnimation.CreateAnimation`, run against the master storyboard. */
  method CreateAnimation(board: Host.Storyboard, p: Endpoints, config: AnimationConfiguration)
    modifies board
    ensures board.State() == old(board.State()).(timeline := Animated(old(board.State()).timeline, p, config))
  {
    var animationDuration := config.duration;
    board.SetDuration(animationDuration);
    var animationX := Host.Child(Host.Linear(p.startX, p.endX), animationDuration, Host.CanvasLeft, false);
    var animationY := Host.Child(Host.Linear(p.startY, p.endY), animationDuration, Host.CanvasTop, false);
    animationX := animationX.(frozen := true);
    animationY := animationY.(frozen := true);
    board.AddChild(animationX);
    board.AddChild(animationY);
  }
}
