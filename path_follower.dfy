/** The path-follower animation: constructor validation of the path string and
    its contribution to the timeline, two curves that read one fixed path. */
module PathFollower {
  import opened Wrappers
  import Host
  import opened Configuration

  /** The path literal the curves are built from. */
  const CurvePath: string := "M 10,100 C 10,300 300,-200 300,100"

  /** The exception the constructor throws, naming the offending parameter. */
  datatype ArgumentError = ArgumentException(paramName: string)

  /** `char.IsWhiteSpace`: the Unicode space, line and paragraph separators plus
      the control characters U+0009 to U+000D and U+0085. */
  predicate IsWhiteSpace(c: char)
  {
    || ('\U{0009}' <= c <= '\U{000D}')
    || c == '\U{0020}' || c == '\U{0085}' || c == '\U{00A0}' || c == '\U{1680}'
    || ('\U{2000}' <= c <= '\U{200A}')
    || c == '\U{2028}' || c == '\U{2029}' || c == '\U{202F}' || c == '\U{205F}' || c == '\U{3000}'
  }

  /** `string.IsNullOrWhiteSpace`'s scan over a non-null string, character by character. */
  predicate AllWhiteSpace(s: string)
  {
    s == [] || (IsWhiteSpace(s[0]) && AllWhiteSpace(s[1..]))
  }

  /** The scan accepts a string exactly when it has no character that is not white space. */
  lemma {:induction false} AllWhiteSpaceMeansNoOtherCharacter(s: string)
    ensures AllWhiteSpace(s) <==> forall i :: 0 <= i < |s| ==> IsWhiteSpace(s[i])
  {
    if s != [] {
      AllWhiteSpaceMeansNoOtherCharacter(s[1..]);
      assert forall i :: 1 <= i < |s| ==> s[i] == s[1..][i - 1];
    }
  }

  /** `string.IsNullOrWhiteSpace`; `None` is the null reference. */
  predicate IsNullOrWhiteSpace(s: Option<string>)
  {
    s.None? || AllWhiteSpace(s.value)
  }

  /** The constructor's check: a path is accepted, unchanged, exactly when it is
      non-null and holds some character that is not white space; otherwise the
      constructor throws ArgumentException for "pathGeometry". */
  function ValidatePathGeometry(pathGeometry: Option<string>): (r: Result<string, ArgumentError>)
    ensures r.Success? <==> pathGeometry.Some? && exists i :: 0 <= i < |pathGeometry.value| && !IsWhiteSpace(pathGeometry.value[i])
    ensures r.Success? ==> r.value == pathGeometry.value
    ensures r.Failure? ==> r.error == ArgumentException("pathGeometry")
  {
    if pathGeometry.None? then Failure(ArgumentException("pathGeometry"))
    else
      AllWhiteSpaceMeansNoOtherCharacter(pathGeometry.value);
      if IsNullOrWhiteSpace(pathGeometry) then Failure(ArgumentException("pathGeometry"))
      else Success(pathGeometry.value)
  }

  /** CreateAnimation's effect on the timeline: an X curve (Canvas.Left) and then
      a Y curve (Canvas.Top) are appended, both frozen, both over the configured
      duration and both reading the one geometry parsed from `CurvePath`; the
      storyboard's own duration and settings are left as they were. The result
      does not depend on the path string the constructor stored. */
  function Animated(t: Host.Timeline, config: AnimationConfiguration): (r: Host.Timeline)
    ensures |r.children| == |t.children| + 2 && r.children[..|t.children|] == t.children
    ensures r.children[|t.children|] == Host.Child(Host.AlongPath(Host.Geometry(CurvePath), Host.SourceX), config.duration, Host.CanvasLeft, true)
    ensures r.children[|t.children| + 1] == Host.Child(Host.AlongPath(Host.Geometry(CurvePath), Host.SourceY), config.duration, Host.CanvasTop, true)
    ensures r.(children := t.children) == t
  {
    var geometry := Host.Geometry(CurvePath);
    var x := Host.Child(Host.AlongPath(geometry, Host.SourceX), config.duration, Host.CanvasLeft, true);
    var y := Host.Child(Host.AlongPath(geometry, Host.SourceY), config.duration, Host.CanvasTop, true);
    t.(children := t.children + [x, y])
  }

  /** `PathFollowerAnimation.CreateAnimation`, run against the master storyboard. */
  method CreateAnimation(board: Host.Storyboard, config: AnimationConfiguration)
    modifies board
    ensures board.State() == old(board.State()).(timeline := Animated(old(board.State()).timeline, config))
  {
    var geometry := Host.Geometry(CurvePath);
    var animationX := Host.Child(Host.AlongPath(geometry, Host.SourceX), config.duration, Host.CanvasLeft, false);
    var animationY := Host.Child(Host.AlongPath(geometry, Host.SourceY), config.duration, Host.CanvasTop, false);
    animationX := animationX.(frozen := true);
    animationY := animationY.(frozen := true);
    board.AddChild(animationX);
    board.AddChild(animationY);
  }
}
