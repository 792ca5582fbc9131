/** The animation repeat behaviour: a closed three-way variant whose factory
    values are converted to the host's repeat value. */
module Repeat {
  import Host

  /** Which kind of repeat a behaviour describes. */
  datatype RepeatMode = Numbered | Timed | Forever

  /** The behaviour keeps all three fields, as the source's sealed class does;
      the ones its mode does not use stay at their defaults (0). */
  datatype AnimationRepeatBehavior = AnimationRepeatBehavior(mode: RepeatMode, duration: int, iterations: real)
  {
    /** Repeats without end. */
    static function Forever(): (b: AnimationRepeatBehavior)
      ensures ToRepeatBehavior(b) == Host.RepeatForever
    {
      AnimationRepeatBehavior(RepeatMode.Forever, 0, 0.0)
    }

    /** Runs a single iteration. */
    static function Once(): (b: AnimationRepeatBehavior)
      ensures b == Iterations(1.0)
      ensures ToRepeatBehavior(b) == Host.RepeatCount(1.0)
    {
      AnimationRepeatBehavior(Numbered, 0, 1.0)
    }

    /** Repeats for the given time (in ticks). */
    static function Timed(time: int): (b: AnimationRepeatBehavior)
      ensures ToRepeatBehavior(b) == Host.RepeatFor(time)
    {
      AnimationRepeatBehavior(RepeatMode.Timed, time, 0.0)
    }

    /** Repeats the given number of iterations. */
    static function Iterations(iterations: real): (b: AnimationRepeatBehavior)
      ensures ToRepeatBehavior(b) == Host.RepeatCount(iterations)
    {
      AnimationRepeatBehavior(Numbered, 0, iterations)
    }
  }

  /** The implicit conversion to the host's repeat value. The match is total
      because the mode is a closed variant, so the source's trailing
      `return RepeatBehavior.Forever` after its switch has no counterpart. */
  function ToRepeatBehavior(b: AnimationRepeatBehavior): (r: Host.RepeatBehavior)
    ensures r.RepeatForever? <==> b.mode == RepeatMode.Forever
    ensures r.RepeatFor? <==> b.mode == RepeatMode.Timed
    ensures r.RepeatCount? <==> b.mode == Numbered
    ensures r.RepeatFor? ==> r.duration == b.duration
    ensures r.RepeatCount? ==> r.count == b.iterations
  {
    match b.mode
    case Forever => Host.RepeatForever
    case Timed => Host.RepeatFor(b.duration)
    case Numbered => Host.RepeatCount(b.iterations)
  }

  /** A behaviour as the factories build it: the fields its mode does not use are 0. */
  predicate Canonical(b: AnimationRepeatBehavior)
  {
    && (b.mode != RepeatMode.Timed ==> b.duration == 0)
    && (b.mode != Numbered ==> b.iterations == 0.0)
  }

  /** The factory that yields a given host value; the partner of the conversion. */
  function FromRepeatBehavior(r: Host.RepeatBehavior): (b: AnimationRepeatBehavior)
    ensures Canonical(b)
  {
    match r
    case RepeatForever => AnimationRepeatBehavior.Forever()
    case RepeatFor(t) => AnimationRepeatBehavior.Timed(t)
    case RepeatCount(n) => AnimationRepeatBehavior.Iterations(n)
  }

  /** The conversion loses nothing on factory-built behaviours ... */
  lemma ConversionLosesNothing(b: AnimationRepeatBehavior)
    requires Canonical(b)
    ensures FromRepeatBehavior(ToRepeatBehavior(b)) == b
  {
  }

  /** ... and every host repeat value is reached by some factory. */
  lemma ConversionIsOnto(r: Host.RepeatBehavior)
    ensures ToRepeatBehavior(FromRepeatBehavior(r)) == r
  {
  }
}
