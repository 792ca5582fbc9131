/** The configuration bag handed to every animation. Durations are in ticks
    (100 ns units); the ratios are opaque values the model never computes with. */
module Configuration {
  import Repeat

  datatype AnimationConfiguration = AnimationConfiguration(
    duration: int,
    repeatBehavior: Repeat.AnimationRepeatBehavior,
    accelerationRatio: real,
    decelerationRatio: real,
    autoReverse: bool)
}
