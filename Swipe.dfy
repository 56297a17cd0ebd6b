/** The values and pure computations of the MMM-Swipe node helper: the two
    sensor channels, the private constants, the echo-time to distance
    conversion, JavaScript's `toFixed` rounding and the gesture classifier. */
module Swipe {

  datatype Option<T> = None | Some(value: T)

  datatype Channel = Left | Right

  function Other(c: Channel): Channel {
    if c == Left then Right else Left
  }

  /** One value per sensor channel (the source's `{ Left: …, Right: … }` objects). */
  datatype PerChannel<T> = PerChannel(left: T, right: T) {
    function Get(c: Channel): T {
      if c == Left then left else right
    }

    function Set(c: Channel, v: T): (p: PerChannel<T>)
      ensures p.Get(c) == v && p.Get(Other(c)) == Get(Other(c))
    {
      if c == Left then this.(left := v) else this.(right := v)
    }
  }

  /** The gestures reported in a MOVEMENT notification. */
  datatype Gesture = Press | SwipeRight | SwipeLeft

  /** The configuration payload of the CONFIG notification; the GPIO pin
      numbers are only used by the hardware set-up and are not modelled. */
  datatype Config = Config(
    leftDistance: real,   // cm: a Left reading at or below this starts a gesture
    rightDistance: real,  // cm: the same for Right
    swipeSpeed: real,     // ms: length of the detection window
    sampleInterval: real, // ms: idle poll period
    sensorTimeout: real,  // us: longest echo accepted outside detection
    calibrate: bool       // report every distance in a CALIBRATION notification
  )

  function Threshold(cfg: Config, c: Channel): real {
    if c == Left then cfg.leftDistance else cfg.rightDistance
  }

  // The helper's private `_config` constants.
  const MicrosecondsPerCm: real := 1000000.0 / 34321.0
  const SampleSize: nat := 5
  const TriggerPulseTime: nat := 10  // us; used only by the trigger pulse, which is not modelled
  const SwipeDifferenceMultiple: real := 1.3

  /** Centimetres to the obstacle for an echo that took `usDiff` microseconds
      there and back, at 34321 cm/s. */
  function Distance(usDiff: real): (d: real)
    ensures d * 2.0 * MicrosecondsPerCm == usDiff
    ensures usDiff >= 0.0 ==> d >= 0.0
  {
    usDiff / 2.0 / MicrosecondsPerCm
  }

  /** A longer echo is a farther obstacle. */
  lemma DistanceMonotone(a: real, b: real)
    requires a < b
    ensures Distance(a) < Distance(b)
  {
  }

  /** `x.toFixed(0)` read back as a number: the nearest integer, ties away from zero. */
  function ToFixed0(x: real): (n: int)
    ensures x >= 0.0 ==> x - 0.5 < n as real <= x + 0.5
    ensures x < 0.0 ==> x - 0.5 <= n as real < x + 0.5
  {
    if x < 0.0 then -((-x + 0.5).Floor) else (x + 0.5).Floor
  }

  /** `x.toFixed(2)` read back as a number: the nearest multiple of 0.01,
      ties away from zero. */
  function ToFixed2(x: real): (r: real)
    ensures (r * 100.0).Floor as real == r * 100.0
    ensures x >= 0.0 ==> x - 0.005 < r <= x + 0.005
    ensures x < 0.0 ==> x - 0.005 <= r < x + 0.005
  {
    ToFixed0(x * 100.0) as real / 100.0
  }

  lemma ToFixed0Monotone(a: real, b: real)
    requires a <= b
    ensures ToFixed0(a) <= ToFixed0(b)
  {
  }

  lemma ToFixed0Whole(n: int)
    ensures ToFixed0(n as real) == n
  {
  }

  /** The classification chain of `processSwipe`: Press when both averages are
      within their thresholds, else a swipe towards the side whose average is
      the smaller by the swipe multiple, else nothing. */
  function Classify(leftAvg: real, rightAvg: real, cfg: Config): Option<Gesture> {
    if leftAvg <= cfg.leftDistance && rightAvg <= cfg.rightDistance then Some(Press)
    else if rightAvg * SwipeDifferenceMultiple <= leftAvg then Some(SwipeRight)
    else if leftAvg * SwipeDifferenceMultiple <= rightAvg then Some(SwipeLeft)
    else None
  }

  /** Each outcome of the classifier, with the exact condition under which it is chosen. */
  lemma ClassifyCases(l: real, r: real, cfg: Config)
    ensures Classify(l, r, cfg) == Some(Press) <==> l <= cfg.leftDistance && r <= cfg.rightDistance
    ensures Classify(l, r, cfg) == Some(SwipeRight) <==>
      !(l <= cfg.leftDistance && r <= cfg.rightDistance) && r * 1.3 <= l
    ensures Classify(l, r, cfg) == Some(SwipeLeft) <==>
      !(l <= cfg.leftDistance && r <= cfg.rightDistance) && !(r * 1.3 <= l) && l * 1.3 <= r
    ensures Classify(l, r, cfg) == None <==>
      !(l <= cfg.leftDistance && r <= cfg.rightDistance) && r * 1.3 > l && l * 1.3 > r
  {
  }

  /** For positive averages the two swipe tests never both hold, so the order
      in which the chain tries them does not matter. */
  lemma SwipeTestsExclusive(l: real, r: real)
    requires l > 0.0 && r > 0.0
    ensures !(r * SwipeDifferenceMultiple <= l && l * SwipeDifferenceMultiple <= r)
  {
  }

  function Mirror(g: Option<Gesture>): Option<Gesture> {
    match g
    case Some(SwipeRight) => Some(SwipeLeft)
    case Some(SwipeLeft) => Some(SwipeRight)
    case _ => g
  }

  /** Exchanging the two sensors (their averages and their thresholds) turns a
      Swipe Right into a Swipe Left and back, and leaves Press and nothing alone.
      This covers an average still at its initial 0, given non-negative
      thresholds. */
  lemma ClassifyMirror(l: real, r: real, cfg: Config)
    requires l >= 0.0 && r >= 0.0 && cfg.leftDistance >= 0.0 && cfg.rightDistance >= 0.0
    ensures Classify(r, l, cfg.(leftDistance := cfg.rightDistance, rightDistance := cfg.leftDistance))
         == Mirror(Classify(l, r, cfg))
  {
    if l > 0.0 && r > 0.0 {
      SwipeTestsExclusive(l, r);
    }
  }

  /** A channel whose average is still the initial 0 forces an event: with
      non-negative thresholds and a non-negative right average, a stale left
      average yields Press or Swipe Left, never nothing. */
  lemma StaleLeftAverageClassified(r: real, cfg: Config)
    requires r >= 0.0 && cfg.leftDistance >= 0.0 && cfg.rightDistance >= 0.0
    ensures Classify(0.0, r, cfg) in {Some(Press), Some(SwipeLeft)}
  {
  }

  /** The same for a stale right average: Press or Swipe Right, never nothing. */
  lemma StaleRightAverageClassified(l: real, cfg: Config)
    requires l >= 0.0 && cfg.leftDistance >= 0.0 && cfg.rightDistance >= 0.0
    ensures Classify(l, 0.0, cfg) in {Some(Press), Some(SwipeRight)}
  {
  }

  /** Boundary cases for thresholds of 30 cm. */
  lemma ClassifyExamples()
    ensures var cfg := Config(30.0, 30.0, 500.0, 100.0, 20000.0, false);
      Classify(40.0, 20.0, cfg) == Some(SwipeRight) &&
      Classify(20.0, 40.0, cfg) == Some(SwipeLeft) &&
      Classify(15.0, 15.0, cfg) == Some(Press) &&
      Classify(28.0, 22.0, cfg) == Some(Press) &&
      Classify(35.0, 33.0, cfg) == None &&
      Classify(40.0, 35.0, cfg) == None
  {
  }
}
