# MMM-Swipe gesture detection, modelled in Dafny

This project models the node helper of the MagicMirror module MMM-Swipe. The
helper drives two ultrasonic range sensors, Left and Right, and classifies a
hand movement as Press, Swipe Right or Swipe Left.

- Each echo callback turns the time between a rising and a falling edge into a
  distance, at 34321 cm/s.
- A `mode` field (`"off"`, `"waiting"`, `"detect"`) decides what happens next.
  - While waiting, a distance at or below its channel's threshold opens a
    gesture session and speeds up polling.
  - While detecting, each channel collects distances. Once a channel has
    SAMPLE_SIZE of them, every further sample also recomputes its rounded
    median.
  - Once both channels are at SAMPLE_SIZE, the next sample of a channel that
    is already at its target classifies the session and goes back to waiting.
- CONFIG, START and STOP notifications configure, start and stop the helper.

Files:

- `Swipe.dfy`: the value types, the private constants, the distance
  conversion, JavaScript's `toFixed` rounding and the classifier chain.
- `Statistics.dfy`: the median (sorted middle, mean of the two middle values
  for an even count) and its properties.
- `Session.dfy`: the `gestureInfo` session as a value.
  - `Record` is what `detect` does to the session.
  - `Replay` feeds a whole run of samples through `Record`.
- `NodeHelper.dfy`: the helper object as a class `Helper`, one method per
  handler.
  - Timers are a map from interval handle to period. `Period()` is the
    period of the interval the helper holds.
  - Notifications sent to the front end are appended to the ghost log `sent`.

The model keeps these behaviours of the code:

- The first median of a channel is taken over SAMPLE_SIZE + 1 = 6 samples. That
  is an even count, so the median is the mean of the two middle values.
- Samples that arrive once a channel has reached its target are not ignored.
  They are appended and the median is recomputed.
- Classification can use the other channel's average while it is still the
  initial 0 (`Session.StaleAverage`).
- The session is not discarded after classification. It stays in
  `gestureInfo` until the next threshold crossing replaces it.
- The threshold tests of `monitor` use the unrounded distance, and the
  reported `lastDistance` is rounded to two decimals. The Press test of
  `processSwipe` compares the averages, rounded to whole centimetres, with
  the thresholds.
- A second START is not idempotent. It starts another interval without clearing
  the one held before, and that interval is never cleared.
- START or STOP before CONFIG, and a sensor error, throw.

## Model

| member | source | states |
|---|---|---|
| `Swipe.Distance` | node_helper.js:72-79 | the distance times 2 times MICROSECONDS_PER_CM (1e6/34321) is the echo time, so it is the one-way distance at 34321 cm/s; non-negative for a non-negative echo time |
| `Swipe.DistanceMonotone` | node_helper.js:79 | a strictly longer echo gives a strictly larger distance |
| `Swipe.ToFixed2` | node_helper.js:81 | `lastDistance` is a whole number of hundredths within 0.005 of the distance, ties away from zero |
| `Swipe.ToFixed0` | node_helper.js:116 | the stored average is the integer nearest the median, ties away from zero |
| `Swipe.ToFixed0Monotone` | node_helper.js:116 | rounding to an integer preserves order |
| `Swipe.ToFixed0Whole` | node_helper.js:116 | rounding leaves whole numbers unchanged |
| `Swipe.ClassifyCases` | node_helper.js:129-136 | Press exactly when both averages are within their thresholds. Otherwise Swipe Right exactly when R*1.3 <= L. Otherwise Swipe Left exactly when L*1.3 <= R. Otherwise no event |
| `Swipe.SwipeTestsExclusive` | node_helper.js:132-135 | for positive averages the Swipe Right and Swipe Left tests never both hold |
| `Swipe.ClassifyMirror` | node_helper.js:129-136 | for non-negative averages and non-negative thresholds (an average still at its initial 0 included), exchanging the sensors' averages and thresholds exchanges Swipe Right and Swipe Left, and keeps Press and no event |
| `Swipe.StaleLeftAverageClassified` | node_helper.js:103 | a left average still at its initial 0 always produces an event (Press or Swipe Left), given non-negative thresholds |
| `Swipe.StaleRightAverageClassified` | node_helper.js:103 | a right average still at 0 always produces Press or Swipe Right |
| `Swipe.ClassifyExamples` | node_helper.js:129-136 | the boundary cases for thresholds 30/30: (40,20) Swipe Right, (20,40) Swipe Left, (15,15) and (28,22) Press, (35,33) and (40,35) nothing |
| `Statistics.Sort` | node_helper.js:116 | the result is sorted and has the same elements as the input |
| `Statistics.MedianPermutation` | node_helper.js:116 | the median depends only on the multiset of samples, not their order |
| `Statistics.MedianBounds` | node_helper.js:116 | the median lies within any bounds that hold of every sample |
| `Statistics.MedianOddIsSample` | node_helper.js:116 | for an odd count the median is one of the samples |
| `Session.Record` | node_helper.js:110-116 | a sample on one channel never changes the other channel's distances, count or average |
| `Session.RecordOwnChannel` | node_helper.js:111-116 | below SAMPLE_SIZE a sample appends one distance and adds one to the count. At SAMPLE_SIZE it appends, keeps the count, and sets the average to the rounded median of the whole list |
| `Session.RecordCounted` | node_helper.js:111-115 | the count never exceeds SAMPLE_SIZE, and below it the list length equals the count |
| `Session.RecordWellFormed` | node_helper.js:111-116 | the average is 0 until the list outgrows the count, and from then on it is the rounded median of the whole list |
| `Session.RecordOpen` | node_helper.js:114-120 | a session not yet classified stays unclassified unless the sample found both counts at SAMPLE_SIZE |
| `Session.ReplayChannel` | node_helper.js:100-116 | for any interleaving of samples from a new session, each channel's list is exactly its own samples in order. Its count is their number capped at SAMPLE_SIZE. Its average is 0 up to SAMPLE_SIZE samples and the rounded median of all of them after that |
| `Session.FirstAverageOverSixSamples` | node_helper.js:111-116 | a channel's first average is the rounded median of SAMPLE_SIZE + 1 samples |
| `Session.RoundedMedianWithin` | node_helper.js:116 | the rounded median of non-negative samples at or below a whole-centimetre bound is at or below that bound |
| `Session.PressWhenAllWithinThresholds` | node_helper.js:116-131 | if every sample of each channel is at or below its whole-centimetre threshold, the rounded medians classify as Press |
| `Session.StaleAverage` | node_helper.js:114-133 | after five Left and five Right samples, a sixth Left sample at x fires the classifier with the Right average still 0. The averages are (round(x), 0), which is Swipe Right whenever round(x) is beyond the left threshold |
| `NodeHelper.Helper.constructor` | node_helper.js:26-30 | `start`: no configuration, not started, mode off, no interval running |
| `NodeHelper.Helper.SetupListener` | node_helper.js:36-37 | start ticks and last distances are reset to 0 |
| `NodeHelper.Helper.StartListener` | node_helper.js:42-47 | throws with nothing changed before CONFIG. Otherwise mode is waiting and a new interval runs at `sampleInterval`, and the interval held before is not cleared |
| `NodeHelper.Helper.StopListener` | node_helper.js:49-54 | throws with nothing changed before CONFIG. Otherwise mode is off, the held interval is cleared, and nothing else changes |
| `NodeHelper.Helper.Measure` | node_helper.js:63-73 | an error is thrown with nothing changed. A rising edge records the clock as the channel's start tick and changes nothing else. A falling edge has the effect of `Echo` on the time since that tick |
| `NodeHelper.Helper.Echo` | node_helper.js:75-91 | outside detect mode an echo over `sensorTimeout` changes nothing. Otherwise `lastDistance` of that channel is the rounded distance, a CALIBRATION is sent when calibrating, and the unrounded distance goes to `Monitor` (waiting), `Detect` (detect) or nowhere (off). In off mode no gesture is sent |
| `NodeHelper.Helper.Monitor` | node_helper.js:95-108 | a distance at or below its own channel's threshold gives mode detect and a new empty session (the triggering distance is not recorded in it), with the interval replaced by one at `swipeSpeed / SAMPLE_SIZE`. Any other distance changes nothing |
| `NodeHelper.Helper.Detect` | node_helper.js:110-122 | the session becomes `Record` of the sample. The session is classified exactly when the sample found both counts at SAMPLE_SIZE; otherwise mode, timers and notifications are unchanged |
| `NodeHelper.Helper.ProcessSwipe` | node_helper.js:124-137 | mode is waiting and the interval is replaced by one at `sampleInterval`. At most one MOVEMENT is sent: the classifier's outcome on the stored averages |
| `NodeHelper.Helper.SocketNotificationReceived` | node_helper.js:139-153 | CONFIG stores the payload and resets the listener state only the first time, and always sends STARTED. START and STOP act as `StartListener` and `StopListener`. Any other notification changes nothing |

The class invariant `Valid` holds before and after every handler. It says:

- the helper is started exactly when a configuration is stored;
- outside off mode the helper holds a running interval;
- interval handles are fresh;
- every session keeps its counting discipline;
- in detect mode the session has not yet been classified.

## Left out

- GPIO: the trigger and echo pin objects, `doTrigger`, `usleep`, and
  `watch`/`unwatch` are hardware I/O through foreign libraries. Only the mode
  and timer effects of starting and stopping are modelled. A START repeated
  while running also registers the echo callbacks twice with the GPIO
  library. Whether each edge is then handled twice depends on that library,
  which is not part of this model.
- `process.hrtime`: the clock is a reading in microseconds passed to
  `Measure`. The second/nanosecond tuple arithmetic is not modelled.
  `Measure` requires the reading to be no earlier than the channel's start
  tick, because the clock is monotonic.
- The `math-statistics` library is not part of this model. Its `median` is
  modelled as the middle of the sorted samples, or the mean of the two middle
  values for an even count.
- Floating point: all arithmetic is exact. This covers 1e6/34321, the
  multiple 1.3 and `toFixed`. The string that `toFixed` returns is modelled
  by the number it denotes. JavaScript's string-to-number coercion in the
  comparisons is taken to give that number back.
- Timer timing, and the interleaving of timer and edge callbacks, are not
  modelled. Intervals are entries in a map, and handlers run one at a time
  as method calls.
- The CALIBRATION payload is recorded as the two last distances. The
  notification channel itself is the ghost log `sent`.
- The fields `start` leaves undefined get neutral values in the
  constructor: zero ticks and distances, an empty session, and handle 0 for
  no interval. Handle 0 is never a running interval, so STOP after CONFIG
  and before any START clears nothing, as `clearInterval(undefined)` does.
- `Measure` handles echo callbacks only after CONFIG (`requires started`),
  because the callbacks are attached to GPIO objects that exist only from
  then on.
