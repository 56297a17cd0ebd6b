/** The MMM-Swipe node helper object: its mode (off, waiting, detect), the
    per-channel echo start ticks and last distances, the gesture session, the
    poll timer and the configuration, with one method per handler. The GPIO
    objects are not modelled; a notification sent to the front end is
    appended to the ghost log `sent`. Timers are a map from handle to poll
    period, so that a timer that is started but never cleared stays visible. */
module NodeHelper {
  import opened Swipe
  import opened Statistics
  import opened Session

  datatype Mode = Off | Waiting | Detecting  // "off", "waiting", "detect"

  /** Notifications the helper sends to its front end. */
  datatype Message =
    | Calibration(left: real, right: real)  // CALIBRATION with both last distances
    | Movement(gesture: Gesture)            // MOVEMENT with the gesture's name
    | Started                               // STARTED

  function Announce(g: Option<Gesture>): seq<Message> {
    if g.Some? then [Movement(g.value)] else []
  }

  /** The CALIBRATION notification a reading produces, if calibrating. */
  function CalibrationReport(cfg: Config, last: PerChannel<real>): seq<Message> {
    if cfg.calibrate then [Calibration(last.left, last.right)] else []
  }

  /** The fields of the helper that the gesture handlers change. */
  datatype Snap = Snap(
    mode: Mode,
    gestureInfo: GestureInfo,
    timers: map<nat, real>,
    sampleInterval: nat,
    nextTimer: nat,
    sent: seq<Message>
  )

  /** A falling-edge reading `measure` ignores: outside detect mode, an echo
      that took longer than the sensor timeout. */
  predicate Dropped(mode: Mode, usDiff: real, cfg: Config) {
    mode != Detecting && usDiff > cfg.sensorTimeout
  }

  /** The timers after `clearInterval(handle)` followed by a `setInterval`
      that is given the handle `next`. */
  function Restarted(timers: map<nat, real>, handle: nat, next: nat, period: real): map<nat, real> {
    (timers - {handle})[next := period]
  }

  class Helper {
    var config: Option<Config>           // None: the empty object set by `start`
    var started: bool
    var mode: Mode
    var startTick: PerChannel<real>      // clock reading (us) of each channel's last rising edge
    var lastDistance: PerChannel<real>   // last distance of each channel, to two decimals
    var gestureInfo: GestureInfo
    var timers: map<nat, real>           // the running intervals: handle to period (ms)
    var nextTimer: nat                   // handle the next setInterval returns
    var sampleInterval: nat              // handle of the interval the helper holds; 0 before any
    ghost var sent: seq<Message>

    /** The invariant, except that a session being classified may already be closed. */
    ghost predicate Consistent()
      reads this`config, this`started, this`mode, this`timers, this`nextTimer, this`sampleInterval,
        this`gestureInfo
    {
      (started <==> config.Some?) &&
      (mode != Off ==> started && sampleInterval in timers) &&
      TimersOk() &&
      Counted(gestureInfo)
    }

    ghost predicate Valid()
      reads this`config, this`started, this`mode, this`timers, this`nextTimer, this`sampleInterval,
        this`gestureInfo
    {
      Consistent() && (mode == Detecting ==> Open(gestureInfo))
    }

    function Cfg(): Config
      reads this
      requires config.Some?
    {
      config.value
    }

    /** The period of the interval the helper holds. */
    function Period(): real
      reads this
      requires sampleInterval in timers
    {
      timers[sampleInterval]
    }

    /** `start`: empty configuration, not started, mode off. The fields the
        source leaves undefined until `setupListener` get neutral values. */
    constructor ()
      ensures Valid()
      ensures config == None && !started && mode == Off
      ensures timers == map[] && sent == []
    {
      config := None;
      started := false;
      mode := Off;
      startTick := PerChannel(0.0, 0.0);
      lastDistance := PerChannel(0.0, 0.0);
      gestureInfo := NewSession;
      timers := map[];
      nextTimer := 1;
      sampleInterval := 0;
      sent := [];
    }

    /** Every running interval has a handle below the next one to be issued. */
    ghost predicate TimersOk()
      reads this`timers, this`nextTimer, this`sampleInterval
    {
      0 < nextTimer && sampleInterval < nextTimer &&
      forall id :: id in timers ==> 0 < id < nextTimer
    }

    /** `setInterval(doTrigger, period)`, its handle stored in `sampleInterval`. */
    method SetInterval(period: real)
      requires TimersOk()
      modifies this`timers, this`nextTimer, this`sampleInterval
      ensures TimersOk() && sampleInterval in timers
      ensures sampleInterval == old(nextTimer) && nextTimer == old(nextTimer) + 1
      ensures timers == old(timers)[old(nextTimer) := period]
    {
      timers := timers[nextTimer := period];
      sampleInterval := nextTimer;
      nextTimer := nextTimer + 1;
    }

    /** `clearInterval(this.sampleInterval)`; clearing a handle that is not
        running does nothing. */
    method ClearInterval()
      requires TimersOk()
      modifies this`timers
      ensures TimersOk()
      ensures timers == old(timers) - {sampleInterval}
    {
      timers := timers - {sampleInterval};
    }

    /** `setupListener` without the GPIO objects: zero start ticks and distances. */
    method SetupListener()
      modifies this`startTick, this`lastDistance
      ensures startTick == PerChannel(0.0, 0.0) && lastDistance == PerChannel(0.0, 0.0)
    {
      startTick := PerChannel(0.0, 0.0);
      lastDistance := PerChannel(0.0, 0.0);
    }

    /** The effect of `startListener`: mode waiting and a new interval at the
        idle period. The interval held before is not cleared. */
    twostate predicate ListenerStarted()
      reads this
    {
      config.Some? &&
      mode == Waiting &&
      timers == old(timers)[old(nextTimer) := Cfg().sampleInterval] &&
      sampleInterval == old(nextTimer) && nextTimer == old(nextTimer) + 1 &&
      config == old(config) && started == old(started) &&
      startTick == old(startTick) && lastDistance == old(lastDistance) &&
      gestureInfo == old(gestureInfo) && sent == old(sent)
    }

    /** The effect of `stopListener`: mode off and the held interval cleared. */
    twostate predicate ListenerStopped()
      reads this
    {
      mode == Off &&
      timers == old(timers) - {old(sampleInterval)} &&
      sampleInterval == old(sampleInterval) && nextTimer == old(nextTimer) &&
      config == old(config) && started == old(started) &&
      startTick == old(startTick) && lastDistance == old(lastDistance) &&
      gestureInfo == old(gestureInfo) && sent == old(sent)
    }

    /** `startListener`. Before CONFIG the echo objects are undefined and the
        call throws without changing anything. */
    method StartListener() returns (thrown: bool)
      requires Valid()
      modifies this
      ensures Valid()
      ensures thrown == !old(started)
      ensures thrown ==> unchanged(this)
      ensures !thrown ==> ListenerStarted() && Period() == Cfg().sampleInterval
    {
      if !started {
        return true;
      }
      thrown := false;
      mode := Waiting;
      SetInterval(Cfg().sampleInterval);
    }

    /** `stopListener`; throws without changing anything before CONFIG. */
    method StopListener() returns (thrown: bool)
      requires Valid()
      modifies this
      ensures Valid()
      ensures thrown == !old(started)
      ensures thrown ==> unchanged(this)
      ensures !thrown ==> ListenerStopped() && sampleInterval !in timers
    {
      if !started {
        return true;
      }
      thrown := false;
      mode := Off;
      ClearInterval();
    }

    /** The fields `monitor`, `detect` and `processSwipe` change. */
    ghost function Snapshot(): Snap
      reads this
    {
      Snap(mode, gestureInfo, timers, sampleInterval, nextTimer, sent)
    }

    /** The effect of `processSwipe` from the fields `b`: back to waiting with
        the held interval replaced by one at the idle period, and the MOVEMENT
        the classifier chooses from the session's averages, if any. */
    ghost predicate Swiped(b: Snap)
      reads this
      requires config.Some?
    {
      mode == Waiting &&
      timers == Restarted(b.timers, b.sampleInterval, b.nextTimer, Cfg().sampleInterval) &&
      sampleInterval == b.nextTimer && nextTimer == b.nextTimer + 1 &&
      Period() == Cfg().sampleInterval &&
      sent == b.sent + Announce(Classify(gestureInfo.averages.left as real, gestureInfo.averages.right as real, Cfg()))
    }

    /** The effect of `monitor` from the fields `b`: a distance at or below its
        own channel's threshold opens a new session and switches to detect,
        polling SampleSize times per swipe window; any other distance changes
        nothing. */
    ghost predicate Monitored(b: Snap, which: Channel, dist: real)
      reads this
      requires config.Some?
    {
      if dist <= Threshold(Cfg(), which) then
        mode == Detecting && gestureInfo == NewSession &&
        timers == Restarted(b.timers, b.sampleInterval, b.nextTimer, Cfg().swipeSpeed / SampleSize as real) &&
        sampleInterval == b.nextTimer && nextTimer == b.nextTimer + 1 &&
        Period() == Cfg().swipeSpeed / SampleSize as real &&
        sent == b.sent
      else
        Snapshot() == b
    }

    /** The effect of `detect` from the fields `b`: the session records the
        distance (see `Record`), and the session is classified exactly when
        the sample found both counts at the target. */
    ghost predicate Detected(b: Snap, which: Channel, dist: real)
      reads this
      requires config.Some?
    {
      gestureInfo == Record(b.gestureInfo, which, dist) &&
      if Fires(b.gestureInfo, which) then
        Swiped(b)
      else
        mode == b.mode && timers == b.timers && sampleInterval == b.sampleInterval &&
        nextTimer == b.nextTimer && sent == b.sent
    }

    /** `processSwipe`: back to waiting at the idle period, then at most one
        MOVEMENT, chosen by the classifier from the stored averages. */
    method ProcessSwipe()
      requires Consistent() && started
      modifies this
      ensures Valid()
      ensures config == old(config) && started == old(started)
      ensures startTick == old(startTick) && lastDistance == old(lastDistance)
      ensures gestureInfo == old(gestureInfo)
      ensures Swiped(old(Snapshot()))
    {
      mode := Waiting;
      ClearInterval();
      SetInterval(Cfg().sampleInterval);

      var left, right := gestureInfo.averages.left as real, gestureInfo.averages.right as real;
      if left <= Cfg().leftDistance && right <= Cfg().rightDistance {
        sent := sent + [Movement(Press)];
      } else if right * SwipeDifferenceMultiple <= left {
        sent := sent + [Movement(SwipeRight)];
      } else if left * SwipeDifferenceMultiple <= right {
        sent := sent + [Movement(SwipeLeft)];
      }
    }

    /** `monitor`, watching for a threshold crossing while waiting. */
    method Monitor(which: Channel, dist: real)
      requires Valid() && started
      modifies this
      ensures Valid()
      ensures config == old(config) && started == old(started)
      ensures startTick == old(startTick) && lastDistance == old(lastDistance)
      ensures Monitored(old(Snapshot()), which, dist)
    {
      if (which == Left && dist <= Cfg().leftDistance) || (which == Right && dist <= Cfg().rightDistance) {
        var countdownTime := Cfg().swipeSpeed / SampleSize as real;
        mode := Detecting;
        gestureInfo := NewSession;
        ClearInterval();
        SetInterval(countdownTime);
      }
    }

    /** `detect`, accumulating the samples of a session. */
    method Detect(which: Channel, dist: real)
      requires Valid() && started
      modifies this
      ensures Valid()
      ensures config == old(config) && started == old(started)
      ensures startTick == old(startTick) && lastDistance == old(lastDistance)
      ensures Detected(old(Snapshot()), which, dist)
    {
      var g := gestureInfo;
      ghost var b := Snapshot();
      RecordCounted(g, which, dist);
      if mode == Detecting && !Fires(g, which) {
        RecordOpen(g, which, dist);
      }
      var n := g.count.Get(which);
      if n < SampleSize {
        var d := g.distances.Get(which) + [dist];
        gestureInfo := g.(distances := g.distances.Set(which, d), count := g.count.Set(which, n + 1));
      } else if n == SampleSize {
        var d := g.distances.Get(which) + [dist];
        gestureInfo := g.(distances := g.distances.Set(which, d),
                          averages := g.averages.Set(which, ToFixed0(Median(d))));
        // the counts are as they were before the push
        if g.count.left == SampleSize && g.count.right == SampleSize {
          ghost var b' := Snapshot();
          ProcessSwipe();
          assert Swiped(b') && b'.timers == b.timers && b'.sampleInterval == b.sampleInterval;
          assert b'.nextTimer == b.nextTimer && b'.sent == b.sent;
        }
      }
    }

    /** The dispatch at the end of `measure`, from the fields `b`: `monitor`
        when waiting, `detect` when detecting, nothing when off. */
    ghost predicate Routed(b: Snap, which: Channel, dist: real)
      reads this
      requires config.Some?
    {
      match b.mode
      case Off => Snapshot() == b
      case Waiting => Monitored(b, which, dist)
      case Detecting => Detected(b, which, dist)
    }

    /** What `measure` does from the elapsed time `usDiff` onward, relating
        the state before to the state after: a dropped reading changes
        nothing; otherwise the channel's last distance is updated, a
        CALIBRATION is sent when calibrating, and the unrounded distance is
        then handled as `monitor` does when waiting, as `detect` does when
        detecting, and not at all when off. */
    twostate predicate Echoed(which: Channel, usDiff: real)
      reads this
    {
      config.Some? && config == old(config) &&
      started == old(started) && startTick == old(startTick) &&
      if Dropped(old(mode), usDiff, Cfg()) then unchanged(this)
      else
        var dist := Distance(usDiff);
        var b := old(Snapshot()).(sent := old(sent) + CalibrationReport(Cfg(), lastDistance));
        lastDistance == old(lastDistance).Set(which, ToFixed2(dist)) &&
        Routed(b, which, dist)
    }

    /** `measure` from the elapsed-time computation onward: the falling edge
        of channel `which` after an echo of `usDiff` microseconds. Outside
        detect mode an echo longer than `sensorTimeout` is dropped. */
    method Echo(which: Channel, usDiff: real)
      requires Valid() && started
      modifies this
      ensures Valid()
      ensures Echoed(which, usDiff)
    {
      if mode != Detecting && usDiff > Cfg().sensorTimeout {  // ignore bad measurements
        return;
      }
      var dist := Distance(usDiff);
      lastDistance := lastDistance.Set(which, ToFixed2(dist));
      if Cfg().calibrate {
        sent := sent + [Calibration(lastDistance.left, lastDistance.right)];
      }
      ghost var b := Snapshot();
      assert b == old(Snapshot()).(sent := old(sent) + CalibrationReport(Cfg(), lastDistance));
      if mode == Waiting {
        Monitor(which, dist);
      } else if mode == Detecting {
        Detect(which, dist);
      }
      assert Routed(b, which, dist);
    }

    /** `measure`, the echo callback of channel `which`, with `now` the clock
        reading in microseconds. An error is thrown back with nothing changed;
        a rising edge records the start tick; a falling edge hands the time
        since the channel's start tick to `Echo`. */
    method Measure(which: Channel, err: bool, value: int, now: real) returns (thrown: bool)
      requires Valid() && started
      requires startTick.Get(which) <= now  // the clock is monotonic
      modifies this
      ensures Valid()
      ensures thrown == err
      ensures config == old(config) && started == old(started)
      ensures err ==> unchanged(this)
      ensures !err && value == 1 ==>
        startTick == old(startTick).Set(which, now) &&
        mode == old(mode) && lastDistance == old(lastDistance) && gestureInfo == old(gestureInfo) &&
        timers == old(timers) && nextTimer == old(nextTimer) && sampleInterval == old(sampleInterval) &&
        sent == old(sent)
      ensures !err && value != 1 ==> Echoed(which, now - old(startTick.Get(which)))
    {
      if err {
        return true;
      }
      thrown := false;
      if value == 1 {
        startTick := startTick.Set(which, now);
      } else {
        var usDiff := now - startTick.Get(which);
        Echo(which, usDiff);
      }
    }

    /** The effect of CONFIG: the first one stores the payload, sets up the
        listener and marks the helper started; later ones change nothing.
        Every one answers STARTED. */
    twostate predicate Configured(payload: Config)
      reads this
    {
      started &&
      config == (if old(started) then old(config) else Some(payload)) &&
      (if old(started) then startTick == old(startTick) && lastDistance == old(lastDistance)
       else startTick == PerChannel(0.0, 0.0) && lastDistance == PerChannel(0.0, 0.0)) &&
      mode == old(mode) && gestureInfo == old(gestureInfo) && timers == old(timers) &&
      sampleInterval == old(sampleInterval) && nextTimer == old(nextTimer) &&
      sent == old(sent) + [Started]
    }

    /** `socketNotificationReceived`: CONFIG, START and STOP from the front
        end; any other notification is ignored. */
    method SocketNotificationReceived(notification: string, payload: Config) returns (thrown: bool)
      requires Valid()
      modifies this
      ensures Valid()
      ensures notification == "CONFIG" ==> !thrown && Configured(payload)
      ensures notification == "START" ==>
        thrown == !old(started) && (thrown ==> unchanged(this)) && (!thrown ==> ListenerStarted())
      ensures notification == "STOP" ==>
        thrown == !old(started) && (thrown ==> unchanged(this)) && (!thrown ==> ListenerStopped())
      ensures notification !in {"CONFIG", "START", "STOP"} ==> !thrown && unchanged(this)
    {
      thrown := false;
      if notification == "CONFIG" {
        if !started {
          config := Some(payload);
          SetupListener();
          started := true;
        }
        sent := sent + [Started];
      } else if notification == "START" {
        thrown := StartListener();
      } else if notification == "STOP" {
        thrown := StopListener();
      }
    }
  }
}
