/** The gesture session (`gestureInfo`) that the node helper fills while it is
    in detect mode: per channel the distances collected, a count and the
    rounded median ("average"). */
module Session {
  import opened Swipe
  import opened Statistics

  datatype GestureInfo = GestureInfo(
    distances: PerChannel<seq<real>>,
    count: PerChannel<nat>,
    averages: PerChannel<int>
  )

  /** The session `monitor` creates: empty lists, zero counts, zero averages. */
  const NewSession: GestureInfo :=
    GestureInfo(PerChannel([], []), PerChannel(0, 0), PerChannel(0, 0))

  /** The counting discipline of one channel: the count stops at SampleSize,
      and below it the list holds exactly `count` distances; at SampleSize
      the list may hold more. */
  ghost predicate ChannelCounted(g: GestureInfo, c: Channel) {
    var d, n := g.distances.Get(c), g.count.Get(c);
    n <= SampleSize && |d| >= n && (|d| > n ==> n == SampleSize)
  }

  ghost predicate Counted(g: GestureInfo) {
    ChannelCounted(g, Left) && ChannelCounted(g, Right)
  }

  /** What one channel of a session looks like after any run of samples: it
      is counted as above, and its average is still 0 until a sample arrives
      with the count already at SampleSize, after which it is the rounded
      median of the whole list. */
  ghost predicate ChannelOk(g: GestureInfo, c: Channel) {
    var d, n, a := g.distances.Get(c), g.count.Get(c), g.averages.Get(c);
    ChannelCounted(g, c) &&
    (|d| == n ==> a == 0) &&
    (|d| > n ==> a == ToFixed0(Median(d)))
  }

  ghost predicate WellFormed(g: GestureInfo) {
    ChannelOk(g, Left) && ChannelOk(g, Right)
  }

  /** A session that has not been classified yet: at least one channel has
      not had a sample beyond its target. */
  ghost predicate Open(g: GestureInfo) {
    |g.distances.left| == g.count.left || |g.distances.right| == g.count.right
  }

  /** The test `detect` makes after a sample on `which` that found its count at
      the target: both counts are at the target, so the session is classified. */
  predicate Fires(g: GestureInfo, which: Channel) {
    g.count.Get(which) == SampleSize && g.count.Get(Other(which)) == SampleSize
  }

  /** The session after `detect` records `dist` on channel `which`. */
  function Record(g: GestureInfo, which: Channel, dist: real): (r: GestureInfo)
    ensures r.distances.Get(Other(which)) == g.distances.Get(Other(which))
    ensures r.count.Get(Other(which)) == g.count.Get(Other(which))
    ensures r.averages.Get(Other(which)) == g.averages.Get(Other(which))
  {
    var n := g.count.Get(which);
    var d := g.distances.Get(which) + [dist];
    if n < SampleSize then
      g.(distances := g.distances.Set(which, d), count := g.count.Set(which, n + 1))
    else if n == SampleSize then
      g.(distances := g.distances.Set(which, d), averages := g.averages.Set(which, ToFixed0(Median(d))))
    else
      g
  }

  /** Below the target a sample appends exactly one distance and adds one to
      the count; at the target it appends the distance, keeps the count and
      recomputes the average over the whole list. */
  lemma RecordOwnChannel(g: GestureInfo, which: Channel, dist: real)
    requires Counted(g)
    ensures var r, n := Record(g, which, dist), g.count.Get(which);
      r.distances.Get(which) == g.distances.Get(which) + [dist] &&
      r.count.Get(which) == (if n < SampleSize then n + 1 else SampleSize) &&
      r.averages.Get(which) ==
        (if n < SampleSize then g.averages.Get(which) else ToFixed0(Median(r.distances.Get(which))))
  {
  }

  /** A sample never takes a count past SampleSize, and below it keeps list
      length and count equal. */
  lemma RecordCounted(g: GestureInfo, which: Channel, dist: real)
    requires Counted(g)
    ensures Counted(Record(g, which, dist))
  {
    var r := Record(g, which, dist);
    assert ChannelCounted(r, which);
    assert ChannelCounted(r, Other(which));
  }

  lemma RecordWellFormed(g: GestureInfo, which: Channel, dist: real)
    requires WellFormed(g)
    ensures WellFormed(Record(g, which, dist))
  {
    var r := Record(g, which, dist);
    assert ChannelOk(r, which);
    assert ChannelOk(r, Other(which));
  }

  /** A session that is open stays open unless this sample fires the classifier. */
  lemma RecordOpen(g: GestureInfo, which: Channel, dist: real)
    requires Counted(g) && Open(g) && !Fires(g, which)
    ensures Open(Record(g, which, dist))
  {
  }

  datatype Sample = Sample(channel: Channel, distance: real)

  /** The distances of channel `c` among `samples`, in arrival order. */
  function ValuesOf(samples: seq<Sample>, c: Channel): (vs: seq<real>)
    ensures |vs| <= |samples|
  {
    if samples == [] then []
    else
      var last := samples[|samples| - 1];
      ValuesOf(samples[..|samples| - 1], c) + (if last.channel == c then [last.distance] else [])
  }

  /** The session after `detect` has recorded `samples` into a new session. */
  function Replay(samples: seq<Sample>): GestureInfo {
    if samples == [] then NewSession
    else
      var last := samples[|samples| - 1];
      Record(Replay(samples[..|samples| - 1]), last.channel, last.distance)
  }

  /** However the two channels interleave, each channel's list holds exactly
      its own samples in order, its count is the number of them capped at
      SampleSize, and its average is 0 up to SampleSize samples and the rounded
      median of all of them after that. */
  lemma {:induction false} ReplayChannel(samples: seq<Sample>, c: Channel)
    ensures var g, vs := Replay(samples), ValuesOf(samples, c);
      g.distances.Get(c) == vs &&
      g.count.Get(c) == (if |vs| < SampleSize then |vs| else SampleSize) &&
      g.averages.Get(c) == (if |vs| <= SampleSize then 0 else ToFixed0(Median(vs)))
  {
    if samples != [] {
      var prefix, last := samples[..|samples| - 1], samples[|samples| - 1];
      ReplayChannel(prefix, c);
      if last.channel != c {
        assert c == Other(last.channel);
      }
    }
  }

  /** A channel's average is first computed over SampleSize + 1 samples, one
      more than the count it stops at. */
  lemma FirstAverageOverSixSamples(samples: seq<Sample>, c: Channel)
    requires |ValuesOf(samples, c)| == SampleSize + 1
    ensures Replay(samples).count.Get(c) == SampleSize
    ensures |Replay(samples).distances.Get(c)| == 6
    ensures Replay(samples).averages.Get(c) == ToFixed0(Median(ValuesOf(samples, c)))
  {
    ReplayChannel(samples, c);
  }

  /** The rounded median of samples at or below a whole-centimetre bound is
      at or below that bound. */
  lemma RoundedMedianWithin(d: seq<real>, bound: real)
    requires |d| > 0 && bound.Floor as real == bound
    requires forall i :: 0 <= i < |d| ==> 0.0 <= d[i] <= bound
    ensures ToFixed0(Median(d)) as real <= bound
  {
    MedianBounds(d, 0.0, bound);
    ToFixed0Monotone(Median(d), bound);
    ToFixed0Whole(bound.Floor);
  }

  /** The median filter keeps a press a press: if every sample of each channel
      lies at or below its whole-centimetre threshold, the rounded medians are
      classified as Press. */
  lemma PressWhenAllWithinThresholds(dl: seq<real>, dr: seq<real>, cfg: Config)
    requires |dl| > 0 && |dr| > 0
    requires cfg.leftDistance.Floor as real == cfg.leftDistance
    requires cfg.rightDistance.Floor as real == cfg.rightDistance
    requires forall i :: 0 <= i < |dl| ==> 0.0 <= dl[i] <= cfg.leftDistance
    requires forall i :: 0 <= i < |dr| ==> 0.0 <= dr[i] <= cfg.rightDistance
    ensures Classify(ToFixed0(Median(dl)) as real, ToFixed0(Median(dr)) as real, cfg) == Some(Press)
  {
    RoundedMedianWithin(dl, cfg.leftDistance);
    RoundedMedianWithin(dr, cfg.rightDistance);
  }

  function Repeat(s: Sample, n: nat): (r: seq<Sample>)
    ensures |r| == n
  {
    if n == 0 then [] else Repeat(s, n - 1) + [s]
  }

  /** The stale-average case: five Left samples at `x` cm and five Right
      samples at `y` cm bring both counts to the target with both averages
      still 0; a sixth Left sample at `x` then fires the classifier with the
      Right average still 0, which reads as Swipe Right whenever `x` is beyond
      the left threshold, whatever `y` is. With thresholds of 30 cm, x = 40
      and y = 35 the true medians would give no gesture (ClassifyExamples). */
  lemma StaleAverage(x: real, y: real, cfg: Config)
    requires ToFixed0(x) as real > cfg.leftDistance && x >= 0.0
    ensures var g := Replay(Repeat(Sample(Left, x), SampleSize) + Repeat(Sample(Right, y), SampleSize));
      var r := Record(g, Left, x);
      Fires(g, Left) &&
      r.averages == PerChannel(ToFixed0(x), 0) &&
      Classify(r.averages.left as real, r.averages.right as real, cfg) == Some(SwipeRight)
  {
    var ls, rs := Repeat(Sample(Left, x), SampleSize), Repeat(Sample(Right, y), SampleSize);
    var samples := ls + rs;
    ValuesOfAppend(ls, rs, Left);
    ValuesOfAppend(ls, rs, Right);
    ValuesOfRepeat(Sample(Left, x), SampleSize, Left);
    ValuesOfRepeat(Sample(Left, x), SampleSize, Right);
    ValuesOfRepeat(Sample(Right, y), SampleSize, Left);
    ValuesOfRepeat(Sample(Right, y), SampleSize, Right);
    ReplayChannel(samples, Left);
    ReplayChannel(samples, Right);
    var g := Replay(samples);
    var d := g.distances.left + [x];
    MedianBounds(d, x, x);
  }

  lemma {:induction false} ValuesOfAppend(a: seq<Sample>, b: seq<Sample>, c: Channel)
    ensures ValuesOf(a + b, c) == ValuesOf(a, c) + ValuesOf(b, c)
  {
    if b != [] {
      var last := b[|b| - 1];
      assert (a + b)[..|a + b| - 1] == a + b[..|b| - 1];
      ValuesOfAppend(a, b[..|b| - 1], c);
    } else {
      assert a + b == a;
    }
  }

  lemma {:induction false} ValuesOfRepeat(s: Sample, n: nat, c: Channel)
    ensures var vs := ValuesOf(Repeat(s, n), c);
      |vs| == (if s.channel == c then n else 0) &&
      forall i :: 0 <= i < |vs| ==> vs[i] == s.distance
  {
    if n > 0 {
      var r := Repeat(s, n);
      assert r == Repeat(s, n - 1) + [s];
      assert r[..n - 1] == Repeat(s, n - 1);
      ValuesOfRepeat(s, n - 1, c);
      assert ValuesOf(r, c) == ValuesOf(Repeat(s, n - 1), c) + (if s.channel == c then [s.distance] else []);
    }
  }
}
