/**
 * The simulated speed test (src/hooks/useSpeedTest.ts). A run picks
 * three random targets, then every animation frame derives the stage
 * from the elapsed time, animates each metric with an ease-out-cubic
 * curve and a random fluctuation, and on the frame where overall
 * progress reaches 1 stops and reports the targets rounded to one
 * decimal.
 *
 * `Math.random` draws and `performance.now()` readings are inputs of the
 * methods; `requestAnimationFrame` is a flag saying that one more frame
 * is scheduled, and each `Tick` call is that frame running.
 */
module UseSpeedTest {

  import opened Types
  import opened Constants

  datatype Stage = Idle | Latency | Download | Upload | Complete

  /** The position of a stage in the run. */
  function Rank(s: Stage): nat
  {
    match s
    case Idle => 0
    case Latency => 1
    case Download => 2
    case Upload => 3
    case Complete => 4
  }

  /** The hook's state cell. */
  datatype SpeedTestState = SpeedTestState(phase: Stage, latency: real, download: real, upload: real, progress: real)

  const InitialState: SpeedTestState := SpeedTestState(Idle, 0.0, 0.0, 0.0, 0.0)

  const DownloadStart: real := (LatencyDuration + StaggerDelay) as real
  const UploadStart: real := (LatencyDuration + StaggerDelay + DownloadDuration + StaggerDelay) as real
  const CompleteStart: real := (SpeedTestTotalDuration - FinalHold) as real

  // ---------------------------------------------------------------
  // Pure pieces of a tick
  // ---------------------------------------------------------------

  function Min(a: real, b: real): real
  {
    if a <= b then a else b
  }

  /** The stage shown `elapsed` ms into a run. */
  function StageAt(elapsed: real): Stage
  {
    if elapsed > CompleteStart then Complete
    else if elapsed > UploadStart then Upload
    else if elapsed > DownloadStart then Download
    else Latency
  }

  /** Overall progress of a run. */
  function Progress(elapsed: real): real
  {
    Min(elapsed / SpeedTestTotalDuration as real, 1.0)
  }

  function Cube(x: real): real
  {
    x * x * x
  }

  function EaseOutCubic(t: real): real
  {
    1.0 - Cube(1.0 - t)
  }

  /** `value * (1 + (r - 0.5) * amount)` for a random draw `r`. */
  function Fluctuate(value: real, amount: real, r: real): real
  {
    value * (1.0 + (r - 0.5) * amount)
  }

  /** `Math.round(x * 10) / 10`; Math.round rounds halves upward. */
  function Round1(x: real): real
  {
    ((x * 10.0 + 0.5).Floor as real) / 10.0
  }

  /** A target drawn from a range: `low + r * (high - low)`. */
  function TargetIn(range: Range, r: real): real
  {
    range.low + r * (range.high - range.low)
  }

  /** The three targets of a run, from three draws. */
  function DrawTargets(r1: real, r2: real, r3: real): SpeedTestResult
  {
    SpeedTestResult(TargetIn(LatencyRange, r1), TargetIn(DownloadRange, r2), TargetIn(UploadRange, r3))
  }

  /** The targets rounded to one decimal, as onComplete receives them. */
  function Rounded(t: SpeedTestResult): SpeedTestResult
  {
    SpeedTestResult(Round1(t.latency), Round1(t.download), Round1(t.upload))
  }

  /** The state one frame shows: `f1`, `f2`, `f3` are the fluctuation draws of the three metrics. */
  function TickState(elapsed: real, targets: SpeedTestResult, f1: real, f2: real, f3: real): SpeedTestState
  {
    var stage := StageAt(elapsed);
    var latency := Fluctuate(targets.latency * EaseOutCubic(Min(elapsed / LatencyDuration as real, 1.0)), 0.04, f1);
    var download :=
      if elapsed > DownloadStart
      then Fluctuate(targets.download * EaseOutCubic(Min((elapsed - DownloadStart) / DownloadDuration as real, 1.0)), 0.06, f2)
      else 0.0;
    var upload :=
      if elapsed > UploadStart
      then Fluctuate(targets.upload * EaseOutCubic(Min((elapsed - UploadStart) / UploadDuration as real, 1.0)), 0.06, f3)
      else 0.0;
    if stage == Complete then
      SpeedTestState(Complete, Round1(targets.latency), Round1(targets.download), Round1(targets.upload), Progress(elapsed))
    else
      SpeedTestState(stage, Round1(latency), Round1(download), Round1(upload), Progress(elapsed))
  }

  // ---------------------------------------------------------------
  // Properties of the schedule
  // ---------------------------------------------------------------

  /** The stage boundaries: download after 3400 ms, upload after 7800 ms, complete after 10600 ms. */
  lemma StageBoundaries(elapsed: real)
    ensures StageAt(elapsed) == Latency <==> elapsed <= 3400.0
    ensures StageAt(elapsed) == Download <==> 3400.0 < elapsed <= 7800.0
    ensures StageAt(elapsed) == Upload <==> 7800.0 < elapsed <= 10600.0
    ensures StageAt(elapsed) == Complete <==> 10600.0 < elapsed
  {
  }

  /** The stage only moves forward as time goes on. */
  lemma StageMonotone(e1: real, e2: real)
    requires e1 <= e2
    ensures Rank(StageAt(e1)) <= Rank(StageAt(e2))
  {
  }

  /** Progress lies in [0, 1], reaches 1 exactly at 11,400 ms, and the run is then in its final hold. */
  lemma ProgressBounds(elapsed: real)
    requires 0.0 <= elapsed
    ensures 0.0 <= Progress(elapsed) <= 1.0
    ensures Progress(elapsed) == 1.0 <==> elapsed >= 11400.0
    ensures Progress(elapsed) == 1.0 ==> StageAt(elapsed) == Complete
  {
    SpeedTestTable();
  }

  lemma NonNegProduct(x: real, y: real)
    requires 0.0 <= x && 0.0 <= y
    ensures 0.0 <= x * y
  {
  }

  lemma PosProduct(x: real, y: real)
    requires 0.0 < x && 0.0 < y
    ensures 0.0 < x * y
  {
  }

  /** The product r * w as a named term, so that a bound on it carries over to a caller's own expression. */
  function Scale(r: real, w: real): real
  {
    r * w
  }

  lemma ScaleBelow(r: real, w: real)
    requires 0.0 <= r < 1.0 && 0.0 < w
    ensures 0.0 <= Scale(r, w) < w
  {
    NonNegProduct(r, w);
    PosProduct(1.0 - r, w);
    assert w - r * w == (1.0 - r) * w;
  }

  lemma MulMono(a: real, b: real, c: real)
    requires 0.0 <= a <= b && 0.0 <= c
    ensures a * c <= b * c
  {
    NonNegProduct(b - a, c);
    assert b * c - a * c == (b - a) * c;
  }

  lemma CubeMonotone(a: real, b: real)
    requires 0.0 <= a <= b
    ensures 0.0 <= Cube(a) <= Cube(b)
  {
    var aa := a * a;
    var bb := b * b;
    MulMono(a, b, a);
    MulMono(a, b, b);
    assert aa <= a * b <= bb;
    NonNegProduct(a, a);
    MulMono(aa, bb, a);
    MulMono(a, b, bb);
    NonNegProduct(aa, a);
    assert Cube(a) == aa * a && Cube(b) == b * bb;
    assert bb * a == a * bb;
  }

  /** easeOutCubic fixes 0 and 1. */
  lemma EaseOutCubicEnds()
    ensures EaseOutCubic(0.0) == 0.0 && EaseOutCubic(1.0) == 1.0
  {
    assert Cube(1.0) == 1.0 && Cube(0.0) == 0.0;
  }

  /** easeOutCubic maps [0, 1] into [0, 1]. */
  lemma EaseOutCubicBounded(t: real)
    requires 0.0 <= t <= 1.0
    ensures 0.0 <= EaseOutCubic(t) <= 1.0
  {
    var c := 1.0 - t;
    CubeMonotone(c, 1.0);
    assert Cube(1.0) == 1.0;
    assert EaseOutCubic(t) == 1.0 - Cube(c);
  }

  /** easeOutCubic never decreases on [0, 1]. */
  lemma EaseOutCubicMonotone(t1: real, t2: real)
    requires 0.0 <= t1 <= t2 <= 1.0
    ensures EaseOutCubic(t1) <= EaseOutCubic(t2)
  {
    var c1, c2 := 1.0 - t1, 1.0 - t2;
    CubeMonotone(c2, c1);
    assert EaseOutCubic(t1) == 1.0 - Cube(c1) && EaseOutCubic(t2) == 1.0 - Cube(c2);
  }

  lemma DrawBetween(low: real, high: real, r: real)
    requires low < high && 0.0 <= r < 1.0
    ensures low <= TargetIn(Range(low, high), r) < high
  {
    ScaleBelow(r, high - low);
  }

  /** A target drawn with r in [0, 1) lies in [low, high). */
  lemma TargetInRange(range: Range, r: real)
    requires range.low < range.high && 0.0 <= r < 1.0
    ensures range.low <= TargetIn(range, r) < range.high
  {
    DrawBetween(range.low, range.high, r);
    assert Range(range.low, range.high) == range;
  }

  /** Every target of a run lies in its range. */
  lemma TargetsInRanges(r1: real, r2: real, r3: real)
    requires 0.0 <= r1 < 1.0 && 0.0 <= r2 < 1.0 && 0.0 <= r3 < 1.0
    ensures LatencyRange.low <= DrawTargets(r1, r2, r3).latency < LatencyRange.high
    ensures DownloadRange.low <= DrawTargets(r1, r2, r3).download < DownloadRange.high
    ensures UploadRange.low <= DrawTargets(r1, r2, r3).upload < UploadRange.high
  {
    SpeedTestTable();
    TargetInRange(LatencyRange, r1);
    TargetInRange(DownloadRange, r2);
    TargetInRange(UploadRange, r3);
  }

  /** Rounding to one decimal moves a value by at most 0.05. */
  lemma Round1Close(x: real)
    ensures x - 0.05 < Round1(x) <= x + 0.05
  {
    var y := x * 10.0 + 0.5;
    assert y - 1.0 < y.Floor as real <= y;
  }

  /** In the final hold the display shows the rounded targets, the values onComplete reports. */
  lemma CompleteShowsTargets(elapsed: real, targets: SpeedTestResult, f1: real, f2: real, f3: real)
    requires StageAt(elapsed) == Complete
    ensures var s := TickState(elapsed, targets, f1, f2, f3);
      s.phase == Complete && SpeedTestResult(s.latency, s.download, s.upload) == Rounded(targets)
  {
  }

  /** Before its start a metric shows 0. */
  lemma NotStartedShowsZero(elapsed: real, targets: SpeedTestResult, f1: real, f2: real, f3: real)
    ensures elapsed <= DownloadStart ==> TickState(elapsed, targets, f1, f2, f3).download == 0.0
    ensures elapsed <= UploadStart ==> TickState(elapsed, targets, f1, f2, f3).upload == 0.0
  {
    assert Round1(0.0) == 0.0 by {
      assert (0.0 * 10.0 + 0.5).Floor == 0;
    }
  }

  // ---------------------------------------------------------------
  // The hook
  // ---------------------------------------------------------------

  /** useSpeedTest's state cell and refs, and the log of onComplete calls. */
  class SpeedTestHook {
    var state: SpeedTestState
    var isRunning: bool
    /** A frame is requested (`rafRef` holds a live request). */
    var frameScheduled: bool
    var startTime: real
    var targets: SpeedTestResult
    var completions: seq<SpeedTestResult>
    /** Runs started, and runs stopped by the cleanup start returns. */
    ghost var runs: nat
    ghost var cancelled: nat

    /** A run in progress is the one with a frame scheduled; every other run ended once, by completing or by cleanup. */
    ghost predicate Valid()
      reads this
    {
      && (isRunning <==> frameScheduled)
      && |completions| + cancelled + (if isRunning then 1 else 0) == runs
    }

    constructor ()
      ensures Valid()
      ensures state == InitialState && !isRunning && !frameScheduled && completions == [] && runs == 0
    {
      state := InitialState;
      isRunning, frameScheduled := false, false;
      startTime := 0.0;
      targets := SpeedTestResult(0.0, 0.0, 0.0);
      completions := [];
      runs, cancelled := 0, 0;
    }

    /** start: ignored while a run is in progress; otherwise draw the targets and request the first frame. */
    method Start(now: real, r1: real, r2: real, r3: real)
      requires Valid()
      modifies this
      ensures Valid()
      ensures completions == old(completions) && cancelled == old(cancelled)
      ensures old(isRunning) ==>
        && state == old(state) && targets == old(targets) && startTime == old(startTime)
        && isRunning && frameScheduled && runs == old(runs)
      ensures !old(isRunning) ==>
        && isRunning && frameScheduled && runs == old(runs) + 1
        && targets == DrawTargets(r1, r2, r3) && startTime == now
        && state == old(state).(phase := Latency)
    {
      if isRunning {
        return;
      }
      isRunning := true;
      targets := DrawTargets(r1, r2, r3);
      startTime := now;
      state := state.(phase := Latency);
      frameScheduled := true;
      runs := runs + 1;
    }

    /**
     * The scheduled frame runs at time `now`: show the tick's state, and
     * either request the next frame or end the run and report the
     * rounded targets, once.
     */
    method Tick(now: real, f1: real, f2: real, f3: real)
      requires Valid()
      modifies this
      ensures Valid()
      ensures runs == old(runs) && cancelled == old(cancelled)
      ensures targets == old(targets) && startTime == old(startTime)
      ensures !old(frameScheduled) ==> state == old(state) && completions == old(completions) && !frameScheduled
      ensures old(frameScheduled) ==>
        state == TickState(now - old(startTime), old(targets), f1, f2, f3)
      ensures old(frameScheduled) && Progress(now - old(startTime)) < 1.0 ==>
        frameScheduled && completions == old(completions)
      ensures old(frameScheduled) && Progress(now - old(startTime)) >= 1.0 ==>
        !frameScheduled && !isRunning && completions == old(completions) + [Rounded(old(targets))]
    {
      if !frameScheduled {
        return;
      }
      var elapsed := now - startTime;
      state := TickState(elapsed, targets, f1, f2, f3);
      if Progress(elapsed) < 1.0 {
        frameScheduled := true;
      } else {
        frameScheduled := false;
        isRunning := false;
        completions := completions + [Rounded(targets)];
      }
    }

    /** The cleanup start returns: cancel the pending frame and clear isRunning. */
    method Cleanup()
      requires Valid()
      modifies this
      ensures Valid()
      ensures !isRunning && !frameScheduled && completions == old(completions) && state == old(state)
      ensures targets == old(targets) && startTime == old(startTime) && runs == old(runs)
    {
      if isRunning {
        cancelled := cancelled + 1;
      }
      frameScheduled := false;
      isRunning := false;
    }
  }
}
