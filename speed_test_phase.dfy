/**
 * The diagnostic screen (src/components/phases/SpeedTestPhase.tsx): it
 * starts the simulated speed test once, 1200 ms after mount, shows a
 * status line and three gauges, and 1800 ms after the hook reports the
 * results dispatches them and moves on to CALIBRATION.
 */
module SpeedTestPhase {

  import opened Wrappers
  import opened Types
  import opened UseSpeedTest

  /** getStatusMessage: the index into the five status messages for each stage of the test. */
  function StatusIndex(stage: Stage): nat
  {
    match stage
    case Idle => 0
    case Latency => 1
    case Download => 2
    case Upload => 3
    case Complete => 4
  }

  /** Each stage has its own message, message 0 is the idle one, and the messages follow the stages' order. */
  lemma StatusMessages(s: Stage, t: Stage)
    ensures StatusIndex(s) < 5
    ensures StatusIndex(s) == StatusIndex(t) ==> s == t
    ensures StatusIndex(s) == 0 <==> s == Idle
    ensures Rank(s) < Rank(t) <==> StatusIndex(s) < StatusIndex(t)
  {
  }

  /** The three gauges and the stage during which each is measured. */
  datatype Metric = LatencyGauge | DownloadGauge | UploadGauge

  function MeasuredIn(m: Metric): Stage
  {
    match m
    case LatencyGauge => Latency
    case DownloadGauge => Download
    case UploadGauge => Upload
  }

  /** The `active` flag each gauge is given. */
  predicate GaugeActive(m: Metric, stage: Stage)
  {
    match m
    case LatencyGauge => stage == Latency
    case DownloadGauge => stage == Download
    case UploadGauge => stage == Upload
  }

  /** The `complete` flag each gauge is given. */
  predicate GaugeComplete(m: Metric, stage: Stage)
  {
    match m
    case LatencyGauge => stage == Download || stage == Upload || stage == Complete
    case DownloadGauge => stage == Upload || stage == Complete
    case UploadGauge => stage == Complete
  }

  /**
   * A gauge is active exactly in its own stage and complete exactly in a
   * later one; so no gauge is both, and at most one gauge is active.
   */
  lemma GaugeFlags(m: Metric, n: Metric, stage: Stage)
    ensures GaugeActive(m, stage) <==> stage == MeasuredIn(m)
    ensures GaugeComplete(m, stage) <==> Rank(stage) > Rank(MeasuredIn(m))
    ensures !(GaugeActive(m, stage) && GaugeComplete(m, stage))
    ensures GaugeActive(m, stage) && GaugeActive(n, stage) ==> m == n
  {
  }

  /** An onComplete timer: its due time and the results it will dispatch. */
  datatype ResultTimer = ResultTimer(due: real, results: SpeedTestResult)

  /** The dispatches of the result timers that have fired, in order. */
  function ResultEffects(rs: seq<SpeedTestResult>): seq<Effect>
  {
    if |rs| == 0 then []
    else ResultEffects(rs[..|rs| - 1]) + [Dispatch(SetSpeedResult(rs[|rs| - 1])), Dispatch(SetPhase(Calibration))]
  }

  lemma {:induction false} ResultEffectsShape(rs: seq<SpeedTestResult>)
    ensures |ResultEffects(rs)| == 2 * |rs|
    ensures forall i :: 0 <= i < |rs| ==>
      ResultEffects(rs)[2 * i] == Dispatch(SetSpeedResult(rs[i])) && ResultEffects(rs)[2 * i + 1] == Dispatch(SetPhase(Calibration))
  {
    if |rs| > 0 {
      ResultEffectsShape(rs[..|rs| - 1]);
    }
  }

  /**
   * The hasStarted cell, the start timer, the hook, the onComplete timers
   * still pending (they are never cleared), and the log. `fired` counts
   * the onComplete timers that have run.
   */
  class SpeedTestScreen {
    var hasStarted: bool
    var startTimer: Option<real>
    const hook: SpeedTestHook
    var pending: seq<ResultTimer>
    var log: seq<Effect>
    ghost var fired: nat

    /**
     * The hook is started once at most, only the screen drives it, every
     * completion is a pending or a fired onComplete timer, and the log is
     * the start followed by the fired timers' two dispatches each.
     */
    ghost predicate Valid()
      reads this, hook
    {
      && hook.Valid()
      && (startTimer.Some? ==> !hasStarted)
      && hook.runs == (if hasStarted then 1 else 0)
      && hook.cancelled == 0
      && fired + |pending| == |hook.completions|
      && (forall i :: 0 <= i < |pending| ==> pending[i].results == hook.completions[fired + i])
      && (forall i :: 0 <= i < |hook.completions| ==> hook.completions[i] == Rounded(hook.targets))
      && log == (if hasStarted then [StartSpeedTest] else []) + ResultEffects(hook.completions[..fired])
    }

    /** Mount at time `now`: not started, the 1200 ms start timer armed. */
    constructor (now: real)
      ensures Valid() && fresh(hook)
      ensures !hasStarted && startTimer == Some(now + 1200.0) && pending == [] && log == []
      ensures !hook.isRunning && hook.completions == []
    {
      hook := new SpeedTestHook();
      hasStarted := false;
      startTimer := Some(now + 1200.0);
      pending := [];
      log := [];
      fired := 0;
      new;
      assert hook.completions[..0] == [];
    }

    /** The start timer fires at its due time: start the test with draws r1, r2, r3 and set hasStarted, which arms no new timer. */
    method StartTimerFires(r1: real, r2: real, r3: real)
      requires Valid()
      modifies this, hook
      ensures Valid()
      ensures startTimer.None? && pending == old(pending)
      ensures old(startTimer).None? ==> hasStarted == old(hasStarted) && log == old(log) && hook.runs == old(hook.runs)
      ensures old(startTimer).Some? ==>
        && hasStarted && log == [StartSpeedTest]
        && hook.isRunning && hook.startTime == old(startTimer).value && hook.targets == DrawTargets(r1, r2, r3)
        && hook.state == old(hook.state).(phase := Latency)
    {
      if startTimer.None? {
        return;
      }
      var at := startTimer.value;
      assert hook.completions == [] && fired == 0;
      assert log == [];
      hook.Start(at, r1, r2, r3);
      hasStarted := true;
      startTimer := None;
      log := [StartSpeedTest];
      assert hook.completions[..fired] == [];
    }

    /** An animation frame of the hook at time `now`; a completion arms the 1800 ms onComplete timer with the reported results. */
    method Frame(now: real, f1: real, f2: real, f3: real)
      requires Valid()
      modifies this, hook
      ensures Valid()
      ensures hasStarted == old(hasStarted) && startTimer == old(startTimer) && log == old(log)
      ensures hook.targets == old(hook.targets) && hook.startTime == old(hook.startTime)
      ensures !old(hook.frameScheduled) ==> hook.state == old(hook.state) && hook.completions == old(hook.completions)
      ensures old(hook.frameScheduled) ==>
        hook.state == TickState(now - old(hook.startTime), old(hook.targets), f1, f2, f3)
      ensures !old(hook.frameScheduled) ==> !hook.frameScheduled && pending == old(pending)
      ensures old(hook.frameScheduled) && Progress(now - old(hook.startTime)) < 1.0 ==>
        hook.frameScheduled && hook.isRunning && pending == old(pending)
      ensures old(hook.frameScheduled) && Progress(now - old(hook.startTime)) >= 1.0 ==>
        && !hook.frameScheduled && !hook.isRunning
        && pending == old(pending) + [ResultTimer(now + 1800.0, Rounded(hook.targets))]
      ensures |hook.completions| == |old(hook.completions)| ==> pending == old(pending)
      ensures |hook.completions| > |old(hook.completions)| ==>
        pending == old(pending) + [ResultTimer(now + 1800.0, Rounded(hook.targets))]
    {
      var before := |hook.completions|;
      hook.Tick(now, f1, f2, f3);
      if |hook.completions| > before {
        pending := pending + [ResultTimer(now + 1800.0, hook.completions[before])];
      }
      assert hook.completions[..fired] == old(hook.completions)[..fired];
    }

    /** The earliest onComplete timer fires: SET_SPEED_RESULT with its results, then SET_PHASE CALIBRATION. */
    method ResultTimerFires()
      requires Valid()
      modifies this
      ensures Valid()
      ensures hasStarted == old(hasStarted) && startTimer == old(startTimer)
      ensures old(pending) == [] ==> log == old(log) && pending == []
      ensures old(pending) != [] ==>
        && pending == old(pending)[1..]
        && log == old(log) + [Dispatch(SetSpeedResult(old(pending)[0].results)), Dispatch(SetPhase(Calibration))]
    {
      if pending == [] {
        return;
      }
      var r := pending[0].results;
      assert hook.completions[..fired + 1][..fired] == hook.completions[..fired];
      assert hook.completions[..fired + 1][fired] == r;
      log := log + [Dispatch(SetSpeedResult(r)), Dispatch(SetPhase(Calibration))];
      pending := pending[1..];
      fired := fired + 1;
    }

    /** Unmount: the start effect's cleanup clears the start timer; the hook's frame and the onComplete timers are not cancelled. */
    method Teardown()
      requires Valid()
      modifies this
      ensures Valid()
      ensures startTimer.None? && hasStarted == old(hasStarted) && pending == old(pending) && log == old(log)
    {
      startTimer := None;
    }
  }

  /**
   * However the screen's events interleave, the test ran at most once and
   * reported once at most, so the results and CALIBRATION are dispatched
   * at most once, in that order, after the start.
   */
  lemma AtMostOneResult(screen: SpeedTestScreen)
    requires screen.Valid()
    ensures |screen.hook.completions| <= 1 && |screen.log| <= 3
    ensures |screen.log| > 0 ==> screen.log[0] == StartSpeedTest
    ensures |screen.log| == 3 ==>
      screen.log[1] == Dispatch(SetSpeedResult(Rounded(screen.hook.targets))) && screen.log[2] == Dispatch(SetPhase(Calibration))
  {
    ResultEffectsShape(screen.hook.completions[..screen.fired]);
  }
}
