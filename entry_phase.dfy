/**
 * The entry screen (src/components/phases/EntryPhase.tsx): three timers
 * armed on mount reveal two lines and then advance to SPEED_TEST; the
 * cleanup clears all three.
 */
module EntryPhase {

  import opened Wrappers
  import opened Types
  import opened Constants

  type Stage = s: nat | s <= 2

  /** The three timers' delays after mount. */
  const FirstLineDelay: int := 400
  const SecondLineDelay: int := EntryHoldDuration
  const AdvanceDelay: int := EntryHoldDuration + EntrySecondLineDuration + 800

  /** The stage shown `elapsed` ms after mount, while mounted. */
  function StageAt(elapsed: int): Stage
  {
    if elapsed >= SecondLineDelay then 2 else if elapsed >= FirstLineDelay then 1 else 0
  }

  /** What the component has dispatched `elapsed` ms after mount, while mounted. */
  function DispatchedBy(elapsed: int): seq<Effect>
  {
    if elapsed >= AdvanceDelay then [Dispatch(SetPhase(SpeedTest))] else []
  }

  /** The schedule: stage 1 from 400 ms, stage 2 from 3500 ms, SPEED_TEST once at 6300 ms. */
  lemma Schedule(elapsed: int)
    ensures StageAt(elapsed) == 0 <==> elapsed < 400
    ensures StageAt(elapsed) == 1 <==> 400 <= elapsed < 3500
    ensures StageAt(elapsed) == 2 <==> 3500 <= elapsed
    ensures AdvanceDelay == 6300
    ensures PhasesDispatched(DispatchedBy(elapsed)) == (if elapsed >= 6300 then {SpeedTest} else {})
    ensures |DispatchedBy(elapsed)| <= 1
  {
    var e := Dispatch(SetPhase(SpeedTest));
    if elapsed >= 6300 {
      assert e in DispatchedBy(elapsed);
    }
  }

  /** The stage never decreases and the advance, once made, stays made. */
  lemma StageMonotone(e1: int, e2: int)
    requires e1 <= e2
    ensures StageAt(e1) <= StageAt(e2)
    ensures |DispatchedBy(e1)| <= |DispatchedBy(e2)|
    ensures DispatchedBy(e1) <= DispatchedBy(e2)
  {
  }

  /**
   * The stage cell, the three pending timers (due times in ms), the log
   * of dispatches, and, as ghost state, the mount time, the latest time
   * the event loop has reached and whether the cleanup ran.
   */
  class Entry {
    var stage: Stage
    var stageOneTimer: Option<int>
    var stageTwoTimer: Option<int>
    var advanceTimer: Option<int>
    var log: seq<Effect>
    ghost var mountedAt: int
    ghost var clock: int
    ghost var tornDown: bool

    /** At most the one advance was dispatched; while mounted, the cells and timers are those of the schedule at the current time. */
    ghost predicate Valid()
      reads this
    {
      && mountedAt <= clock
      && (log == [] || log == [Dispatch(SetPhase(SpeedTest))])
      && (!tornDown ==>
            && stage == StageAt(clock - mountedAt)
            && log == DispatchedBy(clock - mountedAt)
            && stageOneTimer == (if clock - mountedAt >= FirstLineDelay then None else Some(mountedAt + FirstLineDelay))
            && stageTwoTimer == (if clock - mountedAt >= SecondLineDelay then None else Some(mountedAt + SecondLineDelay))
            && advanceTimer == (if clock - mountedAt >= AdvanceDelay then None else Some(mountedAt + AdvanceDelay)))
      && (tornDown ==> stageOneTimer.None? && stageTwoTimer.None? && advanceTimer.None?)
    }

    /** Mount at time `now`: stage 0 and the three timers armed. */
    constructor (now: int)
      ensures Valid() && !tornDown && mountedAt == now && clock == now
      ensures stage == 0 && log == []
      ensures stageOneTimer == Some(now + 400) && stageTwoTimer == Some(now + 3500) && advanceTimer == Some(now + 6300)
    {
      stage := 0;
      stageOneTimer := Some(now + FirstLineDelay);
      stageTwoTimer := Some(now + SecondLineDelay);
      advanceTimer := Some(now + AdvanceDelay);
      log := [];
      mountedAt, clock, tornDown := now, now, false;
    }

    /** The event loop reaches time `now` and runs, in order of their due times, the timers that are due. */
    method Elapse(now: int)
      requires Valid()
      modifies this
      ensures Valid()
      ensures mountedAt == old(mountedAt) && tornDown == old(tornDown)
      ensures clock == (if now > old(clock) then now else old(clock))
      ensures tornDown ==> stage == old(stage) && log == old(log)
      ensures !tornDown ==> stage == StageAt(clock - mountedAt) && log == DispatchedBy(clock - mountedAt)
    {
      if now > clock {
        clock := now;
      }
      if stageOneTimer.Some? && stageOneTimer.value <= now {
        stage := 1;
        stageOneTimer := None;
      }
      if stageTwoTimer.Some? && stageTwoTimer.value <= now {
        stage := 2;
        stageTwoTimer := None;
      }
      if advanceTimer.Some? && advanceTimer.value <= now {
        log := log + [Dispatch(SetPhase(SpeedTest))];
        advanceTimer := None;
      }
    }

    /** Unmount: the cleanup clears all three timers, so nothing changes afterwards. */
    method Teardown()
      requires Valid()
      modifies this
      ensures Valid() && tornDown
      ensures stage == old(stage) && log == old(log) && mountedAt == old(mountedAt) && clock == old(clock)
      ensures stageOneTimer.None? && stageTwoTimer.None? && advanceTimer.None?
    {
      stageOneTimer, stageTwoTimer, advanceTimer := None, None, None;
      tornDown := true;
    }
  }
}
