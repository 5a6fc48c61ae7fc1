/**
 * The orchestrator (src/components/Experience.tsx): the mobile gate, the
 * phase-to-screen switch of PhaseRenderer, and its DEVICE_CHECK timer
 * that advances to RETURNING_CHECK. The host owns the global state: every
 * dispatch, its own or a phase component's, goes through the reducer.
 */
module Experience {

  import opened Wrappers
  import opened Types
  import opened GatekeeperContext

  /** The screen PhaseRenderer shows; DEVICE_CHECK shows a loading pulse. */
  datatype Screen =
    | LoadingPulse
    | ReturningCheckScreen
    | EntryScreen
    | SpeedTestScreen
    | CalibrationScreen
    | VoiceScreen
    | RejectionScreen
    | AcceptanceScreen

  /** What Experience renders as a whole. */
  datatype View =
    | DesktopGate
    | Detecting
    | PhaseView(screen: Option<Screen>)

  /** PhaseRenderer's switch on the phase string: eight cases and a `default` that renders nothing. */
  function ScreenFor(phase: string): Option<Screen>
  {
    if phase == "DEVICE_CHECK" then Some(LoadingPulse)
    else if phase == "RETURNING_CHECK" then Some(ReturningCheckScreen)
    else if phase == "ENTRY" then Some(EntryScreen)
    else if phase == "SPEED_TEST" then Some(SpeedTestScreen)
    else if phase == "CALIBRATION" then Some(CalibrationScreen)
    else if phase == "VOICE_INTERFACE" then Some(VoiceScreen)
    else if phase == "REJECTION" then Some(RejectionScreen)
    else if phase == "ACCEPTANCE" then Some(AcceptanceScreen)
    else None
  }

  /** Experience: the desktop gate when not mobile, a loading view while undetermined, else the phase's screen. */
  function Render(isMobile: Option<bool>, phase: string): (v: View)
    ensures isMobile == Some(false) ==> v == DesktopGate
    ensures isMobile.None? ==> v == Detecting
    ensures isMobile == Some(true) ==> v == PhaseView(ScreenFor(phase))
  {
    match isMobile
    case Some(false) => DesktopGate
    case None => Detecting
    case Some(true) => PhaseView(ScreenFor(phase))
  }

  /** Each of the eight phases selects a screen, and different phases select different screens. */
  lemma ScreenPerPhase(p: Phase, q: Phase)
    ensures ScreenFor(PhaseName(p)).Some?
    ensures ScreenFor(PhaseName(p)) == ScreenFor(PhaseName(q)) ==> p == q
  {
    match p
    case DeviceCheck =>
    case ReturningCheck =>
    case Entry =>
    case SpeedTest =>
    case Calibration =>
    case VoiceInterface =>
    case Rejection =>
    case Acceptance =>
  }

  /** A string that is no phase's name renders nothing. */
  lemma OtherStringsRenderNothing(s: string)
    requires forall p: Phase :: PhaseName(p) != s
    ensures ScreenFor(s).None?
  {
    assert PhaseName(DeviceCheck) != s && PhaseName(ReturningCheck) != s;
    assert PhaseName(Entry) != s && PhaseName(SpeedTest) != s;
    assert PhaseName(Calibration) != s && PhaseName(VoiceInterface) != s;
    assert PhaseName(Rejection) != s && PhaseName(Acceptance) != s;
  }

  /** Folding one more dispatch into the log is one more reducer step. */
  lemma ReduceAllAppend(state: GatekeeperState, actions: seq<Action>, a: Action)
    ensures ReduceAll(state, actions + [a]) == Reduce(ReduceAll(state, actions), a)
  {
    assert (actions + [a])[..|actions|] == actions;
  }

  /**
   * The provider's state, the device-detect cell and the pending
   * DEVICE_CHECK timer of the mounted PhaseRenderer (its due time in ms).
   * `dispatched` lists every action that reached the reducer.
   */
  class Host {
    var isMobile: Option<bool>
    var state: GatekeeperState
    var advanceTimer: Option<int>
    var dispatched: seq<Action>

    /** The timer exists only while PhaseRenderer is mounted in DEVICE_CHECK, and the state is the reducer's fold of the dispatches. */
    ghost predicate Valid()
      reads this
    {
      && (advanceTimer.Some? ==> isMobile == Some(true) && state.phase == DeviceCheck)
      && state == ReduceAll(InitialState, dispatched)
    }

    function CurrentView(): View
      reads this
    {
      Render(isMobile, PhaseName(state.phase))
    }

    constructor ()
      ensures Valid()
      ensures isMobile.None? && state == InitialState && advanceTimer.None? && dispatched == []
    {
      isMobile := None;
      state := InitialState;
      advanceTimer := None;
      dispatched := [];
    }

    /**
     * useDeviceDetect reports `mobile` at time `now` (on mount or on a
     * resize). PhaseRenderer mounts when the answer becomes true, and
     * its effect arms the 300 ms timer in DEVICE_CHECK; it unmounts,
     * clearing the timer, when the answer becomes false.
     */
    method DeviceDetected(mobile: bool, now: int)
      requires Valid()
      modifies this
      ensures Valid()
      ensures isMobile == Some(mobile) && state == old(state) && dispatched == old(dispatched)
      ensures !mobile ==> advanceTimer.None?
      ensures mobile && old(isMobile) != Some(true) && state.phase == DeviceCheck ==> advanceTimer == Some(now + 300)
      ensures mobile && old(isMobile) == Some(true) ==> advanceTimer == old(advanceTimer)
    {
      var wasRendered := isMobile == Some(true);
      if !mobile {
        advanceTimer := None;
      } else if !wasRendered && state.phase == DeviceCheck {
        advanceTimer := Some(now + 300);
      }
      isMobile := Some(mobile);
    }

    /** Dispatch into the reducer. A phase change remounts PhaseRenderer under its new key: the old timer is cleared and a new one armed only in DEVICE_CHECK. */
    method Dispatch(action: Action, now: int)
      requires Valid()
      modifies this
      ensures Valid()
      ensures dispatched == old(dispatched) + [action] && state == Reduce(old(state), action)
      ensures isMobile == old(isMobile)
      ensures state.phase == old(state.phase) ==> advanceTimer == old(advanceTimer)
      ensures state.phase != old(state.phase) ==>
        advanceTimer == (if state.phase == DeviceCheck && isMobile == Some(true) then Some(now + 300) else None)
    {
      ReduceAllAppend(InitialState, dispatched, action);
      var before := state.phase;
      state := Reduce(state, action);
      dispatched := dispatched + [action];
      if state.phase != before {
        advanceTimer := if state.phase == DeviceCheck && isMobile == Some(true) then Some(now + 300) else None;
      }
    }

    /** The DEVICE_CHECK timer fires at its due time and dispatches SET_PHASE RETURNING_CHECK; nothing happens when no timer is pending. */
    method AdvanceTimerFires()
      requires Valid()
      modifies this
      ensures Valid()
      ensures isMobile == old(isMobile)
      ensures old(advanceTimer).None? ==> state == old(state) && dispatched == old(dispatched) && advanceTimer.None?
      ensures old(advanceTimer).Some? ==>
        && old(isMobile) == Some(true) && old(state.phase) == DeviceCheck
        && dispatched == old(dispatched) + [SetPhase(ReturningCheck)]
        && state.phase == ReturningCheck && advanceTimer.None?
    {
      if advanceTimer.Some? {
        Dispatch(SetPhase(ReturningCheck), advanceTimer.value);
      }
    }

    /** The whole tree unmounts: PhaseRenderer's cleanup clears the timer. */
    method Teardown()
      modifies this
      ensures advanceTimer.None? && state == old(state) && dispatched == old(dispatched) && isMobile == old(isMobile)
    {
      advanceTimer := None;
    }
  }
}
