/**
 * The phase graph the components form together: for each phase, the
 * phases its screen can dispatch. Each component's own invariant bounds
 * its dispatches by this table, and along every edge the flow moves
 * forward, so it ends in REJECTION, ACCEPTANCE or a blocked check.
 */
module PhaseGraph {

  import opened Wrappers
  import opened Types
  import opened Constants
  import opened DeviceIdentity
  import ReturningCheckPhase
  import EntryPhase
  import SpeedTestPhase
  import CalibrationPhase
  import VoicePhase
  import AcceptancePhase
  import RejectionPhase

  /** The phases the screen shown in `p` can move to. */
  function Successors(p: Phase): set<Phase>
  {
    match p
    case DeviceCheck => {ReturningCheck}
    case ReturningCheck => {Entry}
    case Entry => {SpeedTest}
    case SpeedTest => {Calibration}
    case Calibration => {VoiceInterface, Rejection}
    case VoiceInterface => {Acceptance}
    case Rejection => {}
    case Acceptance => {}
  }

  /** The position of each phase along the flow. */
  function Order(p: Phase): nat
  {
    match p
    case DeviceCheck => 0
    case ReturningCheck => 1
    case Entry => 2
    case SpeedTest => 3
    case Calibration => 4
    case VoiceInterface => 5
    case Rejection => 6
    case Acceptance => 6
  }

  /** Every edge moves forward, so the graph has no cycle; REJECTION and ACCEPTANCE have no way out. */
  lemma FlowMovesForward(p: Phase, q: Phase)
    ensures q in Successors(p) ==> Order(p) < Order(q)
    ensures Successors(Rejection) == {} && Successors(Acceptance) == {}
  {
  }

  /** `q` can be reached from `p` along at most `n` edges. */
  predicate Reaches(p: Phase, q: Phase, n: nat)
    decreases n
  {
    p == q || (n > 0 && exists s :: s in Successors(p) && Reaches(s, q, n - 1))
  }

  /** Every phase lies on the flow from DEVICE_CHECK, within six steps. */
  lemma AllPhasesReachable(p: Phase)
    ensures Reaches(DeviceCheck, p, 6)
  {
    assert Reaches(VoiceInterface, Acceptance, 1) by { assert Acceptance in Successors(VoiceInterface); }
    assert Reaches(Calibration, VoiceInterface, 2) by { assert VoiceInterface in Successors(Calibration); }
    assert Reaches(Calibration, Rejection, 2) by { assert Rejection in Successors(Calibration) && Reaches(Rejection, Rejection, 1); }
    assert Reaches(Calibration, Acceptance, 2) by { assert VoiceInterface in Successors(Calibration); }
    assert Reaches(SpeedTest, p, 3) ==> Reaches(Entry, p, 4) by { assert SpeedTest in Successors(Entry); }
    assert Reaches(Entry, p, 4) ==> Reaches(ReturningCheck, p, 5) by { assert Entry in Successors(ReturningCheck); }
    assert Reaches(ReturningCheck, p, 5) ==> Reaches(DeviceCheck, p, 6) by { assert ReturningCheck in Successors(DeviceCheck); }
    if p != DeviceCheck && p != ReturningCheck && p != Entry && p != SpeedTest {
      assert Reaches(Calibration, p, 2);
      assert Calibration in Successors(SpeedTest);
    }
  }

  /** Each screen dispatches only the phases the table allows it. */
  lemma ScreensFollowTheGraph(
    check: ReturningCheckPhase.ReturningCheck, entry: EntryPhase.Entry, test: SpeedTestPhase.SpeedTestScreen,
    calibration: CalibrationPhase.Calibration, voice: VoicePhase.Voice,
    acceptance: AcceptancePhase.Acceptance, rejection: RejectionPhase.Rejection)
    requires check.Valid() && entry.Valid() && test.Valid() && calibration.Valid()
    requires voice.Valid() && acceptance.Valid() && rejection.Valid()
    ensures PhasesDispatched(check.log) <= Successors(ReturningCheck)
    ensures PhasesDispatched(entry.log) <= Successors(Entry)
    ensures PhasesDispatched(test.log) <= Successors(SpeedTest)
    ensures PhasesDispatched(calibration.log) <= Successors(Calibration)
    ensures PhasesDispatched(voice.log) <= Successors(VoiceInterface)
    ensures PhasesDispatched(acceptance.log) <= Successors(Acceptance)
    ensures PhasesDispatched(rejection.log) <= Successors(Rejection)
  {
    if entry.log != [] {
      var e := Dispatch(SetPhase(SpeedTest));
      assert entry.log == [e];
      forall q | q in PhasesDispatched(entry.log) ensures q == SpeedTest {
        var d :| d in entry.log && d.Dispatch? && d.action.SetPhase? && d.action.target == q;
      }
    }
    SpeedTestPhase.AtMostOneResult(test);
    AcceptancePhase.AcceptanceIsFinal(acceptance);
    RejectionPhase.RejectionIsTerminal(rejection);
  }

  /**
   * A rejection written at a time other than 0 blocks the device on
   * every later check before the cooldown ends: the returning check then
   * ends in 'blocked' and never reaches ENTRY.
   */
  lemma RejectionBlocksReturn(st: Storage, writable: bool, fp: string, rejectedAt: int, t: int, ip: Option<IpHistory>)
    requires Writes(st, writable) && rejectedAt != 0 && t < rejectedAt + RejectionCooldownMs
    ensures ReturningCheckPhase.IsBlocked(LookupIn(AfterRejection(st, writable, fp, rejectedAt), fp), t)
    ensures ReturningCheckPhase.Verdict(ReturningCheckPhase.IsBlocked(LookupIn(AfterRejection(st, writable, fp, rejectedAt), fp), t), ip)
      == ReturningCheckPhase.Blocked
  {
    CooldownValue();
    RejectionStartsCooldown(st, writable, fp, rejectedAt, t);
  }
}
