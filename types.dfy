/**
 * The shared vocabulary of the gate: phases, permissions, the
 * speed-test result, ledger records and the action union that the
 * global reducer consumes (src/types/index.ts).
 */
module Types {

  import opened Wrappers

  /** The eight phases of the onboarding flow. */
  datatype Phase =
    | DeviceCheck
    | ReturningCheck
    | Entry
    | SpeedTest
    | Calibration
    | VoiceInterface
    | Rejection
    | Acceptance

  /** The string tag each phase carries in the source. */
  function PhaseName(p: Phase): string
  {
    match p
    case DeviceCheck => "DEVICE_CHECK"
    case ReturningCheck => "RETURNING_CHECK"
    case Entry => "ENTRY"
    case SpeedTest => "SPEED_TEST"
    case Calibration => "CALIBRATION"
    case VoiceInterface => "VOICE_INTERFACE"
    case Rejection => "REJECTION"
    case Acceptance => "ACCEPTANCE"
  }

  datatype PermissionType = Microphone | Motion | Location

  datatype PermissionStatus = Pending | Granted | Denied

  datatype SpeedTestResult = SpeedTestResult(latency: real, download: real, upload: real)

  datatype GyroscopeData = GyroscopeData(alpha: real, beta: real, gamma: real)

  /** A ledger entry; `rejectedAt` is `null` until the device is rejected. Times are integer milliseconds. */
  datatype DeviceRecord = DeviceRecord(fingerprint: string, rejectedAt: Option<int>, attempts: int, firstSeenAt: int)

  /** A live microphone stream is an opaque handle here. */
  type MediaStreamHandle = nat

  /** The global state blob held by the context provider. */
  datatype GatekeeperState = GatekeeperState(
    phase: Phase,
    permissions: map<PermissionType, PermissionStatus>,
    speedTestResult: Option<SpeedTestResult>,
    audioLevel: real,
    gyroscopeData: GyroscopeData,
    userName: string,
    userPhone: string,
    isTransitioning: bool,
    deviceFingerprint: Option<string>,
    micStream: Option<MediaStreamHandle>)

  /**
   * The tagged action union. `Unrecognised` stands for any object whose
   * `type` is none of the nine tags (the reducer's `default` branch).
   */
  datatype Action =
    | SetPhase(target: Phase)
    | SetPermission(permission: PermissionType, status: PermissionStatus)
    | SetSpeedResult(result: SpeedTestResult)
    | SetAudioLevel(level: real)
    | SetGyroscope(data: GyroscopeData)
    | SetUserData(name: string, phone: string)
    | SetTransitioning(on: bool)
    | SetFingerprint(fingerprint: string)
    | SetMicStream(stream: Option<MediaStreamHandle>)
    | Unrecognised(tag: string)

  /**
   * What a phase component does to the outside world, in order: a
   * dispatch into the reducer, a call of one of the ledger writers, a
   * permission request, or starting the simulated speed test.
   */
  datatype Effect =
    | Dispatch(action: Action)
    | RecordAttempt(fingerprint: string)
    | RecordRejection(fingerprint: string)
    | RequestPermission(permission: PermissionType)
    | StartSpeedTest

  /** The phase targets of the SET_PHASE dispatches in an effect log. */
  function PhasesDispatched(log: seq<Effect>): set<Phase>
  {
    set e | e in log && e.Dispatch? && e.action.SetPhase? :: e.action.target
  }

  /** The phases dispatched by two logs in a row are those of each. */
  lemma PhasesDispatchedAppend(a: seq<Effect>, b: seq<Effect>)
    ensures PhasesDispatched(a + b) == PhasesDispatched(a) + PhasesDispatched(b)
  {
    forall p | p in PhasesDispatched(a + b)
      ensures p in PhasesDispatched(a) + PhasesDispatched(b)
    {
      var e :| e in a + b && e.Dispatch? && e.action.SetPhase? && e.action.target == p;
      assert e in a || e in b;
    }
  }
}
