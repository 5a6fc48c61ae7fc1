/**
 * The global state of the gate and its reducer
 * (src/context/GatekeeperContext.tsx). Every action overwrites a fixed
 * set of fields with its payload; the provider and hook are React
 * plumbing and are not modelled.
 */
module GatekeeperContext {

  import opened Wrappers
  import opened Types

  /** The state the provider starts with. */
  const InitialState: GatekeeperState := GatekeeperState(
    DeviceCheck,
    map[Microphone := Pending, Motion := Pending, Location := Pending],
    None,
    0.0,
    GyroscopeData(0.0, 0.0, 0.0),
    "",
    "",
    false,
    None,
    None)

  /** The fields of the state, for stating what an action leaves alone. */
  datatype Field =
    | PhaseField
    | PermissionsField
    | SpeedResultField
    | AudioLevelField
    | GyroscopeField
    | UserNameField
    | UserPhoneField
    | TransitioningField
    | FingerprintField
    | MicStreamField

  /** Two states hold the same value in field `f`. */
  predicate AgreeOn(s: GatekeeperState, t: GatekeeperState, f: Field)
  {
    match f
    case PhaseField => s.phase == t.phase
    case PermissionsField => s.permissions == t.permissions
    case SpeedResultField => s.speedTestResult == t.speedTestResult
    case AudioLevelField => s.audioLevel == t.audioLevel
    case GyroscopeField => s.gyroscopeData == t.gyroscopeData
    case UserNameField => s.userName == t.userName
    case UserPhoneField => s.userPhone == t.userPhone
    case TransitioningField => s.isTransitioning == t.isTransitioning
    case FingerprintField => s.deviceFingerprint == t.deviceFingerprint
    case MicStreamField => s.micStream == t.micStream
  }

  /** The fields an action may write. */
  function Touches(a: Action): set<Field>
  {
    match a
    case SetPhase(_) => {PhaseField}
    case SetPermission(_, _) => {PermissionsField}
    case SetSpeedResult(_) => {SpeedResultField}
    case SetAudioLevel(_) => {AudioLevelField}
    case SetGyroscope(_) => {GyroscopeField}
    case SetUserData(_, _) => {UserNameField, UserPhoneField}
    case SetTransitioning(_) => {TransitioningField}
    case SetFingerprint(_) => {FingerprintField}
    case SetMicStream(_) => {MicStreamField}
    case Unrecognised(_) => {}
  }

  /** reducer: each case spreads the old state and overwrites its own fields. */
  function Reduce(state: GatekeeperState, action: Action): (r: GatekeeperState)
    ensures forall f :: f !in Touches(action) ==> AgreeOn(r, state, f)
    ensures action.SetPermission? ==>
      && r.permissions.Keys == state.permissions.Keys + {action.permission}
      && r.permissions[action.permission] == action.status
      && forall p :: p in state.permissions && p != action.permission ==> r.permissions[p] == state.permissions[p]
  {
    match action
    case SetPhase(p) => state.(phase := p)
    case SetPermission(p, status) => state.(permissions := state.permissions[p := status])
    case SetSpeedResult(result) => state.(speedTestResult := Some(result))
    case SetAudioLevel(level) => state.(audioLevel := level)
    case SetGyroscope(data) => state.(gyroscopeData := data)
    case SetUserData(name, phone) => state.(userName := name, userPhone := phone)
    case SetTransitioning(on) => state.(isTransitioning := on)
    case SetFingerprint(fp) => state.(deviceFingerprint := Some(fp))
    case SetMicStream(stream) => state.(micStream := stream)
    case Unrecognised(_) => state
  }

  /**
   * The initial state: DEVICE_CHECK, all three permissions pending, no
   * speed result, silence, no user data and no fingerprint.
   */
  lemma InitialValues()
    ensures InitialState.phase == DeviceCheck
    ensures forall p: PermissionType :: p in InitialState.permissions && InitialState.permissions[p] == Pending
    ensures InitialState.speedTestResult.None? && InitialState.audioLevel == 0.0
    ensures InitialState.userName == "" && InitialState.userPhone == ""
    ensures InitialState.deviceFingerprint.None? && InitialState.micStream.None?
    ensures !InitialState.isTransitioning
  {
    forall p: PermissionType
      ensures p in InitialState.permissions && InitialState.permissions[p] == Pending
    {
      match p
      case Microphone =>
      case Motion =>
      case Location =>
    }
  }

  /** Every action writes what it carries into its fields. */
  lemma ReduceWritesPayload(state: GatekeeperState, action: Action)
    ensures action.SetPhase? ==> Reduce(state, action).phase == action.target
    ensures action.SetSpeedResult? ==> Reduce(state, action).speedTestResult == Some(action.result)
    ensures action.SetAudioLevel? ==> Reduce(state, action).audioLevel == action.level
    ensures action.SetGyroscope? ==> Reduce(state, action).gyroscopeData == action.data
    ensures action.SetUserData? ==>
      Reduce(state, action).userName == action.name && Reduce(state, action).userPhone == action.phone
    ensures action.SetTransitioning? ==> Reduce(state, action).isTransitioning == action.on
    ensures action.SetFingerprint? ==> Reduce(state, action).deviceFingerprint == Some(action.fingerprint)
    ensures action.SetMicStream? ==> Reduce(state, action).micStream == action.stream
  {
  }

  /** The reducer enforces no phase order: from any state, any phase can be set. */
  lemma AnyPhaseReachable(state: GatekeeperState, from: Phase, to: Phase)
    requires state.phase == from
    ensures Reduce(state, SetPhase(to)).phase == to
  {
  }

  /** Every action is a plain overwrite, so dispatching it twice is the same as once. */
  lemma ReduceIdempotent(state: GatekeeperState, action: Action)
    ensures Reduce(Reduce(state, action), action) == Reduce(state, action)
  {
  }

  /** An unrecognised action returns the state unchanged. */
  lemma UnrecognisedIsIdentity(state: GatekeeperState, tag: string)
    ensures Reduce(state, Unrecognised(tag)) == state
  {
  }

  /** Actions that write disjoint fields commute. */
  lemma DisjointActionsCommute(state: GatekeeperState, a: Action, b: Action)
    requires Touches(a) !! Touches(b)
    ensures Reduce(Reduce(state, a), b) == Reduce(Reduce(state, b), a)
  {
  }

  /** The state after a log of dispatches, one at a time. */
  function ReduceAll(state: GatekeeperState, actions: seq<Action>): GatekeeperState
  {
    if |actions| == 0 then state else Reduce(ReduceAll(state, actions[..|actions| - 1]), actions[|actions| - 1])
  }

  /** The phase after a log of dispatches: the target of the last SET_PHASE, or the old phase if there is none. */
  function LastPhase(start: Phase, actions: seq<Action>): Phase
  {
    if |actions| == 0 then start
    else if actions[|actions| - 1].SetPhase? then actions[|actions| - 1].target
    else LastPhase(start, actions[..|actions| - 1])
  }

  lemma {:induction false} ReduceAllPhase(state: GatekeeperState, actions: seq<Action>)
    ensures ReduceAll(state, actions).phase == LastPhase(state.phase, actions)
  {
    if |actions| > 0 {
      ReduceAllPhase(state, actions[..|actions| - 1]);
      var last := actions[|actions| - 1];
      assert PhaseField !in Touches(last) ==> AgreeOn(Reduce(ReduceAll(state, actions[..|actions| - 1]), last), ReduceAll(state, actions[..|actions| - 1]), PhaseField);
    }
  }
}
