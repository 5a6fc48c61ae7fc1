/**
 * The constant tables of the gate (src/lib/constants.ts): the
 * constellation configuration, the speed-test ranges and durations, the
 * flow timing, the identity cooldown and the per-phase visual targets.
 * Colours are left out.
 */
module Constants {

  import opened Types

  /** Configuration of the constellation generator (the CONSTELLATION object). */
  datatype ConstellationConfig = ConstellationConfig(
    nodeCount: nat,
    connectionThreshold: real,
    hubProbability: real,
    hubMinConnections: nat,
    normalMaxConnections: nat,
    breathingSpeed: real,
    breathingAmplitude: real,
    sphereRadius: real,
    sphereDepthVariation: real,
    seed: int)

  const ConstellationDefaults: ConstellationConfig :=
    ConstellationConfig(150, 2.8, 0.08, 5, 4, 0.3, 0.15, 5.0, 0.6, 42)

  /** The degree cap of a hub node, as the edge generator computes it. */
  function HubCap(cfg: ConstellationConfig): nat
  {
    cfg.hubMinConnections + 4
  }

  /** A speed-test range `[low, high]`. */
  datatype Range = Range(low: real, high: real)

  const LatencyRange: Range := Range(12.0, 42.0)
  const DownloadRange: Range := Range(65.0, 220.0)
  const UploadRange: Range := Range(15.0, 55.0)
  const LatencyDuration: int := 2200
  const DownloadDuration: int := 3200
  const UploadDuration: int := 2800
  const StaggerDelay: int := 1200

  /** The final hold of a speed-test run, after the upload curve. */
  const FinalHold: int := 800

  /** The length of a whole speed-test run, as useSpeedTest adds it up. */
  const SpeedTestTotalDuration: int :=
    LatencyDuration + StaggerDelay + DownloadDuration + StaggerDelay + UploadDuration + FinalHold

  const EntryHoldDuration: int := 3500
  const EntrySecondLineDuration: int := 2000
  const PermissionGap: int := 1500
  const VoiceListenDuration: int := 8000
  const VoiceThinkDuration: int := 4000
  const VoiceCycles: nat := 3
  const RejectionFadeDuration: int := 2000
  const AcceptanceConvergeDuration: int := 3000
  const ReturningCheckDelay: int := 1000
  const PhaseTransitionDuration: int := 600

  /** About six months, in milliseconds. */
  const RejectionCooldownMs: int := 6 * 30 * 24 * 60 * 60 * 1000
  const StorageKey: string := "gatekeeper_identity"

  /** The five visual parameters a phase asks the constellation to settle at. */
  datatype Targets = Targets(intensity: real, pulseSpeed: real, fade: real, scatter: real, converge: real)

  /** PHASE_TARGETS: one row per phase (the match is exhaustive). */
  function PhaseTargets(p: Phase): Targets
  {
    match p
    case DeviceCheck => Targets(0.0, 0.2, 1.0, 0.0, 0.0)
    case ReturningCheck => Targets(0.15, 0.2, 1.0, 0.0, 0.0)
    case Entry => Targets(0.3, 0.3, 1.0, 0.0, 0.0)
    case SpeedTest => Targets(0.8, 0.8, 1.0, 0.0, 0.0)
    case Calibration => Targets(0.6, 0.4, 1.0, 0.0, 0.0)
    case VoiceInterface => Targets(1.0, 0.5, 1.0, 0.0, 0.0)
    case Rejection => Targets(0.0, 0.0, 0.0, 1.0, 0.0)
    case Acceptance => Targets(1.5, 1.0, 1.0, 0.0, 1.0)
  }

  /** The domain of each visual parameter: intensity in [0, 1.5], the others in [0, 1]. */
  predicate WithinVisualRanges(t: Targets)
  {
    && 0.0 <= t.intensity <= 1.5
    && 0.0 <= t.pulseSpeed <= 1.0
    && 0.0 <= t.fade <= 1.0
    && 0.0 <= t.scatter <= 1.0
    && 0.0 <= t.converge <= 1.0
  }

  lemma PhaseTargetsWithinRanges(p: Phase)
    ensures WithinVisualRanges(PhaseTargets(p))
  {
  }

  /** Only REJECTION scatters or fades: it is the one row with scatter != 0 or fade != 1. */
  lemma OnlyRejectionScattersOrFades(p: Phase)
    ensures PhaseTargets(p).scatter != 0.0 || PhaseTargets(p).fade != 1.0 <==> p == Rejection
    ensures p == Rejection ==> PhaseTargets(p) == Targets(0.0, 0.0, 0.0, 1.0, 0.0)
  {
  }

  /** Only ACCEPTANCE converges, and it is the brightest row. */
  lemma OnlyAcceptanceConverges(p: Phase)
    ensures PhaseTargets(p).converge != 0.0 <==> p == Acceptance
    ensures PhaseTargets(p).intensity <= PhaseTargets(Acceptance).intensity == 1.5
  {
  }

  /** The hub cap of the default configuration (9) exceeds the normal cap (4). */
  lemma HubCapExceedsNormalCap()
    ensures HubCap(ConstellationDefaults) == 9
    ensures HubCap(ConstellationDefaults) > ConstellationDefaults.normalMaxConnections == 4
  {
  }

  /** The cooldown is 15,552,000,000 ms, more than a 32-bit integer can hold. */
  lemma CooldownValue()
    ensures RejectionCooldownMs == 15_552_000_000
    ensures RejectionCooldownMs > 0x1_0000_0000
  {
  }

  /** Every speed-test range is non-empty, and a whole run lasts 11,400 ms. */
  lemma SpeedTestTable()
    ensures LatencyRange.low < LatencyRange.high
    ensures DownloadRange.low < DownloadRange.high
    ensures UploadRange.low < UploadRange.high
    ensures SpeedTestTotalDuration == 11_400
  {
  }
}
