/**
 * The per-frame smoothing engine of the constellation scene
 * (src/components/three/WebOfThought.tsx, the `useFrame` callback).
 * Every frame the five visual parameters move a fixed fraction of the
 * way toward the current phase's targets, the probe is switched on only
 * in SPEED_TEST, and each node's activation is eased toward a
 * phase-dependent target.
 *
 * The breathing sine, the probe orbit and the camera offset need
 * trigonometry: the pulse value and each node's distance to the probe
 * are inputs of a frame, and the camera is not modelled.
 */
module WebOfThought {

  import opened Types
  import opened Constants
  import opened Constellation

  /** The `lerp` helper. */
  function Lerp(a: real, b: real, t: real): real
  {
    a + (b - a) * t
  }

  function Abs(x: real): real
  {
    if x < 0.0 then -x else x
  }

  /** Scaling a non-negative value by a factor in [0, 1] keeps it within [0, itself]. */
  lemma ScaleWithin(a: real, t: real)
    requires 0.0 <= a && 0.0 <= t <= 1.0
    ensures 0.0 <= a * t <= a
  {
    assert a - a * t == a * (1.0 - t);
  }

  /** The same for a non-positive value: the product lies within [itself, 0]. */
  lemma ScaleWithinNegative(x: real, t: real)
    requires x <= 0.0 && 0.0 <= t <= 1.0
    ensures x <= x * t <= 0.0
  {
    ScaleWithin(-x, t);
    assert (-x) * t == -(x * t);
  }

  /** For a rate in [0, 1] the result lies between the two ends. */
  lemma LerpBetween(a: real, b: real, t: real)
    requires 0.0 <= t <= 1.0
    ensures a <= b ==> a <= Lerp(a, b, t) <= b
    ensures b <= a ==> b <= Lerp(a, b, t) <= a
  {
    if a <= b {
      LerpUp(a, b, t);
    }
    if b <= a {
      LerpDown(a, b, t);
    }
  }

  /** Moving up toward a larger target stays between the ends. */
  lemma LerpUp(a: real, b: real, t: real)
    requires a <= b && 0.0 <= t <= 1.0
    ensures a <= Lerp(a, b, t) <= b
  {
    var w := b - a;
    ScaleWithin(w, t);
    assert Lerp(a, b, t) == a + w * t;
  }

  /** Moving down toward a smaller target stays between the ends. */
  lemma LerpDown(a: real, b: real, t: real)
    requires b <= a && 0.0 <= t <= 1.0
    ensures b <= Lerp(a, b, t) <= a
  {
    var w := b - a;
    ScaleWithinNegative(w, t);
    assert Lerp(a, b, t) == a + w * t;
  }

  /** One step closes the gap to the target by the fraction t. */
  lemma LerpDistance(a: real, b: real, t: real)
    requires 0.0 <= t <= 1.0
    ensures Abs(Lerp(a, b, t) - b) == (1.0 - t) * Abs(a - b)
  {
    assert Lerp(a, b, t) - b == (a - b) * (1.0 - t);
    if a < b {
      ScaleWithin(b - a, 1.0 - t);
      assert (a - b) * (1.0 - t) == -((b - a) * (1.0 - t));
    } else {
      ScaleWithin(a - b, 1.0 - t);
    }
  }

  // ---------------------------------------------------------------
  // The five smoothed parameters
  // ---------------------------------------------------------------

  const LerpSpeed: real := 0.03

  /** Scatter follows its target one and a half times as fast. */
  const ScatterSpeed: real := LerpSpeed * 1.5

  /** The values the parameters start from. */
  const InitialSmoothed: Targets := Targets(0.0, 0.2, 1.0, 0.0, 0.0)

  /** One frame's smoothing of the five parameters toward the targets `t`. */
  function SmoothStep(s: Targets, t: Targets): Targets
  {
    Targets(
      Lerp(s.intensity, t.intensity, LerpSpeed),
      Lerp(s.pulseSpeed, t.pulseSpeed, LerpSpeed),
      Lerp(s.fade, t.fade, LerpSpeed),
      Lerp(s.scatter, t.scatter, ScatterSpeed),
      Lerp(s.converge, t.converge, LerpSpeed))
  }

  /** The parameters after one frame per phase in `phases`, in order. */
  function SmoothAfter(s: Targets, phases: seq<Phase>): Targets
  {
    if |phases| == 0 then s else SmoothStep(SmoothAfter(s, phases[..|phases| - 1]), PhaseTargets(phases[|phases| - 1]))
  }

  /** Each parameter gets 3% closer to its target per frame, scatter 4.5%. */
  lemma SmoothStepContracts(s: Targets, t: Targets)
    ensures Abs(SmoothStep(s, t).intensity - t.intensity) == 0.97 * Abs(s.intensity - t.intensity)
    ensures Abs(SmoothStep(s, t).pulseSpeed - t.pulseSpeed) == 0.97 * Abs(s.pulseSpeed - t.pulseSpeed)
    ensures Abs(SmoothStep(s, t).fade - t.fade) == 0.97 * Abs(s.fade - t.fade)
    ensures Abs(SmoothStep(s, t).scatter - t.scatter) == 0.955 * Abs(s.scatter - t.scatter)
    ensures Abs(SmoothStep(s, t).converge - t.converge) == 0.97 * Abs(s.converge - t.converge)
  {
    LerpDistance(s.intensity, t.intensity, LerpSpeed);
    LerpDistance(s.pulseSpeed, t.pulseSpeed, LerpSpeed);
    LerpDistance(s.fade, t.fade, LerpSpeed);
    LerpDistance(s.scatter, t.scatter, ScatterSpeed);
    LerpDistance(s.converge, t.converge, LerpSpeed);
  }

  /** A frame keeps the parameters inside the ranges every target row lies in. */
  lemma SmoothStepWithinRanges(s: Targets, p: Phase)
    requires WithinVisualRanges(s)
    ensures WithinVisualRanges(SmoothStep(s, PhaseTargets(p)))
  {
    var t := PhaseTargets(p);
    PhaseTargetsWithinRanges(p);
    LerpBetween(s.intensity, t.intensity, LerpSpeed);
    LerpBetween(s.pulseSpeed, t.pulseSpeed, LerpSpeed);
    LerpBetween(s.fade, t.fade, LerpSpeed);
    LerpBetween(s.scatter, t.scatter, ScatterSpeed);
    LerpBetween(s.converge, t.converge, LerpSpeed);
  }

  /** Under any sequence of phases the parameters stay inside the table's ranges. */
  lemma {:induction false} SmoothedAlwaysWithinRanges(phases: seq<Phase>)
    ensures WithinVisualRanges(SmoothAfter(InitialSmoothed, phases))
  {
    if |phases| > 0 {
      SmoothedAlwaysWithinRanges(phases[..|phases| - 1]);
      SmoothStepWithinRanges(SmoothAfter(InitialSmoothed, phases[..|phases| - 1]), phases[|phases| - 1]);
    }
  }

  // ---------------------------------------------------------------
  // Node activation
  // ---------------------------------------------------------------

  /** The activation a node is eased toward; `probeDist` is its distance to the probe. */
  function ActivationTarget(phase: Phase, audioLevel: real, hierarchy: real, probeDist: real): real
  {
    if phase == SpeedTest then (if 1.0 - probeDist / 3.0 > 0.0 then 1.0 - probeDist / 3.0 else 0.0)
    else if phase == VoiceInterface then audioLevel * (0.3 + hierarchy * 0.7)
    else if phase == Acceptance then 0.8
    else 0.0
  }

  /** The easing rate of a node's activation in each phase. */
  function ActivationRate(phase: Phase): (t: real)
    ensures 0.0 < t < 1.0
  {
    if phase == SpeedTest then 0.1
    else if phase == VoiceInterface then 0.15
    else if phase == Acceptance then 0.02
    else 0.05
  }

  /** One frame's update of one node's activation. */
  function Activated(prev: real, phase: Phase, audioLevel: real, hierarchy: real, probeDist: real): real
  {
    Lerp(prev, ActivationTarget(phase, audioLevel, hierarchy, probeDist), ActivationRate(phase))
  }

  /** One frame's update of the whole activation array. */
  function ActivationStep(prev: seq<real>, phase: Phase, audioLevel: real, nodes: seq<Node>, probeDist: seq<real>): (r: seq<real>)
    requires |prev| == |nodes| == |probeDist|
    ensures |r| == |prev|
  {
    seq(|prev|, i requires 0 <= i < |prev| => Activated(prev[i], phase, audioLevel, nodes[i].hierarchy, probeDist[i]))
  }

  /**
   * Within [0, 1]: the probe target for a non-negative distance, the
   * voice target for an audio level and hierarchy in [0, 1], and the
   * fixed targets 0.8 and 0.
   */
  lemma ActivationTargetInUnit(phase: Phase, audioLevel: real, hierarchy: real, probeDist: real)
    requires 0.0 <= audioLevel <= 1.0 && 0.0 <= hierarchy <= 1.0 && 0.0 <= probeDist
    ensures 0.0 <= ActivationTarget(phase, audioLevel, hierarchy, probeDist) <= 1.0
  {
    if phase == VoiceInterface {
      ScaleWithin(hierarchy, 0.7);
      ScaleWithin(0.3 + hierarchy * 0.7, audioLevel);
      assert audioLevel * (0.3 + hierarchy * 0.7) == (0.3 + hierarchy * 0.7) * audioLevel;
    }
  }

  /** A node's activation stays in [0, 1] under the same conditions. */
  lemma ActivationStaysInUnit(prev: seq<real>, phase: Phase, audioLevel: real, nodes: seq<Node>, probeDist: seq<real>)
    requires |prev| == |nodes| == |probeDist|
    requires forall i :: 0 <= i < |prev| ==> 0.0 <= prev[i] <= 1.0
    requires forall i :: 0 <= i < |nodes| ==> 0.0 <= nodes[i].hierarchy <= 1.0
    requires forall i :: 0 <= i < |probeDist| ==> 0.0 <= probeDist[i]
    requires 0.0 <= audioLevel <= 1.0
    ensures forall i :: 0 <= i < |prev| ==> 0.0 <= ActivationStep(prev, phase, audioLevel, nodes, probeDist)[i] <= 1.0
  {
    forall i | 0 <= i < |prev|
      ensures 0.0 <= ActivationStep(prev, phase, audioLevel, nodes, probeDist)[i] <= 1.0
    {
      ActivationTargetInUnit(phase, audioLevel, nodes[i].hierarchy, probeDist[i]);
      LerpBetween(prev[i], ActivationTarget(phase, audioLevel, nodes[i].hierarchy, probeDist[i]), ActivationRate(phase));
    }
  }

  /** Each frame closes the gap to the node's target by the phase's rate. */
  lemma ActivationApproachesTarget(prev: real, phase: Phase, audioLevel: real, hierarchy: real, probeDist: real)
    ensures var target := ActivationTarget(phase, audioLevel, hierarchy, probeDist);
      Abs(Activated(prev, phase, audioLevel, hierarchy, probeDist) - target)
        == (1.0 - ActivationRate(phase)) * Abs(prev - target)
  {
    LerpDistance(prev, ActivationTarget(phase, audioLevel, hierarchy, probeDist), ActivationRate(phase));
  }

  // ---------------------------------------------------------------
  // The scene and its frame callback
  // ---------------------------------------------------------------

  /** The WebOfThought component's refs: smoothed values, probe flag and activation buffer. */
  class Scene {
    const nodes: seq<Node>
    const edges: seq<Edge>
    const active: array<real>
    var intensity: real
    var pulseSpeed: real
    var fade: real
    var scatter: real
    var converge: real
    var pulse: real
    var audioLevel: real
    var probeActive: bool

    /** The five smoothed parameters, as one targets row. */
    function Smoothed(): Targets
      reads this
    {
      Targets(intensity, pulseSpeed, fade, scatter, converge)
    }

    /** The constellation is generated once; every activation starts at 0. */
    constructor (cfg: ConstellationConfig, dist: Metric)
      ensures (nodes, edges) == ConstellationOf(cfg, dist)
      ensures fresh(active) && active[..] == seq(|nodes|, _ => 0.0)
      ensures Smoothed() == InitialSmoothed && pulse == 0.0 && audioLevel == 0.0 && !probeActive
    {
      var ns, es := GenerateConstellation(cfg, dist);
      nodes := ns;
      edges := es;
      active := new real[|ns|](_ => 0.0);
      intensity, pulseSpeed, fade, scatter, converge := 0.0, 0.2, 1.0, 0.0, 0.0;
      pulse, audioLevel := 0.0, 0.0;
      probeActive := false;
    }

    /**
     * One frame: smooth the parameters toward the phase's targets, take
     * the pulse and the audio level as they are, switch the probe, and
     * ease every node's activation.
     */
    method Frame(phase: Phase, audioIn: real, pulseIn: real, probeDist: seq<real>)
      requires active.Length == |nodes| == |probeDist|
      modifies this, active
      ensures Smoothed() == SmoothStep(old(Smoothed()), PhaseTargets(phase))
      ensures pulse == pulseIn && audioLevel == audioIn
      ensures probeActive <==> phase == SpeedTest
      ensures active[..] == ActivationStep(old(active[..]), phase, audioIn, nodes, probeDist)
    {
      var targets := PhaseTargets(phase);
      intensity := Lerp(intensity, targets.intensity, LerpSpeed);
      pulseSpeed := Lerp(pulseSpeed, targets.pulseSpeed, LerpSpeed);
      fade := Lerp(fade, targets.fade, LerpSpeed);
      scatter := Lerp(scatter, targets.scatter, LerpSpeed * 1.5);
      converge := Lerp(converge, targets.converge, LerpSpeed);
      pulse := pulseIn;
      audioLevel := audioIn;
      probeActive := phase == SpeedTest;
      EaseActivations(phase, audioIn, probeDist);
    }

    /** The activation loop of a frame; the probe flag is already set for this frame. */
    method EaseActivations(phase: Phase, audioIn: real, probeDist: seq<real>)
      requires active.Length == |nodes| == |probeDist|
      requires probeActive <==> phase == SpeedTest
      modifies active
      ensures active[..] == ActivationStep(old(active[..]), phase, audioIn, nodes, probeDist)
    {
      ghost var before := active[..];
      for i := 0 to active.Length
        invariant forall j :: 0 <= j < i ==> active[j] == Activated(before[j], phase, audioIn, nodes[j].hierarchy, probeDist[j])
        invariant forall j :: i <= j < active.Length ==> active[j] == before[j]
      {
        var target: real;
        var rate: real;
        if probeActive {
          target := if 1.0 - probeDist[i] / 3.0 > 0.0 then 1.0 - probeDist[i] / 3.0 else 0.0;
          rate := 0.1;
        } else if phase == VoiceInterface {
          target := audioIn * (0.3 + nodes[i].hierarchy * 0.7);
          rate := 0.15;
        } else if phase == Acceptance {
          target := 0.8;
          rate := 0.02;
        } else {
          target := 0.0;
          rate := 0.05;
        }
        active[i] := Lerp(active[i], target, rate);
      }
    }
  }


  /** The generated nodes' hierarchies lie in [0.1, 1), so the activation invariant applies to the scene. */
  lemma SceneActivationInUnit(cfg: ConstellationConfig, dist: Metric, prev: seq<real>, phase: Phase, audioLevel: real, probeDist: seq<real>)
    requires |prev| == |ConstellationOf(cfg, dist).0| == |probeDist|
    requires forall i :: 0 <= i < |prev| ==> 0.0 <= prev[i] <= 1.0
    requires forall i :: 0 <= i < |probeDist| ==> 0.0 <= probeDist[i]
    requires 0.0 <= audioLevel <= 1.0
    ensures forall i :: 0 <= i < |prev| ==>
      0.0 <= ActivationStep(prev, phase, audioLevel, ConstellationOf(cfg, dist).0, probeDist)[i] <= 1.0
  {
    ConstellationNodes(cfg, dist);
    ActivationStaysInUnit(prev, phase, audioLevel, ConstellationOf(cfg, dist).0, probeDist);
  }
}
