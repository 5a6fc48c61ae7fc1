/**
 * The voice placeholder (src/components/phases/VoicePhase.tsx): a timer
 * chain intro, then voiceCycles rounds of listening and thinking, then
 * complete, which silences the audio level and dispatches ACCEPTANCE.
 * While listening, each animation frame redraws the 24 waveform bars.
 * The microphone level, the random draws and the sine term are inputs.
 */
module VoicePhase {

  import opened Wrappers
  import opened Types
  import opened Constants

  datatype VoiceState = Intro | Listening | Thinking | Complete

  const WaveformBars: nat := 24

  /** How long each state's timer waits before acting. */
  function Delay(s: VoiceState): int
  {
    match s
    case Intro => 2500
    case Listening => VoiceListenDuration
    case Thinking => VoiceThinkDuration
    case Complete => 2000
  }

  /** The time after mount at which state `s` of cycle `k` begins on the uninterrupted chain. */
  function EnteredAt(s: VoiceState, k: int): int
  {
    match s
    case Intro => 0
    case Listening => Delay(Intro) + k * (VoiceListenDuration + VoiceThinkDuration)
    case Thinking => Delay(Intro) + k * (VoiceListenDuration + VoiceThinkDuration) + VoiceListenDuration
    case Complete => Delay(Intro) + VoiceCycles * (VoiceListenDuration + VoiceThinkDuration)
  }

  /** The thinking timer's callback for cycle `k`: another round of listening, or complete after the last. */
  function AfterThinking(k: int): (r: (VoiceState, int))
    ensures r.0 == Listening <==> k + 1 < VoiceCycles
    ensures r.0 == Complete <==> k + 1 >= VoiceCycles
  {
    if k + 1 >= VoiceCycles then (Complete, k) else (Listening, k + 1)
  }

  /** Each timer hands over at the moment the next state begins; intro to ACCEPTANCE takes 2500 + 3 * (8000 + 4000) + 2000 = 40,500 ms. */
  lemma Timeline(k: int)
    requires 0 <= k < VoiceCycles
    ensures EnteredAt(Intro, 0) + Delay(Intro) == EnteredAt(Listening, 0)
    ensures EnteredAt(Listening, k) + Delay(Listening) == EnteredAt(Thinking, k)
    ensures EnteredAt(Thinking, k) + Delay(Thinking) == EnteredAt(AfterThinking(k).0, AfterThinking(k).1)
    ensures EnteredAt(Complete, k) + Delay(Complete) == 40_500
  {
  }

  function MaxReal(a: real, b: real): real
  {
    if a >= b then a else b
  }

  /** One waveform bar for level `audio`, random draw `draw` and sine term `wave`. */
  function Bar(audio: real, draw: real, wave: real): (v: real)
    ensures v >= 0.05
    ensures v == 0.05 || v == audio * (0.3 + draw * 0.7) + wave * audio
  {
    MaxReal(0.05, audio * (0.3 + draw * 0.7) + wave * audio)
  }

  /**
   * The cells, the pending state timer (a due time in ms), whether the
   * animation loop and the component are live, the microphone level and
   * the log. Ghost state: the mount time, how many listening periods have
   * begun, and when ACCEPTANCE was dispatched.
   */
  class Voice {
    var voiceState: VoiceState
    var cycleIndex: int
    var waveform: seq<real>
    var stateTimer: Option<int>
    var mounted: bool
    var audioLevel: real
    var log: seq<Effect>
    ghost var mountedAt: int
    ghost var listenings: nat
    ghost var acceptedAt: Option<int>

    /**
     * The cycle index stays in [0, voiceCycles); while mounted the
     * pending timer is due when the chain says; 'complete' comes after
     * exactly voiceCycles listening periods; ACCEPTANCE is the only phase
     * dispatched and only from 'complete', at 40,500 ms.
     */
    ghost predicate Valid()
      reads this
    {
      && 0 <= cycleIndex < VoiceCycles
      && |waveform| == WaveformBars
      && (voiceState == Intro ==> cycleIndex == 0 && listenings == 0)
      && (voiceState != Intro ==> listenings == cycleIndex + 1)
      && (voiceState == Complete ==> cycleIndex == VoiceCycles - 1)
      && (mounted && acceptedAt.None? ==>
            stateTimer == Some(mountedAt + EnteredAt(voiceState, cycleIndex) + Delay(voiceState)))
      && (!mounted ==> stateTimer.None?)
      && (acceptedAt.Some? ==> voiceState == Complete && acceptedAt.value == mountedAt + 40_500 && stateTimer.None?)
      && PhasesDispatched(log) == (if acceptedAt.Some? then {Acceptance} else {})
    }

    /** Mount at time `now` with microphone level `level`: intro, 24 silent bars, and the level pushed to the context. */
    constructor (now: int, level: real)
      ensures Valid() && mounted && mountedAt == now && acceptedAt.None?
      ensures voiceState == Intro && cycleIndex == 0 && waveform == seq(WaveformBars, _ => 0.0)
      ensures stateTimer == Some(now + 2500) && log == [Dispatch(SetAudioLevel(level))]
    {
      voiceState, cycleIndex := Intro, 0;
      waveform := seq(WaveformBars, _ => 0.0);
      stateTimer := Some(now + 2500);
      mounted := true;
      audioLevel := level;
      log := [Dispatch(SetAudioLevel(level))];
      mountedAt, listenings, acceptedAt := now, 0, None;
    }

    /** The analyser reports a new level: the effect pushes it to the context when it changed. */
    method AudioLevelChanged(level: real)
      requires Valid()
      modifies this
      ensures Valid()
      ensures audioLevel == level && voiceState == old(voiceState) && stateTimer == old(stateTimer)
      ensures log == old(log) + (if level != old(audioLevel) && mounted then [Dispatch(SetAudioLevel(level))] else [])
    {
      if level != audioLevel && mounted {
        PhasesDispatchedAppend(log, [Dispatch(SetAudioLevel(level))]);
        log := log + [Dispatch(SetAudioLevel(level))];
      }
      audioLevel := level;
    }

    /** An animation frame while listening: every bar is redrawn from the level and that bar's draw and sine term. */
    method AnimationFrame(draws: seq<real>, waves: seq<real>)
      requires Valid() && |draws| == WaveformBars && |waves| == WaveformBars
      modifies this
      ensures Valid()
      ensures voiceState == old(voiceState) && stateTimer == old(stateTimer) && log == old(log)
      ensures !(mounted && voiceState == Listening) ==> waveform == old(waveform)
      ensures mounted && voiceState == Listening ==>
        forall i :: 0 <= i < WaveformBars ==> waveform[i] == Bar(audioLevel, draws[i], waves[i])
    {
      if mounted && voiceState == Listening {
        var level := audioLevel;
        waveform := seq(WaveformBars, i requires 0 <= i < WaveformBars => Bar(level, draws[i], waves[i]));
      }
    }

    /**
     * The pending state timer fires at its due time. Every change of
     * state or cycle re-runs the effect, whose cleanup clears the old
     * timer and which arms the new state's timer.
     */
    method StateTimerFires()
      requires Valid()
      modifies this
      ensures Valid()
      ensures mountedAt == old(mountedAt) && mounted == old(mounted)
      ensures old(stateTimer).None? ==> voiceState == old(voiceState) && log == old(log)
      ensures old(stateTimer).Some? && old(voiceState) == Intro ==> voiceState == Listening && cycleIndex == 0
      ensures old(stateTimer).Some? && old(voiceState) == Listening ==>
        voiceState == Thinking && waveform == seq(WaveformBars, _ => 0.0) && cycleIndex == old(cycleIndex)
      ensures old(stateTimer).Some? && old(voiceState) == Thinking ==> (voiceState, cycleIndex) == AfterThinking(old(cycleIndex))
      ensures old(stateTimer).Some? && old(voiceState) == Complete ==>
        && log == old(log) + [Dispatch(SetAudioLevel(0.0)), Dispatch(SetPhase(Acceptance))]
        && acceptedAt == Some(old(stateTimer).value) && stateTimer.None?
      ensures old(stateTimer).Some? && old(voiceState) != Complete ==> log == old(log)
      ensures !(old(stateTimer).Some? && old(voiceState) == Listening) ==> waveform == old(waveform)
    {
      if stateTimer.None? {
        return;
      }
      var firedAt := stateTimer.value;
      match voiceState
      case Intro =>
        voiceState := Listening;
        listenings := listenings + 1;
        stateTimer := Some(firedAt + Delay(Listening));
      case Listening =>
        voiceState := Thinking;
        waveform := seq(WaveformBars, _ => 0.0);
        stateTimer := Some(firedAt + Delay(Thinking));
      case Thinking =>
        var (next, k) := AfterThinking(cycleIndex);
        if next == Listening {
          listenings := listenings + 1;
        }
        voiceState, cycleIndex := next, k;
        stateTimer := Some(firedAt + Delay(next));
      case Complete =>
        PhasesDispatchedAppend(log, [Dispatch(SetAudioLevel(0.0)), Dispatch(SetPhase(Acceptance))]);
        log := log + [Dispatch(SetAudioLevel(0.0)), Dispatch(SetPhase(Acceptance))];
        acceptedAt := Some(firedAt);
        stateTimer := None;
    }

    /** Unmount: the state timer is cleared and the animation frame cancelled. */
    method Teardown()
      requires Valid()
      modifies this
      ensures Valid()
      ensures !mounted && stateTimer.None? && log == old(log) && voiceState == old(voiceState)
    {
      mounted := false;
      stateTimer := None;
    }
  }

  /** When ACCEPTANCE has been dispatched, exactly voiceCycles listening periods have run, and the dispatch came 40,500 ms after mount. */
  lemma AcceptanceAfterAllCycles(v: Voice)
    requires v.Valid() && Acceptance in PhasesDispatched(v.log)
    ensures v.listenings == VoiceCycles && v.voiceState == Complete
    ensures v.acceptedAt == Some(v.mountedAt + 40_500)
  {
  }
}
