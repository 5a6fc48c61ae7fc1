/**
 * The permission sequence (src/components/phases/CalibrationPhase.tsx):
 * after an intro, the microphone, motion and location permissions are
 * requested one at a time; a denial dispatches REJECTION, and three
 * grants lead, after a last pause, to VOICE_INTERFACE. Each request's
 * answer (usePermissions) is an input.
 */
module CalibrationPhase {

  import opened Wrappers
  import opened Types
  import opened Constants

  /** PERMISSION_SEQUENCE, by permission type. */
  const PermissionSequence: seq<PermissionType> := [Microphone, Motion, Location]

  datatype CalibrationStage = Intro | Requesting | Transitioning | Complete

  /** The permission gap's callback, for the index its handler saw: show the next permission, or complete after the last. */
  function AfterGap(index: int): (r: (CalibrationStage, int))
    ensures 0 <= index < |PermissionSequence| - 1 ==> r == (Requesting, index + 1)
    ensures index == |PermissionSequence| - 1 ==> r.0 == Complete
  {
    if index + 1 < |PermissionSequence| then (Requesting, index + 1) else (Complete, index)
  }

  /** The sequence asks for each of the three permissions once, microphone first and location last. */
  lemma SequenceOrder()
    ensures |PermissionSequence| == 3
    ensures PermissionSequence[0] == Microphone && PermissionSequence[1] == Motion && PermissionSequence[2] == Location
    ensures forall i, j :: 0 <= i < j < |PermissionSequence| ==> PermissionSequence[i] != PermissionSequence[j]
    ensures forall p: PermissionType :: p in PermissionSequence
  {
    forall p: PermissionType
      ensures p in PermissionSequence
    {
      match p
      case Microphone => assert PermissionSequence[0] == p;
      case Motion => assert PermissionSequence[1] == p;
      case Location => assert PermissionSequence[2] == p;
    }
  }

  /** All indices up to `k` have been granted. */
  ghost predicate GrantedUpTo(granted: set<int>, k: int)
  {
    forall j :: 0 <= j <= k ==> j in granted
  }

  /** The effect before `at` is the REJECTION dispatch, and no permission is requested from `at` on. */
  ghost predicate DenialIsLastRequest(log: seq<Effect>, at: nat)
  {
    && 0 < at <= |log| && log[at - 1] == Dispatch(SetPhase(Rejection))
    && forall i :: at <= i < |log| ==> !log[i].RequestPermission?
  }

  /** A pending permission-gap timer: its due time and the index its handler saw. */
  datatype GapTimer = GapTimer(due: int, index: int)

  /**
   * The component's three cells, its pending timers (due times in ms),
   * whether it is mounted, and the log. Ghost state records which
   * indices were granted and whether a request was denied.
   */
  class Calibration {
    var currentIndex: int
    var stage: CalibrationStage
    var isProcessing: bool
    var introTimer: Option<int>
    var gapTimers: seq<GapTimer>
    var completeTimer: Option<int>
    var mounted: bool
    var log: seq<Effect>
    ghost var granted: set<int>
    ghost var denied: bool
    /** The length of the log right after the denial's REJECTION. */
    ghost var deniedAt: nat

    /**
     * The index is -1 exactly in the intro and otherwise names a
     * permission; every index below it, and every index a pending gap
     * timer carries, has been granted; 'complete' and VOICE_INTERFACE
     * come only after all three grants; REJECTION only after a denial;
     * once a request is denied the grant button stays disabled; and the
     * denial ends the log's permission requests with a REJECTION.
     */
    ghost predicate Valid()
      reads this
    {
      && -1 <= currentIndex < |PermissionSequence|
      && (currentIndex == -1 <==> stage == Intro)
      && (introTimer.Some? ==> stage == Intro && mounted)
      && (stage == Intro ==> gapTimers == [] && !isProcessing && log == [])
      && (completeTimer.Some? ==> stage == Complete && mounted)
      && GrantedUpTo(granted, currentIndex - 1)
      && (forall i :: 0 <= i < |gapTimers| ==> 0 <= gapTimers[i].index < |PermissionSequence| && GrantedUpTo(granted, gapTimers[i].index))
      && (stage == Complete ==> GrantedUpTo(granted, 2))
      && PhasesDispatched(log) <= {VoiceInterface, Rejection}
      && (VoiceInterface in PhasesDispatched(log) ==> GrantedUpTo(granted, 2))
      && (Rejection in PhasesDispatched(log) ==> denied)
      && (denied ==> isProcessing)
      && (denied ==> DenialIsLastRequest(log, deniedAt))
    }

    /** Mount at time `now`: the intro, with its 2500 ms timer. */
    constructor (now: int)
      ensures Valid()
      ensures currentIndex == -1 && stage == Intro && !isProcessing && mounted
      ensures introTimer == Some(now + 2500) && gapTimers == [] && completeTimer.None? && log == []
      ensures granted == {} && !denied
    {
      currentIndex, stage, isProcessing := -1, Intro, false;
      introTimer, gapTimers, completeTimer := Some(now + 2500), [], None;
      mounted, log := true, [];
      granted, denied, deniedAt := {}, false, 0;
    }

    /** The intro timer fires: start requesting at index 0. */
    method IntroTimerFires()
      requires Valid()
      modifies this
      ensures Valid()
      ensures introTimer.None? && log == old(log) && gapTimers == old(gapTimers) && completeTimer == old(completeTimer)
      ensures granted == old(granted) && denied == old(denied) && deniedAt == old(deniedAt)
      ensures isProcessing == old(isProcessing) && mounted == old(mounted)
      ensures old(introTimer).Some? ==> stage == Requesting && currentIndex == 0
      ensures old(introTimer).None? ==> stage == old(stage) && currentIndex == old(currentIndex)
    {
      if introTimer.Some? {
        stage, currentIndex := Requesting, 0;
        introTimer := None;
      }
    }

    /**
     * handleGrant at time `now`, where `answer` is what the request for
     * the current permission resolves to. Outside [0, 3) it does
     * nothing. A denial dispatches REJECTION and leaves the button
     * disabled; a grant arms the 1500 ms gap timer for this index (and,
     * should it leave 'complete', clears that stage's timer). Its only
     * caller is the card's button, which is disabled while processing.
     */
    method HandleGrant(answer: bool, now: int)
      requires Valid() && !isProcessing
      modifies this
      ensures Valid()
      ensures currentIndex == old(currentIndex) && introTimer == old(introTimer) && mounted == old(mounted)
      ensures completeTimer == (if answer && stage == Transitioning then None else old(completeTimer))
      ensures granted == old(granted) + (if 0 <= old(currentIndex) < |PermissionSequence| && answer then {old(currentIndex)} else {})
      ensures denied == (0 <= old(currentIndex) < |PermissionSequence| && !answer)
      ensures denied ==> deniedAt == |log|
      ensures !(0 <= old(currentIndex) < |PermissionSequence|) ==>
        log == old(log) && stage == old(stage) && gapTimers == old(gapTimers) && isProcessing == old(isProcessing)
      ensures 0 <= old(currentIndex) < |PermissionSequence| ==>
        && GrantedUpTo(old(granted), old(currentIndex) - 1)
        && (!answer ==> log == old(log) + [RequestPermission(PermissionSequence[currentIndex]), Dispatch(SetPhase(Rejection))]
                        && isProcessing && stage == old(stage) && gapTimers == old(gapTimers))
        && (answer ==> log == old(log) + [RequestPermission(PermissionSequence[currentIndex])]
                       && !isProcessing && stage == Transitioning
                       && gapTimers == old(gapTimers) + [GapTimer(now + PermissionGap, currentIndex)])
    {
      if currentIndex < 0 || currentIndex >= |PermissionSequence| {
        return;
      }
      isProcessing := true;
      PhasesDispatchedAppend(log, [RequestPermission(PermissionSequence[currentIndex])]);
      log := log + [RequestPermission(PermissionSequence[currentIndex])];
      if !answer {
        RecordDenial();
      } else {
        RecordGrant(now);
      }
    }

    /** The denied half of handleGrant, once the request is logged: dispatch REJECTION and keep the button disabled. */
    method RecordDenial()
      requires Valid() && isProcessing && !denied && 0 <= currentIndex < |PermissionSequence|
      modifies this
      ensures Valid()
      ensures log == old(log) + [Dispatch(SetPhase(Rejection))] && denied && deniedAt == |log|
      ensures isProcessing && stage == old(stage) && currentIndex == old(currentIndex) && mounted == old(mounted)
      ensures introTimer == old(introTimer) && gapTimers == old(gapTimers) && completeTimer == old(completeTimer)
      ensures granted == old(granted)
    {
      PhasesDispatchedAppend(log, [Dispatch(SetPhase(Rejection))]);
      log := log + [Dispatch(SetPhase(Rejection))];
      denied := true;
      deniedAt := |log|;
    }

    /** The granted half of handleGrant: record the grant, enter the gap and arm its 1500 ms timer for this index. */
    method RecordGrant(now: int)
      requires Valid() && !denied && 0 <= currentIndex < |PermissionSequence|
      modifies this
      ensures Valid()
      ensures granted == old(granted) + {currentIndex} && !denied && deniedAt == old(deniedAt)
      ensures !isProcessing && stage == Transitioning && completeTimer.None?
      ensures gapTimers == old(gapTimers) + [GapTimer(now + PermissionGap, currentIndex)]
      ensures log == old(log) && currentIndex == old(currentIndex) && introTimer == old(introTimer) && mounted == old(mounted)
    {
      granted := granted + {currentIndex};
      isProcessing := false;
      stage := Transitioning;
      completeTimer := None;
      gapTimers := gapTimers + [GapTimer(now + PermissionGap, currentIndex)];
    }

    /** The permission card's button is shown while requesting or transitioning with a current permission, and enabled while not processing. */
    predicate GrantEnabled()
      reads this
    {
      mounted && (stage == Requesting || stage == Transitioning) && 0 <= currentIndex < |PermissionSequence| && !isProcessing
    }

    /** A press of the permission card's button: handleGrant when it is shown and enabled, otherwise nothing. */
    method PressGrant(answer: bool, now: int)
      requires Valid()
      modifies this
      ensures Valid()
      ensures old(denied) ==> log == old(log)
      ensures mounted == old(mounted)
      ensures !old(GrantEnabled()) ==>
        && log == old(log) && stage == old(stage) && gapTimers == old(gapTimers) && isProcessing == old(isProcessing)
        && currentIndex == old(currentIndex) && introTimer == old(introTimer) && completeTimer == old(completeTimer)
        && granted == old(granted) && denied == old(denied) && deniedAt == old(deniedAt)
      ensures old(GrantEnabled()) ==>
        && currentIndex == old(currentIndex) && introTimer == old(introTimer)
        && GrantedUpTo(old(granted), old(currentIndex) - 1)
        && granted == old(granted) + (if answer then {old(currentIndex)} else {})
        && denied == !answer && (denied ==> deniedAt == |log|)
        && completeTimer == (if answer && stage == Transitioning then None else old(completeTimer))
        && (!answer ==> log == old(log) + [RequestPermission(PermissionSequence[currentIndex]), Dispatch(SetPhase(Rejection))]
                        && isProcessing && stage == old(stage) && gapTimers == old(gapTimers))
        && (answer ==> log == old(log) + [RequestPermission(PermissionSequence[currentIndex])]
                       && !isProcessing && stage == Transitioning
                       && gapTimers == old(gapTimers) + [GapTimer(now + PermissionGap, currentIndex)])
    {
      if GrantEnabled() {
        HandleGrant(answer, now);
      }
    }

    /**
     * The oldest pending gap timer fires: it moves to the index after the
     * one its handler saw, or to 'complete' after the third. Entering
     * 'complete' arms the 1000 ms timer; leaving it clears that timer.
     * After unmount the callback changes nothing.
     */
    method GapTimerFires()
      requires Valid()
      modifies this
      ensures Valid()
      ensures log == old(log) && introTimer == old(introTimer)
      ensures granted == old(granted) && denied == old(denied) && deniedAt == old(deniedAt)
      ensures isProcessing == old(isProcessing) && mounted == old(mounted)
      ensures old(gapTimers) == [] || !old(mounted) ==>
        stage == old(stage) && currentIndex == old(currentIndex) && completeTimer == old(completeTimer)
      ensures old(gapTimers) == [] ==> gapTimers == []
      ensures old(gapTimers) != [] ==> gapTimers == old(gapTimers)[1..]
      ensures old(gapTimers) != [] && old(mounted) ==>
        && (stage, currentIndex) == (AfterGap(old(gapTimers)[0].index).0,
                                     if AfterGap(old(gapTimers)[0].index).0 == Complete then old(currentIndex) else AfterGap(old(gapTimers)[0].index).1)
        && (stage == Complete && old(stage) != Complete ==> completeTimer == Some(old(gapTimers)[0].due + 1000))
    {
      if gapTimers == [] {
        return;
      }
      var t := gapTimers[0];
      gapTimers := gapTimers[1..];
      if !mounted {
        return;
      }
      var before := stage;
      var (next, index) := AfterGap(t.index);
      if next == Requesting {
        currentIndex := index;
      }
      stage := next;
      if stage == Complete && before != Complete {
        completeTimer := Some(t.due + 1000);
      } else if stage != Complete {
        completeTimer := None;
      }
    }

    /** The 'complete' timer fires: SET_PHASE VOICE_INTERFACE. */
    method CompleteTimerFires()
      requires Valid()
      modifies this
      ensures Valid()
      ensures stage == old(stage) && currentIndex == old(currentIndex) && completeTimer.None?
      ensures introTimer == old(introTimer) && gapTimers == old(gapTimers)
      ensures granted == old(granted) && denied == old(denied) && deniedAt == old(deniedAt)
      ensures isProcessing == old(isProcessing) && mounted == old(mounted)
      ensures log == old(log) + (if old(completeTimer).Some? then [Dispatch(SetPhase(VoiceInterface))] else [])
      ensures old(completeTimer).Some? ==> GrantedUpTo(granted, 2)
    {
      if completeTimer.Some? {
        PhasesDispatchedAppend(log, [Dispatch(SetPhase(VoiceInterface))]);
        log := log + [Dispatch(SetPhase(VoiceInterface))];
        completeTimer := None;
      }
    }

    /** Unmount: the intro and 'complete' effects clear their timers; the gap timers are never cleared. */
    method Teardown()
      requires Valid()
      modifies this
      ensures Valid()
      ensures !mounted && introTimer.None? && completeTimer.None? && gapTimers == old(gapTimers) && log == old(log)
      ensures stage == old(stage) && currentIndex == old(currentIndex) && isProcessing == old(isProcessing)
      ensures granted == old(granted) && denied == old(denied) && deniedAt == old(deniedAt)
    {
      mounted := false;
      introTimer, completeTimer := None, None;
    }
  }

  /**
   * A denial is the last permission request: the effect right before the
   * denial point is the REJECTION dispatch, and no request is logged
   * after it, however the screen's timers and buttons are driven.
   */
  lemma NoRequestAfterDenial(c: Calibration)
    requires c.Valid() && c.denied
    ensures c.log[c.deniedAt - 1] == Dispatch(SetPhase(Rejection))
    ensures forall i, p: PermissionType :: c.deniedAt <= i < |c.log| ==> c.log[i] != RequestPermission(p)
  {
  }
}
