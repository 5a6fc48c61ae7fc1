/**
 * The terminal rejection screen (src/components/phases/RejectionPhase.tsx):
 * it writes the rejection to the ledger once a fingerprint is known,
 * shows its second line after 3000 ms, and dispatches nothing.
 */
module RejectionPhase {

  import opened Wrappers
  import opened Types

  /** A string is truthy in JavaScript when it is present and not empty. */
  predicate Truthy(s: Option<string>)
  {
    s.Some? && s.value != ""
  }

  /**
   * The two flags, the second-line timer (a due time in ms), whether the
   * component is mounted, the context's fingerprint as it last rendered,
   * and the log.
   */
  class Rejection {
    var showSecondLine: bool
    var recorded: bool
    var secondLineTimer: Option<int>
    var mounted: bool
    var fingerprint: Option<string>
    var log: seq<Effect>

    /** At most one rejection is written, exactly when `recorded` is set, and nothing is dispatched. */
    ghost predicate LogShape()
      reads this
    {
      && (secondLineTimer.Some? ==> mounted && !showSecondLine)
      && (recorded <==> |log| == 1)
      && |log| <= 1
      && (|log| == 1 ==> log[0].RecordRejection? && log[0].fingerprint != "")
    }

    /** While mounted, a known fingerprint has been recorded. */
    ghost predicate Valid()
      reads this
    {
      LogShape() && (mounted && !recorded ==> !Truthy(fingerprint))
    }

    /** The record effect: write once, when not yet written and a fingerprint exists. */
    method RecordEffect()
      requires mounted && LogShape()
      modifies this
      ensures Valid()
      ensures showSecondLine == old(showSecondLine) && secondLineTimer == old(secondLineTimer) && fingerprint == old(fingerprint)
      ensures mounted == old(mounted)
      ensures log == old(log) + (if !old(recorded) && Truthy(fingerprint) then [RecordRejection(fingerprint.value)] else [])
      ensures recorded == (old(recorded) || Truthy(fingerprint))
    {
      if !recorded && Truthy(fingerprint) {
        log := log + [RecordRejection(fingerprint.value)];
        recorded := true;
      }
    }

    /** Mount at time `now` with the context's fingerprint: arm the 3000 ms timer and run the record effect. */
    constructor (now: int, fp: Option<string>)
      ensures Valid() && mounted && fingerprint == fp && !showSecondLine
      ensures secondLineTimer == Some(now + 3000)
      ensures log == (if Truthy(fp) then [RecordRejection(fp.value)] else [])
    {
      showSecondLine, recorded := false, false;
      secondLineTimer := Some(now + 3000);
      mounted, fingerprint := true, fp;
      log := [];
      new;
      RecordEffect();
    }

    /** The context's fingerprint changes while mounted: the record effect runs again. */
    method FingerprintChanged(fp: Option<string>)
      requires Valid()
      modifies this
      ensures Valid()
      ensures showSecondLine == old(showSecondLine) && secondLineTimer == old(secondLineTimer)
      ensures !old(mounted) ==> log == old(log)
      ensures old(mounted) ==>
        log == old(log) + (if !old(recorded) && Truthy(fp) then [RecordRejection(fp.value)] else [])
    {
      if !mounted {
        return;
      }
      fingerprint := fp;
      RecordEffect();
    }

    /** The second-line timer fires. */
    method SecondLineTimerFires()
      requires Valid()
      modifies this
      ensures Valid()
      ensures log == old(log) && secondLineTimer.None?
      ensures showSecondLine == (old(showSecondLine) || old(secondLineTimer).Some?)
    {
      if secondLineTimer.Some? {
        showSecondLine := true;
        secondLineTimer := None;
      }
    }

    /** Unmount: the timer is cleared and no effect runs again. */
    method Teardown()
      requires Valid()
      modifies this
      ensures Valid()
      ensures !mounted && secondLineTimer.None? && log == old(log)
    {
      mounted := false;
      secondLineTimer := None;
    }
  }

  /** Whatever happens on the rejection screen, it writes at most one rejection and dispatches no action. */
  lemma RejectionIsTerminal(r: Rejection)
    requires r.Valid()
    ensures |r.log| <= 1
    ensures forall i :: 0 <= i < |r.log| ==> r.log[i].RecordRejection?
    ensures PhasesDispatched(r.log) == {}
  {
  }
}
