/**
 * The acceptance screen (src/components/phases/AcceptancePhase.tsx):
 * reveal, then 1500 ms after the reveal text's animation the phone form,
 * then farewell once the form hands over a name and a phone. The
 * PhoneInput it renders in the form stage is a PhoneForm.
 */
module AcceptancePhase {

  import opened Wrappers
  import opened Types
  import opened PhoneInput

  datatype AcceptanceStage = Reveal | Form | Farewell

  function Rank(s: AcceptanceStage): nat
  {
    match s
    case Reveal => 0
    case Form => 1
    case Farewell => 2
  }

  /** handleSubmit's dispatch for each submission the form has delivered, in order. */
  function UserDataEffects(ds: seq<Submission>): (r: seq<Effect>)
    ensures |r| == |ds|
    ensures forall i :: 0 <= i < |ds| ==> r[i] == Dispatch(SetUserData(ds[i].name, ds[i].phone))
  {
    seq(|ds|, i requires 0 <= i < |ds| => Dispatch(SetUserData(ds[i].name, ds[i].phone)))
  }

  /** Only SET_USER_DATA is ever dispatched: no phase change. */
  lemma NoPhaseDispatched(ds: seq<Submission>)
    ensures PhasesDispatched(UserDataEffects(ds)) == {}
  {
  }

  /**
   * The stage cell, whether the reveal animation has completed, the
   * reveal timer (a due time in ms; never cleared), the form, and the log.
   */
  class Acceptance {
    var stage: AcceptanceStage
    var revealAnimated: bool
    var revealTimer: Option<int>
    const form: PhoneForm
    var log: seq<Effect>

    /**
     * The reveal timer exists only in the reveal stage, after the
     * animation; the form is untouched until it is shown; farewell is
     * reached exactly when the form has delivered; the log is one
     * SET_USER_DATA per delivery.
     */
    ghost predicate Valid()
      reads this, form
    {
      && form.Valid()
      && (revealTimer.Some? ==> stage == Reveal && revealAnimated)
      && (stage == Reveal ==> form.pending == [] && form.delivered == [])
      && (stage == Farewell <==> form.delivered != [])
      && log == UserDataEffects(form.delivered)
    }

    constructor ()
      ensures Valid() && fresh(form)
      ensures stage == Reveal && !revealAnimated && revealTimer.None? && log == []
    {
      stage, revealAnimated, revealTimer := Reveal, false, None;
      form := new PhoneForm();
      log := [];
    }

    /** The reveal text's animation completes at time `now` (once): handleRevealComplete arms the 1500 ms timer. */
    method RevealAnimationComplete(now: int)
      requires Valid()
      modifies this
      ensures Valid()
      ensures stage == old(stage) && log == old(log)
      ensures old(stage) == Reveal && !old(revealAnimated) ==> revealTimer == Some(now + 1500)
      ensures !(old(stage) == Reveal && !old(revealAnimated)) ==> revealTimer == old(revealTimer)
    {
      if stage == Reveal && !revealAnimated {
        revealAnimated := true;
        revealTimer := Some(now + 1500);
      }
    }

    /** The reveal timer fires: show the form. */
    method RevealTimerFires()
      requires Valid()
      modifies this
      ensures Valid()
      ensures revealTimer.None? && log == old(log)
      ensures stage == (if old(revealTimer).Some? then Form else old(stage))
      ensures Rank(old(stage)) <= Rank(stage)
    {
      if revealTimer.Some? {
        stage := Form;
        revealTimer := None;
      }
    }

    /** Typing into the name field, which exists only in the form stage. */
    method NameTyped(value: string)
      requires Valid()
      modifies form
      ensures Valid()
      ensures stage == old(stage) && log == old(log)
      ensures form.phone == old(form.phone) && form.isSubmitting == old(form.isSubmitting)
      ensures form.delivered == old(form.delivered) && form.pending == old(form.pending)
      ensures form.name == (if stage == Form then value else old(form.name))
    {
      if stage == Form {
        form.NameChanged(value);
      }
    }

    /** Typing into the phone field, which exists only in the form stage. */
    method PhoneTyped(value: string)
      requires Valid()
      modifies form
      ensures Valid()
      ensures stage == old(stage) && log == old(log)
      ensures form.name == old(form.name) && form.isSubmitting == old(form.isSubmitting)
      ensures form.delivered == old(form.delivered) && form.pending == old(form.pending)
      ensures form.phone == (if stage == Form then FormatPhone(value) else old(form.phone))
    {
      if stage == Form {
        form.PhoneChanged(value);
      }
    }

    /**
     * Pressing submit, which exists only in the form stage: with the
     * button enabled the form schedules the trimmed name and the phone as
     * shown; otherwise nothing happens.
     */
    method SubmitPressed()
      requires Valid()
      modifies form
      ensures Valid()
      ensures stage == old(stage) && log == old(log)
      ensures form.name == old(form.name) && form.phone == old(form.phone) && form.delivered == old(form.delivered)
      ensures stage == Form && !old(SubmitDisabled(form.name, form.phone, form.isSubmitting)) ==>
        form.isSubmitting && form.pending == old(form.pending) + [Submission(Trim(form.name), form.phone)]
      ensures !(stage == Form && !old(SubmitDisabled(form.name, form.phone, form.isSubmitting))) ==>
        form.isSubmitting == old(form.isSubmitting) && form.pending == old(form.pending)
    {
      if stage == Form {
        form.SubmitPressed();
      }
    }

    /**
     * The form's oldest 500 ms timer fires (even after the form is gone)
     * and calls handleSubmit: SET_USER_DATA with the submission, then farewell.
     */
    method FormTimerFires()
      requires Valid()
      modifies this, form
      ensures Valid()
      ensures Rank(old(stage)) <= Rank(stage)
      ensures old(form.pending) == [] ==> log == old(log) && stage == old(stage)
      ensures old(form.pending) != [] ==>
        && log == old(log) + [Dispatch(SetUserData(old(form.pending)[0].name, old(form.pending)[0].phone))]
        && stage == Farewell
    {
      if form.pending == [] {
        return;
      }
      var s := form.pending[0];
      form.TimerFires();
      assert UserDataEffects(form.delivered) == UserDataEffects(old(form.delivered)) + [Dispatch(SetUserData(s.name, s.phone))];
      log := log + [Dispatch(SetUserData(s.name, s.phone))];
      stage := Farewell;
    }
  }

  /** The acceptance screen never dispatches a phase, so it is the end of the flow. */
  lemma AcceptanceIsFinal(a: Acceptance)
    requires a.Valid()
    ensures PhasesDispatched(a.log) == {}
  {
    NoPhaseDispatched(a.form.delivered);
  }

  /**
   * The screen stores user data at most once, and what it stores is a
   * name that is not blank and a phone with exactly ten digits.
   */
  lemma UserDataOnceAndValid(a: Acceptance)
    requires a.Valid()
    ensures |a.log| <= 1
    ensures forall i :: 0 <= i < |a.log| ==>
      && a.log[i].Dispatch? && a.log[i].action.SetUserData?
      && |a.log[i].action.name| > 0 && |Digits(a.log[i].action.phone)| == 10
  {
  }
}
