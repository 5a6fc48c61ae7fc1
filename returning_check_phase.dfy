/**
 * The device-identity gate (src/components/phases/ReturningCheckPhase.tsx),
 * with useDeviceFingerprint folded in as its inputs: the fingerprint, and
 * whether this device's ledger record is inside its cooldown.
 */
module ReturningCheckPhase {

  import opened Wrappers
  import opened Types
  import opened Constants
  import opened DeviceIdentity

  datatype CheckState = Checking | Blocked | HonestyGate | Clean

  /** A string is truthy in JavaScript when it is present and not empty. */
  predicate Truthy(s: Option<string>)
  {
    s.Some? && s.value != ""
  }

  /** useDeviceFingerprint: a device is blocked when it has a record and the record is inside its cooldown. */
  function IsBlocked(record: Option<DeviceRecord>, now: int): (b: bool)
    ensures b <==> record.Some? && CooldownExpiry(record.value).Some? && now < CooldownExpiry(record.value).value
  {
    CooldownUntilExpiry(if record.Some? then record.value else DeviceRecord("", None, 0, 0), now);
    record.Some? && IsWithinCooldown(record.value, now)
  }

  /** The state runCheck leaves: blocked first, then the IP result, clean otherwise. */
  function Verdict(isBlocked: bool, ip: Option<IpHistory>): CheckState
  {
    if isBlocked then Blocked
    else if ip.Some? && ip.value.hasRejectedDevices then HonestyGate
    else Clean
  }

  /** runCheck's dispatches and ledger writes, in their order, branch by branch. */
  function CheckEffects(fp: string, isBlocked: bool, ip: Option<IpHistory>): seq<Effect>
  {
    if isBlocked then [Dispatch(SetFingerprint(fp))]
    else if ip.Some? && ip.value.hasRejectedDevices then [Dispatch(SetFingerprint(fp))]
    else [Dispatch(SetFingerprint(fp)), RecordAttempt(fp)]
  }

  /**
   * Every outcome of the check dispatches SET_FINGERPRINT first; only the
   * clean outcome writes the ledger, and no outcome dispatches a phase.
   */
  lemma CheckOutcomes(fp: string, isBlocked: bool, ip: Option<IpHistory>)
    ensures |CheckEffects(fp, isBlocked, ip)| > 0 && CheckEffects(fp, isBlocked, ip)[0] == Dispatch(SetFingerprint(fp))
    ensures RecordAttempt(fp) in CheckEffects(fp, isBlocked, ip) <==> Verdict(isBlocked, ip) == Clean
    ensures forall e :: e in CheckEffects(fp, isBlocked, ip) ==> e.RecordAttempt? || e == Dispatch(SetFingerprint(fp))
    ensures PhasesDispatched(CheckEffects(fp, isBlocked, ip)) == {}
    ensures Verdict(isBlocked, ip) != Checking
    ensures isBlocked <==> Verdict(isBlocked, ip) == Blocked
  {
  }

  /** With checkIPHistory stubbed to null, the honesty gate is never reached: a device is blocked or clean. */
  lemma StubNeverGates(isBlocked: bool)
    ensures Verdict(isBlocked, CheckIpHistory()) == (if isBlocked then Blocked else Clean)
  {
  }

  /**
   * The component's cells and pending timers (due times in ms) and the
   * log of what it dispatched and wrote. The first four fields are
   * useDeviceFingerprint's result.
   */
  class ReturningCheck {
    var fingerprint: Option<string>
    var isBlocked: bool
    var cooldownExpiry: Option<int>
    var isLoading: bool
    var checkState: CheckState
    var showHonestyWarning: bool
    var checkTimer: Option<int>
    var advanceTimer: Option<int>
    var log: seq<Effect>

    /** The check is pending only once loading is over with a fingerprint; the advance only when clean; ENTRY is the only phase ever dispatched. */
    ghost predicate Valid()
      reads this
    {
      && (checkTimer.Some? ==> !isLoading && Truthy(fingerprint) && checkState == Checking)
      && (advanceTimer.Some? ==> checkState == Clean)
      && (isLoading ==> checkState == Checking)
      && (checkState != Checking ==> Truthy(fingerprint))
      && PhasesDispatched(log) <= {Entry}
    }

    constructor ()
      ensures Valid()
      ensures isLoading && fingerprint.None? && checkState == Checking && !showHonestyWarning
      ensures checkTimer.None? && advanceTimer.None? && log == []
    {
      fingerprint, isBlocked, cooldownExpiry, isLoading := None, false, None, true;
      checkState, showHonestyWarning := Checking, false;
      checkTimer, advanceTimer := None, None;
      log := [];
    }

    /**
     * useDeviceFingerprint's mount effect at time `now`: look the
     * fingerprint up in the ledger and publish the result once. The check
     * effect then arms the 1000 ms timer if the fingerprint is truthy.
     */
    method FingerprintReady(fp: string, ledger: Storage, now: int)
      requires Valid()
      modifies this
      ensures Valid()
      ensures log == old(log) && checkState == old(checkState) && advanceTimer == old(advanceTimer)
      ensures showHonestyWarning == old(showHonestyWarning)
      ensures !old(isLoading) ==>
        && fingerprint == old(fingerprint) && isBlocked == old(isBlocked) && cooldownExpiry == old(cooldownExpiry)
        && checkTimer == old(checkTimer) && !isLoading
      ensures old(isLoading) ==>
        && !isLoading && fingerprint == Some(fp)
        && isBlocked == IsBlocked(LookupIn(ledger, fp), now)
        && cooldownExpiry == (if LookupIn(ledger, fp).Some? then CooldownExpiry(LookupIn(ledger, fp).value) else None)
        && checkTimer == (if fp != "" then Some(now + ReturningCheckDelay) else None)
    {
      if !isLoading {
        return;
      }
      var record := LookupIn(ledger, fp);
      isBlocked := IsBlocked(record, now);
      cooldownExpiry := if record.Some? then CooldownExpiry(record.value) else None;
      fingerprint := Some(fp);
      isLoading := false;
      checkTimer := if fp != "" then Some(now + ReturningCheckDelay) else None;
    }

    /**
     * The check timer fires at its due time; `ip` is what checkIPHistory
     * resolved to. The clean verdict arms the 600 ms advance.
     */
    method CheckTimerFires(ip: Option<IpHistory>)
      requires Valid()
      modifies this
      ensures Valid()
      ensures old(checkState) == Blocked ==> checkState == Blocked && log == old(log)
      ensures fingerprint == old(fingerprint) && isBlocked == old(isBlocked) && showHonestyWarning == old(showHonestyWarning)
      ensures checkTimer.None?
      ensures old(checkTimer).None? ==> log == old(log) && checkState == old(checkState) && advanceTimer == old(advanceTimer)
      ensures old(checkTimer).Some? ==>
        && log == old(log) + CheckEffects(fingerprint.value, isBlocked, ip)
        && checkState == Verdict(isBlocked, ip)
        && advanceTimer == (if checkState == Clean then Some(old(checkTimer).value + 600) else None)
    {
      if checkTimer.None? {
        return;
      }
      var firedAt := checkTimer.value;
      var fp := fingerprint.value;
      CheckOutcomes(fp, isBlocked, ip);
      PhasesDispatchedAppend(log, CheckEffects(fp, isBlocked, ip));
      log := log + CheckEffects(fp, isBlocked, ip);
      checkState := Verdict(isBlocked, ip);
      checkTimer := None;
      advanceTimer := if checkState == Clean then Some(firedAt + 600) else None;
    }

    /** The clean state's timer fires: SET_PHASE ENTRY. */
    method AdvanceTimerFires()
      requires Valid()
      modifies this
      ensures Valid()
      ensures old(checkState) == Blocked ==> checkState == Blocked && log == old(log)
      ensures checkState == old(checkState) && advanceTimer.None?
      ensures log == old(log) + (if old(advanceTimer).Some? then [Dispatch(SetPhase(Entry))] else [])
    {
      if advanceTimer.Some? {
        PhasesDispatchedAppend(log, [Dispatch(SetPhase(Entry))]);
        log := log + [Dispatch(SetPhase(Entry))];
        advanceTimer := None;
      }
    }

    /** The first honesty-gate button ("I have not sought this before"), shown only before the warning. */
    method PressNotSought()
      requires Valid()
      modifies this
      ensures Valid()
      ensures old(checkState) == Blocked ==> checkState == Blocked && log == old(log)
      ensures log == old(log) && checkState == old(checkState)
      ensures showHonestyWarning == (old(showHonestyWarning) || old(checkState) == HonestyGate)
    {
      if checkState == HonestyGate && !showHonestyWarning {
        showHonestyWarning := true;
      }
    }

    /** handleHonestyProceed, behind the button shown only after the warning: record an attempt and go to ENTRY. */
    method PressProceed(now: int)
      requires Valid()
      modifies this
      ensures Valid()
      ensures old(checkState) == Blocked ==> checkState == Blocked && log == old(log)
      ensures checkState == old(checkState) && showHonestyWarning == old(showHonestyWarning)
      ensures log == old(log) + (if checkState == HonestyGate && showHonestyWarning
                                 then [RecordAttempt(fingerprint.value), Dispatch(SetPhase(Entry))] else [])
    {
      if checkState == HonestyGate && showHonestyWarning && Truthy(fingerprint) {
        PhasesDispatchedAppend(log, [RecordAttempt(fingerprint.value), Dispatch(SetPhase(Entry))]);
        log := log + [RecordAttempt(fingerprint.value), Dispatch(SetPhase(Entry))];
      }
    }

    /**
     * handleHonestyExit, behind both exit buttons of the honesty gate:
     * settle in 'blocked'. Every handler leaves 'blocked' as it is and
     * adds nothing to the log, so 'blocked' is a dead end.
     */
    method PressExit()
      requires Valid()
      modifies this
      ensures Valid()
      ensures old(checkState) == Blocked ==> checkState == Blocked && log == old(log)
      ensures log == old(log) && showHonestyWarning == old(showHonestyWarning)
      ensures checkState == (if old(checkState) == HonestyGate then Blocked else old(checkState))
    {
      if checkState == HonestyGate {
        checkState := Blocked;
      }
    }

    /** Unmount: both effects' cleanups clear their timers. */
    method Teardown()
      requires Valid()
      modifies this
      ensures Valid()
      ensures checkTimer.None? && advanceTimer.None? && log == old(log) && checkState == old(checkState)
    {
      checkTimer, advanceTimer := None, None;
    }
  }
}
