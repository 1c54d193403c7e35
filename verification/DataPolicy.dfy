/** The worker's packet-data policy (worker.py), on top of the driver's switch. */
module DataPolicy {
  import opened Basics
  import opened DataOverlap
  import opened DataSwitch

  lemma ThreeValues(o: Option<bool>)
    ensures o == None || o == Some(false) || o == Some(true)
  {
    match o
    case None =>
    case Some(b) => assert o == Some(b);
  }

  class DeviceWorker {
    const modem: Air780E
    /** The two stored preferences. */
    var wanted: bool
    var roamingAllowed: bool
    /** The reported state; roamingShown is its copy of the roaming preference. */
    var roamingShown: bool
    var registered: bool
    var roaming: Option<bool>
    var dataEnabled: bool
    var dataAttached: Option<bool>
    var pdpActive: Option<bool>
    var dataBlockedByRoaming: bool

    constructor (driver: Air780E, storedWanted: bool, storedRoaming: bool)
      ensures modem == driver && wanted == storedWanted && roamingAllowed == storedRoaming && pdpActive == None
    {
      modem := driver;
      wanted, roamingAllowed, roamingShown := storedWanted, storedRoaming, storedRoaming;
      registered, roaming, dataEnabled, dataAttached, pdpActive, dataBlockedByRoaming :=
        false, None, false, None, None, false;
    }

    ghost function View(): State
      reads this
    {
      State(wanted, roamingAllowed, roamingShown, registered, roaming, dataEnabled, dataAttached, pdpActive,
        dataBlockedByRoaming)
    }

    /** What the driver last read, as the worker reports it. */
    ghost predicate ReportsLastRead()
      reads this, modem
    {
      var n := |modem.log|;
      n >= 2 && ReadAt(modem.log, n - 2, n) && (pdpActive == Some(false) <==> OnlyIms(ReadOf(modem.log, n - 2)))
    }

    /** After a normal return the state is safe: data shown as enabled is allowed, and forbidden data is not active. */
    ghost predicate Safe(force: bool)
      reads this
    {
      && (dataEnabled <==> Allowed(wanted, roaming, roamingAllowed))
      && (dataBlockedByRoaming <==> wanted && !dataEnabled)
      && (!dataEnabled ==> pdpActive != Some(true))
      && (!dataEnabled && force ==> pdpActive == Some(false))
    }

    /** _enforce_data_policy up to its first await. */
    method BeginPolicy()
      modifies this`roamingShown
      ensures View() == Begun(old(View()))
    {
      roamingShown := roamingAllowed;
    }

    /** From the read of the data state to the next await, or to the end. */
    method DecidePolicy(force: bool, attached: Option<bool>, active: Option<bool>) returns (verdict: Verdict)
      modifies this
      ensures (View(), verdict) == AfterRead(old(View()), force, attached, active)
    {
      dataAttached, pdpActive := attached, active;
      var blocked := wanted && roaming != Some(false) && !roamingShown;
      dataBlockedByRoaming := blocked;
      var effective := wanted && !blocked;
      dataEnabled := effective;
      var needsAttach := registered && dataAttached == Some(false);
      if !effective && (pdpActive == Some(true) || needsAttach || (force && pdpActive == None)) {
        verdict := Disables;
      } else if wanted && !blocked && registered && dataAttached == Some(false) {
        verdict := Attaches;
      } else {
        verdict := Returns;
      }
    }

    /** After the switch returned. */
    method FinishPolicy(attaching: bool, attached: Option<bool>, active: Option<bool>)
      modifies this
      ensures View() == AfterSwitch(old(View()), attaching, attached, active)
    {
      dataAttached, pdpActive := attached, active;
      if attaching {
        dataEnabled := true;
      }
    }

    /** _enforce_data_policy with no other call between its awaits: whether it returned rather than raised. */
    method EnforceDataPolicy(force: bool) returns (returned: bool)
      modifies this, modem
      ensures wanted == old(wanted) && roamingAllowed == old(roamingAllowed)
      ensures registered == old(registered) && roaming == old(roaming)
      ensures Carries(old(modem.log), modem.log)
      ensures dataEnabled <==> Allowed(wanted, roaming, roamingAllowed)
      ensures dataBlockedByRoaming <==> wanted && !Allowed(wanted, roaming, roamingAllowed)
      ensures returned ==> Safe(force) && (!dataEnabled ==> ReportsLastRead())
      ensures |modem.log| >= |old(modem.log)| + 3
      ensures dataEnabled ==>
        if registered && AttachedBy(modem.log[|old(modem.log)|].reply) == Some(false)
        then |modem.log| > |old(modem.log)| + 3 && modem.log[|old(modem.log)| + 3].command == Attach
        else |modem.log| == |old(modem.log)| + 3
    {
      hide Carries, OnlyIms, ReadOf, ReadAt, AttachedBy, Rounds;
      BeginPolicy();
      var status := modem.ReadDataStatus();
      ThreeValues(status.active);
      ghost var asked := modem.log;
      var verdict := DecidePolicy(force, status.attached, status.active);
      returned := true;
      if verdict != Returns {
        var after := modem.SetDataEnabled(verdict == Attaches);
        CarriesPrefix(asked, modem.log);
        CarriesOn(old(modem.log), asked, modem.log);
        if after.None? {
          return false;
        }
        FinishPolicy(verdict == Attaches, after.value.attached, after.value.active);
      }
    }

    /** set_data_enabled: the operator's choice, with the registration just read. */
    method SetDataEnabled(enabled: bool, nowRegistered: bool, nowRoaming: Option<bool>) returns (returned: bool)
      modifies this, modem
      ensures wanted == enabled && roamingAllowed == old(roamingAllowed) && Carries(old(modem.log), modem.log)
      ensures returned && !enabled ==> pdpActive == Some(false) && ReportsLastRead() && !dataEnabled
      ensures returned && enabled && !dataEnabled ==> dataBlockedByRoaming && pdpActive == Some(false)
    {
      wanted := enabled;
      registered, roaming := nowRegistered, nowRoaming;
      returned := EnforceDataPolicy(true);
    }

    /** set_roaming_data_allowed: withdrawing the permission is enforced at once. */
    method SetRoamingDataAllowed(allowed: bool, nowRegistered: bool, nowRoaming: Option<bool>) returns (returned: bool)
      modifies this, modem
      ensures roamingAllowed == allowed && wanted == old(wanted) && Carries(old(modem.log), modem.log)
      ensures returned && !allowed && nowRoaming != Some(false) ==> !dataEnabled && pdpActive == Some(false)
      ensures returned && !dataEnabled ==> pdpActive != Some(true)
    {
      roamingAllowed := allowed;
      registered, roaming := nowRegistered, nowRoaming;
      returned := EnforceDataPolicy(!allowed);
    }
  }
}
