/** The alarm controller (src/components/alarm/AlarmController.py), with the alarm's state
    (src/components/alarm/Alarm.py) folded in as a field. */
module Alarms {
  class AlarmController {
    var active: bool

    /** A fresh alarm is inactive. */
    constructor ()
      ensures !active
    {
      active := false;
    }

    /** Re-running the initializer on the shared instance, as a factory reset does: the alarm's
        own initializer runs again too. */
    method Reinitialize()
      modifies this
      ensures !active
    {
      active := false;
    }

    /** `activate_alarm`: ends active; an active alarm only logs a warning. */
    method ActivateAlarm()
      modifies this
      ensures active
    {
      if !active {
        active := true;
      }
    }

    /** `deactivate_alarm`: ends inactive; an inactive alarm only logs a warning. */
    method DeactivateAlarm()
      modifies this
      ensures !active
    {
      if active {
        active := false;
      }
    }

    function IsAlarming(): bool
      reads this
    {
      active
    }
  }
}
