/** The door lock (src/components/door/DoorController.py): it locks only a closed door, and its
    check faults when a locked door is found open. */
module Doors {
  import opened Faults
  import opened Devices

  class DoorController {
    const door: Door
    var locked: bool

    /** A fresh controller is unlocked. */
    constructor (door: Door)
      ensures this.door == door && !locked
    {
      this.door := door;
      locked := false;
    }

    /** `lock`: a closed door ends locked (whether or not it was); an open door is left as it
        was, so the lock never creates a locked open door. */
    method Lock()
      modifies this
      ensures locked == (old(locked) || !door.isOpen)
      ensures locked && door.isOpen ==> old(locked)
    {
      if !door.isOpen {
        if !locked {
          locked := true;
        }
      }
    }

    /** `unlock`: ends unlocked; it does not look at the door. */
    method Unlock()
      modifies this
      ensures !locked
    {
      if locked {
        locked := false;
      }
    }

    /** `check`: a DoorException exactly when the door is locked and open. */
    function Check(): (r: Status)
      reads this, door
      ensures r.Raise? <==> locked && door.isOpen
      ensures r.Raise? ==> r.fault.DoorFault? && r.fault.IsCustom()
    {
      if locked && door.isOpen then Raise(DoorFault("Door is locked and was forcefully opened."))
      else Done
    }
  }
}
