/** The shared hardware objects that several components read: the magnetron, the door and the
    cooling fan (src/components/magnetron/Magnetron.py, src/components/door/Door.py,
    src/components/cooling/CoolingFan.py). Each is one object shared by reference. */
module Devices {
  class Magnetron {
    var active: bool

    /** A fresh magnetron is inactive. */
    constructor ()
      ensures !active
    {
      active := false;
    }

    /** Re-running the initializer on the shared instance, as a factory reset does. */
    method Reinitialize()
      modifies this
      ensures !active
    {
      active := false;
    }

    method TurnOn()
      modifies this
      ensures active
    {
      active := true;
    }

    method TurnOff()
      modifies this
      ensures !active
    {
      active := false;
    }
  }

  class Door {
    var isOpen: bool

    /** A fresh door is closed. */
    constructor ()
      ensures !isOpen
    {
      isOpen := false;
    }

    method Reinitialize()
      modifies this
      ensures !isOpen
    {
      isOpen := false;
    }

    /** Opens a closed door; on an open door only a warning is logged. */
    method Open()
      modifies this
      ensures isOpen
    {
      if !isOpen {
        isOpen := true;
      }
    }

    /** Closes an open door; on a closed door only a warning is logged. */
    method Close()
      modifies this
      ensures !isOpen
    {
      if isOpen {
        isOpen := false;
      }
    }
  }

  /** The fan's data holder. It is kept apart from its controller because the magnetron
      temperature sensors read its power share. */
  class CoolingFan {
    var powerShare: real

    constructor ()
      ensures powerShare == 0.0
    {
      powerShare := 0.0;
    }

    method Reinitialize()
      modifies this
      ensures powerShare == 0.0
    {
      powerShare := 0.0;
    }
  }
}
