/** The user-interaction handlers (src/user/UserInteractionHandler.py and
    src/user/MockUserInteractionHandler.py): they turn the latest action into what the system
    control dispatches, a START together with a fresh defrosting program. */
module UserInteraction {
  import opened Faults
  import opened Actions
  import opened Devices
  import opened Programs
  import opened ProgramControl
  import opened UserInput

  /** What `get_interactions` returns: an action, if any, and the program that goes with it. */
  datatype Interaction = Interaction(action: Option<Action>, program: DefrostingProgram?)

  /** A program as `DefrostingProgram()` leaves it: on the shared components, idle, armed, and
      with the cycles the current weight asks for. */
  ghost predicate FreshDefrosting(p: DefrostingProgram, components: ProgramComponents)
    reads p, components.sensors.weight
  {
    p.components == components && p.Valid() &&
    !p.paused && !p.running && !p.finished && !p.justUpdated && p.phase == NotStarted &&
    p.cycles == InitialCycles(components.sensors.InnerWeight())
  }

  class UserInteractionHandler {
    const door: Door
    const detector: InputDetector
    const components: ProgramComponents

    /** A fresh handler has started its input detector. Its initializer re-runs the shared
        door's initializer, which closes the door. */
    constructor (door: Door, components: ProgramComponents)
      modifies door
      ensures this.door == door && this.components == components && fresh(detector)
      ensures detector.delegating && detector.latestKey == None && !door.isOpen
    {
      this.door := door;
      this.components := components;
      detector := new InputDetector();
      new;
      door.Reinitialize();
      detector.Start();
    }

    /** `get_interactions`: START comes with a fresh defrosting program; OPEN_DOOR and CLOSE_DOOR
        open or close the shared door and report nothing; every other action, or none, is passed
        through with no program and the door untouched. */
    method GetInteractions() returns (r: Interaction)
      requires components.Valid()
      modifies detector`latestKey, door
      ensures var a := Pending(detector.delegating, old(detector.latestKey));
              (a == Some(Action.Start) ==> r.action == a && r.program != null && fresh(r.program) &&
                                           FreshDefrosting(r.program, components) && door.isOpen == old(door.isOpen)) &&
              (a == Some(OpenDoor) ==> r == Interaction(None, null) && door.isOpen) &&
              (a == Some(CloseDoor) ==> r == Interaction(None, null) && !door.isOpen) &&
              (a != Some(Action.Start) && a != Some(OpenDoor) && a != Some(CloseDoor) ==>
                 r == Interaction(a, null) && door.isOpen == old(door.isOpen))
      ensures detector.delegating ==> detector.latestKey == None
    {
      var action := detector.GetLatestAction();
      match action
      case Some(Start) =>
        var p := new DefrostingProgram(components);
        r := Interaction(action, p);
      case Some(OpenDoor) =>
        if !door.isOpen {
          door.Open();
        }
        r := Interaction(None, null);
      case Some(CloseDoor) =>
        if door.isOpen {
          door.Close();
        }
        r := Interaction(None, null);
      case _ =>
        r := Interaction(action, null);
    }

    /** `update_display` does nothing. */
    method UpdateDisplay(state: ProgramState)
    {
    }
  }

  /** The handler the system control uses: one START with a fresh program, then nothing. */
  class MockUserInteractionHandler {
    const components: ProgramComponents
    var runOnce: bool

    constructor (components: ProgramComponents)
      ensures this.components == components && !runOnce
    {
      this.components := components;
      runOnce := false;
    }

    /** A factory reset creates a new mock handler; its only state is `run_once`, so a new
        instance is this one with the flag cleared. */
    method Reinitialize()
      modifies this`runOnce
      ensures !runOnce
    {
      runOnce := false;
    }

    /** `get_interactions`: the first call returns START with a fresh defrosting program; every
        later call returns nothing. `run_once` is set by the first call and never cleared. */
    method GetInteractions() returns (r: Interaction)
      requires components.Valid()
      modifies this`runOnce
      ensures runOnce
      ensures !old(runOnce) ==> r.action == Some(Action.Start) && r.program != null && fresh(r.program) &&
                                FreshDefrosting(r.program, components)
      ensures old(runOnce) ==> r == Interaction(None, null)
    {
      if !runOnce {
        runOnce := true;
        var p := new DefrostingProgram(components);
        return Interaction(Some(Action.Start), p);
      }
      r := Interaction(None, null);
    }

    /** `update_display` does nothing. */
    method UpdateDisplay(state: ProgramState)
    {
    }
  }
}
