/** The cavity light (src/components/light/LightController.py): on while the door is open or a
    program is actively running. */
module Lights {
  import opened Devices
  import opened ProgramControl

  /** The light rule: the door is open, or the program is running and neither paused nor
      finished. */
  predicate LightWanted(doorOpen: bool, s: ProgramState)
  {
    doorOpen || (s.running && !(s.paused || s.finished))
  }

  /** With no program loaded the controller's defaults make the light follow the door alone. */
  lemma NoProgramLightFollowsDoor(doorOpen: bool)
    ensures LightWanted(doorOpen, ProgramState("No program running", false, true, false)) == doorOpen
  {
  }

  class LightController {
    const door: Door
    const programs: ProgramController
    /** The light's `on` flag. */
    var lightOn: bool
    var running: bool

    /** `LightController()`: the light off and the loop not running. Its initializer also
        re-runs the initializers of the shared door and program controller, so the door is
        closed and the program controller forgets its program. */
    constructor (door: Door, programs: ProgramController)
      requires programs.Valid()
      modifies door, programs
      ensures this.door == door && this.programs == programs && !lightOn && !running
      ensures !door.isOpen && programs.Valid() && programs.program == null
    {
      this.door := door;
      this.programs := programs;
      lightOn := false;
      running := false;
      new;
      door.Reinitialize();
      programs.Reinitialize();
    }

    /** `start`: the loop runs; a second start changes nothing. */
    method Start()
      modifies this`running
      ensures running
    {
      if !running {
        running := true;
      }
    }

    /** `stop`: the loop ends; a second stop changes nothing. */
    method Stop()
      modifies this`running
      ensures !running
    {
      if running {
        running := false;
      }
    }

    /** `light_cycle`: the light is switched only when it disagrees with the rule, and afterwards
        it agrees with it; the door and the program are only read. */
    method LightCycle()
      modifies this`lightOn
      ensures lightOn == LightWanted(door.isOpen, programs.GetStateTuple())
    {
      var programCondition := programs.IsRunning() && !(programs.IsPaused() || programs.IsFinished());
      if door.isOpen || programCondition {
        if !lightOn {
          lightOn := true;
        }
      } else {
        if lightOn {
          lightOn := false;
        }
      }
    }

    /** One pass of `light_loop`: a cycle while running, nothing once stopped. */
    method LoopTick()
      modifies this`lightOn
      ensures running ==> lightOn == LightWanted(door.isOpen, programs.GetStateTuple())
      ensures !running ==> lightOn == old(lightOn)
    {
      if running {
        LightCycle();
      }
    }
  }
}
