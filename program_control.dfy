/** The program controller (src/program/ProgramController.py) and its stand-in
    (src/program/MockProgramController.py). */
module ProgramControl {
  import opened Faults
  import opened Programs

  /** What `get_state_tuple` reports: program name, running, finished, paused. */
  datatype ProgramState = ProgramState(name: string, running: bool, finished: bool, paused: bool)

  /** Holds the current program, if any; the program's worker position stands for the `thread`
      slot, which is set exactly when a program is. */
  class ProgramController {
    const components: ProgramComponents
    var program: DefrostingProgram?

    ghost predicate Valid()
      reads this, program
    {
      components.Valid() &&
      (program != null ==> program.components == components && program.Valid())
    }

    /** A fresh controller has no program. */
    constructor (components: ProgramComponents)
      requires components.Valid()
      ensures Valid() && this.components == components && program == null
    {
      this.components := components;
      program := null;
    }

    /** Re-running the initializer on the shared instance (a factory reset): the program slot is
        emptied. The worker of a program it held is no longer reachable from the controller. */
    method Reinitialize()
      requires Valid()
      modifies this
      ensures Valid() && program == null
    {
      program := null;
    }

    /** `start`: the program becomes the current one and a worker thread runs its `start`, up to
        the head of the outer loop. */
    method Start(p: DefrostingProgram)
      requires Valid() && p.components == components && p.Valid()
      modifies this, p, components.Actuators()
      ensures Valid() && program == p
      ensures p.State() == old(p.State()) && !p.paused && p.running == !p.finished
      ensures p.phase == (if p.finished then Exited else InControlLoop)
    {
      program := p;
      p.Begin();
    }

    /** The scheduler gives the current program's worker one move. */
    method StepWorker()
      requires Valid()
      modifies program, components.Actuators()
      ensures Valid() && program == old(program)
      ensures program != null ==>
                program.phase == Schedule(old(program.phase), old(program.paused), old(program.running), old(program.finished)).next
    {
      if program != null {
        program.Advance();
      }
    }

    /** `pause`; without a program the log message's `self.program.name` raises AttributeError. */
    method Pause() returns (r: Status)
      requires Valid()
      modifies program
      ensures Valid() && program == old(program)
      ensures r.Raise? <==> program == null
      ensures r.Raise? ==> r.fault == AttributeError("name")
      ensures program != null ==> program.paused && program.running == old(program.running) &&
                                  program.phase == old(program.phase)
    {
      if program == null {
        return Raise(AttributeError("name"));
      }
      program.Pause();
      r := Done;
    }

    /** `resume`; without a program it raises AttributeError like `pause`. */
    method Resume() returns (r: Status)
      requires Valid()
      modifies program
      ensures Valid() && program == old(program)
      ensures r.Raise? <==> program == null
      ensures r.Raise? ==> r.fault == AttributeError("name")
      ensures program != null ==> !program.paused && program.running == old(program.running) &&
                                  program.phase == Notify(old(program.phase))
    {
      if program == null {
        return Raise(AttributeError("name"));
      }
      program.Resume();
      r := Done;
    }

    /** `stop`: without a program, nothing. Otherwise the program is stopped and the controller
        joins its worker: the join returns once the worker has ended, which, the worker being
        woken by the stop, takes at most one more move (the wind-down). */
    method Stop()
      requires Valid()
      modifies program, components.Actuators()
      ensures Valid() && program == old(program)
      ensures program != null ==> !program.running && !program.phase.Alive() &&
                                  program.State() == old(program.State())
      ensures program != null && old(program.phase).Alive() ==> components.Stopped()
      ensures program != null ==> (program.paused <==> !old(program.phase).Alive())
    {
      if program == null {
        return;
      }
      var p := program;
      p.Stop();
      ghost var woken := p.phase.Alive();
      while p.phase.Alive()
        invariant Valid() && program == p
        invariant !p.running && !p.phase.Parked? && p.State() == old(p.State())
        invariant p.phase.Alive() ==> p.paused
        invariant woken ==> p.phase.Alive() || components.Stopped()
        invariant !woken ==> !p.phase.Alive() && p.paused
        invariant woken && !p.phase.Alive() ==> !p.paused
        decreases if p.phase.Alive() then 1 else 0
      {
        StoppedWorkerExitsInOneMove(p.phase, p.finished);
        p.Advance();
      }
    }

    /** `emergency_stop`: without a program the log message raises AttributeError; with one, the
        program's own emergency stop raises before the join is reached. */
    method EmergencyStop() returns (r: Status)
      requires Valid()
      modifies program
      ensures Valid() && program == old(program)
      ensures program == null ==> r == Raise(AttributeError("name"))
      ensures program != null ==> r == Raise(AttributeError("emergency_stop")) &&
                                  program.paused && !program.running &&
                                  program.phase == old(program.phase)
    {
      if program == null {
        return Raise(AttributeError("name"));
      }
      r := program.EmergencyStop();
    }

    function IsRunning(): bool
      reads this, program
    {
      program != null && program.running
    }

    function IsFinished(): bool
      reads this, program
    {
      program == null || program.finished
    }

    function IsPaused(): bool
      reads this, program
    {
      program != null && program.paused
    }

    function GetRunningProgram(): string
      reads this, program
    {
      if program == null then "No program running" else program.name
    }

    /** `get_state_tuple`: with no program, the placeholder name, not running, finished, not
        paused; otherwise the program's own name and flags. */
    function GetStateTuple(): (t: ProgramState)
      reads this, program
      ensures program == null ==> t == ProgramState("No program running", false, true, false)
      ensures program != null ==> t == ProgramState(program.name, program.running, program.finished, program.paused)
    {
      ProgramState(GetRunningProgram(), IsRunning(), IsFinished(), IsPaused())
    }

    /** The controller reports a running program only while that program's worker is alive. */
    lemma RunningMeansWorkerAlive()
      requires Valid()
      ensures IsRunning() ==> program != null && program.phase.Alive()
    {
    }
  }

  /** A stand-in controller used in tests of the system control: `update` asserts that it was
      started, and `mock_error` always raises the mock fault. */
  class MockProgramController {
    var active: bool

    constructor ()
      ensures !active
    {
      active := false;
    }

    method Start()
      modifies this
      ensures active
    {
      active := true;
    }

    method Stop()
      modifies this
      ensures !active
    {
      active := false;
    }

    /** `update`: an AssertionError exactly when the controller is not active. */
    function Update(): (r: Status)
      reads this
      ensures r.Raise? <==> !active
      ensures r.Raise? ==> r.fault == AssertionError
    {
      if active then Done else Raise(AssertionError)
    }

    /** `mock_error`: always the mock fault, which is a custom fault. */
    function MockError(): (r: Status)
      ensures r.Raise? && r.fault == MockFault && r.fault.IsCustom()
    {
      Raise(MockFault)
    }
  }
}
