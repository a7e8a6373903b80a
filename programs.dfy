/** Cooking programs (src/program/Program.py, src/program/DefrostingProgram.py): the components
    every program shares, the defrosting control law, and the worker thread that runs a program,
    modelled as a phase that the scheduler advances one move at a time. */
module Programs {
  import opened Faults
  import opened Config
  import opened Devices
  import opened Sensors
  import opened Magnetrons
  import opened Cooling
  import opened Turntables
  import opened Reflectors
  import opened Doors
  import Slew

  /** The class-level components of `Program`: one sensor manager, door lock, magnetron
      modulator, cooling fan controller, turntable and reflector shared by every program. */
  class ProgramComponents {
    const sensors: SensorManager
    const door: DoorController
    const magnetron: MagnetronModulator
    const coolingFan: CoolingFanController
    const turntable: TurntableController
    const reflector: ReflectorController

    /** The controllers act on the devices the sensors observe. */
    ghost predicate Valid()
    {
      sensors.Valid() &&
      magnetron.sensors == sensors && magnetron.magnetron == sensors.magnetron &&
      coolingFan.sensors == sensors && coolingFan.fan == sensors.fan &&
      door.door == sensors.door
    }

    /** The controllers a program changes. */
    ghost function Actuators(): set<object>
    {
      {door, magnetron, coolingFan, turntable, reflector}
    }

    /** Every component a program stops is asked to come to rest. */
    ghost predicate Stopped()
      reads magnetron, coolingFan, turntable, reflector
    {
      !magnetron.running && coolingFan.targetPowerShare == 0.0 &&
      turntable.targetRpm == 0.0 && reflector.targetAngle == 0.0
    }

    constructor (sensors: SensorManager)
      requires sensors.Valid()
      ensures Valid() && this.sensors == sensors
      ensures !door.locked && !magnetron.running && magnetron.targetPowerShare == 0.0
      ensures coolingFan.targetPowerShare == 0.0
      ensures turntable.rpm == 0.0 && turntable.targetRpm == 0.0
      ensures reflector.angle == 0.0 && reflector.targetAngle == 0.0
    {
      this.sensors := sensors;
      door := new DoorController(sensors.door);
      magnetron := new MagnetronModulator(sensors, sensors.magnetron);
      coolingFan := new CoolingFanController(sensors.fan, sensors);
      turntable := new TurntableController();
      reflector := new ReflectorController();
    }

    /** The cavity temperature a program controls: the mean of the two cavity sensors. */
    function AverageInnerTemp(): real
      reads sensors.temp1, sensors.temp2
    {
      (sensors.InnerTemp1() + sensors.InnerTemp2()) / 2.0
    }
  }

  // ---------------------------------------------------------------------------------------------
  // The defrosting control law

  /** `max(1, (weight - TURNTABLE_WEIGHT_IN_GRAMS) // 100)`: one heating cycle per full 100 g of
      food above the empty turntable, and at least one. */
  function InitialCycles(weight: real): (c: int)
    ensures c >= 1
    ensures weight < TurntableWeightInGrams + 200.0 ==> c == 1
    ensures weight >= TurntableWeightInGrams + 100.0 ==>
              c as real * 100.0 <= weight - TurntableWeightInGrams < c as real * 100.0 + 100.0
  {
    var n := ((weight - TurntableWeightInGrams) / 100.0).Floor;
    if n < 1 then 1 else n
  }

  lemma InitialCyclesExamples()
    ensures InitialCycles(TurntableWeightInGrams + 500.0) == 5
    ensures InitialCycles(TurntableWeightInGrams) == 1
    ensures InitialCycles(0.0) == 1
  {
  }

  /** The defrosting program's control state. The program is armed while `justUpdated` is false:
      the next reading above the target then counts a cycle and disarms it. */
  datatype DefrostState = DefrostState(cycles: int, justUpdated: bool, finished: bool)

  /** What one control step does: the state after it, and the magnetron share it asks for (none
      while it waits for the food to cool down). */
  datatype DefrostDecision = DefrostDecision(next: DefrostState, command: Option<real>)

  /** The share asked for while heating: 10 % per remaining cycle plus 10 %, at most 40 %. */
  function HeatingShare(cycles: int): real
  {
    Slew.Min(0.4, 0.1 + cycles as real * 0.1)
  }

  /** `control_components` on values. Above the target temperature a heating cycle ends (the
      magnetron is asked for nothing and one cycle is counted); after that the program waits until
      the food has cooled below ambient + 5 °C; otherwise it heats. Once no cycle is left the
      program is finished, and it stays finished. */
  function DefrostStep(s: DefrostState, temp: real): (d: DefrostDecision)
    ensures d.next.finished <==> s.finished || d.next.cycles <= 0
    ensures d.next.cycles == (if temp > ProgramDefrostingTargetTemp && !s.justUpdated then s.cycles - 1 else s.cycles)
    ensures d.command.Some? <==> !s.justUpdated
    ensures temp > ProgramDefrostingTargetTemp && !s.justUpdated ==> d.command == Some(0.0) && d.next.justUpdated
    ensures temp <= ProgramDefrostingTargetTemp && !s.justUpdated ==> d.command == Some(HeatingShare(s.cycles)) && !d.next.justUpdated
    ensures s.justUpdated ==> (d.next.justUpdated <==> temp >= AmbientTemperatureInCelsius + 5.0)
  {
    if temp > ProgramDefrostingTargetTemp && !s.justUpdated then
      var c := s.cycles - 1;
      DefrostDecision(DefrostState(c, true, s.finished || c <= 0), Some(0.0))
    else if s.justUpdated then
      var ju := !(temp < AmbientTemperatureInCelsius + 5.0);
      DefrostDecision(DefrostState(s.cycles, ju, s.finished || s.cycles <= 0), None)
    else
      DefrostDecision(DefrostState(s.cycles, false, s.finished || s.cycles <= 0), Some(HeatingShare(s.cycles)))
  }

  /** While at least one cycle is left the heating share is between 20 % and 40 %, so it is a
      valid magnetron share; 5 cycles ask for 40 %, the last cycle for 20 %. */
  lemma HeatingShareRange(cycles: int)
    requires cycles >= 1
    ensures 0.2 <= HeatingShare(cycles) <= 0.4
    ensures cycles >= 3 ==> HeatingShare(cycles) == 0.4
    ensures HeatingShare(1) == 0.2 && HeatingShare(2) == 0.3 && HeatingShare(5) == 0.4
  {
  }

  /** A step taken while the program is not finished always asks for a share in [0, 1]. */
  lemma DefrostCommandValid(s: DefrostState, temp: real)
    requires !s.finished ==> s.cycles >= 1
    requires !s.finished
    ensures DefrostStep(s, temp).command.Some? ==> 0.0 <= DefrostStep(s, temp).command.value <= 1.0
  {
    if !s.justUpdated && temp <= ProgramDefrostingTargetTemp {
      HeatingShareRange(s.cycles);
    }
  }

  /** The state after the control steps for a sequence of temperature readings. */
  function DefrostRun(s: DefrostState, temps: seq<real>): DefrostState
    decreases |temps|
  {
    if temps == [] then s else DefrostRun(DefrostStep(s, temps[0]).next, temps[1..])
  }

  /** The readings cool enough to re-arm the cycle counter. */
  function CoolDowns(temps: seq<real>): (n: nat)
    ensures n <= |temps|
    decreases |temps|
  {
    if temps == [] then 0
    else (if temps[0] < AmbientTemperatureInCelsius + 5.0 then 1 else 0) + CoolDowns(temps[1..])
  }

  /** From a state where an unfinished program has a cycle left: cycles never come back, and the
      program ends finished exactly when it started finished or has used up its cycles. */
  lemma {:induction false} DefrostRunFinishes(s: DefrostState, temps: seq<real>)
    requires s.finished || s.cycles >= 1
    ensures DefrostRun(s, temps).cycles <= s.cycles
    ensures DefrostRun(s, temps).finished <==> s.finished || DefrostRun(s, temps).cycles <= 0
    decreases |temps|
  {
    if temps != [] {
      DefrostRunFinishes(DefrostStep(s, temps[0]).next, temps[1..]);
    }
  }

  /** The hysteresis: between two counted cycles the food must cool below ambient + 5 °C, so the
      cycles counted never exceed the cool-down readings by more than one (the cycle an armed
      start may count). The armed flag at the end is part of the count. */
  lemma {:induction false} DefrostHysteresis(s: DefrostState, temps: seq<real>)
    ensures s.cycles - DefrostRun(s, temps).cycles + (if DefrostRun(s, temps).justUpdated then 0 else 1)
            <= CoolDowns(temps) + (if s.justUpdated then 0 else 1)
    decreases |temps|
  {
    if temps != [] {
      DefrostHysteresis(DefrostStep(s, temps[0]).next, temps[1..]);
    }
  }

  /** Readings that alternate between just above the target and ambient, `k` times. */
  function HotCold(k: nat): (temps: seq<real>)
    ensures |temps| == 2 * k
  {
    if k == 0 then [] else [ProgramDefrostingTargetTemp + 1.0, AmbientTemperatureInCelsius] + HotCold(k - 1)
  }

  /** Each hot-then-cold pair completes exactly one cycle; so `c` pairs finish a program that
      started with `c` cycles. */
  lemma {:induction false} DefrostHotColdRun(c: int, f: bool, k: nat)
    requires f || c >= 1
    ensures DefrostRun(DefrostState(c, false, f), HotCold(k)) == DefrostState(c - k, false, f || c - k <= 0)
    decreases k
  {
    if k > 0 {
      var s := DefrostState(c, false, f);
      var temps := HotCold(k);
      var s1 := DefrostStep(s, temps[0]).next;
      var s2 := DefrostStep(s1, temps[1]).next;
      assert s2 == DefrostState(c - 1, false, f || c - 1 <= 0);
      assert temps[1..][1..] == HotCold(k - 1);
      calc {
        DefrostRun(s, temps);
        DefrostRun(s1, temps[1..]);
        DefrostRun(s2, temps[1..][1..]);
        { DefrostHotColdRun(c - 1, f || c - 1 <= 0, k - 1); }
        DefrostState(c - k, false, f || c - k <= 0);
      }
    }
  }

  lemma DefrostCompletes(weight: real)
    ensures var c := InitialCycles(weight);
            DefrostRun(DefrostState(c, false, false), HotCold(c)) == DefrostState(0, false, true)
  {
    DefrostHotColdRun(InitialCycles(weight), false, InitialCycles(weight));
  }

  /** `control_components` as written: both branches that command the magnetron call
      `set_target_power_share`, which the modulator does not define (it has `set_target_power`),
      so they raise AttributeError before anything changes. Only the cool-down branch runs. */
  function DefrostStepAsWritten(s: DefrostState, temp: real): (r: Outcome<DefrostDecision>)
    ensures r.Raise? <==> !s.justUpdated
    ensures r.Raise? ==> r.fault == AttributeError("set_target_power_share")
    ensures r.Return? ==> r.value.command.None? && r.value.next.cycles == s.cycles
  {
    if !s.justUpdated then Raise(AttributeError("set_target_power_share"))
    else Return(DefrostStep(s, temp))
  }

  /** A freshly built program has `just_updated` false, so its first control step raises,
      whatever the weight and the temperature; the cycle counter can never move. */
  lemma DefrostAsWrittenFailsFirstStep(weight: real, temp: real)
    ensures DefrostStepAsWritten(DefrostState(InitialCycles(weight), false, false), temp)
            == Raise(AttributeError("set_target_power_share"))
  {
  }

  // ---------------------------------------------------------------------------------------------
  // The worker thread

  /** Where the worker thread running `Program.start` is: not yet started, inside
      `control_loop`, parked in `pause_condition.wait_for` until a notify, woken by a notify and
      about to re-check the wait's predicate, or ended. */
  datatype Phase = NotStarted | InControlLoop | Parked | Notified | Exited
  {
    predicate Alive()
    {
      InControlLoop? || Parked? || Notified?
    }
  }

  /** What a worker move does to the program besides moving the phase. */
  datatype Effect = Idle | ControlPass | WindDown
  datatype Move = Move(next: Phase, effect: Effect)

  /** The head of `start`'s outer loop: another control loop while running and not finished;
      otherwise the loop ends and the program winds down (flags cleared, components stopped). */
  function OuterCheck(running: bool, finished: bool): (m: Move)
    ensures m.next.Exited? <==> m.effect == WindDown
  {
    if running && !finished then Move(InControlLoop, Idle) else Move(Exited, WindDown)
  }

  /** `wait_for(not paused or not running)`: it returns at once when the predicate holds and
      otherwise parks the worker until a notify. */
  function PauseWait(paused: bool, running: bool, finished: bool): (m: Move)
    ensures m.next.Parked? <==> paused && running
  {
    if !paused || !running then OuterCheck(running, finished) else Move(Parked, Idle)
  }

  /** The worker's next move when it is scheduled. */
  function Schedule(phase: Phase, paused: bool, running: bool, finished: bool): (m: Move)
    ensures m.effect == ControlPass <==> phase.InControlLoop? && !paused && !finished
    ensures m.effect == WindDown <==> phase.Alive() && m.next.Exited?
    ensures !phase.Alive() ==> m == Move(phase, Idle)
    ensures m.next.Parked? && !phase.Parked? ==> paused && running
  {
    match phase
    case NotStarted => Move(phase, Idle)
    case Exited => Move(phase, Idle)
    case Parked => Move(Parked, Idle)
    case Notified => PauseWait(paused, running, finished)
    case InControlLoop =>
      if !paused && !finished then Move(InControlLoop, ControlPass)
      else if !finished then PauseWait(paused, running, finished)
      else OuterCheck(running, finished)
  }

  /** `notify_all` on the pause condition wakes a parked worker; other phases are unaffected. */
  function Notify(phase: Phase): (p: Phase)
    ensures !p.Parked?
    ensures phase.Alive() <==> p.Alive()
  {
    if phase.Parked? then Notified else phase
  }

  /** A stopped program (paused, not running) whose worker is not parked ends its worker in one
      move, through the wind-down. */
  lemma StoppedWorkerExitsInOneMove(phase: Phase, finished: bool)
    requires !phase.Parked?
    ensures !Schedule(phase, true, false, finished).next.Alive()
    ensures phase.Alive() ==> Schedule(phase, true, false, finished).effect == WindDown
  {
  }

  /** A parked worker makes no move until something notifies the pause condition: whatever the
      flags, scheduling it leaves it parked and does nothing. */
  lemma ParkedWorkerStaysParked(paused: bool, running: bool, finished: bool)
    ensures Schedule(Parked, paused, running, finished) == Move(Parked, Idle)
  {
  }

  // ---------------------------------------------------------------------------------------------
  // The program object

  /** A `DefrostingProgram` together with the position of its worker thread. */
  class DefrostingProgram {
    const components: ProgramComponents
    const name: string
    var paused: bool
    var running: bool
    var finished: bool
    var justUpdated: bool
    var cycles: int
    var phase: Phase

    /** The components are wired, an unfinished program has a cycle left, and the program reports
        running only while its worker is alive. */
    ghost predicate Valid()
      reads this
    {
      components.Valid() && (!finished ==> cycles >= 1) && (running ==> phase.Alive())
    }

    function State(): DefrostState
      reads this
    {
      DefrostState(cycles, justUpdated, finished)
    }

    /** `DefrostingProgram()`: named, idle, armed, with the cycles the current weight asks for. */
    constructor (components: ProgramComponents)
      requires components.Valid()
      ensures Valid() && this.components == components && name == "Defrosting Program"
      ensures !paused && !running && !finished && !justUpdated && phase == NotStarted
      ensures cycles == InitialCycles(components.sensors.InnerWeight())
    {
      this.components := components;
      name := "Defrosting Program";
      paused := false;
      running := false;
      finished := false;
      justUpdated := false;
      cycles := InitialCycles(components.sensors.InnerWeight());
      phase := NotStarted;
    }

    /** `control_components` with the modulator's `set_target_power`: the program state moves as
        the control law says and the magnetron target follows its command. A share outside [0, 1]
        (possible only once the program is finished) raises ValueError and changes nothing;
        while the program is not finished it never raises. */
    method ControlComponents() returns (r: Status)
      requires Valid()
      modifies this, components.magnetron`targetPowerShare
      ensures Valid() && phase == old(phase) && paused == old(paused) && running == old(running)
      ensures var d := DefrostStep(old(State()), components.AverageInnerTemp());
              (r.Raise? <==> d.command.Some? && !(0.0 <= d.command.value <= 1.0)) &&
              (r.Raise? ==> r.fault.ValueError? && State() == old(State()) &&
                            components.magnetron.targetPowerShare == old(components.magnetron.targetPowerShare)) &&
              (r.Return? ==> State() == d.next &&
                             components.magnetron.targetPowerShare ==
                               (if d.command.Some? then d.command.value else old(components.magnetron.targetPowerShare)))
      ensures !old(finished) ==> r == Done
    {
      var temp := components.AverageInnerTemp();
      if !finished {
        DefrostCommandValid(State(), temp);
      }
      if temp > ProgramDefrostingTargetTemp && !justUpdated {
        var sent := components.magnetron.SetTargetPower(0.0);
        if sent.Raise? {
          return sent;
        }
        cycles := cycles - 1;
        justUpdated := true;
      } else if justUpdated {
        if temp < AmbientTemperatureInCelsius + 5.0 {
          justUpdated := false;
        }
      } else {
        var sent := components.magnetron.SetTargetPower(HeatingShare(cycles));
        if sent.Raise? {
          return sent;
        }
      }
      if cycles <= 0 {
        finished := true;
      }
      r := Done;
    }

    /** One pass of `control_loop`: the control law, then one turntable and one reflector update.
        An exception in the control law skips the updates. */
    method ControlStep() returns (r: Status)
      requires Valid()
      modifies this, components.magnetron`targetPowerShare, components.turntable, components.reflector
      ensures Valid() && phase == old(phase) && paused == old(paused) && running == old(running)
      ensures r.Return? ==> State() == DefrostStep(old(State()), components.AverageInnerTemp()).next
      ensures r.Return? ==> components.turntable.rpm == Slew.Step(old(components.turntable.rpm), components.turntable.targetRpm, TurntableStepInRotationsPerMinute)
      ensures r.Return? ==> components.reflector.angle == UpdatedAngle(old(components.reflector.angle), components.reflector.targetAngle)
      ensures components.turntable.targetRpm == old(components.turntable.targetRpm)
      ensures components.reflector.targetAngle == old(components.reflector.targetAngle)
      ensures !old(finished) ==> r == Done
    {
      r := ControlComponents();
      if r.Raise? {
        return;
      }
      components.turntable.Update();
      components.reflector.Update();
    }

    /** `stop_components`: every component is stopped in list order; the reflector's stop can
        raise, which skips the door unlock. */
    method StopComponents() returns (r: Status)
      requires Valid()
      modifies components.magnetron`running, components.coolingFan, components.turntable, components.reflector, components.door
      ensures Valid()
      ensures components.Stopped()
      ensures components.turntable.rpm == old(components.turntable.rpm)
      ensures components.reflector.angle == old(components.reflector.angle)
      ensures r.Raise? <==> old(components.reflector.targetAngle) != 0.0
      ensures components.door.locked == (r.Raise? && old(components.door.locked))
    {
      components.magnetron.Stop();
      components.coolingFan.Stop();
      components.turntable.Stop();
      r := components.reflector.Stop();
      if r.Raise? {
        return;
      }
      components.door.Unlock();
    }

    /** The end of `start`: the flags are cleared and the components stopped. */
    method FinishRun()
      requires Valid()
      modifies this, components.magnetron`running, components.coolingFan, components.turntable, components.reflector, components.door
      ensures Valid() && State() == old(State()) && phase == old(phase)
      ensures !paused && !running && components.Stopped()
      ensures components.turntable.rpm == old(components.turntable.rpm)
      ensures components.reflector.angle == old(components.reflector.angle)
      ensures components.door.locked == (old(components.reflector.targetAngle) != 0.0 && old(components.door.locked))
    {
      paused := false;
      running := false;
      var r := StopComponents();
    }

    /** The first statements of `DefrostingProgram.start`, as the new worker runs them: turntable
        at 2 rpm (a speed in range, so `set_speed` does not raise), running and not paused, door
        locked if it is closed, magnetron and fan started. */
    method Prologue()
      requires Valid()
      modifies this, components.turntable, components.door, components.magnetron`running,
               components.magnetron`threadStarted, components.coolingFan
      ensures State() == old(State()) && phase == old(phase)
      ensures running && !paused
      ensures components.turntable.targetRpm == 2.0 && components.turntable.rpm == old(components.turntable.rpm)
      ensures components.magnetron.running && components.coolingFan.targetPowerShare == 0.2
      ensures components.door.locked == (old(components.door.locked) || !components.door.door.isOpen)
    {
      var s := components.turntable.SetSpeed(2.0);
      running := true;
      paused := false;
      components.door.Lock();
      components.magnetron.Start();
      components.coolingFan.Start();
    }

    /** `DefrostingProgram.start` up to the head of the outer loop: after the prologue the worker
        enters the control loop, or, for a program that is already finished, winds down at once. */
    method Begin()
      requires Valid()
      modifies this, components.Actuators()
      ensures Valid() && State() == old(State()) && !paused
      ensures running == !finished
      ensures !finished ==> phase == InControlLoop && components.turntable.targetRpm == 2.0 &&
                            components.magnetron.running && components.coolingFan.targetPowerShare == 0.2 &&
                            components.door.locked == (old(components.door.locked) || !components.door.door.isOpen)
      ensures finished ==> phase == Exited && components.Stopped()
    {
      Prologue();
      phase := InControlLoop;
      var m := OuterCheck(running, finished);
      if m.effect == WindDown {
        FinishRun();
      }
      phase := m.next;
    }

    /** One move of the worker thread, as `Schedule` decides it. */
    method Advance()
      requires Valid()
      modifies this, components.Actuators()
      ensures Valid()
      ensures var m := Schedule(old(phase), old(paused), old(running), old(finished));
              phase == m.next &&
              (m.effect == Idle ==> State() == old(State()) && paused == old(paused) && running == old(running) &&
                                    unchanged(components.Actuators())) &&
              (m.effect == ControlPass ==> State() == DefrostStep(old(State()), components.AverageInnerTemp()).next &&
                                           paused == old(paused) && running == old(running)) &&
              (m.effect == WindDown ==> State() == old(State()) && !paused && !running && components.Stopped())
    {
      var m := Schedule(phase, paused, running, finished);
      match m.effect
      case Idle =>
        phase := m.next;
      case ControlPass =>
        var r := ControlStep();
        // The pass cannot raise here; a raise would end the worker thread.
        phase := if r.Raise? then Exited else m.next;
      case WindDown =>
        FinishRun();
        phase := m.next;
    }

    /** `pause`: the control loop stops after its current pass and the worker parks. */
    method Pause()
      requires Valid()
      modifies this
      ensures Valid() && paused && running == old(running) && State() == old(State()) && phase == old(phase)
    {
      paused := true;
    }

    /** `resume`: clears the pause and notifies the pause condition, waking a parked worker. */
    method Resume()
      requires Valid()
      modifies this
      ensures Valid() && !paused && running == old(running) && State() == old(State())
      ensures phase == Notify(old(phase))
    {
      paused := false;
      phase := Notify(phase);
    }

    /** `stop` as written: paused and not running, but nothing notifies the pause condition, so a
        parked worker stays parked (ParkedWorkerStaysParked) and a join on it never returns. */
    method StopAsWritten()
      requires Valid()
      modifies this
      ensures Valid() && paused && !running && State() == old(State()) && phase == old(phase)
    {
      paused := true;
      running := false;
    }

    /** `stop` with the notify it needs: paused, not running, and a parked worker woken so that
        it can see the stop (StoppedWorkerExitsInOneMove). */
    method Stop()
      requires Valid()
      modifies this
      ensures Valid() && paused && !running && State() == old(State())
      ensures phase == Notify(old(phase)) && !phase.Parked?
    {
      paused := true;
      running := false;
      phase := Notify(phase);
    }

    /** `emergency_stop`: the program is stopped by `stop` as written, which notifies nobody, so
        a parked worker stays parked; then the first component, the magnetron modulator, has no
        `emergency_stop`, so an AttributeError ends the method before any component or the door
        is touched. */
    method EmergencyStop() returns (r: Status)
      requires Valid()
      modifies this
      ensures Valid() && paused && !running && State() == old(State())
      ensures phase == old(phase)
      ensures r == Raise(AttributeError("emergency_stop"))
    {
      StopAsWritten();
      r := Raise(AttributeError("emergency_stop"));
    }
  }
}
