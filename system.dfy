/** The system control (src/SystemControl.py): the IDLE / RUNNING / EMERGENCY state machine, one
    pass of its main loop at a time, the dispatch of user actions to the program controller, and
    the factory reset that re-runs its initializer on the shared components. */
module System {
  import opened Faults
  import opened Actions
  import opened Config
  import opened Sensors
  import opened Programs
  import opened ProgramControl
  import opened EmergencyHandling
  import opened Alarms
  import opened UserInteraction

  datatype State = Idle | Running | Emergency

  /** How one pass of the main loop ends: the loop goes on, the loop has ended (the IDLE break),
      or the loop thread died with an exception nothing catches. */
  datatype TickResult = Continue | LoopEnded | Crashed(fault: Fault)

  /** Reading a missing attribute of the system control, as the wrapper's `self.shutdown()` does,
      is an AttributeError that ends the loop thread. */
  const MissingShutdown: Fault := AttributeError("shutdown")

  class SystemControl {
    var state: State
    /** The handler whose class-level slot holds the pending error. */
    const handler: EmergencyHandler
    const alarm: AlarmController
    /** Not a shared instance: every initializer run creates a new mock handler, which
        `Reinitialize` stands for. */
    const ui: MockUserInteractionHandler
    const programs: ProgramController
    const sensors: SensorManager

    /** The program controller runs on the components the sensors belong to, and the
        interaction handler builds programs on the same components. */
    ghost predicate Valid()
      reads programs, programs.program
    {
      programs.Valid() && programs.components.sensors == sensors && ui.components == programs.components
    }

    /** The first `SystemControl()`: idle, an empty slot, an inactive alarm, a mock handler that
        has not yet run, an empty program controller, and the shared sensor manager initialized
        again, which closes the door and switches the devices off. */
    constructor (components: ProgramComponents)
      requires components.Valid()
      modifies components.sensors.temp1, components.sensors.temp2, components.sensors.humidity,
               components.sensors.weight, components.sensors.magnetronTemp1, components.sensors.magnetronTemp2,
               components.sensors.magnetron, components.sensors.door, components.sensors.fan
      ensures Valid() && state == State.Idle && sensors == components.sensors && programs.components == components
      ensures handler.error == None && !alarm.active && !ui.runOnce && programs.program == null
      ensures sensors.AtInitialValues() && !sensors.door.isOpen && !sensors.magnetron.active
    {
      state := State.Idle;
      handler := new EmergencyHandler();
      alarm := new AlarmController();
      ui := new MockUserInteractionHandler(components);
      programs := new ProgramController(components);
      sensors := components.sensors;
      new;
      sensors.Reinitialize();
    }

    /** `start`: an idle system starts running (and its loop thread starts); in any other state
        nothing changes. */
    method Start()
      modifies this`state
      ensures old(state) == State.Idle ==> state == Running
      ensures old(state) != State.Idle ==> state == old(state)
    {
      if state == State.Idle {
        state := Running;
      }
    }

    /** `declare_emergency`: the system enters EMERGENCY and the alarm sounds; a system already in
        EMERGENCY is left as it is. */
    method DeclareEmergency()
      modifies this`state, alarm
      ensures state == Emergency
      ensures old(state) != Emergency ==> alarm.active
      ensures old(state) == Emergency ==> alarm.active == old(alarm.active)
    {
      if state != Emergency {
        if !alarm.IsAlarming() {
          alarm.ActivateAlarm();
        }
        state := Emergency;
      }
    }

    /** `stop`: an idle system is left as it is; otherwise the sensors are reset, the program
        controller stops its program and joins the worker, and the system is idle. */
    method Stop()
      requires Valid()
      modifies this`state, sensors.temp1, sensors.temp2, sensors.humidity, sensors.weight,
               sensors.magnetronTemp1, sensors.magnetronTemp2, programs.program, programs.components.Actuators()
      ensures Valid() && state == State.Idle && programs.program == old(programs.program)
      ensures old(state) != State.Idle ==>
                sensors.AtInitialValues() &&
                (programs.program != null ==> !programs.program.running && !programs.program.phase.Alive())
    {
      if state != State.Idle {
        sensors.Reset();
        programs.Stop();
        state := State.Idle;
      }
    }

    /** `factory_reset` re-runs the initializer: idle, the alarm silenced, a new mock handler, an
        empty program controller and freshly initialized sensors. The pending error is a class
        attribute the initializer does not touch, so it stays pending. */
    method FactoryReset()
      requires Valid()
      modifies this`state, alarm, ui, programs, sensors.temp1, sensors.temp2, sensors.humidity, sensors.weight,
               sensors.magnetronTemp1, sensors.magnetronTemp2, sensors.magnetron, sensors.door, sensors.fan
      ensures Valid() && state == State.Idle && !alarm.active && !ui.runOnce && programs.program == null
      ensures sensors.AtInitialValues() && !sensors.door.isOpen && !sensors.magnetron.active
      ensures handler.error == old(handler.error)
    {
      state := State.Idle;
      alarm.Reinitialize();
      ui.Reinitialize();
      programs.Reinitialize();
      sensors.Reinitialize();
    }

    /** The `match` of `loop_action`. START starts the program unless one is running, which
        raises the custom ProgramAlreadyRunning fault; a START without a program fails on its
        name. STOP, PAUSE and RESUME act only when their guard holds; every other action, or
        none, changes nothing. */
    method Dispatch(i: Interaction) returns (r: Status)
      requires Valid()
      requires i.program != null ==> i.program.components == programs.components && i.program.Valid()
      modifies programs, programs.program, (if i.program != null then {i.program} else {}),
               programs.components.Actuators()
      ensures Valid()
      ensures r.Raise? <==> i.action == Some(Action.Start) && (old(programs.IsRunning()) || i.program == null)
      ensures r.Raise? ==> r.fault == (if old(programs.IsRunning()) then ProgramAlreadyRunning
                                       else AttributeError("get_name"))
      ensures r.Raise? || i.action != Some(Action.Start) ==> programs.program == old(programs.program)
      ensures i.action == Some(Action.Start) && r.Return? ==>
                programs.program == i.program && i.program.running == !i.program.finished && !i.program.paused &&
                i.program.State() == old(i.program.State())
      ensures i.action == Some(Action.Stop) && old(programs.IsRunning()) ==>
                !programs.IsRunning() && !programs.program.phase.Alive()
      ensures i.action == Some(Action.Pause) && old(programs.IsRunning() && !programs.IsPaused()) ==>
                programs.IsRunning() && programs.IsPaused()
      ensures i.action == Some(Action.Resume) && old(programs.IsRunning() && programs.IsPaused()) ==>
                programs.IsRunning() && !programs.IsPaused()
      ensures i.action.None? || i.action.value in {Action.Off, Action.OpenDoor, Action.CloseDoor} ==>
                programs.program == old(programs.program) && (programs.program != null ==> unchanged(programs.program))
    {
      r := Done;
      if i.action.None? {
        return;
      }
      match i.action.value {
        case Start =>
          if programs.IsRunning() {
            return Raise(ProgramAlreadyRunning);
          }
          if i.program == null {
            return Raise(AttributeError("get_name"));
          }
          programs.Start(i.program);
        case Stop =>
          if programs.IsRunning() {
            programs.Stop();
          }
        case Pause =>
          if programs.IsRunning() && !programs.IsPaused() {
            r := programs.Pause();
          }
        case Resume =>
          if programs.IsRunning() && programs.IsPaused() {
            r := programs.Resume();
          }
        case _ =>
      }
    }

    /** The first half of `loop_action`: fetch the interactions and dispatch them. The mock
        handler's one START starts a fresh program when none is running and otherwise raises
        the custom ProgramAlreadyRunning fault; every later pass dispatches nothing. */
    method HandleInteractions() returns (r: Status)
      requires Valid()
      modifies ui, programs, programs.program, programs.components.Actuators()
      ensures Valid() && ui.runOnce
      ensures r.Raise? <==> !old(ui.runOnce) && old(programs.IsRunning())
      ensures r.Raise? ==> r.fault == ProgramAlreadyRunning && programs.program == old(programs.program)
      ensures old(ui.runOnce) ==> programs.program == old(programs.program) &&
                                  (programs.program != null ==> unchanged(programs.program))
      ensures !old(ui.runOnce) && r.Return? ==>
                programs.program != null && fresh(programs.program) &&
                programs.program.running == !programs.program.finished
    {
      var i := ui.GetInteractions();
      r := Dispatch(i);
    }

    /** `loop_action`, with the state query spelled `get_state_tuple`: the interactions are
        dispatched and, unless that raised, the display is updated (a no-op) and every sensor
        takes one step. */
    method LoopAction(noise: SensorNoise) returns (r: Status)
      requires Valid() && noise.InRange()
      modifies ui, programs, programs.program, programs.components.Actuators(),
               sensors.temp1, sensors.temp2, sensors.humidity, sensors.weight,
               sensors.magnetronTemp1, sensors.magnetronTemp2
      ensures Valid() && ui.runOnce
      ensures r.Raise? <==> !old(ui.runOnce) && old(programs.IsRunning())
      ensures r.Raise? ==> r.fault == ProgramAlreadyRunning && programs.program == old(programs.program)
      ensures !old(ui.runOnce) && r.Return? ==>
                programs.program != null && fresh(programs.program) &&
                programs.program.running == !programs.program.finished
      ensures r.Return? ==>
                sensors.temp1.temperature == CavityStep(old(sensors.temp1.temperature), AmbientTemperatureInCelsius,
                                                        sensors.magnetron.active, sensors.door.isOpen, noise.temp1) &&
                sensors.temp2.temperature == CavityStep(old(sensors.temp2.temperature), AmbientTemperatureInCelsius,
                                                        sensors.magnetron.active, sensors.door.isOpen, noise.temp2) &&
                sensors.humidity.humidity == CavityStep(old(sensors.humidity.humidity), AmbientHumidityInPercent,
                                                        sensors.magnetron.active, sensors.door.isOpen, noise.humidity) &&
                sensors.weight.weight == WeightStep(old(sensors.weight.weight), old(sensors.weight.lastDoorOpen),
                                                    sensors.door.isOpen, noise.weight) &&
                sensors.magnetronTemp1.temperature == MagnetronStep(old(sensors.magnetronTemp1.temperature),
                                                                    sensors.magnetron.active, sensors.fan.powerShare, noise.magnetronTemp1) &&
                sensors.magnetronTemp2.temperature == MagnetronStep(old(sensors.magnetronTemp2.temperature),
                                                                    sensors.magnetron.active, sensors.fan.powerShare, noise.magnetronTemp2)
      ensures r.Raise? ==> unchanged(sensors.temp1, sensors.temp2, sensors.humidity, sensors.weight,
                                     sensors.magnetronTemp1, sensors.magnetronTemp2)
    {
      r := HandleInteractions();
      if r.Raise? {
        return;
      }
      var t := programs.GetStateTuple();
      ui.UpdateDisplay(t);
      sensors.UpdateSensors(noise);
    }

    /** `loop_action` as written: after the dispatch it asks the program controller for
        `get_state_tupel`, which does not exist, so every pass that the dispatch does not end
        raises an AttributeError and no sensor is ever updated. */
    method LoopActionAsWritten(noise: SensorNoise) returns (r: Status)
      requires Valid() && noise.InRange()
      modifies ui, programs, programs.program, programs.components.Actuators()
      ensures Valid() && ui.runOnce && r.Raise?
      ensures r.fault == (if !old(ui.runOnce) && old(programs.IsRunning()) then ProgramAlreadyRunning
                          else AttributeError("get_state_tupel"))
    {
      r := HandleInteractions();
      if r.Raise? {
        return;
      }
      r := Raise(AttributeError("get_state_tupel"));
    }

    /** The `observe` wrapper around a pass of `loop_action`: a result passes; a custom fault
        declares an emergency and is recorded in the slot; any other fault calls `shutdown`,
        which the system control does not have, so the loop thread dies. */
    method React(r: Status) returns (t: TickResult)
      requires Valid()
      modifies this`state, alarm, handler
      ensures Valid()
      ensures var re := Observe(r);
              (re.Pass? ==> t == Continue && state == old(state) && handler.error == old(handler.error)) &&
              (re.DeclareAndRecord? ==> t == Continue && state == Emergency && handler.error == Some(re.fault) &&
                                        (old(state) != Emergency ==> alarm.active)) &&
              (re.CallShutdown? ==> t == Crashed(MissingShutdown) && state == old(state) &&
                                    handler.error == old(handler.error))
    {
      match Observe(r)
      case Pass(_) =>
        t := Continue;
      case DeclareAndRecord(f) =>
        DeclareEmergency();
        handler.Record(f);
        t := Continue;
      case CallShutdown(_) =>
        t := Crashed(MissingShutdown);
    }

    /** One pass of `loop`. IDLE ends the loop. RUNNING runs the observed `loop_action`.
        EMERGENCY with a pending mock fault clears it and stays in EMERGENCY; with any other
        pending fault it performs a factory reset, which leaves the system idle and the fault
        pending; with nothing pending it returns to RUNNING. */
    method Tick(noise: SensorNoise) returns (t: TickResult)
      requires Valid() && noise.InRange()
      modifies this`state, handler, alarm, ui, programs, programs.program, programs.components.Actuators(),
               sensors.temp1, sensors.temp2, sensors.humidity, sensors.weight,
               sensors.magnetronTemp1, sensors.magnetronTemp2, sensors.magnetron, sensors.door, sensors.fan
      ensures Valid()
      ensures old(state) == State.Idle ==> t == LoopEnded && state == State.Idle
      ensures old(state) == Running ==>
                t == Continue &&
                (state == Running || (state == Emergency && alarm.active && handler.error == Some(ProgramAlreadyRunning)))
      ensures old(state) == Emergency && old(handler.error) == None ==> t == Continue && state == Running
      ensures old(state) == Emergency && old(handler.error) == Some(MockFault) ==>
                t == Continue && state == Emergency && handler.error == None
      ensures old(state) == Emergency && old(handler.error).Some? && old(handler.error) != Some(MockFault) ==>
                t == Continue && state == State.Idle && handler.error == old(handler.error) &&
                programs.program == null && !alarm.active && !ui.runOnce
    {
      match state
      case Idle =>
        t := LoopEnded;
      case Running =>
        var r := LoopAction(noise);
        t := React(r);
      case Emergency =>
        t := Continue;
        if handler.IsBusy() {
          var reset := handler.HandleEmergency();
          if reset {
            FactoryReset();
          }
        } else {
          state := Running;
        }
    }

    /** A RUNNING pass of `loop` with `loop_action` as written: the loop thread dies on the
        misspelled state query, except on the one pass where the mock's START meets a running
        program and the system enters EMERGENCY instead. */
    method RunningTickAsWritten(noise: SensorNoise) returns (t: TickResult)
      requires Valid() && noise.InRange() && state == Running
      modifies this`state, handler, alarm, ui, programs, programs.program, programs.components.Actuators()
      ensures Valid()
      ensures t == Crashed(MissingShutdown) || (t == Continue && state == Emergency)
      ensures !(!old(ui.runOnce) && old(programs.IsRunning())) ==> t == Crashed(MissingShutdown)
    {
      var r := LoopActionAsWritten(noise);
      t := React(r);
    }

    /** `emergency_stop_program`: not observed, so the program controller's AttributeError
        reaches the caller. */
    method EmergencyStopProgram() returns (r: Status)
      requires Valid()
      modifies programs.program
      ensures Valid() && programs.program == old(programs.program)
      ensures r == Raise(if programs.program == null then AttributeError("name")
                         else AttributeError("emergency_stop"))
      ensures programs.program != null ==> programs.program.phase == old(programs.program.phase)
    {
      r := programs.EmergencyStop();
    }
  }

  /** The misspelled state query is not a custom fault, so the wrapper calls the missing
      `shutdown` instead of declaring an emergency. */
  lemma MisspelledQueryIsNotCustom()
    ensures Observe<()>(Raise(AttributeError("get_state_tupel"))).CallShutdown?
    ensures Observe<()>(Raise(ProgramAlreadyRunning)).DeclareAndRecord?
  {
  }
}
