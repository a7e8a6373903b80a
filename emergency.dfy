/** The emergency handler (src/emergency/EmergencyHandler.py): one pending-error slot shared by
    the whole class, the `observe` wrapper, and recovery. */
module EmergencyHandling {
  import opened Faults

  /** What `observe`'s wrapper does with the outcome of the wrapped call: hand back its result;
      for a custom fault, declare an emergency on the receiver and record the fault; for any other
      fault, call the receiver's `shutdown`. The wrapper never re-raises the fault itself. */
  datatype Reaction<R> = Pass(value: R) | DeclareAndRecord(fault: Fault) | CallShutdown(fault: Fault)

  function Observe<R>(outcome: Outcome<R>): (r: Reaction<R>)
    ensures r.Pass? <==> outcome.Return?
    ensures r.Pass? ==> r.value == outcome.value
    ensures r.DeclareAndRecord? <==> outcome.Raise? && outcome.fault.IsCustom()
    ensures r.CallShutdown? <==> outcome.Raise? && !outcome.fault.IsCustom()
    ensures !r.Pass? ==> r.fault == outcome.fault
  {
    match outcome
    case Return(v) => Pass(v)
    case Raise(f) => if f.IsCustom() then DeclareAndRecord(f) else CallShutdown(f)
  }

  /** Only custom faults ever reach the slot, and the mock fault is the only one recovery clears. */
  lemma ObserveRecordsOnlyCustomFaults<R>(outcome: Outcome<R>)
    ensures Observe(outcome).DeclareAndRecord? ==> Observe(outcome).fault.IsCustom()
    ensures outcome == Raise(MockFault) ==> Observe(outcome) == DeclareAndRecord(MockFault)
    ensures outcome == Raise(ProgramAlreadyRunning) ==> Observe(outcome) == DeclareAndRecord(ProgramAlreadyRunning)
    ensures outcome == Raise(AttributeError("shutdown")) ==> Observe(outcome).CallShutdown?
  {
  }

  /** The class-level `error` slot. One object stands for the class: every `EmergencyHandler()`
      instance reads and writes the same slot, so creating a new instance does not clear it. The
      slot's type admits only custom faults, as the annotation `CustomException | None` says. */
  class EmergencyHandler {
    var error: Option<CustomFault>

    constructor ()
      ensures error == None
    {
      error := None;
    }

    /** `is_busy`: an error is pending. */
    function IsBusy(): (b: bool)
      reads this
      ensures b <==> error.Some?
    {
      error.Some?
    }

    /** The wrapper's `cls.error = e`, after it has declared the emergency. */
    method Record(fault: CustomFault)
      modifies this
      ensures error == Some(fault)
    {
      error := Some(fault);
    }

    /** `handle_emergency`: a pending mock fault is cleared and nothing more happens; any other
        pending error, or none, asks the system control for a factory reset (the result) and
        stays pending. */
    method HandleEmergency() returns (resetRequested: bool)
      modifies this
      ensures old(error) == Some(MockFault) ==> !resetRequested && error == None
      ensures old(error) != Some(MockFault) ==> resetRequested && error == old(error)
    {
      if error == Some(MockFault) {
        error := None;
        return false;
      }
      resetRequested := true;
    }
  }
}
