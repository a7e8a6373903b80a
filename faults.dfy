/** The exceptions of src/helper/exceptions.py and the Python exceptions the core raises,
    as data. An operation that may raise returns an Outcome instead. */
module Faults {
  datatype Option<+T> = None | Some(value: T)

  datatype Fault =
    | CustomFault(message: string)       // CustomException itself
    | MockFault                          // MockException
    | DoorFault(message: string)         // DoorException
    | ProgramAlreadyRunning              // ProgramAlreadyRunningException
    | ValueError(message: string)
    | AttributeError(name: string)       // a call of a method the receiver does not define
    | TypeError(message: string)
    | AssertionError
  {
    /** The faults that derive from CustomException. */
    predicate IsCustom() {
      CustomFault? || MockFault? || DoorFault? || ProgramAlreadyRunning?
    }
  }

  /** A fault that derives from CustomException: the only kind an emergency records. */
  type CustomFault = f: Fault | f.IsCustom() witness MockFault

  /** What a call did: returned a value, or raised a fault. */
  datatype Outcome<+R> = Return(value: R) | Raise(fault: Fault)

  /** The outcome of a call that returns nothing. */
  type Status = Outcome<()>

  const Done: Status := Return(())
}
