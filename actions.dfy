/** The user actions of src/helper/Action.py. */
module Actions {
  datatype Action = Start | Stop | Pause | Resume | Off | OpenDoor | CloseDoor
}
