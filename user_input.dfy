/** Keyboard input (src/user/InputDetector.py): a one-slot latch holding the latest key, decoded
    into an action and consumed when read. */
module UserInput {
  import opened Faults
  import opened Actions

  /** A key event: the two special keys the table knows, any other special key, or a key code
      with its character (absent for keys that have none). */
  datatype Key = Esc | Enter | OtherSpecial | Code(ch: Option<char>)

  /** The one key that stands for each action. */
  function KeyFor(a: Action): Key
  {
    match a
    case Off => Esc
    case Start => Enter
    case OpenDoor => Code(Some('o'))
    case CloseDoor => Code(Some('c'))
    case Stop => Code(Some('s'))
    case Pause => Code(Some('p'))
    case Resume => Code(Some('r'))
  }

  /** The key table: esc, enter, o, c, s, p and r; every other key decodes to nothing. An action
      is decoded from exactly the key that stands for it. */
  function Decode(key: Key): (a: Option<Action>)
    ensures a.Some? ==> KeyFor(a.value) == key
    ensures (exists b: Action :: KeyFor(b) == key) ==> a.Some?
  {
    match key
    case Esc => Some(Off)
    case Enter => Some(Start)
    case OtherSpecial => None
    case Code(c) =>
      match c
      case Some('o') => Some(OpenDoor)
      case Some('c') => Some(CloseDoor)
      case Some('s') => Some(Stop)
      case Some('p') => Some(Pause)
      case Some('r') => Some(Resume)
      case _ => None
  }

  /** `KeyFor` and `Decode` are inverse: a key decodes to an action exactly when it is that
      action's key; so no two keys share an action. */
  lemma DecodeKeyFor(key: Key, a: Action)
    ensures Decode(key) == Some(a) <==> key == KeyFor(a)
  {
    if key == KeyFor(a) {
      assert exists b: Action :: KeyFor(b) == key;
      var d := Decode(key);
      assert KeyFor(d.value) == key;
      KeyForInjective(d.value, a);
    }
  }

  lemma KeyForInjective(a: Action, b: Action)
    requires KeyFor(a) == KeyFor(b)
    ensures a == b
  {
  }

  /** What a read returns: nothing while not delegating or with no key stored, otherwise the
      stored key's decoding. */
  function Pending(delegating: bool, latestKey: Option<Key>): Option<Action>
  {
    if !delegating || latestKey.None? then None else Decode(latestKey.value)
  }

  class InputDetector {
    var delegating: bool
    var latestKey: Option<Key>

    constructor ()
      ensures !delegating && latestKey == None
    {
      delegating := false;
      latestKey := None;
    }

    /** `start`: delegating from now on; a second start changes nothing. */
    method Start()
      modifies this`delegating
      ensures delegating
    {
      if !delegating {
        delegating := true;
      }
    }

    /** `stop`: not delegating; a second stop changes nothing. */
    method Stop()
      modifies this`delegating
      ensures !delegating
    {
      if delegating {
        delegating := false;
      }
    }

    /** `handle_key_event`: only the most recent key is kept. */
    method HandleKeyEvent(key: Key)
      modifies this`latestKey
      ensures latestKey == Some(key)
    {
      latestKey := Some(key);
    }

    /** `get_latest_action`: while not delegating, or with no key, nothing is returned and nothing
        consumed; otherwise the key is decoded and cleared, so each press yields at most one
        action and a second read returns nothing. */
    method GetLatestAction() returns (a: Option<Action>)
      modifies this`latestKey
      ensures a == Pending(delegating, old(latestKey))
      ensures !delegating || old(latestKey).None? ==> latestKey == old(latestKey)
      ensures delegating ==> latestKey == None && Pending(delegating, latestKey) == None
    {
      if !delegating || latestKey.None? {
        return None;
      }
      var action: Option<Action> := None;
      match latestKey.value {
        case Esc => action := Some(Action.Off);
        case Enter => action := Some(Action.Start);
        case OtherSpecial =>
        case Code(c) =>
          match c {
            case Some('o') => action := Some(Action.OpenDoor);
            case Some('c') => action := Some(Action.CloseDoor);
            case Some('s') => action := Some(Action.Stop);
            case Some('p') => action := Some(Action.Pause);
            case Some('r') => action := Some(Action.Resume);
            case _ =>
          }
      }
      latestKey := None;
      a := action;
    }
  }
}
