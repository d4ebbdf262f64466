/** The values the feeding tracker stores: the two daily slots, the status of
    one slot, the state of one day and an archived completion record. */
module FeedingTypes {

  datatype Option<+T> = None | Some(value: T)

  /** The two daily feeding slots. */
  datatype Slot = Morning | Evening

  /** The status of one slot. `caretaker` and `timestamp` are optional fields
      of the stored object; nothing forces them to agree with `done`. */
  datatype Status = Status(slot: Slot, done: bool, caretaker: Option<string>, timestamp: Option<string>)

  /** One day's state as it comes back from the store. A slot may be missing
      from a stored object, so each is optional here; a state handed out by
      the loader always has both (see `Complete`). */
  datatype State = State(date: string, morning: Option<Status>, evening: Option<Status>)

  /** A completion event kept in the history list. */
  datatype Record = Record(slot: Slot, caretaker: string, date: string, timestamp: string)

  /** The status stored under slot `key`, if any. */
  function SlotStatus(s: State, key: Slot): Option<Status>
  {
    match key
    case Morning => s.morning
    case Evening => s.evening
  }

  /** Both slots are present. */
  predicate Complete(s: State)
  {
    s.morning.Some? && s.evening.Some?
  }

  /** Records are identified by slot, date and timestamp. */
  predicate SameKey(a: Record, b: Record)
  {
    a.slot == b.slot && a.date == b.date && a.timestamp == b.timestamp
  }
}
