/** The browser-storage layer of the feeding tracker: the daily reset rule,
    the blank day, loading with normalisation, archiving completed slots into
    the history list, and the capped history list itself.

    The clock is an input: `today` is the day id the caller computed and
    `hour` the current hour. The browser's key-value store is the class
    `Storage`, with one field per key. */
module FeedingStorage {
  import opened FeedingTypes

  /** Hour of the day (0..23) from which a state of another day is reset. */
  const ResetHour: int := 8

  /** Most history records kept in the store. */
  const HistoryLimit: nat := 50

  type Hour = h: int | 0 <= h < 24

  /** What reading a key of the store and parsing it as JSON can give: no
      value (or an empty string), text that does not parse, or a value. */
  datatype StoredValue<T> = Absent | Unparseable | Parsed(value: T)

  // ---------------------------------------------------------------------
  // Reset rule
  // ---------------------------------------------------------------------

  /** Whether a state dated `stateDate` is to be discarded now. A state of
      today is never reset; a state of any other day is kept until the
      reset hour. */
  function ShouldReset(stateDate: string, today: string, hour: Hour): (r: bool)
    ensures stateDate == today ==> !r
    ensures stateDate != today ==> (r <==> hour >= ResetHour)
  {
    if stateDate != today then hour >= ResetHour else false
  }

  // ---------------------------------------------------------------------
  // Blank state
  // ---------------------------------------------------------------------

  function BlankStatus(key: Slot): Status
  {
    Status(key, false, None, None)
  }

  /** `st` is the empty status of slot `key`: not done, nobody, no time. */
  predicate IsBlankStatus(st: Status, key: Slot)
  {
    st.slot == key && !st.done && st.caretaker.None? && st.timestamp.None?
  }

  /** `s` is an empty day dated `today`. */
  predicate IsBlank(s: State, today: string)
  {
    s.date == today && Complete(s) &&
    forall key :: SlotStatus(s, key).Some? && IsBlankStatus(SlotStatus(s, key).value, key)
  }

  function BlankState(today: string): (s: State)
    ensures IsBlank(s, today)
  {
    State(today, Some(BlankStatus(Morning)), Some(BlankStatus(Evening)))
  }

  // ---------------------------------------------------------------------
  // Loading with normalisation
  // ---------------------------------------------------------------------

  /** A stored value, or `fallback` when it is absent or does not parse. */
  function SafeParse<T>(item: StoredValue<T>, fallback: T): (r: T)
    ensures item.Parsed? ==> r == item.value
    ensures !item.Parsed? ==> r == fallback
  {
    if item.Parsed? then item.value else fallback
  }

  /** Fills each missing slot with its blank status and keeps the rest. */
  function Normalize(s: State): (r: State)
    ensures r.date == s.date && Complete(r)
    ensures forall key :: SlotStatus(s, key).Some? ==> SlotStatus(r, key) == SlotStatus(s, key)
    ensures forall key :: SlotStatus(s, key).None? ==>
              SlotStatus(r, key).Some? && IsBlankStatus(SlotStatus(r, key).value, key)
  {
    State(s.date,
          if s.morning.Some? then s.morning else Some(BlankStatus(Morning)),
          if s.evening.Some? then s.evening else Some(BlankStatus(Evening)))
  }

  /** The state the loader starts from: the stored one, or today's blank. */
  function Candidate(item: StoredValue<State>, today: string): State
  {
    SafeParse(item, BlankState(today))
  }

  /** Whether loading `item` now goes down the reset path. */
  predicate ResetDue(item: StoredValue<State>, today: string, hour: Hour)
  {
    ShouldReset(Candidate(item, today).date, today, hour)
  }

  /** The state the loader hands out for stored value `item`. */
  function LoadedState(item: StoredValue<State>, today: string, hour: Hour): (r: State)
    ensures Complete(r)
    ensures r.date == today || (item.Parsed? && r.date == item.value.date && hour < ResetHour)
  {
    var st := Candidate(item, today);
    if ShouldReset(st.date, today, hour) then BlankState(today) else Normalize(st)
  }

  /** On the values modelled, loading never fails: a missing or unparseable value and a state due
      for reset give today's blank day; any other stored state keeps its date
      and present slots and gets blank statuses for missing ones. */
  lemma LoadNormalisation(item: StoredValue<State>, today: string, hour: Hour)
    ensures !item.Parsed? ==> !ResetDue(item, today, hour) && IsBlank(LoadedState(item, today, hour), today)
    ensures item.Parsed? && ResetDue(item, today, hour) ==> IsBlank(LoadedState(item, today, hour), today)
    ensures item.Parsed? && !ResetDue(item, today, hour) ==>
              var r := LoadedState(item, today, hour);
              r.date == item.value.date &&
              (forall key :: SlotStatus(item.value, key).Some? ==> SlotStatus(r, key) == SlotStatus(item.value, key)) &&
              (forall key :: SlotStatus(item.value, key).None? ==>
                 SlotStatus(r, key).Some? && IsBlankStatus(SlotStatus(r, key).value, key))
  {
  }

  /** A complete state of today that was saved is loaded back unchanged, and
      loading it does not go down the reset path (so history is untouched). */
  lemma SaveLoadRoundTrip(s: State, today: string, hour: Hour)
    requires s.date == today && Complete(s)
    ensures !ResetDue(Parsed(s), today, hour)
    ensures LoadedState(Parsed(s), today, hour) == s
  {
  }

  /** Saving what was loaded and loading again, at the same time of day,
      gives the same state and does not reset again. */
  lemma LoadSaveLoadStable(item: StoredValue<State>, today: string, hour: Hour)
    ensures !ResetDue(Parsed(LoadedState(item, today, hour)), today, hour)
    ensures LoadedState(Parsed(LoadedState(item, today, hour)), today, hour) == LoadedState(item, today, hour)
  {
  }

  // ---------------------------------------------------------------------
  // History list arithmetic
  // ---------------------------------------------------------------------

  /** The first `HistoryLimit` records: the newest ones. */
  function Capped(rs: seq<Record>): (r: seq<Record>)
    ensures |r| == if |rs| <= HistoryLimit then |rs| else HistoryLimit
    ensures r == rs[..|r|]
  {
    if |rs| <= HistoryLimit then rs else rs[..HistoryLimit]
  }

  /** `record` put in front of `rs`, the oldest records evicted past the cap. */
  function Prepend(record: Record, rs: seq<Record>): (r: seq<Record>)
    ensures 0 < |r| <= HistoryLimit && r[0] == record
    ensures |r| == if |rs| < HistoryLimit then |rs| + 1 else HistoryLimit
    ensures r[1..] == rs[..|r| - 1]
  {
    Capped([record] + rs)
  }

  /** `r` has the slot and date a removal asks for. */
  predicate Matches(r: Record, slot: Slot, date: string)
  {
    r.slot == slot && r.date == date
  }

  /** Index of the first (newest) record for `slot` and `date`, if any. */
  function FirstMatch(rs: seq<Record>, slot: Slot, date: string): (r: Option<nat>)
    ensures r.None? <==> forall j :: 0 <= j < |rs| ==> !Matches(rs[j], slot, date)
    ensures r.Some? ==> r.value < |rs| && Matches(rs[r.value], slot, date) &&
                        forall j :: 0 <= j < r.value ==> !Matches(rs[j], slot, date)
  {
    if rs == [] then None
    else if Matches(rs[0], slot, date) then Some(0)
    else match FirstMatch(rs[1..], slot, date)
      case None => None
      case Some(i) => Some(i + 1)
  }

  /** `rs` without its first record for `slot` and `date`. */
  function Removed(slot: Slot, date: string, rs: seq<Record>): (r: seq<Record>)
    ensures FirstMatch(rs, slot, date).None? ==> r == rs
    ensures FirstMatch(rs, slot, date).Some? ==>
              var i := FirstMatch(rs, slot, date).value;
              |r| == |rs| - 1 && r[..i] == rs[..i] && r[i..] == rs[i + 1..]
  {
    match FirstMatch(rs, slot, date)
    case None => rs
    case Some(i) => rs[..i] + rs[i + 1..]
  }

  /** The records of `rs` that match (`want`) or do not match (`!want`)
      `slot` and `date`, in their order. */
  function Select(rs: seq<Record>, slot: Slot, date: string, want: bool): seq<Record>
  {
    if rs == [] then []
    else (if Matches(rs[0], slot, date) == want then [rs[0]] else []) + Select(rs[1..], slot, date, want)
  }

  lemma {:induction false} SelectAppend(a: seq<Record>, b: seq<Record>, slot: Slot, date: string, want: bool)
    ensures Select(a + b, slot, date, want) == Select(a, slot, date, want) + Select(b, slot, date, want)
  {
    if a == [] {
      assert a + b == b;
    } else {
      assert (a + b)[1..] == a[1..] + b;
      SelectAppend(a[1..], b, slot, date, want);
    }
  }

  lemma {:induction false} SelectNoMatch(a: seq<Record>, slot: Slot, date: string)
    requires forall j :: 0 <= j < |a| ==> !Matches(a[j], slot, date)
    ensures Select(a, slot, date, true) == []
    ensures Select(a, slot, date, false) == a
  {
    if a != [] {
      SelectNoMatch(a[1..], slot, date);
    }
  }

  /** Splitting a list at its first matching record `x`. */
  lemma {:induction false} SelectAround(pre: seq<Record>, x: Record, post: seq<Record>, slot: Slot, date: string)
    requires forall j :: 0 <= j < |pre| ==> !Matches(pre[j], slot, date)
    requires Matches(x, slot, date)
    ensures Select(pre + [x] + post, slot, date, true) == [x] + Select(post, slot, date, true)
    ensures Select(pre + [x] + post, slot, date, false) == pre + Select(post, slot, date, false)
    ensures Select(pre + post, slot, date, true) == Select(post, slot, date, true)
    ensures Select(pre + post, slot, date, false) == pre + Select(post, slot, date, false)
  {
    SelectNoMatch(pre, slot, date);
    SelectAppend(pre + [x], post, slot, date, true);
    SelectAppend(pre + [x], post, slot, date, false);
    SelectAppend(pre, [x], slot, date, true);
    SelectAppend(pre, [x], slot, date, false);
    SelectAppend(pre, post, slot, date, true);
    SelectAppend(pre, post, slot, date, false);
    assert Select([x], slot, date, true) == [x];
    assert Select([x], slot, date, false) == [];
  }

  /** Removal takes out exactly the newest matching record: the other
      matching records stay in order, every non-matching record stays in
      order, and the multiset loses that one record. */
  lemma RemovedOnlyNewestMatch(slot: Slot, date: string, rs: seq<Record>)
    requires FirstMatch(rs, slot, date).Some?
    ensures var i := FirstMatch(rs, slot, date).value;
            var r := Removed(slot, date, rs);
            Select(rs, slot, date, true) != [] &&
            Select(rs, slot, date, true)[0] == rs[i] &&
            Select(r, slot, date, true) == Select(rs, slot, date, true)[1..] &&
            Select(r, slot, date, false) == Select(rs, slot, date, false) &&
            multiset(rs) == multiset(r) + multiset{rs[i]}
  {
    var i := FirstMatch(rs, slot, date).value;
    var r := Removed(slot, date, rs);
    var pre, post := rs[..i], rs[i + 1..];
    assert rs == pre + [rs[i]] + post;
    assert r == pre + post;
    SelectAround(pre, rs[i], post, slot, date);
  }

  // ---------------------------------------------------------------------
  // Archiving completed slots
  // ---------------------------------------------------------------------

  /** The slots in the order the archiving loop visits them. */
  const SlotOrder: seq<Slot> := [Morning, Evening]

  /** A status is archived only when it is done and has a non-empty
      caretaker and timestamp (an empty string counts as missing). */
  predicate Qualifies(st: Status)
  {
    st.done && st.caretaker.Some? && st.caretaker.value != "" &&
    st.timestamp.Some? && st.timestamp.value != ""
  }

  /** The record archived for slot `key` of a state dated `date`. */
  function ArchiveRecord(key: Slot, date: string, st: Status): (r: Record)
    requires Qualifies(st)
    ensures r.slot == key && r.date == date
    ensures Some(r.caretaker) == st.caretaker && Some(r.timestamp) == st.timestamp
  {
    Record(key, st.caretaker.value, date, st.timestamp.value)
  }

  /** Some record of `h` has the key of `r`. */
  predicate InHistory(h: seq<Record>, r: Record)
  {
    exists j :: 0 <= j < |h| && SameKey(h[j], r)
  }

  /** The record slot `key` of `state` would add to history `h`: none when
      the slot is missing, not complete, or its key is already in `h`. */
  function PendingAt(state: State, h: seq<Record>, key: Slot): seq<Record>
  {
    match SlotStatus(state, key)
    case None => []
    case Some(st) =>
      if Qualifies(st) && !InHistory(h, ArchiveRecord(key, state.date, st))
      then [ArchiveRecord(key, state.date, st)]
      else []
  }

  /** The records the slots `keys` of `state` would add, in visiting order.
      Each is checked against the same `h`. */
  function PendingIn(state: State, h: seq<Record>, keys: seq<Slot>): seq<Record>
    decreases |keys|
  {
    if keys == [] then []
    else PendingIn(state, h, keys[..|keys| - 1]) + PendingAt(state, h, keys[|keys| - 1])
  }

  /** The history value after adding each record of `p` to the same list
      `h`: every add stores its record in front of `h`, so only the last one
      is left; with nothing to add the stored value is not written. */
  function AfterArchiving(item: StoredValue<seq<Record>>, h: seq<Record>, p: seq<Record>): StoredValue<seq<Record>>
  {
    if p == [] then item else Parsed(Prepend(p[|p| - 1], h))
  }

  /** The stored history after archiving the completed slots of `state`. */
  function PreservedHistory(item: StoredValue<seq<Record>>, state: State): StoredValue<seq<Record>>
  {
    var h := SafeParse(item, []);
    AfterArchiving(item, h, PendingIn(state, h, SlotOrder))
  }

  lemma PendingAtShape(state: State, h: seq<Record>, key: Slot)
    ensures |PendingAt(state, h, key)| <= 1
    ensures PendingAt(state, h, key) != [] ==>
              SlotStatus(state, key).Some? && Qualifies(SlotStatus(state, key).value) &&
              PendingAt(state, h, key)[0] == ArchiveRecord(key, state.date, SlotStatus(state, key).value) &&
              !InHistory(h, PendingAt(state, h, key)[0])
  {
  }

  /** The two slots' pending records, morning first. */
  lemma PendingInSlotOrder(state: State, h: seq<Record>)
    ensures PendingIn(state, h, SlotOrder) == PendingAt(state, h, Morning) + PendingAt(state, h, Evening)
  {
  }

  /** Archiving either writes nothing, or stores in front of the old list
      one new record: that of a completed slot of `state`, under the state's
      own date, whose key was not in the history yet. The rest is the newest
      part of the old list. */
  lemma PreserveArchivesOnlyNewCompleted(item: StoredValue<seq<Record>>, state: State)
    ensures var h := SafeParse(item, []);
            var v := PreservedHistory(item, state);
            v == item ||
            (v.Parsed? && 0 < |v.value| && v.value[1..] == h[..|v.value| - 1] &&
             v.value[0].date == state.date && !InHistory(h, v.value[0]) &&
             exists key :: SlotStatus(state, key).Some? && Qualifies(SlotStatus(state, key).value) &&
                           v.value[0] == ArchiveRecord(key, state.date, SlotStatus(state, key).value))
  {
    var h := SafeParse(item, []);
    PendingInSlotOrder(state, h);
    PendingAtShape(state, h, Morning);
    PendingAtShape(state, h, Evening);
    var p := PendingIn(state, h, SlotOrder);
    if p != [] {
      var key := if PendingAt(state, h, Evening) != [] then Evening else Morning;
      assert p[|p| - 1] == PendingAt(state, h, key)[0];
    }
  }

  /** Records whose key is already in the history are never added again:
      when every completed slot is archived already, nothing is written. */
  lemma PreserveSkipsArchived(item: StoredValue<seq<Record>>, state: State)
    requires forall key :: SlotStatus(state, key).Some? && Qualifies(SlotStatus(state, key).value) ==>
               InHistory(SafeParse(item, []), ArchiveRecord(key, state.date, SlotStatus(state, key).value))
    ensures PreservedHistory(item, state) == item
  {
    var h := SafeParse(item, []);
    PendingInSlotOrder(state, h);
    assert PendingAt(state, h, Morning) == [];
    assert PendingAt(state, h, Evening) == [];
  }

  /** Archiving writes the stored history exactly when some slot has a
      completed record whose key is not in the history yet. */
  lemma PreserveWritesIffPending(item: StoredValue<seq<Record>>, state: State)
    ensures var h := SafeParse(item, []);
            PreservedHistory(item, state) == item <==>
              PendingAt(state, h, Morning) == [] && PendingAt(state, h, Evening) == []
  {
    var h := SafeParse(item, []);
    PendingInSlotOrder(state, h);
    PendingAtShape(state, h, Morning);
    PendingAtShape(state, h, Evening);
    var p := PendingIn(state, h, SlotOrder);
    if p != [] && PreservedHistory(item, state) == item {
      var r := p[|p| - 1];
      assert !InHistory(h, r);
      assert item == Parsed(Prepend(r, h)) && h == Prepend(r, h);
      assert SameKey(h[0], r);
      assert false;
    }
  }

  /** When exactly one slot `key` has a new completed record, that record is
      stored in front of the history as loaded. */
  lemma PreserveArchivesSingleNew(item: StoredValue<seq<Record>>, state: State, key: Slot)
    requires PendingAt(state, SafeParse(item, []), key) != []
    requires forall other :: other != key ==> PendingAt(state, SafeParse(item, []), other) == []
    ensures var h := SafeParse(item, []);
            var st := SlotStatus(state, key);
            st.Some? && Qualifies(st.value) &&
            PreservedHistory(item, state) == Parsed(Prepend(ArchiveRecord(key, state.date, st.value), h))
  {
  }

  /** A record put in front is in the new list, and any key in the new list
      is that record's or was in the old one. */
  lemma PrependInHistory(record: Record, h: seq<Record>, x: Record)
    ensures InHistory(Prepend(record, h), record)
    ensures InHistory(Prepend(record, h), x) ==> SameKey(record, x) || InHistory(h, x)
  {
  }

  /** The list `h` is never rebound to what each add returns, so when both
      slots have a new completed record, only the evening one is stored and
      the morning one is lost. */
  lemma PreserveKeepsOnlyLastRecord(item: StoredValue<seq<Record>>, state: State)
    requires PendingAt(state, SafeParse(item, []), Morning) != []
    requires PendingAt(state, SafeParse(item, []), Evening) != []
    ensures var h := SafeParse(item, []);
            var m := PendingAt(state, h, Morning)[0];
            var e := PendingAt(state, h, Evening)[0];
            PreservedHistory(item, state) == Parsed(Prepend(e, h)) &&
            InHistory(Prepend(e, h), e) && !InHistory(Prepend(e, h), m)
  {
  }

  /** The reset path does not overwrite the stored state, so the next load
      archives the same state again: a second run adds the lost morning
      record, and a third run changes nothing. */
  lemma PreserveSecondRunRestores(item: StoredValue<seq<Record>>, state: State)
    requires PendingAt(state, SafeParse(item, []), Morning) != []
    requires PendingAt(state, SafeParse(item, []), Evening) != []
    ensures var h := SafeParse(item, []);
            var m := PendingAt(state, h, Morning)[0];
            var e := PendingAt(state, h, Evening)[0];
            var twice := PreservedHistory(PreservedHistory(item, state), state);
            twice == Parsed(Prepend(m, Prepend(e, h))) &&
            InHistory(twice.value, m) && InHistory(twice.value, e) &&
            PreservedHistory(twice, state) == twice
  {
    var h := SafeParse(item, []);
    var m := PendingAt(state, h, Morning)[0];
    var e := PendingAt(state, h, Evening)[0];
    PreserveKeepsOnlyLastRecord(item, state);
    PendingAtShape(state, h, Morning);
    PendingAtShape(state, h, Evening);
    var once := PreservedHistory(item, state);
    var h1 := Prepend(e, h);
    PrependInHistory(e, h, m);
    PendingAtShape(state, h1, Morning);
    PendingAtShape(state, h1, Evening);
    assert PendingAt(state, h1, Morning) == [m];
    assert PendingAt(state, h1, Evening) == [];
    PendingInSlotOrder(state, h1);
    var h2 := Prepend(m, h1);
    assert h2[1] == h1[0] == e;
    assert SameKey(h2[1], e);
    PrependInHistory(m, h1, m);
    PreserveSkipsArchived(Parsed(h2), state);
  }

  /** A blank day has nothing to archive. */
  lemma BlankArchivesNothing(item: StoredValue<seq<Record>>, today: string)
    ensures PreservedHistory(item, BlankState(today)) == item
  {
    PreserveSkipsArchived(item, BlankState(today));
  }

  // ---------------------------------------------------------------------
  // The browser store
  // ---------------------------------------------------------------------

  /** The key-value store, one field per key: the day's state and the
      history list, each possibly absent or unparseable. */
  class Storage {
    var stateItem: StoredValue<State>
    var historyItem: StoredValue<seq<Record>>

    constructor (stateItem0: StoredValue<State>, historyItem0: StoredValue<seq<Record>>)
      ensures stateItem == stateItem0 && historyItem == historyItem0
    {
      stateItem := stateItem0;
      historyItem := historyItem0;
    }

    /** Overwrites the stored state. */
    method SaveState(s: State)
      modifies this
      ensures stateItem == Parsed(s) && historyItem == old(historyItem)
    {
      stateItem := Parsed(s);
    }

    /** The stored history, or the empty list when it is missing or broken. */
    method LoadHistory() returns (h: seq<Record>)
      ensures historyItem.Parsed? ==> h == historyItem.value
      ensures !historyItem.Parsed? ==> h == []
    {
      h := SafeParse(historyItem, []);
    }

    /** Overwrites the stored history with the newest `HistoryLimit` records. */
    method PersistHistory(records: seq<Record>)
      modifies this
      ensures historyItem == Parsed(Capped(records)) && stateItem == old(stateItem)
    {
      historyItem := Parsed(Capped(records));
    }

    /** Puts `record` in front of `records`, stores and returns the result. */
    method AddHistoryRecord(record: Record, records: seq<Record>) returns (next: seq<Record>)
      modifies this
      ensures next == Prepend(record, records)
      ensures historyItem == Parsed(next) && stateItem == old(stateItem)
    {
      next := Prepend(record, records);
      PersistHistory(next);
    }

    /** Drops the first record of `records` for `slot` and `date`; stores the
      result only when one was found, and returns it uncapped. */
    method RemoveHistoryRecord(slot: Slot, date: string, records: seq<Record>) returns (next: seq<Record>)
      modifies this
      ensures next == Removed(slot, date, records)
      ensures FirstMatch(records, slot, date).None? ==> historyItem == old(historyItem)
      ensures FirstMatch(records, slot, date).Some? ==> historyItem == Parsed(Capped(next))
      ensures stateItem == old(stateItem)
    {
      var index := FirstMatch(records, slot, date);
      if index.None? {
        return records;
      }
      next := records[..index.value] + records[index.value + 1..];
      PersistHistory(next);
    }

    /** Copies the completed slots of `state` into the stored history,
      checking each against the history as it was loaded at the start. */
    method PreserveTodayRecords(state: State)
      modifies this
      ensures historyItem == PreservedHistory(old(historyItem), state)
      ensures stateItem == old(stateItem)
    {
      var history := LoadHistory();
      var i := 0;
      while i < |SlotOrder|
        invariant 0 <= i <= |SlotOrder|
        invariant stateItem == old(stateItem)
        invariant historyItem == AfterArchiving(old(historyItem), history, PendingIn(state, history, SlotOrder[..i]))
      {
        var key := SlotOrder[i];
        assert SlotOrder[..i + 1][..i] == SlotOrder[..i];
        match SlotStatus(state, key) {
          case None =>
          case Some(status) =>
            if Qualifies(status) {
              var record := ArchiveRecord(key, state.date, status);
              var found := InHistory(history, record);
              if !found {
                var next := AddHistoryRecord(record, history);
              }
            }
        }
        i := i + 1;
      }
      assert SlotOrder[..|SlotOrder|] == SlotOrder;
    }

    /** Loads the day's state; a state due for reset is archived and today's
      blank day is returned (without storing it). */
    method LoadState(today: string, hour: Hour) returns (s: State)
      modifies this
      ensures s == LoadedState(old(stateItem), today, hour)
      ensures stateItem == old(stateItem)
      ensures historyItem == if ResetDue(old(stateItem), today, hour)
                             then PreservedHistory(old(historyItem), Candidate(old(stateItem), today))
                             else old(historyItem)
    {
      var state := SafeParse(stateItem, BlankState(today));
      if ShouldReset(state.date, today, hour) {
        PreserveTodayRecords(state);
        return BlankState(today);
      }
      s := Normalize(state);
    }

    /** Saving a complete state of today and loading it back returns that
      state and leaves the history as it was. */
    method SaveThenLoad(s: State, today: string, hour: Hour) returns (r: State)
      requires s.date == today && Complete(s)
      modifies this
      ensures r == s
      ensures stateItem == Parsed(s) && historyItem == old(historyItem)
    {
      SaveState(s);
      SaveLoadRoundTrip(s, today, hour);
      r := LoadState(today, hour);
    }

    /** Stores and returns today's blank day, bypassing the reset rule and
      leaving the history as it is. */
    method ManualReset(today: string) returns (s: State)
      modifies this
      ensures IsBlank(s, today) && s == BlankState(today)
      ensures stateItem == Parsed(s) && historyItem == old(historyItem)
    {
      s := BlankState(today);
      SaveState(s);
    }
  }
}
