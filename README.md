# Feeding-state storage: a verified Dafny model

This project models the browser-storage layer of a two-slot cat-feeding tracker
(`src/lib/storage.ts`). Each day has a morning slot and an evening slot. The
layer keeps the day's state and a history list of completed feedings under two
keys of the browser's key-value store. It does four things:

- It decides when a stored day is stale. A state of another day is reset only
  from 08:00 on.
- It loads the state. On the values the model covers, loading never fails: a
  missing or unparseable value gives today's blank day, and missing slots are
  filled in.
- Before a reset, it archives the completed slots into the history. A record
  whose (slot, date, timestamp) is already there is skipped.
- It keeps the history newest-first and capped at 50 records, with
  add-to-front and remove-newest-match.

`feeding_types.dfy` holds the values from `src/lib/types.ts`: `Slot`, `Status`,
`State` and `Record`. In `State` each slot is optional, because a stored object
may lack one. `feeding_storage.dfy` holds the rest:

- Pure functions: the reset rule, the blank day, parsing with a fallback,
  normalisation, the capped-list arithmetic and the archiving rule.
- The class `Storage`: one field per store key. Each field holds a
  `StoredValue` (`Absent`, `Unparseable` or `Parsed(v)`). Its methods save,
  load, persist, add, remove, archive (a loop over the two slots) and reset by
  hand.

Every method is proved against the pure functions. The properties are proved
about those functions.

The clock is an input: `today` (the day id) and `hour` (0..23) are parameters.

The archiving loop is modelled as written. The history list it loaded is never
rebound to what each add returns. So when both slots have a new completed
record, each add writes "that record in front of the list as loaded". Only the
evening record survives (`PreserveKeepsOnlyLastRecord`). The reset path does
not overwrite the stored state, so the next load archives the same state again.
That second run adds the lost morning record, and a third run changes nothing
(`PreserveSecondRunRestores`).

Some facts about the code that the model keeps:

- The reset hour is 8.
- Archiving requires `done` and a non-empty caretaker and timestamp.
- Adding a history record does not check for duplicates. Only the archiving
  loop does.
- Loading does not merge history records into the state.
- Loading never writes the state key back. On the reset path it writes the
  history key, through the archiving loop.

## Model

| member | source | states |
|---|---|---|
| `FeedingStorage.ShouldReset` | src/lib/storage.ts:11-26 | A state of today never resets, at any hour. A state of any other day resets exactly when the hour is at least 8, so a prior day survives from midnight to 08:00. |
| `FeedingStorage.BlankState` | src/lib/storage.ts:28-36 | The blank day is dated today and has both slots. Each slot has its own key, is not done, and has no caretaker and no timestamp. |
| `FeedingStorage.SafeParse` | src/lib/storage.ts:38-45 | A parsed stored value is returned as is. An absent or unparseable one gives the fallback. |
| `FeedingStorage.Normalize` | src/lib/storage.ts:55-61 | Keeps the date and every present slot unchanged. Gives each missing slot its blank status, so the result has both slots. |
| `FeedingStorage.LoadedState` | src/lib/storage.ts:47-62 | The loaded state always has both slots. It is dated today, or it is the stored state's own date and the hour is before 8. |
| `FeedingStorage.LoadNormalisation` | src/lib/storage.ts:38-62 | An absent or unparseable value never resets and loads as today's blank day. So does a stored state due for reset. Any other stored state keeps its date and present slots, and missing slots become blank. |
| `FeedingStorage.SaveLoadRoundTrip` | src/lib/storage.ts:47-62 | A complete state of today, once saved, loads back unchanged and does not take the reset path. So, by `Storage.LoadState`, history is untouched. |
| `FeedingStorage.LoadSaveLoadStable` | src/lib/storage.ts:47-62 | Saving the loaded state and loading again at the same hour gives the same state with no second reset. |
| `FeedingStorage.Capped` | src/lib/storage.ts:102-105 | Keeps the first (newest) `min(50, n)` records in order. |
| `FeedingStorage.Prepend` | src/lib/storage.ts:107-111 | The new record is at the head. The length is `min(50, n+1)`. The rest is the newest part of the old list, so the oldest records are evicted first. |
| `FeedingStorage.FirstMatch` | src/lib/storage.ts:114-115 | Nothing is found exactly when no record has that slot and date. Otherwise the index holds a match and no earlier record matches. |
| `FeedingStorage.Removed` | src/lib/storage.ts:113-119 | With no match, the list is unchanged. Otherwise the length drops by one: the records before the first match stay, and those after it move up by one. |
| `FeedingStorage.RemovedOnlyNewestMatch` | src/lib/storage.ts:113-119 | Removal takes out exactly the newest matching record. The other matching records keep their order, all non-matching records keep their order, and the multiset loses just that record. |
| `FeedingStorage.ArchiveRecord` | src/lib/storage.ts:72-78 | The archived record takes its slot from the slot key and its date from the state's own date. Its caretaker and timestamp are the status's. |
| `FeedingStorage.PreserveArchivesOnlyNewCompleted` | src/lib/storage.ts:64-90 | Archiving either writes nothing, or puts one record in front of the newest part of the old list. That record is a completed slot's, dated with the state's date, and its key was not in the history yet. `PreserveWritesIffPending` gives the other direction: nothing is written only when no slot has a new completed record. |
| `FeedingStorage.PreserveWritesIffPending` | src/lib/storage.ts:70-89 | Archiving writes the stored history exactly when some slot has a completed record whose key is not in the history yet. |
| `FeedingStorage.PreserveArchivesSingleNew` | src/lib/storage.ts:70-89 | When exactly one slot has a new completed record, that record is stored in front of the history as loaded, capped at 50. |
| `FeedingStorage.PreserveSkipsArchived` | src/lib/storage.ts:80-87 | When every completed slot's key is already in the history, archiving leaves the stored history unchanged. |
| `FeedingStorage.PreserveKeepsOnlyLastRecord` | src/lib/storage.ts:64-90 | When both slots have a new completed record, the stored history is the evening record in front of the list as loaded. The morning record is not in it. |
| `FeedingStorage.PreserveSecondRunRestores` | src/lib/storage.ts:50-54 | Archiving the same state again (the next load) puts the morning record in front. Both records are then stored, and a third run changes nothing. |
| `FeedingStorage.BlankArchivesNothing` | src/lib/storage.ts:70-78 | A blank day has nothing to archive. |
| `FeedingStorage.Storage.SaveState` | src/lib/storage.ts:92-95 | The stored state becomes the given state. The history is unchanged. |
| `FeedingStorage.Storage.LoadHistory` | src/lib/storage.ts:97-100 | Returns the stored list, or the empty list when it is absent or unparseable. |
| `FeedingStorage.Storage.PersistHistory` | src/lib/storage.ts:102-105 | The stored history becomes the capped list. The state is unchanged. |
| `FeedingStorage.Storage.AddHistoryRecord` | src/lib/storage.ts:107-111 | Returns `Prepend(record, records)` and stores exactly that list. The state is unchanged. |
| `FeedingStorage.Storage.RemoveHistoryRecord` | src/lib/storage.ts:113-119 | Returns `Removed(...)`. With no match it writes nothing. Otherwise it stores the result, capped at 50. The state is unchanged. |
| `FeedingStorage.Storage.PreserveTodayRecords` | src/lib/storage.ts:64-90 | The loop over morning then evening leaves the stored history equal to `PreservedHistory` of the old stored history. The state is unchanged. |
| `FeedingStorage.Storage.LoadState` | src/lib/storage.ts:47-62 | Returns `LoadedState` of the stored value and leaves the stored state alone. It archives into the history only on the reset path and otherwise leaves the history unchanged. |
| `FeedingStorage.Storage.SaveThenLoad` | src/lib/storage.ts:47-95 | Saving a complete state of today and then loading returns that state, and the history is left as it was. |
| `FeedingStorage.Storage.ManualReset` | src/lib/storage.ts:121-125 | Returns today's blank day and stores it as the state. The history is unchanged, so nothing is archived. |

## Left out

- The `isBrowser` guard (src/lib/storage.ts:7): only the case with a browser store present is modelled.
- Wall-clock reading: `todayId()` and `getHours()` are inputs `today` and `hour`. The source derives the day id from UTC and the hour from local time. The model keeps them independent and does not relate them. The unused `storedDate` and local `today` are dropped.
- JSON encoding: stringify followed by parse is taken as the identity on the modelled values. A failed parse is `Unparseable`, and an empty string counts as `Absent`.
- Stored text that parses to something other than a state object is not modelled. Examples are `null` and an object without `date` or `slots`, or with a `null` slot. On these the source would throw or compare `undefined`, so the model's stored state is always a `State`.
- History text that parses to something other than an array is not modelled. Examples are `null` and `{}`. On these the source throws in `history.some` (src/lib/storage.ts:81) or in the spread (src/lib/storage.ts:108). The model's stored history is always a list of records.
- On the reset path, a stored object with no `slots` key makes `Object.entries` throw in the source. The model treats it as an object whose two slots are missing.
- Storage.PreserveTodayRecords: visits morning before evening, the key order of every object the app writes. A hand-edited stored object with the keys the other way round would keep the morning record instead.
- Extra fields a stored object may carry, which the spread in `loadState` would keep, are not modelled.
- Write failures of the store, such as a full quota, are not modelled. Every write succeeds.
- The rest of the repository is not part of this model. `src/lib/reset-test.ts` is a logging demo. `src/lib/copy.ts` is text tables. `src/svelte.d.ts` is a type shim. The `Database` row types in `src/lib/types.ts` have no behaviour.
