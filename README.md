# Default touch processor, modelled in Dafny

react-native-game-engine turns raw touch events from the host into game
input through `src/DefaultTouchProcessor.js`. The factory takes two options
(`triggerPressEventBefore`, default 200; `triggerLongPressEventAfter`,
default 700) and the caller's `touches` array. It returns an object with
`process(type, event)` and `end()`. Every event fed in appends records to
`touches`:

- a `start` record for each start;
- a `move` record with a field-wise `delta` whenever the previous event of
  the same identifier exists and was not an end;
- an `end` record for each end;
- a `press` record carrying the end event, when the end arrives before the
  press window after its start closes;
- a `long-press` record carrying the start event, when the long-press
  delay passes with no move or end of that identifier.

The project models the source in three layers:

- **`TouchEngine`** (`engine.dfy`) describes the whole processor as a pure
  state machine over an `Engine` value:
  - the output list;
  - the previous event per identifier, standing in for `groupBy` and
    `pairwise`;
  - the pending press and long-press races, each a start event with a due
    time;
  - a logical clock;
  - a disposed flag.

  `Step`, `Dispatch`, `Advance` and `Teardown` are the transitions. `Inv` is
  the invariant they keep. One part of it is per-identifier accounting: the
  press records plus the pending press races of an identifier never exceed
  its start records, and the same holds for long-presses.
- **`DefaultTouchProcessor.TouchProcessor`** (`processor.dfy`) is the object
  the factory returns. It is a class whose fields are those parts of the
  state. Its methods update them in place, and each method is proved equal
  to the pure transition. So everything proved about `Engine` holds for the
  object.
- **`Traces`** (`traces.dfy`) and **`Scenarios`** (`scenarios.dfy`) work on
  whole call sequences:
  - an `Input` is `Feed(type, event)`, `Wait(dt)` (the clock moves forward)
    or `Stop` (`end()`);
  - `Run` replays a sequence of inputs;
  - the lemmas state the timing behaviour of both races over every such
    sequence, and the exact output of the typical gestures.

Supporting modules:

- `TouchEvents` (`touch_events.dfy`): events, records, the `switch` on the
  type string, and the move delta.
- `Races` (`races.dfy`): pending races and the order-preserving selection
  that every resolution or cancellation of races uses.

How time is handled:

- Timers run on a logical clock. `Wait(dt)` / `AdvanceBy(dt)` moves it.
- A press race whose deadline is reached expires before an end fed at
  that time is seen, so an end exactly at the deadline gives no press.
- A long-press due at time t fires only once the clock moves past t, so a
  move or end at exactly t cancels it.
- Within one end, the `end` record precedes the `press` record, matching the
  order in which the subscribers were attached.

## Model

| member | source | states |
|---|---|---|
| TouchEvents.ParseKind | src/DefaultTouchProcessor.js:129-141 | `"start"`, `"move"` and `"end"` select their stream; no other string selects one (both directions) |
| TouchEvents.Diff | src/DefaultTouchProcessor.js:65-71 | the move delta is the field-wise difference: shifting the previous event by it gives the current event |
| TouchEvents.DiffOfShift | src/DefaultTouchProcessor.js:65-71 | the converse: the delta between an event and its shift by `d` is `d`, so the delta is unique |
| Races.Select | src/DefaultTouchProcessor.js:10-25 | selecting pending races keeps exactly the races that pass the test, never more than there were |
| Races.SelectSplit | src/DefaultTouchProcessor.js:10-25 | a test and its negation split the pending races between them |
| Races.WithoutId | src/DefaultTouchProcessor.js:12 | cancelling the races of one identifier leaves every other identifier's races exactly as they were |
| Races.SplitCountOf | src/DefaultTouchProcessor.js:13 | splitting races by due time keeps each identifier's number of races |
| TouchEngine.MoveRecords | src/DefaultTouchProcessor.js:59-73 | a move record appears iff the identifier has a previous event that was not an end; it carries the move event and the delta from that previous event |
| TouchEngine.PressRecords | src/DefaultTouchProcessor.js:94-109 | one press record per winning race, each carrying the end event and its identifier |
| TouchEngine.LongPressRecords | src/DefaultTouchProcessor.js:111-126 | one long-press record per fired race, in order, each carrying that race's start event |
| TouchEngine.Initial | src/DefaultTouchProcessor.js:4-31 | the factory's state: the caller's list as it stands with nothing appended, the configured times, nothing remembered, no race pending, not disposed |
| TouchEngine.Dispatch | src/DefaultTouchProcessor.js:129-141 | `process`: a known type string performs exactly its kind's step; any other string leaves the state unchanged |
| TouchEngine.Step | src/DefaultTouchProcessor.js:33-126 | one event only appends to the output and leaves clock, configuration and disposed flag unchanged; once disposed it changes nothing; otherwise the event, with its kind, becomes its identifier's previous event (`groupBy` + `pairwise`, :57-59) and every other identifier's previous event stays |
| TouchEngine.Advance | src/DefaultTouchProcessor.js:13-19 | moving the clock only appends, advances the clock by exactly `dt` and leaves every identifier's previous event as it was |
| TouchEngine.Teardown | src/DefaultTouchProcessor.js:142-152 | `end()` keeps the output, sets disposed and empties both race lists |
| TouchEngine.InitialInv | src/DefaultTouchProcessor.js:4-31 | the freshly built processor satisfies the invariant |
| TouchEngine.StartInv | src/DefaultTouchProcessor.js:10-48 | a start keeps the invariant: its start record pays for the two races it opens |
| TouchEngine.MoveInv | src/DefaultTouchProcessor.js:16-25 | a move keeps the invariant |
| TouchEngine.EndInv | src/DefaultTouchProcessor.js:81-109 | an end keeps the invariant: each press record it appends consumes a pending press race |
| TouchEngine.StepInv | src/DefaultTouchProcessor.js:33-126 | every known event keeps the invariant |
| TouchEngine.DispatchInv | src/DefaultTouchProcessor.js:129-141 | `process` keeps the invariant for every type string |
| TouchEngine.AdvanceInv | src/DefaultTouchProcessor.js:13-19 | moving the clock keeps the invariant: each long-press record consumes a pending long-press race |
| TouchEngine.TeardownInv | src/DefaultTouchProcessor.js:142-152 | `end()` keeps the invariant |
| TouchEngine.UnknownTypeIsNoOp | src/DefaultTouchProcessor.js:130-140 | a type string other than the three names changes nothing |
| TouchEngine.StartOpensRaces | src/DefaultTouchProcessor.js:10-48 | a start appends its start record and opens a press race due `pressBefore` later and a long-press race due `longPressAfter` later |
| TouchEngine.MoveRecordExactly | src/DefaultTouchProcessor.js:50-79 | a move appends exactly one record iff a non-end previous event exists; the record's delta leads from that event to the move; press races stay; no long-press race of that identifier survives |
| TouchEngine.EndResolvesRaces | src/DefaultTouchProcessor.js:81-109 | an end appends its end record, then one press record per pending press race of its identifier; no race of that identifier survives |
| TouchEngine.OtherIdentifiersUnaffected | src/DefaultTouchProcessor.js:12 | an event of one identifier leaves every other identifier's races and previous event untouched, and appends records of its own identifier only |
| TouchEngine.EndRecordsCarryId | src/DefaultTouchProcessor.js:86 | every record an end appends carries the end's identifier |
| TouchEngine.AdvanceFiresLongPresses | src/DefaultTouchProcessor.js:16-19 | every long-press race due before the new time fires: it leaves the pending list and its long-press record, carrying the start event, is appended |
| TouchEngine.AdvanceKeepsRaces | src/DefaultTouchProcessor.js:13-19 | after the clock moves, a long-press race stays iff it is not due before the new time; a press race stays iff its deadline is after it; only long-press records are appended |
| TouchEngine.AdvanceQuiet | src/DefaultTouchProcessor.js:16-19 | while no long-press is due before the new time, moving the clock appends nothing and keeps every long-press race |
| TouchEngine.NothingAfterTeardown | src/DefaultTouchProcessor.js:142-152 | after `end()`, `process` changes nothing and moving the clock appends nothing |
| TouchEngine.TeardownIdempotent | src/DefaultTouchProcessor.js:142-152 | calling `end()` twice is the same as calling it once |
| Traces.Apply | src/DefaultTouchProcessor.js:129-152 | any call only appends to the output and moves the clock by its wait |
| Traces.FeedIsStep | src/DefaultTouchProcessor.js:129-141 | feeding a kind's type string performs that kind's step |
| Traces.ApplyInv | src/DefaultTouchProcessor.js:129-152 | every call keeps the invariant |
| Traces.RunInv | src/DefaultTouchProcessor.js:129-152 | every sequence of calls keeps the invariant |
| Traces.RunAppendOnly | src/DefaultTouchProcessor.js:38 | the output only grows: earlier records are never changed |
| Traces.RunClock | src/DefaultTouchProcessor.js:13-19 | the clock moves by exactly the sum of the waits |
| Traces.NothingAfterStop | src/DefaultTouchProcessor.js:142-152 | after `end()`, no sequence of calls or waits appends anything |
| Traces.SilentWhenDisposed | src/DefaultTouchProcessor.js:142-152 | a disposed processor appends nothing, whatever it is fed |
| Traces.RunConcat | src/DefaultTouchProcessor.js:129-152 | running two call sequences one after the other is running their concatenation |
| Traces.AddedConcat | src/DefaultTouchProcessor.js:38 | the records appended across two spans are those of the first span followed by those of the second |
| Traces.StepIgnoresTouches | src/DefaultTouchProcessor.js:38-126 | an event never reads the output list: with any other list in its place, the step appends the same records and reaches the same state otherwise |
| Traces.AdvanceIgnoresTouches | src/DefaultTouchProcessor.js:111-126 | the clock moving never reads the output list: with any other list in its place, the same long-press records are appended |
| Traces.ApplyIgnoresTouches | src/DefaultTouchProcessor.js:129-152 | no call reads the output list: with any other list in its place, the call appends the same records and reaches the same state otherwise |
| Traces.RunIgnoresTouches | src/DefaultTouchProcessor.js:129-152 | over any call sequence, what is appended and the final state never depend on what the output list held before |
| Traces.ApplyAdds | src/DefaultTouchProcessor.js:33-126 | start records come only from a start of that identifier, press records only from an end of it, long-press records only from the clock moving |
| Traces.ApplyOpensNoRace | src/DefaultTouchProcessor.js:10-25 | only a start of an identifier opens races for it |
| Traces.RunOpensNoRace | src/DefaultTouchProcessor.js:10-25 | over any sequence without a start of `i`, every race of `i` was already pending |
| Traces.RunNoEndNoPress | src/DefaultTouchProcessor.js:10-14 | without an end of `i`, no press record of `i` is appended |
| Traces.RunNoRaceNoPress | src/DefaultTouchProcessor.js:10-14 | with no pending press race of `i` and no start of `i`, no press record of `i` is appended |
| Traces.NoRaceOf | src/DefaultTouchProcessor.js:10-14 | if no race of `i` was pending and no new one was opened, none is pending |
| Traces.ApplyKeepsPress | src/DefaultTouchProcessor.js:10-14 | a pending press race survives any call except an end of its identifier, `end()` or the clock reaching its deadline |
| Traces.ApplyKeepsLongPress | src/DefaultTouchProcessor.js:16-25 | a pending long-press race survives any call except a move or end of its identifier, `end()` or the clock passing its fire time |
| Traces.PressRacePending | src/DefaultTouchProcessor.js:10-14 | the press race survives a whole sequence that spares it and stays before its deadline |
| Traces.LongPressRacePending | src/DefaultTouchProcessor.js:16-25 | the long-press race survives a whole sequence that spares it and does not pass its fire time |
| Traces.ApplyKeepsLast | src/DefaultTouchProcessor.js:57-59 | any call other than a start, move or end of `i` and `end()` leaves `i`'s previous event, and whether the processor is disposed, as they were |
| Traces.RunKeepsLast | src/DefaultTouchProcessor.js:57-59 | the same over a whole sequence of such calls |
| Traces.MoveFollowsPrevious | src/DefaultTouchProcessor.js:57-73 | after a start, move or end `e` and any calls sparing its identifier, a move of that identifier appends exactly one move record whose delta is measured from `e` when `e` was not an end, and nothing when it was |
| Traces.ApplyStart | src/DefaultTouchProcessor.js:10-48 | the state right after a start: one start record, and one race of each kind opened at the current time |
| Traces.EndWinsPendingPress | src/DefaultTouchProcessor.js:10-14 | an end of an identifier with a pending press race appends a press record carrying the end event |
| Traces.QuickEndIsPress | src/DefaultTouchProcessor.js:10-14 | a start, then calls that spare its press race and wait less than the press window in total, then an end of the same identifier: a press record carrying the end event is appended |
| Traces.TallyAcross | src/DefaultTouchProcessor.js:38 | record counts add up across consecutive spans |
| Traces.PressWindowElapses | src/DefaultTouchProcessor.js:10-14 | once the press window has elapsed after a start with no end, the start's press race is gone and no press record was appended |
| Traces.LateEndIsNoPress | src/DefaultTouchProcessor.js:10-14 | a start whose end arrives only after the press window has elapsed yields no press record, whatever follows without a new start |
| Traces.ClockFiresPendingLongPress | src/DefaultTouchProcessor.js:16-19 | moving the clock past a pending long-press race's fire time appends its long-press record |
| Traces.UndisturbedHoldIsLongPress | src/DefaultTouchProcessor.js:16-25 | a start with no move or end of its identifier until the clock passes the delay yields a long-press record carrying the start event |
| Traces.RunLongPressQuiet | src/DefaultTouchProcessor.js:16-19 | no long-press record of `i` is appended while none of `i`'s pending long-press races comes due |
| Traces.LongPressHeld | src/DefaultTouchProcessor.js:16-19 | before the delay elapses, a start has produced no long-press record |
| Traces.Interrupt | src/DefaultTouchProcessor.js:20-24 | a move or end of an identifier cancels all its long-press races without appending a long-press record |
| Traces.AfterInterrupt | src/DefaultTouchProcessor.js:20-24 | after that interruption, no long-press record of that identifier is appended until a new start |
| Traces.InterruptedHoldIsNoLongPress | src/DefaultTouchProcessor.js:16-25 | a move or end before the long-press delay means that start yields no long-press record at all |
| Scenarios.MoveDeltaFromStart | src/DefaultTouchProcessor.js:50-79 | from a fresh processor, the first move after a start is measured from the start event: the output is the start record, then the move record with that delta |
| Scenarios.MoveDeltaFromMove | src/DefaultTouchProcessor.js:50-79 | start, move, move: the second move record's delta is measured from the first move, not from the start |
| Scenarios.NoMoveAfterEnd | src/DefaultTouchProcessor.js:57-73 | start, end, move: the output is start, end and press; the move after the end appends no record |
| Scenarios.Tap | src/DefaultTouchProcessor.js:10-14 | start, then an end within 200: the output is start, end and press (carrying the end event), and stays that way afterwards |
| Scenarios.LateRelease | src/DefaultTouchProcessor.js:10-14 | start, then an end at 200 or later (up to 700): the output is start and end only |
| Scenarios.Hold | src/DefaultTouchProcessor.js:16-19 | a held start adds the long-press record (carrying the start event) iff the clock has passed 700 |
| Scenarios.MoveCancelsHold | src/DefaultTouchProcessor.js:20-24 | start, move before 700, end after the press window: the output is start, move (with delta) and end only |
| Scenarios.TwoContacts | src/DefaultTouchProcessor.js:12 | a second contact's tap neither cancels nor resolves the first contact's hold: the output is start, start, end, press, then long-press |
| Scenarios.StoppedIsSilent | src/DefaultTouchProcessor.js:129-152 | an unknown type string appends nothing; after `end()`, neither pending timers nor later events append anything |
| DefaultTouchProcessor.PressBefore | src/DefaultTouchProcessor.js:4 | a missing `triggerPressEventBefore` defaults to 200 |
| DefaultTouchProcessor.LongPressAfter | src/DefaultTouchProcessor.js:4 | a missing `triggerLongPressEventAfter` defaults to 700 |
| DefaultTouchProcessor.TouchProcessor.constructor | src/DefaultTouchProcessor.js:4-31 | the new processor has the defaulted configuration, the caller's output list and nothing pending, and satisfies the invariant |
| DefaultTouchProcessor.TouchProcessor.Process | src/DefaultTouchProcessor.js:129-141 | `process` updates the fields in place exactly as `Dispatch` does and keeps the invariant |
| DefaultTouchProcessor.TouchProcessor.AdvanceBy | src/DefaultTouchProcessor.js:13-19 | the timers' clock moving updates the fields exactly as `Advance` does and keeps the invariant |
| DefaultTouchProcessor.TouchProcessor.End | src/DefaultTouchProcessor.js:142-152 | `end()` updates the fields exactly as `Teardown` does and keeps the invariant |

## Left out

- RxJS itself is not modelled: the subjects, `groupBy`, `mergeMap`,
  `CompositeDisposable` and the schedulers. The model gives the state those
  operators keep and the order in which the subscribers run.
- Real timers are not modelled. Time is a logical integer clock that the
  caller moves with `Wait` / `AdvanceBy`, so a race is resolved when the
  clock moves, not by a scheduler callback.
- Coordinates and timestamps are integers; floating-point arithmetic in the
  delta is not modelled.
- `Object.assign` is not modelled. It stamps a `type` field onto the
  caller's event object; the model keeps that kind beside the event instead
  of mutating it.
- `touches` is modelled as a sequence owned by the processor. Aliasing of
  the caller's array, or other code appending to it, is not captured.
- `DefaultTouchProcessor.TouchProcessor.constructor`: requires both
  configured times to be positive. The source accepts any value, but a zero
  or negative time depends on scheduler details the model does not have.
- In the source, `process` after `end()` throws, because the subjects are
  disposed. The model ignores the call instead.
- The factory throws when called with no options object. This is not
  modelled.
- A second start of an identifier that has not ended opens a second pair of
  races, as the code does. One end then resolves both, appending two press
  records. The model follows the code here; it does not limit presses to one
  per contact.
- A move with no earlier event of its identifier, or right after an end,
  appends nothing, because the composer needs a non-end previous event. An
  end of an unknown identifier still appends its end record.
- Reusing an identifier after an end is safe in the code: the end is
  remembered as the previous event, so a move before the next start gives no
  record, and a new start replaces the remembered event.
