# Stream-tracking engine of the RxJS playground

This project models the tracking engine of the RxJS playground
(`src/Model/Tracking.ts`). The engine evaluates each user-defined group on
its own virtual clock. It records what the group's stream emits as histories
of timed events. Each event is stamped from one process-wide id counter. A
group may read the histories of the groups placed before it, by name.

Modules, in dependency order:

- `Wrappers`: `Option` and `Result`.
- `Streams`: a source stream as a finite trace on the virtual clock. Each
  item is a value or an inner stream (`Trace`). The trace ends by
  completing, by failing, or not at all. A trace also says how many of its
  leading emissions, and whether its ending, arrive on subscription itself;
  `Synchronous` cuts a trace to that part, which is all a subscriber sees
  when the clock is never flushed. `WellTimed` states that the clock never
  runs backwards and that what arrives on subscription arrives at the
  subscription time.
- `Histories`: `Event`, `History` and nested histories. `EventCounter` is
  the class behind the static `TrackingEvent.id`, shared by every group and
  every run. This module also holds the predicates `Capped`,
  `Chronological` and `StampedAt`, the creation-order id list `Ids`, and `Shift`, which
  offsets every id.
- `Recording`: `Record`, the tracker as a function of the trace, the
  subscription time and the counter value. It carries the lemmas on the
  cap, timing, ids and determinism.
- `Visibility`: the `visibleObservables` scan (sort by position, stop at the
  group itself, `Map.set` for each group that has a result) and the `get`
  lookup.
- `Tracking`: the `TrackingGroup` class. Its `Track` method records into
  the shared counter, and its `Observables` method is the `observables`
  getter. Both are proved equal to the functions `Record` and `Evaluate`.
  The lemmas here cover containment, the result list, ids within a run and
  across runs, and determinism.

On these points the model follows the code exactly:

- `take(100)` comes before the recording `tap`. So the 100th item completes
  the tracked stream, and `endTime` becomes that item's time. A truncated
  history therefore has an end (`CapCompletes`). It is not left open.
- Visibility is gated only by the presence of a group's resulting history.
  Disposal is not checked in the scan. Whether a disposed group still
  reports a result is decided by the registry, which is an input here.
- Nested histories are named `"test"`.

## Model

| member | source | states |
|---|---|---|
| Streams.Synchronous | src/Model/Tracking.ts:68-77 | what a stream delivers when the clock is not flushed: its leading synchronous emissions, inner streams cut the same way, and its ending only if that is synchronous too |
| Streams.SynchronousIdempotent | src/Model/Tracking.ts:68-77 | cutting a stream to what it delivers on subscription twice is the same as cutting it once |
| Histories.EventCounter.NewEvent | src/Model/Tracking.ts:22-26 | a new event takes the counter's current value as its id and the counter goes up by one |
| Histories.EventCounter.constructor | src/Model/Tracking.ts:23 | the process-wide counter starts at 0 |
| Recording.Record | src/Model/Tracking.ts:104-136 | tracking never moves the id counter backwards |
| Recording.RecordUpTo | src/Model/Tracking.ts:110-130 | the first k items give exactly k events, and the counter does not go back |
| Recording.RecordItem | src/Model/Tracking.ts:113-129 | recording one item consumes at least one id (an inner stream also consumes its own) |
| Recording.RecordShape | src/Model/Tracking.ts:104-136 | name and start as given; one event per item that passed `take(100)`, at the item's time; a plain value as data, or a fresh nested history named "test" that starts at the emission time; `endTime` is the 100th item's time, else the completion time, else none |
| Recording.RecordSynchronous | src/Model/Tracking.ts:104-136 | tracking a stream whose clock is never flushed gives at most as many events as it emits on subscription and an end only on completion or the cap then; a stream that emits nothing on subscription gives an empty open history and consumes no id |
| Recording.RecordSynchronousAt | src/Model/Tracking.ts:104-136 | with the clock never flushed, every event recorded for a well-timed stream, nested ones included, and its end lie at the subscription time, and nested histories start then |
| Recording.CapCompletes | src/Model/Tracking.ts:110-133 | a source with 100 or more items gives exactly 100 events, and the history ends at the 100th item |
| Recording.RecordCapped | src/Model/Tracking.ts:110-125 | no history, nested ones included, holds more than 100 events |
| Recording.RecordChronological | src/Model/Tracking.ts:109-133 | on a clock that never runs backwards: event times are at or after the start and non-decreasing; the end comes after every event; each nested history starts at its emission time |
| Recording.RecordIds | src/Model/Tracking.ts:115-129 | the ids of a tracked stream, nested events included, are exactly the consecutive counter values consumed, in creation order; so they are distinct and increasing |
| Recording.RecordShift | src/Model/Tracking.ts:104-136 | recording from another counter value gives the same history, with every id moved by the same offset |
| Recording.ThreeValuesThenComplete | src/Model/Tracking.ts:109-133 | 1, 2, 3 emitted at time 0 and then completed give three time-0 events with consecutive ids, start 0 and end 0 |
| Visibility.SortByPosition | src/Model/Tracking.ts:32-34 | the registry's indices, each exactly once, strictly ordered by position key; equal keys keep registry order |
| Visibility.Position | src/Model/Tracking.ts:38-41 | the index where the scan breaks: the first occurrence of the group itself, or the end when it is absent |
| Visibility.VisibleObservables | src/Model/Tracking.ts:30-47 | the scan's map equals `Visible`: entries from the groups before the break, a later entry overwriting an earlier one |
| Visibility.Walk | src/Model/Tracking.ts:36-46 | the loop over the sorted indices, with its `break` at the group itself and a map update for each group that has a result, yields the map collected from the indices before the first occurrence of the group |
| Visibility.VisibleKeys | src/Model/Tracking.ts:38-44 | a name is visible iff a group strictly before the current one carries it and has a resulting history; the group itself and later groups never are |
| Visibility.VisibleNearest | src/Model/Tracking.ts:42-44 | the visible history for a name belongs to the nearest earlier group with that name; every other such group precedes it |
| Visibility.Lookup | src/Model/Tracking.ts:140-147 | `get` returns the visible history iff the name is visible; otherwise it fails with the message naming the observable, never an empty result |
| Visibility.LookupFailsUnlessUpstream | src/Model/Tracking.ts:138-148 | `get(name)` fails, naming `name`, exactly when no earlier group that has a result carries that name |
| Tracking.ResolveAll | src/Model/Tracking.ts:140-147 | a definition's reads of its dependencies succeed iff all names are visible, yielding their histories in order; otherwise they fail with the error for the first missing name |
| Tracking.TrackingGroup.GetObservable | src/Model/Tracking.ts:172-178 | a definition that reads a missing name throws; otherwise it is called on the visible histories it names |
| Tracking.TrackingGroup.constructor | src/Model/Tracking.ts:180-183 | a new group keeps its definition, shares the given counter and is not disposed |
| Tracking.TrackingGroup.Track | src/Model/Tracking.ts:104-136 | the history built by assigning `startTime`, pushing events and setting `endTime` equals `Record`, and the shared counter ends at `Record`'s next id |
| Tracking.TrackingGroup.TrackAll | src/Model/Tracking.ts:94-99 | tracking a sequence of subscriptions one by one, each history put in front of the list, gives `RecordSubscriptions`' list and counter |
| Tracking.TrackingGroup.Observables | src/Model/Tracking.ts:49-80 | the result list, outcome and counter equal `Evaluate` of the group's state, its registry view and the counter on entry; on the `{error}` and throw branches the streams tracked during construction are tracked without a flush |
| Tracking.NameOf | src/Model/Tracking.ts:87-92 | a string name is used as given and a missing name becomes `""`; every tracked history carries the normalised name (`TrackedAs` in `RunHistories`) |
| Tracking.RecordSubscriptions | src/Model/Tracking.ts:94-99 | k subscriptions give k histories and the counter does not go back; `HarvestRecords` and `HarvestTracked` state that history n is the recording of the n-th most recent subscription, from its own time |
| Tracking.Construct | src/Model/Tracking.ts:63-67 | the first dependency that is not visible makes the definition throw that name's lookup error before it subscribes anything; otherwise the definition is called on the visible histories, in the order it reads them |
| Tracking.Evaluate | src/Model/Tracking.ts:50-79 | a disposed group yields `[]` with the counter unchanged; the run completes (`Ran`) iff the group is not disposed and its definition builds a stream; the counter never goes back |
| Tracking.ReportedHistoriesAreSynchronous | src/Model/Tracking.ts:68-79 | with no flush on the `{error}` branch, each returned history holds no more events than its stream emits on subscription, and has an end only if the stream completes on subscription or reaches the cap then; for a well-timed stream, every event in it, nested ones included, and its end are at frame 0, since the clock never moves |
| Tracking.ScheduledStreamBeforeErrorStaysEmpty | src/Model/Tracking.ts:68-79 | a stream emitting at frame 5 and completing at frame 7, tracked before an `{error}` result, is returned with no events and no end, and no id is consumed |
| Tracking.RunPipeline | src/Model/Tracking.ts:70-72 | a built stream gives one history per subscription made during construction, one for the root and one per subscription through the root's pipeline, and the counter never goes back |
| Tracking.Containment | src/Model/Tracking.ts:50-80 | disposed gives `[]` without evaluating and consumes no id; an `{error}` value still returns the histories of the streams the definition tracked while it ran, most recent first, each started at clock time 0 and recording only what its stream emits on subscription (no flush); an exception returns `[]`; when every such stream emits nothing on subscription, neither consumes an id and every returned history is empty and open |
| Tracking.MissingDependencyFails | src/Model/Tracking.ts:62-77 | if the first dependency read is not provided upstream, the run yields `[]` with the error naming it |
| Tracking.RunHistories | src/Model/Tracking.ts:71-97 | the root history is named after the group, starts at clock time 0 and is recorded after every stream tracked during construction; after it in the list come the histories tracked during construction, and before it those subscribed through the root's pipeline, each most recent subscription first; nested histories are not in the list; all respect the cap |
| Tracking.RunIdsAreConsecutive | src/Model/Tracking.ts:22-24 | all ids of one run, across its histories and their nested ones, are exactly the consecutive counter values from the start of the run to its end, except that a thrown exception returns no histories while the ids taken before it stay consumed |
| Tracking.LaterRunsHaveLargerIds | src/Model/Tracking.ts:22-24 | each id of a run that starts at or after the counter value an earlier run left, of any group and with any runs in between, exceeds each id of the earlier run |
| Tracking.EvaluateShift | src/Model/Tracking.ts:49-80 | re-running with the same definition and the same upstream histories gives the same outcome and histories, up to one uniform id offset |
| Tracking.DisposedDependencyFails | src/Model/Tracking.ts:138-147 | once group "A" no longer has a result, group "B" reading "A" fails with the lookup error naming "A"; B's earlier result is not reused |

## Left out

- RxJS is outside the model: the `VirtualTimeScheduler`, `defer`, `take`, `tap`, `isObservable` and the `maxFrames` horizon. A source is a finite trace of notifications already placed on the virtual clock. Which leading notifications arrive on subscription itself, before any flush, is part of the trace (`sync`, `endsSync`) and is an input, not derived from RxJS operators. When a stream is built, flushing the clock is the pass over the whole trace. On the `{error}` and throw branches the clock is never flushed, and only the part delivered on subscription (`Synchronous`) is recorded.
- Event ids are assigned depth-first. An inner stream's events all take their ids before the event that carries it. This matches the scheduler for inner streams that emit synchronously on subscription. For asynchronous inner streams, the interleaving of their ids with later outer events is not captured. For the same reason, the streams a definition tracks are recorded one after another and not interleaved in clock order: first those it subscribes while it is being called, then the root, then those subscribed through the root's pipeline.
- Histories are values, not mutable objects. The source mutates a nested history object after it is already attached to its event (update in place and aliasing). The model instead completes the nested history before the carrying event is created.
- An error notification (`Fails`) leaves `endTime` unset, like a stream that never completes. How RxJS reports that error on the console is not part of this model.
- An exception thrown during subscription or flush is folded into the definition throwing (`Raises`). The ids a partially flushed run would consume are not modelled. The result is `[]` either way.
- A definition reads its dependencies eagerly, in a fixed order, before it builds its stream. A definition that reads lazily during the flush, or catches the lookup error itself, is not modelled.
- Replaying a history on the new clock (`asObservable` in `ObservableGroups`) is not part of this model. A definition receives the visible histories themselves.
- `ObservableGroups`, `sortByNumericKey` and `getPositionSortKey` are not part of this model. Each group's position key, name and resulting history are inputs. The sort is modelled as a stable ascending numeric sort. Group identity (`g.g === this`) is the group's index in the registry.
- The dynamic properties that `Object.defineProperty` adds to the dependency view are not modelled. Only the `get(name)` accessor is. In the source, a visible group named `"get"` makes that code replace `get` itself with an accessor that calls itself, so every read through the dependency view throws a `RangeError`. `Lookup` and `ResolveAll` do not capture this case.
- Tracking.Evaluate: the `{error}` branch is taken for any returned object that has an `error` member, because the source tests only for that member. A returned `Subject` (which has an `error` method) is therefore an `ErrorValue` here and not a `Pipeline`. The model takes the definition's outcome as an input and does not decide this itself.
- mobx `@computed` and `@observable` memoisation and reactivity are not modelled. Each getter is a plain recomputation.
- `console.log` and `console.error` are modelled only as the run's `Outcome` (`Skipped`, `Reported`, `Caught`).
- A name given as a function is evaluated once, when the history is recorded. The source re-reads it on every access, so a later rename of the group changes the root history's name there.
- The abstract `reset` of `TrackingObservableGroup` is not part of this model.
- Times are unbounded integers and position keys are reals. JavaScript numbers are doubles; rounding is not modelled.
