# Slot-machine reel manager, modelled in Dafny

This project models `ReelManager`, the component of a three-reel slot machine
that starts every reel, stops reels 0, 1 and 2 one after another with a fixed
delay of 250 timer units between the stop signals, waits until all three have
settled, and then checks for a "victory": a symbol identifier visible on every
reel.

- `intersection.dfy` (module `Intersection`) specifies the common-symbol
  computation. `Distinct` is the contents of a JavaScript `Set` built from an
  array (distinct values in insertion order). `Retain` is `filter(item =>
  set.has(item))`. `CommonElements` is the specification: the distinct values
  of the first array, in first-occurrence order, that occur in every array. The
  lemmas prove membership, absence of duplicates, order, the empty cases,
  independence of the order of the reels, and the facts about the running value
  that the loop needs.
- `reels_manager.dfy` (module `Reels`) holds the class `ReelManager`. Its fields
  are the reels, the `spinning` flag, the pending stop handles, the pending
  symbol queries and a ghost `trace`. Every call into a reel, the timer or a
  join is appended to `trace` as an `Event` in program order. The awaits are
  therefore sequential steps, with no real concurrency. The loop
  `FindCommonElements` is proved equal to `CommonElements`.
- `scenarios.dfy` (module `Scenarios`) gives concrete reel outcomes and call
  sequences that follow from the contracts.

The reels' active symbols are an input of `StopSpin` and `CheckVictory`, one
sequence per reel. The victory report is the `Outcome` value `Victory(symbols)`
or `NoMatch`. It is returned by `CheckVictory` and recorded as the last trace
event. It does not go to a console.

The flag `_spinning` is never set by the constructor. It starts undefined,
which is falsy, so the model starts it at `false`. The handle arrays
`_promises` and `_activeSymbolPromises` also start undefined. They are modelled
as `stopHandles` and `symbolQueries` and start empty.

The code hard-codes reels 0, 1 and 2 in `stopSpin` and `checkVictory`; the
model follows the code: those two operations need at least three reels and use
only the first three. `StopSpin` needs them only when a spin is in progress,
because its idle path touches no reel.

## Model

| member | source | states |
|---|---|---|
| `Intersection.Distinct` | src/reels/reelsManager.js:100 | the set built from an array has exactly the array's values and no repeats |
| `Intersection.DistinctFirstOccurrenceOrder` | src/reels/reelsManager.js:100 | a set built from an array lists its values in the order of their first occurrence in the array |
| `Intersection.Retain` | src/reels/reelsManager.js:108 | filtering by set membership keeps exactly the elements in the set, and keeps a duplicate-free input duplicate-free |
| `Intersection.RetainKeepsOrder` | src/reels/reelsManager.js:108 | filtering keeps the first-occurrence order of its input |
| `Intersection.DistinctOfNoDuplicates` | src/reels/reelsManager.js:108 | rebuilding a set from the filtered, already distinct values changes nothing |
| `Intersection.RetainTwice` | src/reels/reelsManager.js:103-108 | filtering by one set and then another equals filtering once by their intersection |
| `Intersection.RunningStart` | src/reels/reelsManager.js:100 | the seed set from the first array is the running intersection of the one-array prefix |
| `Intersection.RunningStep` | src/reels/reelsManager.js:103-108 | one loop iteration turns the running intersection of a prefix into that of the prefix one array longer |
| `Intersection.RunningShrinks` | src/reels/reelsManager.js:103-112 | the running set only shrinks: a value kept for a longer prefix was kept for every shorter one |
| `Intersection.RunningEmptyStaysEmpty` | src/reels/reelsManager.js:111 | once the running set is empty the final result is empty, so the early return gives the same answer as finishing the loop |
| `Intersection.CommonElementsMembers` | src/reels/reelsManager.js:97-114 | a value is in the result exactly when there is at least one array and the value occurs in every array |
| `Intersection.CommonOfNoArrays` | src/reels/reelsManager.js:97 | no arrays give an empty result |
| `Intersection.CommonWithAnEmptyArray` | src/reels/reelsManager.js:100-111 | one empty array among the inputs gives an empty result |
| `Intersection.CommonElementsOrder` | src/reels/reelsManager.js:100-114 | the result has no duplicates and follows the first-occurrence order of the first array |
| `Intersection.CommonElementsOrderIndependent` | src/reels/reelsManager.js:100-114 | reordering the arrays does not change which values are common |
| `Reels.ReelManager.FindCommonElements` | src/reels/reelsManager.js:96-115 | the loop, with its early return on an empty running set, returns exactly `CommonElements(arrays)` |
| `Reels.Verdict` | src/reels/reelsManager.js:79-85 | the report is a victory exactly when some symbol occurs on every reel; a victory lists each common symbol once and nothing else |
| `Reels.ReelManager.CheckVictory` | src/reels/reelsManager.js:71-87 | queries reels 0, 1, 2, joins the queries and reports `Verdict` of their active symbols; leaves `spinning` and the reels unchanged |
| `Reels.StartEvents` | src/reels/reelsManager.js:37-39 | the start signals are one per reel, reel i at position i |
| `Reels.StartEventsStartEachReelOnce` | src/reels/reelsManager.js:37-39 | each reel is started exactly once and no other event is produced |
| `Reels.ReelManager.StartSpin` | src/reels/reelsManager.js:32-41 | while spinning: no reel call and no state change; from idle: `spinning` becomes true and every reel is started once, in index order |
| `Reels.ReelManager.StopSpin` | src/reels/reelsManager.js:48-64 | while idle: no collaborator call and no state change; while spinning: stop reel 0, wait 250, stop reel 1, wait 250, stop reel 2, join, victory check, then `spinning` is false on both outcomes |
| `Reels.ReelManager.constructor` | src/reels/reelsManager.js:19-27 | stores the parameters, creates the reels and starts idle with an empty trace |
| `Reels.ReelManager.CreateReels` | src/reels/reelsManager.js:149-156 | appends one reel per requested reel (none for a negative count), each built with the symbols-per-reel and symbol-height parameters |
| `Scenarios.CommonOfOverlappingReels` | src/reels/reelsManager.js:96-115 | reels showing [1,2,3], [2,3,4], [2,5,6] have exactly [2] in common |
| `Scenarios.CommonOfDisjointReels` | src/reels/reelsManager.js:96-115 | reels showing [1,2], [3,4], [5,6] have nothing in common |
| `Scenarios.CommonOfRepeatedSymbol` | src/reels/reelsManager.js:96-115 | reels showing [7,7,8], [7,9], [7] have [7] in common, reported once |
| `Scenarios.StartSpinTwice` | src/reels/reelsManager.js:32-41 | two starts without a stop in between start every reel exactly once |
| `Scenarios.SpinCycle` | src/reels/reelsManager.js:32-64 | a start and a stop from idle produce the start signals, the staggered stop, the victory check, and leave the manager idle again |

## Left out

- Scene-graph work: the container, the mask and its scale factors, and each reel's `x` position are rendering with an external library. Only the count and the construction parameters of the reels are modelled.
- The internals of a reel are not part of this model. Starting, stopping and querying a reel only record an event. The symbols a reel shows are an input.
- Real timing and promise scheduling are not modelled. The timer and the joins are ordered `Wait`, `JoinStops` and `JoinQueries` events, with no clock.
- Overlapping `stopSpin` calls are not modelled. Neither is an interleaved `startSpin` during an await of `stopSpin`, nor a rejected stop or query. Each method runs to completion. The code has no guard against re-entry and does not reset `spinning` on failure. The model neither adds those nor shows what happens without them.
- Fewer than three reels during a stop: the code would fail on the missing reel and leave `spinning` true. The model requires three reels there instead.
- `Reels.ReelManager.CheckVictory`: the console message is replaced by the returned and traced `Outcome`.
- The `Base` superclass is not part of this model.
- The reel count is taken as an integer. A fractional count or `NaN`, which the JavaScript loop also accepts (2.5 gives 3 reels, `NaN` gives none), is not modelled.
- `Reels.ReelManager.CreateReels` is private in the source and runs once, from the constructor. Dafny has no private methods, so the model relies on it being called only there; a second call would add more reels, which the source never does.
