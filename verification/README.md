# Lwt: verified models of the promise engine, the worker pool and what lies under them

Lwt's behaviour rests on a few mutable structures whose invariants its source states in comments, or not at
all. This project models them in Dafny and proves those invariants and what follows from them, for every
input, every interleaving and every run. Check it with `dafny verify dfyconfig.toml`.

| files | what they model |
|---|---|
| `PromiseHeap`, `PromiseEngine`, `PromiseSafety`, `PromiseExtends`, `PromiseRuns`, `PromiseLoops`, `PromiseIdle` | the promise engine as a machine with re-entrant user code: heap of promise cells, callbacks, resolution loop, deferral queue, cancellation |
| `PromiseLaws`, `PromiseMeaning`, `PromiseChoices`, `PromiseJoins` | what callers are promised: which results, callbacks and storages each action brings about, and what `bind`, `map`, `choose`, `pick` and `join` mean over whole runs |
| `PromiseCaptured`, `PromiseNPick` | the promises that `npick` captures, the runs in which that goes wrong, and one of them |
| `PromiseStore` | `underlying`, `cancel` and `make_into_proxy` as they update the cells in place |
| `PromiseGraph` | the dependencies of pending promises that `cancel` follows: when its recursion ends, in every state of every run |
| `CallbackTrees`, `CallbackCells` | callback trees: traversal, clean-up, merging, clearing a shared cell; and the lists of all pending promises over whole runs |
| `JobSystem`, `JobSafety`, `PoolQueue`, `Notifications` | worker pool, job handshake, circular job queue, notification buffer |
| `SequenceRing` | doubly linked rings that are traversed while nodes are removed |
| `BinomialHeap` | priority queues |
| `BoundedStream` | bounded push streams |
| `IterN`, `JoinAll` | `nchoose_split` and `iter_n`; `join`, `both` and `all` |
| `HandOff` | mailboxes and mutexes |
| `Termios` | the table-driven termios conversion |
| `Common` | an option type, list reversal and a fact about set sizes |

## How the systems are modelled

**Promise engine.** A run is a sequence of atomic actions. User code, at top level or inside a callback, may
take any API action before it returns; what the engine was doing meanwhile is on an explicit stack. The field
`crashed` records that an internal resolution met a promise that was not pending. The invariant gives each
promise that the engine has yet to resolve exactly one owner: a callback that has not run, a join, or a
suspended activity. `bind` and its relatives on a resolved promise call the user's function directly
(src/core/lwt.ml:1875-1886), so they are user code going on, not an action. Path compression and the removal of
a removable callback from a list are actions that may happen at any time; the engine is therefore safe
whenever they happen. `cancel` may mark any set of distinct pending cancelable promises in any order;
`PromiseStore.Store.PropagateCancel` says which set it is. The results that `nchoose` and `npick` collect are
arbitrary in the engine; `IterN` says what they are for `nchoose_split`. Values and exceptions are integers.

**Worker pool.** Each critical section is one step, except the one that ends a job, whose write of `state` is
visible before the mutex is released. Condition waits return only after a signal; calls of `start_job` are
serialised by the runtime lock; the caller takes the result when `start_job` returns true, otherwise calls
`check_job` once, otherwise waits for the notification. Channel reads and writes succeed, there is one
receiver, and it is called only when the channel is readable.

**Hand-off and bounded push.** Cancelling a waiter is one step: its promise is rejected and its clean-up runs.
A stream has one reader, a mutex is unlocked by its owner.

**Termios.** Flag words are sets of bit positions, so that `&`, `|` and `~` are the set operations. The two line
speeds are fields of their own. The words of the table are numbers or bit patterns. The laws hold for
every table and every speed table with the properties they require.

## Findings

- `npick` takes the underlying promise of its result before it cancels its inputs, and resolves it afterwards
  (src/core/lwt.ml:2926-2933). If cancelling makes that promise a proxy, what is resolved is not pending.
  `PromiseNPick.NPickCrashes` is such a run: a handler of the rejection of one input returns the promise of the
  `npick`. `PromiseRuns.NeverCrashes` says that this is the only way in which an internal resolution ever meets a
  promise that is not pending, and `PromiseNPick.MissesExactly` that it happens exactly if, while `npick` cancels its
  inputs, a function given to `bind` returns a promise that stands for the captured one, and `bind`'s own does not.
- If the function given to `bind` returns a pending promise that waits for the result of that `bind`, the result
  becomes a promise whose cancellation goes on to itself, and `cancel` on it does not end (src/core/lwt.ml:1779,
  1450-1451). `PromiseGraph.CycleIsReached` is such a run, `PromiseGraph.CancelEndsExactly` says from which promises
  the recursion ends, `PromiseGraph.ReturnAcyclicExactly` which returned promises make a cycle of pending promises,
  and `PromiseGraph.GraphAcyclicExactly` that nothing else does.
- Clearing a cell can drop another live callback. The one-cell shortcut of src/core/lwt.ml:892-897 takes a lone
  removable callback for the cleared one; `CallbackTrees.VisitsExact` says exactly when it is wrong. It goes wrong
  first when the cell was added several times to the same underlying promise
  (`CallbackTrees.DuplicateLosesCallback`), and then also for cells added to distinct promises, because the
  dropped cell is still cleared later: `CallbackCells.LossSpreads` is a run from the empty state in which that happens.
  `CallbackCells.RunLosesExactly` says in which runs nothing is ever lost, and `CallbackCells.ClearKeepsOthers` that
  nothing is lost if cleared cells were always added to distinct underlying promises.
- `resize` on a bounded stream of size zero leaves a waiting reader waiting although an element is in the queue,
  because `notify_pusher` does not give the readers' signal (src/core/lwt_stream.ml:242-266):
  `BoundedStream.StuckReader` is an instance, `BoundedStream.StuckExactly` says exactly when it happens.
- A terminal speed that the speed table does not list is encoded as 9600, and decoding that sets B9600
  (src/unix/unix_c/unix_termios_conversion.c:180-181): `Termios.UnlistedSpeedInstance` is an instance,
  `Termios.DecodeAfterEncode` says exactly when a status is restored.

## Model

| member | source | states |
|---|---|---|
| PromiseHeap.CompressRoots | src/core/lwt.ml:603-615 | path compression keeps the proxy links acyclic and changes no promise's root |
| PromiseHeap.LinkRoots | src/core/lwt.ml:1775-1783 | making one root a proxy of another keeps the forest acyclic and merges exactly those two classes |
| PromiseHeap.SameLinksRoots | src/core/lwt.ml:1293-1300 | updates that leave the links alone, such as resolving a promise, keep every root |
| PromiseSafety.MergeKeepsInv | src/core/lwt.ml:1775-1783 | turning the user's promise into a proxy, with its callbacks and way of cancelling moved to the outer promise, keeps the ownership invariant |
| PromiseSafety.ResolveKeepsInv | src/core/lwt.ml:1293-1300 | resolving a pending promise that nobody owns keeps the ownership invariant, whether its callbacks run or are deferred |
| PromiseSafety.DispatchKeepsInv | src/core/lwt.ml:1836-1870 | running any callback of bind, map, catch, try_bind, choose, pick, npick, nchoose or join keeps the ownership invariant |
| PromiseRuns.ApplyKeepsInv | src/core/lwt.ml:666-703 | every action of user code and engine keeps the ownership invariant, but for npick resolving a captured promise that has become a proxy |
| PromiseCaptured.ApplyKeepsCaptured | src/core/lwt.ml:2926-2933 | what npick captured and its outer promise stand for the same promise as long as it cancels |
| PromiseRuns.CrashesExactly | src/core/lwt.ml:666-703 | an action meets a promise that is not pending exactly if it is npick resolving a captured promise that has become a proxy, and all else stays in order |
| PromiseRuns.NeverCrashes | src/core/lwt.ml:666-703 | in every run every internal `resolve` and `make_into_proxy` meets a pending underlying promise, except exactly when npick resolves a captured promise that has become a proxy |
| PromiseRuns.NeverCrashesWithoutNPick | src/core/lwt.ml:666-703 | in every run in which npick has not been called all of them do |
| PromiseNPick.TurnsExactly | src/core/lwt.ml:1753-1787 | an action makes a promise a proxy exactly if a function given to bind returns one that stands for it while it is pending, and the outer promise stands for another |
| PromiseNPick.MissesExactly | src/core/lwt.ml:2926-2933 | in every run, npick fails to resolve what it captured exactly if a return since then made the captured promise a proxy |
| PromiseNPick.NPickCrashes | src/core/lwt.ml:2926-2933 | a run in which npick resolves a promise that has become a proxy |
| PromiseRuns.RunExtends | src/core/lwt.ml:1293-1300 | along every run results are kept and promises that stand for the same one go on doing so |
| PromiseRuns.ResultIsFinal | src/core/lwt.ml:1353-1394 | a promise once seen resolved has that result in every later state |
| PromiseRuns.ReturnUnites | src/core/lwt.ml:1753-1787 | when the function given to bind returns a promise, it and the outer promise get the same root, or are both resolved with the same result |
| PromiseRuns.ProxyIsForever | src/core/lwt.mli:517-520 | from then on both have the same observable state in every later state |
| PromiseLoops.ApplyStack | src/core/lwt.ml:1265-1269 | every action changes only the innermost activity, and a loop once entered stays until it is left |
| PromiseLoops.ApplyEnters | src/core/lwt.ml:1244-1247 | an action that enters a loop saves the storage as it was, adds one to the depth and goes on to run the callbacks of one promise |
| PromiseLoops.LoopRestores | src/core/lwt.ml:1249-1263 | whatever ran inside, leaving a loop restores the enclosing activities and the saved storage, and the outermost loop leaves an empty queue |
| PromiseLoops.LoopRoundTrip | src/core/lwt.ml:1244-1263 | in every run, when a loop is left, storage and depth are what they were before the action that entered it |
| PromiseLoops.CallbacksRunOnce | src/core/lwt.ml:966-981 | in every run no callback runs twice, however many promises it was added to |
| PromiseLoops.DeferredRunInOrder | src/core/lwt.ml:1277-1291 | deferred records are run in the order they were deferred, none twice, and all have been when the depth is zero |
| PromiseIdle.ApplyKeeps | src/core/lwt.ml:1218-1291 | no action leaves callbacks of a resolved promise without an activity or a deferred record that will run them |
| PromiseIdle.DeferredIsFinished | src/core/lwt.ml:1249-1257 | in every run, at depth zero every record ever deferred has run all its callbacks |
| PromiseIdle.IdleIsFinished | src/core/lwt.ml:1160-1226 | in every run, when the engine is idle no promise that is not pending has callbacks left, nor a canceled one cancel callbacks |
| PromiseIdle.IdleHasRun | src/core/lwt.ml:1160-1226 | in every run, when the engine is idle every callback ever registered, unless it sits in a cell, has run or waits at a pending promise |
| PromiseLaws.WakeupLaw | src/core/lwt.ml:1357-1394 | a resolved promise is left alone; otherwise exactly the promises that stand for the same one are from then on observed with the given result, and the callbacks run at once, or are deferred if `wakeup_later` is called inside a resolution loop |
| PromiseLaws.UserIsCalled | src/core/lwt.ml:1836-1856 | the function given to bind, catch, try_bind or map is called exactly for the results it is for, in the saved storage, and no observation changes |
| PromiseLaws.ResultIsPassed | src/core/lwt.ml:1863-1870 | otherwise, and for no_cancel, choose and nchoose, exactly the promises that stand for the outer one are observed with the same result, and no user function is called |
| PromiseLaws.PlainIsCalled | src/core/lwt.ml:2421-2438 | callbacks that resolve nothing are called in the saved storage |
| PromiseLaws.EmptiedIsSkipped | src/core/lwt.ml:1197-1207 | an emptied cell is passed over |
| PromiseLaws.CancelCallbackIsCalled | src/core/lwt.ml:1160-1175 | cancel callbacks of a canceled promise run first, one by one, each in its own storage |
| PromiseLaws.RunEnds | src/core/lwt.ml:1190-1214 | an activity that has no callback left ends and changes nothing else |
| PromiseLaws.LoopLaw | src/core/lwt.ml:1249-1257 | the outermost loop runs the oldest deferred callbacks before it is left; leaving any loop restores its storage |
| PromiseLaws.JoinCounts | src/core/lwt.ml:2574-2596 | a callback of join counts down and keeps the first rejection; the last one, and no other, resolves the outer promise, with what was kept |
| PromiseLaws.MapReturns | src/core/lwt.ml:1964-1975 | when the function given to map returns or raises, exactly the promises that stand for the outer one get that result |
| PromiseLaws.BindReturnsResolved | src/core/lwt.ml:1753-1774 | when the function given to bind returns a resolved promise, exactly the promises that stand for the outer one get its result |
| PromiseLaws.BindReturnsPending | src/core/lwt.ml:1775-1783 | when it returns a pending one, nothing is observed to change, both stand for one promise with the regular and cancel callbacks of the outer one followed by those of the other, which is cancelled as the other was |
| PromiseLaws.CancelLaw | src/core/lwt.ml:1412-1465 | exactly the promises that stand for a target of `cancel` are observed as canceled, and the callbacks are to run in the order collected |
| PromiseLaws.CancelGoesOn | src/core/lwt.ml:1462-1465 | the callbacks of the targets run one target after the other, at once |
| PromiseLaws.PickStarts | src/core/lwt.ml:2782-2783 | the callback of pick keeps the result and npick's also the promise to resolve, before the inputs are cancelled |
| PromiseLaws.PickGoesOn | src/core/lwt.ml:2782-2783 | inputs are cancelled one after the other in list order |
| PromiseLaws.PickEnds | src/core/lwt.ml:2784-2787 | when all are, exactly the promises that stand for the outer one get the result kept |
| PromiseLaws.NewInitialLaw | src/core/lwt.ml:1555-1561 | wait and task make a pending promise without callbacks, cancelable only by the second |
| PromiseLaws.NewResolvedLaw | src/core/lwt.ml:1488-1494 | return and fail make a resolved promise and change nothing else |
| PromiseLaws.AttachLaw | src/core/lwt.ml:1822-1834 | on a pending promise the outer promise is new and pending, cancelling it goes on to that promise (not for no_cancel), and the callback is put in front there with the storage of the moment |
| PromiseLaws.AttachPlainLaw | src/core/lwt.ml:2421-2447 | the same for callbacks without an outer promise |
| PromiseLaws.OnCancelLaw | src/core/lwt.ml:993-1006 | a cancel callback is put in front with the storage of the moment, and nothing else changes |
| PromiseLaws.JoinLaw | src/core/lwt.ml:2566-2633 | join gives each pending input a callback of its own, counts those, and starts from the first rejection among the others |
| PromiseLaws.FirstRejectionIs | src/core/lwt.ml:2617-2627 | that is the first one in list order |
| PromiseLaws.ChoiceLaw | src/core/lwt.ml:2748-2764 | choose and its relatives share one callback between all inputs, put in front of each as often as inputs stand for it |
| PromiseLaws.StorageLaw | src/core/lwt.ml:789-800 | the storage set is the current one, and nothing else changes |
| PromiseLaws.UserEnds | src/core/lwt.ml:1160-1175 | a callback that nobody waits for just ends |
| PromiseLaws.HousekeepingLaw | src/core/lwt.ml:603-615 | compressing paths and sweeping cells is not observed and runs nothing |
| PromiseMeaning.RunsOnSource | src/core/lwt.ml:1836-1870 | in every run a callback runs only when a promise that it was registered with is resolved, on the result of that promise |
| PromiseMeaning.RunsInSavedStorage | src/core/lwt.ml:1834-1839 | in every run a function runs in the storage that was current when it was registered |
| PromiseMeaning.CancelRunsInSavedStorage | src/core/lwt.ml:993-994 | in every run a cancel callback runs in the storage that was current when it was given to the promise, or to one that stands for the same promise now |
| PromiseMeaning.PendingUntilRun | src/core/lwt.ml:1822-1832 | in every run the outer promise is pending until the callback runs |
| PromiseMeaning.WhenIdle | src/core/lwt.mli:504-520 | in every run, when the engine is idle a callback of bind, map, catch, no_cancel or on_any has run exactly if its promise is resolved; the outer promise then has the same result if the function is not for it, and is pending otherwise |
| PromiseMeaning.FunctionReturns | src/core/lwt.ml:1836-1858 | in every run, when the engine is idle and the promise is resolved with a result that the function is for, the function has been called in the storage of its registration and has returned, and the outer promise is observed as the promise returned, or for map has the value returned |
| PromiseMeaning.ChoiceResolves | src/core/lwt.ml:2748-2795 | in every run, when the engine is idle the promise made by choose or pick is pending or has the result of one of the inputs |
| PromiseChoices.RunsForFirst | src/core/lwt.ml:966-981 | in every run in which nobody removes it, when the engine is idle the callback shared by the inputs of choose, pick, nchoose or npick has run exactly if one of them is resolved |
| PromiseChoices.ChoiceSettles | src/core/lwt.ml:2748-2795 | the promise made by choose or pick is then pending exactly as long as all inputs are, and else has the result of one of them |
| PromiseJoins.JoinResolves | src/core/lwt.ml:2566-2633 | in every run the promise made by join is resolved only when all inputs are, with a unit value if they are all fulfilled and else with the rejection of one of them |
| PromiseJoins.JoinWaitsForAll | src/core/lwt.ml:2592-2596 | in every run, when the engine is idle it is resolved exactly if all inputs are |
| PromiseJoins.FirstRejectionStays | src/core/lwt.ml:2577-2585 | in every run the first rejection that join meets is the one it keeps |
| PromiseStore.Store.Underlying | src/core/lwt.ml:603-615 | returns the root, compresses the path to it, and changes no promise's root or anything but proxy links |
| PromiseStore.Store.CancelAndCollect | src/core/lwt.ml:1428-1455 | whenever the recursion can end it does, and rejects and collects once each exactly the cancelable pending promises reached |
| PromiseStore.Store.PropagateCancel | src/core/lwt.ml:1426-1459 | from any promise from which the recursion ends, the collected records are exactly those of the pending cancelable promises reachable through pending promises, and every other promise is observed unchanged |
| PromiseStore.Store.MakeIntoProxy | src/core/lwt.ml:1753-1787 | the in-place operation agrees, up to path compression, with that of the machine |
| PromiseStore.MarkedObservations | src/core/lwt.ml:1418-1421 | after the backwards phase exactly the promises that stand for a collected one are observed as canceled |
| PromiseGraph.CancelEndsExactly | src/core/lwt.ml:1428-1455 | from a promise the recursion of `cancel` ends exactly if it does not come to a pending promise that depends on itself |
| PromiseGraph.RankedExactly | src/core/lwt.ml:1428-1455 | the pending promises can be ranked so that dependencies go down exactly if none of them depends on itself |
| PromiseGraph.MergeAcyclicExactly | src/core/lwt.ml:1775-1783 | making a pending root a proxy of another keeps the dependencies of pending promises acyclic exactly if the first does not depend on the second |
| PromiseGraph.ReturnAcyclicExactly | src/core/lwt.ml:1753-1787 | when the function given to bind returns a promise, no pending promise comes to depend on itself exactly if that promise is not a pending one that depends on the outer promise |
| PromiseGraph.ApplyKeepsAcyclic | src/core/lwt.ml:1822-1832 | no other action of user code and engine makes a pending promise depend on itself |
| PromiseGraph.GraphAcyclicExactly | src/core/lwt.ml:1426-1455 | in every run, no pending promise ever depends on itself exactly if no function given to bind ever returns such a promise |
| PromiseGraph.CancelEndsInRuns | src/core/lwt.ml:1426-1455 | in every state of every run the recursion of `cancel` on a promise ends exactly if it does not come to such a cycle |
| PromiseGraph.CycleIsReached | src/core/lwt.ml:1450-1451 | a run that ends with a pending promise from which the recursion of `cancel` does not end |
| CallbackTrees.RunTree | src/core/lwt.ml:1190-1214 | the traversal with an explicit stack runs the left-to-right flattening, deciding at its turn whether a leaf runs |
| CallbackTrees.RunCallbacks | src/core/lwt.ml:1160-1226 | cancel callbacks run first and only for a canceled promise, then regular ones, skipping the cells empty at their turn |
| CallbackTrees.CleanUpKeepsLive | src/core/lwt.ml:842-854 | cleaning up drops exactly the emptied cells and keeps the order of the others |
| CallbackTrees.CleanUpShape | src/core/lwt.ml:842-854 | a cleaned tree is empty or a single leaf exactly if it has no or one callback |
| CallbackTrees.CleanUpKeepsRuns | src/core/lwt.ml:842-854 | a cleaned list runs the same callbacks as the original, whatever they empty meanwhile |
| CallbackTrees.MergeKeepsCallbacks | src/core/lwt.ml:923-941 | merging gives the live callbacks of `into` followed by those of `from`, with or without a clean-up |
| CallbackTrees.Promises.AddToEach | src/core/lwt.ml:966-981 | the cell is put in front of the list of each pending promise, as often as that is listed |
| CallbackTrees.Promises.ClearCell | src/core/lwt.ml:878-911 | empties the cell and visits each pending promise as often as it is listed, and no other |
| CallbackTrees.VisitsExact | src/core/lwt.ml:888-911 | visiting a promise k times for a cleared cell, whatever it lists, loses a live callback exactly if one removable callback is live there, alone in the list or left alone by a sweep before the last visit |
| CallbackTrees.DuplicateLosesCallback | src/core/lwt.ml:888-911 | an input for which clearing one cell removes another live callback |
| CallbackCells.StepKeepsInv | src/core/lwt.ml:878-981 | registering, merging, resolving and clearing keep every cell among the callbacks registered at each pending promise that it was added to |
| CallbackCells.FilledIsListed | src/core/lwt.ml:892-897 | while nothing has been lost, a lone removable callback of a promise that a filled cell was added to is that cell |
| CallbackCells.StepLosesExactly | src/core/lwt.ml:878-981 | while nothing has been lost, a step loses a live callback exactly if it clears a cell in the case of `VisitsExact` |
| CallbackCells.RunLosesExactly | src/core/lwt.ml:878-981 | in every run all lists keep all live callbacks in order throughout exactly if no cell is ever cleared in that case |
| CallbackCells.ClearKeepsOthers | src/core/lwt.ml:878-911 | in every run in which cleared cells were added to promises that stand for pairwise distinct ones, clearing removes that cell and keeps every other live callback |
| CallbackCells.SweepsAreInvisible | src/core/lwt.ml:842-854 | while nothing has been lost, resolving a promise runs what it would run if its list were never swept |
| CallbackCells.LossSpreads | src/core/lwt.ml:888-911 | a run that ends by losing a live callback although the cleared cell was added once each to distinct promises and no clean-up was deferred |
| CallbackCells.RegisteredLaw | src/core/lwt.ml:943-981 | new callbacks go in front, merging puts those of the other promise behind, and clearing empties exactly its cell |
| JobSafety.StepKeepsInv | src/unix/lwt_unix_stubs.c:1061-1166 | every step of the main thread and of any worker keeps the invariant of pool, handshake and notifications |
| JobSafety.PoolIsSafe | src/unix/lwt_unix_stubs.c:993-1032 | in every interleaving no worker touches a job that may have been freed, the waiting count is the number of blocked unsignalled workers, queued jobs do not outnumber signalled workers, and the thread count stays within the largest pool size set |
| JobSafety.NoJobIsLost | src/unix/lwt_unix_stubs.c:1061-1124 | a handed job is in exactly one place: queued once, with a signalled worker ready to take one, held by one worker, or done; and its state says how far that worker is |
| JobSafety.ReportedOnce | src/unix/lwt_unix_stubs.c:912-945 | a job is reported at most once, exactly once when done and checked, and a notification carries the id that `check_job` stored |
| JobSafety.FirstInFirstOut | src/unix/lwt_unix_stubs.c:1016-1119 | in every run the jobs that have come to wait are those that workers have taken from the queue followed by those still queued, in order |
| JobSafety.HandOverLaw | src/unix/lwt_unix_stubs.c:1091-1124 | a job goes to a new worker if none waits, else to the queue, with one waiting worker signalled; if no worker can be launched it is handed to nobody |
| JobSafety.SizeIsSet | src/unix/lwt_unix_stubs.c:1205-1208 | the pool size is what was set last |
| PoolQueue.Queue.Enqueue | src/unix/lwt_unix_stubs.c:1111-1119 | the circular list gets the job at the end of the FIFO queue it stands for |
| PoolQueue.Queue.Dequeue | src/unix/lwt_unix_stubs.c:1016-1023 | the circular list gives up the oldest job, or is empty exactly if the queue is |
| Notifications.Conservation | src/unix/lwt_unix_stubs.c:553-658 | in every interleaving the ids received followed by those buffered are the ids sent, in order, and outside a receive the channel holds a signal exactly if the buffer is not empty |
| Notifications.Buffer.Resize | src/unix/lwt_unix_stubs.c:542-551 | doubles the buffer and keeps its contents |
| Notifications.Buffer.SendNotification | src/unix/lwt_unix_stubs.c:553-596 | appends the id across a resize, and signals exactly if the buffer was empty |
| Notifications.Buffer.BeginReceive | src/unix/lwt_unix_stubs.c:615-642 | consumes one signal and fixes the size to allocate for |
| Notifications.Buffer.EndReceive | src/unix/lwt_unix_stubs.c:644-653 | returns all buffered ids in order and empties the buffer, or starts over if some arrived meanwhile |
| SequenceRing.Store.Create | src/core/lwt_sequence.ml:45-47 | a new ring without nodes that disturbs no other ring |
| SequenceRing.Store.IsEmpty | src/core/lwt_sequence.ml:53-53 | true exactly if the ring has no node |
| SequenceRing.Store.AddL | src/core/lwt_sequence.ml:64-68 | the ring has the node in front of its nodes |
| SequenceRing.Store.AddR | src/core/lwt_sequence.ml:70-74 | the ring has the node behind its nodes |
| SequenceRing.Store.Remove | src/core/lwt_sequence.ml:33-39 | an active node leaves its ring and keeps its own links; removing it again does nothing |
| SequenceRing.Store.TakeOptL | src/core/lwt_sequence.ml:94-101 | gives the first node's data and removes it, or finds the ring empty |
| SequenceRing.Store.TakeOptR | src/core/lwt_sequence.ml:103-110 | gives the last node's data and removes it, or finds the ring empty |
| SequenceRing.Store.TransferL | src/core/lwt_sequence.ml:112-118 | the target ring has the source's nodes in front of its own and the source none, an empty source included |
| SequenceRing.Store.TransferR | src/core/lwt_sequence.ml:120-126 | the target ring has the source's nodes behind its own and the source none, an empty source included |
| SequenceRing.Store.IterL | src/core/lwt_sequence.ml:128-136 | for every pattern of removals by the visitor the traversal ends, has visited in order exactly the nodes active at their turn, and leaves exactly the others in the ring |
| SequenceRing.RingFrame | src/core/lwt_sequence.ml:33-39 | a ring without a changed cell is still the same ring |
| SequenceRing.RingUnique | src/core/lwt_sequence.ml:8-11 | the links determine the list of nodes |
| BinomialHeap.LinkGood | src/core/lwt_pqueue.ml:35-37 | linking two ordered binomial trees of a rank gives one of the next rank with the elements of both |
| BinomialHeap.InsValid | src/core/lwt_pqueue.ml:38-45 | inserting a tree keeps order, rank shape and strictly increasing ranks, and conserves the elements |
| BinomialHeap.AddValid | src/core/lwt_pqueue.ml:49-49 | adding keeps the heap valid and adds exactly the element |
| BinomialHeap.UnionValid | src/core/lwt_pqueue.ml:50-57 | union of valid heaps is valid and has the elements of both |
| BinomialHeap.GetMinSplits | src/core/lwt_pqueue.ml:79-86 | splits off a tree with a least root, the one `find_min` gives, and conserves the elements |
| BinomialHeap.RemoveMinValid | src/core/lwt_pqueue.ml:88-93 | `remove_min` keeps the heap valid and drops exactly the element `find_min` gives; both fail exactly on the empty heap |
| BinomialHeap.SizeCounts | src/core/lwt_pqueue.ml:95-97 | `size` is the number of elements |
| BinomialHeap.TreeSizeIsPower | src/core/lwt_pqueue.ml:31-37 | a tree of rank r has 2^r elements |
| BinomialHeap.FewTrees | src/core/lwt_pqueue.ml:38-57 | a heap of k trees has at least 2^k - 1 elements |
| BinomialHeap.DrainSorts | src/core/lwt_pqueue.ml:59-93 | repeated removal gives a sorted permutation of the elements |
| BoundedStream.StepKeepsInv | src/core/lwt_stream.ml:254-326 | every call, continuation and cancellation keeps the stream's invariant |
| BoundedStream.CountAndOrder | src/core/lwt_stream.ml:242-304 | in every run the count is the number of unread elements and within the largest size set, and the elements read, unread and blocked are the accepted pushes in order |
| BoundedStream.GotInOrder | src/core/lwt_stream.ml:407-450 | in every run the elements that get was answered, followed by those unread and the blocked one, are the accepted pushes in order |
| BoundedStream.GetLaw | src/core/lwt_stream.ml:441-450 | get answered with an element takes exactly that one from the front, and a blocked push goes to the end |
| BoundedStream.PeekLaw | src/core/lwt_stream.ml:420-426 | peek answered with an element answers the first one and takes nothing |
| BoundedStream.EmptyLaw | src/core/lwt_stream.ml:420-450 | both answer the end exactly if the stream is closed and empty, and wait exactly if it is open and empty |
| BoundedStream.PushLaw | src/core/lwt_stream.ml:268-304 | push fails exactly on a closed stream or behind a blocked push, changing nothing, blocks exactly without room, and otherwise appends and lets a waiting reader go on |
| BoundedStream.CloseLaw | src/core/lwt_stream.ml:306-326 | close keeps the unread elements, drops the blocked push and lets a waiting reader go on; closing again changes nothing |
| BoundedStream.ResizeLaw | src/core/lwt_stream.ml:260-266 | resize sets the size and lets a blocked push in exactly if there is room then; a negative size changes nothing |
| BoundedStream.CancelLaw | src/core/lwt_stream.ml:275-284 | cancelling takes back exactly the blocked push, or the waiting read |
| BoundedStream.NoWaitAfterClose | src/core/lwt_stream.ml:306-326 | from the close on no reader waits and every read has its answer at once |
| BoundedStream.StuckExactly | src/core/lwt_stream.ml:260-266 | a reader is left waiting beside an unread element exactly when a stream of size zero with a blocked push and a waiting reader is enlarged |
| BoundedStream.StuckStays | src/core/lwt_stream.ml:268-326 | such a reader stays stuck until a push finds room, the stream is closed or the read is cancelled |
| BoundedStream.NeverStuck | src/core/lwt_stream.ml:260-304 | a stream that never has size zero never leaves a reader so |
| BoundedStream.StuckReader | src/core/lwt_stream.ml:260-266 | a run that ends with reader and writer both waiting while an element is queued |
| BoundedStream.Stream.constructor | src/core/lwt_stream.ml:341-358 | a new stream is empty and open |
| BoundedStream.Stream.Enqueue | src/core/lwt_stream.ml:135-140 | the linked nodes hold one more unread element, at the end |
| BoundedStream.Stream.NotifyPusher | src/core/lwt_stream.ml:242-252 | the blocked element becomes the last unread one and the count is unchanged |
| BoundedStream.Stream.ResizeTo | src/core/lwt_stream.ml:260-266 | sets the size and lets a blocked push in if there is room; a negative size changes nothing |
| BoundedStream.Stream.PushElement | src/core/lwt_stream.ml:268-304 | fails on a closed stream or beside a blocked push, blocks on a full one, else appends and signals |
| BoundedStream.Stream.CloseStream | src/core/lwt_stream.ml:306-326 | ends the queue, drops the blocked push and signals; a second close does nothing |
| BoundedStream.Stream.Consume | src/core/lwt_stream.ml:407-418 | takes the first element and either counts down or lets the blocked push in |
| BoundedStream.Stream.ReadNode | src/core/lwt_stream.ml:420-450 | gives the first element, the end of a closed stream, or waits for the signal |
| BoundedStream.Stream.PushCancelled | src/core/lwt_stream.ml:279-284 | a cancelled blocked push leaves no trace |
| JoinAll.JoinOutcome | src/core/lwt.ml:2566-2633 | for every list and order of callbacks `join` is resolved exactly when all members are, and is rejected exactly if some member is, with the first rejection in list order among those resolved at the call, else the first processed |
| JoinAll.FirstRejectionIs | src/core/lwt.ml:2577-2585 | the recorded result is the first rejection looked at, if any |
| JoinAll.FirstInList | src/core/lwt.ml:2617-2627 | of the members resolved at the call, the first rejected one in list order is looked at first |
| JoinAll.Gather.constructor | src/core/lwt.ml:2601-2631 | the counter is the number of pending members, and resolved members have filled their slots |
| JoinAll.Gather.Settle | src/core/lwt.ml:2574-2596 | one callback records its outcome and counts down; the last one resolves the join |
| JoinAll.Gather.Collect | src/core/lwt.ml:2662-2671 | the values in argument order if all members are fulfilled, else a rejection; `assert false` is never reached |
| IterN.SplitExact | src/core/lwt.ml:2959-3037 | the answer is the first rejection if there is one, else the values of the fulfilled members and all pending members, in reverse order at once and in list order later |
| IterN.SplitCounts | src/core/lwt.ml:2988-3006 | values and pending members together are as many as the members: nothing is lost |
| IterN.StepKeepsInv | src/core/lwt_stream.ml:920-934 | every turn of the loop keeps running bodies plus free places equal to the bound |
| IterN.NeverTooMany | src/core/lwt_stream.ml:910-936 | in every run no more than `max_concurrency` bodies are unresolved and `nchoose_split` is never called on an empty list |
| IterN.ChoiceFrees | src/core/lwt_stream.ml:925-928 | an answer of `nchoose_split` that is not a failure frees at least one place |
| IterN.ChosenLaw | src/core/lwt_stream.ml:925-928 | the loop fails exactly if some running body has, with the first such exception in the list, and otherwise goes on with exactly the bodies still pending |
| IterN.GotLaw | src/core/lwt_stream.ml:929-934 | an element starts exactly one body, put first in the list; at the end of the stream the running bodies are joined |
| IterN.EndIsFinal | src/core/lwt_stream.ml:929-936 | in every run, once the loop has ended no body is started |
| Tickets.CancelWaiting | src/core/lwt.ml:1572-1581 | cancelling a waiter takes it out of the queue and out of the order of arrival, and no other |
| Mailbox.StepKeepsInv | src/core/lwt_mvar.ml:60-95 | waiting readers imply an empty mailbox without writers, waiting writers a full one, and puts and takes stay in order |
| Mailbox.InOrder | src/core/lwt_mvar.ml:60-95 | in every run the i-th take served gets the value of the i-th put, cancelled ones not counted |
| Mailbox.Box.PutValue | src/core/lwt_mvar.ml:60-74 | the value goes to the first waiting reader, else into the empty mailbox, else to the end of the queue |
| Mailbox.Box.TakeNow | src/core/lwt_mvar.ml:76-90 | gives the held value and puts the first queued one in its place, or finds the mailbox empty |
| Mailbox.Box.TakeValue | src/core/lwt_mvar.ml:92-95 | as above, but waits behind the other readers if the mailbox is empty |
| Mailbox.Box.PutCancelled | src/core/lwt_mvar.ml:71-74 | a cancelled put leaves the queue, and the other writers keep their order |
| Mailbox.Box.TakeCancelled | src/core/lwt.ml:1572-1581 | a cancelled take leaves the queue, and the other readers keep their order |
| Mutex.StepKeepsInv | src/core/lwt_mutex.ml:19-35 | waiters imply locked, and the granted calls are released in the order granted |
| Mutex.OneOwner | src/core/lwt_mutex.ml:19-35 | in every run a mutex has exactly one owner while locked and none otherwise, and grants follow the order of arrival of the calls not cancelled |
| Mutex.Lock.Acquire | src/core/lwt_mutex.ml:19-25 | locks a free mutex, else waits behind the others |
| Mutex.Lock.Release | src/core/lwt_mutex.ml:27-35 | hands the lock to the first waiter, which then owns it, or frees the mutex |
| Mutex.Lock.WaiterCancelled | src/core/lwt.ml:1572-1581 | a cancelled call of `lock` leaves the queue, and the other waiters keep their order |
| Termios.Terminal.Encode | src/unix/unix_c/unix_termios_conversion.c:153-205 | reading the flat table word by word stores for each entry the value it means, an unmatched enumeration keeping what was there |
| Termios.Terminal.Decode | src/unix/unix_c/unix_termios_conversion.c:207-268 | reading the flat table word by word applies each entry in turn up to the first value that is refused |
| Termios.DecodeWrites | src/unix/unix_c/unix_termios_conversion.c:207-268 | decoding succeeds exactly if every enumeration is in range and every baud rate known and accepted, and then each covered part has what its value says |
| Termios.DecodeElsewhere | src/unix/unix_c/unix_termios_conversion.c:211-264 | decoding, successful or not, changes nothing that the table does not cover |
| Termios.DecodeAfterEncode | src/unix/unix_c/unix_termios_conversion.c:153-268 | decoding an encoded status into any other restores every covered part and leaves the rest alone exactly if its covered speeds are in the speed table and accepted |
| Termios.StatusSurvives | src/unix/unix_c/unix_termios_conversion.c:153-268 | a status with such speeds that is encoded and decoded again is unchanged |
| Termios.UnlistedSpeed | src/unix/unix_c/unix_termios_conversion.c:177-197 | a speed that the table does not list comes back as the one that stands for 9600 |
| Termios.UnlistedSpeedInstance | src/unix/unix_c/unix_termios_conversion.c:177-197 | a status that is not restored |
| Termios.EncodeAfterDecode | src/unix/unix_c/unix_termios_conversion.c:153-268 | encoding after a successful decoding gives the record back exactly if its flags were 0 or 1 and its characters bytes |

## Left out

- `Lwt.protected`: its argument does not cover one `cancel` that marks both promises before any callback runs (src/core/lwt.ml:1608-1620).
- `choose`, `pick`, `nchoose` and `npick` with inputs already resolved: the engine has them with all inputs pending; which resolved input `choose` takes is random.
- CallbackCells.StepKeepsInv: a promise is resolved in one step; the callbacks that this runs are the steps that follow.
- PromiseLoops.LoopRestores: says what holds when a loop is left, and so assumes that callbacks end and do not raise; so does PromiseLoops.LoopRoundTrip.
- PromiseLaws.PlainIsCalled: stands for `on_any`; a callback of `on_success` or `on_failure` that is not for the result is one that returns at once.
- PromiseChoices.ChoiceSettles: assumes that nobody removes the cell of the callback from a list while it is filled; `CallbackCells.RunLosesExactly` says when clean-ups do. The same holds of PromiseChoices.RunsForFirst.
- PromiseMeaning.ChoiceResolves: covers `choose` and `pick`; the results of `nchoose` and `npick` are arbitrary here.
- PromiseIdle.IdleHasRun: says nothing of callbacks in cells, which another promise may have run or which may have been removed.
- JobSafety.PoolIsSafe: assumes that condition waits return only after a signal; a spurious wakeup counts a worker twice.
- SequenceRing.Store.IterL: models visitors that remove nodes, not ones that add nodes; the traversals from the right are mirror images. The cells are maps from references instead of objects, so that two rings can share the heap.
- Lwt_sequence.clear: cleared nodes stay marked as active (src/core/lwt_sequence.ml:49-51).
- Streams that are not bounded, clones, several readers on one stream, and the combinators on streams other than `iter_n`.
- JoinAll.Gather.Collect: models the general case of `all`; `both` and the cases of one and two promises are the same with fewer slots.
- Lwt_mutex.with_lock: only calls `lock` and `unlock`.
- Termios: the table of entries and the values of its constants, which the system headers give; the laws are for every table.
- Lwt_pool: it creates members without counting them (src/core/lwt_pool.ml:77-90), so it has no bound to prove.
- Exceptions that escape callbacks, the exception filter, the `backtrace_` variants, and `abandon_wakeups`.
- Width of machine integers, signal masks, fork handling, failing system calls, garbage collection, libev and the Windows code.
- Lwt_list, Lwt_result, Lwt_seq, Lwt_switch, Lwt_retry, the React helpers and the PPX: thin layers over what is modelled.
