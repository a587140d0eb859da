# Irrelon event emitter, modelled in Dafny

This project models the in-memory event emitter of the `irrelon-emitter`
package in the five versions the repository ships, and the overload resolver
one of them is built on:

- the ES-module build `dist/esm/src/Emitter.js` (module `EsmEmitter`);
- the CommonJS build `dist/cjs/src/Emitter.js` (module `CjsEmitter`);
- the TypeScript source `src/Emitter.ts` (module `TsEmitter`);
- the Overload-based build `dist/Emitter.js` (module `DistEmitter`);
- the v1.1 prototype `lib/Emitter.js` (module `LibEmitter`);
- the `irrelon-overload` resolver bundled in `dist/index.js` (module `Overload`).

An emitter keeps listener buckets keyed by event name and then by id. The id
`"*"` is the global bucket. It also keeps:

- an emitting flag, and a removal queue that defers `off` while listeners run;
- a ledger of static emissions, which late listeners get replayed;
- a table of pending deferred emissions, which `deferEmit` debounces.

Each class-based version is a Dafny `class` with the same fields. Every method
is proved to take the object from `Snap()`, the immutable `State` of its
fields, to the state that one shared reference function computes. It also
returns what that function returns. The reference functions take a
`Build = Esm | Cjs | Ts | Dist` parameter wherever the versions differ. The
lemmas about those functions are the properties the emitter promises.

Listeners are opaque numbered functions. An `Oracle` gives each call's return
value, and the `on`/`off` requests the listener makes while it is running.
Timer callbacks are a pending list in the state. The host's `Tick` runs the
oldest callback.

Modules:

- `Js`: values, `typeof` and truthiness, listeners and call records.
- `Registry`: the two-level bucket table.
- `EmitterState`: the shared state, the static ledger and the debounce timers.
- `Registration`: `on`, `once`, `off`, `overwrite`/`one`, the removal queue,
  `willEmit` and `cancelStatic`.
- `Dispatch`: the emit variants, `rpc`, `didCancel` and `deferEmit`.
- The emitter classes and the `Overload` resolver, one module each.

Where the prose description of the emitter and the code disagree, the model
follows the code:

- `willEmit` on an event that has listeners only under other ids throws a
  TypeError, because `arr.length` is read on a missing "*" bucket. It does not
  return false.
- `rpcId` with an id whose bucket exists but is empty picks that bucket and
  throws a TypeError on `arr[0]`. A throw after the flag is set leaves
  `emitting` set.
- The TypeScript and Overload-based builds replay the static ledger only to
  global listeners. They do so once per ledger entry, with no arguments,
  because they bind the whole ledger array where the other builds bind one
  entry.
- `emitId(e, "*")` and `emitStaticId(e, "*")` call the global bucket twice in
  every build except `emitId` of the ES-module build.
- The Overload-based `emitStaticId(e, id)` has no falsy-id check. Only its
  one-argument form throws the missing-id error.
- In `lib/Emitter.js`, `emit` splices the collected `once` indices without
  adjusting them. With two or more `once` entries in a bucket it removes the
  wrong entries. This is modelled as written (`LibEmitter.SpliceAllWrong`,
  `LibEmitter.SpliceShiftExample`).
- In the ES-module and CommonJS builds, `deferEmit` debounces while
  `_eventsAllowDefer` is false, its initial value. Setting the flag makes it
  emit at once, the reverse of what its name suggests.

## Model

| member | source | states |
|---|---|---|
| Js.TypeOf | dist/index.js:284-290 | `typeof` is "function" exactly for functions and "string" exactly for strings |
| Registry.Push | dist/esm/src/Emitter.js:30-33 | the bucket (created if missing) gains the listener at its end and every other bucket is unchanged |
| Registry.IndexOf | dist/esm/src/Emitter.js:106-107 | `indexOf` is -1 exactly when the listener is absent, otherwise the first position holding it |
| Registry.RemoveAt | dist/esm/src/Emitter.js:108-110 | `splice(i, 1)` shifts later elements down by one; an index out of range changes nothing |
| Registry.RemoveFirst | dist/esm/src/Emitter.js:106-110 | removes the first occurrence only: the multiset loses one copy, and an absent listener leaves the bucket unchanged |
| Registry.SetBucket | dist/Emitter.js:264-275 | replaces one existing bucket and leaves all others unchanged |
| Registry.DeleteBucket | dist/esm/src/Emitter.js:101-102 | `delete listeners[e][id]` removes only that bucket and keeps the event |
| Registry.DeleteEvent | dist/esm/src/Emitter.js:96-99 | `delete listeners[e]` removes the event and keeps every other event |
| Registry.HasFunction | dist/esm/src/Emitter.js:400-410 | the loop finds a callable entry exactly when the bucket holds one |
| EmitterState.Record | dist/esm/src/Emitter.js:304-306 | the static ledger of the event gains the entry at its end and other events' ledgers are unchanged |
| EmitterState.ClearTimer | dist/esm/src/Emitter.js:465-466 | `clearTimeout` removes exactly the pending callback with that handle |
| EmitterState.Debounce | dist/esm/src/Emitter.js:462-472 | the deferred-emission table maps the event to a fresh handle from the counter; listeners, ledger, queue and flags are unchanged |
| EmitterState.PendingFor | dist/esm/src/Emitter.js:459-475 | the pending deferred callbacks of one event are exactly those of the timer list for it |
| EmitterState.AtMostOnePending | dist/esm/src/Emitter.js:459-475 | while the debounce invariant holds an event has at most one pending deferred emission |
| EmitterState.ClearTimerOnePerEvent | dist/esm/src/Emitter.js:465-466 | cancelling a timer keeps at most one pending emission per event |
| EmitterState.KeptTimers | dist/esm/src/Emitter.js:464-466 | after the old timer of the event is cleared, every remaining deferred callback belongs to another event and is the one the table records |
| EmitterState.DebounceLastWins | dist/esm/src/Emitter.js:462-472 | after a debounced `deferEmit` the invariant still holds and the only pending emission of the event carries the latest arguments |
| EmitterState.DebounceOnePerEvent | dist/esm/src/Emitter.js:464-472 | appending the new timer after clearing the old one keeps one pending emission per event |
| EmitterState.DebounceTracked | dist/esm/src/Emitter.js:467-472 | the table records the new handle for the event and the old handles for all others |
| EmitterState.DropHeadKeepsInv | dist/esm/src/Emitter.js:467-470 | running the oldest timer callback preserves the debounce invariant |
| Registration.OnS | dist/esm/src/Emitter.js:24-50 | `_on` appends to the bucket, creating maps, keeps every other bucket, and schedules the ledger's replays, changing nothing else |
| Registration.EsmOffS | dist/esm/src/Emitter.js:80-112 | a missing bucket is a no-op; while emitting only the closure is queued; otherwise no listener deletes the bucket (the event for "*") and a listener removes its first occurrence |
| Registration.TsOffS | src/Emitter.ts:158-187 | the flag is tested first, so every call made while emitting is queued; otherwise as the ES-module build, except that an empty id without a listener splices an `indexOf(undefined)` match |
| Registration.DistOffS | dist/Emitter.js:220-333 | each `off` overload queues itself while emitting; `off(e)` deletes the event, `off(e, id)` the bucket, and the listener forms remove one occurrence, missing buckets being no-ops |
| Registration.ProcessQueueS | dist/esm/src/Emitter.js:493-503 | flushing the removal queue leaves it empty |
| Registration.WillEmitS | dist/esm/src/Emitter.js:396-411 | true exactly when the "*" bucket holds a function; TypeError exactly when the event exists without a "*" bucket |
| Registration.WillEmitIdS | dist/esm/src/Emitter.js:419-448 | true exactly when the id bucket or the "*" bucket holds a function |
| Registration.CancelStaticS | dist/esm/src/Emitter.js:385-389 | the event's static ledger becomes empty; other ledgers, listeners, timers and the queue are unchanged |
| Registration.ReplaysGlobal | dist/esm/src/Emitter.js:40-48 | a global listener gets one replay of each ledger entry, in order, with that entry's arguments |
| Registration.ReplaysScoped | dist/esm/src/Emitter.js:40-48 | a scoped listener gets exactly the replays of the ledger entries recorded under its id, in ledger order, each with that entry's arguments, as the independent filter `ReplaysFor` lists them |
| Registration.ReplaysWholeArray | src/Emitter.ts:104-121 | only a global listener is replayed, once per ledger entry and without arguments; a scoped listener gets none |
| Registration.OffWhileEmitting | dist/esm/src/Emitter.js:85-93 | while emitting `off` leaves the buckets alone and appends at most one closure, exactly one unless a build checks the bucket first and finds none |
| Registration.ApplyRequestsGrows | dist/esm/src/Emitter.js:85-93 | while emitting, a listener's `on`/`off` calls only add to buckets |
| Registration.InvokeGrows | dist/esm/src/Emitter.js:59-71 | calling one entry, guard included, while emitting only adds to buckets and keeps the flag |
| Registration.CallAllGrows | dist/esm/src/Emitter.js:308-317 | a whole bucket walk while emitting only adds to buckets |
| Registration.CallAllOrder | dist/esm/src/Emitter.js:308-317 | walking a bucket without guards makes exactly the calls `FnCalls` lists: each function entry once, in bucket order, with the emitted arguments, whatever the listeners register or remove meanwhile |
| Registration.CallAllQuiet | dist/esm/src/Emitter.js:308-317 | when the listeners register and remove nothing, the walk also leaves the state as it was |
| Registration.CallAllStep | dist/esm/src/Emitter.js:308-317 | each function entry of a walk keeps the flag, only adds to the registry and appends its calls to the trace |
| Registration.ApplyRequestsKeeps | dist/esm/src/Emitter.js:113-149 | a listener's `on`/`off` calls change neither the ledger, the debounce table nor the flag |
| Registration.InvokeKeeps | dist/esm/src/Emitter.js:59-71 | a listener call keeps the ledger and the flag |
| Registration.CallAllKeeps | dist/esm/src/Emitter.js:308-317 | a bucket walk keeps the ledger and the flag |
| Registration.ApplyFormsKeeps | dist/esm/src/Emitter.js:493-503 | applying queued removals keeps the ledger and the flag |
| Registration.FlushSettles | dist/esm/src/Emitter.js:493-503 | once the flag is clear, the flush empties the queue, leaves the flag clear and keeps the ledger |
| Registration.GuardFiresOnce | dist/esm/src/Emitter.js:59-71 | a `once` wrapper calls its listener at most once; later calls change nothing and return the first result (undefined where the build discards it) |
| Registration.GuardDeregisters | dist/esm/src/Emitter.js:59-71 | the first call of a `once` wrapper removes exactly that wrapper from its bucket and calls the listener once |
| Registration.OverwriteLeavesOnlyListener | dist/esm/src/Emitter.js:126-134 | after `overwrite` the global bucket holds just the new listener when it existed before |
| Dispatch.RpcCall | dist/esm/src/Emitter.js:218-219 | calling `arr[0]` throws a TypeError exactly when the bucket is empty or its head is not callable; otherwise the one result is that call's value, the trace is that call's, and the state is the flushed state after it |
| Dispatch.RpcIdS | dist/esm/src/Emitter.js:210-235 | no listeners for the event throws with the state unchanged; with an id bucket (even an empty one) its element 0 is called, else for an id other than "*" element 0 of the "*" bucket; with neither, the no-responder error with the flag left set; success settles the flag and queue |
| Dispatch.RpcReturnsHead | dist/esm/src/Emitter.js:210-235 | with a plain function at element 0 of the consulted bucket that registers nothing, `rpcId` calls exactly that function and returns its value unwrapped |
| Dispatch.FindCancel | dist/esm/src/Emitter.js:481-483 | the first position of the cancel flag, or -1 exactly when it is absent |
| Dispatch.DidCancel | dist/esm/src/Emitter.js:481-483 | `didCancel` is true exactly when some result is the cancel flag |
| Dispatch.FirstNotNone | dist/cjs/src/Emitter.js:207 | `find` yields the first value that is not the none flag, and undefined when every value is the none flag |
| Dispatch.RunFromGrows | dist/esm/src/Emitter.js:153-170 | the ES-module walk keeps the flag and only adds to buckets |
| Dispatch.RunFromCancel | dist/esm/src/Emitter.js:153-170 | the walk stops at the first cancel flag, which is then its last result; without one every function entry is called |
| Dispatch.RunFromQuiet | dist/esm/src/Emitter.js:153-170 | with plain listeners that register nothing, the walk returns the listeners' values in bucket order up to and including the first cancel flag, and makes exactly the calls that produced them |
| Dispatch.EsmEmitIdQuiet | dist/esm/src/Emitter.js:273-292 | `emitId` returns the id bucket's values cut after its first cancel, then, for an id other than "*", the "*" bucket's values cut the same way, with exactly the matching calls, and ends in the flushed state |
| Dispatch.RunFromStep | dist/esm/src/Emitter.js:156-167 | each function entry of the walk appends its result and calls, ending the walk exactly when the result is the cancel flag |
| Dispatch.EsmEmitIdSettles | dist/esm/src/Emitter.js:273-292 | an unknown event is a no-op; otherwise the flag ends clear and the removal queue empty |
| Dispatch.EmitStaticIdRecords | dist/esm/src/Emitter.js:338-378 | a missing id (or an empty one outside the Overload build) throws with nothing changed; otherwise the entry is added to the ledger and the flag and queue settle |
| Dispatch.EmitStaticRecords | dist/esm/src/Emitter.js:302-327 | `emitStatic` records a "*" ledger entry and settles the flag and queue |
| Dispatch.MapAllShape | dist/cjs/src/Emitter.js:202-206 | `map` gives one result per entry, undefined for a non-function |
| Dispatch.MapAllStep | dist/cjs/src/Emitter.js:202-206 | each entry of the `map` appends undefined for a non-function, or the function's result and calls |
| Dispatch.MapAllQuiet | dist/cjs/src/Emitter.js:202-206 | with plain listeners that register nothing, `map` yields undefined for each non-function and each function's value otherwise, calling each function once in order |
| Dispatch.CjsEmitQuiet | dist/cjs/src/Emitter.js:191-216 | `emit` calls each global function once, in order, and returns the fold of their values |
| Dispatch.FoldCancels | dist/cjs/src/Emitter.js:207-210 | `emit` returns the cancel flag exactly when the first result that is not the none flag is truthy, and the none flag otherwise |
| Dispatch.FoldExamples | dist/cjs/src/Emitter.js:207-210 | a falsy first result hides a later cancel; a truthy one cancels; an empty bucket gives the none flag |
| Dispatch.CjsEmitWithoutGlobal | dist/cjs/src/Emitter.js:191-216 | without a "*" bucket `emit` calls nothing, returns the none flag and only flushes the queue |
| Dispatch.ScopedEmitQuiet | dist/cjs/src/Emitter.js:217-255 | `emitId` on a known event calls every function of the id bucket once, in order, followed by every function of the "*" bucket; an unknown event calls nothing |
| Dispatch.BroadcastQuiet | src/Emitter.ts:289-312 | `emit` calls every function of the "*" bucket once, in order |
| Dispatch.DoubleGlobalCall | dist/cjs/src/Emitter.js:217-255 | for any plain "*" bucket, `emitId(e, "*")` walks it twice, while `emit` walks it once |
| Dispatch.EsmSingleGlobalCall | dist/esm/src/Emitter.js:273-292 | in the ES-module build `emitId(e, "*")` walks the "*" bucket once: without a cancel every global function is called exactly once, in order, and its values are returned |
| Dispatch.CancelScenario | dist/esm/src/Emitter.js:153-170 | with four listeners where the second cancels, `emit` calls only the first two, returns both results, and `didCancel` holds |
| Dispatch.CancelDoesNotStopGlobal | dist/esm/src/Emitter.js:280-290 | whatever the id bucket returns, a cancel included, every function of a non-cancelling "*" bucket is still called after it and its values follow the id bucket's |
| Dispatch.DeferEmitLastWins | dist/esm/src/Emitter.js:459-475 | with deferral on, `deferEmit` calls nothing, keeps the invariant and leaves exactly one pending emission with the latest arguments; with it off it emits at once |
| EsmEmitter.Emitter.constructor | dist/esm/src/Emitter.js:10-15 | the field initialisers give the empty state; `_eventsAllowDefer` is false, so `deferEmit` debounces |
| EsmEmitter.Emitter.InternalOn | dist/esm/src/Emitter.js:24-50 | `_on` on the fields equals `OnS` |
| EsmEmitter.Emitter.ScheduleReplays | dist/esm/src/Emitter.js:35-48 | the ledger loop appends exactly the replays `Replays` computes |
| EsmEmitter.Emitter.InternalOnce | dist/esm/src/Emitter.js:59-71 | `_once` registers a fresh guard under the id |
| EsmEmitter.Emitter.InternalOff | dist/esm/src/Emitter.js:80-112 | `_off` on the fields equals `EsmOffS` |
| EsmEmitter.Emitter.On | dist/esm/src/Emitter.js:113-118 | `on(e, l)` registers under "*" |
| EsmEmitter.Emitter.OnId | dist/esm/src/Emitter.js:113-118 | `on(e, id, l)` registers under the id |
| EsmEmitter.Emitter.Once | dist/esm/src/Emitter.js:119-125 | `once(e, f)` registers a guard under "*" |
| EsmEmitter.Emitter.OnceId | dist/esm/src/Emitter.js:119-125 | `once(e, id, f)` registers a guard under the id |
| EsmEmitter.Emitter.Overwrite | dist/esm/src/Emitter.js:126-134 | `overwrite(e, l)` is `off(e)` then `on(e, l)` |
| EsmEmitter.Emitter.OverwriteId | dist/esm/src/Emitter.js:126-134 | `overwrite(e, id, l)` is `off(e, id)` then `on(e, id, l)` |
| EsmEmitter.Emitter.Off | dist/esm/src/Emitter.js:135-149 | each of the four `off` forms reaches `_off` with the right id and listener |
| EsmEmitter.Emitter.Perform | dist/esm/src/Emitter.js:113-149 | a listener's own `on`/`off` calls, in order |
| EsmEmitter.Emitter.Invoke | dist/esm/src/Emitter.js:59-71 | one entry's call, the `once` guard's fired flag, self-removal and cached result included, equals `InvokeS` |
| EsmEmitter.Emitter.EmitToArrayOfListeners | dist/esm/src/Emitter.js:153-170 | the indexed walk, with the count fixed up front and the live bucket read, equals `RunFrom` |
| EsmEmitter.Emitter.CallEach | dist/esm/src/Emitter.js:308-317 | the counted loop of `emitStatic` equals `CallAll` |
| EsmEmitter.Emitter.CallIdThenGlobal | dist/esm/src/Emitter.js:345-367 | the id bucket's loop then the global bucket's loop equal the two `CallAll` runs chained, so `"*"` runs the global bucket twice |
| EsmEmitter.Emitter.ProcessRemovalQueue | dist/esm/src/Emitter.js:493-503 | the flush loop runs every queued `off`, in order, and empties the queue |
| EsmEmitter.Emitter.EmitId | dist/esm/src/Emitter.js:273-292 | `emitId` equals `EsmEmitIdS` |
| EsmEmitter.Emitter.Emit | dist/esm/src/Emitter.js:270-272 | `emit` is `emitId(e, "*")` |
| EsmEmitter.Emitter.CallFirst | dist/esm/src/Emitter.js:150-152 | the single-listener call and the flush after it equal `RpcCall` |
| EsmEmitter.Emitter.RpcId | dist/esm/src/Emitter.js:210-235 | `rpcId` returns or throws as `RpcIdS` |
| EsmEmitter.Emitter.Rpc | dist/esm/src/Emitter.js:207-209 | `rpc` is `rpcId(e, "*")` |
| EsmEmitter.Emitter.EmitStatic | dist/esm/src/Emitter.js:302-327 | `emitStatic` equals `EmitStaticS` |
| EsmEmitter.Emitter.EmitStaticId | dist/esm/src/Emitter.js:338-378 | `emitStaticId` throws or emits as `EmitStaticIdS` |
| EsmEmitter.Emitter.CancelStatic | dist/esm/src/Emitter.js:385-389 | `cancelStatic` equals `CancelStaticS` |
| EsmEmitter.Emitter.WillEmit | dist/esm/src/Emitter.js:396-411 | the loop answers `WillEmitS` and changes nothing |
| EsmEmitter.Emitter.WillEmitId | dist/esm/src/Emitter.js:419-448 | the two loops answer `WillEmitIdS` and change nothing |
| EsmEmitter.Emitter.DeferEmit | dist/esm/src/Emitter.js:459-475 | `deferEmit` equals `DeferEmitS` |
| EsmEmitter.Emitter.Tick | dist/esm/src/Emitter.js:25-29 | the oldest timer callback runs as `TickS` |
| CjsEmitter.Emitter.constructor | dist/cjs/src/Emitter.js:22-29 | the constructor gives the empty state; `_eventsAllowDefer` is false, so `deferEmit` debounces |
| CjsEmitter.Emitter.InternalOn | dist/cjs/src/Emitter.js:38-62 | `_on` equals `OnS` |
| CjsEmitter.Emitter.ScheduleReplays | dist/cjs/src/Emitter.js:47-61 | the ledger loop appends exactly `Replays` |
| CjsEmitter.Emitter.InternalOnce | dist/cjs/src/Emitter.js:71-83 | `_once` registers a fresh guard |
| CjsEmitter.Emitter.InternalOff | dist/cjs/src/Emitter.js:92-124 | `_off` equals `EsmOffS` |
| CjsEmitter.Emitter.On | dist/cjs/src/Emitter.js:125-130 | `on(e, l)` registers under "*" |
| CjsEmitter.Emitter.OnId | dist/cjs/src/Emitter.js:125-130 | `on(e, id, l)` registers under the id |
| CjsEmitter.Emitter.Once | dist/cjs/src/Emitter.js:131-137 | `once(e, f)` registers a guard under "*" |
| CjsEmitter.Emitter.OnceId | dist/cjs/src/Emitter.js:131-137 | `once(e, id, f)` registers a guard under the id |
| CjsEmitter.Emitter.Overwrite | dist/cjs/src/Emitter.js:138-146 | `overwrite(e, l)` is `off(e)` then `on(e, l)` |
| CjsEmitter.Emitter.OverwriteId | dist/cjs/src/Emitter.js:138-146 | `overwrite(e, id, l)` is `off(e, id)` then `on(e, id, l)` |
| CjsEmitter.Emitter.Off | dist/cjs/src/Emitter.js:147-161 | each `off` form reaches `_off` |
| CjsEmitter.Emitter.Perform | dist/cjs/src/Emitter.js:125-161 | a listener's own `on`/`off` calls, in order |
| CjsEmitter.Emitter.Invoke | dist/cjs/src/Emitter.js:71-83 | one entry's call, guard included, equals `InvokeS` |
| CjsEmitter.Emitter.CallEach | dist/cjs/src/Emitter.js:229-251 | the counted loop over a bucket equals `CallAll` |
| CjsEmitter.Emitter.CallIdThenGlobal | dist/cjs/src/Emitter.js:229-251 | the id bucket's loop then the global bucket's loop equal the two `CallAll` runs chained |
| CjsEmitter.Emitter.ProcessRemovalQueue | dist/cjs/src/Emitter.js:448-458 | the flush loop runs every queued `off` and empties the queue |
| CjsEmitter.Emitter.MapGlobal | dist/cjs/src/Emitter.js:202-206 | the `map` over the "*" bucket equals `MapAll` |
| CjsEmitter.Emitter.Emit | dist/cjs/src/Emitter.js:191-216 | `emit` returns the flag and makes the calls of `CjsEmitS` |
| CjsEmitter.Emitter.EmitId | dist/cjs/src/Emitter.js:217-255 | `emitId` calls the id bucket then "*", equals `ScopedEmitS` and returns the none flag |
| CjsEmitter.Emitter.EmitStatic | dist/cjs/src/Emitter.js:265-290 | `emitStatic` equals `EmitStaticS` |
| CjsEmitter.Emitter.EmitStaticId | dist/cjs/src/Emitter.js:301-341 | `emitStaticId` equals `EmitStaticIdS` |
| CjsEmitter.Emitter.CancelStatic | dist/cjs/src/Emitter.js:348-352 | `cancelStatic` equals `CancelStaticS` |
| CjsEmitter.Emitter.WillEmit | dist/cjs/src/Emitter.js:359-374 | the loop answers `WillEmitS` |
| CjsEmitter.Emitter.WillEmitId | dist/cjs/src/Emitter.js:382-411 | the loops answer `WillEmitIdS` |
| CjsEmitter.Emitter.DeferEmit | dist/cjs/src/Emitter.js:422-438 | `deferEmit` equals `DeferEmitS` |
| CjsEmitter.Emitter.Tick | dist/cjs/src/Emitter.js:430-432 | the oldest timer callback runs as `TickS` |
| TsEmitter.Emitter.constructor | src/Emitter.ts:194 | no fields are set up front: the empty state, with `_noEmitDefer` and `_db` unset, so `deferEmit` debounces |
| TsEmitter.Emitter.InternalOn | src/Emitter.ts:94-122 | `_on` equals `OnS` |
| TsEmitter.Emitter.ScheduleReplays | src/Emitter.ts:104-121 | the ledger loop appends exactly `Replays` of the whole-array build |
| TsEmitter.Emitter.InternalOnce | src/Emitter.ts:134-146 | `_once` registers a fresh guard |
| TsEmitter.Emitter.InternalOff | src/Emitter.ts:158-187 | `_off` equals `TsOffS` |
| TsEmitter.Emitter.On | src/Emitter.ts:205-213 | `on(e, l)` registers under "*" |
| TsEmitter.Emitter.OnId | src/Emitter.ts:205-213 | `on(e, id, l)` registers under the id |
| TsEmitter.Emitter.Once | src/Emitter.ts:225-233 | `once(e, f)` registers a guard under "*" |
| TsEmitter.Emitter.OnceId | src/Emitter.ts:225-233 | `once(e, id, f)` registers a guard under the id |
| TsEmitter.Emitter.One | src/Emitter.ts:245-255 | `one(e, l)` is `off(e)` then `on(e, l)` |
| TsEmitter.Emitter.OneId | src/Emitter.ts:245-255 | `one(e, id, l)` is `off(e, id)` then `on(e, id, l)` |
| TsEmitter.Emitter.Off | src/Emitter.ts:267-280 | each `off` form reaches `_off` |
| TsEmitter.Emitter.Perform | src/Emitter.ts:205-280 | a listener's own `on`/`off` calls, in order |
| TsEmitter.Emitter.Invoke | src/Emitter.ts:134-146 | one entry's call equals `InvokeS`; the guard passes `_once`'s own arguments and returns undefined |
| TsEmitter.Emitter.CallEach | src/Emitter.ts:299-307 | the counted loop over a bucket equals `CallAll` |
| TsEmitter.Emitter.CallIdThenGlobal | src/Emitter.ts:326-355 | the id bucket's loop then the global bucket's loop equal the two `CallAll` runs chained |
| TsEmitter.Emitter.ProcessRemovalQueue | src/Emitter.ts:594-606 | the flush loop runs every queued `off` and empties the queue |
| TsEmitter.Emitter.Emit | src/Emitter.ts:289-313 | `emit` equals `BroadcastS` |
| TsEmitter.Emitter.EmitId | src/Emitter.ts:315-360 | `emitId` equals `ScopedEmitS` |
| TsEmitter.Emitter.EmitStatic | src/Emitter.ts:369-401 | `emitStatic` equals `EmitStaticS` |
| TsEmitter.Emitter.EmitStaticId | src/Emitter.ts:411-461 | `emitStaticId` equals `EmitStaticIdS` |
| TsEmitter.Emitter.CancelStatic | src/Emitter.ts:469-474 | `cancelStatic` equals `CancelStaticS` |
| TsEmitter.Emitter.WillEmit | src/Emitter.ts:484-504 | the loop answers `WillEmitS` |
| TsEmitter.Emitter.WillEmitId | src/Emitter.ts:515-551 | the loops answer `WillEmitIdS` |
| TsEmitter.Emitter.DeferEmit | src/Emitter.ts:565-583 | emits at once when `_noEmitDefer` or the owning database's flag is set, otherwise debounces, as `DeferEmitS` |
| TsEmitter.Emitter.Tick | src/Emitter.ts:575-577 | the oldest timer callback runs as `TickS` |
| DistEmitter.Emitter.constructor | dist/Emitter.js:797-803 | `new Emitter()` works on a fresh object with no fields: the empty state, with `_noEmitDefer` and `_db` unset |
| DistEmitter.Emitter.InternalOn | dist/Emitter.js:112-143 | `on`'s `$main` equals `OnS` |
| DistEmitter.Emitter.ScheduleReplays | dist/Emitter.js:128-141 | the ledger loop appends exactly `Replays` of the whole-array build |
| DistEmitter.Emitter.InternalOnce | dist/Emitter.js:145-191 | `once` registers a fresh guard, unscoped for the two-argument form |
| DistEmitter.Emitter.On | dist/Emitter.js:88-90 | `on(e, l)` registers under "*" |
| DistEmitter.Emitter.OnId | dist/Emitter.js:101-103 | `on(e, id, l)` registers under the id |
| DistEmitter.Emitter.Once | dist/Emitter.js:153-166 | `once(e, f)` registers an unscoped guard |
| DistEmitter.Emitter.OnceId | dist/Emitter.js:177-190 | `once(e, id, f)` registers a guard under the id |
| DistEmitter.Emitter.One | dist/Emitter.js:201-204 | `one(e, l)` is `off(e)` then `on(e, l)` |
| DistEmitter.Emitter.OneId | dist/Emitter.js:215-218 | `one(e, id, l)` is `off(e, id)` then `on(e, id, l)` |
| DistEmitter.Emitter.Off | dist/Emitter.js:220-333 | the four `off` overloads equal `DistOffS` |
| DistEmitter.Emitter.Perform | dist/Emitter.js:80-333 | a listener's own `on`/`off` calls, in order |
| DistEmitter.Emitter.Invoke | dist/Emitter.js:145-191 | one entry's call, guard included, equals `InvokeS` |
| DistEmitter.Emitter.CallEach | dist/Emitter.js:376-386 | the counted loop over a bucket equals `CallAll` |
| DistEmitter.Emitter.CallIdThenGlobal | dist/Emitter.js:417-448 | the id bucket's loop then the global bucket's loop equal the two `CallAll` runs chained |
| DistEmitter.Emitter.ProcessRemovalQueue | dist/Emitter.js:736-748 | the flush loop runs every queued `off` and empties the queue |
| DistEmitter.Emitter.Emit | dist/Emitter.js:334-394 | `emit` equals `BroadcastS` |
| DistEmitter.Emitter.EmitId | dist/Emitter.js:395-455 | the one-argument form throws the missing-id error with nothing changed; the others equal `ScopedEmitS` |
| DistEmitter.Emitter.EmitIdMain | dist/Emitter.js:407-453 | `emitId`'s `$main` equals `ScopedEmitS` |
| DistEmitter.Emitter.EmitStatic | dist/Emitter.js:456-525 | `emitStatic` equals `EmitStaticS` |
| DistEmitter.Emitter.EmitStaticId | dist/Emitter.js:526-623 | `emitStaticId` equals `EmitStaticIdS`, throwing only for the one-argument form |
| DistEmitter.Emitter.CancelStatic | dist/Emitter.js:624-648 | `cancelStatic` equals `CancelStaticS` |
| DistEmitter.Emitter.WillEmit | dist/Emitter.js:658-678 | the loop answers `WillEmitS` |
| DistEmitter.Emitter.WillEmitId | dist/Emitter.js:689-725 | the loops answer `WillEmitIdS` |
| DistEmitter.Emitter.DeferEmit | dist/Emitter.js:761-782 | `deferEmit` equals `DeferEmitS` |
| DistEmitter.Emitter.Tick | dist/Emitter.js:774-776 | the oldest timer callback runs as `TickS` |
| LibEmitter.OnS | lib/Emitter.js:76-81 | `$main` appends the `{once, listener}` entry to its bucket, creating the maps, and keeps every other bucket |
| LibEmitter.FirstMatch | lib/Emitter.js:138-147 | the scan stops at the first entry matching the listener (any entry for `'*'`), or finds none |
| LibEmitter.Splice | lib/Emitter.js:143 | `splice(k, 1)` removes entry k and shifts the rest; past the end it does nothing |
| LibEmitter.OffEvery | lib/Emitter.js:121-136 | the all-ids loop keeps the event's set of ids |
| LibEmitter.OffS | lib/Emitter.js:110-151 | before `_listeners` exists or for an unknown event nothing happens; a missing bucket for an id other than `'*'` is a TypeError with nothing changed; other events are untouched |
| LibEmitter.OnceIndices | lib/Emitter.js:176-181 | the walk collects at most one index per entry |
| LibEmitter.OnceIndicesSound | lib/Emitter.js:176-181 | every collected index is in range, names a `once` entry, and the indices ascend |
| LibEmitter.NoOnceNoIndices | lib/Emitter.js:176-181 | a bucket without `once` entries collects no indices |
| LibEmitter.OnceIndicesComplete | lib/Emitter.js:176-181 | every `once` entry's index is collected |
| LibEmitter.PersistentMembers | lib/Emitter.js:183-187 | the intended outcome keeps exactly the entries that are not `once` |
| LibEmitter.EmitS | lib/Emitter.js:167-189 | `_listeners` is created; a known event without the bucket is a TypeError; otherwise every entry is called in order with the data |
| LibEmitter.HasListenerS | lib/Emitter.js:201-203 | the result is truthy exactly when the bucket exists and is non-empty, and is then its length |
| LibEmitter.OffEventDropsOnePerBucket | lib/Emitter.js:98-100 | `off(e)` removes the first entry of every bucket of the event, not the whole event |
| LibEmitter.RemoveMatchOne | lib/Emitter.js:137-148 | removing the first match takes exactly one entry for that listener out |
| LibEmitter.OffIdListenerRemovesOne | lib/Emitter.js:106-108 | `off(e, id, l)` changes only that bucket, removing one entry for l if it has one |
| LibEmitter.SpliceAllOneOnce | lib/Emitter.js:183-187 | with at most one `once` entry the unadjusted splices leave exactly the persistent entries, in order |
| LibEmitter.SpliceBefore | lib/Emitter.js:186 | a splice before the last entry carries that entry along unchanged |
| LibEmitter.PersistentWhole | lib/Emitter.js:183-187 | without `once` entries nothing is filtered out |
| LibEmitter.SpliceShiftExample | lib/Emitter.js:183-187 | with entries once A, once B and plain C the splices at 0 and then 1 keep B and drop C |
| LibEmitter.SpliceAllWrong | lib/Emitter.js:183-187 | with two or more `once` entries the second one survives the splices, one place down, so the bucket never ends as the persistent entries |
| LibEmitter.SecondSurvives | lib/Emitter.js:183-187 | unadjusted splices at ascending indices keep the entry first at the second index |
| LibEmitter.SpliceAllKeepsBelow | lib/Emitter.js:186 | splices at positions above an entry leave it in place |
| LibEmitter.EmitKeepsPlainBucket | lib/Emitter.js:167-189 | an emit on a bucket with no `once` entries leaves the registry as it was |
| LibEmitter.OnceFiresOnce | lib/Emitter.js:176-187 | `once` followed by an emit calls the listener last and removes just its entry, when the bucket had no other `once` entry |
| LibEmitter.SpliceFirstMatch | lib/Emitter.js:137-148 | the scan-and-splice loop removes the first match |
| LibEmitter.Emitter.constructor | lib/Emitter.js:48-57 | a new emitter has no `_listeners` yet |
| LibEmitter.Emitter.Register | lib/Emitter.js:76-81 | `on`'s `$main` equals `OnS` |
| LibEmitter.Emitter.On | lib/Emitter.js:60-62 | `on(e, f)` registers a plain entry under `'*'` |
| LibEmitter.Emitter.OnId | lib/Emitter.js:68-70 | `on(e, id, f)` registers a plain entry under the id |
| LibEmitter.Emitter.Once | lib/Emitter.js:84-95 | `once(e, f)` registers a `once` entry under `'*'` |
| LibEmitter.Emitter.OnceId | lib/Emitter.js:84-95 | `once(e, id, f)` registers a `once` entry under the id |
| LibEmitter.Emitter.Remove | lib/Emitter.js:110-151 | `off`'s `$main` equals `OffS` |
| LibEmitter.Emitter.RemoveFromEvery | lib/Emitter.js:121-136 | the `for (tmpId in eventObj)` loop splices the first match out of every bucket |
| LibEmitter.Emitter.Off | lib/Emitter.js:98-100 | `off(e)` is `$main(e, '*', '*')` |
| LibEmitter.Emitter.OffListener | lib/Emitter.js:102-104 | `off(e, l)` is `$main(e, '*', l)` |
| LibEmitter.Emitter.OffIdListener | lib/Emitter.js:106-108 | `off(e, id, l)` is `$main(e, id, l)` |
| LibEmitter.Emitter.Dispatch | lib/Emitter.js:167-189 | the walk and the splice loop equal `EmitS` |
| LibEmitter.Emitter.Emit | lib/Emitter.js:155-161 | `emit(e[, data])` dispatches on `'*'` |
| LibEmitter.Emitter.EmitId | lib/Emitter.js:163-165 | `emit(e, id, data)` dispatches on the id |
| LibEmitter.Emitter.HasListener | lib/Emitter.js:192-204 | `hasListener` answers `HasListenerS` and changes nothing |
| Overload.RemoveSpaces | dist/index.js:244 | the key loses every space and keeps every other character |
| Overload.RemoveSpacesIdempotent | dist/index.js:244 | normalising a normalised key changes nothing |
| Overload.Stars | dist/index.js:247 | the wildcard count is zero exactly when the key has no `*` |
| Overload.ReplaceFirst | dist/index.js:345 | `replace('*', t)` leaves a key without `*` unchanged |
| Overload.ReplaceFirstStars | dist/index.js:345 | replacing with a type removes exactly one wildcard |
| Overload.ReplaceFirstAfter | dist/index.js:345 | the first wildcard is the one replaced: a wildcard-free prefix is kept |
| Overload.Permutations | dist/index.js:334-353 | a key without `*` comes back as the one-element list |
| Overload.PermutationsAfter | dist/index.js:334-353 | a wildcard-free prefix is carried onto every generated signature |
| Overload.PermutationsAreExpansion | dist/index.js:334-353 | the replace-first recursion yields exactly the left-to-right reading: each `*` stands for string, object, number, function, undefined in that order, the leftmost varying slowest |
| Overload.PermutationsShape | dist/index.js:334-353 | k wildcards give 5^k signatures, none containing `*` |
| Overload.OneWildcard | dist/index.js:334-353 | a key with one wildcard stands for the five types in order |
| Overload.ExpandStarFlat | dist/index.js:344-347 | behind one `*`, a wildcard-free rest gives one signature per type, in the order of the types list |
| Overload.FillVacant | dist/index.js:253-257 | taken keys keep their variant; a vacant key is taken exactly when it is generated, and then by this variant |
| Overload.Absorb | dist/index.js:243-259 | a wildcard-free key is set unconditionally; a key with `*` keeps every earlier entry and adds exactly its expansion's vacant signatures |
| Overload.NormalisedLastKey | dist/index.js:238-265 | adding a property last: a plain key overrides, a wildcard key only fills vacant signatures |
| Overload.WildcardsNeverOverride | dist/index.js:250-259 | once a signature is in the table, only a later equal plain key replaces its variant |
| Overload.ExactKeyKept | dist/index.js:299-300 | a call whose lookup key is already taken by an earlier key keeps calling that variant whatever wildcard keys follow |
| Overload.WildcardTypes | dist/index.js:284-296 | a `*` covers an argument exactly when its type is neither boolean nor array |
| Overload.LongestVariadic | dist/index.js:302-310 | the scan picks the longest prefix with a `,...` key, and finds none exactly when no prefix has one |
| Overload.FirstOfArity | dist/index.js:276-280 | the first function whose arity is the argument count, or none exactly when no arity matches |
| Overload.DispatchS | dist/index.js:268-316 | no definition gives the no-op; an array call runs a function of matching arity or throws with no types; an object call runs a table entry or throws with the argument types |
| Overload.SignatureResolution | dist/index.js:298-314 | the exact key wins; otherwise the longest variadic prefix wins; the call throws exactly when neither exists |
| Overload.ArrayResolution | dist/index.js:273-280 | with an array the first function of matching arity runs; the call throws exactly when none matches |
| Overload.GenerateSignaturePermutations | dist/index.js:334-353 | the `for` loop over the five types with its recursive calls equals `Permutations` |
| Overload.NormaliseKeys | dist/index.js:238-263 | the constructor's loop builds exactly `Normalised` |
| Overload.FillVacantKeys | dist/index.js:253-257 | the signature loop equals `FillVacant` |
| Overload.Construct | dist/index.js:228-319 | `Overload(def)` captures nothing, the array, or the normalised table |
| Overload.Dispatch | dist/index.js:268-316 | the dispatcher's loops pick the variant `DispatchS` picks |
| Overload.MatchArity | dist/index.js:275-280 | the loop finds exactly the first function of matching arity |
| Overload.LookupTypes | dist/index.js:284-294 | the loop yields one type name per argument, `array` for arrays |
| Overload.ClosestVariadic | dist/index.js:302-310 | the downward loop finds exactly the longest prefix with a `,...` key |
| Overload.CallExtend | dist/index.js:355-370 | with a context and a `$main`, the variant runs with `context[prop]` set and the earlier value is written back after it returns; otherwise it just runs |
| Overload.Call | dist/index.js:267-316 | a call of the returned function returns the no-op's undefined, throws the collected types, or returns the variant's result: with a context and a `$main` the variant sees `$main` and the old value is restored, without `$main` it runs on the context as is, and without a context it runs with no properties |
| Overload.Context.constructor | dist/index.js:355-370 | a context holds the given properties |

## Left out

- Real time: `setTimeout` is a pending-callback list and `clearTimeout` removes one entry. The host's `Tick` runs the oldest callback, so delays are not modelled.
- Awaiting in the CommonJS `emit`: the mapped results are folded at once, so the promises of the listeners are not modelled.
- Nested emission: a listener may call `on` and `off`, but an `emit` made from inside a listener is not modelled.
- Exceptions thrown by listeners are not modelled; they would escape the walk and leave the emitting flag set.
- The `this` binding of listener calls (`call`/`apply`) is not modelled.
- In `lib/Emitter.js`, the `on`/`off` requests of listeners are not modelled, since that version has no emitting flag and a listener's edits would alter the live bucket mid-walk.
- `typeof`-based argument shuffling in the public `on`, `once`, `off` and `overwrite` of the class builds: each form is a separate method.
- For the Overload-based and lib versions, the variant a call reaches is modelled separately in the `Overload` module. The emitter methods are the variants themselves.
- Calls the overload tables do not accept are not modelled on the emitter side. Examples are `on` with a non-function, or `emit` in `lib/Emitter.js` with boolean or array data. Those calls throw in the resolver.
- The mixin and augmentation entry points (`makeEmitter`, `Emitter(obj, prototypeMode)`, `lib/Emitter.js`'s `Emitter(obj)` copying methods onto a prototype) are not modelled. Neither are their configuration errors.
- Event names that collide with `Object.prototype` properties are not modelled, since maps have no inherited keys.
- The ES-module `rpc` results of promises, and `onAny`-style listeners, are not modelled. Those builds have none.
- The text of thrown errors is not modelled. This includes the resolver's message built from `this.name()` and `JSON.stringify(arr)`, of which only the types list is kept.
- Emitter.js, the v1.0 file at the repository root, is not part of this model. It fails while loading.
- The `.d.ts` declaration files, tests, build configuration and linting are not part of this model.
- A restore left undone is not modelled: when a variant throws, `callExtend` leaves `context[prop]` installed, and exceptions are not modelled.
- Key enumeration order of object definitions is taken as given by the property list; JavaScript's integer-key ordering is not modelled.
- Emitter.ProcessRemovalQueue (every class): requires the emitting flag to be clear, as every caller in the source clears it first. A flush while emitting would requeue its own entries.
- TsEmitter.Emitter.constructor: the class declares no fields. The registry starts empty rather than absent, which no operation can tell apart, since each one creates the maps it reads.
- Dispatch.EsmEmitIdQuiet: the listeners' values and calls are stated for buckets without `once` guards whose listeners register and remove nothing. This also holds for `RunFromQuiet`, `ScopedEmitQuiet`, `BroadcastQuiet`, `CjsEmitQuiet`, `MapAllQuiet` and `RpcReturnsHead`. Otherwise a listener's own `on` calls change later state, and only the growth, trace-order and settling lemmas apply.
- Registration.CallAllOrder: stated for buckets without `once` guards, since whether a guard calls its listener depends on whether it has fired.
