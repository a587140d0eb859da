/**
 * Reference semantics of emission in the four class-based builds: the
 * result-collecting, cancellable walk and `rpc` of the ES-module build,
 * the flag-returning `emit` of the CommonJS build, the result-less
 * emitters of the other builds, the static emitters, `deferEmit`, and the
 * host's timer step.
 */
module Dispatch {
  import opened Js
  import opened Registry
  import opened EmitterState
  import opened Registration

  /** `ListenerReturnFlag.cancel` and `ListenerReturnFlag.none` of the ES-module build. */
  const CancelFlag: Value := Str("!+_CANCEL")
  const NoneFlag: Value := Str("!+_NONE")

  /** `EventReturnFlag.none` and `EventReturnFlag.cancel` of the CommonJS build. */
  const EventNone: Value := Num(0)
  const EventCancel: Value := Num(1)

  // ---------------------------------------------------------------- the ES-module walk

  /**
   * `_emitToArrayOfListeners(arr, data)` from position `i` of the array as
   * it was when the loop started: non-functions are skipped, every result
   * is collected, and the walk stops right after a cancel.
   */
  function RunFrom(s: State, o: Oracle, arr: seq<Listener>, i: nat, args: seq<Value>): Run
    decreases |arr| - i
  {
    if i >= |arr| then Run(s, [], [])
    else if arr[i].Junk? then RunFrom(s, o, arr, i + 1, args)
    else
      var st := InvokeS(Esm, s, o, arr[i], args);
      if st.result == CancelFlag then Run(st.state, [st.result], st.calls)
      else Then([st.result], st.calls, RunFrom(st.state, o, arr, i + 1, args))
  }

  /** One function entry of the walk begun in `s0` that does not cancel. */
  lemma RunFromStep(s0: State, s: State, o: Oracle, arr: seq<Listener>, i: nat, args: seq<Value>,
                    results: seq<Value>, calls: seq<Call>)
    requires i < |arr| && !arr[i].Junk? && s.emitting && Grows(s0.listeners, s.listeners)
    requires RunFrom(s0, o, arr, 0, args) == Then(results, calls, RunFrom(s, o, arr, i, args))
    ensures var st := InvokeS(Esm, s, o, arr[i], args);
      st.state.emitting && Grows(s0.listeners, st.state.listeners)
      && (st.result == CancelFlag ==> RunFrom(s0, o, arr, 0, args) == Run(st.state, results + [st.result], calls + st.calls))
      && (st.result != CancelFlag ==>
            RunFrom(s0, o, arr, 0, args) == Then(results + [st.result], calls + st.calls, RunFrom(st.state, o, arr, i + 1, args)))
  {
    var st := InvokeS(Esm, s, o, arr[i], args);
    InvokeGrows(Esm, s, o, arr[i], args);
    GrowsTrans(s0.listeners, s.listeners, st.state.listeners);
    ThenThen(results, calls, [st.result], st.calls, RunFrom(st.state, o, arr, i + 1, args));
  }

  /** `if (listeners[e][id]) resultArr.concat(_emitToArrayOfListeners(listeners[e][id], data))` */
  function RunBucket(s: State, o: Oracle, e: string, id: string, args: seq<Value>): Run
  {
    if HasBucket(s.listeners, e, id) then RunFrom(s, o, s.listeners[e][id], 0, args) else Run(s, [], [])
  }

  /**
   * `emitId(e, id, ...data)` of the ES-module build: nothing at all for an
   * unknown event; otherwise, with the flag set, the id bucket and then,
   * for an id other than `"*"`, the global bucket; the flag is cleared
   * before the queue is flushed.
   */
  function EsmEmitIdS(s: State, o: Oracle, e: string, id: string, args: seq<Value>): Run
  {
    if e !in s.listeners then Run(s, [], [])
    else
      var r1 := RunBucket(s.(emitting := true), o, e, id, args);
      var r2 := if id != "*" then RunBucket(r1.state, o, e, "*", args) else Run(r1.state, [], []);
      Run(ProcessQueueS(Esm, r2.state.(emitting := false)), r1.results + r2.results, r1.calls + r2.calls)
  }

  /** `emit(e, ...data)` is `emitId(e, "*", ...data)`. */
  function EsmEmitS(s: State, o: Oracle, e: string, args: seq<Value>): Run
  {
    EsmEmitIdS(s, o, e, "*", args)
  }

  /** The call of `arr[0]` in an rpc: a TypeError unless it holds a function. */
  function RpcCall(s: State, o: Oracle, arr: seq<Listener>, args: seq<Value>): (r: Attempt)
    ensures r.Threw? <==> |arr| == 0 || arr[0].Junk?
    ensures r.Threw? ==> r == Threw(s, TypeError)
    ensures r.Done? ==> |r.run.results| == 1 && r.run.state.queue == [] && !r.run.state.emitting
    ensures r.Done? ==> var st := InvokeS(Esm, s, o, arr[0], args);
      r.run.results == [st.result] && r.run.calls == st.calls
      && r.run.state == ProcessQueueS(Esm, st.state.(emitting := false))
  {
    if |arr| == 0 || arr[0].Junk? then Threw(s, TypeError)
    else
      var st := InvokeS(Esm, s, o, arr[0], args);
      FlushSettles(Esm, st.state.(emitting := false));
      Done(Run(ProcessQueueS(Esm, st.state.(emitting := false)), [st.result], st.calls))
  }

  /**
   * `rpcId(e, id, ...data)`: element 0 of the id bucket or else, when id
   * is not `"*"`, of the global bucket; its value is returned unwrapped.
   */
  function RpcIdS(s: State, o: Oracle, e: string, id: string, args: seq<Value>): (r: Attempt)
    ensures r.Threw? && r.failure == NoListeners <==> e !in s.listeners
    ensures e !in s.listeners ==> r.state == s
    ensures r.Threw? && r.failure == NoResponder <==>
      e in s.listeners && id !in s.listeners[e] && (id == "*" || "*" !in s.listeners[e])
    ensures r.Threw? && e in s.listeners ==> r.state == s.(emitting := true)
    ensures r.Done? ==> |r.run.results| == 1 && |r.run.calls| <= 1 && r.run.state.queue == [] && !r.run.state.emitting
    ensures e in s.listeners && HasBucket(s.listeners, e, id) ==>
      r == RpcCall(s.(emitting := true), o, s.listeners[e][id], args)
    ensures e in s.listeners && !HasBucket(s.listeners, e, id) && id != "*" && HasBucket(s.listeners, e, "*") ==>
      r == RpcCall(s.(emitting := true), o, s.listeners[e]["*"], args)
  {
    if e !in s.listeners then Threw(s, NoListeners)
    else
      var s1 := s.(emitting := true);
      if HasBucket(s1.listeners, e, id) then RpcCall(s1, o, s1.listeners[e][id], args)
      else if id != "*" && HasBucket(s1.listeners, e, "*") then RpcCall(s1, o, s1.listeners[e]["*"], args)
      else Threw(s1, NoResponder)
  }

  /** `rpc(e, ...data)` is `rpcId(e, "*", ...data)`. */
  function RpcS(s: State, o: Oracle, e: string, args: seq<Value>): Attempt
  {
    RpcIdS(s, o, e, "*", args)
  }

  /** `resultArr.findIndex((result) => result === ListenerReturnFlag.cancel)` */
  function FindCancel(rs: seq<Value>): (k: int)
    ensures -1 <= k < |rs|
    ensures k == -1 <==> CancelFlag !in rs
    ensures 0 <= k ==> rs[k] == CancelFlag && CancelFlag !in rs[..k]
  {
    if rs == [] then -1
    else if rs[0] == CancelFlag then 0
    else
      var k := FindCancel(rs[1..]);
      assert k >= 0 ==> rs[..k + 1] == [rs[0]] + rs[1..][..k];
      if k == -1 then -1 else k + 1
  }

  /** `didCancel(resultArr)`: true iff the results hold the cancel flag. */
  function DidCancel(rs: seq<Value>): (b: bool)
    ensures b <==> exists k :: 0 <= k < |rs| && rs[k] == CancelFlag
  {
    FindCancel(rs) > -1
  }

  // ---------------------------------------------------------------- the CommonJS `emit`

  /**
   * `arr.map((tmpFunc) => typeof tmpFunc !== "function" ? undefined : tmpFunc(...data))`
   * from position `i`: one value per entry of the array as it was when
   * `map` started.
   */
  function MapAll(s: State, o: Oracle, arr: seq<Listener>, i: nat, args: seq<Value>): Run
    decreases |arr| - i
  {
    if i >= |arr| then Run(s, [], [])
    else if arr[i].Junk? then Then([Undefined], [], MapAll(s, o, arr, i + 1, args))
    else
      var st := InvokeS(Cjs, s, o, arr[i], args);
      Then([st.result], st.calls, MapAll(st.state, o, arr, i + 1, args))
  }

  /** One entry of the `map` begun in `s0`: a non-function maps to undefined, a function to its result. */
  lemma MapAllStep(s0: State, s: State, o: Oracle, arr: seq<Listener>, i: nat, args: seq<Value>,
                   values: seq<Value>, calls: seq<Call>)
    requires i < |arr| && s.emitting && Grows(s0.listeners, s.listeners)
    requires MapAll(s0, o, arr, 0, args) == Then(values, calls, MapAll(s, o, arr, i, args))
    ensures arr[i].Junk? ==>
      MapAll(s0, o, arr, 0, args) == Then(values + [Undefined], calls, MapAll(s, o, arr, i + 1, args))
    ensures !arr[i].Junk? ==> var st := InvokeS(Cjs, s, o, arr[i], args);
      st.state.emitting && Grows(s0.listeners, st.state.listeners)
      && MapAll(s0, o, arr, 0, args) == Then(values + [st.result], calls + st.calls, MapAll(st.state, o, arr, i + 1, args))
  {
    if arr[i].Junk? {
      ThenThen(values, calls, [Undefined], [], MapAll(s, o, arr, i + 1, args));
      assert calls + [] == calls;
    } else {
      var st := InvokeS(Cjs, s, o, arr[i], args);
      InvokeGrows(Cjs, s, o, arr[i], args);
      GrowsTrans(s0.listeners, s.listeners, st.state.listeners);
      ThenThen(values, calls, [st.result], st.calls, MapAll(st.state, o, arr, i + 1, args));
    }
  }

  /** `values.find((v) => v !== EventReturnFlag.none)`, undefined when there is none. */
  function FirstNotNone(vs: seq<Value>): (v: Value)
    ensures NoneBefore(vs, |vs|) ==> v == Undefined
    ensures !NoneBefore(vs, |vs|) ==> exists k :: 0 <= k < |vs| && vs[k] != EventNone && NoneBefore(vs, k) && v == vs[k]
  {
    if vs == [] then Undefined
    else if vs[0] != EventNone then
      assert NoneBefore(vs, 0);
      vs[0]
    else
      var v := FirstNotNone(vs[1..]);
      assert NoneBefore(vs, |vs|) <==> NoneBefore(vs[1..], |vs| - 1);
      assert forall k :: 0 <= k < |vs| - 1 ==> (NoneBefore(vs[1..], k) <==> NoneBefore(vs, k + 1));
      assert forall k :: 0 <= k < |vs| - 1 ==> vs[1..][k] == vs[k + 1];
      v
  }

  /** The fold after `Promise.all`: cancel iff the first value that is not `none` is truthy. */
  function Fold(vs: seq<Value>): Value
  {
    if Truthy(FirstNotNone(vs)) then EventCancel else EventNone
  }

  /**
   * The async `emit(e, ...data)` of dist/cjs/src/Emitter.js, with the
   * awaited values taken to be the listeners' results: the global bucket's
   * values are folded into `none` or `cancel`.
   */
  function CjsEmitS(s: State, o: Oracle, e: string, args: seq<Value>): Step
  {
    var s1 := s.(emitting := true);
    if HasBucket(s1.listeners, e, "*") then
      var r := MapAll(s1, o, s1.listeners[e]["*"], 0, args);
      Step(ProcessQueueS(Cjs, r.state.(emitting := false)), Fold(r.results), r.calls)
    else Step(ProcessQueueS(Cjs, s1.(emitting := false)), EventNone, [])
  }

  // ---------------------------------------------------------------- result-less emitters

  /**
   * `emitId(e, id, ...data)` of the CommonJS, TypeScript and Overload-based
   * builds: the flag is set even for an unknown event, which calls nothing;
   * otherwise the id bucket and then the global bucket run, the latter
   * unconditionally (so twice for id `"*"`). Results are dropped.
   */
  function ScopedEmitS(b: Build, s: State, o: Oracle, e: string, id: string, args: seq<Value>): Run
  {
    var s1 := s.(emitting := true);
    var r := if e !in s1.listeners then Run(s1, [], [])
      else
        var r1 := CallBucket(b, s1, o, e, id, args);
        Then([], r1.calls, CallBucket(b, r1.state, o, e, "*", args));
    Run(ProcessQueueS(b, r.state.(emitting := false)), [], r.calls)
  }

  /** `emit(e, ...data)` of the TypeScript and Overload-based builds: the global bucket only. */
  function BroadcastS(b: Build, s: State, o: Oracle, e: string, args: seq<Value>): Run
  {
    var r := CallBucket(b, s.(emitting := true), o, e, "*", args);
    Run(ProcessQueueS(b, r.state.(emitting := false)), [], r.calls)
  }

  /** `emitStatic(e, ...data)`: call the global bucket, append `{id: "*", args}`, flush. */
  function EmitStaticS(b: Build, s: State, o: Oracle, e: string, args: seq<Value>): Run
  {
    var r := CallBucket(b, s.(emitting := true), o, e, "*", args);
    var s2 := r.state.(emitting := false);
    Run(ProcessQueueS(b, s2.(statics := Record(s2.statics, e, StaticEntry("*", args)))), [], r.calls)
  }

  /**
   * `emitStaticId(e, id, ...data)`. A missing id throws before anything
   * changes, and so does a falsy one except in dist/Emitter.js, whose
   * overload only tests the argument count. Otherwise, if the event
   * exists, the id bucket and then the global bucket run (for every id,
   * `"*"` included), and the entry `{id, args}` is recorded.
   */
  function EmitStaticIdS(b: Build, s: State, o: Oracle, e: string, id: Option<string>, args: seq<Value>): Attempt
  {
    if id.None? || (b != Dist && id.value == "") then Threw(s, MissingId)
    else
      var s1 := s.(emitting := true);
      var r := if e in s1.listeners then
          var r1 := CallBucket(b, s1, o, e, id.value, args);
          Then([], r1.calls, CallBucket(b, r1.state, o, e, "*", args))
        else Run(s1, [], []);
      var s2 := r.state.(emitting := false);
      Done(Run(ProcessQueueS(b, s2.(statics := Record(s2.statics, e, StaticEntry(id.value, args)))), [], r.calls))
  }

  // ---------------------------------------------------------------- timers

  /** What `this.emit(e, ...data)` does in each build, its result dropped. */
  function EmitAny(b: Build, s: State, o: Oracle, e: string, args: seq<Value>): Run
  {
    match b
    case Esm => EsmEmitS(s, o, e, args)
    case Cjs => var st := CjsEmitS(s, o, e, args); Run(st.state, [st.result], st.calls)
    case _ => BroadcastS(b, s, o, e, args)
  }

  /** `deferEmit(e, ...data)`: debounce, or emit at once when the build's flag says so. */
  function DeferEmitS(b: Build, s: State, o: Oracle, e: string, args: seq<Value>): Run
  {
    if Coalesces(s.defer) then Run(Debounce(s, e, args), [], [])
    else var r := EmitAny(b, s, o, e, args); Run(r.state, [], r.calls)
  }

  /** The host runs the oldest pending timer callback. */
  function TickS(b: Build, s: State, o: Oracle): Run
  {
    if s.timers == [] then Run(s, [], [])
    else
      var s1 := s.(timers := s.timers[1..]);
      match s.timers[0]
      case ReplayTimer(l, args) =>
        var st := InvokeS(b, s1, o, l, args);
        Run(st.state, [], st.calls)
      case DeferTimer(_, e, args) =>
        var r := EmitAny(b, s1, o, e, args);
        Run(r.state, [], r.calls)
  }

  // ================================================================ properties

  /** The ES-module walk keeps the flag and only grows the registry. */
  lemma {:induction false} RunFromGrows(s: State, o: Oracle, arr: seq<Listener>, i: nat, args: seq<Value>)
    requires s.emitting
    ensures RunFrom(s, o, arr, i, args).state.emitting
    ensures Grows(s.listeners, RunFrom(s, o, arr, i, args).state.listeners)
    decreases |arr| - i
  {
    if i >= |arr| {
      GrowsRefl(s.listeners);
    } else if arr[i].Junk? {
      RunFromGrows(s, o, arr, i + 1, args);
    } else {
      var st := InvokeS(Esm, s, o, arr[i], args);
      InvokeGrows(Esm, s, o, arr[i], args);
      if st.result != CancelFlag {
        RunFromGrows(st.state, o, arr, i + 1, args);
        GrowsTrans(s.listeners, st.state.listeners, RunFrom(st.state, o, arr, i + 1, args).state.listeners);
      }
    }
  }

  /**
   * Cancellation within one bucket: the cancel flag can only be the last
   * result; without it every function entry was called, with it no more.
   */
  lemma {:induction false} RunFromCancel(s: State, o: Oracle, arr: seq<Listener>, i: nat, args: seq<Value>)
    ensures var rs := RunFrom(s, o, arr, i, args).results;
      (CancelFlag in rs ==> rs[|rs| - 1] == CancelFlag && CancelFlag !in rs[..|rs| - 1])
      && |rs| <= FunctionsFrom(arr, i)
      && (CancelFlag !in rs ==> |rs| == FunctionsFrom(arr, i))
    decreases |arr| - i
  {
    if i < |arr| {
      RunFromCancel(s, o, arr, i + 1, args);
      if !arr[i].Junk? {
        var st := InvokeS(Esm, s, o, arr[i], args);
        if st.result != CancelFlag {
          var rest := RunFrom(st.state, o, arr, i + 1, args).results;
          RunFromCancel(st.state, o, arr, i + 1, args);
          var rs := [st.result] + rest;
          if CancelFlag in rs {
            assert CancelFlag in rest;
            assert rs[..|rs| - 1] == [st.result] + rest[..|rest| - 1];
          }
        }
      }
    }
  }

  /**
   * ES-module `emitId` on a known event ends with the flag cleared and the
   * queue flushed; on an unknown event it changes nothing and returns `[]`.
   */
  lemma EsmEmitIdSettles(s: State, o: Oracle, e: string, id: string, args: seq<Value>)
    ensures e !in s.listeners ==> EsmEmitIdS(s, o, e, id, args) == Run(s, [], [])
    ensures e in s.listeners ==> !EsmEmitIdS(s, o, e, id, args).state.emitting && EsmEmitIdS(s, o, e, id, args).state.queue == []
  {
    if e in s.listeners {
      var r1 := RunBucket(s.(emitting := true), o, e, id, args);
      var r2 := if id != "*" then RunBucket(r1.state, o, e, "*", args) else Run(r1.state, [], []);
      FlushSettles(Esm, r2.state.(emitting := false));
    }
  }

  /**
   * The static ledger: a missing (or, outside dist/Emitter.js, falsy) id
   * throws with nothing changed; otherwise exactly one `{id, args}` entry
   * is appended to the event's ledger and the rest of the ledger is as
   * before; the flag ends cleared and the queue empty.
   */
  lemma EmitStaticIdRecords(b: Build, s: State, o: Oracle, e: string, id: Option<string>, args: seq<Value>)
    ensures id.None? || (b != Dist && id.value == "") ==> EmitStaticIdS(b, s, o, e, id, args) == Threw(s, MissingId)
    ensures id.Some? && (b == Dist || id.value != "") ==> (EmitStaticIdS(b, s, o, e, id, args).Done?
      && EmitStaticIdS(b, s, o, e, id, args).run.state.statics == Record(s.statics, e, StaticEntry(id.value, args))
      && !EmitStaticIdS(b, s, o, e, id, args).run.state.emitting
      && EmitStaticIdS(b, s, o, e, id, args).run.state.queue == [])
  {
    if id.Some? && (b == Dist || id.value != "") {
      var s1 := s.(emitting := true);
      if e in s1.listeners {
        var r1 := CallBucket(b, s1, o, e, id.value, args);
        if HasBucket(s1.listeners, e, id.value) {
          CallAllKeeps(b, s1, o, s1.listeners[e][id.value], 0, args);
        }
        if HasBucket(r1.state.listeners, e, "*") {
          CallAllKeeps(b, r1.state, o, r1.state.listeners[e]["*"], 0, args);
        }
      }
      var r := if e in s1.listeners then
          var r1 := CallBucket(b, s1, o, e, id.value, args);
          Then([], r1.calls, CallBucket(b, r1.state, o, e, "*", args))
        else Run(s1, [], []);
      var s2 := r.state.(emitting := false);
      FlushSettles(b, s2.(statics := Record(s2.statics, e, StaticEntry(id.value, args))));
    }
  }

  /** `emitStatic` records exactly one `{id: "*", args}` entry and settles. */
  lemma EmitStaticRecords(b: Build, s: State, o: Oracle, e: string, args: seq<Value>)
    ensures EmitStaticS(b, s, o, e, args).state.statics == Record(s.statics, e, StaticEntry("*", args))
    ensures !EmitStaticS(b, s, o, e, args).state.emitting && EmitStaticS(b, s, o, e, args).state.queue == []
  {
    var s1 := s.(emitting := true);
    if HasBucket(s1.listeners, e, "*") {
      CallAllKeeps(b, s1, o, s1.listeners[e]["*"], 0, args);
    }
    var r := CallBucket(b, s1, o, e, "*", args);
    var s2 := r.state.(emitting := false);
    FlushSettles(b, s2.(statics := Record(s2.statics, e, StaticEntry("*", args))));
  }

  /** Every entry of the array yields one value; a non-function yields undefined. */
  lemma {:induction false} MapAllShape(s: State, o: Oracle, arr: seq<Listener>, i: nat, args: seq<Value>)
    requires i <= |arr|
    ensures |MapAll(s, o, arr, i, args).results| == |arr| - i
    ensures forall k :: i <= k < |arr| && arr[k].Junk? ==> MapAll(s, o, arr, i, args).results[k - i] == Undefined
    decreases |arr| - i
  {
    if i < |arr| {
      if arr[i].Junk? {
        MapAllShape(s, o, arr, i + 1, args);
      } else {
        MapAllShape(InvokeS(Cjs, s, o, arr[i], args).state, o, arr, i + 1, args);
      }
    }
  }

  /** Is every value before position `k` the `none` flag? */
  ghost predicate NoneBefore(vs: seq<Value>, k: nat)
    requires k <= |vs|
  {
    forall j :: 0 <= j < k ==> vs[j] == EventNone
  }

  /**
   * The CommonJS fold returns `cancel` exactly when some value is truthy
   * and every value before it is `none`.
   */
  lemma {:induction false} FoldCancels(vs: seq<Value>)
    ensures Fold(vs) == EventCancel <==>
      exists k :: 0 <= k < |vs| && Truthy(vs[k]) && NoneBefore(vs, k)
    ensures Fold(vs) == EventCancel || Fold(vs) == EventNone
  {
    if vs != [] {
      FoldCancels(vs[1..]);
      if vs[0] == EventNone {
        if exists k :: 0 <= k < |vs[1..]| && Truthy(vs[1..][k]) && NoneBefore(vs[1..], k) {
          var k :| 0 <= k < |vs[1..]| && Truthy(vs[1..][k]) && NoneBefore(vs[1..], k);
          assert Truthy(vs[k + 1]) && NoneBefore(vs, k + 1);
        }
        if exists k :: 0 <= k < |vs| && Truthy(vs[k]) && NoneBefore(vs, k) {
          var k :| 0 <= k < |vs| && Truthy(vs[k]) && NoneBefore(vs, k);
          assert k > 0;
          assert Truthy(vs[1..][k - 1]) && NoneBefore(vs[1..], k - 1);
        }
      } else if Truthy(vs[0]) {
        assert Truthy(vs[0]) && NoneBefore(vs, 0);
      } else {
        forall k | 0 <= k < |vs| && Truthy(vs[k])
          ensures !NoneBefore(vs, k)
        {
          assert k != 0;
          assert vs[0] != EventNone;
        }
      }
    }
  }

  /** `[undefined, cancel]` folds to `none`; a plain truthy value folds to `cancel`. */
  lemma FoldExamples()
    ensures Fold([Undefined, EventCancel]) == EventNone
    ensures Fold([Str("x")]) == EventCancel
    ensures Fold([EventNone, EventNone, Str("x")]) == EventCancel
    ensures Fold([]) == EventNone
  {
    assert [Undefined, EventCancel][1..] == [EventCancel];
    assert [EventNone, EventNone, Str("x")][1..] == [EventNone, Str("x")];
    assert [EventNone, Str("x")][1..] == [Str("x")];
    assert FirstNotNone([EventNone, Str("x")]) == Str("x");
  }

  /** The CommonJS `emit` without a global bucket calls nothing and returns `none`. */
  lemma CjsEmitWithoutGlobal(s: State, o: Oracle, e: string, args: seq<Value>)
    requires !HasBucket(s.listeners, e, "*")
    ensures CjsEmitS(s, o, e, args).calls == [] && CjsEmitS(s, o, e, args).result == EventNone
    ensures CjsEmitS(s, o, e, args).state == ProcessQueueS(Cjs, s.(emitting := false))
  {
  }

  // ---------------------------------------------------------------- walks without requests

  /** The values the function entries of `arr` from `i` return, in bucket order. */
  function Returns(o: Oracle, arr: seq<Listener>, i: nat, args: seq<Value>): seq<Value>
    decreases |arr| - i
  {
    if i >= |arr| then []
    else (if arr[i].Fn? then [o(arr[i].f, args).result] else []) + Returns(o, arr, i + 1, args)
  }

  /** The values up to and including the first cancel flag, or all of them. */
  function CutAtCancel(rs: seq<Value>): (r: seq<Value>)
    ensures r <= rs
  {
    if FindCancel(rs) < 0 then rs else rs[..FindCancel(rs) + 1]
  }

  lemma CutCons(x: Value, rest: seq<Value>)
    ensures CutAtCancel([x] + rest) == if x == CancelFlag then [x] else [x] + CutAtCancel(rest)
  {
    var rs := [x] + rest;
    assert rs[1..] == rest;
    if x != CancelFlag && FindCancel(rest) >= 0 {
      assert rs[..FindCancel(rest) + 2] == [x] + rest[..FindCancel(rest) + 1];
    }
  }

  lemma {:induction false} ReturnsLength(o: Oracle, arr: seq<Listener>, i: nat, args: seq<Value>)
    requires PlainFrom(arr, i)
    ensures |Returns(o, arr, i, args)| == |FnCalls(arr, i, args)|
    decreases |arr| - i
  {
    if i < |arr| {
      ReturnsLength(o, arr, i + 1, args);
    }
  }

  /**
   * With plain listeners that issue no requests, the ES-module walk
   * returns the listeners' values in bucket order up to and including the
   * first cancel, and makes exactly the calls that produced them.
   */
  lemma {:induction false} RunFromQuiet(s: State, o: Oracle, arr: seq<Listener>, i: nat, args: seq<Value>)
    requires Quiet(o) && PlainFrom(arr, i)
    ensures var rs := CutAtCancel(Returns(o, arr, i, args));
      |rs| <= |FnCalls(arr, i, args)| && RunFrom(s, o, arr, i, args) == Run(s, rs, FnCalls(arr, i, args)[..|rs|])
    decreases |arr| - i
  {
    ReturnsLength(o, arr, i, args);
    if i < |arr| {
      RunFromQuiet(s, o, arr, i + 1, args);
      if arr[i].Fn? {
        RunFromQuietFn(s, o, arr, i, args);
      } else {
        assert Returns(o, arr, i, args) == Returns(o, arr, i + 1, args);
        assert FnCalls(arr, i, args) == FnCalls(arr, i + 1, args);
      }
    }
  }

  /** One function entry of `RunFromQuiet`, given the rest of the walk. */
  lemma RunFromQuietFn(s: State, o: Oracle, arr: seq<Listener>, i: nat, args: seq<Value>)
    requires Quiet(o) && i < |arr| && arr[i].Fn?
    requires var rs := CutAtCancel(Returns(o, arr, i + 1, args));
      |rs| <= |FnCalls(arr, i + 1, args)| && RunFrom(s, o, arr, i + 1, args) == Run(s, rs, FnCalls(arr, i + 1, args)[..|rs|])
    ensures var rs := CutAtCancel(Returns(o, arr, i, args));
      |rs| <= |FnCalls(arr, i, args)| && RunFrom(s, o, arr, i, args) == Run(s, rs, FnCalls(arr, i, args)[..|rs|])
  {
    var c := Call(arr[i].f, args);
    var x := o(arr[i].f, args).result;
    var rest := Returns(o, arr, i + 1, args);
    var fs := FnCalls(arr, i + 1, args);
    InvokeQuiet(Esm, s, o, arr[i], args);
    CutCons(x, rest);
    assert Returns(o, arr, i, args) == [x] + rest;
    assert FnCalls(arr, i, args) == [c] + fs;
    if x != CancelFlag {
      var n := |CutAtCancel(rest)|;
      assert ([c] + fs)[..1 + n] == [c] + fs[..n];
    } else {
      assert ([c] + fs)[..1] == [c];
    }
  }

  /**
   * ES-module `emitId` on a known event with plain listeners that issue no
   * requests: the id bucket's values cut after its first cancel, then, for
   * an id other than `"*"`, the global bucket's values cut the same way,
   * so a cancel in the id bucket does not stop the global one; the calls
   * are those that produced the values.
   */
  lemma EsmEmitIdQuiet(s: State, o: Oracle, e: string, id: string, args: seq<Value>)
    requires Quiet(o) && e in s.listeners
    requires PlainFrom(BucketOrEmpty(s.listeners, e, id), 0) && PlainFrom(BucketOrEmpty(s.listeners, e, "*"), 0)
    ensures var B := BucketOrEmpty(s.listeners, e, id);
      var G := BucketOrEmpty(s.listeners, e, "*");
      var r1 := CutAtCancel(Returns(o, B, 0, args));
      var r2 := if id != "*" then CutAtCancel(Returns(o, G, 0, args)) else [];
      |r1| <= |FnCalls(B, 0, args)| && |r2| <= |FnCalls(G, 0, args)|
      && EsmEmitIdS(s, o, e, id, args)
         == Run(ProcessQueueS(Esm, s.(emitting := false)), r1 + r2, FnCalls(B, 0, args)[..|r1|] + FnCalls(G, 0, args)[..|r2|])
  {
    var s1 := s.(emitting := true);
    RunFromQuiet(s1, o, BucketOrEmpty(s.listeners, e, id), 0, args);
    RunFromQuiet(s1, o, BucketOrEmpty(s.listeners, e, "*"), 0, args);
    assert RunBucket(s1, o, e, id, args) == RunFrom(s1, o, BucketOrEmpty(s.listeners, e, id), 0, args);
    assert RunBucket(s1, o, e, "*", args) == RunFrom(s1, o, BucketOrEmpty(s.listeners, e, "*"), 0, args);
    assert FnCalls(BucketOrEmpty(s.listeners, e, "*"), 0, args)[..0] == [];
  }

  /**
   * In the ES-module build the global bucket runs once, even for
   * `emitId(e, "*")`: without a cancel every function entry of it is
   * called exactly once, in order, and its values are returned.
   */
  lemma EsmSingleGlobalCall(s: State, o: Oracle, e: string, args: seq<Value>)
    requires Quiet(o) && e in s.listeners && PlainFrom(BucketOrEmpty(s.listeners, e, "*"), 0)
    requires CancelFlag !in Returns(o, BucketOrEmpty(s.listeners, e, "*"), 0, args)
    ensures var G := BucketOrEmpty(s.listeners, e, "*");
      EsmEmitS(s, o, e, args).calls == FnCalls(G, 0, args)
      && EsmEmitS(s, o, e, args).results == Returns(o, G, 0, args)
  {
    var G := BucketOrEmpty(s.listeners, e, "*");
    EsmEmitIdQuiet(s, o, e, "*", args);
    ReturnsLength(o, G, 0, args);
    assert CutAtCancel(Returns(o, G, 0, args)) == Returns(o, G, 0, args);
    assert FnCalls(G, 0, args)[..|FnCalls(G, 0, args)|] == FnCalls(G, 0, args);
  }

  /**
   * A cancel in the id bucket does not stop the global bucket: when the
   * global listeners do not cancel, every one of them is still called
   * after the id bucket's walk.
   */
  lemma CancelDoesNotStopGlobal(s: State, o: Oracle, e: string, id: string, args: seq<Value>)
    requires Quiet(o) && e in s.listeners && id != "*"
    requires PlainFrom(BucketOrEmpty(s.listeners, e, id), 0) && PlainFrom(BucketOrEmpty(s.listeners, e, "*"), 0)
    requires CancelFlag !in Returns(o, BucketOrEmpty(s.listeners, e, "*"), 0, args)
    ensures var B := BucketOrEmpty(s.listeners, e, id);
      var r1 := CutAtCancel(Returns(o, B, 0, args));
      |r1| <= |FnCalls(B, 0, args)|
      && EsmEmitIdS(s, o, e, id, args).calls == FnCalls(B, 0, args)[..|r1|] + FnCalls(BucketOrEmpty(s.listeners, e, "*"), 0, args)
      && EsmEmitIdS(s, o, e, id, args).results == r1 + Returns(o, BucketOrEmpty(s.listeners, e, "*"), 0, args)
  {
    var G := BucketOrEmpty(s.listeners, e, "*");
    EsmEmitIdQuiet(s, o, e, id, args);
    ReturnsLength(o, G, 0, args);
    assert CutAtCancel(Returns(o, G, 0, args)) == Returns(o, G, 0, args);
    assert FnCalls(G, 0, args)[..|FnCalls(G, 0, args)|] == FnCalls(G, 0, args);
  }

  /** What the CommonJS `map` yields for a plain bucket: undefined for a non-function, else its value. */
  function MapValues(o: Oracle, arr: seq<Listener>, i: nat, args: seq<Value>): seq<Value>
    decreases |arr| - i
  {
    if i >= |arr| then []
    else [if arr[i].Fn? then o(arr[i].f, args).result else Undefined] + MapValues(o, arr, i + 1, args)
  }

  /** With plain listeners that issue no requests, the `map` calls each function once, in order. */
  lemma {:induction false} MapAllQuiet(s: State, o: Oracle, arr: seq<Listener>, i: nat, args: seq<Value>)
    requires Quiet(o) && PlainFrom(arr, i)
    ensures MapAll(s, o, arr, i, args) == Run(s, MapValues(o, arr, i, args), FnCalls(arr, i, args))
    decreases |arr| - i
  {
    if i < |arr| {
      MapAllQuiet(s, o, arr, i + 1, args);
      if arr[i].Fn? {
        InvokeQuiet(Cjs, s, o, arr[i], args);
      }
    }
  }

  /**
   * The CommonJS `emit` with plain global listeners that issue no
   * requests: each is called once, in order, and the flag returned is the
   * fold of their values.
   */
  lemma CjsEmitQuiet(s: State, o: Oracle, e: string, args: seq<Value>)
    requires Quiet(o) && PlainFrom(BucketOrEmpty(s.listeners, e, "*"), 0)
    ensures var G := BucketOrEmpty(s.listeners, e, "*");
      CjsEmitS(s, o, e, args) == Step(ProcessQueueS(Cjs, s.(emitting := false)), Fold(MapValues(o, G, 0, args)), FnCalls(G, 0, args))
  {
    if HasBucket(s.listeners, e, "*") {
      MapAllQuiet(s.(emitting := true), o, s.listeners[e]["*"], 0, args);
    }
  }

  /**
   * `emitId` of the CommonJS, TypeScript and Overload-based builds with
   * plain listeners that issue no requests: on a known event every
   * function of the id bucket is called once, in order, followed by every
   * function of the global bucket; an unknown event calls nothing.
   */
  lemma ScopedEmitQuiet(b: Build, s: State, o: Oracle, e: string, id: string, args: seq<Value>)
    requires Quiet(o)
    requires PlainFrom(BucketOrEmpty(s.listeners, e, id), 0) && PlainFrom(BucketOrEmpty(s.listeners, e, "*"), 0)
    ensures ScopedEmitS(b, s, o, e, id, args) == Run(ProcessQueueS(b, s.(emitting := false)), [],
      if e in s.listeners then FnCalls(BucketOrEmpty(s.listeners, e, id), 0, args) + FnCalls(BucketOrEmpty(s.listeners, e, "*"), 0, args)
      else [])
  {
    var s1 := s.(emitting := true);
    CallAllQuiet(b, s1, o, BucketOrEmpty(s.listeners, e, id), 0, args);
    CallAllQuiet(b, s1, o, BucketOrEmpty(s.listeners, e, "*"), 0, args);
    assert CallBucket(b, s1, o, e, id, args) == CallAll(b, s1, o, BucketOrEmpty(s.listeners, e, id), 0, args);
    assert CallBucket(b, s1, o, e, "*", args) == CallAll(b, s1, o, BucketOrEmpty(s.listeners, e, "*"), 0, args);
  }

  /** `emit` of the TypeScript and Overload-based builds calls every global function once, in order. */
  lemma BroadcastQuiet(b: Build, s: State, o: Oracle, e: string, args: seq<Value>)
    requires Quiet(o) && PlainFrom(BucketOrEmpty(s.listeners, e, "*"), 0)
    ensures BroadcastS(b, s, o, e, args) == Run(ProcessQueueS(b, s.(emitting := false)), [], FnCalls(BucketOrEmpty(s.listeners, e, "*"), 0, args))
  {
    var s1 := s.(emitting := true);
    CallAllQuiet(b, s1, o, BucketOrEmpty(s.listeners, e, "*"), 0, args);
    assert CallBucket(b, s1, o, e, "*", args) == CallAll(b, s1, o, BucketOrEmpty(s.listeners, e, "*"), 0, args);
  }

  /**
   * The double global call: outside the ES-module build, `emitId(e, "*")`
   * walks the global bucket twice, while `emit` walks it once.
   */
  lemma DoubleGlobalCall(b: Build, s: State, o: Oracle, e: string, args: seq<Value>)
    requires b != Esm && Quiet(o) && e in s.listeners && PlainFrom(BucketOrEmpty(s.listeners, e, "*"), 0)
    ensures var G := FnCalls(BucketOrEmpty(s.listeners, e, "*"), 0, args);
      ScopedEmitS(b, s, o, e, "*", args).calls == G + G
      && (b != Cjs ==> BroadcastS(b, s, o, e, args).calls == G)
      && (b == Cjs ==> CjsEmitS(s, o, e, args).calls == G)
  {
    ScopedEmitQuiet(b, s, o, e, "*", args);
    BroadcastQuiet(b, s, o, e, args);
    CjsEmitQuiet(s, o, e, args);
  }

  /** The bucket `rpcId(e, id)` consults: the id bucket if present, else (for id other than `"*"`) the global one. */
  function Responders(t: Table, e: string, id: string): seq<Listener>
  {
    if HasBucket(t, e, id) then t[e][id]
    else if id != "*" && HasBucket(t, e, "*") then t[e]["*"]
    else []
  }

  /**
   * `rpcId` answers with the value of element 0 of the bucket it
   * consults: with a plain function there that issues no requests, exactly
   * that function is called and its value is returned unwrapped.
   */
  lemma RpcReturnsHead(s: State, o: Oracle, e: string, id: string, args: seq<Value>)
    requires Quiet(o) && e in s.listeners
    requires |Responders(s.listeners, e, id)| > 0 && Responders(s.listeners, e, id)[0].Fn?
    ensures var f := Responders(s.listeners, e, id)[0].f;
      RpcIdS(s, o, e, id, args) == Done(Run(ProcessQueueS(Esm, s.(emitting := false)), [o(f, args).result], [Call(f, args)]))
  {
    var f := Responders(s.listeners, e, id)[0].f;
    assert o(f, args).requests == [];
  }

  /**
   * The cancellation scenario of dist/esm/tests/Emitter.test.js: of four
   * global listeners the second returns the cancel flag, so exactly two
   * are called, the results are the first value and the flag, and
   * `didCancel` reports it.
   */
  lemma CancelScenario(s: State, o: Oracle)
    requires s.listeners == map["foo" := map["*" := [Fn(1), Fn(2), Fn(3), Fn(4)]]]
    requires Quiet(o)
    requires o(1, []).result == Str("Foo1 Return Value") && o(2, []).result == CancelFlag
    ensures var r := EsmEmitS(s, o, "foo", []);
      r.results == [Str("Foo1 Return Value"), CancelFlag]
      && r.calls == [Call(1, []), Call(2, [])]
      && DidCancel(r.results)
  {
    var arr := [Fn(1), Fn(2), Fn(3), Fn(4)];
    var s1 := s.(emitting := true);
    assert ApplyRequests(Esm, s1, o(1, []).requests) == s1;
    assert InvokeS(Esm, s1, o, Fn(1), []) == Step(s1, Str("Foo1 Return Value"), [Call(1, [])]);
    assert ApplyRequests(Esm, s1, o(2, []).requests) == s1;
    assert RunFrom(s1, o, arr, 1, []) == Run(s1, [CancelFlag], [Call(2, [])]);
    assert RunFrom(s1, o, arr, 0, []) == Run(s1, [Str("Foo1 Return Value"), CancelFlag], [Call(1, []), Call(2, [])]);
    assert [Str("Foo1 Return Value"), CancelFlag][1] == CancelFlag;
  }

  /**
   * `deferEmit` with coalescing on: after any number of calls for one
   * event, exactly one emission is pending for it, carrying the last
   * call's arguments. With coalescing off it emits at once.
   */
  lemma DeferEmitLastWins(b: Build, s: State, o: Oracle, e: string, args: seq<Value>)
    requires DeferInv(s)
    ensures Coalesces(s.defer) ==> (DeferInv(DeferEmitS(b, s, o, e, args).state)
      && PendingFor(DeferEmitS(b, s, o, e, args).state.timers, e) == [DeferTimer(s.serial + 1, e, args)]
      && DeferEmitS(b, s, o, e, args).calls == [])
    ensures !Coalesces(s.defer) ==> DeferEmitS(b, s, o, e, args).calls == EmitAny(b, s, o, e, args).calls
  {
    if Coalesces(s.defer) {
      DebounceLastWins(s, e, args);
    }
  }
}
