/**
 * The CommonJS build's `Emitter` class (dist/cjs/src/Emitter.js): the
 * ES-module class without `rpc` and `didCancel`, with a flag-returning
 * asynchronous `emit` and an `emitId` that returns `none`. Every method is
 * proved against the reference functions of the `Cjs` build.
 */
module CjsEmitter {
  import opened Js
  import opened Registry
  import opened EmitterState
  import opened Registration
  import opened Dispatch

  class Emitter {
    var emitting: bool
    var removalQueue: seq<OffForm>
    var listeners: Table
    var statics: map<string, seq<StaticEntry>>
    var allowDefer: bool
    var deferTimeouts: map<string, nat>
    /** The host's pending timer callbacks and the emitter's `once` guards. */
    var timers: seq<Timer>
    var fired: map<nat, Value>
    var serial: nat

    function Snap(): State
      reads this
    {
      State(emitting, removalQueue, listeners, statics, AllowDefer(allowDefer), deferTimeouts, timers, fired, serial)
    }

    /** The class field initialisers. */
    constructor ()
      ensures Snap() == Initial(AllowDefer(false))
    {
      emitting := false;
      removalQueue := [];
      listeners := map[];
      statics := map[];
      allowDefer := false;
      deferTimeouts := map[];
      timers := [];
      fired := map[];
      serial := 0;
    }

    method InternalOn(e: string, id: string, l: Listener)
      modifies this
      ensures Snap() == OnS(Cjs, old(Snap()), e, id, l)
    {
      var events := if e in listeners then listeners[e] else map[];
      var bucket := if id in events then events[id] else [];
      listeners := listeners[e := events[id := bucket + [l]]];
      ScheduleReplays(e, id, l);
    }

    /** The loop of `_on` over the event's static ledger: one replay timer per matching entry. */
    method ScheduleReplays(e: string, id: string, l: Listener)
      modifies this`timers
      ensures timers == old(timers) + Replays(Cjs, Ledger(statics, e), id, l)
    {
      var ledger := Ledger(statics, e);
      if |ledger| == 0 {
        return;
      }
      var i := 0;
      while i < |ledger|
        invariant 0 <= i <= |ledger|
        invariant timers == old(timers) + Replays(Cjs, ledger[..i], id, l)
      {
        var entry := ledger[i];
        ReplaysSnoc(Cjs, ledger, i, id, l);
        assert ReplayOf(Cjs, entry, id, l) == if id == "*" || entry.id == id then [ReplayTimer(l, entry.args)] else [];
        if id == "*" || entry.id == id {
          timers := timers + [ReplayTimer(l, entry.args)];
        }
        i := i + 1;
      }
      assert ledger[..i] == ledger;
    }

    method InternalOnce(e: string, id: string, f: nat)
      modifies this
      ensures Snap() == OnceS(Cjs, old(Snap()), e, Some(id), f)
    {
      var g := Guard(serial, e, Some(id), f);
      serial := serial + 1;
      InternalOn(e, id, g);
    }

    method InternalOff(e: string, id: string, l: Option<FnListener>)
      modifies this
      ensures Snap() == EsmOffS(old(Snap()), e, id, l)
    {
      if !(e in listeners && id in listeners[e]) {
        return;
      }
      if emitting {
        removalQueue := removalQueue + [Closure(e, id, l)];
        return;
      }
      if l.None? {
        if id == "*" {
          listeners := listeners - {e};
          return;
        }
        listeners := listeners[e := listeners[e] - {id}];
        return;
      }
      var arr := listeners[e][id];
      var index := IndexOf(arr, l.value);
      if index > -1 {
        listeners := listeners[e := listeners[e][id := RemoveAt(arr, index)]];
      } else {
        assert listeners[e][id := arr] == listeners[e];
        assert listeners == SetBucket(listeners, e, id, arr);
      }
    }

    /** `on(e, l)` */
    method On(e: string, l: Listener)
      modifies this
      ensures Snap() == OnS(Cjs, old(Snap()), e, "*", l)
    {
      InternalOn(e, "*", l);
    }

    /** `on(e, id, l)` */
    method OnId(e: string, id: string, l: Listener)
      modifies this
      ensures Snap() == OnS(Cjs, old(Snap()), e, id, l)
    {
      InternalOn(e, id, l);
    }

    /** `once(e, f)` */
    method Once(e: string, f: nat)
      modifies this
      ensures Snap() == OnceS(Cjs, old(Snap()), e, Some("*"), f)
    {
      InternalOnce(e, "*", f);
    }

    /** `once(e, id, f)` */
    method OnceId(e: string, id: string, f: nat)
      modifies this
      ensures Snap() == OnceS(Cjs, old(Snap()), e, Some(id), f)
    {
      InternalOnce(e, id, f);
    }

    /** `overwrite(e, l)` */
    method Overwrite(e: string, l: Listener)
      modifies this
      ensures Snap() == OverwriteS(Cjs, old(Snap()), e, l)
    {
      Off(OffEvent(e));
      InternalOn(e, "*", l);
    }

    /** `overwrite(e, id, l)` */
    method OverwriteId(e: string, id: string, l: Listener)
      modifies this
      ensures Snap() == OverwriteIdS(Cjs, old(Snap()), e, id, l)
    {
      Off(OffId(e, id));
      InternalOn(e, id, l);
    }

    /** `off(e)`, `off(e, l)`, `off(e, id)` and `off(e, id, l)`. */
    method Off(form: OffForm)
      modifies this
      ensures Snap() == OffS(Cjs, old(Snap()), form)
    {
      match form
      case OffEvent(e) => InternalOff(e, "*", None);
      case OffListener(e, l) => InternalOff(e, "*", Some(l));
      case OffId(e, id) => InternalOff(e, id, None);
      case OffIdListener(e, id, l) => InternalOff(e, id, Some(l));
    }

    /** The listener's own calls of `on` and `off`, in the order it makes them. */
    method Perform(qs: seq<Request>)
      modifies this
      ensures Snap() == ApplyRequests(Cjs, old(Snap()), qs)
    {
      var i := 0;
      while i < |qs|
        invariant 0 <= i <= |qs|
        invariant Snap() == ApplyRequests(Cjs, old(Snap()), qs[..i])
      {
        ApplyRequestsSnoc(Cjs, old(Snap()), qs, i);
        match qs[i] {
          case OnRequest(e, id, f) => InternalOn(e, id, Fn(f));
          case OffRequest(form) => Off(form);
        }
        i := i + 1;
      }
      assert qs[..i] == qs;
    }

    /** `tmpFunc(...data)` for one bucket entry, a `once` guard included. */
    method Invoke(o: Oracle, l: Listener, args: seq<Value>) returns (result: Value, calls: seq<Call>)
      modifies this
      ensures var st := InvokeS(Cjs, old(Snap()), o, l, args);
        Snap() == st.state && result == st.result && calls == st.calls
    {
      match l
      case Junk(_) =>
        result, calls := Undefined, [];
      case Fn(f) =>
        var re := o(f, args);
        Perform(re.requests);
        result, calls := re.result, [Call(f, args)];
      case Guard(n, e, _, inner) =>
        if n in fired {
          result, calls := fired[n], [];
        } else {
          fired := fired[n := Undefined];
          Off(SelfOff(l));
          var re := o(inner, args);
          Perform(re.requests);
          fired := fired[n := re.result];
          result, calls := re.result, [Call(inner, args)];
        }
    }

    /** The loop of `emitStatic` / `emitStaticId` over `listeners[e][id]`. */
    method CallEach(o: Oracle, e: string, id: string, args: seq<Value>) returns (calls: seq<Call>)
      requires emitting && HasBucket(listeners, e, id)
      modifies this
      ensures var r := CallAll(Cjs, old(Snap()), o, old(listeners[e][id]), 0, args);
        Snap() == r.state && calls == r.calls
    {
      ghost var s0 := Snap();
      ghost var arr := listeners[e][id];
      var arrCount := |listeners[e][id]|;
      calls := [];
      var arrIndex := 0;
      while arrIndex < arrCount
        invariant 0 <= arrIndex <= arrCount == |arr|
        invariant emitting && Grows(s0.listeners, listeners)
        invariant CallAll(Cjs, s0, o, arr, 0, args) == Then([], calls, CallAll(Cjs, Snap(), o, arr, arrIndex, args))
      {
        assert HasBucket(listeners, e, id) && arr <= listeners[e][id];
        var tmpFunc := listeners[e][id][arrIndex];
        if !tmpFunc.Junk? {
          CallAllStep(Cjs, s0, Snap(), o, arr, arrIndex, args, calls);
          var _, c := Invoke(o, tmpFunc, args);
          calls := calls + c;
        }
        arrIndex := arrIndex + 1;
      }
    }

    /**
     * The two loops of `emitId` / `emitStaticId`: the id bucket, then the
     * global bucket, the latter whatever the id (so twice for `"*"`).
     */
    method CallIdThenGlobal(o: Oracle, e: string, id: string, args: seq<Value>) returns (calls: seq<Call>)
      requires emitting && e in listeners
      modifies this
      ensures var r1 := CallBucket(Cjs, old(Snap()), o, e, id, args);
        var r := Then([], r1.calls, CallBucket(Cjs, r1.state, o, e, "*", args));
        Snap() == r.state && calls == r.calls
    {
      ghost var s1 := Snap();
      calls := [];
      if id in listeners[e] {
        calls := CallEach(o, e, id, args);
      }
      ghost var r1 := CallBucket(Cjs, s1, o, e, id, args);
      assert Snap() == r1.state && calls == r1.calls;
      if HasBucket(s1.listeners, e, id) {
        CallAllGrows(Cjs, s1, o, s1.listeners[e][id], 0, args);
      }
      if "*" in listeners[e] {
        var c := CallEach(o, e, "*", args);
        calls := calls + c;
      }
    }

    /** `_processRemovalQueue()`, which its callers run once the flag is cleared. */
    method ProcessRemovalQueue()
      requires !emitting
      modifies this
      ensures Snap() == ProcessQueueS(Cjs, old(Snap()))
    {
      if |removalQueue| == 0 {
        return;
      }
      ghost var q := removalQueue;
      var i := 0;
      while i < |removalQueue|
        invariant 0 <= i <= |q| && removalQueue == q && !emitting
        invariant ApplyForms(Cjs, old(Snap()), q) == ApplyForms(Cjs, Snap(), q[i..])
      {
        assert q[i..][0] == q[i] && q[i..][1..] == q[i + 1..];
        Off(removalQueue[i]);
        i := i + 1;
      }
      removalQueue := [];
    }

    /**
     * `arr.map(...)` over the global bucket: one value per entry, undefined
     * for a non-function. The bucket is read live; its length is fixed first.
     */
    method MapGlobal(o: Oracle, e: string, args: seq<Value>) returns (values: seq<Value>, calls: seq<Call>)
      requires emitting && HasBucket(listeners, e, "*")
      modifies this
      ensures var r := MapAll(old(Snap()), o, old(listeners[e]["*"]), 0, args);
        Snap() == r.state && values == r.results && calls == r.calls
    {
      ghost var s0 := Snap();
      ghost var arr := listeners[e]["*"];
      var len := |listeners[e]["*"]|;
      values, calls := [], [];
      var k := 0;
      while k < len
        invariant 0 <= k <= len == |arr|
        invariant emitting && Grows(s0.listeners, listeners)
        invariant MapAll(s0, o, arr, 0, args) == Then(values, calls, MapAll(Snap(), o, arr, k, args))
      {
        assert HasBucket(listeners, e, "*") && arr <= listeners[e]["*"];
        var tmpFunc := listeners[e]["*"][k];
        MapAllStep(s0, Snap(), o, arr, k, args, values, calls);
        if tmpFunc.Junk? {
          values := values + [Undefined];
        } else {
          var v, c := Invoke(o, tmpFunc, args);
          values, calls := values + [v], calls + c;
        }
        k := k + 1;
      }
    }

    /**
     * The async `emit(e, ...data)`, the awaited values taken to be the
     * listeners' results: `cancel` iff the first value that is not `none`
     * is truthy.
     */
    method Emit(o: Oracle, e: string, args: seq<Value>) returns (flag: Value, calls: seq<Call>)
      modifies this
      ensures var st := CjsEmitS(old(Snap()), o, e, args);
        Snap() == st.state && flag == st.result && calls == st.calls
    {
      var returnFlag := EventNone;
      calls := [];
      emitting := true;
      if e in listeners && "*" in listeners[e] {
        var values;
        values, calls := MapGlobal(o, e, args);
        var result := FirstNotNone(values);
        if Truthy(result) {
          returnFlag := EventCancel;
        }
      }
      emitting := false;
      ProcessRemovalQueue();
      flag := returnFlag;
    }

    /** `emitId(e, id, ...data)`: always `none`; the global bucket runs unconditionally. */
    method EmitId(o: Oracle, e: string, id: string, args: seq<Value>) returns (flag: Value, calls: seq<Call>)
      modifies this
      ensures var r := ScopedEmitS(Cjs, old(Snap()), o, e, id, args);
        Snap() == r.state && flag == EventNone && calls == r.calls
    {
      emitting := true;
      flag, calls := EventNone, [];
      if e !in listeners {
        emitting := false;
        ProcessRemovalQueue();
        return;
      }
      calls := CallIdThenGlobal(o, e, id, args);
      emitting := false;
      ProcessRemovalQueue();
    }

    /** `emitStatic(e, ...data)` */
    method EmitStatic(o: Oracle, e: string, args: seq<Value>) returns (calls: seq<Call>)
      modifies this
      ensures var r := EmitStaticS(Cjs, old(Snap()), o, e, args);
        Snap() == r.state && calls == r.calls
    {
      emitting := true;
      calls := [];
      if e in listeners && "*" in listeners[e] {
        calls := CallEach(o, e, "*", args);
      }
      emitting := false;
      statics := statics[e := Ledger(statics, e) + [StaticEntry("*", args)]];
      ProcessRemovalQueue();
    }

    /** `emitStaticId(e, id, ...data)` */
    method EmitStaticId(o: Oracle, e: string, id: string, args: seq<Value>) returns (thrown: Option<Failure>, calls: seq<Call>)
      modifies this
      ensures var a := EmitStaticIdS(Cjs, old(Snap()), o, e, Some(id), args);
        Snap() == Reached(a)
        && (a.Done? ==> thrown == None && calls == a.run.calls)
        && (a.Threw? ==> thrown == Some(a.failure) && calls == [])
    {
      if id == "" {
        return Some(MissingId), [];
      }
      thrown, calls := None, [];
      emitting := true;
      if e in listeners {
        calls := CallIdThenGlobal(o, e, id, args);
      }
      emitting := false;
      statics := statics[e := Ledger(statics, e) + [StaticEntry(id, args)]];
      ProcessRemovalQueue();
    }

    /** `cancelStatic(e)` */
    method CancelStatic(e: string)
      modifies this
      ensures Snap() == CancelStaticS(old(Snap()), e)
    {
      statics := statics[e := []];
    }

    /** `willEmit(e)` */
    method WillEmit(e: string) returns (r: Answer)
      ensures r == WillEmitS(Snap(), e)
    {
      if e !in listeners {
        return Answer(false);
      }
      if "*" !in listeners[e] {
        return Failed(TypeError);
      }
      var b := HasFunction(listeners[e]["*"]);
      return Answer(b);
    }

    /** `willEmitId(e, id)` */
    method WillEmitId(e: string, id: string) returns (b: bool)
      ensures b == WillEmitIdS(Snap(), e, id)
    {
      if e !in listeners {
        return false;
      }
      if id in listeners[e] {
        b := HasFunction(listeners[e][id]);
        if b {
          return;
        }
      }
      if "*" in listeners[e] {
        b := HasFunction(listeners[e]["*"]);
        return;
      }
      return false;
    }

    /** `deferEmit(e, ...data)` */
    method DeferEmit(o: Oracle, e: string, args: seq<Value>) returns (calls: seq<Call>)
      modifies this
      ensures var r := DeferEmitS(Cjs, old(Snap()), o, e, args);
        Snap() == r.state && calls == r.calls
    {
      if !allowDefer {
        if e in deferTimeouts {
          timers := ClearTimer(timers, deferTimeouts[e]);
        }
        serial := serial + 1;
        timers := timers + [DeferTimer(serial, e, args)];
        deferTimeouts := deferTimeouts[e := serial];
        calls := [];
      } else {
        var _, c := Emit(o, e, args);
        calls := c;
      }
    }

    /** The host runs the oldest pending timer callback. */
    method Tick(o: Oracle) returns (calls: seq<Call>)
      modifies this
      ensures var r := TickS(Cjs, old(Snap()), o);
        Snap() == r.state && calls == r.calls
    {
      if timers == [] {
        return [];
      }
      var t := timers[0];
      timers := timers[1..];
      match t
      case ReplayTimer(l, args) =>
        var _, c := Invoke(o, l, args);
        calls := c;
      case DeferTimer(_, e, args) =>
        var _, c := Emit(o, e, args);
        calls := c;
    }
  }
}
