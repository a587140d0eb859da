/**
 * The Overload-based mixin of dist/Emitter.js (`EventMethods`, copied
 * onto an object by `Emitter(obj, prototypeMode)`) as a class over the
 * properties it keeps on that object. Each public method is one
 * `Overload` whose signatures select the branch; the resolver itself is
 * modelled in the Overload module. Every method is proved against the
 * reference functions of the `Dist` build.
 */
module DistEmitter {
  import opened Js
  import opened Registry
  import opened EmitterState
  import opened Registration
  import opened Dispatch

  class Emitter {
    var emitting: bool
    var removalQueue: seq<OffForm>
    var listeners: Table
    var statics: map<string, seq<StaticEntry>>
    /** `_noEmitDefer`, and `_db._noEmitDefer` when a `_db` is attached. */
    var noEmitDefer: bool
    var db: Option<bool>
    var deferTimeouts: map<string, nat>
    /** The host's pending timer callbacks and the emitter's `once` guards. */
    var timers: seq<Timer>
    var fired: map<nat, Value>
    var serial: nat

    function Snap(): State
      reads this
    {
      State(emitting, removalQueue, listeners, statics, NoEmitDefer(noEmitDefer, db), deferTimeouts, timers, fired, serial)
    }

    /** A fresh object: no property is set yet, and every use reads a missing one as empty or false. */
    constructor ()
      ensures Snap() == Initial(NoEmitDefer(false, None))
    {
      emitting := false;
      removalQueue := [];
      listeners := map[];
      statics := map[];
      noEmitDefer := false;
      db := None;
      deferTimeouts := map[];
      timers := [];
      fired := map[];
      serial := 0;
    }

    method InternalOn(e: string, id: string, l: Listener)
      modifies this
      ensures Snap() == OnS(Dist, old(Snap()), e, id, l)
    {
      var events := if e in listeners then listeners[e] else map[];
      var bucket := if id in events then events[id] else [];
      listeners := listeners[e := events[id := bucket + [l]]];
      ScheduleReplays(e, id, l);
    }

    /**
     * The loop of `_on` over the event's static ledger. Each pass binds
     * the whole ledger array, whose `id` and `args` are undefined: only a
     * global listener gets replays, called without arguments.
     */
    method ScheduleReplays(e: string, id: string, l: Listener)
      modifies this`timers
      ensures timers == old(timers) + Replays(Dist, Ledger(statics, e), id, l)
    {
      var ledger := Ledger(statics, e);
      if |ledger| == 0 {
        return;
      }
      var i := 0;
      while i < |ledger|
        invariant 0 <= i <= |ledger|
        invariant timers == old(timers) + Replays(Dist, ledger[..i], id, l)
      {
        ReplaysSnoc(Dist, ledger, i, id, l);
        if id == "*" {
          timers := timers + [ReplayTimer(l, [])];
        }
        i := i + 1;
      }
      assert ledger[..i] == ledger;
    }

    /**
     * The guard `once` registers: unscoped for `once(e, f)`, which removes
     * itself with `off(e, guard)`; scoped for `once(e, id, f)`, which uses
     * `off(e, id, guard)`.
     */
    method InternalOnce(e: string, scope: Option<string>, f: nat)
      modifies this
      ensures Snap() == OnceS(Dist, old(Snap()), e, scope, f)
    {
      var g := Guard(serial, e, scope, f);
      serial := serial + 1;
      InternalOn(e, if scope.Some? then scope.value else "*", g);
    }

    /** `on` with signature `"string, function"` */
    method On(e: string, l: FnListener)
      modifies this
      ensures Snap() == OnS(Dist, old(Snap()), e, "*", l)
    {
      InternalOn(e, "*", l);
    }

    /** `on` with signature `"string, *, function"` */
    method OnId(e: string, id: string, l: FnListener)
      modifies this
      ensures Snap() == OnS(Dist, old(Snap()), e, id, l)
    {
      InternalOn(e, id, l);
    }

    /** `once` with signature `"string, function"` */
    method Once(e: string, f: nat)
      modifies this
      ensures Snap() == OnceS(Dist, old(Snap()), e, None, f)
    {
      InternalOnce(e, None, f);
    }

    /** `once` with signature `"string, *, function"` */
    method OnceId(e: string, id: string, f: nat)
      modifies this
      ensures Snap() == OnceS(Dist, old(Snap()), e, Some(id), f)
    {
      InternalOnce(e, Some(id), f);
    }

    /** `one` with signature `"string, function"`: `off(e)`, then `on(e, l)`. */
    method One(e: string, l: FnListener)
      modifies this
      ensures Snap() == OverwriteS(Dist, old(Snap()), e, l)
    {
      Off(OffEvent(e));
      InternalOn(e, "*", l);
    }

    /** `one` with signature `"string, *, function"`: `off(e, id)`, then `on(e, id, l)`. */
    method OneId(e: string, id: string, l: FnListener)
      modifies this
      ensures Snap() == OverwriteIdS(Dist, old(Snap()), e, id, l)
    {
      Off(OffId(e, id));
      InternalOn(e, id, l);
    }

    /**
     * The four `off` signatures: `"string"`, `"string, function"`,
     * `"string, *, function"` and `"string, *"`. Each queues a call of
     * itself while emitting.
     */
    method Off(form: OffForm)
      modifies this
      ensures Snap() == DistOffS(old(Snap()), form)
    {
      if emitting {
        removalQueue := removalQueue + [form];
        return;
      }
      match form
      case OffEvent(e) =>
        if e in listeners {
          listeners := listeners - {e};
        }
      case OffListener(e, l) =>
        if e in listeners {
          var arr := if "*" in listeners[e] then listeners[e]["*"] else [];
          var index := IndexOf(arr, l);
          if index > -1 {
            listeners := listeners[e := listeners[e]["*" := RemoveAt(arr, index)]];
          } else if "*" in listeners[e] {
            assert listeners[e]["*" := arr] == listeners[e];
            assert listeners == SetBucket(listeners, e, "*", arr);
          }
        }
      case OffIdListener(e, id, l) =>
        if e in listeners && id in listeners[e] {
          var arr := listeners[e][id];
          var index := IndexOf(arr, l);
          if index > -1 {
            listeners := listeners[e := listeners[e][id := RemoveAt(arr, index)]];
          } else {
            assert listeners[e][id := arr] == listeners[e];
            assert listeners == SetBucket(listeners, e, id, arr);
          }
        }
      case OffId(e, id) =>
        if e in listeners && id in listeners[e] {
          listeners := listeners[e := listeners[e] - {id}];
        }
    }

    /** The listener's own calls of `on` and `off`, in the order it makes them. */
    method Perform(qs: seq<Request>)
      modifies this
      ensures Snap() == ApplyRequests(Dist, old(Snap()), qs)
    {
      var i := 0;
      while i < |qs|
        invariant 0 <= i <= |qs|
        invariant Snap() == ApplyRequests(Dist, old(Snap()), qs[..i])
      {
        ApplyRequestsSnoc(Dist, old(Snap()), qs, i);
        match qs[i] {
          case OnRequest(e, id, f) => InternalOn(e, id, Fn(f));
          case OffRequest(form) => Off(form);
        }
        i := i + 1;
      }
      assert qs[..i] == qs;
    }

    /** `tmpFunc(...data)` for one bucket entry, a `once` guard included. */
    method Invoke(o: Oracle, l: Listener, args: seq<Value>) returns (result: Value, calls: seq<Call>)
      modifies this
      ensures var st := InvokeS(Dist, old(Snap()), o, l, args);
        Snap() == st.state && result == st.result && calls == st.calls
    {
      match l
      case Junk(_) =>
        result, calls := Undefined, [];
      case Fn(f) =>
        var re := o(f, args);
        Perform(re.requests);
        result, calls := re.result, [Call(f, args)];
      case Guard(n, e, _, inner) =>
        if n in fired {
          result, calls := fired[n], [];
        } else {
          fired := fired[n := Undefined];
          Off(SelfOff(l));
          var re := o(inner, args);
          Perform(re.requests);
          fired := fired[n := Undefined];
          result, calls := Undefined, [Call(inner, args)];
        }
    }

    /** The loop of `emitStatic` / `emitStaticId` over `listeners[e][id]`. */
    method CallEach(o: Oracle, e: string, id: string, args: seq<Value>) returns (calls: seq<Call>)
      requires emitting && HasBucket(listeners, e, id)
      modifies this
      ensures var r := CallAll(Dist, old(Snap()), o, old(listeners[e][id]), 0, args);
        Snap() == r.state && calls == r.calls
    {
      ghost var s0 := Snap();
      ghost var arr := listeners[e][id];
      var arrCount := |listeners[e][id]|;
      calls := [];
      var arrIndex := 0;
      while arrIndex < arrCount
        invariant 0 <= arrIndex <= arrCount == |arr|
        invariant emitting && Grows(s0.listeners, listeners)
        invariant CallAll(Dist, s0, o, arr, 0, args) == Then([], calls, CallAll(Dist, Snap(), o, arr, arrIndex, args))
      {
        assert HasBucket(listeners, e, id) && arr <= listeners[e][id];
        var tmpFunc := listeners[e][id][arrIndex];
        if !tmpFunc.Junk? {
          CallAllStep(Dist, s0, Snap(), o, arr, arrIndex, args, calls);
          var _, c := Invoke(o, tmpFunc, args);
          calls := calls + c;
        }
        arrIndex := arrIndex + 1;
      }
    }

    /**
     * The two loops of `emitId` / `emitStaticId`: the id bucket, then the
     * global bucket, the latter whatever the id (so twice for `"*"`).
     */
    method CallIdThenGlobal(o: Oracle, e: string, id: string, args: seq<Value>) returns (calls: seq<Call>)
      requires emitting && e in listeners
      modifies this
      ensures var r1 := CallBucket(Dist, old(Snap()), o, e, id, args);
        var r := Then([], r1.calls, CallBucket(Dist, r1.state, o, e, "*", args));
        Snap() == r.state && calls == r.calls
    {
      ghost var s1 := Snap();
      calls := [];
      if id in listeners[e] {
        calls := CallEach(o, e, id, args);
      }
      ghost var r1 := CallBucket(Dist, s1, o, e, id, args);
      assert Snap() == r1.state && calls == r1.calls;
      if HasBucket(s1.listeners, e, id) {
        CallAllGrows(Dist, s1, o, s1.listeners[e][id], 0, args);
      }
      if "*" in listeners[e] {
        var c := CallEach(o, e, "*", args);
        calls := calls + c;
      }
    }

    /** `_processRemovalQueue()`, which its callers run once the flag is cleared. */
    method ProcessRemovalQueue()
      requires !emitting
      modifies this
      ensures Snap() == ProcessQueueS(Dist, old(Snap()))
    {
      if |removalQueue| == 0 {
        return;
      }
      ghost var q := removalQueue;
      var i := 0;
      while i < |removalQueue|
        invariant 0 <= i <= |q| && removalQueue == q && !emitting
        invariant ApplyForms(Dist, old(Snap()), q) == ApplyForms(Dist, Snap(), q[i..])
      {
        assert q[i..][0] == q[i] && q[i..][1..] == q[i + 1..];
        Off(removalQueue[i]);
        i := i + 1;
      }
      removalQueue := [];
    }

    /** `emit(e, ...data)`: the global bucket only. */
    method Emit(o: Oracle, e: string, args: seq<Value>) returns (calls: seq<Call>)
      modifies this
      ensures var r := BroadcastS(Dist, old(Snap()), o, e, args);
        Snap() == r.state && calls == r.calls
    {
      emitting := true;
      calls := [];
      if e in listeners && "*" in listeners[e] {
        calls := CallEach(o, e, "*", args);
      }
      emitting := false;
      ProcessRemovalQueue();
    }

    /**
     * `emitId`: the signature `"string"` throws before anything changes;
     * otherwise the id bucket runs, then the global bucket unconditionally.
     */
    method EmitId(o: Oracle, e: string, id: Option<string>, args: seq<Value>) returns (thrown: Option<Failure>, calls: seq<Call>)
      modifies this
      ensures id.None? ==> thrown == Some(MissingId) && calls == [] && Snap() == old(Snap())
      ensures id.Some? ==> (var r := ScopedEmitS(Dist, old(Snap()), o, e, id.value, args);
        thrown == None && Snap() == r.state && calls == r.calls)
    {
      if id.None? {
        return Some(MissingId), [];
      }
      thrown := None;
      calls := EmitIdMain(o, e, id.value, args);
    }

    /** `emitId`'s `$main(event, id, ...data)` */
    method EmitIdMain(o: Oracle, e: string, id: string, args: seq<Value>) returns (calls: seq<Call>)
      modifies this
      ensures var r := ScopedEmitS(Dist, old(Snap()), o, e, id, args);
        Snap() == r.state && calls == r.calls
    {
      emitting := true;
      calls := [];
      if e !in listeners {
        emitting := false;
        ProcessRemovalQueue();
        return;
      }
      calls := CallIdThenGlobal(o, e, id, args);
      emitting := false;
      ProcessRemovalQueue();
    }

    /** `emitStatic(e, ...data)` */
    method EmitStatic(o: Oracle, e: string, args: seq<Value>) returns (calls: seq<Call>)
      modifies this
      ensures var r := EmitStaticS(Dist, old(Snap()), o, e, args);
        Snap() == r.state && calls == r.calls
    {
      emitting := true;
      calls := [];
      if e in listeners && "*" in listeners[e] {
        calls := CallEach(o, e, "*", args);
      }
      emitting := false;
      statics := statics[e := Ledger(statics, e) + [StaticEntry("*", args)]];
      ProcessRemovalQueue();
    }

    /**
     * `emitStaticId`: the signature `"string"` throws; any given id, even
     * an empty one, is accepted.
     */
    method EmitStaticId(o: Oracle, e: string, id: Option<string>, args: seq<Value>) returns (thrown: Option<Failure>, calls: seq<Call>)
      modifies this
      ensures var a := EmitStaticIdS(Dist, old(Snap()), o, e, id, args);
        Snap() == Reached(a)
        && (a.Done? ==> thrown == None && calls == a.run.calls)
        && (a.Threw? ==> thrown == Some(a.failure) && calls == [])
    {
      if id.None? {
        return Some(MissingId), [];
      }
      var key := id.value;
      thrown, calls := None, [];
      emitting := true;
      if e in listeners {
        calls := CallIdThenGlobal(o, e, key, args);
      }
      emitting := false;
      statics := statics[e := Ledger(statics, e) + [StaticEntry(key, args)]];
      ProcessRemovalQueue();
    }

    /** `cancelStatic(e)` */
    method CancelStatic(e: string)
      modifies this
      ensures Snap() == CancelStaticS(old(Snap()), e)
    {
      statics := statics[e := []];
    }

    /** `willEmit(e)` */
    method WillEmit(e: string) returns (r: Answer)
      ensures r == WillEmitS(Snap(), e)
    {
      if e !in listeners {
        return Answer(false);
      }
      if "*" !in listeners[e] {
        return Failed(TypeError);
      }
      var b := HasFunction(listeners[e]["*"]);
      return Answer(b);
    }

    /** `willEmitId(e, id)` */
    method WillEmitId(e: string, id: string) returns (b: bool)
      ensures b == WillEmitIdS(Snap(), e, id)
    {
      if e !in listeners {
        return false;
      }
      if id in listeners[e] {
        b := HasFunction(listeners[e][id]);
        if b {
          return;
        }
      }
      if "*" in listeners[e] {
        b := HasFunction(listeners[e]["*"]);
        return;
      }
      return false;
    }

    /** `deferEmit(e, ...data)` */
    method DeferEmit(o: Oracle, e: string, args: seq<Value>) returns (calls: seq<Call>)
      modifies this
      ensures var r := DeferEmitS(Dist, old(Snap()), o, e, args);
        Snap() == r.state && calls == r.calls
    {
      if !noEmitDefer && (db.None? || !db.value) {
        if e in deferTimeouts {
          timers := ClearTimer(timers, deferTimeouts[e]);
        }
        serial := serial + 1;
        timers := timers + [DeferTimer(serial, e, args)];
        deferTimeouts := deferTimeouts[e := serial];
        calls := [];
      } else {
        calls := Emit(o, e, args);
      }
    }

    /** The host runs the oldest pending timer callback. */
    method Tick(o: Oracle) returns (calls: seq<Call>)
      modifies this
      ensures var r := TickS(Dist, old(Snap()), o);
        Snap() == r.state && calls == r.calls
    {
      if timers == [] {
        return [];
      }
      var t := timers[0];
      timers := timers[1..];
      match t
      case ReplayTimer(l, args) =>
        var _, c := Invoke(o, l, args);
        calls := c;
      case DeferTimer(_, e, args) =>
        calls := Emit(o, e, args);
    }
  }
}
