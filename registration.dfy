/**
 * Reference semantics of what the four class-based builds do to the
 * listener registry: registration with ledger replay, removal with the
 * emitting-flag queue, `once` guards, the removal-queue flush, the counted
 * loops of the static emitters, and the `willEmit` queries. A `Build`
 * parameter selects the few places where the builds differ.
 */
module Registration {
  import opened Js
  import opened Registry
  import opened EmitterState

  /**
   * Which copy of the class is meant: dist/esm/src/Emitter.js,
   * dist/cjs/src/Emitter.js, src/Emitter.ts, or the Overload-based
   * dist/Emitter.js.
   */
  datatype Build = Esm | Cjs | Ts | Dist

  /** Do replays read ledger entry `i` (rather than the whole ledger array)? */
  predicate ReadsEntry(b: Build)
  {
    b == Esm || b == Cjs
  }

  // ---------------------------------------------------------------- registration

  /**
   * The replay one ledger entry schedules for a listener with scope `id`.
   * The ES-module and CommonJS builds test `entry.id`. The TypeScript and
   * Overload-based builds bind the whole ledger array instead, whose `id`
   * and `args` are undefined: only a global listener matches, and it is
   * called with no arguments.
   */
  function ReplayOf(b: Build, entry: StaticEntry, id: string, l: Listener): seq<Timer>
  {
    if ReadsEntry(b) then
      (if id == "*" || entry.id == id then [ReplayTimer(l, entry.args)] else [])
    else
      (if id == "*" then [ReplayTimer(l, [])] else [])
  }

  /** The replay timers `_on` schedules from an event's ledger, in ledger order. */
  function Replays(b: Build, ledger: seq<StaticEntry>, id: string, l: Listener): seq<Timer>
  {
    if ledger == [] then []
    else Replays(b, ledger[..|ledger| - 1], id, l) + ReplayOf(b, ledger[|ledger| - 1], id, l)
  }

  lemma ReplaysSnoc(b: Build, ledger: seq<StaticEntry>, i: nat, id: string, l: Listener)
    requires i < |ledger|
    ensures Replays(b, ledger[..i + 1], id, l) == Replays(b, ledger[..i], id, l) + ReplayOf(b, ledger[i], id, l)
  {
    assert ledger[..i + 1][..i] == ledger[..i];
  }

  /** `_on(e, id, l)`: append to the (possibly new) bucket, then schedule the ledger's replays. */
  function OnS(b: Build, s: State, e: string, id: string, l: Listener): (r: State)
    ensures HasBucket(r.listeners, e, id) && r.listeners[e][id] == BucketOrEmpty(s.listeners, e, id) + [l]
    ensures SameElsewhere(s.listeners, r.listeners, e, id)
    ensures r.timers == s.timers + Replays(b, Ledger(s.statics, e), id, l)
    ensures r.statics == s.statics && r.queue == s.queue && r.emitting == s.emitting
    ensures r.fired == s.fired && r.serial == s.serial && r.deferTimeouts == s.deferTimeouts
  {
    s.(listeners := Push(s.listeners, e, id, l), timers := s.timers + Replays(b, Ledger(s.statics, e), id, l))
  }

  /**
   * `_once` / `once`: a fresh guard closure around `f`, registered with
   * `on` under the guard's id (`"*"` for an unscoped guard).
   */
  function OnceS(b: Build, s: State, e: string, scope: Option<string>, f: nat): State
  {
    var g := Guard(s.serial, e, scope, f);
    OnS(b, s.(serial := s.serial + 1), e, if scope.Some? then scope.value else "*", g)
  }

  /** The closure `_off` queues: `() => this.off(event, id, listener)`. */
  function Closure(e: string, id: string, l: Option<FnListener>): OffForm
  {
    if l.None? then OffId(e, id) else OffIdListener(e, id, l.value)
  }

  /**
   * `_off(e, id, listener)` of the ES-module and CommonJS builds: the
   * bucket's existence is checked first, then the emitting flag; an absent
   * listener deletes the bucket (the whole event for id `"*"`); a given one
   * is spliced out at its first occurrence.
   */
  function EsmOffS(s: State, e: string, id: string, l: Option<FnListener>): (r: State)
    ensures !HasBucket(s.listeners, e, id) ==> r == s
    ensures s.emitting ==> r.listeners == s.listeners
    ensures s.emitting && HasBucket(s.listeners, e, id) ==> r.queue == s.queue + [Closure(e, id, l)]
    ensures !s.emitting ==> r.queue == s.queue
    ensures !s.emitting && HasBucket(s.listeners, e, id) && l.None? && id == "*" ==>
      r.listeners == DeleteEvent(s.listeners, e)
    ensures !s.emitting && HasBucket(s.listeners, e, id) && l.None? && id != "*" ==>
      !HasBucket(r.listeners, e, id) && e in r.listeners && SameElsewhere(s.listeners, r.listeners, e, id)
    ensures !s.emitting && HasBucket(s.listeners, e, id) && l.Some? ==>
      HasBucket(r.listeners, e, id) && r.listeners[e][id] == RemoveFirst(s.listeners[e][id], l.value)
      && SameElsewhere(s.listeners, r.listeners, e, id)
    ensures r.statics == s.statics && r.emitting == s.emitting && r.timers == s.timers
    ensures r.fired == s.fired && r.serial == s.serial && r.deferTimeouts == s.deferTimeouts
  {
    if !HasBucket(s.listeners, e, id) then s
    else if s.emitting then s.(queue := s.queue + [Closure(e, id, l)])
    else if l.None? then
      if id == "*" then s.(listeners := DeleteEvent(s.listeners, e))
      else s.(listeners := DeleteBucket(s.listeners, e, id))
    else s.(listeners := SetBucket(s.listeners, e, id, RemoveFirst(s.listeners[e][id], l.value)))
  }

  /**
   * `_off(event, id, listener)` of src/Emitter.ts: the emitting flag is
   * checked first, so a removal is queued even when nothing matches. The
   * delete branch needs a truthy id; with the empty id and no listener the
   * code falls through to `indexOf(undefined)`.
   */
  function TsOffS(s: State, e: string, id: string, l: Option<FnListener>): (r: State)
    ensures s.emitting ==> r == s.(queue := s.queue + [Closure(e, id, l)])
    ensures !s.emitting && !HasBucket(s.listeners, e, id) ==> r == s
    ensures !s.emitting ==> r.queue == s.queue
    ensures !s.emitting && HasBucket(s.listeners, e, id) && id != "" && l.None? && id == "*" ==>
      r.listeners == DeleteEvent(s.listeners, e)
    ensures !s.emitting && HasBucket(s.listeners, e, id) && id != "" && l.None? && id != "*" ==>
      !HasBucket(r.listeners, e, id) && e in r.listeners && SameElsewhere(s.listeners, r.listeners, e, id)
    ensures !s.emitting && HasBucket(s.listeners, e, id) && l.Some? ==>
      HasBucket(r.listeners, e, id) && r.listeners[e][id] == RemoveFirst(s.listeners[e][id], l.value)
      && SameElsewhere(s.listeners, r.listeners, e, id)
    ensures !s.emitting && HasBucket(s.listeners, e, id) && id == "" && l.None? ==>
      HasBucket(r.listeners, e, id) && r.listeners[e][id] == RemoveFirst(s.listeners[e][id], Junk(Undefined))
    ensures r.statics == s.statics && r.emitting == s.emitting && r.timers == s.timers
    ensures r.fired == s.fired && r.serial == s.serial && r.deferTimeouts == s.deferTimeouts
  {
    if s.emitting then s.(queue := s.queue + [Closure(e, id, l)])
    else if !HasBucket(s.listeners, e, id) then s
    else if id != "" && l.None? then
      if id == "*" then s.(listeners := DeleteEvent(s.listeners, e))
      else s.(listeners := DeleteBucket(s.listeners, e, id))
    else
      var x := if l.None? then Junk(Undefined) else l.value;
      s.(listeners := SetBucket(s.listeners, e, id, RemoveFirst(s.listeners[e][id], x)))
  }

  /**
   * The four `off` overloads of dist/Emitter.js. Each queues itself while
   * emitting; `off(event)` deletes the whole event, `off(event, id)` one
   * bucket (for `"*"` too), `off(event, l)` splices the global bucket only.
   */
  function DistOffS(s: State, form: OffForm): (r: State)
    ensures s.emitting ==> r == s.(queue := s.queue + [form])
    ensures !s.emitting ==> r.queue == s.queue
    ensures !s.emitting && form.OffEvent? ==> r.listeners == DeleteEvent(s.listeners, form.event)
    ensures !s.emitting && form.OffId? && HasBucket(s.listeners, form.event, form.id) ==>
      form.event in r.listeners && !HasBucket(r.listeners, form.event, form.id)
      && SameElsewhere(s.listeners, r.listeners, form.event, form.id)
    ensures !s.emitting && !form.OffEvent? && !HasBucket(s.listeners, form.event, FormId(form)) ==> r == s
    ensures !s.emitting && FormListener(form).Some? && HasBucket(s.listeners, form.event, FormId(form)) ==>
      HasBucket(r.listeners, form.event, FormId(form))
      && r.listeners[form.event][FormId(form)] == RemoveFirst(s.listeners[form.event][FormId(form)], FormListener(form).value)
      && SameElsewhere(s.listeners, r.listeners, form.event, FormId(form))
    ensures r.statics == s.statics && r.emitting == s.emitting && r.timers == s.timers
    ensures r.fired == s.fired && r.serial == s.serial && r.deferTimeouts == s.deferTimeouts
  {
    if s.emitting then s.(queue := s.queue + [form])
    else
      match form
      case OffEvent(e) => s.(listeners := DeleteEvent(s.listeners, e))
      case OffListener(e, l) =>
        if HasBucket(s.listeners, e, "*") then s.(listeners := SetBucket(s.listeners, e, "*", RemoveFirst(s.listeners[e]["*"], l)))
        else s
      case OffId(e, id) =>
        if HasBucket(s.listeners, e, id) then s.(listeners := DeleteBucket(s.listeners, e, id)) else s
      case OffIdListener(e, id, l) =>
        if HasBucket(s.listeners, e, id) then s.(listeners := SetBucket(s.listeners, e, id, RemoveFirst(s.listeners[e][id], l)))
        else s
  }

  /** Any public form of `off`, in the given build. */
  function OffS(b: Build, s: State, form: OffForm): State
  {
    match b
    case Dist => DistOffS(s, form)
    case Ts => TsOffS(s, form.event, FormId(form), FormListener(form))
    case _ => EsmOffS(s, form.event, FormId(form), FormListener(form))
  }

  /** `overwrite(e, l)` / `one(e, l)`: `off(e)` then `on(e, l)`. */
  function OverwriteS(b: Build, s: State, e: string, l: Listener): State
  {
    OnS(b, OffS(b, s, OffEvent(e)), e, "*", l)
  }

  /** `overwrite(e, id, l)` / `one(e, id, l)`: `off(e, id)` then `on(e, id, l)`. */
  function OverwriteIdS(b: Build, s: State, e: string, id: string, l: Listener): State
  {
    OnS(b, OffS(b, s, OffId(e, id)), e, id, l)
  }

  // ---------------------------------------------------------------- invoking listeners

  function ApplyRequest(b: Build, s: State, q: Request): State
  {
    match q
    case OnRequest(e, id, f) => OnS(b, s, e, id, Fn(f))
    case OffRequest(form) => OffS(b, s, form)
  }

  /** The registrations and removals a listener performs, in order. */
  function ApplyRequests(b: Build, s: State, qs: seq<Request>): State
    decreases |qs|
  {
    if qs == [] then s else ApplyRequest(b, ApplyRequests(b, s, qs[..|qs| - 1]), qs[|qs| - 1])
  }

  /**
   * The arguments a guard passes to the listener it wraps: the call's own,
   * except in src/Emitter.ts, where the arrow function's `arguments` are
   * those of `_once(event, id, listener)`.
   */
  function GuardArgs(b: Build, g: Listener, args: seq<Value>): seq<Value>
    requires g.Guard?
  {
    if b == Ts then [Str(g.event), Str(if g.scope.Some? then g.scope.value else "*"), Func(g.inner)] else args
  }

  /**
   * Calling one bucket entry. A plain function answers through the oracle.
   * A `once` guard that has fired returns what it kept and calls nothing;
   * otherwise it marks itself fired, removes itself with `off`, calls the
   * wrapped listener and keeps its result (the ES-module and CommonJS
   * builds) or nothing (the other two). A non-function, reachable only
   * from a replay timer, throws inside that timer and changes nothing.
   */
  function InvokeS(b: Build, s: State, o: Oracle, l: Listener, args: seq<Value>): Step
  {
    match l
    case Junk(_) => Step(s, Undefined, [])
    case Fn(f) =>
      var re := o(f, args);
      Step(ApplyRequests(b, s, re.requests), re.result, [Call(f, args)])
    case Guard(n, _, _, inner) =>
      if n in s.fired then Step(s, s.fired[n], [])
      else
        var s1 := OffS(b, s.(fired := s.fired[n := Undefined]), SelfOff(l));
        var re := o(inner, GuardArgs(b, l, args));
        var s2 := ApplyRequests(b, s1, re.requests);
        var kept := if ReadsEntry(b) then re.result else Undefined;
        Step(s2.(fired := s2.fired[n := kept]), kept, [Call(inner, GuardArgs(b, l, args))])
  }

  /** The counted loop over a bucket whose results are dropped: every function entry is called. */
  function CallAll(b: Build, s: State, o: Oracle, arr: seq<Listener>, i: nat, args: seq<Value>): Run
    decreases |arr| - i
  {
    if i >= |arr| then Run(s, [], [])
    else if arr[i].Junk? then CallAll(b, s, o, arr, i + 1, args)
    else
      var st := InvokeS(b, s, o, arr[i], args);
      Then([], st.calls, CallAll(b, st.state, o, arr, i + 1, args))
  }

  /** `if (listeners[e][id]) { for (...) tmpFunc.call(this, ...data) }` */
  function CallBucket(b: Build, s: State, o: Oracle, e: string, id: string, args: seq<Value>): Run
  {
    if HasBucket(s.listeners, e, id) then CallAll(b, s, o, s.listeners[e][id], 0, args) else Run(s, [], [])
  }

  lemma ApplyRequestsSnoc(b: Build, s: State, qs: seq<Request>, i: nat)
    requires i < |qs|
    ensures ApplyRequests(b, s, qs[..i + 1]) == ApplyRequest(b, ApplyRequests(b, s, qs[..i]), qs[i])
  {
    assert qs[..i + 1][..i] == qs[..i];
  }

  /** Runs the queued `off` calls, first to last. */
  function ApplyForms(b: Build, s: State, q: seq<OffForm>): State
    decreases |q|
  {
    if q == [] then s else ApplyForms(b, OffS(b, s, q[0]), q[1..])
  }

  /** `_processRemovalQueue()`: every queued `off` in order, then an empty queue. */
  function ProcessQueueS(b: Build, s: State): (r: State)
    ensures r.queue == []
  {
    ApplyForms(b, s, s.queue).(queue := [])
  }

  // ---------------------------------------------------------------- queries and the ledger

  /**
   * `willEmit(e)`: false for an unknown event; otherwise it reads the
   * global bucket's length, which is a TypeError when there is none.
   */
  function WillEmitS(s: State, e: string): (r: Answer)
    ensures r == Answer(true) <==> HasBucket(s.listeners, e, "*") && AnyFunction(s.listeners[e]["*"])
    ensures r == Failed(TypeError) <==> e in s.listeners && "*" !in s.listeners[e]
  {
    if e !in s.listeners then Answer(false)
    else if "*" !in s.listeners[e] then Failed(TypeError)
    else Answer(AnyFunction(s.listeners[e]["*"]))
  }

  /** `willEmitId(e, id)`: does the id bucket or the global bucket hold a function? */
  function WillEmitIdS(s: State, e: string, id: string): (b: bool)
    ensures b <==> (HasBucket(s.listeners, e, id) && AnyFunction(s.listeners[e][id]))
                   || (HasBucket(s.listeners, e, "*") && AnyFunction(s.listeners[e]["*"]))
  {
    e in s.listeners
    && ((id in s.listeners[e] && AnyFunction(s.listeners[e][id]))
        || ("*" in s.listeners[e] && AnyFunction(s.listeners[e]["*"])))
  }

  /** `cancelStatic(e)`: the event's ledger becomes empty. */
  function CancelStaticS(s: State, e: string): (r: State)
    ensures e in r.statics && r.statics[e] == []
    ensures forall e2 :: e2 != e ==> (e2 in r.statics <==> e2 in s.statics) && (e2 in s.statics ==> r.statics[e2] == s.statics[e2])
    ensures r.listeners == s.listeners && r.timers == s.timers && r.queue == s.queue
  {
    s.(statics := s.statics[e := []])
  }

  // ================================================================ properties

  /**
   * Where replays read entry `i`, a global listener replays every ledger
   * entry, in order, with that entry's arguments.
   */
  lemma {:induction false} ReplaysGlobal(b: Build, ledger: seq<StaticEntry>, l: Listener)
    requires ReadsEntry(b)
    ensures |Replays(b, ledger, "*", l)| == |ledger|
    ensures forall k :: 0 <= k < |ledger| ==> Replays(b, ledger, "*", l)[k] == ReplayTimer(l, ledger[k].args)
  {
    if ledger != [] {
      ReplaysGlobal(b, ledger[..|ledger| - 1], l);
    }
  }

  /**
   * The replays an id-scoped listener should get: one per ledger entry
   * recorded under its id, in ledger order, with that entry's arguments.
   */
  function ReplaysFor(ledger: seq<StaticEntry>, id: string, l: Listener): seq<Timer>
  {
    if ledger == [] then []
    else (if ledger[0].id == id then [ReplayTimer(l, ledger[0].args)] else []) + ReplaysFor(ledger[1..], id, l)
  }

  lemma {:induction false} ReplaysForSnoc(ledger: seq<StaticEntry>, x: StaticEntry, id: string, l: Listener)
    ensures ReplaysFor(ledger + [x], id, l) == ReplaysFor(ledger, id, l) + (if x.id == id then [ReplayTimer(l, x.args)] else [])
    decreases |ledger|
  {
    if ledger == [] {
      assert ([] + [x])[1..] == [];
    } else {
      assert (ledger + [x])[0] == ledger[0] && (ledger + [x])[1..] == ledger[1..] + [x];
      ReplaysForSnoc(ledger[1..], x, id, l);
    }
  }

  /**
   * Where replays read entry `i`, an id-scoped listener replays exactly the
   * entries recorded for its id, in ledger order, each with that entry's
   * arguments; entries recorded for `"*"` are not replayed to it.
   */
  lemma {:induction false} ReplaysScoped(b: Build, ledger: seq<StaticEntry>, id: string, l: Listener)
    requires ReadsEntry(b) && id != "*"
    ensures Replays(b, ledger, id, l) == ReplaysFor(ledger, id, l)
  {
    if ledger != [] {
      var init := ledger[..|ledger| - 1];
      ReplaysScoped(b, init, id, l);
      ReplaysForSnoc(init, ledger[|ledger| - 1], id, l);
      assert init + [ledger[|ledger| - 1]] == ledger;
    }
  }

  /**
   * The replay bug of src/Emitter.ts and dist/Emitter.js: a global
   * listener gets one argument-less call per ledger entry, an id-scoped
   * listener gets none.
   */
  lemma {:induction false} ReplaysWholeArray(b: Build, ledger: seq<StaticEntry>, id: string, l: Listener)
    requires !ReadsEntry(b)
    ensures id == "*" ==> |Replays(b, ledger, id, l)| == |ledger|
    ensures id == "*" ==> forall t :: t in Replays(b, ledger, id, l) ==> t == ReplayTimer(l, [])
    ensures id != "*" ==> Replays(b, ledger, id, l) == []
  {
    if ledger != [] {
      ReplaysWholeArray(b, ledger[..|ledger| - 1], id, l);
    }
  }

  /**
   * While emitting, every `off` leaves the registry alone and appends at
   * most one request to the queue: always exactly one in src/Emitter.ts
   * and dist/Emitter.js, and in the other two builds exactly when the
   * addressed bucket exists.
   */
  lemma OffWhileEmitting(b: Build, s: State, form: OffForm)
    requires s.emitting
    ensures OffS(b, s, form).listeners == s.listeners && OffS(b, s, form).emitting
    ensures s.queue <= OffS(b, s, form).queue && |OffS(b, s, form).queue| <= |s.queue| + 1
    ensures !ReadsEntry(b) ==> |OffS(b, s, form).queue| == |s.queue| + 1
    ensures ReadsEntry(b) ==> (|OffS(b, s, form).queue| == |s.queue| + 1 <==> HasBucket(s.listeners, form.event, FormId(form)))
  {
  }

  /** The removal queue runs in order: flushing `q1 + q2` is flushing `q1`, then `q2`. */
  lemma {:induction false} ApplyFormsAppend(b: Build, s: State, q1: seq<OffForm>, q2: seq<OffForm>)
    ensures ApplyForms(b, s, q1 + q2) == ApplyForms(b, ApplyForms(b, s, q1), q2)
    decreases |q1|
  {
    if q1 == [] {
      assert q1 + q2 == q2;
    } else {
      assert (q1 + q2)[0] == q1[0] && (q1 + q2)[1..] == q1[1..] + q2;
      ApplyFormsAppend(b, OffS(b, s, q1[0]), q1[1..], q2);
    }
  }

  /** While the flag is set, a listener's requests only ever grow the registry. */
  lemma {:induction false} ApplyRequestsGrows(b: Build, s: State, qs: seq<Request>)
    requires s.emitting
    ensures ApplyRequests(b, s, qs).emitting
    ensures Grows(s.listeners, ApplyRequests(b, s, qs).listeners)
    decreases |qs|
  {
    if qs == [] {
      GrowsRefl(s.listeners);
    } else {
      var mid := ApplyRequests(b, s, qs[..|qs| - 1]);
      ApplyRequestsGrows(b, s, qs[..|qs| - 1]);
      match qs[|qs| - 1]
      case OnRequest(e, id, f) =>
        PushGrows(mid.listeners, e, id, Fn(f));
        GrowsTrans(s.listeners, mid.listeners, ApplyRequest(b, mid, qs[|qs| - 1]).listeners);
      case OffRequest(form) =>
        OffWhileEmitting(b, mid, form);
    }
  }

  /** Invoking a listener while emitting keeps the flag and only grows the registry. */
  lemma InvokeGrows(b: Build, s: State, o: Oracle, l: Listener, args: seq<Value>)
    requires s.emitting
    ensures InvokeS(b, s, o, l, args).state.emitting
    ensures Grows(s.listeners, InvokeS(b, s, o, l, args).state.listeners)
  {
    match l
    case Junk(_) => GrowsRefl(s.listeners);
    case Fn(f) => ApplyRequestsGrows(b, s, o(f, args).requests);
    case Guard(n, _, _, inner) =>
      if n in s.fired {
        GrowsRefl(s.listeners);
      } else {
        var s0 := s.(fired := s.fired[n := Undefined]);
        OffWhileEmitting(b, s0, SelfOff(l));
        ApplyRequestsGrows(b, OffS(b, s0, SelfOff(l)), o(inner, GuardArgs(b, l, args)).requests);
      }
  }

  /**
   * Entries appended while a bucket is walked are never called: the walk
   * depends only on the array as it was when the loop started, and the
   * registry it leaves behind has only grown.
   */
  lemma {:induction false} CallAllGrows(b: Build, s: State, o: Oracle, arr: seq<Listener>, i: nat, args: seq<Value>)
    requires s.emitting
    ensures CallAll(b, s, o, arr, i, args).state.emitting
    ensures Grows(s.listeners, CallAll(b, s, o, arr, i, args).state.listeners)
    decreases |arr| - i
  {
    if i >= |arr| {
      GrowsRefl(s.listeners);
    } else if arr[i].Junk? {
      CallAllGrows(b, s, o, arr, i + 1, args);
    } else {
      var st := InvokeS(b, s, o, arr[i], args);
      InvokeGrows(b, s, o, arr[i], args);
      CallAllGrows(b, st.state, o, arr, i + 1, args);
      GrowsTrans(s.listeners, st.state.listeners, CallAll(b, st.state, o, arr, i + 1, args).state.listeners);
    }
  }

  /**
   * One function entry of a bucket walk begun in `s0`: calling it keeps
   * the flag, only adds to the registry, and extends the trace by its calls.
   */
  lemma CallAllStep(b: Build, s0: State, s: State, o: Oracle, arr: seq<Listener>, i: nat, args: seq<Value>, calls: seq<Call>)
    requires i < |arr| && !arr[i].Junk? && s.emitting && Grows(s0.listeners, s.listeners)
    requires CallAll(b, s0, o, arr, 0, args) == Then([], calls, CallAll(b, s, o, arr, i, args))
    ensures var st := InvokeS(b, s, o, arr[i], args);
      st.state.emitting && Grows(s0.listeners, st.state.listeners)
      && CallAll(b, s0, o, arr, 0, args) == Then([], calls + st.calls, CallAll(b, st.state, o, arr, i + 1, args))
  {
    var st := InvokeS(b, s, o, arr[i], args);
    InvokeGrows(b, s, o, arr[i], args);
    GrowsTrans(s0.listeners, s.listeners, st.state.listeners);
    ThenThen([], calls, [], st.calls, CallAll(b, st.state, o, arr, i + 1, args));
  }

  /** How many entries of `arr` from `i` on hold functions. */
  function FunctionsFrom(arr: seq<Listener>, i: nat): nat
    decreases |arr| - i
  {
    if i >= |arr| then 0 else FunctionsFrom(arr, i + 1) + (if arr[i].Junk? then 0 else 1)
  }

  /** Does the bucket hold only plain functions and non-functions (no `once` guards) from `i` on? */
  ghost predicate PlainFrom(arr: seq<Listener>, i: nat)
  {
    forall k :: i <= k < |arr| ==> arr[k].Fn? || arr[k].Junk?
  }

  /** The calls a walk of `arr` from `i` should make: one per function entry, in bucket order. */
  function FnCalls(arr: seq<Listener>, i: nat, args: seq<Value>): (cs: seq<Call>)
    decreases |arr| - i
  {
    if i >= |arr| then []
    else (if arr[i].Fn? then [Call(arr[i].f, args)] else []) + FnCalls(arr, i + 1, args)
  }

  /**
   * With plain-function listeners, the counted loop calls each function
   * entry exactly once, in bucket order, with the emitted arguments,
   * whatever the listeners register or remove meanwhile.
   */
  lemma {:induction false} CallAllOrder(b: Build, s: State, o: Oracle, arr: seq<Listener>, i: nat, args: seq<Value>)
    requires PlainFrom(arr, i)
    ensures CallAll(b, s, o, arr, i, args).calls == FnCalls(arr, i, args)
    ensures |CallAll(b, s, o, arr, i, args).calls| == FunctionsFrom(arr, i)
    decreases |arr| - i
  {
    if i < |arr| {
      if arr[i].Junk? {
        CallAllOrder(b, s, o, arr, i + 1, args);
      } else {
        var st := InvokeS(b, s, o, arr[i], args);
        CallAllOrder(b, st.state, o, arr, i + 1, args);
      }
    }
  }

  /** Does the oracle answer every call without registering or removing anything? */
  ghost predicate Quiet(o: Oracle)
  {
    forall f, a :: o(f, a).requests == []
  }

  /** With plain-function listeners that issue no requests, a walk changes no state. */
  lemma {:induction false} CallAllQuiet(b: Build, s: State, o: Oracle, arr: seq<Listener>, i: nat, args: seq<Value>)
    requires Quiet(o) && PlainFrom(arr, i)
    ensures CallAll(b, s, o, arr, i, args) == Run(s, [], FnCalls(arr, i, args))
    decreases |arr| - i
  {
    if i < |arr| {
      CallAllQuiet(b, s, o, arr, i + 1, args);
      if arr[i].Fn? {
        CallAllQuietFn(b, s, o, arr, i, args);
      } else {
        assert FnCalls(arr, i, args) == FnCalls(arr, i + 1, args);
      }
    }
  }

  /** One function entry of `CallAllQuiet`, given the rest of the walk. */
  lemma CallAllQuietFn(b: Build, s: State, o: Oracle, arr: seq<Listener>, i: nat, args: seq<Value>)
    requires Quiet(o) && i < |arr| && arr[i].Fn?
    requires CallAll(b, s, o, arr, i + 1, args) == Run(s, [], FnCalls(arr, i + 1, args))
    ensures CallAll(b, s, o, arr, i, args) == Run(s, [], FnCalls(arr, i, args))
  {
    InvokeQuiet(b, s, o, arr[i], args);
    assert FnCalls(arr, i, args) == [Call(arr[i].f, args)] + FnCalls(arr, i + 1, args);
  }

  /** A plain function that issues no requests changes nothing and makes one call. */
  lemma InvokeQuiet(b: Build, s: State, o: Oracle, l: Listener, args: seq<Value>)
    requires Quiet(o) && l.Fn?
    ensures InvokeS(b, s, o, l, args) == Step(s, o(l.f, args).result, [Call(l.f, args)])
  {
    assert o(l.f, args).requests == [];
  }

  /** Listener requests never touch the static ledger, the debounce table or the flag. */
  lemma {:induction false} ApplyRequestsKeeps(b: Build, s: State, qs: seq<Request>)
    ensures ApplyRequests(b, s, qs).statics == s.statics
    ensures ApplyRequests(b, s, qs).deferTimeouts == s.deferTimeouts
    ensures ApplyRequests(b, s, qs).emitting == s.emitting
    decreases |qs|
  {
    if qs != [] {
      ApplyRequestsKeeps(b, s, qs[..|qs| - 1]);
    }
  }

  lemma InvokeKeeps(b: Build, s: State, o: Oracle, l: Listener, args: seq<Value>)
    ensures InvokeS(b, s, o, l, args).state.statics == s.statics
    ensures InvokeS(b, s, o, l, args).state.emitting == s.emitting
  {
    match l
    case Junk(_) =>
    case Fn(f) => ApplyRequestsKeeps(b, s, o(f, args).requests);
    case Guard(n, _, _, inner) =>
      if n !in s.fired {
        var s1 := OffS(b, s.(fired := s.fired[n := Undefined]), SelfOff(l));
        ApplyRequestsKeeps(b, s1, o(inner, GuardArgs(b, l, args)).requests);
      }
  }

  lemma {:induction false} CallAllKeeps(b: Build, s: State, o: Oracle, arr: seq<Listener>, i: nat, args: seq<Value>)
    ensures CallAll(b, s, o, arr, i, args).state.statics == s.statics
    ensures CallAll(b, s, o, arr, i, args).state.emitting == s.emitting
    decreases |arr| - i
  {
    if i < |arr| {
      if arr[i].Junk? {
        CallAllKeeps(b, s, o, arr, i + 1, args);
      } else {
        InvokeKeeps(b, s, o, arr[i], args);
        CallAllKeeps(b, InvokeS(b, s, o, arr[i], args).state, o, arr, i + 1, args);
      }
    }
  }

  /** Flushing the queue leaves the flag and the ledger as they were. */
  lemma {:induction false} ApplyFormsKeeps(b: Build, s: State, q: seq<OffForm>)
    ensures ApplyForms(b, s, q).statics == s.statics
    ensures ApplyForms(b, s, q).emitting == s.emitting
    decreases |q|
  {
    if q != [] {
      ApplyFormsKeeps(b, OffS(b, s, q[0]), q[1..]);
    }
  }

  /** Flushing outside a dispatch leaves the flag cleared, the ledger alone and the queue empty. */
  lemma FlushSettles(b: Build, s: State)
    requires !s.emitting
    ensures !ProcessQueueS(b, s).emitting && ProcessQueueS(b, s).queue == []
    ensures ProcessQueueS(b, s).statics == s.statics
  {
    ApplyFormsKeeps(b, s, s.queue);
  }

  /**
   * A `once` guard runs the wrapped listener at most once: a second
   * invocation calls nothing, changes nothing and returns what the first
   * one kept (the first result, or undefined where the guard keeps none).
   */
  lemma GuardFiresOnce(b: Build, s: State, o: Oracle, n: nat, e: string, scope: Option<string>, f: nat, a1: seq<Value>, a2: seq<Value>)
    ensures var g := Guard(n, e, scope, f);
      var st1 := InvokeS(b, s, o, g, a1);
      var st2 := InvokeS(b, st1.state, o, g, a2);
      |st1.calls| <= 1 && st2.calls == [] && st2.state == st1.state && st2.result == st1.result
      && (n !in s.fired ==> st1.result == (if ReadsEntry(b) then o(f, GuardArgs(b, g, a1)).result else Undefined))
  {
  }

  /**
   * The guard deregisters itself before the wrapped listener runs: outside
   * a dispatch, if that listener issues no requests, the guard's first
   * occurrence is gone from its bucket afterwards.
   */
  lemma GuardDeregisters(b: Build, s: State, o: Oracle, n: nat, e: string, id: string, f: nat, args: seq<Value>)
    requires !s.emitting && n !in s.fired && HasBucket(s.listeners, e, id)
    requires o(f, GuardArgs(b, Guard(n, e, Some(id), f), args)).requests == []
    ensures var g := Guard(n, e, Some(id), f);
      var st := InvokeS(b, s, o, g, args);
      HasBucket(st.state.listeners, e, id)
      && st.state.listeners[e][id] == RemoveFirst(s.listeners[e][id], g)
      && st.calls == [Call(f, GuardArgs(b, g, args))]
  {
  }

  /**
   * `one(e, l)` / `overwrite(e, l)` outside a dispatch: when the event has
   * a global bucket, `l` becomes its only listener and every other id of
   * the event is gone; without one, `l` is appended to whatever is there.
   */
  lemma OverwriteLeavesOnlyListener(b: Build, s: State, e: string, l: Listener)
    requires !s.emitting
    ensures var r := OverwriteS(b, s, e, l);
      HasBucket(r.listeners, e, "*")
      && (HasBucket(s.listeners, e, "*") ==> r.listeners[e] == map["*" := [l]])
      && (!HasBucket(s.listeners, e, "*") && b != Dist ==> r.listeners[e]["*"] == BucketOrEmpty(s.listeners, e, "*") + [l])
  {
    var s1 := OffS(b, s, OffEvent(e));
    if HasBucket(s.listeners, e, "*") {
      assert e !in s1.listeners;
      assert BucketOrEmpty(s1.listeners, e, "*") + [l] == [l];
      assert Push(s1.listeners, e, "*", l) == s1.listeners[e := map["*" := [l]]];
    }
  }
}
