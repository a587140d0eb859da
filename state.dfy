/**
 * The state every class-based emitter version keeps, as one value, plus
 * the parts of it that all versions update the same way: the static
 * ledger, the debounce table with its pending timers, and fresh identities.
 */
module EmitterState {
  import opened Js
  import opened Registry

  /**
   * The switch that turns `deferEmit` into an immediate emission:
   * `_eventsAllowDefer` in the class builds, `_noEmitDefer` on the emitter
   * or on its `_db` in the TypeScript and Overload-based builds.
   */
  datatype DeferFlags =
    | AllowDefer(allow: bool)
    | NoEmitDefer(own: bool, db: Option<bool>)

  /** Does `deferEmit` debounce (rather than emit at once)? */
  predicate Coalesces(f: DeferFlags)
  {
    match f
    case AllowDefer(allow) => !allow
    case NoEmitDefer(own, db) => !own && (db.None? || !db.value)
  }

  /**
   * `emitting`, `queue`, `listeners`, `statics` and `deferTimeouts` are the
   * emitter's own fields. `timers` are the callbacks pending in the host's
   * timer queue, `fired` the captured state of every `once` guard that has
   * started running (with its first result), and `serial` the source of
   * fresh identities for guards and timeout handles.
   */
  datatype State = State(
    emitting: bool,
    queue: seq<OffForm>,
    listeners: Table,
    statics: map<string, seq<StaticEntry>>,
    defer: DeferFlags,
    deferTimeouts: map<string, nat>,
    timers: seq<Timer>,
    fired: map<nat, Value>,
    serial: nat)

  /** A fresh emitter: flags off, every table and queue empty. */
  function Initial(defer: DeferFlags): State
  {
    State(false, [], map[], map[], defer, map[], [], map[], 0)
  }

  /** The effect of invoking one listener: new state, return value, trace. */
  datatype Step = Step(state: State, result: Value, calls: seq<Call>)

  /** The effect of a dispatch: new state, collected results, trace. */
  datatype Run = Run(state: State, results: seq<Value>, calls: seq<Call>)

  /** The errors the emitters throw. */
  datatype Failure =
    | MissingId      // "Static id not given" / a falsy id
    | NoListeners    // "No listeners for event"
    | NoResponder    // "No listeners for event and id"
    | TypeError      // reading a property of undefined, or calling a non-function

  /** An operation that may throw; a throw leaves the state it had reached. */
  datatype Attempt = Done(run: Run) | Threw(state: State, failure: Failure)

  /** The state an attempt ends in, whether it threw or not. */
  function Reached(a: Attempt): State
  {
    if a.Done? then a.run.state else a.state
  }

  /** A query that may throw before it answers. */
  datatype Answer = Answer(b: bool) | Failed(failure: Failure)

  /** Prefix the results and trace already produced to a later run. */
  function Then(results: seq<Value>, calls: seq<Call>, r: Run): Run
  {
    Run(r.state, results + r.results, calls + r.calls)
  }

  lemma ThenThen(r1: seq<Value>, c1: seq<Call>, r2: seq<Value>, c2: seq<Call>, r: Run)
    ensures Then(r1, c1, Then(r2, c2, r)) == Then(r1 + r2, c1 + c2, r)
  {
    assert r1 + (r2 + r.results) == (r1 + r2) + r.results;
    assert c1 + (c2 + r.calls) == (c1 + c2) + r.calls;
  }

  /** `statics[e] || []` */
  function Ledger(statics: map<string, seq<StaticEntry>>, e: string): seq<StaticEntry>
  {
    if e in statics then statics[e] else []
  }

  /** `statics[e] = statics[e] || []; statics[e].push(entry)` */
  function Record(statics: map<string, seq<StaticEntry>>, e: string, entry: StaticEntry)
    : (r: map<string, seq<StaticEntry>>)
    ensures e in r && r[e] == Ledger(statics, e) + [entry]
    ensures forall e2 :: e2 != e ==> (e2 in r <==> e2 in statics) && (e2 in statics ==> r[e2] == statics[e2])
  {
    statics[e := Ledger(statics, e) + [entry]]
  }

  /** `clearTimeout(h)`: the pending deferred timer with handle `h`, if any, is dropped. */
  function ClearTimer(ts: seq<Timer>, h: nat): (r: seq<Timer>)
    ensures |r| <= |ts|
    ensures forall t :: t in r <==> t in ts && !(t.DeferTimer? && t.handle == h)
  {
    if ts == [] then []
    else
      var rest := ClearTimer(ts[1..], h);
      assert forall t :: t in ts <==> t == ts[0] || t in ts[1..];
      if ts[0].DeferTimer? && ts[0].handle == h then rest else [ts[0]] + rest
  }

  /**
   * The debouncing branch of `deferEmit`: the event's previous timeout, if
   * one is recorded, is cleared, and a fresh one-millisecond timer whose
   * callback emits `args` is set and recorded as the event's timeout.
   * Handles are positive, as `setTimeout`'s are, so "recorded" and "truthy"
   * coincide.
   */
  function Debounce(s: State, e: string, args: seq<Value>): (r: State)
    ensures r.deferTimeouts == s.deferTimeouts[e := s.serial + 1]
    ensures r.serial == s.serial + 1
    ensures r.emitting == s.emitting && r.queue == s.queue && r.listeners == s.listeners
    ensures r.statics == s.statics && r.defer == s.defer && r.fired == s.fired
  {
    var kept := if e in s.deferTimeouts then ClearTimer(s.timers, s.deferTimeouts[e]) else s.timers;
    var h := s.serial + 1;
    s.(timers := kept + [DeferTimer(h, e, args)], deferTimeouts := s.deferTimeouts[e := h], serial := h)
  }

  /** Every pending deferred timer is the one its event's entry names. */
  ghost predicate Tracked(ts: seq<Timer>, dt: map<string, nat>)
  {
    forall i :: 0 <= i < |ts| && ts[i].DeferTimer? ==>
      ts[i].event in dt && ts[i].handle == dt[ts[i].event]
  }

  /** No two pending deferred timers belong to the same event. */
  ghost predicate OnePerEvent(ts: seq<Timer>)
  {
    forall i, j :: 0 <= i < j < |ts| && ts[i].DeferTimer? && ts[j].DeferTimer? ==>
      ts[i].event != ts[j].event
  }

  /** Recorded handles are positive, already allocated and pairwise distinct. */
  ghost predicate FreshHandles(dt: map<string, nat>, serial: nat)
  {
    (forall e :: e in dt ==> 0 < dt[e] <= serial)
    && (forall e1, e2 :: e1 in dt && e2 in dt && e1 != e2 ==> dt[e1] != dt[e2])
  }

  /** The debounce table agrees with the pending timers. */
  ghost predicate DeferInv(s: State)
  {
    Tracked(s.timers, s.deferTimeouts) && OnePerEvent(s.timers) && FreshHandles(s.deferTimeouts, s.serial)
  }

  /** The deferred emissions pending for event `e`, in timer order. */
  function PendingFor(ts: seq<Timer>, e: string): (r: seq<Timer>)
    ensures forall t :: t in r <==> t in ts && t.DeferTimer? && t.event == e
  {
    if ts == [] then []
    else
      var rest := PendingFor(ts[1..], e);
      assert forall t :: t in ts <==> t == ts[0] || t in ts[1..];
      if ts[0].DeferTimer? && ts[0].event == e then [ts[0]] + rest else rest
  }

  lemma {:induction false} PendingForAppend(a: seq<Timer>, b: seq<Timer>, e: string)
    ensures PendingFor(a + b, e) == PendingFor(a, e) + PendingFor(b, e)
  {
    if a != [] {
      assert (a + b)[1..] == a[1..] + b;
      PendingForAppend(a[1..], b, e);
    } else {
      assert a + b == b;
    }
  }

  lemma {:induction false} PendingNone(ts: seq<Timer>, e: string)
    requires forall t :: t in ts && t.DeferTimer? ==> t.event != e
    ensures PendingFor(ts, e) == []
  {
    if ts != [] {
      assert ts[0] in ts;
      assert forall t :: t in ts[1..] ==> t in ts;
      PendingNone(ts[1..], e);
    }
  }

  lemma OnePerEventTail(ts: seq<Timer>)
    requires OnePerEvent(ts) && ts != []
    ensures OnePerEvent(ts[1..])
  {
    forall i, j | 0 <= i < j < |ts[1..]| && ts[1..][i].DeferTimer? && ts[1..][j].DeferTimer?
      ensures ts[1..][i].event != ts[1..][j].event
    {
      assert ts[1..][i] == ts[i + 1] && ts[1..][j] == ts[j + 1];
    }
  }

  /** Under the invariant, at most one emission is pending for each event. */
  lemma {:induction false} AtMostOnePending(ts: seq<Timer>, e: string)
    requires OnePerEvent(ts)
    ensures |PendingFor(ts, e)| <= 1
  {
    if ts != [] {
      OnePerEventTail(ts);
      AtMostOnePending(ts[1..], e);
      if ts[0].DeferTimer? && ts[0].event == e {
        forall t | t in ts[1..] && t.DeferTimer?
          ensures t.event != e
        {
          var j :| 0 <= j < |ts[1..]| && ts[1..][j] == t;
          assert ts[j + 1] == t;
        }
        PendingNone(ts[1..], e);
      }
    }
  }

  /** Clearing a timer keeps the rest in order, so no event gains a second pending timer. */
  lemma {:induction false} ClearTimerOnePerEvent(ts: seq<Timer>, h: nat)
    requires OnePerEvent(ts)
    ensures OnePerEvent(ClearTimer(ts, h))
  {
    if ts != [] {
      OnePerEventTail(ts);
      ClearTimerOnePerEvent(ts[1..], h);
      var rest := ClearTimer(ts[1..], h);
      if !(ts[0].DeferTimer? && ts[0].handle == h) {
        var r := [ts[0]] + rest;
        forall i, j | 0 <= i < j < |r| && r[i].DeferTimer? && r[j].DeferTimer?
          ensures r[i].event != r[j].event
        {
          if i == 0 {
            assert r[j] == rest[j - 1] && rest[j - 1] in rest;
            var m :| 0 <= m < |ts[1..]| && ts[1..][m] == rest[j - 1];
            assert ts[m + 1] == r[j] && ts[0] == r[0];
          } else {
            assert r[i] == rest[i - 1] && r[j] == rest[j - 1];
          }
        }
      }
    }
  }

  /** Appending one deferred timer for an event with none pending keeps one per event. */
  lemma AppendOnePerEvent(ts: seq<Timer>, t: Timer)
    requires OnePerEvent(ts) && t.DeferTimer?
    requires forall x :: x in ts && x.DeferTimer? ==> x.event != t.event
    ensures OnePerEvent(ts + [t])
  {
    var r := ts + [t];
    forall i, j | 0 <= i < j < |r| && r[i].DeferTimer? && r[j].DeferTimer?
      ensures r[i].event != r[j].event
    {
      assert r[i] == ts[i] && ts[i] in ts;
      if j < |ts| { assert r[j] == ts[j]; }
    }
  }

  /** The timers `deferEmit` keeps have other events and still match their entries. */
  lemma KeptTimers(s: State, e: string)
    requires DeferInv(s)
    ensures var kept := if e in s.deferTimeouts then ClearTimer(s.timers, s.deferTimeouts[e]) else s.timers;
      forall x :: x in kept && x.DeferTimer? ==>
        x.event != e && x.event in s.deferTimeouts && x.handle == s.deferTimeouts[x.event]
  {
    var kept := if e in s.deferTimeouts then ClearTimer(s.timers, s.deferTimeouts[e]) else s.timers;
    forall x | x in kept && x.DeferTimer?
      ensures x.event != e && x.event in s.deferTimeouts && x.handle == s.deferTimeouts[x.event]
    {
      assert x in s.timers;
      var i :| 0 <= i < |s.timers| && s.timers[i] == x;
    }
  }

  /**
   * `deferEmit` keeps the debounce table consistent, and afterwards the one
   * emission pending for the event is the one just requested: the last
   * call wins.
   */
  lemma DebounceLastWins(s: State, e: string, args: seq<Value>)
    requires DeferInv(s)
    ensures DeferInv(Debounce(s, e, args))
    ensures PendingFor(Debounce(s, e, args).timers, e) == [DeferTimer(s.serial + 1, e, args)]
  {
    var kept := if e in s.deferTimeouts then ClearTimer(s.timers, s.deferTimeouts[e]) else s.timers;
    var t := DeferTimer(s.serial + 1, e, args);
    assert Debounce(s, e, args).timers == kept + [t];
    KeptTimers(s, e);
    DebounceOnePerEvent(s, e, kept, t);
    DebounceTracked(s, e, kept, t);
    PendingNone(kept, e);
    PendingForAppend(kept, [t], e);
    assert [t][1..] == [];
  }

  lemma DebounceOnePerEvent(s: State, e: string, kept: seq<Timer>, t: Timer)
    requires DeferInv(s)
    requires kept == if e in s.deferTimeouts then ClearTimer(s.timers, s.deferTimeouts[e]) else s.timers
    requires t.DeferTimer? && t.event == e
    requires forall x :: x in kept && x.DeferTimer? ==> x.event != e
    ensures OnePerEvent(kept + [t])
  {
    if e in s.deferTimeouts {
      ClearTimerOnePerEvent(s.timers, s.deferTimeouts[e]);
    }
    AppendOnePerEvent(kept, t);
  }

  lemma DebounceTracked(s: State, e: string, kept: seq<Timer>, t: Timer)
    requires forall x :: x in kept && x.DeferTimer? ==>
      x.event != e && x.event in s.deferTimeouts && x.handle == s.deferTimeouts[x.event]
    requires t == DeferTimer(s.serial + 1, e, t.args)
    ensures Tracked(kept + [t], s.deferTimeouts[e := s.serial + 1])
  {
    var ts := kept + [t];
    forall i | 0 <= i < |ts| && ts[i].DeferTimer?
      ensures ts[i].event in s.deferTimeouts[e := s.serial + 1]
      ensures ts[i].handle == s.deferTimeouts[e := s.serial + 1][ts[i].event]
    {
      if i < |kept| {
        assert ts[i] == kept[i] && kept[i] in kept;
      }
    }
  }

  /** Running the head timer keeps the debounce table consistent. */
  lemma DropHeadKeepsInv(s: State)
    requires DeferInv(s) && |s.timers| > 0
    ensures DeferInv(s.(timers := s.timers[1..]))
  {
    OnePerEventTail(s.timers);
    forall i | 0 <= i < |s.timers[1..]| && s.timers[1..][i].DeferTimer?
      ensures s.timers[1..][i].event in s.deferTimeouts && s.timers[1..][i].handle == s.deferTimeouts[s.timers[1..][i].event]
    {
      assert s.timers[1..][i] == s.timers[i + 1];
    }
  }
}
