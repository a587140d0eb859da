/**
 * The v1.1 emitter of lib/Emitter.js: `Emitter.prototype` with `on`,
 * `once`, `off`, `emit` and `hasListener`, whose buckets hold
 * `{once, listener}` entries. It has no emitting flag, no removal queue
 * and no static ledger; `once` entries are removed after the walk by a
 * second loop of splices. Listener results are ignored, so a call is only
 * recorded in the trace.
 */
module LibEmitter {
  import opened Js
  import opened EmitterState

  /** A bucket entry `{once: once, listener: listener}`. */
  datatype Entry = Entry(once: bool, f: nat)

  /** `_listeners[event][id]` */
  type EntryTable = map<string, map<string, seq<Entry>>>

  /** `created` records whether `_listeners` has been assigned yet. */
  datatype Lib = Lib(created: bool, listeners: EntryTable)

  /** The new state, the listener calls, and the error thrown, if any. */
  datatype Outcome = Outcome(lib: Lib, calls: seq<Call>, failure: Option<Failure>)

  /** `_listeners[e][id] || []` */
  function EntriesOf(t: EntryTable, e: string, id: string): seq<Entry>
  {
    if e in t && id in t[e] then t[e][id] else []
  }

  /** `on`'s `$main(event, id, listener, once)`: append the entry, creating the maps it needs. */
  function OnS(s: Lib, e: string, id: string, x: Entry): (r: Lib)
    ensures r.created
    ensures e in r.listeners && id in r.listeners[e] && r.listeners[e][id] == EntriesOf(s.listeners, e, id) + [x]
    ensures forall e2, id2 :: (e2 != e || id2 != id) ==> EntriesOf(r.listeners, e2, id2) == EntriesOf(s.listeners, e2, id2)
    ensures forall e2 :: e2 != e ==> (e2 in r.listeners <==> e2 in s.listeners)
  {
    var events := if e in s.listeners then s.listeners[e] else map[];
    Lib(true, s.listeners[e := events[id := EntriesOf(s.listeners, e, id) + [x]]])
  }

  /** `listener === '*' || arr[arrIndex].listener === listener`, `None` standing for `'*'`. */
  predicate Matches(x: Entry, target: Option<nat>)
  {
    target.None? || x.f == target.value
  }

  /** The index the scan of `off` stops at: its first matching entry, or -1. */
  function FirstMatch(b: seq<Entry>, target: Option<nat>): (k: int)
    ensures -1 <= k < |b|
    ensures k == -1 <==> forall j :: 0 <= j < |b| ==> !Matches(b[j], target)
    ensures k >= 0 ==> Matches(b[k], target) && forall j :: 0 <= j < k ==> !Matches(b[j], target)
  {
    if b == [] then -1
    else if Matches(b[0], target) then 0
    else
      var k := FirstMatch(b[1..], target);
      if k == -1 then -1 else k + 1
  }

  /** `arr.splice(k, 1)`: removes entry `k`, or nothing when `k` is past the end. */
  function Splice(b: seq<Entry>, k: nat): (r: seq<Entry>)
    ensures k < |b| ==> |r| == |b| - 1 && forall j :: 0 <= j < |r| ==> r[j] == (if j < k then b[j] else b[j + 1])
    ensures k >= |b| ==> r == b
  {
    if k < |b| then b[..k] + b[k + 1..] else b
  }

  /** One bucket's part of `off`: the first matching entry goes. */
  function RemoveMatch(b: seq<Entry>, target: Option<nat>): (r: seq<Entry>)
  {
    var k := FirstMatch(b, target);
    if k == -1 then b else Splice(b, k)
  }

  /** The `for (tmpId in eventObj)` branch: every bucket loses its first match. */
  function OffEvery(ev: map<string, seq<Entry>>, target: Option<nat>): (r: map<string, seq<Entry>>)
    ensures r.Keys == ev.Keys
  {
    map k | k in ev :: RemoveMatch(ev[k], target)
  }

  /**
   * `off`'s `$main(event, id, listener)`. Nothing happens for an unknown
   * event. Id `'*'` scans every bucket of the event; any other id needs its
   * bucket, and reading the length of a missing one is a TypeError.
   */
  function OffS(s: Lib, e: string, id: string, target: Option<nat>): (r: Outcome)
    ensures r.calls == []
    ensures r.failure.Some? <==> s.created && e in s.listeners && id != "*" && id !in s.listeners[e]
    ensures r.failure.Some? ==> r.failure == Some(TypeError) && r.lib == s
    ensures !s.created || e !in s.listeners ==> r.lib == s
    ensures r.lib.created == s.created
    ensures forall e2 :: e2 != e ==> (e2 in r.lib.listeners <==> e2 in s.listeners) && (e2 in s.listeners ==> r.lib.listeners[e2] == s.listeners[e2])
  {
    if !s.created || e !in s.listeners then Outcome(s, [], None)
    else if id == "*" then Outcome(s.(listeners := s.listeners[e := OffEvery(s.listeners[e], target)]), [], None)
    else if id !in s.listeners[e] then Outcome(s, [], Some(TypeError))
    else Outcome(s.(listeners := s.listeners[e := s.listeners[e][id := RemoveMatch(s.listeners[e][id], target)]]), [], None)
  }

  /** The indices the walk of `emit` pushes onto `removeArr`: those of `once` entries, ascending. */
  function OnceIndices(b: seq<Entry>): (ks: seq<nat>)
    ensures |ks| <= |b|
  {
    if b == [] then []
    else OnceIndices(b[..|b| - 1]) + (if b[|b| - 1].once then [|b| - 1] else [])
  }

  /** `ks` lists, in ascending order, indices of `once` entries of `b`. */
  ghost predicate AscendingOnce(b: seq<Entry>, ks: seq<nat>)
  {
    (forall i :: 0 <= i < |ks| ==> ks[i] < |b| && b[ks[i]].once)
    && forall i, j :: 0 <= i < j < |ks| ==> ks[i] < ks[j]
  }

  /** Every collected index is in range, names a `once` entry, and the indices ascend. */
  lemma {:induction false} OnceIndicesSound(b: seq<Entry>)
    ensures AscendingOnce(b, OnceIndices(b))
  {
    if b != [] {
      var p := b[..|b| - 1];
      OnceIndicesSound(p);
      var ks := OnceIndices(p);
      var tail: seq<nat> := if b[|b| - 1].once then [|b| - 1] else [];
      assert OnceIndices(b) == ks + tail;
      assert forall i :: 0 <= i < |ks| ==> ks[i] < |p| && b[ks[i]] == p[ks[i]];
    }
  }

  /** A bucket without `once` entries yields no indices. */
  lemma {:induction false} NoOnceNoIndices(b: seq<Entry>)
    requires forall k :: 0 <= k < |b| ==> !b[k].once
    ensures OnceIndices(b) == []
  {
    if b != [] {
      NoOnceNoIndices(b[..|b| - 1]);
    }
  }

  /** Every `once` entry's index is collected. */
  lemma {:induction false} OnceIndicesComplete(b: seq<Entry>, k: nat)
    requires k < |b| && b[k].once
    ensures k in OnceIndices(b)
  {
    var p := b[..|b| - 1];
    if k < |p| {
      assert p[k] == b[k];
      OnceIndicesComplete(p, k);
    }
  }

  /** The second loop of `emit`: `arr.splice(removeArr[i], 1)` in order, indices unadjusted. */
  function SpliceAll(b: seq<Entry>, ks: seq<nat>): seq<Entry>
    decreases |ks|
  {
    if ks == [] then b else SpliceAll(Splice(b, ks[0]), ks[1..])
  }

  /** What the removal loop should leave: the entries that are not `once`. */
  function Persistent(b: seq<Entry>): (r: seq<Entry>)
    ensures |r| <= |b|
  {
    if b == [] then [] else Persistent(b[..|b| - 1]) + (if b[|b| - 1].once then [] else [b[|b| - 1]])
  }

  /** `Persistent` keeps exactly the entries that are not `once`. */
  lemma {:induction false} PersistentMembers(b: seq<Entry>)
    ensures forall x :: x in Persistent(b) <==> x in b && !x.once
  {
    if b != [] {
      var p := b[..|b| - 1];
      PersistentMembers(p);
      assert b == p + [b[|b| - 1]];
    }
  }

  /** The arguments `$main` forwards: `slice(arguments, 2)`, at most the one data value. */
  function Data(data: Option<Value>): seq<Value>
  {
    if data.Some? then [data.value] else []
  }

  /**
   * `emit`'s `$main(event, id, data)`: `_listeners` is created; an unknown
   * event does nothing; a known event without the bucket is a TypeError;
   * otherwise every entry is called in order and the `once` entries are
   * then spliced out by index.
   */
  function EmitS(s: Lib, e: string, id: string, data: Option<Value>): (r: Outcome)
    ensures r.lib.created
    ensures r.failure.Some? <==> e in s.listeners && id !in s.listeners[e]
    ensures r.failure.Some? ==> r.failure == Some(TypeError)
    ensures e in s.listeners && id in s.listeners[e] ==>
      |r.calls| == |s.listeners[e][id]|
      && forall k :: 0 <= k < |r.calls| ==> r.calls[k] == Call(s.listeners[e][id][k].f, Data(data))
    ensures !(e in s.listeners && id in s.listeners[e]) ==> r.calls == [] && r.lib == s.(created := true)
  {
    var s1 := s.(created := true);
    if e !in s1.listeners then Outcome(s1, [], None)
    else if id !in s1.listeners[e] then Outcome(s1, [], Some(TypeError))
    else
      var b := s1.listeners[e][id];
      var calls := seq(|b|, k requires 0 <= k < |b| => Call(b[k].f, Data(data)));
      Outcome(s1.(listeners := s1.listeners[e := s1.listeners[e][id := SpliceAll(b, OnceIndices(b))]]), calls, None)
  }

  /**
   * `hasListener(event[, id])`: the `&&` chain yields undefined before
   * `_listeners` exists, false for an unknown event, undefined for a
   * missing bucket, and otherwise the bucket's length.
   */
  function HasListenerS(s: Lib, e: string, id: string): (r: Value)
    ensures Truthy(r) <==> s.created && e in s.listeners && id in s.listeners[e] && |s.listeners[e][id]| > 0
    ensures s.created && e in s.listeners && id in s.listeners[e] ==> r == Num(|s.listeners[e][id]|)
  {
    if !s.created then Undefined
    else if e !in s.listeners then Bool(false)
    else if id !in s.listeners[e] then Undefined
    else Num(|s.listeners[e][id]|)
  }

  // ================================================================ properties

  /** `off(event)` (target `'*'`) drops the first entry of every bucket, so n entries become n - 1. */
  lemma OffEventDropsOnePerBucket(s: Lib, e: string)
    requires s.created && e in s.listeners
    ensures var r := OffS(s, e, "*", None).lib;
      e in r.listeners && r.listeners[e].Keys == s.listeners[e].Keys
      && forall id :: id in s.listeners[e] && s.listeners[e][id] != [] ==>
        r.listeners[e][id] == s.listeners[e][id][1..]
  {
  }

  /** Removing the first match of a listener takes exactly one of its entries out, as a multiset. */
  lemma RemoveMatchOne(b: seq<Entry>, f: nat)
    requires FirstMatch(b, Some(f)) >= 0
    ensures var r := RemoveMatch(b, Some(f));
      |r| == |b| - 1 && multiset(r) + multiset{Entry(b[FirstMatch(b, Some(f))].once, f)} == multiset(b)
  {
    var k := FirstMatch(b, Some(f));
    assert b == b[..k] + [b[k]] + b[k + 1..];
    assert b[k] == Entry(b[k].once, f);
    assert RemoveMatch(b, Some(f)) == b[..k] + b[k + 1..];
    assert multiset(b) == multiset(b[..k]) + multiset{b[k]} + multiset(b[k + 1..]);
  }

  /**
   * `off(event, id, l)` changes only that bucket: it loses one entry for
   * `l` if it holds one, and is unchanged otherwise.
   */
  lemma OffIdListenerRemovesOne(s: Lib, e: string, id: string, f: nat)
    requires s.created && e in s.listeners && id in s.listeners[e] && id != "*"
    ensures var b := s.listeners[e][id];
      var r := OffS(s, e, id, Some(f)).lib.listeners[e];
      r.Keys == s.listeners[e].Keys
      && (forall id2 :: id2 in r && id2 != id ==> r[id2] == s.listeners[e][id2])
      && ((forall j :: 0 <= j < |b| ==> b[j].f != f) ==> r[id] == b)
      && ((exists j :: 0 <= j < |b| && b[j].f == f) ==>
            |r[id]| == |b| - 1 && multiset(r[id]) + multiset{Entry(b[FirstMatch(b, Some(f))].once, f)} == multiset(b))
  {
    var b := s.listeners[e][id];
    var r := OffS(s, e, id, Some(f)).lib.listeners[e];
    assert r == s.listeners[e][id := RemoveMatch(b, Some(f))];
    if FirstMatch(b, Some(f)) >= 0 {
      RemoveMatchOne(b, f);
    }
  }

  /**
   * With at most one `once` entry the unadjusted splices are right: they
   * leave exactly the persistent entries, in order.
   */
  lemma {:induction false} SpliceAllOneOnce(b: seq<Entry>)
    requires |OnceIndices(b)| <= 1
    ensures SpliceAll(b, OnceIndices(b)) == Persistent(b)
  {
    if b != [] {
      var p := b[..|b| - 1];
      var x := b[|b| - 1];
      assert b == p + [x];
      if x.once {
        OnceLast(p, x);
      } else {
        assert OnceIndices(b) == OnceIndices(p);
        assert Persistent(b) == Persistent(p) + [x];
        SpliceAllOneOnce(p);
        PlainLast(p, x);
      }
    }
  }

  /** A `once` entry last, behind none: splicing its index leaves the rest, all persistent. */
  lemma OnceLast(p: seq<Entry>, x: Entry)
    requires x.once && |OnceIndices(p + [x])| <= 1
    ensures SpliceAll(p + [x], OnceIndices(p + [x])) == Persistent(p + [x])
  {
    var b := p + [x];
    assert b[..|b| - 1] == p;
    assert OnceIndices(b) == OnceIndices(p) + [|p|];
    assert Persistent(b) == Persistent(p);
    PersistentWhole(p);
    SpliceAllSingle(b, |p|);
    SpliceLast(p, x);
  }

  /** A plain entry last: the splices of the earlier entries carry it along. */
  lemma PlainLast(p: seq<Entry>, x: Entry)
    requires |OnceIndices(p)| <= 1
    requires SpliceAll(p, OnceIndices(p)) == Persistent(p)
    ensures SpliceAll(p + [x], OnceIndices(p)) == Persistent(p) + [x]
  {
    if OnceIndices(p) == [] {
      PersistentWhole(p);
    } else {
      var k := OnceIndices(p)[0];
      assert OnceIndices(p) == [k];
      OnceIndicesSound(p);
      assert k < |p|;
      SpliceAllSingle(p, k);
      SpliceAllSingle(p + [x], k);
      SpliceBefore(p, x, k);
    }
  }

  lemma SpliceAllSingle(b: seq<Entry>, k: nat)
    ensures SpliceAll(b, [k]) == Splice(b, k)
  {
    assert [k][1..] == [];
  }

  lemma SpliceLast(p: seq<Entry>, x: Entry)
    ensures Splice(p + [x], |p|) == p
  {
    assert (p + [x])[..|p|] == p;
  }

  lemma SpliceBefore(p: seq<Entry>, x: Entry, k: nat)
    requires k < |p|
    ensures Splice(p + [x], k) == Splice(p, k) + [x]
  {
    assert (p + [x])[..k] == p[..k];
    assert (p + [x])[k + 1..] == p[k + 1..] + [x];
  }

  /** Without `once` entries nothing is spliced and nothing is filtered. */
  lemma {:induction false} PersistentWhole(b: seq<Entry>)
    requires OnceIndices(b) == []
    ensures Persistent(b) == b
  {
    if b != [] {
      var p := b[..|b| - 1];
      assert OnceIndices(b) == OnceIndices(p) + (if b[|b| - 1].once then [|b| - 1] else []);
      PersistentWhole(p);
      assert b == p + [b[|b| - 1]];
    }
  }

  /**
   * The index-shift defect: after two `once` entries A and B and a plain
   * entry C fire, the splices at 0 and then 1 remove A and C, so the
   * bucket keeps B, a `once` entry, and loses C.
   */
  lemma SpliceShiftExample()
    ensures var b := [Entry(true, 1), Entry(true, 2), Entry(false, 3)];
      SpliceAll(b, OnceIndices(b)) == [Entry(true, 2)] && Persistent(b) == [Entry(false, 3)]
  {
    var b := [Entry(true, 1), Entry(true, 2), Entry(false, 3)];
    ShiftExampleIndices(b);
    var b1 := Splice(b, 0);
    assert b1 == [Entry(true, 2), Entry(false, 3)] by {
      assert b1 == b[..0] + b[1..];
    }
    var b2 := Splice(b1, 1);
    assert b2 == [Entry(true, 2)] by {
      assert b2 == b1[..1] + b1[2..];
    }
    assert [0, 1][1..] == [1] && [1][1..] == [];
    assert SpliceAll(b, [0, 1]) == SpliceAll(b1, [1]) == SpliceAll(b2, []);
    ShiftExamplePersistent(b);
  }

  /**
   * The index-shift defect in general: with two or more `once` entries
   * the second one survives the splices (the splice meant for it removes
   * its right-hand neighbour or runs past the end), so the bucket never
   * ends as the persistent entries.
   */
  lemma SpliceAllWrong(b: seq<Entry>)
    requires |OnceIndices(b)| >= 2
    ensures var ks := OnceIndices(b);
      0 < ks[1] < |b| && b[ks[1]].once
      && ks[1] - 1 < |SpliceAll(b, ks)| && SpliceAll(b, ks)[ks[1] - 1] == b[ks[1]]
    ensures SpliceAll(b, OnceIndices(b)) != Persistent(b)
  {
    var ks := OnceIndices(b);
    OnceIndicesSound(b);
    assert ks[0] < ks[1] < |b| && b[ks[1]].once;
    SecondSurvives(b, ks);
    var r := SpliceAll(b, ks);
    assert r[ks[1] - 1] in r;
    PersistentMembers(b);
  }

  /** Unadjusted splices at ascending `ks` keep the entry first at `ks[1]`, one place down. */
  lemma SecondSurvives(b: seq<Entry>, ks: seq<nat>)
    requires |ks| >= 2 && ks[0] < ks[1] < |b|
    requires forall j :: 2 <= j < |ks| ==> ks[j] > ks[1]
    ensures ks[1] - 1 < |SpliceAll(b, ks)| && SpliceAll(b, ks)[ks[1] - 1] == b[ks[1]]
  {
    var k1 := ks[1];
    var c2 := Splice(Splice(b, ks[0]), k1);
    ShiftedSecond(b, ks[0], k1);
    SpliceAllTwo(b, ks);
    assert forall j :: 0 <= j < |ks[2..]| ==> ks[2..][j] == ks[j + 2];
    SpliceAllKeepsBelow(c2, ks[2..], k1 - 1);
  }

  /** The first two splices of the removal loop, unfolded. */
  lemma SpliceAllTwo(b: seq<Entry>, ks: seq<nat>)
    requires |ks| >= 2
    ensures SpliceAll(b, ks) == SpliceAll(Splice(Splice(b, ks[0]), ks[1]), ks[2..])
  {
    assert ks[1..][0] == ks[1] && ks[1..][1..] == ks[2..];
  }

  /** After the splice at `k0`, the splice at `k1 > k0` misses the entry first at `k1`. */
  lemma ShiftedSecond(b: seq<Entry>, k0: nat, k1: nat)
    requires k0 < k1 < |b|
    ensures var c2 := Splice(Splice(b, k0), k1); k1 - 1 < |c2| && c2[k1 - 1] == b[k1]
  {
    var c1 := Splice(b, k0);
    assert c1[k1 - 1] == b[k1];
  }

  /** Splices at positions above `p` leave entry `p` where it is. */
  lemma {:induction false} SpliceAllKeepsBelow(c: seq<Entry>, ks: seq<nat>, p: nat)
    requires p < |c|
    requires forall j :: 0 <= j < |ks| ==> ks[j] > p
    ensures p < |SpliceAll(c, ks)| && SpliceAll(c, ks)[p] == c[p]
    decreases |ks|
  {
    if ks != [] {
      var c1 := Splice(c, ks[0]);
      assert p < |c1| && c1[p] == c[p];
      SpliceAllKeepsBelow(c1, ks[1..], p);
    }
  }

  lemma ShiftExampleIndices(b: seq<Entry>)
    requires b == [Entry(true, 1), Entry(true, 2), Entry(false, 3)]
    ensures OnceIndices(b) == [0, 1]
  {
    assert b[..2] == [Entry(true, 1), Entry(true, 2)];
    assert b[..2][..1] == [Entry(true, 1)];
    assert [Entry(true, 1)][..0] == [];
    assert OnceIndices([Entry(true, 1)]) == [0];
    assert OnceIndices(b[..2]) == [0, 1];
  }

  lemma ShiftExamplePersistent(b: seq<Entry>)
    requires b == [Entry(true, 1), Entry(true, 2), Entry(false, 3)]
    ensures Persistent(b) == [Entry(false, 3)]
  {
    assert b[..2] == [Entry(true, 1), Entry(true, 2)];
    assert b[..2][..1] == [Entry(true, 1)];
    assert [Entry(true, 1)][..0] == [];
    assert Persistent([Entry(true, 1)]) == [];
    assert Persistent(b[..2]) == [];
  }

  /** An `emit` on a bucket with no `once` entries leaves the registry as it was. */
  lemma EmitKeepsPlainBucket(s: Lib, e: string, id: string, data: Option<Value>)
    requires e in s.listeners && id in s.listeners[e]
    requires forall k :: 0 <= k < |s.listeners[e][id]| ==> !s.listeners[e][id][k].once
    ensures EmitS(s, e, id, data).lib == s.(created := true)
    ensures EmitS(s, e, id, data).failure == None
  {
    var b := s.listeners[e][id];
    NoOnceNoIndices(b);
    assert s.listeners[e][id := b] == s.listeners[e];
    assert s.listeners[e := s.listeners[e]] == s.listeners;
  }

  /** `once(e, f)` followed by an `emit` on a bucket that held no `once` entry removes just that entry. */
  lemma OnceFiresOnce(s: Lib, e: string, id: string, f: nat, data: Option<Value>)
    requires forall k :: 0 <= k < |EntriesOf(s.listeners, e, id)| ==> !EntriesOf(s.listeners, e, id)[k].once
    ensures var s1 := OnS(s, e, id, Entry(true, f));
      var r := EmitS(s1, e, id, data);
      r.failure == None && r.calls[|r.calls| - 1] == Call(f, Data(data))
      && r.lib.listeners[e][id] == EntriesOf(s.listeners, e, id)
  {
    var s1 := OnS(s, e, id, Entry(true, f));
    var old_b := EntriesOf(s.listeners, e, id);
    var b := s1.listeners[e][id];
    assert b == old_b + [Entry(true, f)];
    assert OnceIndices(b) == [|old_b|] by {
      assert b[..|b| - 1] == old_b;
      NoOnceNoIndices(old_b);
    }
    assert SpliceAll(b, [|old_b|]) == Splice(b, |old_b|);
    assert Splice(b, |old_b|) == old_b;
  }

  // ================================================================ the prototype as a class

  /** `arr.splice` at the first match, as the scan of `off` does it. */
  method SpliceFirstMatch(arr: seq<Entry>, target: Option<nat>) returns (r: seq<Entry>)
    ensures r == RemoveMatch(arr, target)
  {
    var arrCount := |arr|;
    var arrIndex := 0;
    while arrIndex < arrCount
      invariant 0 <= arrIndex <= arrCount
      invariant forall j :: 0 <= j < arrIndex ==> !Matches(arr[j], target)
    {
      if Matches(arr[arrIndex], target) {
        return Splice(arr, arrIndex);
      }
      arrIndex := arrIndex + 1;
    }
    return arr;
  }

  class Emitter {
    var created: bool
    var listeners: EntryTable

    function Snap(): Lib
      reads this
    {
      Lib(created, listeners)
    }

    /** A fresh instance: `_listeners` not yet assigned. */
    constructor ()
      ensures Snap() == Lib(false, map[])
    {
      created := false;
      listeners := map[];
    }

    /** `on`'s `$main(event, id, listener, once)` */
    method Register(e: string, id: string, f: nat, once: bool)
      modifies this
      ensures Snap() == OnS(old(Snap()), e, id, Entry(once, f))
    {
      created := true;
      var events := if e in listeners then listeners[e] else map[];
      var bucket := if id in events then events[id] else [];
      listeners := listeners[e := events[id := bucket + [Entry(once, f)]]];
    }

    /** `on(event, listener)` */
    method On(e: string, f: nat)
      modifies this
      ensures Snap() == OnS(old(Snap()), e, "*", Entry(false, f))
    {
      Register(e, "*", f, false);
    }

    /** `on(event, id, listener)` */
    method OnId(e: string, id: string, f: nat)
      modifies this
      ensures Snap() == OnS(old(Snap()), e, id, Entry(false, f))
    {
      Register(e, id, f, false);
    }

    /** `once(event, listener)`: `on` with a trailing `true`. */
    method Once(e: string, f: nat)
      modifies this
      ensures Snap() == OnS(old(Snap()), e, "*", Entry(true, f))
    {
      Register(e, "*", f, true);
    }

    /** `once(event, id, listener)` */
    method OnceId(e: string, id: string, f: nat)
      modifies this
      ensures Snap() == OnS(old(Snap()), e, id, Entry(true, f))
    {
      Register(e, id, f, true);
    }

    /** `off`'s `$main(event, id, listener)`, target `None` standing for `'*'`. */
    method Remove(e: string, id: string, target: Option<nat>) returns (thrown: Option<Failure>)
      modifies this
      ensures var r := OffS(old(Snap()), e, id, target);
        Snap() == r.lib && thrown == r.failure
    {
      thrown := None;
      if !created || e !in listeners {
        return;
      }
      if id == "*" {
        RemoveFromEvery(e, target);
        return;
      }
      if id !in listeners[e] {
        return Some(TypeError);
      }
      var arr := SpliceFirstMatch(listeners[e][id], target);
      listeners := listeners[e := listeners[e][id := arr]];
    }

    /** The `for (tmpId in eventObj)` loop of `off`. */
    method RemoveFromEvery(e: string, target: Option<nat>)
      requires e in listeners
      modifies this`listeners
      ensures listeners == old(listeners)[e := OffEvery(old(listeners)[e], target)]
    {
      var eventObj := listeners[e];
      var ev := eventObj;
      var pending := eventObj.Keys;
      while pending != {}
        invariant listeners == old(listeners) && ev.Keys == eventObj.Keys && pending <= eventObj.Keys
        invariant forall k :: k in eventObj ==> ev[k] == (if k in pending then eventObj[k] else RemoveMatch(eventObj[k], target))
        decreases pending
      {
        var tmpId :| tmpId in pending;
        var arr := SpliceFirstMatch(ev[tmpId], target);
        ev := ev[tmpId := arr];
        pending := pending - {tmpId};
      }
      assert ev == OffEvery(eventObj, target);
      listeners := listeners[e := ev];
    }

    /** `off(event)`: every bucket loses its first entry. */
    method Off(e: string) returns (thrown: Option<Failure>)
      modifies this
      ensures var r := OffS(old(Snap()), e, "*", None);
        Snap() == r.lib && thrown == r.failure
    {
      thrown := Remove(e, "*", None);
    }

    /** `off(event, listener)`: every bucket loses its first entry for `listener`. */
    method OffListener(e: string, f: nat) returns (thrown: Option<Failure>)
      modifies this
      ensures var r := OffS(old(Snap()), e, "*", Some(f));
        Snap() == r.lib && thrown == r.failure
    {
      thrown := Remove(e, "*", Some(f));
    }

    /** `off(event, id, listener)` */
    method OffIdListener(e: string, id: string, f: nat) returns (thrown: Option<Failure>)
      modifies this
      ensures var r := OffS(old(Snap()), e, id, Some(f));
        Snap() == r.lib && thrown == r.failure
    {
      thrown := Remove(e, id, Some(f));
    }

    /** `emit`'s `$main(event, id, data)`: the walk, then the splices of the `once` entries. */
    method Dispatch(e: string, id: string, data: Option<Value>) returns (thrown: Option<Failure>, calls: seq<Call>)
      modifies this
      ensures var r := EmitS(old(Snap()), e, id, data);
        Snap() == r.lib && thrown == r.failure && calls == r.calls
    {
      created := true;
      thrown, calls := None, [];
      if e !in listeners {
        return;
      }
      if id !in listeners[e] {
        return Some(TypeError), [];
      }
      var arr := listeners[e][id];
      var arrCount := |arr|;
      var removeArr: seq<nat> := [];
      var arrIndex := 0;
      while arrIndex < arrCount
        invariant 0 <= arrIndex <= arrCount
        invariant |calls| == arrIndex && forall k :: 0 <= k < arrIndex ==> calls[k] == Call(arr[k].f, Data(data))
        invariant removeArr == OnceIndices(arr[..arrIndex])
      {
        calls := calls + [Call(arr[arrIndex].f, Data(data))];
        assert arr[..arrIndex + 1][..arrIndex] == arr[..arrIndex];
        if arr[arrIndex].once {
          removeArr := removeArr + [arrIndex];
        }
        arrIndex := arrIndex + 1;
      }
      assert arr[..arrIndex] == arr;
      var kept := arr;
      var i := 0;
      while i < |removeArr|
        invariant 0 <= i <= |removeArr|
        invariant SpliceAll(arr, removeArr) == SpliceAll(kept, removeArr[i..])
      {
        assert removeArr[i..][0] == removeArr[i] && removeArr[i..][1..] == removeArr[i + 1..];
        kept := Splice(kept, removeArr[i]);
        i := i + 1;
      }
      listeners := listeners[e := listeners[e][id := kept]];
    }

    /** `emit(event[, data])`: the global bucket. */
    method Emit(e: string, data: Option<Value>) returns (thrown: Option<Failure>, calls: seq<Call>)
      modifies this
      ensures var r := EmitS(old(Snap()), e, "*", data);
        Snap() == r.lib && thrown == r.failure && calls == r.calls
    {
      thrown, calls := Dispatch(e, "*", data);
    }

    /** `emit(event, id, data)` */
    method EmitId(e: string, id: string, data: Value) returns (thrown: Option<Failure>, calls: seq<Call>)
      modifies this
      ensures var r := EmitS(old(Snap()), e, id, Some(data));
        Snap() == r.lib && thrown == r.failure && calls == r.calls
    {
      thrown, calls := Dispatch(e, id, Some(data));
    }

    /** `hasListener(event[, id])` */
    method HasListener(e: string, id: string) returns (r: Value)
      ensures r == HasListenerS(Snap(), e, id)
    {
      if !created {
        return Undefined;
      }
      if e !in listeners {
        return Bool(false);
      }
      if id !in listeners[e] {
        return Undefined;
      }
      return Num(|listeners[e][id]|);
    }
  }
}
