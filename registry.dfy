/**
 * The listener registry, `_eventListeners` / `_listeners`: event name to
 * scope id to an ordered bucket of listeners, where the id `"*"` is the
 * global scope. Every emitter version changes it with the same three
 * primitives: push onto a (possibly new) bucket, splice out the first
 * identical entry, and delete a bucket or a whole event.
 */
module Registry {
  import opened Js

  type Table = map<string, map<string, seq<Listener>>>

  /** `t[e] && t[e][id]`: an array is truthy even when it is empty. */
  predicate HasBucket(t: Table, e: string, id: string)
  {
    e in t && id in t[e]
  }

  /** `t[e][id] || []` */
  function BucketOrEmpty(t: Table, e: string, id: string): seq<Listener>
  {
    if HasBucket(t, e, id) then t[e][id] else []
  }

  /** Every event other than `e`, and every bucket other than `(e, id)`, is as in `t`. */
  ghost predicate SameElsewhere(t: Table, r: Table, e: string, id: string)
  {
    (forall e2 :: e2 != e ==> (e2 in t <==> e2 in r))
    && (forall e2, id2 :: e2 != e || id2 != id ==>
          (HasBucket(t, e2, id2) <==> HasBucket(r, e2, id2)))
    && (forall e2, id2 :: (e2 != e || id2 != id) && HasBucket(t, e2, id2) ==>
          r[e2][id2] == t[e2][id2])
  }

  /**
   * `t[e] = t[e] || {}; t[e][id] = t[e][id] || []; t[e][id].push(l)`:
   * missing maps are created and `l` lands at the end of its bucket.
   */
  function Push(t: Table, e: string, id: string, l: Listener): (r: Table)
    ensures HasBucket(r, e, id) && r[e][id] == BucketOrEmpty(t, e, id) + [l]
    ensures SameElsewhere(t, r, e, id)
  {
    var events := if e in t then t[e] else map[];
    t[e := events[id := BucketOrEmpty(t, e, id) + [l]]]
  }

  /** `arr.indexOf(x)`: the first position holding `x`, or -1. */
  function IndexOf(s: seq<Listener>, x: Listener): (k: int)
    ensures -1 <= k < |s|
    ensures k == -1 <==> x !in s
    ensures 0 <= k ==> s[k] == x && x !in s[..k]
  {
    if s == [] then -1
    else if s[0] == x then 0
    else
      var k := IndexOf(s[1..], x);
      assert k >= 0 ==> s[..k + 1] == [s[0]] + s[1..][..k];
      if k == -1 then -1 else k + 1
  }

  /** `arr.splice(i, 1)`: removes position `i` when it exists. */
  function RemoveAt<T>(s: seq<T>, i: int): (r: seq<T>)
    ensures 0 <= i < |s| ==> |r| == |s| - 1
    ensures 0 <= i < |s| ==> forall k :: 0 <= k < |r| ==> r[k] == if k < i then s[k] else s[k + 1]
    ensures !(0 <= i < |s|) ==> r == s
  {
    if 0 <= i < |s| then s[..i] + s[i + 1..] else s
  }

  /** `var i = arr.indexOf(x); if (i > -1) arr.splice(i, 1)` */
  function RemoveFirst(s: seq<Listener>, x: Listener): (r: seq<Listener>)
    ensures x !in s ==> r == s
    ensures x in s ==> exists k :: 0 <= k < |s| && s[k] == x && x !in s[..k] && r == s[..k] + s[k + 1..]
    ensures multiset(r) == multiset(s) - multiset{x}
  {
    var k := IndexOf(s, x);
    if k == -1 then s
    else
      assert s == s[..k] + [s[k]] + s[k + 1..];
      RemoveAt(s, k)
  }

  /** `t[e][id]` is replaced by `b`; nothing else changes. */
  function SetBucket(t: Table, e: string, id: string, b: seq<Listener>): (r: Table)
    requires HasBucket(t, e, id)
    ensures HasBucket(r, e, id) && r[e][id] == b
    ensures SameElsewhere(t, r, e, id)
  {
    t[e := t[e][id := b]]
  }

  /** `delete t[e][id]`: the event entry itself stays, possibly with no buckets. */
  function DeleteBucket(t: Table, e: string, id: string): (r: Table)
    requires e in t
    ensures e in r && !HasBucket(r, e, id)
    ensures SameElsewhere(t, r, e, id)
  {
    t[e := t[e] - {id}]
  }

  /** `delete t[e]`: every bucket of `e` goes. */
  function DeleteEvent(t: Table, e: string): (r: Table)
    ensures e !in r
    ensures forall e2 :: e2 != e ==> (e2 in r <==> e2 in t) && (e2 in t ==> r[e2] == t[e2])
  {
    t - {e}
  }

  /**
   * `r` only grew from `t`: no event and no bucket disappeared, and every
   * bucket of `t` is a prefix of the same bucket in `r`. This is what
   * happens to the registry while the emitting flag is set.
   */
  ghost predicate Grows(t: Table, r: Table)
  {
    (forall e :: e in t ==> e in r)
    && (forall e, id :: HasBucket(t, e, id) ==> HasBucket(r, e, id) && t[e][id] <= r[e][id])
  }

  lemma GrowsRefl(t: Table)
    ensures Grows(t, t)
  {
  }

  lemma GrowsTrans(a: Table, b: Table, c: Table)
    requires Grows(a, b) && Grows(b, c)
    ensures Grows(a, c)
  {
    forall e, id | HasBucket(a, e, id)
      ensures HasBucket(c, e, id) && a[e][id] <= c[e][id]
    {
      assert a[e][id] <= b[e][id] <= c[e][id];
    }
  }

  lemma PushGrows(t: Table, e: string, id: string, l: Listener)
    ensures Grows(t, Push(t, e, id, l))
  {
  }

  /** Does any entry of the bucket hold a function (`typeof tmpFunc === "function"`)? */
  predicate AnyFunction(b: seq<Listener>)
  {
    exists k :: 0 <= k < |b| && !b[k].Junk?
  }

  /** The scan `willEmit` and `willEmitId` make of one bucket, stopping at the first function. */
  method HasFunction(arr: seq<Listener>) returns (found: bool)
    ensures found == AnyFunction(arr)
  {
    var arrIndex := 0;
    while arrIndex < |arr|
      invariant 0 <= arrIndex <= |arr|
      invariant forall k :: 0 <= k < arrIndex ==> arr[k].Junk?
    {
      if !arr[arrIndex].Junk? {
        return true;
      }
      arrIndex := arrIndex + 1;
    }
    return false;
  }
}
