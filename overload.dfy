/**
 * The `irrelon-overload` resolver bundled in dist/index.js, which the
 * Overload-based emitter (dist/Emitter.js) uses to pick the variant of a
 * method from the `typeof` of its arguments.
 *
 * `Overload(def)` normalises an object definition once: spaces are removed
 * from its keys, a key without `*` is stored as it is, and a key with `*`
 * is expanded into every concrete signature, each of which is stored only
 * where no earlier key already put a variant. The returned dispatcher then
 * builds the lookup key from its arguments and tries the exact key, then
 * variadic keys `<prefix>,...` from the longest prefix down to the empty
 * one, and throws when nothing matches. `callExtend` runs the chosen
 * variant with the definition's `$main` installed on `this`.
 */
module Overload {
  import opened Js

  /** A variant function: its identity and its declared parameter count (`fn.length`). */
  datatype Handler = Handler(id: nat, arity: nat)

  /**
   * What `Overload` is given: a falsy value, an array of functions, or an
   * object whose own properties are listed in enumeration order.
   */
  datatype Def = NoDef | Listed(fns: seq<Handler>) | Keyed(props: seq<(string, Handler)>)

  /** The definition the dispatcher closes over once the constructor has run. */
  datatype Compiled = Empty | Variants(fns: seq<Handler>) | Signatures(table: map<string, Handler>)

  /** The outcome of one call of the returned dispatcher. */
  datatype Dispatched =
    | Invoke(h: Handler)           // `callExtend(this, '$main', def, h, arguments)`
    | NoOp                         // the `function () {}` returned for a falsy definition
    | NoSignature(types: seq<string>)  // the throw, reporting the collected `arr`

  // ================================================================ key normalisation

  /** `index.replace(/ /g, '')` */
  function RemoveSpaces(s: string): (r: string)
    ensures ' ' !in r
    ensures forall c :: c != ' ' ==> (c in r <==> c in s)
    ensures ' ' !in s ==> r == s
  {
    if s == [] then []
    else (if s[0] == ' ' then [] else [s[0]]) + RemoveSpaces(s[1..])
  }

  /** Removing spaces from a key already devoid of them changes nothing. */
  lemma RemoveSpacesIdempotent(s: string)
    ensures RemoveSpaces(RemoveSpaces(s)) == RemoveSpaces(s)
  {
  }

  /** The number of wildcards in a signature. */
  function Stars(s: string): (n: nat)
    ensures n == 0 <==> '*' !in s
    ensures n <= |s|
  {
    if s == [] then 0 else (if s[0] == '*' then 1 else 0) + Stars(s[1..])
  }

  lemma {:induction false} StarsAppend(a: string, b: string)
    ensures Stars(a + b) == Stars(a) + Stars(b)
  {
    if a != [] {
      assert (a + b)[0] == a[0];
      assert (a + b)[1..] == a[1..] + b;
      StarsAppend(a[1..], b);
      assert Stars(a + b) == (if a[0] == '*' then 1 else 0) + Stars(a[1..] + b);
    } else {
      assert a + b == b;
    }
  }

  /** `str.replace('*', t)`: only the first wildcard is replaced. */
  function ReplaceFirst(s: string, t: string): (r: string)
    ensures '*' !in s ==> r == s
  {
    if s == [] then []
    else if s[0] == '*' then t + s[1..]
    else [s[0]] + ReplaceFirst(s[1..], t)
  }

  /** A wildcard-free replacement takes away exactly one wildcard. */
  lemma {:induction false} ReplaceFirstStars(s: string, t: string)
    requires '*' in s && '*' !in t
    ensures Stars(ReplaceFirst(s, t)) == Stars(s) - 1
  {
    if s[0] == '*' {
      StarsAppend(t, s[1..]);
    } else {
      ReplaceFirstStars(s[1..], t);
      StarsAppend([s[0]], ReplaceFirst(s[1..], t));
    }
  }

  /** A wildcard-free prefix is left alone by the replacement. */
  lemma {:induction false} ReplaceFirstAfter(p: string, s: string, t: string)
    requires '*' !in p && '*' !in t
    ensures ReplaceFirst(p + s, t) == p + ReplaceFirst(s, t)
  {
    if p != [] {
      assert p[0] in p;
      assert forall c :: c in p[1..] ==> c in p;
      assert (p + s)[0] == p[0];
      assert (p + s)[1..] == p[1..] + s;
      ReplaceFirstAfter(p[1..], s, t);
    } else {
      assert p + s == s;
    }
  }

  /** The types a `*` expands to, in this order; `boolean` and `array` are not among them. */
  const Expansions: seq<string> := ["string", "object", "number", "function", "undefined"]

  lemma ExpansionsStarFree()
    ensures forall i :: 0 <= i < |Expansions| ==> '*' !in Expansions[i]
  {
  }

  /** `generateSignaturePermutations(str)` */
  function Permutations(s: string): (r: seq<string>)
    ensures '*' !in s ==> r == [s]
    decreases Stars(s), 1
  {
    if '*' !in s then [s] else PermutationsFrom(s, 0)
  }

  /** The loop of `generateSignaturePermutations` from type `i` on: each replacement's signatures, concatenated. */
  function PermutationsFrom(s: string, i: nat): seq<string>
    requires '*' in s && i <= |Expansions|
    decreases Stars(s), 0, |Expansions| - i
  {
    if i == |Expansions| then []
    else
      ExpansionsStarFree();
      ReplaceFirstStars(s, Expansions[i]);
      Permutations(ReplaceFirst(s, Expansions[i])) + PermutationsFrom(s, i + 1)
  }

  /** `p + x` for every `x` of `xs`, in order. */
  function Prefixed(p: string, xs: seq<string>): (r: seq<string>)
    ensures |r| == |xs| && forall k :: 0 <= k < |xs| ==> r[k] == p + xs[k]
  {
    seq(|xs|, k requires 0 <= k < |xs| => p + xs[k])
  }

  /**
   * An independent reading of the expansion: scan the signature left to
   * right; each `*` stands for every type of `Expansions` in turn, the
   * leftmost wildcard varying slowest.
   */
  function Expand(s: string): seq<string>
    decreases |s|, 0
  {
    if s == [] then [""]
    else if s[0] == '*' then ExpandStar(s[1..], 0)
    else Prefixed([s[0]], Expand(s[1..]))
  }

  /** A leading `*` read as type `i`, then as the later types. */
  function ExpandStar(rest: string, i: nat): seq<string>
    requires i <= |Expansions|
    decreases |rest|, 1 + |Expansions| - i
  {
    if i == |Expansions| then [] else Prefixed(Expansions[i], Expand(rest)) + ExpandStar(rest, i + 1)
  }

  /** k wildcards give 5^k signatures, none of them holding a wildcard. */
  function Pow5(k: nat): nat
  {
    if k == 0 then 1 else 5 * Pow5(k - 1)
  }

  lemma {:induction false} ExpandShape(s: string)
    ensures |Expand(s)| == Pow5(Stars(s))
    ensures forall k :: 0 <= k < |Expand(s)| ==> '*' !in Expand(s)[k]
    decreases |s|, 0
  {
    if s != [] {
      if s[0] == '*' {
        ExpandStarShape(s[1..], 0);
        assert Stars(s) == 1 + Stars(s[1..]);
      } else {
        ExpandShape(s[1..]);
        PrefixedStarFree([s[0]], Expand(s[1..]));
        assert Stars(s) == Stars(s[1..]);
      }
    }
  }

  lemma {:induction false} ExpandStarShape(rest: string, i: nat)
    requires i <= |Expansions|
    ensures |ExpandStar(rest, i)| == (|Expansions| - i) * Pow5(Stars(rest))
    ensures forall k :: 0 <= k < |ExpandStar(rest, i)| ==> '*' !in ExpandStar(rest, i)[k]
    decreases |rest|, 1, |Expansions| - i
  {
    if i < |Expansions| {
      ExpandShape(rest);
      ExpandStarShape(rest, i + 1);
      ExpansionsStarFree();
      var head := Prefixed(Expansions[i], Expand(rest));
      var tail := ExpandStar(rest, i + 1);
      PrefixedStarFree(Expansions[i], Expand(rest));
      MulStep(|Expansions| - i, Pow5(Stars(rest)));
      ConcatStarFree(head, tail);
    }
  }

  lemma MulStep(a: nat, p: nat)
    requires a >= 1
    ensures a * p == p + (a - 1) * p
  {
  }

  lemma ConcatStarFree(a: seq<string>, b: seq<string>)
    requires forall k :: 0 <= k < |a| ==> '*' !in a[k]
    requires forall k :: 0 <= k < |b| ==> '*' !in b[k]
    ensures forall k :: 0 <= k < |a + b| ==> '*' !in (a + b)[k]
  {
    forall k | 0 <= k < |a + b|
      ensures '*' !in (a + b)[k]
    {
      if k < |a| {
        assert (a + b)[k] == a[k];
      } else {
        assert (a + b)[k] == b[k - |a|];
      }
    }
  }

  lemma PrefixedStarFree(p: string, xs: seq<string>)
    requires '*' !in p && forall k :: 0 <= k < |xs| ==> '*' !in xs[k]
    ensures forall k :: 0 <= k < |xs| ==> '*' !in Prefixed(p, xs)[k]
  {
    forall k | 0 <= k < |xs|
      ensures '*' !in Prefixed(p, xs)[k]
    {
      assert Prefixed(p, xs)[k] == p + xs[k];
    }
  }

  lemma PrefixedAppend(p: string, a: seq<string>, b: seq<string>)
    ensures Prefixed(p, a + b) == Prefixed(p, a) + Prefixed(p, b)
  {
  }

  /** A wildcard-free prefix rides along the expansion. */
  lemma {:induction false} PermutationsAfter(p: string, s: string)
    requires '*' !in p
    ensures Permutations(p + s) == Prefixed(p, Permutations(s))
    decreases Stars(s), 1
  {
    StarsAppend(p, s);
    if '*' !in s {
      assert Prefixed(p, [s]) == [p + s];
    } else {
      PermutationsFromAfter(p, s, 0);
    }
  }

  lemma {:induction false} PermutationsFromAfter(p: string, s: string, i: nat)
    requires '*' !in p && '*' in s && i <= |Expansions|
    ensures '*' in p + s
    ensures PermutationsFrom(p + s, i) == Prefixed(p, PermutationsFrom(s, i))
    decreases Stars(s), 0, |Expansions| - i
  {
    StarsAppend(p, s);
    if i < |Expansions| {
      ExpansionsStarFree();
      var t := Expansions[i];
      ReplaceFirstAfter(p, s, t);
      ReplaceFirstStars(s, t);
      PermutationsAfter(p, ReplaceFirst(s, t));
      PermutationsFromAfter(p, s, i + 1);
      PrefixedAppend(p, Permutations(ReplaceFirst(s, t)), PermutationsFrom(s, i + 1));
    }
  }

  /** The replace-first recursion of the source yields exactly the left-to-right expansion. */
  lemma {:induction false} PermutationsAreExpansion(s: string)
    ensures Permutations(s) == Expand(s)
    decreases |s|, 1
  {
    if s != [] {
      assert s == [s[0]] + s[1..];
      PermutationsAreExpansion(s[1..]);
      if s[0] == '*' {
        PermutationsFromStar(s, 0);
      } else {
        PermutationsAfter([s[0]], s[1..]);
      }
    }
  }

  lemma {:induction false} PermutationsFromStar(s: string, i: nat)
    requires s != [] && s[0] == '*' && i <= |Expansions|
    requires Permutations(s[1..]) == Expand(s[1..])
    ensures PermutationsFrom(s, i) == ExpandStar(s[1..], i)
    decreases |Expansions| - i
  {
    if i < |Expansions| {
      ExpansionsStarFree();
      var t := Expansions[i];
      assert ReplaceFirst(s, t) == t + s[1..];
      PermutationsAfter(t, s[1..]);
      PermutationsFromStar(s, i + 1);
    }
  }

  /** The count and the wildcard-free results, for the source's own function. */
  lemma PermutationsShape(s: string)
    ensures |Permutations(s)| == Pow5(Stars(s))
    ensures forall k :: 0 <= k < |Permutations(s)| ==> '*' !in Permutations(s)[k]
  {
    PermutationsAreExpansion(s);
    ExpandShape(s);
  }

  /** `if (!tmpDef[sig]) tmpDef[sig] = def[index]` for each generated signature in turn. */
  function FillVacant(t: map<string, Handler>, sigs: seq<string>, h: Handler): (r: map<string, Handler>)
    ensures forall k :: k in t ==> k in r && r[k] == t[k]
    ensures forall k :: k !in t ==> (k in r <==> k in sigs)
    ensures forall k :: k in r && k !in t ==> r[k] == h
    decreases |sigs|
  {
    if sigs == [] then t
    else
      assert forall k :: k in sigs <==> k == sigs[0] || k in sigs[1..];
      FillVacant(if sigs[0] in t then t else t[sigs[0] := h], sigs[1..], h)
  }

  /** One property of the definition folded into `tmpDef`. */
  function Absorb(t: map<string, Handler>, key: string, h: Handler): (r: map<string, Handler>)
    ensures '*' !in key ==> key in r && r[key] == h
    ensures '*' !in key ==> forall k :: k != key ==> (k in r <==> k in t) && (k in t ==> r[k] == t[k])
    ensures '*' in key ==> forall k :: k in t ==> k in r && r[k] == t[k]
    ensures '*' in key ==> forall k :: k !in t ==> (k in r <==> k in Expand(key)) && (k in r ==> r[k] == h)
  {
    if '*' !in key then t[key := h]
    else
      PermutationsAreExpansion(key);
      FillVacant(t, Permutations(key), h)
  }

  /** The `tmpDef` built by the constructor's `for (index in def)` loop. */
  function Normalised(props: seq<(string, Handler)>): map<string, Handler>
  {
    if props == [] then map[]
    else Absorb(Normalised(props[..|props| - 1]), RemoveSpaces(props[|props| - 1].0), props[|props| - 1].1)
  }

  /** `Overload(def)` up to the returned closure: what it captures. */
  function Compile(def: Def): Compiled
  {
    match def
    case NoDef => Empty
    case Listed(fns) => Variants(fns)
    case Keyed(props) => Signatures(Normalised(props))
  }

  /**
   * A plain key given later overrides everything before it, whereas a
   * wildcard key never overrides: it only fills signatures no earlier key
   * produced.
   */
  lemma NormalisedLastKey(props: seq<(string, Handler)>, key: string, h: Handler)
    ensures var t0 := Normalised(props);
      var t := Normalised(props + [(key, h)]);
      ('*' !in RemoveSpaces(key) ==> t == t0[RemoveSpaces(key) := h])
      && ('*' in RemoveSpaces(key) ==>
            (forall k :: k in t0 ==> k in t && t[k] == t0[k])
            && forall k :: k !in t0 ==> (k in t <==> k in Expand(RemoveSpaces(key))) && (k in t ==> t[k] == h))
  {
    assert (props + [(key, h)])[..|props|] == props;
  }

  // ================================================================ the dispatcher

  /** `typeof` with arrays reported as `array`. */
  function TypeKey(v: Value): string
  {
    if v.Arr? then "array" else TypeOf(v)
  }

  /** A `*` stands for every type but `boolean` and `array`. */
  lemma WildcardTypes(v: Value)
    ensures TypeKey(v) in Expansions <==> !v.Bool? && !v.Arr?
  {
  }

  /** The `arr` of argument types. */
  function ArgTypes(args: seq<Value>): (r: seq<string>)
    ensures |r| == |args|
  {
    seq(|args|, i requires 0 <= i < |args| => TypeKey(args[i]))
  }

  /** `arr.join(',')` */
  function Join(xs: seq<string>): string
  {
    if |xs| == 0 then ""
    else if |xs| == 1 then xs[0]
    else Join(xs[..|xs| - 1]) + "," + xs[|xs| - 1]
  }

  /** `arr.slice(0, n).join(',') + ',...'` */
  function VariadicKey(types: seq<string>, n: nat): string
    requires n <= |types|
  {
    Join(types[..n]) + ",..."
  }

  /** The `for (index = arr.length; index >= 0; index--)` scan, started at `n`: the longest prefix with a variadic key. */
  function LongestVariadic(t: map<string, Handler>, types: seq<string>, n: nat): (r: Option<nat>)
    requires n <= |types|
    ensures r.Some? ==> r.value <= n && VariadicKey(types, r.value) in t
    ensures r.Some? ==> forall m :: r.value < m <= n ==> VariadicKey(types, m) !in t
    ensures r.None? <==> forall m :: 0 <= m <= n ==> VariadicKey(types, m) !in t
    decreases n
  {
    if VariadicKey(types, n) in t then Some(n)
    else if n == 0 then None
    else LongestVariadic(t, types, n - 1)
  }

  /** The index of the first function declaring exactly `n` parameters. */
  function FirstOfArity(fns: seq<Handler>, n: nat): (r: Option<nat>)
    ensures r.Some? ==> r.value < |fns| && fns[r.value].arity == n
    ensures r.Some? ==> forall j :: 0 <= j < r.value ==> fns[j].arity != n
    ensures r.None? <==> forall j :: 0 <= j < |fns| ==> fns[j].arity != n
  {
    if fns == [] then None
    else if fns[0].arity == n then Some(0)
    else
      var r := FirstOfArity(fns[1..], n);
      if r.None? then None else Some(r.value + 1)
  }

  /** One call of the dispatcher returned by `Overload(def)`. */
  function DispatchS(c: Compiled, args: seq<Value>): (d: Dispatched)
    ensures d.NoOp? <==> c.Empty?
    ensures c.Variants? ==> d != NoSignature([]) ==> d.Invoke? && d.h in c.fns && d.h.arity == |args|
    ensures c.Variants? && d.NoSignature? ==> d.types == []
    ensures c.Signatures? && d.Invoke? ==> d.h in c.table.Values
    ensures c.Signatures? && d.NoSignature? ==> d.types == ArgTypes(args)
  {
    match c
    case Empty => NoOp
    case Variants(fns) =>
      var k := FirstOfArity(fns, |args|);
      if k.Some? then Invoke(fns[k.value]) else NoSignature([])
    case Signatures(t) =>
      var types := ArgTypes(args);
      if Join(types) in t then Invoke(t[Join(types)])
      else
        var n := LongestVariadic(t, types, |types|);
        if n.Some? then Invoke(t[VariadicKey(types, n.value)]) else NoSignature(types)
  }

  /**
   * With an object definition: the exact key wins; failing that, the
   * variadic key of the longest argument-type prefix that has one; and the
   * call throws exactly when neither exists.
   */
  lemma SignatureResolution(t: map<string, Handler>, args: seq<Value>)
    ensures var types := ArgTypes(args);
      var d := DispatchS(Signatures(t), args);
      (Join(types) in t ==> d == Invoke(t[Join(types)]))
      && (d.NoSignature? <==> Join(types) !in t && forall m :: 0 <= m <= |types| ==> VariadicKey(types, m) !in t)
      && forall n ::
           (0 <= n <= |types| && Join(types) !in t && VariadicKey(types, n) in t
            && forall m :: n < m <= |types| ==> VariadicKey(types, m) !in t)
           ==> d == Invoke(t[VariadicKey(types, n)])
  {
    var types := ArgTypes(args);
    forall n | 0 <= n <= |types| && Join(types) !in t && VariadicKey(types, n) in t
        && (forall m :: n < m <= |types| ==> VariadicKey(types, m) !in t)
      ensures LongestVariadic(t, types, |types|) == Some(n)
    {
      var r := LongestVariadic(t, types, |types|);
      assert r.Some?;
    }
  }

  /** With an array definition: the first function whose arity is the argument count, or a throw. */
  lemma ArrayResolution(fns: seq<Handler>, args: seq<Value>)
    ensures var d := DispatchS(Variants(fns), args);
      (d.NoSignature? <==> forall j :: 0 <= j < |fns| ==> fns[j].arity != |args|)
      && forall j ::
           (0 <= j < |fns| && fns[j].arity == |args| && forall i :: 0 <= i < j ==> fns[i].arity != |args|)
           ==> d == Invoke(fns[j])
  {
    forall j | 0 <= j < |fns| && fns[j].arity == |args| && (forall i :: 0 <= i < j ==> fns[i].arity != |args|)
      ensures FirstOfArity(fns, |args|) == Some(j)
    {
      var r := FirstOfArity(fns, |args|);
      assert r.Some?;
    }
  }

  // ================================================================ the source's loops

  /** `generateSignaturePermutations(str)`, its `for` loop concatenating each replacement's signatures. */
  method GenerateSignaturePermutations(str: string) returns (signatures: seq<string>)
    ensures signatures == Permutations(str)
    decreases Stars(str)
  {
    signatures := [];
    if '*' in str {
      ExpansionsStarFree();
      var index := 0;
      while index < |Expansions|
        invariant 0 <= index <= |Expansions|
        invariant signatures + PermutationsFrom(str, index) == PermutationsFrom(str, 0)
      {
        var newSignature := ReplaceFirst(str, Expansions[index]);
        ReplaceFirstStars(str, Expansions[index]);
        var more := GenerateSignaturePermutations(newSignature);
        signatures := signatures + more;
        index := index + 1;
      }
    } else {
      signatures := [str];
    }
  }

  /** The constructor's `for (index in def)` loop building `tmpDef`. */
  method NormaliseKeys(props: seq<(string, Handler)>) returns (tmpDef: map<string, Handler>)
    ensures tmpDef == Normalised(props)
  {
    tmpDef := map[];
    var index := 0;
    while index < |props|
      invariant 0 <= index <= |props|
      invariant tmpDef == Normalised(props[..index])
    {
      assert props[..index + 1][..index] == props[..index];
      var (key, h) := props[index];
      var defNewKey := RemoveSpaces(key);
      if '*' !in defNewKey {
        tmpDef := tmpDef[defNewKey := h];
      } else {
        var signatures := GenerateSignaturePermutations(defNewKey);
        tmpDef := FillVacantKeys(tmpDef, signatures, h);
      }
      index := index + 1;
    }
    assert props[..|props|] == props;
  }

  /** The `for (sigIndex ...)` loop: each generated signature is taken only where `tmpDef` has none. */
  method FillVacantKeys(t0: map<string, Handler>, signatures: seq<string>, h: Handler) returns (tmpDef: map<string, Handler>)
    ensures tmpDef == FillVacant(t0, signatures, h)
  {
    tmpDef := t0;
    var sigIndex := 0;
    while sigIndex < |signatures|
      invariant 0 <= sigIndex <= |signatures|
      invariant FillVacant(tmpDef, signatures[sigIndex..], h) == FillVacant(t0, signatures, h)
    {
      assert signatures[sigIndex..][1..] == signatures[sigIndex + 1..];
      if signatures[sigIndex] !in tmpDef {
        tmpDef := tmpDef[signatures[sigIndex] := h];
      }
      sigIndex := sigIndex + 1;
    }
  }

  /** `Overload(def)`: normalises an object definition and returns what the dispatcher closes over. */
  method Construct(def: Def) returns (c: Compiled)
    ensures c == Compile(def)
  {
    match def {
      case NoDef => c := Empty;
      case Listed(fns) => c := Variants(fns);
      case Keyed(props) =>
        var tmpDef := NormaliseKeys(props);
        c := Signatures(tmpDef);
    }
  }

  /** The dispatcher's body up to `callExtend`: which variant runs, or that it throws. */
  method Dispatch(c: Compiled, args: seq<Value>) returns (d: Dispatched)
    ensures d == DispatchS(c, args)
  {
    match c {
      case Empty =>
        d := NoOp;
      case Variants(fns) =>
        var k := MatchArity(fns, |args|);
        if k.Some? {
          return Invoke(fns[k.value]);
        }
        d := NoSignature([]);
      case Signatures(t) =>
        var arr := LookupTypes(args);
        var lookup := Join(arr);
        if lookup in t {
          return Invoke(t[lookup]);
        }
        var n := ClosestVariadic(t, arr);
        if n.Some? {
          return Invoke(t[VariadicKey(arr, n.value)]);
        }
        d := NoSignature(arr);
    }
  }

  /** The loop over an array definition: the first function whose arity is `n`. */
  method MatchArity(fns: seq<Handler>, n: nat) returns (k: Option<nat>)
    ensures k == FirstOfArity(fns, n)
  {
    var index := 0;
    while index < |fns|
      invariant 0 <= index <= |fns|
      invariant forall j :: 0 <= j < index ==> fns[j].arity != n
    {
      if fns[index].arity == n {
        assert FirstOfArity(fns, n) == Some(index);
        return Some(index);
      }
      index := index + 1;
    }
    k := None;
  }

  /** The loop building the lookup key's parts: one type name per argument. */
  method LookupTypes(args: seq<Value>) returns (arr: seq<string>)
    ensures arr == ArgTypes(args)
  {
    arr := [];
    var index := 0;
    while index < |args|
      invariant 0 <= index <= |args|
      invariant arr == ArgTypes(args)[..index]
    {
      arr := arr + [TypeKey(args[index])];
      index := index + 1;
    }
  }

  /** The `for (index = arr.length; index >= 0; index--)` search for a `,...` key. */
  method ClosestVariadic(t: map<string, Handler>, arr: seq<string>) returns (k: Option<nat>)
    ensures k == LongestVariadic(t, arr, |arr|)
  {
    var n: int := |arr|;
    while n >= 0
      invariant -1 <= n <= |arr|
      invariant forall m :: n < m <= |arr| ==> VariadicKey(arr, m) !in t
    {
      if VariadicKey(arr, n) in t {
        assert LongestVariadic(t, arr, |arr|) == Some(n);
        return Some(n);
      }
      n := n - 1;
    }
    k := None;
  }

  // ================================================================ callExtend

  /** The properties of the object a variant is called on. */
  class Context {
    var props: map<string, Value>

    constructor (props: map<string, Value>)
      ensures this.props == props
    {
      this.props := props;
    }
  }

  /**
   * What a variant does when run: given the variant, the properties of
   * `this` as it finds them and the arguments, the value it returns and
   * the properties it leaves behind.
   */
  type Body = (Handler, map<string, Value>, seq<Value>) -> (Value, map<string, Value>)

  /** `obj[prop]`, undefined when absent. */
  function Get(m: map<string, Value>, prop: string): Value
  {
    if prop in m then m[prop] else Undefined
  }

  /** `propContext[prop]` for the definition the dispatcher closes over; an array has no such property. */
  function DefProp(c: Compiled, prop: string): Value
  {
    if c.Signatures? && prop in c.table then Func(c.table[prop].id) else Undefined
  }

  /**
   * `callExtend(context, prop, propContext, func, args)`: when `context`
   * exists and the definition has `prop`, the variant runs with
   * `context[prop]` set to it, and the earlier value is written back
   * afterwards; otherwise the variant just runs. A missing context is
   * called with no properties.
   */
  method CallExtend(context: Context?, prop: string, main: Value, func: Handler, args: seq<Value>, body: Body)
    returns (ret: Value)
    modifies context
    ensures context != null && Truthy(main) ==>
      var run := body(func, old(context.props)[prop := main], args);
      ret == run.0 && context.props == run.1[prop := Get(old(context.props), prop)]
    ensures context != null && !Truthy(main) ==>
      var run := body(func, old(context.props), args);
      ret == run.0 && context.props == run.1
    ensures context == null ==> ret == body(func, map[], args).0
  {
    if context != null && Truthy(main) {
      var tmp := Get(context.props, prop);
      context.props := context.props[prop := main];
      var run := body(func, context.props, args);
      ret := run.0;
      context.props := run.1[prop := tmp];
    } else if context != null {
      var run := body(func, context.props, args);
      ret := run.0;
      context.props := run.1;
    } else {
      var run := body(func, map[], args);
      ret := run.0;
    }
  }

  /** The result of calling the function `Overload` returns. */
  datatype Returned = Returned(value: Value) | Thrown(types: seq<string>)

  /**
   * The dispatcher returned by `Overload(def)`, called on `context`: the
   * variant chosen by `DispatchS` runs through `callExtend` with `$main`.
   */
  method Call(c: Compiled, context: Context?, args: seq<Value>, body: Body) returns (r: Returned)
    modifies context
    ensures var d := DispatchS(c, args);
      && (d.NoOp? ==> r == Returned(Undefined) && (context != null ==> context.props == old(context.props)))
      && (d.NoSignature? ==> r == Thrown(d.types) && (context != null ==> context.props == old(context.props)))
      && (d.Invoke? && context != null && DefProp(c, "$main") != Undefined ==>
            var run := body(d.h, old(context.props)["$main" := DefProp(c, "$main")], args);
            r == Returned(run.0) && context.props == run.1["$main" := Get(old(context.props), "$main")])
      && (d.Invoke? && context != null && DefProp(c, "$main") == Undefined ==>
            var run := body(d.h, old(context.props), args);
            r == Returned(run.0) && context.props == run.1)
      && (d.Invoke? && context == null ==> r == Returned(body(d.h, map[], args).0))
  {
    var d := Dispatch(c, args);
    match d {
      case NoOp => r := Returned(Undefined);
      case NoSignature(types) => r := Thrown(types);
      case Invoke(h) =>
        var ret := CallExtend(context, "$main", DefProp(c, "$main"), h, args, body);
        r := Returned(ret);
    }
  }

  // ================================================================ consequences for definitions

  /** A wildcard-free prefix rides along the reference expansion too. */
  lemma ExpandAfter(p: string, s: string)
    requires '*' !in p
    ensures Expand(p + s) == Prefixed(p, Expand(s))
  {
    PermutationsAreExpansion(p + s);
    PermutationsAreExpansion(s);
    PermutationsAfter(p, s);
  }

  /** A key with a single wildcard stands for the five types, in order. */
  lemma OneWildcard(p: string, q: string)
    requires '*' !in p && '*' !in q
    ensures Expand(p + "*" + q) == seq(|Expansions|, i requires 0 <= i < |Expansions| => p + Expansions[i] + q)
  {
    assert p + "*" + q == p + ("*" + q);
    ExpandAfter(p, "*" + q);
    assert ("*" + q)[1..] == q;
    ExpandStarFlat(q, 0);
    var ys := ExpandStar(q, 0);
    var r := seq(|Expansions|, i requires 0 <= i < |Expansions| => p + Expansions[i] + q);
    forall i | 0 <= i < |Expansions|
      ensures r[i] == Prefixed(p, ys)[i]
    {
      assert p + Expansions[i] + q == p + (Expansions[i] + q);
    }
  }

  /** Behind a leading `*`, a wildcard-free rest gives one signature per remaining type. */
  lemma {:induction false} ExpandStarFlat(q: string, i: nat)
    requires '*' !in q && i <= |Expansions|
    ensures |ExpandStar(q, i)| == |Expansions| - i
    ensures forall j :: 0 <= j < |Expansions| - i ==> ExpandStar(q, i)[j] == Expansions[i + j] + q
    decreases |Expansions| - i
  {
    if i < |Expansions| {
      ExpandStarFlat(q, i + 1);
      PermutationsAreExpansion(q);
      assert Expand(q) == [q];
      var head := Prefixed(Expansions[i], [q]);
      var tail := ExpandStar(q, i + 1);
      assert ExpandStar(q, i) == head + tail;
      forall j | 0 <= j < |Expansions| - i
        ensures (head + tail)[j] == Expansions[i + j] + q
      {
        if j == 0 {
          assert (head + tail)[0] == head[0];
        } else {
          assert (head + tail)[j] == tail[j - 1];
          assert i + 1 + (j - 1) == i + j;
        }
      }
    }
  }

  /**
   * Once a signature is in `tmpDef`, only a later wildcard-free key equal to
   * it can replace its variant: wildcard keys never override.
   */
  lemma {:induction false} WildcardsNeverOverride(props: seq<(string, Handler)>, n: nat, k: string)
    requires n <= |props| && k in Normalised(props[..n])
    requires forall j :: n <= j < |props| ==> '*' in RemoveSpaces(props[j].0) || RemoveSpaces(props[j].0) != k
    ensures k in Normalised(props) && Normalised(props)[k] == Normalised(props[..n])[k]
  {
    if n == |props| {
      assert props[..n] == props;
    } else {
      var init := props[..|props| - 1];
      assert init[..n] == props[..n];
      assert forall j :: n <= j < |init| ==> init[j] == props[j];
      WildcardsNeverOverride(init, n, k);
    }
  }

  /**
   * So with the emitter's `off` keys `string, function` followed by
   * `string, *`, a call with a string and a function runs the former.
   */
  lemma ExactKeyKept(props: seq<(string, Handler)>, n: nat, args: seq<Value>)
    requires n <= |props| && Join(ArgTypes(args)) in Normalised(props[..n])
    requires forall j :: n <= j < |props| ==> '*' in RemoveSpaces(props[j].0) || RemoveSpaces(props[j].0) != Join(ArgTypes(args))
    ensures DispatchS(Compile(Keyed(props)), args) == Invoke(Normalised(props[..n])[Join(ArgTypes(args))])
  {
    WildcardsNeverOverride(props, n, Join(ArgTypes(args)));
  }
}
