/**
 * The JavaScript vocabulary shared by every emitter version: the values
 * that travel as event arguments and listener results, the listeners
 * themselves, and what a listener may ask of the emitter while it runs.
 */
module Js {

  datatype Option<T> = None | Some(value: T)

  /**
   * A JavaScript value as far as the emitter can observe it. Numbers are
   * integers (NaN and fractions play no part in the emitter's decisions);
   * functions, objects and arrays are compared by identity.
   */
  datatype Value =
    | Undefined
    | Null
    | Bool(b: bool)
    | Num(n: int)
    | Str(s: string)
    | Func(f: nat)
    | Obj(o: nat)
    | Arr(a: nat)

  /** JavaScript truthiness. */
  predicate Truthy(v: Value)
  {
    match v
    case Undefined => false
    case Null => false
    case Bool(b) => b
    case Num(n) => n != 0
    case Str(s) => s != ""
    case _ => true
  }

  /** The `typeof` operator. */
  function TypeOf(v: Value): (t: string)
    ensures t == "function" <==> v.Func?
    ensures t == "string" <==> v.Str?
  {
    match v
    case Undefined => "undefined"
    case Null => "object"
    case Bool(_) => "boolean"
    case Num(_) => "number"
    case Str(_) => "string"
    case Func(_) => "function"
    case Obj(_) => "object"
    case Arr(_) => "object"
  }

  type NonFunction = v: Value | !v.Func? witness Undefined

  /**
   * What a bucket may hold. `Fn(f)` is a listener function registered
   * directly. `Guard` is the closure that `once` registers in its place:
   * `serial` is its identity, `event` and `scope` what it captured (scope
   * `None` is the two-argument `once(event, listener)` of the
   * Overload-based build), and `inner` the wrapped listener. `Junk` is any
   * non-function value pushed by `on`; dispatch skips it.
   */
  datatype Listener =
    | Fn(f: nat)
    | Guard(serial: nat, event: string, scope: Option<string>, inner: nat)
    | Junk(v: NonFunction)

  type FnListener = l: Listener | !l.Junk? witness Fn(0)

  /**
   * The `off` call a guard makes on itself before running the wrapped
   * listener: `off(event, id, guard)`, or `off(event, guard)` for an
   * unscoped guard.
   */
  function SelfOff(l: Listener): (form: OffForm)
    requires l.Guard?
  {
    if l.scope.None? then OffListener(l.event, l) else OffIdListener(l.event, l.scope.value, l)
  }

  /** One invocation of a user function, as it appears in a trace. */
  datatype Call = Call(f: nat, args: seq<Value>)

  /** The public forms of `off`: by event, by listener, by id, by id and listener. */
  datatype OffForm =
    | OffEvent(event: string)
    | OffListener(event: string, listener: FnListener)
    | OffId(event: string, id: string)
    | OffIdListener(event: string, id: string, listener: FnListener)

  function FormEvent(f: OffForm): string
  {
    match f
    case OffEvent(e) => e
    case OffListener(e, _) => e
    case OffId(e, _) => e
    case OffIdListener(e, _, _) => e
  }

  /** The id a form addresses; the forms without one address the global id. */
  function FormId(f: OffForm): string
  {
    match f
    case OffEvent(_) => "*"
    case OffListener(_, _) => "*"
    case OffId(_, id) => id
    case OffIdListener(_, id, _) => id
  }

  /** The listener a form names, if any. */
  function FormListener(f: OffForm): Option<FnListener>
  {
    match f
    case OffEvent(_) => None
    case OffListener(_, l) => Some(l)
    case OffId(_, _) => None
    case OffIdListener(_, _, l) => Some(l)
  }

  /** A registration or removal that a running listener performs on its emitter. */
  datatype Request =
    | OnRequest(event: string, id: string, f: nat)
    | OffRequest(form: OffForm)

  /** What one call of a listener function does: its return value and its requests. */
  datatype Reaction = Reaction(result: Value, requests: seq<Request>)

  /** The behaviour of every user function, by identity, given the call's arguments. */
  type Oracle = (nat, seq<Value>) -> Reaction

  /** One record of the static ledger, `{id, args}`. */
  datatype StaticEntry = StaticEntry(id: string, args: seq<Value>)

  /**
   * A callback handed to `setTimeout`: either a ledger replay for one
   * listener, or a debounced emission identified by its timeout handle.
   */
  datatype Timer =
    | ReplayTimer(listener: Listener, args: seq<Value>)
    | DeferTimer(handle: nat, event: string, args: seq<Value>)
}
