/** JavaScript values and the few language built-ins the route handlers lean on:
    truthiness, property reads, `Array.prototype.find`, and settled promises. */
module Js {

  datatype Option<+T> = None | Some(value: T)

  /** A value reachable from a parsed request (a JSON body or a query string),
      plus `undefined`, which is what reading an absent property yields.
      Numbers are reals: JSON cannot carry NaN, and a number too large to
      parse stands for the infinity it becomes (truthy, like any nonzero real). */
  datatype Value =
    | Undefined
    | Null
    | Bool(b: bool)
    | Num(n: real)
    | Str(s: string)
    | Arr(items: seq<Value>)
    | Obj(props: map<string, Value>)

  /** JavaScript truthiness: `undefined`, `null`, `false`, `0` and `''` are
      falsy; every array and every object, even an empty one, is truthy. */
  predicate Truthy(v: Value) {
    match v
    case Undefined => false
    case Null => false
    case Bool(b) => b
    case Num(n) => n != 0.0
    case Str(s) => s != ""
    case Arr(_) => true
    case Obj(_) => true
  }

  /** `obj[key]` (and destructuring without a default): an absent property
      reads as `undefined`. */
  function Get(obj: map<string, Value>, key: string): Value {
    if key in obj then obj[key] else Undefined
  }

  /** `keys.find(p)`: the first key that satisfies `p`, or nothing when no key does. */
  function Find(keys: seq<string>, p: string -> bool): (r: Option<string>)
    ensures r.None? <==> forall i :: 0 <= i < |keys| ==> !p(keys[i])
    ensures r.Some? ==> exists i :: 0 <= i < |keys| && keys[i] == r.value && p(keys[i]) &&
                                    forall j :: 0 <= j < i ==> !p(keys[j])
  {
    if keys == [] then None
    else if p(keys[0]) then Some(keys[0])
    else
      var rest := Find(keys[1..], p);
      assert forall i :: 1 <= i < |keys| ==> keys[i] == keys[1..][i - 1];
      rest
  }

  /** What a handler can pass to `next(err)` or see rejected. */
  datatype Error =
      /** `new Error(message)` with `err.status` set, as the route handlers build them */
    | Raised(message: string, status: int)
      /** an exception the JavaScript runtime throws, named by its class (`TypeError`, ...) */
    | Thrown(name: string, message: string)
      /** a rejection coming from the database or a library, with its `code` and
          `reason` properties (`undefined` when it has none) */
    | Rejection(code: Value, reason: Value, message: string)

  /** `err.code` */
  function CodeOf(e: Error): Value {
    if e.Rejection? then e.code else Undefined
  }

  /** `err.reason` */
  function ReasonOf(e: Error): Value {
    if e.Rejection? then e.reason else Undefined
  }

  /** How a promise settles. */
  datatype Outcome<+T> = Resolved(value: T) | Rejected(err: Error)
}
