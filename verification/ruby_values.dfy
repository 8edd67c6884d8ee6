/**
 The fragment of Ruby's object model that the JSON helpers touch: the values
 that end up in a rendered hash, hash merging and key removal, truthiness,
 string interpolation, and the exceptions the helpers can raise.
 */
module RubyValues {

  /** A Ruby value as it can appear in a JSON envelope. Hash keys are values
      too, so the symbol key `:status` and the string key `"status"` differ. */
  datatype Value =
    | Nil
    | Bool(b: bool)
    | Int(i: int)
    | Str(s: string)
    | Sym(name: string)
    | Array(elems: seq<Value>)
    | Dict(entries: map<Value, Value>)

  /** A Ruby Hash with its insertion order forgotten. */
  type Hash = map<Value, Value>

  /** Only `nil` and `false` are falsy in Ruby; `""`, `0` and `[]` are truthy. */
  predicate Truthy(v: Value) {
    v != Nil && v != Bool(false)
  }

  /** `h[k]`: a missing key reads as nil. */
  function Lookup(h: Hash, k: Value): Value {
    if k in h then h[k] else Nil
  }

  /** `a.merge(b)`: on a shared key the right-hand value wins. */
  function Merge(a: Hash, b: Hash): Hash {
    a + b
  }

  /** `h.except(k)`. */
  function Except(h: Hash, k: Value): Hash {
    h - {k}
  }

  /** `"#{v}"`: strings and symbols interpolate as their text, nil as the
      empty string, booleans as their name; for integers, arrays and hashes
      `to_s` is `inspect`, which belongs to the runtime and is passed in. */
  function ToS(v: Value, inspect: Value -> string): string {
    match v
    case Str(s) => s
    case Sym(name) => name
    case Nil => ""
    case Bool(b) => if b then "true" else "false"
    case _ => inspect(v)
  }

  /** The exceptions the helpers raise. */
  datatype Fault =
    | InvalidResponseType(kind: Value) // RuntimeError "Invalid json response type: ..."
    | NotAMethodName(arg: Value)       // TypeError from `send` with a non-symbol, non-string
    | NoMethod(name: string)           // NoMethodError

  /** A call that either returns a value or raises. */
  datatype Result<+T> = Ok(value: T) | Err(fault: Fault) {

    predicate IsFailure() {
      Err?
    }

    function PropagateFailure<U>(): Result<U>
      requires Err?
    {
      Err(fault)
    }

    function Extract(): T
      requires Ok?
    {
      value
    }
  }
}
