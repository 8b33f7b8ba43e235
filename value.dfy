/**
 * The AVM1 runtime values and the small part of the execution context
 * (the activation) that a native function of a built-in class consumes:
 * the `?`-propagated error type and the coercion of a value to a 32-bit
 * signed integer.
 */
module Avm1Value {

  /** The tagged runtime value. Numbers are modelled as exact reals. */
  datatype Value =
    | Undefined
    | Null
    | Bool(b: bool)
    | Number(n: real)
    | Str(s: string)
    | Object(handle: nat)

  /** A failure raised by script code (a `valueOf` hook, say) during a native call. */
  datatype Error = ThrownValue(thrown: Value)

  datatype Option<+T> = None | Some(value: T)

  /** The `Result<_, Error>` of a native call, usable with `:-` like Rust's `?`. */
  datatype Result<+T> = Ok(value: T) | Err(error: Error) {
    predicate IsFailure() { Err? }

    function PropagateFailure<U>(): Result<U>
      requires Err?
    {
      Err(error)
    }

    function Extract(): T
      requires Ok?
    {
      value
    }
  }

  const MinI32: int := -0x8000_0000
  const MaxI32: int := 0x7fff_ffff

  predicate IsI32(k: int) { MinI32 <= k <= MaxI32 }

  /** `Value::from(k)` for an `i32` `k`: the number with that integral value. */
  function FromInt(k: int): (v: Value)
    ensures v.Number? && v.n.Floor == k
    ensures v.n == v.n.Floor as real
  {
    Number(k as real)
  }

  /**
   * The execution context handed to every native function. Coercion to
   * `i32` may run script code and fail; its outcome on each value is a
   * parameter of the model, carried here. `blurFilterPrototype` is the
   * prototype that the canonical BlurFilter constructor gives the objects
   * it constructs.
   */
  datatype Activation = Activation(
    coerceToI32: Value -> Result<int>,
    blurFilterPrototype: object?)

  /**
   * What every coercion to `i32` guarantees: a successful result lies in the
   * `i32` range, and a number that already holds an `i32` value converts to
   * that value.
   */
  ghost predicate CoercionWellFormed(coerce: Value -> Result<int>)
  {
    && (forall v :: coerce(v).Ok? ==> IsI32(coerce(v).value))
    && (forall k :: IsI32(k) ==> coerce(FromInt(k)) == Ok(k))
  }
}
