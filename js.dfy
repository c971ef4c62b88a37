/** The few JavaScript value semantics the dashboard's view logic relies on. */
module Js {

  /** A TypeScript value of type `T | null`. */
  datatype Option<T> = None | Some(value: T)

  /** JavaScript truthiness of a `string | null`, as in `if (error)`: null and "" are falsy. */
  predicate Truthy(s: Option<string>)
  {
    s.Some? && s.value != ""
  }

  /** An integral JavaScript Number, or NaN (what `parseInt` yields when it finds no digits). */
  datatype Number = NaN | Int(value: int)

  /** `a + b` on Numbers: NaN absorbs everything. */
  function Add(a: Number, b: Number): (r: Number)
    ensures r.Int? <==> a.Int? && b.Int?
    ensures r.Int? ==> r.value == a.value + b.value
  {
    if a.Int? && b.Int? then Int(a.value + b.value) else NaN
  }

  /** `-a` on Numbers. */
  function Negate(a: Number): (r: Number)
    ensures r.Int? <==> a.Int?
    ensures r.Int? ==> r.value == -a.value
  {
    if a.Int? then Int(-a.value) else NaN
  }

  /** `a * k` for an integral Number `k`: NaN times anything (zero included) is NaN. */
  function Mul(a: Number, k: int): (r: Number)
    ensures r.Int? <==> a.Int?
    ensures r.Int? ==> r.value == a.value * k
  {
    if a.Int? then Int(a.value * k) else NaN
  }
}
