/** The pieces of JavaScript value semantics the tracker relies on: numbers
    read from form fields, truthiness, `||` used as a fallback, `Math.round`
    and `Math.floor`. JavaScript numbers are modelled as exact reals; the
    IEEE-754 rounding of the real program is abstracted away. */
module JsValues {

  datatype Option<+T> = None | Some(value: T)

  /** What unary `+` makes of a form field's text: a number, or NaN when the
      text is not numeric. An empty field converts to `Num(0.0)`. */
  datatype Number = NaN | Num(value: real)

  /** JavaScript truthiness of a number: NaN and 0 are falsy. */
  predicate Truthy(n: Number) {
    n.Num? && n.value != 0.0
  }

  /** `n > 0`, which is false for NaN. */
  predicate Positive(n: Number) {
    n.Num? && n.value > 0.0
  }

  /** The `||` fallback on a number: `n` when it is truthy, else `fallback`. */
  function OrElse(n: Number, fallback: real): real {
    if Truthy(n) then n.value else fallback
  }

  /** `Math.floor`. */
  function Floor(x: real): (r: int)
    ensures r as real <= x < r as real + 1.0
  {
    x.Floor
  }

  /** `Math.round`: the nearest integer, a half rounded up towards +infinity. */
  function Round(x: real): (r: int)
    ensures r as real - 0.5 <= x < r as real + 0.5
  {
    Floor(x + 0.5)
  }

  /** `Math.max(0, x)` on integers. */
  function ClampInt(x: int): (r: int)
    ensures r >= 0 && r >= x
    ensures r == 0 || r == x
  {
    if x > 0 then x else 0
  }

  /** `Math.max(0, x)` on numbers. */
  function ClampReal(x: real): (r: real)
    ensures r >= 0.0 && r >= x
    ensures r == 0.0 || r == x
  {
    if x > 0.0 then x else 0.0
  }
}
