/** The text of a numeric form input (`<input type="number">`): either empty
    or the text of a number. `Number(...)` of it is `ToNumber`. */
module NumberInput {

  datatype NumberText = Blank | Numeric(n: real)

  /** `Number(text)`; `Number("")` is 0 in JavaScript. */
  function ToNumber(t: NumberText): real {
    match t
    case Blank => 0.0
    case Numeric(n) => n
  }

  /** JavaScript truthiness of the input's text: only the empty string is
      falsy ("0" is a non-empty string). */
  predicate Truthy(t: NumberText) {
    t.Numeric?
  }
}
