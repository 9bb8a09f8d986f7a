/** JavaScript values as the channel sees them, and the byte strings it carries. */
module JsValues {

  datatype Option<+T> = None | Some(value: T)

  newtype byte = b: int | 0 <= b < 256

  type Bytes = seq<byte>

  /**
   * The values a channel stores in its end and reset flags and passes to its
   * events. Every falsy JavaScript value (`undefined`, `null`, `false`, `0`,
   * `''`) is one `Falsy`; `True` is the literal `true`; `Error(reason)` is any
   * other truthy value (an Error object or a non-empty string such as
   * `'channel reset!'`), identified by `reason`.
   */
  datatype Value = Falsy | True | Error(reason: string)

  predicate Truthy(v: Value) {
    !v.Falsy?
  }

  /** JavaScript `a || b`: the first operand if it is truthy, the second otherwise. */
  function Or(a: Value, b: Value): (r: Value)
    ensures Truthy(r) <==> Truthy(a) || Truthy(b)
    ensures r == a || r == b
  {
    if Truthy(a) then a else b
  }

  /** JavaScript `a && b`: the first operand if it is falsy, the second otherwise. */
  function And(a: Value, b: Value): (r: Value)
    ensures Truthy(r) <==> Truthy(a) && Truthy(b)
    ensures r == a || r == b
  {
    if Truthy(a) then b else a
  }
}
