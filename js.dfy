/** The few JavaScript value conventions the application leans on:
    nullable columns, `x || 0` / `x ?? 0` fallbacks, `Math.max(0, x)`
    and what `Number(...)` makes of a value read from the store. */
module Js {

  /** A column or prop that may be null or undefined. */
  datatype Option<+T> = None | Some(value: T)

  /** `x || 0` (or `x ?? 0`) on a numeric value that may be missing. */
  function OrZero(x: Option<int>): int
  {
    if x.Some? then x.value else 0
  }

  /** `s ?? ""` on a text value that may be missing. */
  function OrEmpty(s: Option<string>): string
  {
    if s.Some? then s.value else ""
  }

  /** `Math.max(0, x)`: the clamp every subtraction of the ledger goes through. */
  function Max0(x: int): (r: int)
    ensures r >= 0 && r >= x
    ensures r == x || r == 0
  {
    if x < 0 then 0 else x
  }

  /** A cell of a row read from the store, as `Number(...)` sees it:
      null, a number, or anything `Number` turns into NaN. */
  datatype Json = Null | Num(n: int) | NonNumeric

  /** `Number(v)`; `None` stands for NaN. */
  function ToNumber(v: Json): Option<int>
  {
    match v
    case Null => Some(0)
    case Num(n) => Some(n)
    case NonNumeric => None
  }
}
