/** JavaScript values that may be `null` (or `undefined`), and the truthiness
    test that the screens apply to them in `if (x)` and `x ? … : …`. */
module Nullable {

  /** `None` stands for `null`/`undefined`, `Some(v)` for a present value. */
  datatype Option<+T> = None | Some(value: T)

  /** A nullable string is truthy in JavaScript exactly when it is present
      and not the empty string. */
  predicate TruthyString(s: Option<string>)
  {
    s.Some? && s.value != ""
  }
}
