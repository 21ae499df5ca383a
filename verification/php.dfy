/** The slice of PHP's value model this project covers: scalars and null.
    Request parameters, order metadata and HTTP options are modelled with
    values of these shapes only (arrays and objects are not), and PHP's
    strict comparison `===` on them is Dafny's structural equality. */
module Php {

  /** A scalar PHP value. `Float` carries an exact real: floating-point
      rounding is not modelled. */
  datatype Value = Null | Bool(b: bool) | Int(i: int) | Float(f: real) | Str(s: string)

  /** PHP's `isset($m[k])`: the key is present and its value is not null. */
  predicate IsSet(m: map<string, Value>, k: string)
  {
    k in m && m[k] != Null
  }

  /** An optional value, for lookups that can miss. */
  datatype Option<+T> = None | Some(value: T)
}
