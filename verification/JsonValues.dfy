/** JSON values as the decoder builds them: objects are unordered maps. */
module JsonValues {

  /**
   * Numbers with an integral value are `Num`; every other number is `Frac`.
   * Strings are sequences of Unicode scalar values.
   */
  datatype Json =
    | Null
    | Bool(flag: bool)
    | Num(n: int)
    | Frac(r: real)
    | Str(text: string)
    | Arr(items: seq<Json>)
    | Obj(fields: map<string, Json>)

  /** The largest magnitude a double represents together with all smaller integers. */
  const MAX_EXACT_INTEGER: int := 0x20_0000_0000_0000

  /** Every number in the value is an integer that a double represents exactly. */
  predicate Exact(v: Json) {
    match v
    case Null => true
    case Bool(_) => true
    case Num(n) => -MAX_EXACT_INTEGER <= n <= MAX_EXACT_INTEGER
    case Frac(_) => false
    case Str(_) => true
    case Arr(items) => forall i | 0 <= i < |items| :: Exact(items[i])
    case Obj(fields) => forall k | k in fields :: Exact(fields[k])
  }
}
