/** Values shared by every component: the closed JSON-like union that event
    payloads, detector results and configuration entries are built from, and
    the two operations on string-keyed dictionaries the system relies on. */
module Values {

  datatype Option<T> = None | Some(value: T)

  /** A JSON-like value. */
  datatype Value =
    | Null
    | Bool(b: bool)
    | Int(i: int)
    | Real(r: real)
    | Str(s: string)
    | List(items: seq<Value>)
    | Object(fields: map<string, Value>)

  /** A dictionary with string keys, as events, detector results and the
      configuration are. */
  type Dict = map<string, Value>

  /** `d.get(k, default)`: the stored value when the key is present. */
  function Get(d: Dict, k: string, default: Value): Value
  {
    if k in d then d[k] else default
  }

  /** A list of strings as a JSON list value. */
  function Strings(xs: seq<string>): (v: Value)
    ensures v.List? && |v.items| == |xs|
    ensures forall i :: 0 <= i < |xs| ==> v.items[i] == Str(xs[i])
  {
    List(seq(|xs|, i requires 0 <= i < |xs| => Str(xs[i])))
  }

  /** Python's `int(x)` on a float: truncation toward zero. */
  function Trunc(x: real): (n: int)
    ensures x >= 0.0 ==> n as real <= x < n as real + 1.0
    ensures x < 0.0 ==> n as real - 1.0 < x <= n as real
    ensures TruncOf(n, x)
  {
    if x >= 0.0 then x.Floor else -((-x).Floor)
  }

  /** `n` is `x` truncated toward zero. */
  predicate TruncOf(n: int, x: real)
  {
    && (x >= 0.0 ==> 0 <= n && n as real <= x < n as real + 1.0)
    && (x < 0.0 ==> n <= 0 && n as real - 1.0 < x <= n as real)
  }

  lemma {:induction false} TruncMonotone(x: real, y: real)
    requires x <= y
    ensures Trunc(x) <= Trunc(y)
  {
    if x >= 0.0 {
      assert x.Floor <= y.Floor;
    } else if y < 0.0 {
      assert (-y).Floor <= (-x).Floor;
    }
  }
}
