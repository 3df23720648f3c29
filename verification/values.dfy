/** The dynamically typed values the controller passes through without looking inside
    (preferences, chunks, traces, metrics), and Python's truth-value rules for them. */
module PyValues {

  datatype Value =
    | VNone
    | VBool(b: bool)
    | VInt(i: int)
    | VReal(r: real)
    | VStr(s: string)
    | VList(items: seq<Value>)
    | VDict(entries: map<string, Value>)

  /** Python's `bool(v)`: None, False, zero, and empty strings and containers are false. */
  predicate Truthy(v: Value) {
    match v
    case VNone => false
    case VBool(b) => b
    case VInt(i) => i != 0
    case VReal(r) => r != 0.0
    case VStr(s) => s != ""
    case VList(xs) => |xs| > 0
    case VDict(m) => |m| > 0
  }

  /** `d.get(key, default)`: the stored value when the key is present, even a falsy one. */
  function GetOr(d: map<string, Value>, key: string, default: Value): (v: Value)
    ensures key in d ==> v == d[key]
    ensures key !in d ==> v == default
  {
    if key in d then d[key] else default
  }

  /** `d.get(key)`: absent keys read as None. */
  function Get(d: map<string, Value>, key: string): (v: Value)
    ensures key in d ==> v == d[key]
    ensures key !in d ==> !Truthy(v)
  {
    GetOr(d, key, VNone)
  }

  /** The position of the operand an `a or b or ...` chain evaluates to: the first truthy
      operand, or the last operand when none is truthy. */
  function FirstTruthy(vs: seq<Value>): (k: nat)
    requires |vs| > 0
    ensures k < |vs|
    ensures forall j :: 0 <= j < k ==> !Truthy(vs[j])
    ensures Truthy(vs[k]) || k == |vs| - 1
  {
    if |vs| == 1 || Truthy(vs[0]) then 0 else 1 + FirstTruthy(vs[1..])
  }
}
