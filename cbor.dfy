/**
  The data items that the CBOR codec turns into Python objects on the device
  (RFC 8949, as decoded by the `cbor` module), and the few pieces of Python
  semantics the handlers rely on: truthiness, `dict.get` and `==`.
 */
module Cbor {

  newtype byte = x: int | 0 <= x < 256

  type Bytes = seq<byte>

  /** A decoded data item. Map keys are text strings, as in every payload the device handles. */
  datatype Value =
    | VNull
    | VBool(b: bool)
    | VInt(i: int)
    | VFloat(r: real)
    | VText(s: string)
    | VBytes(bytes: Bytes)
    | VArray(items: seq<Value>)
    | VMap(entries: map<string, Value>)

  /** Python truthiness: `bool(v)`. */
  predicate Truthy(v: Value) {
    match v
    case VNull => false
    case VBool(b) => b
    case VInt(i) => i != 0
    case VFloat(r) => r != 0.0
    case VText(s) => s != ""
    case VBytes(bs) => bs != []
    case VArray(items) => items != []
    case VMap(entries) => entries != map[]
  }

  /** `d.get(key, default)` on a dict. */
  function Get(d: map<string, Value>, key: string, default: Value): (r: Value)
    ensures key in d ==> r == d[key]
    ensures key !in d ==> r == default
  {
    if key in d then d[key] else default
  }

  /** True for the values that have a `.copy()` method (dict and list). */
  predicate Copyable(v: Value) {
    v.VMap? || v.VArray?
  }

  predicate IsNumber(v: Value) {
    v.VBool? || v.VInt? || v.VFloat?
  }

  /** The numeric value Python compares: `True == 1 == 1.0`. */
  function NumberValue(v: Value): real
    requires IsNumber(v)
  {
    match v
    case VBool(b) => if b then 1.0 else 0.0
    case VInt(i) => i as real
    case VFloat(r) => r
  }

  /**
    Python's `a == b` on decoded values: numbers compare by value across
    bool, int and float; dicts compare by key set and values; lists
    element by element; everything else by identity of kind and content.
   */
  predicate PyEq(a: Value, b: Value)
    decreases a
  {
    match (a, b)
    case (VMap(m), VMap(n)) => m.Keys == n.Keys && forall k :: k in m ==> PyEq(m[k], n[k])
    case (VArray(s), VArray(t)) => |s| == |t| && forall i :: 0 <= i < |s| ==> PyEq(s[i], t[i])
    case (VText(x), VText(y)) => x == y
    case (VBytes(x), VBytes(y)) => x == y
    case (VNull, VNull) => true
    case _ => IsNumber(a) && IsNumber(b) && NumberValue(a) == NumberValue(b)
  }

  /** Every value equals itself, so a structural copy never compares as different. */
  lemma {:induction false} PyEqReflexive(a: Value)
    ensures PyEq(a, a)
    decreases a
  {
    match a
    case VMap(m) =>
      forall k | k in m
        ensures PyEq(m[k], m[k])
      {
        PyEqReflexive(m[k]);
      }
    case VArray(s) =>
      forall i | 0 <= i < |s|
        ensures PyEq(s[i], s[i])
      {
        PyEqReflexive(s[i]);
      }
    case _ =>
  }

  /** `a != b` and `b != a` always agree. */
  lemma {:induction false} PyEqSymmetric(a: Value, b: Value)
    ensures PyEq(a, b) == PyEq(b, a)
    decreases a
  {
    match (a, b)
    case (VMap(m), VMap(n)) =>
      if m.Keys == n.Keys {
        forall k | k in m
          ensures PyEq(m[k], n[k]) == PyEq(n[k], m[k])
        {
          PyEqSymmetric(m[k], n[k]);
        }
      }
    case (VArray(s), VArray(t)) =>
      if |s| == |t| {
        forall i | 0 <= i < |s|
          ensures PyEq(s[i], t[i]) == PyEq(t[i], s[i])
        {
          PyEqSymmetric(s[i], t[i]);
        }
      }
    case _ =>
  }
}
