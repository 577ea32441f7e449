/**
 * JSON request bodies as the Django views see them once decoded: Python values,
 * with Python's truthiness and the value-returning `or` operator.
 */
module PyValue {
  import opened Wrappers

  datatype Value =
    | PNone
    | PBool(b: bool)
    | PInt(i: int)
    | PFloat(f: real)
    | PStr(s: string)
    | PList(items: seq<Value>)
    | PDict(entries: map<string, Value>)

  /** `bool(v)`: None, False, 0, 0.0, "" and empty containers are falsy. */
  predicate Truthy(v: Value) {
    match v
    case PNone => false
    case PBool(b) => b
    case PInt(i) => i != 0
    case PFloat(f) => f != 0.0
    case PStr(s) => s != ""
    case PList(items) => items != []
    case PDict(entries) => entries != map[]
  }

  /** `d.get(k)`: the value under `k`, or None when the key is absent. */
  function Get(d: map<string, Value>, k: string): Value {
    if k in d then d[k] else PNone
  }

  /** Python's `v0 or v1 or ... or vn`: the first truthy operand, else the last one. */
  function OrChain(vs: seq<Value>): Value
    requires vs != []
  {
    if |vs| == 1 || Truthy(vs[0]) then vs[0] else OrChain(vs[1..])
  }

  /** Reference definition: the first truthy value of a sequence, if any. */
  function FirstTruthy(vs: seq<Value>): (r: Option<Value>)
    ensures r.Some? ==> Truthy(r.value) && r.value in vs
    ensures r.Some? ==> exists i :: 0 <= i < |vs| && vs[i] == r.value && forall j :: 0 <= j < i ==> !Truthy(vs[j])
    ensures r.None? <==> forall i :: 0 <= i < |vs| ==> !Truthy(vs[i])
  {
    if vs == [] then None
    else if Truthy(vs[0]) then Some(vs[0])
    else
      var r := FirstTruthy(vs[1..]);
      assert r.Some? ==> exists i :: 0 <= i < |vs| && vs[i] == r.value && forall j :: 0 <= j < i ==> !Truthy(vs[j]) by {
        if r.Some? {
          var i :| 0 <= i < |vs[1..]| && vs[1..][i] == r.value && forall j :: 0 <= j < i ==> !Truthy(vs[1..][j]);
          assert forall j :: 1 <= j < i + 1 ==> vs[j] == vs[1..][j - 1];
          assert vs[i + 1] == r.value;
        }
      }
      r
  }

  /** The `or` chain yields the first truthy operand, and a falsy value when there is none. */
  lemma {:induction false} OrChainIsFirstTruthy(vs: seq<Value>)
    requires vs != []
    ensures FirstTruthy(vs).Some? ==> OrChain(vs) == FirstTruthy(vs).value
    ensures FirstTruthy(vs).None? ==> !Truthy(OrChain(vs))
  {
    if |vs| > 1 && !Truthy(vs[0]) {
      OrChainIsFirstTruthy(vs[1..]);
    }
  }

  /** The values stored under `keys` in `d`, in key order. */
  function GetAll(d: map<string, Value>, keys: seq<string>): (r: seq<Value>)
    ensures |r| == |keys|
    ensures forall i :: 0 <= i < |keys| ==> r[i] == Get(d, keys[i])
  {
    seq(|keys|, i requires 0 <= i < |keys| => Get(d, keys[i]))
  }
}
