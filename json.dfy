/**
 * JSON values as the Python client holds them once a response body has been
 * decoded, and Python's truthiness on them.
 */
module Json {
  import opened Wrappers

  /** A decoded JSON value. Objects are string-keyed maps; floats are not modelled. */
  datatype Value =
    | Null
    | Bool(b: bool)
    | Int(i: int)
    | Str(s: string)
    | Arr(items: seq<Value>)
    | Obj(fields: map<string, Value>)

  /** The values Python's `bool(...)` maps to False. */
  const Falsy: set<Value> := {Null, Bool(false), Int(0), Str(""), Arr([]), Obj(map[])}

  /** Python's `bool(v)` (and `not v` negated) for a decoded value. */
  function Truthy(v: Value): (r: bool)
    ensures !r <==> v in Falsy
  {
    match v
    case Null => false
    case Bool(b) => b
    case Int(i) => i != 0
    case Str(s) => |s| > 0
    case Arr(items) => |items| > 0
    case Obj(fields) => |fields| > 0
  }

  /** A list of integer identifiers as a JSON array. */
  function Ints(ids: seq<int>): (js: seq<Value>)
  {
    seq(|ids|, k requires 0 <= k < |ids| => Int(ids[k]))
  }

  /** The identifiers in `v` when it is an array of integers, and nothing otherwise. */
  function AsIds(v: Value): (r: Option<seq<int>>)
    ensures r.Some? <==> v.Arr? && forall k :: 0 <= k < |v.items| ==> v.items[k].Int?
    ensures r.Some? ==> v == Arr(Ints(r.value))
  {
    if v.Arr? && forall k :: 0 <= k < |v.items| ==> v.items[k].Int? then
      var ids := seq(|v.items|, k requires 0 <= k < |v.items| => v.items[k].i);
      assert v.items == Ints(ids);
      Some(ids)
    else
      None
  }

  /** Reading back an encoded identifier list gives the identifiers unchanged. */
  lemma AsIdsInts(ids: seq<int>)
    ensures AsIds(Arr(Ints(ids))) == Some(ids)
  {
    var r := AsIds(Arr(Ints(ids)));
    assert r.Some?;
    assert Ints(r.value) == Ints(ids);
    assert |r.value| == |ids|;
    forall k | 0 <= k < |ids| ensures r.value[k] == ids[k] {
      assert Ints(r.value)[k] == Int(r.value[k]);
    }
    assert r.value == ids;
  }
}
