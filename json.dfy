/**
 * JSON values as `JSON.parse` returns them and `res.json` sends them. The
 * parser itself is not modelled: the handler receives it as a partial
 * function `string -> Option<Value>`.
 */
module Json {
  import opened Wrappers

  datatype Value =
    | JNull
    | JBool(b: bool)
    | JNumber(n: real)
    | JString(s: string)
    | JArray(items: seq<Value>)
    | JObject(members: seq<(string, Value)>)

  /** The property names of an object, in insertion order. */
  function Keys(v: Value): (keys: seq<string>)
    requires v.JObject?
    ensures |keys| == |v.members|
    ensures forall i :: 0 <= i < |keys| ==> keys[i] == v.members[i].0
  {
    seq(|v.members|, i requires 0 <= i < |v.members| => v.members[i].0)
  }

  /** The position of the last member named `key`, or -1 when there is none. */
  function LastIndex(members: seq<(string, Value)>, key: string): (i: int)
    ensures -1 <= i < |members|
    ensures i >= 0 ==> members[i].0 == key
    ensures forall j :: i < j < |members| ==> members[j].0 != key
  {
    if members == [] then -1
    else if members[|members| - 1].0 == key then |members| - 1
    else LastIndex(members[..|members| - 1], key)
  }

  /** Property access `v[key]`: the last binding of `key` wins, as in `JSON.parse`. */
  function Get(v: Value, key: string): (r: Option<Value>)
    ensures r.Some? <==> v.JObject? && exists i :: 0 <= i < |v.members| && v.members[i].0 == key
    ensures r.Some? ==> exists i :: 0 <= i < |v.members| && v.members[i] == (key, r.value)
                                    && forall j :: i < j < |v.members| ==> v.members[j].0 != key
  {
    if !v.JObject? then None
    else
      var i := LastIndex(v.members, key);
      if i < 0 then None else Some(v.members[i].1)
  }
}
