/**
 * The values `JSON.parse` can produce, and the two JavaScript operations the
 * agents apply to them: property access and truthiness (`!x`, `x || y`).
 * The parser itself is not modelled; the agents take it as a parameter.
 */
module Json {
  import opened Wrappers

  datatype Json =
    | JNull
    | JBool(b: bool)
    | JNumber(n: real)
    | JString(s: string)
    | JArray(items: seq<Json>)
    | JObject(members: seq<(string, Json)>)

  /** The value of the last member named `key`: `JSON.parse` keeps the last of duplicate keys. */
  function Lookup(members: seq<(string, Json)>, key: string): Option<Json>
    decreases |members|
  {
    if members == [] then None
    else if members[|members| - 1].0 == key then Some(members[|members| - 1].1)
    else Lookup(members[..|members| - 1], key)
  }

  /**
   * `v.key` for a parsed value other than `null` (reading a property of `null`
   * throws, which callers handle first): the member of an object, `undefined`
   * (None) on arrays, strings, numbers and booleans.
   */
  function Member(v: Json, key: string): Option<Json>
  {
    if v.JObject? then Lookup(v.members, key) else None
  }

  /** JavaScript truthiness of a parsed value. `JSON.parse` never yields `NaN`. */
  predicate Truthy(v: Json)
  {
    match v
    case JNull => false
    case JBool(b) => b
    case JNumber(n) => n != 0.0
    case JString(s) => s != ""
    case JArray(_) => true
    case JObject(_) => true
  }

  /** Truthiness of a property that may be `undefined`. */
  predicate TruthyMember(v: Json, key: string)
  {
    var m := Member(v, key);
    m.Some? && Truthy(m.value)
  }

  /** Members appended under other names do not change what a key looks up. */
  lemma {:induction false} LookupSkipsOtherKeys(members: seq<(string, Json)>, extra: seq<(string, Json)>, key: string)
    requires forall i :: 0 <= i < |extra| ==> extra[i].0 != key
    ensures Lookup(members + extra, key) == Lookup(members, key)
    decreases |extra|
  {
    if extra != [] {
      var all := members + extra;
      assert all[..|all| - 1] == members + extra[..|extra| - 1];
      assert all[|all| - 1] == extra[|extra| - 1];
      LookupSkipsOtherKeys(members, extra[..|extra| - 1], key);
    } else {
      assert members + extra == members;
    }
  }
}
