/**
 * A decoded JSON value, as `JSON.parse` hands it to the sanitiser, with the
 * three JavaScript tests the sanitiser applies to it: truthiness,
 * `typeof value === "object"` and property lookup.
 */
module Json {
  import opened Wrappers

  datatype Json =
    | JNull
    | JBool(b: bool)
    | JNumber(n: real)
    | JString(s: string)
    | JArray(elems: seq<Json>)
    | JObject(fields: map<string, Json>)

  /**
   * The object written by a member list, as `JSON.parse` builds it: member
   * by member, so that a later duplicate key wins.
   */
  function ObjectOf(members: seq<(string, Json)>): map<string, Json> {
    if members == [] then map[]
    else
      var last := members[|members| - 1];
      ObjectOf(members[..|members| - 1])[last.0 := last.1]
  }

  /** Adding a member to the end of the list sets that key. */
  lemma {:induction false} ObjectOfSnoc(members: seq<(string, Json)>, key: string, value: Json)
    ensures ObjectOf(members + [(key, value)]) == ObjectOf(members)[key := value]
  {
    assert (members + [(key, value)])[..|members|] == members;
  }

  /** `Boolean(value)`: `null`, `false`, `0` and `""` are falsy. */
  predicate Truthy(v: Json) {
    match v
    case JNull => false
    case JBool(b) => b
    case JNumber(n) => n != 0.0
    case JString(s) => s != []
    case JArray(_) => true
    case JObject(_) => true
  }

  /** `typeof value === "object"`, which holds for `null` and arrays too. */
  predicate IsObjectType(v: Json) {
    v.JNull? || v.JArray? || v.JObject?
  }

  /**
   * `value[key]` on a value that passed the object test: an object's own
   * field, and nothing (`undefined`) for an array, which has no named
   * fields a sanitiser asks for.
   */
  function Get(v: Json, key: string): (r: Option<Json>)
    ensures r.Some? <==> v.JObject? && key in v.fields
    ensures r.Some? ==> r.value == v.fields[key]
  {
    match v
    case JObject(fields) => if key in fields then Some(fields[key]) else None
    case _ => None
  }

  /** The JavaScript test `!value || typeof value !== "object"` rejects all but objects and arrays. */
  lemma {:induction false} RejectedUnlessObjectOrArray(v: Json)
    ensures (!Truthy(v) || !IsObjectType(v)) <==> !(v.JObject? || v.JArray?)
  {
  }
}
