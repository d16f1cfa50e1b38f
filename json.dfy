/**
 * JSON trees as Gson hands them to the services, and the Gson accessors the
 * services call on them. An accessor that Gson answers by throwing
 * (`IllegalStateException`, `UnsupportedOperationException`, `ClassCastException`,
 * or a `NullPointerException` on a missing member) returns `None` here.
 */
module Json {
  import opened Wrappers

  /**
   * A parsed JSON value. A number keeps its source text, as Gson's lazily
   * parsed numbers do; object members are keyed by name (a repeated name keeps
   * the last value, as Gson's parser does).
   */
  datatype Json =
    | JString(text: string)
    | JNumber(literal: string)
    | JBool(b: bool)
    | JNull
    | JArray(items: seq<Json>)
    | JObject(members: map<string, Json>)

  /**
   * `JsonElement.getAsString`: the text of a primitive, the string of the only
   * element of a one-element array, and an exception for anything else.
   */
  function AsString(j: Json): (r: Option<string>)
    ensures j.JString? ==> r == Some(j.text)
    ensures j.JNull? || j.JObject? ==> r.None?
    ensures j.JArray? && |j.items| != 1 ==> r.None?
    ensures j.JArray? && |j.items| == 1 ==> r == AsString(j.items[0])
  {
    match j
    case JString(t) => Some(t)
    case JNumber(t) => Some(t)
    case JBool(b) => Some(if b then "true" else "false")
    case JNull => None
    case JArray(items) => if |items| == 1 then AsString(items[0]) else None
    case JObject(_) => None
  }

  /**
   * `JsonElement.getAsDouble`, with `Double.parseDouble` supplied as `parseDecimal`
   * (it reads a decimal numeral into micro-units, `None` for a malformed one).
   */
  function AsDecimal(j: Json, parseDecimal: string -> Option<int>): (r: Option<int>)
    ensures j.JNull? || j.JObject? ==> r.None?
    ensures (j.JString? || j.JNumber?) ==> r == parseDecimal(AsString(j).value)
  {
    match j
    case JArray(items) => if |items| == 1 then AsDecimal(items[0], parseDecimal) else None
    case _ => match AsString(j) case Some(t) => parseDecimal(t) case None => None
  }

  /** `JsonObject.has(key)`: the member is present, even when its value is JSON `null`. */
  predicate Has(members: map<string, Json>, key: string) {
    key in members
  }

  /** `obj.get(key).getAsString()`: fails when the member is missing or not string-like. */
  function MemberString(members: map<string, Json>, key: string): (r: Option<string>)
    ensures r.Some? ==> key in members && AsString(members[key]) == r
    ensures key in members ==> r == AsString(members[key])
  {
    if key in members then AsString(members[key]) else None
  }

  /** `obj.get(key).getAsDouble()`. */
  function MemberDecimal(members: map<string, Json>, key: string, parseDecimal: string -> Option<int>): (r: Option<int>)
    ensures key !in members ==> r.None?
    ensures key in members ==> r == AsDecimal(members[key], parseDecimal)
  {
    if key in members then AsDecimal(members[key], parseDecimal) else None
  }

  /**
   * `obj.getAsJsonObject(key)` followed by a use of the result: a missing member
   * yields `null` and the next call throws, a member of another kind fails the cast.
   */
  function MemberObject(members: map<string, Json>, key: string): (r: Option<map<string, Json>>)
    ensures r.Some? <==> key in members && members[key].JObject?
    ensures r.Some? ==> r.value == members[key].members
  {
    if key in members && members[key].JObject? then Some(members[key].members) else None
  }

  /** `obj.getAsJsonArray(key)` followed by a use of the result. */
  function MemberArray(members: map<string, Json>, key: string): (r: Option<seq<Json>>)
    ensures r.Some? <==> key in members && members[key].JArray?
    ensures r.Some? ==> r.value == members[key].items
  {
    if key in members && members[key].JArray? then Some(members[key].items) else None
  }

  /** `JsonElement.getAsJsonObject()` on an element: it throws unless the element is an object. */
  function ElementObject(j: Json): (r: Option<map<string, Json>>)
    ensures r.Some? <==> j.JObject?
    ensures r.Some? ==> r.value == j.members
  {
    if j.JObject? then Some(j.members) else None
  }

  /** Gson `getAsString` on a one-element array reads through to the element, at any depth. */
  lemma {:induction false} AsStringOfWrapped(j: Json, depth: nat)
    ensures AsString(Wrapped(j, depth)) == AsString(j)
  {
    if depth > 0 {
      AsStringOfWrapped(j, depth - 1);
    }
  }

  /** `j` inside `depth` nested one-element arrays. */
  function Wrapped(j: Json, depth: nat): (r: Json)
    ensures depth > 0 ==> r.JArray? && |r.items| == 1
  {
    if depth == 0 then j else JArray([Wrapped(j, depth - 1)])
  }
}
