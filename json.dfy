/** The parsed JSON tree the parsers consume (a jsondom::value), with the
    accessors the backend uses on it. Numbers are kept as the literal the
    document holds: the model never converts them. */
module JsonDom {
  import opened Wrappers

  /** A JSON number, identified by its literal text. */
  datatype Number = Number(literal: string)

  datatype Json =
    | JNull
    | JBoolean(b: bool)
    | JNumber(n: Number)
    | JString(s: string)
    | JArray(items: seq<Json>)
    | JObject(members: map<string, Json>)

  /** The node kinds a strict accessor can insist on. */
  datatype Kind = ObjectKind | ArrayKind | StringKind | NumberKind

  /** Why a strict access threw. */
  datatype ParseError =
    | WrongKind(expected: Kind)
    | MissingKey(key: string)

  /** `object.find(key)`: the member, or nothing when the key is absent. */
  function Find(members: map<string, Json>, key: string): (r: Option<Json>)
    ensures r.Some? <==> key in members
    ensures r.Some? ==> r.value == members[key]
  {
    if key in members then Some(members[key]) else None
  }

  /** A lenient string member: its text when present as a string, otherwise "". */
  function StringOrEmpty(members: map<string, Json>, key: string): (s: string)
    ensures key in members && members[key].JString? ==> s == members[key].s
    ensures !(key in members && members[key].JString?) ==> s == ""
  {
    match Find(members, key)
    case Some(JString(text)) => text
    case _ => ""
  }

  /** `value.object()`: throws unless the node is an object. */
  function AsObject(j: Json): (r: Result<map<string, Json>, ParseError>)
    ensures r.Success? <==> j.JObject?
    ensures r.Success? ==> r.value == j.members
  {
    if j.JObject? then Success(j.members) else Error(WrongKind(ObjectKind))
  }

  /** `value.array()`: throws unless the node is an array. */
  function AsArray(j: Json): (r: Result<seq<Json>, ParseError>)
    ensures r.Success? <==> j.JArray?
    ensures r.Success? ==> r.value == j.items
  {
    if j.JArray? then Success(j.items) else Error(WrongKind(ArrayKind))
  }

  /** `value.string()`: throws unless the node is a string. */
  function AsString(j: Json): (r: Result<string, ParseError>)
    ensures r.Success? <==> j.JString?
    ensures r.Success? ==> r.value == j.s
  {
    if j.JString? then Success(j.s) else Error(WrongKind(StringKind))
  }

  /** `value.number()`: throws unless the node is a number. */
  function AsNumber(j: Json): (r: Result<Number, ParseError>)
    ensures r.Success? <==> j.JNumber?
    ensures r.Success? ==> r.value == j.n
  {
    if j.JNumber? then Success(j.n) else Error(WrongKind(NumberKind))
  }

  /** `object.at(key)`: throws std::out_of_range when the key is absent. */
  function At(members: map<string, Json>, key: string): (r: Result<Json, ParseError>)
    ensures r.Success? <==> key in members
    ensures r.Success? ==> r.value == members[key]
    ensures r.Error? ==> r.error == MissingKey(key)
  {
    if key in members then Success(members[key]) else Error(MissingKey(key))
  }
}
