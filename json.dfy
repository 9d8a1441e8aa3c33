/** The JSON tree the connector reads and writes through Jackson, with the JsonNode accessors
    it calls: get, hasNonNull, isArray, textValue, asText and ObjectNode.put. Parsing and
    printing JSON text are not modelled; callers receive them as function parameters. */
module Json {
  import opened Wrappers
  import JavaText

  datatype Json =
    | JNull
    | JBool(b: bool)
    | JNumber(n: int)
    | JString(s: string)
    | JArray(items: seq<Json>)
    | JObject(members: map<string, Json>)

  /** JsonNode.get(name): the member of an object node, null (None) for a missing member or a
      node that is not an object. */
  function Get(node: Json, name: string): (r: Option<Json>)
    ensures r.Some? <==> node.JObject? && name in node.members
    ensures r.Some? ==> r.value == node.members[name]
  {
    if node.JObject? && name in node.members then Some(node.members[name]) else None
  }

  /** JsonNode.hasNonNull(name): the member exists and is not a JSON null. */
  predicate HasNonNull(node: Json, name: string) {
    var m := Get(node, name);
    m.Some? && !m.value.JNull?
  }

  /** JsonNode.textValue(): the string of a text node, null for every other node. */
  function TextValue(node: Json): (r: Option<string>)
    ensures r.Some? <==> node.JString?
  {
    if node.JString? then Some(node.s) else None
  }

  /** JsonNode.asText(): the text of a value node, "null" for a JSON null and the empty string
      for arrays and objects. */
  function AsText(node: Json): (r: string)
    ensures node.JString? ==> r == node.s
    ensures node.JArray? || node.JObject? ==> r == ""
  {
    match node
    case JNull => "null"
    case JBool(b) => if b then "true" else "false"
    case JNumber(n) => JavaText.IntToString(n)
    case JString(s) => s
    case JArray(_) => ""
    case JObject(_) => ""
  }

  /** ObjectNode.put(name, text): sets one member and leaves the others as they were. */
  function PutText(node: Json, name: string, text: string): (r: Json)
    requires node.JObject?
    ensures r.JObject? && Get(r, name) == Some(JString(text))
    ensures forall k :: k != name ==> Get(r, k) == Get(node, k)
  {
    JObject(node.members[name := JString(text)])
  }
}
