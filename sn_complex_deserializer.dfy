/** SNComplexDeserializer: how a reference field is read from the Table API's JSON. The service
    sends either a bare string or an object `{"link": ..., "value": ...}`; only the object form
    produces an SNComplex. */
module ComplexDeserializer {
  import opened Wrappers
  import opened Json
  import opened Complex

  /** deserialize, at the token the parser stands on (the node about to be read):
      - a string token gives null;
      - an object is read whole, and the new SNComplex takes `asText()` of its `link` and `value`
        members; a missing member is a null node, so calling asText on it throws;
      - any other token gives null. */
  function Deserialize(node: Json): (r: Result<Option<Reference>>)
    ensures node.JString? ==> r == Success(None)
    ensures !node.JObject? ==> r == Success(None)
    ensures node.JObject? ==> (r.Success? <==> "link" in node.members && "value" in node.members)
    ensures r.Failure? ==> r.error == NullPointer
    ensures node.JObject? && r.Success? ==>
      r.value == Some(Reference(Some(AsText(node.members["link"])), Some(AsText(node.members["value"]))))
  {
    if node.JObject? then
      match (Get(node, "link"), Get(node, "value"))
      case (Some(link), Some(value)) => Success(Some(Reference(Some(AsText(link)), Some(AsText(value)))))
      case _ => Failure(NullPointer)
    else
      Success(None)
  }

  /** Reading back what the connector writes is lossy: a reference is written as its bare value
      (or a JSON null), and neither of those reads back as a reference. */
  lemma SerializeThenDeserializeDropsReference(r: Reference)
    ensures Deserialize(Serialize(r)) == Success(None)
  {
  }

  /** An object whose members are both strings reads back as exactly those strings, so the object
      form round-trips every reference whose link and value are both present. */
  lemma ObjectFormRoundTrip(link: string, value: string)
    ensures Deserialize(JObject(map["link" := JString(link), "value" := JString(value)]))
        == Success(Some(Reference(Some(link), Some(value))))
  {
  }

  /** A JSON null member is not missing: it reads as the text "null". */
  lemma NullMemberReadsAsNullText(value: string)
    ensures Deserialize(JObject(map["link" := JNull, "value" := JString(value)]))
        == Success(Some(Reference(Some("null"), Some(value))))
  {
  }
}
