/** SNComplex: a reference from one ServiceNow record to another, as the Table API returns it
    (`{"link": ..., "value": ...}`). The connector writes it back as its `value` alone. */
module Complex {
  import opened Wrappers
  import opened Json

  /** The contents of an SNComplex: both fields may be null. */
  datatype Reference = Reference(link: Option<string>, value: Option<string>)

  class SNComplex {
    var link: Option<string>
    var value: Option<string>

    /** new SNComplex(): both fields null. */
    constructor Empty()
      ensures link == None && value == None
    {
      link := None;
      value := None;
    }

    /** new SNComplex(value): the value set, the link null. */
    constructor (value: Option<string>)
      ensures this.value == value && link == None
    {
      this.value := value;
      link := None;
    }

    function Contents(): Reference
      reads this
    {
      Reference(link, value)
    }

    method SetLink(link: Option<string>)
      modifies this
      ensures this.link == link && value == old(value)
    {
      this.link := link;
    }

    method SetValue(value: Option<string>)
      modifies this
      ensures this.value == value && link == old(link)
    {
      this.value := value;
    }

    /** toString(), which is also the @JsonValue: the value, possibly null. */
    function ToString(): (r: Option<string>)
      reads this
      ensures r == Contents().value
    {
      value
    }
  }

  /** The JSON the connector writes for a reference: the @JsonValue `toString`, a JSON string, or
      a JSON null when the value is null. */
  function Serialize(r: Reference): (j: Json)
    ensures j.JString? <==> r.value.Some?
  {
    if r.value.Some? then JString(r.value.value) else JNull
  }

  /** The link is never written out: references that differ only in their link are serialized
      alike. */
  lemma SerializeIgnoresLink(l1: Option<string>, l2: Option<string>, v: Option<string>)
    ensures Serialize(Reference(l1, v)) == Serialize(Reference(l2, v))
  {
  }

  /** Setting one field of an SNComplex leaves the other one as it was. */
  method SettersAreIndependent(c: SNComplex, link: Option<string>, value: Option<string>)
    modifies c
    ensures c.Contents() == Reference(link, value)
  {
    c.SetLink(link);
    c.SetValue(value);
  }
}
