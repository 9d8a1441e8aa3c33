/** BatchOperation: one REST request inside a ServiceNow batch, with its fluent Builder. The body is
    carried as Base64 of the UTF-8 octets of its JSON text. */
module BatchOperationDto {
  import opened Wrappers
  import Utf8
  import Base64

  /** The JSON-visible content of an operation at one moment; null fields are None. */
  datatype Operation = Operation(
    id: Option<string>,
    httpMethod: Option<string>,
    url: Option<string>,
    headers: Option<seq<map<string, string>>>,
    body: Option<string>)

  const Blank: Operation := Operation(None, None, None, None, None)

  /** The body setBody(Object) stores for a JSON text: RFC 4648 Base64 of its RFC 3629 octets.
      It is made of whole quanta of the Base64 alphabet, and it decodes back to the text. */
  function EncodedBody(json: string): (r: string)
    ensures |r| == 4 * ((|Utf8.Encode(json)| + 2) / 3)
    ensures forall i :: 0 <= i < |r| ==> Base64.IsSymbol(r[i]) || r[i] == Base64.Pad
    ensures Base64.Decode(r) == Some(Utf8.Encode(json))
    ensures Utf8.Decode(Base64.Decode(r).value) == Some(json)
  {
    Base64.DecodeEncode(Utf8.Encode(json));
    Utf8.DecodeEncode(json);
    Base64.Encode(Utf8.Encode(json))
  }

  /** Different JSON texts give different bodies. */
  lemma EncodedBodyInjective(a: string, b: string)
    requires EncodedBody(a) == EncodedBody(b)
    ensures a == b
  {
    assert Utf8.Decode(Base64.Decode(EncodedBody(a)).value) == Some(a);
  }

  class BatchOperation {
    var id: Option<string>
    var httpMethod: Option<string>
    var url: Option<string>
    var headers: Option<seq<map<string, string>>>
    var body: Option<string>

    constructor()
      ensures Snapshot() == Blank
    {
      id, httpMethod, url, headers, body := None, None, None, None, None;
    }

    function Snapshot(): Operation
      reads this
    {
      Operation(id, httpMethod, url, headers, body)
    }

    method SetId(id: Option<string>)
      modifies this
      ensures Snapshot() == old(Snapshot()).(id := id)
    {
      this.id := id;
    }

    method SetMethod(httpMethod: Option<string>)
      modifies this
      ensures Snapshot() == old(Snapshot()).(httpMethod := httpMethod)
    {
      this.httpMethod := httpMethod;
    }

    method SetUrl(url: Option<string>)
      modifies this
      ensures Snapshot() == old(Snapshot()).(url := url)
    {
      this.url := url;
    }

    method SetHeaders(headers: Option<seq<map<string, string>>>)
      modifies this
      ensures Snapshot() == old(Snapshot()).(headers := headers)
    {
      this.headers := headers;
    }

    /** setBody(String): the text is stored as given, not encoded. */
    method SetBodyText(body: Option<string>)
      modifies this
      ensures Snapshot() == old(Snapshot()).(body := body)
    {
      this.body := body;
    }

    /** setBody(Object): `json` is what the JSON mapper wrote for the object, or the failure it
        raised; a failure leaves the body as it was and is rethrown as a ConnectorException. */
    method SetBodyOf(json: Result<string>) returns (o: Outcome)
      modifies this
      ensures json.Success? ==> o == Pass && Snapshot() == old(Snapshot()).(body := Some(EncodedBody(json.value)))
      ensures json.Failure? ==> o == Fail(Wrapped(json.error)) && Snapshot() == old(Snapshot())
    {
      if json.Failure? {
        return Fail(Wrapped(json.error));
      }
      this.body := Some(EncodedBody(json.value));
      return Pass;
    }
  }

  /** BatchOperation.Builder: every step writes into one lazily created instance, and build()
      hands that same instance out. */
  class Builder {
    var instance: BatchOperation?

    constructor()
      ensures instance == null
    {
      instance := null;
    }

    /** What build() would return now, as a value; a blank operation before the first step. */
    function Current(): Operation
      reads this, instance
    {
      if instance == null then Blank else instance.Snapshot()
    }

    method GetInstance() returns (op: BatchOperation)
      modifies this
      ensures op == instance
      ensures old(instance) != null ==> op == old(instance)
      ensures old(instance) == null ==> fresh(op)
      ensures op.Snapshot() == old(Current())
    {
      if instance == null {
        instance := new BatchOperation();
      }
      op := instance;
    }

    method Id(id: Option<string>) returns (b: Builder)
      modifies this, instance
      ensures b == this && instance != null
      ensures old(instance) != null ==> instance == old(instance)
      ensures old(instance) == null ==> fresh(instance)
      ensures Current() == old(Current()).(id := id)
    {
      var op := GetInstance();
      op.SetId(id);
      return this;
    }

    method Method(httpMethod: Option<string>) returns (b: Builder)
      modifies this, instance
      ensures b == this && instance != null
      ensures old(instance) != null ==> instance == old(instance)
      ensures old(instance) == null ==> fresh(instance)
      ensures Current() == old(Current()).(httpMethod := httpMethod)
    {
      var op := GetInstance();
      op.SetMethod(httpMethod);
      return this;
    }

    method Url(url: Option<string>) returns (b: Builder)
      modifies this, instance
      ensures b == this && instance != null
      ensures old(instance) != null ==> instance == old(instance)
      ensures old(instance) == null ==> fresh(instance)
      ensures Current() == old(Current()).(url := url)
    {
      var op := GetInstance();
      op.SetUrl(url);
      return this;
    }

    method Headers(headers: Option<seq<map<string, string>>>) returns (b: Builder)
      modifies this, instance
      ensures b == this && instance != null
      ensures old(instance) != null ==> instance == old(instance)
      ensures old(instance) == null ==> fresh(instance)
      ensures Current() == old(Current()).(headers := headers)
    {
      var op := GetInstance();
      op.SetHeaders(headers);
      return this;
    }

    /** body(Object): always the encoding setter, even for a String, since the parameter is typed
        Object. */
    method Body(json: Result<string>) returns (b: Result<Builder>)
      modifies this, instance
      ensures instance != null
      ensures old(instance) != null ==> instance == old(instance)
      ensures old(instance) == null ==> fresh(instance)
      ensures json.Success? ==> b == Success(this) && Current() == old(Current()).(body := Some(EncodedBody(json.value)))
      ensures json.Failure? ==> b == Failure(Wrapped(json.error)) && Current() == old(Current())
    {
      var op := GetInstance();
      var o := op.SetBodyOf(json);
      if o.Fail? {
        return Failure(o.error);
      }
      return Success(this);
    }

    method Build() returns (op: BatchOperation)
      modifies this
      ensures op == instance
      ensures old(instance) != null ==> op == old(instance)
      ensures old(instance) == null ==> fresh(op)
      ensures op.Snapshot() == old(Current())
    {
      op := GetInstance();
    }
  }

  /** Two builds in a row give the same instance. */
  method BuildTwice(b: Builder) returns (first: BatchOperation, second: BatchOperation)
    modifies b
    ensures first == second
  {
    first := b.Build();
    second := b.Build();
  }
}
