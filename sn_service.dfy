/** SNService: the REST layer over ServiceNow's Table API. It covers the three tables, the request
    paths and query parameters, the classification of HTTP responses, and the JSON envelope
    (`{"result": ...}`) the service wraps every answer in.

    The HTTP exchange itself is not modelled: a request is the path and query it would be sent
    with, and a response is the value the connector reads back from it. Jackson's parser is the
    parameter `parse`, whose None stands for the IOException it throws on malformed text. */
module SNService {
  import opened Wrappers
  import opened JavaText
  import opened Json
  import opened SNAttributes
  import opened ResourceDto
  import DetectHtml

  /** The tables the connector reads and writes. */
  datatype ResourceTable = SysUser | SysUserGroup | SysUserGrMember

  /** name() of the enum constant, which is also the table's name in the REST path. */
  function TableName(t: ResourceTable): string {
    match t
    case SysUser => "sys_user"
    case SysUserGroup => "sys_user_group"
    case SysUserGrMember => "sys_user_grmember"
  }

  /** Distinct tables are addressed by distinct names. */
  lemma TableNamesDistinct(a: ResourceTable, b: ResourceTable)
    ensures TableName(a) == TableName(b) ==> a == b
  {
    if a != b {
      assert |TableName(a)| != |TableName(b)|;
    }
  }

  const ResponseResult: string := "result"
  const ResponseBatchRequestId: string := "batch_request_id"
  const ResponseServicedRequests: string := "serviced_requests"
  const BatchOp: string := "batch"
  const ResponseHeaderTotalCount: string := "x-total-count"
  const TableRoot: string := "/api/now/table/"
  const OpRoot: string := "/api/now/v1"

  // ----- request paths -----

  predicate EndsWithSlash(s: string) { |s| > 0 && s[|s| - 1] == '/' }
  predicate StartsWithSlash(s: string) { |s| > 0 && s[0] == '/' }

  /** WebClient.path(segment): the segment is appended with exactly one `/` at the joint. */
  function JoinPath(base: string, segment: string): (r: string)
    ensures base <= r
    ensures !StartsWithSlash(segment) ==> |r| >= |base| + |segment|
    ensures !StartsWithSlash(segment) ==> r[|r| - |segment|..] == segment
    ensures !StartsWithSlash(segment) && |segment| > 0 && |base| > 0 ==> r[|r| - |segment| - 1] == '/'
    ensures EndsWithSlash(base) && StartsWithSlash(segment) ==> r == base + segment[1..]
    ensures EndsWithSlash(base) != StartsWithSlash(segment) ==> r == base + segment
    ensures !EndsWithSlash(base) && !StartsWithSlash(segment) ==> r == base + "/" + segment
  {
    if EndsWithSlash(base) && StartsWithSlash(segment) then base + segment[1..]
    else if EndsWithSlash(base) || StartsWithSlash(segment) then base + segment
    else base + "/" + segment
  }

  /** The path of a table: /api/now/table/<table>. */
  function TablePath(t: ResourceTable): string {
    JoinPath(JoinPath("", TableRoot), TableName(t))
  }

  /** The path of an operation: /api/now/v1/<op>. */
  function OpPath(op: string): string {
    JoinPath(JoinPath("", OpRoot), op)
  }

  lemma TablePathIs(t: ResourceTable)
    ensures TablePath(t) == "/api/now/table/" + TableName(t)
  {
    assert JoinPath("", TableRoot) == TableRoot;
    assert TableName(t)[0] == 's';
  }

  lemma OpPathIs(op: string)
    requires !StartsWithSlash(op)
    ensures OpPath(op) == "/api/now/v1/" + op
  {
    assert JoinPath("", OpRoot) == OpRoot;
  }

  /** The part of a CXF WebClient the connector builds: the path below the base address, and the
      query parameters. */
  class WebClient {
    var path: string
    var query: map<string, string>

    constructor ()
      ensures path == "" && query == map[]
    {
      path := "";
      query := map[];
    }

    method Path(segment: string)
      modifies this
      ensures path == JoinPath(old(path), segment) && query == old(query)
    {
      path := JoinPath(path, segment);
    }

    method Query(name: string, value: string)
      modifies this
      ensures query == old(query)[name := value] && path == old(path)
    {
      query := query[name := value];
    }
  }

  /** The loop over params.entrySet() that adds each entry as a query parameter. */
  method AddQuery(w: WebClient, params: map<string, string>)
    modifies w
    ensures w.query == old(w.query) + params && w.path == old(w.path)
  {
    var todo := params.Keys;
    while todo != {}
      invariant todo <= params.Keys
      invariant w.query == old(w.query) + map k | k in params.Keys - todo :: params[k]
      invariant w.path == old(w.path)
      decreases todo
    {
      var k :| k in todo;
      w.Query(k, params[k]);
      todo := todo - {k};
    }
    assert params.Keys - todo == params.Keys;
  }

  /** getTableWebClient(table, params): a client on the table's path carrying the parameters. */
  method GetTableWebClient(table: ResourceTable, params: Option<map<string, string>>) returns (w: WebClient)
    ensures fresh(w) && w.path == TablePath(table)
    ensures w.query == if params.Some? then params.value else map[]
  {
    w := new WebClient();
    w.Path(TableRoot);
    w.Path(TableName(table));
    if params.Some? {
      AddQuery(w, params.value);
    }
  }

  /** getOpWebClient(op, params): a client on the operation's path carrying the parameters. */
  method GetOpWebClient(op: string, params: Option<map<string, string>>) returns (w: WebClient)
    ensures fresh(w) && w.path == OpPath(op)
    ensures w.query == if params.Some? then params.value else map[]
  {
    w := new WebClient();
    w.Path(OpRoot);
    w.Path(op);
    if params.Some? {
      AddQuery(w, params.value);
    }
  }

  // ----- responses -----

  /** What the connector reads of an HTTP response: the status code, whether the media type is
      the TEXT_HTML_TYPE constant, the entity as text, and the x-total-count header. */
  datatype Response = Response(status: int, htmlMediaType: bool, body: string, totalCount: Option<string>)

  /** The statuses a request may succeed with: 200 OK, 201 Created, 202 Accepted. */
  predicate Accepted(status: int) {
    status == 200 || status == 201 || status == 202
  }

  /** checkServiceErrors(response): the entity text of a successful response, or the exception:
      - no response at all is a general error;
      - 404 is NoSuchEntity carrying the entity, whatever the entity holds;
      - any other status but 200, 201 and 202 is a general error (204 included);
      - an accepted response that is HTML, by media type or by content, is a general error. */
  function CheckServiceErrors(response: Option<Response>): (r: Result<string>)
    ensures response.None? ==> r == Failure(ConnectorError("While executing request - no response"))
    ensures response.Some? && response.value.status == 404 ==> r == Failure(NoSuchEntity(response.value.body))
    ensures r.Success? <==>
      response.Some? && Accepted(response.value.status)
      && !response.value.htmlMediaType && !DetectHtml.IsHtml(Some(response.value.body))
    ensures r.Success? ==> r.value == response.value.body
    ensures r.Failure? ==> r.error.IsConnectorException()
    ensures response.Some? && response.value.status != 404 && !Accepted(response.value.status) ==>
      r == Failure(ConnectorError("While executing request: " + response.value.body))
    ensures (response.Some? && Accepted(response.value.status)
             && (response.value.htmlMediaType || DetectHtml.IsHtml(Some(response.value.body)))) ==>
      r == Failure(ConnectorError("While executing request - bad response from service: " + response.value.body))
  {
    if response.None? then Failure(ConnectorError("While executing request - no response"))
    else
      var body := response.value.body;
      if response.value.status == 404 then Failure(NoSuchEntity(body))
      else if !Accepted(response.value.status) then Failure(ConnectorError("While executing request: " + body))
      else if response.value.htmlMediaType || DetectHtml.IsHtml(Some(body)) then
        Failure(ConnectorError("While executing request - bad response from service: " + body))
      else Success(body)
  }

  /** An empty 204 answer is an error on this path; only doDelete accepts it. */
  lemma NoContentIsError(body: string, html: bool, total: Option<string>)
    ensures CheckServiceErrors(Some(Response(204, html, body, total)))
      == Failure(ConnectorError("While executing request: " + body))
  {
  }

  /** doDelete: the status of the DELETE decides; anything but 204 or 200 means the record was not
      there. */
  function DoDelete(userId: string, status: int): (o: Outcome)
    ensures o.Pass? <==> status == 204 || status == 200
    ensures o.Fail? ==> o.error == NoSuchEntity(userId)
  {
    if status != 204 && status != 200 then Fail(NoSuchEntity(userId)) else Pass
  }

  /** doGet: the envelope of a GET, or null when the text does not parse. A list answer (`result`
      is an array) keeps the whole envelope and gains `totalCount` from a non-blank x-total-count
      header; a single answer is unwrapped. An envelope without `result` fails on the null it
      reads. */
  function DoGet(response: Option<Response>, parse: string -> Option<Json>): (r: Result<Option<Json>>)
    ensures var c := CheckServiceErrors(response); c.Failure? ==> r == Failure(c.error)
    ensures r.Success? ==> CheckServiceErrors(response).Success?
    ensures var c := CheckServiceErrors(response); c.Success? && parse(c.value).None? ==> r == Success(None)
    ensures var c := CheckServiceErrors(response);
      c.Success? && parse(c.value).Some? ==> (r.Success? <==> Get(parse(c.value).value, ResponseResult).Some?)
    ensures var c := CheckServiceErrors(response);
      c.Success? && parse(c.value).Some? && Get(parse(c.value).value, ResponseResult).Some?
      && !Get(parse(c.value).value, ResponseResult).value.JArray?
      ==> r == Success(Some(Get(parse(c.value).value, ResponseResult).value))
    ensures var c := CheckServiceErrors(response);
      c.Success? && parse(c.value).Some? && Get(parse(c.value).value, ResponseResult).Some?
      && Get(parse(c.value).value, ResponseResult).value.JArray?
      ==> && r.Success? && r.value.Some?
          && (forall k :: k != "totalCount" ==> Get(r.value.value, k) == Get(parse(c.value).value, k))
          && Get(r.value.value, "totalCount") ==
             (if IsBlank(response.value.totalCount) then Get(parse(c.value).value, "totalCount")
              else Some(JString(response.value.totalCount.value)))
  {
    var body :- CheckServiceErrors(response);
    match parse(body)
    case None => Success(None)
    case Some(tree) =>
      match Get(tree, ResponseResult)
      case None => Failure(NullPointer)
      case Some(result) =>
        if result.JArray? then
          var header := response.value.totalCount;
          if !IsBlank(header) then Success(Some(PutText(tree, "totalCount", header.value)))
          else Success(Some(tree))
        else Success(Some(result))
  }

  /** The sys_id the service assigned to a created record, as doCreate(resource) reads it from the
      envelope `{"result": {"sys_id": ...}}`, or the exception: the response's own, a general
      error when the text does not parse, and a general error when `result` or its `sys_id` is
      missing or null. A sys_id that is not a JSON string reads as null (textValue). */
  function CreatedSysId(response: Option<Response>, parse: string -> Option<Json>): (r: Result<Option<string>>)
    ensures var c := CheckServiceErrors(response); c.Failure? ==> r == Failure(c.error)
    ensures r.Failure? ==> r.error.IsConnectorException()
    ensures r.Success? <==>
      && CheckServiceErrors(response).Success?
      && parse(CheckServiceErrors(response).value).Some?
      && HasNonNull(parse(CheckServiceErrors(response).value).value, ResponseResult)
      && HasNonNull(Get(parse(CheckServiceErrors(response).value).value, ResponseResult).value, ResourceAttributeId)
    ensures r.Success? ==>
      var id := Get(Get(parse(response.value.body).value, ResponseResult).value, ResourceAttributeId).value;
      (r.value.Some? <==> id.JString?) && (id.JString? ==> r.value.value == id.s)
  {
    var body :- CheckServiceErrors(response);
    match parse(body)
    case None => Failure(ConnectorError("While creating Resource"))
    case Some(tree) =>
      if HasNonNull(tree, ResponseResult) && HasNonNull(Get(tree, ResponseResult).value, ResourceAttributeId) then
        Success(TextValue(Get(Get(tree, ResponseResult).value, ResourceAttributeId).value))
      else
        Failure(ConnectorError("While getting " + ResourceAttributeId + " value for created Resource - Response: " + body))
  }

  /** doCreate(resource): on success the caller's record carries the assigned sys_id and nothing
      else changes; on failure the record is left as it was. */
  method DoCreate(resource: Resource, response: Option<Response>, parse: string -> Option<Json>) returns (o: Outcome)
    requires resource.Valid()
    modifies resource
    ensures resource.Valid()
    ensures o.Pass? <==> CreatedSysId(response, parse).Success?
    ensures o.Pass? ==> resource.slots == old(resource.slots)[SysIdAt := TextSlot(CreatedSysId(response, parse).value)]
    ensures o.Fail? ==> o.error == CreatedSysId(response, parse).error && resource.slots == old(resource.slots)
  {
    var checked := CheckServiceErrors(response);
    if checked.Failure? {
      return Fail(checked.error);
    }
    var body := checked.value;
    var tree := parse(body);
    if tree.None? {
      return Fail(ConnectorError("While creating Resource"));
    }
    if HasNonNull(tree.value, ResponseResult) && HasNonNull(Get(tree.value, ResponseResult).value, ResourceAttributeId) {
      resource.SetSysId(TextValue(Get(Get(tree.value, ResponseResult).value, ResourceAttributeId).value));
      return Pass;
    }
    return Fail(ConnectorError("While getting " + ResourceAttributeId + " value for created Resource - Response: " + body));
  }

  /** doUpdate(resource): the `result` member of the PATCH answer, or the exception: the
      response's own, a general error when the text does not parse, and a general error naming
      the record's sys_id when `result` is missing or null. */
  function DoUpdate(sysId: Option<string>, response: Option<Response>, parse: string -> Option<Json>): (r: Result<Json>)
    ensures var c := CheckServiceErrors(response); c.Failure? ==> r == Failure(c.error)
    ensures r.Failure? ==> r.error.IsConnectorException()
    ensures r.Success? <==>
      && CheckServiceErrors(response).Success?
      && parse(CheckServiceErrors(response).value).Some?
      && HasNonNull(parse(CheckServiceErrors(response).value).value, ResponseResult)
    ensures r.Success? ==> Some(r.value) == Get(parse(response.value.body).value, ResponseResult) && !r.value.JNull?
  {
    var body :- CheckServiceErrors(response);
    match parse(body)
    case None => Failure(ConnectorError("While updating Resource"))
    case Some(tree) =>
      if HasNonNull(tree, ResponseResult) then Success(Get(tree, ResponseResult).value)
      else Failure(ConnectorError("While updating " + JavaString(sysId) + " Resource - Response: " + body))
  }
}
