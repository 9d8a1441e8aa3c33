/** SNClient: the record operations the connector calls, on top of SNService. It covers the query
    parameters of the paged and filtered listings, the paths of single records, the sys_id
    precondition of an update, and the decoding of answers into records.

    Jackson's mapping of a JSON tree to a record or a page of records is the parameter `decode`;
    its None stands for an IOException or a null result. */
module SNClient {
  import opened Wrappers
  import opened JavaText
  import opened Json
  import opened SNService
  import opened ResourceDto

  // ----- query parameters -----

  /** String.valueOf(Integer): "null" for a null Integer. */
  function IntegerText(n: Option<int>): string {
    if n.Some? then IntToString(n.value) else "null"
  }

  const Offset: string := "sysparm_offset"
  const Limit: string := "sysparm_limit"
  const Rel: string := "rel"
  const Query: string := "sysparm_query"

  /** The paging parameters put into `params`: the offset always, the limit only when a count is
      given, and `rel` by direction. Unboxing a null `backward` throws. */
  function PagingParams(params: map<string, string>, startIndex: Option<int>, count: Option<int>, backward: Option<bool>)
    : (r: Result<map<string, string>>)
    ensures r.Failure? <==> backward.None?
    ensures r.Failure? ==> r.error == NullPointer
    ensures r.Success? ==> r.value.Keys == params.Keys + {Offset, Rel} + (if count.Some? then {Limit} else {})
    ensures r.Success? ==> r.value[Offset] == IntegerText(startIndex)
    ensures r.Success? ==> r.value[Rel] == if backward.value then "prev" else "next"
    ensures r.Success? && count.Some? ==> r.value[Limit] == IntToString(count.value)
    ensures r.Success? ==> forall k :: k in params && k != Offset && k != Rel && k != Limit ==> r.value[k] == params[k]
  {
    var withOffset := params[Offset := IntegerText(startIndex)];
    var withLimit := if count.Some? then withOffset[Limit := IntToString(count.value)] else withOffset;
    if backward.None? then Failure(NullPointer)
    else Success(withLimit[Rel := if backward.value then "prev" else "next"])
  }

  /** getResources(type, startIndex, count, backward): the paging parameters alone. */
  function PagedQuery(startIndex: Option<int>, count: Option<int>, backward: Option<bool>): (r: Result<map<string, string>>)
    ensures r.Failure? <==> backward.None?
    ensures r.Success? ==> r.value.Keys == {Offset, Rel} + (if count.Some? then {Limit} else {})
    ensures r.Success? ==> r.value[Offset] == IntegerText(startIndex)
    ensures r.Success? ==> r.value[Rel] == if backward.value then "prev" else "next"
    ensures r.Success? && count.Some? ==> r.value[Limit] == IntToString(count.value)
  {
    PagingParams(map[], startIndex, count, backward)
  }

  /** getResources(type, filterQuery): the query alone, passed verbatim. */
  function FilteredQuery(filterQuery: string): (r: map<string, string>)
    ensures r.Keys == {Query} && r[Query] == filterQuery
  {
    map[Query := filterQuery]
  }

  /** getResources(type, filterQuery, startIndex, count, backward): the query, verbatim, and the
      paging parameters. */
  function FilteredPagedQuery(filterQuery: string, startIndex: Option<int>, count: Option<int>, backward: Option<bool>)
    : (r: Result<map<string, string>>)
    ensures r.Failure? <==> backward.None?
    ensures r.Success? ==> r.value.Keys == {Query, Offset, Rel} + (if count.Some? then {Limit} else {})
    ensures r.Success? ==> r.value[Query] == filterQuery && r.value[Offset] == IntegerText(startIndex)
    ensures r.Success? ==> r.value[Rel] == if backward.value then "prev" else "next"
    ensures r.Success? && count.Some? ==> r.value[Limit] == IntToString(count.value)
  {
    PagingParams(FilteredQuery(filterQuery), startIndex, count, backward)
  }

  /** The filtered page asks for what the plain page asks for, plus the filter, verbatim. */
  lemma FilteredPageAddsQuery(filterQuery: string, startIndex: Option<int>, count: Option<int>, backward: Option<bool>)
    ensures FilteredPagedQuery(filterQuery, startIndex, count, backward).Success?
        <==> PagedQuery(startIndex, count, backward).Success?
    ensures PagedQuery(startIndex, count, backward).Success? ==>
      FilteredPagedQuery(filterQuery, startIndex, count, backward).value
        == PagedQuery(startIndex, count, backward).value[Query := filterQuery]
  {
    if backward.Some? {
      var f := FilteredPagedQuery(filterQuery, startIndex, count, backward).value;
      var p := PagedQuery(startIndex, count, backward).value;
      assert f.Keys == p[Query := filterQuery].Keys;
    }
  }

  /** testService asks for one record of sys_user from offset 0, forward. */
  lemma TestServiceQuery()
    ensures PagedQuery(Some(0), Some(1), Some(false)) == Success(map[Offset := "0", Limit := "1", Rel := "next"])
  {
    var r := PagedQuery(Some(0), Some(1), Some(false));
    assert IntToString(0) == "0" && IntToString(1) == "1";
    assert r.value.Keys == map[Offset := "0", Limit := "1", Rel := "next"].Keys;
  }

  // ----- single records -----

  /** getResource(type, id) and deleteResource(type, id): the request goes to the record's own
      path below the table. */
  method RecordClient(table: ResourceTable, id: string) returns (w: WebClient)
    ensures fresh(w) && w.path == JoinPath(TablePath(table), id) && w.query == map[]
  {
    w := GetTableWebClient(table, None);
    w.Path(id);
  }

  /** A record's path is /api/now/table/<table>/<id>. */
  lemma RecordPathIs(table: ResourceTable, id: string)
    requires !StartsWithSlash(id)
    ensures JoinPath(TablePath(table), id) == "/api/now/table/" + TableName(table) + "/" + id
  {
    TablePathIs(table);
    assert !EndsWithSlash(TablePath(table));
  }

  // ----- answers -----

  /** doGetResources: the page decoded from the GET's envelope. A GET whose text does not parse
      leaves doGet with null, and the toString() called on it throws; a tree that does not decode
      is a general error. No path returns null. */
  function DoGetResources<D>(response: Option<Response>, parse: string -> Option<Json>, decode: Json -> Option<D>)
    : (r: Result<D>)
    ensures var g := DoGet(response, parse); g.Failure? ==> r == Failure(g.error)
    ensures var g := DoGet(response, parse); g.Success? && g.value.None? ==> r == Failure(NullPointer)
    ensures var g := DoGet(response, parse);
      g.Success? && g.value.Some? ==>
        r == match decode(g.value.value)
             case Some(d) => Success(d)
             case None => Failure(ConnectorError("While retrieving Resources from service"))
  {
    var tree :- DoGet(response, parse);
    if tree.None? then Failure(NullPointer)
    else
      match decode(tree.value)
      case None => Failure(ConnectorError("While retrieving Resources from service"))
      case Some(d) => Success(d)
  }

  /** doGetResource: one record, decoded the same way. */
  function DoGetResource<D>(response: Option<Response>, parse: string -> Option<Json>, decode: Json -> Option<D>)
    : (r: Result<D>)
    ensures var g := DoGet(response, parse); g.Failure? ==> r == Failure(g.error)
    ensures var g := DoGet(response, parse); g.Success? && g.value.None? ==> r == Failure(NullPointer)
    ensures var g := DoGet(response, parse);
      g.Success? && g.value.Some? ==>
        r == match decode(g.value.value)
             case Some(d) => Success(d)
             case None => Failure(ConnectorError("While retrieving Resource from service after create"))
  {
    var tree :- DoGet(response, parse);
    if tree.None? then Failure(NullPointer)
    else
      match decode(tree.value)
      case None => Failure(ConnectorError("While retrieving Resource from service after create"))
      case Some(d) => Success(d)
  }

  /** updateResource(type, resource): a blank sys_id is refused before any request; otherwise the
      PATCH answer's `result`, decoded. */
  function UpdateResource<D>(sysId: Option<string>, response: Option<Response>, parse: string -> Option<Json>,
                             decode: Json -> Option<D>): (r: Result<D>)
    ensures IsBlank(sysId) ==> r == Failure(ConnectorError("Missing required Resource id attribute for update"))
    ensures var u := DoUpdate(sysId, response, parse); !IsBlank(sysId) && u.Failure? ==> r == Failure(u.error)
    ensures var u := DoUpdate(sysId, response, parse);
      !IsBlank(sysId) && u.Success? ==>
        r == match decode(u.value)
             case Some(d) => Success(d)
             case None => Failure(ConnectorError("While retrieving Resource from service after update"))
  {
    if IsBlank(sysId) then Failure(ConnectorError("Missing required Resource id attribute for update"))
    else
      var tree :- DoUpdate(sysId, response, parse);
      match decode(tree)
      case None => Failure(ConnectorError("While retrieving Resource from service after update"))
      case Some(d) => Success(d)
  }

  /** With a blank sys_id the answer plays no part: nothing is sent. */
  lemma BlankSysIdSendsNothing<D>(sysId: Option<string>, r1: Option<Response>, r2: Option<Response>,
                                  parse: string -> Option<Json>, decode: Json -> Option<D>)
    requires IsBlank(sysId)
    ensures UpdateResource(sysId, r1, parse, decode) == UpdateResource(sysId, r2, parse, decode)
  {
  }

  /** createResource(type, resource): the very record it was given, now carrying the sys_id the
      service assigned. */
  method CreateResource(resource: Resource, response: Option<Response>, parse: string -> Option<Json>)
    returns (r: Result<Resource>)
    requires resource.Valid()
    modifies resource
    ensures resource.Valid()
    ensures r.Success? <==> CreatedSysId(response, parse).Success?
    ensures r.Success? ==> r.value == resource && resource.SysId() == CreatedSysId(response, parse).value
    ensures r.Success? ==>
      resource.slots == old(resource.slots)[SysIdAt := TextSlot(CreatedSysId(response, parse).value)]
    ensures r.Failure? ==> r.error == CreatedSysId(response, parse).error && resource.slots == old(resource.slots)
  {
    var o := DoCreate(resource, response, parse);
    if o.Fail? {
      return Failure(o.error);
    }
    return Success(resource);
  }

  /** testService: true when the one-record page arrives; it never answers false, it throws. */
  function TestService<D>(response: Option<Response>, parse: string -> Option<Json>, decode: Json -> Option<D>)
    : (r: Result<bool>)
    ensures r.Success? ==> r.value
    ensures r.Success? <==> DoGetResources(response, parse, decode).Success?
  {
    var page :- DoGetResources(response, parse, decode);
    Success(true)
  }
}
