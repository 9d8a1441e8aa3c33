/** SNConnector: the connector's own logic around the client. It routes an object class to a
    table, guards its inputs, turns the paged-results cookie into offsets, chooses a record's
    name, projects a record onto the attributes asked for, and composes the batch that replaces
    a user's group memberships.

    The client's answers (pages of records, the memberships of a user) and the JSON text
    Jackson writes for a membership body are parameters. */
module SNConnector {
  import opened Wrappers
  import opened JavaText
  import opened SNUtils
  import opened Framework
  import opened SNAttributes
  import opened ResourceFields
  import opened ResourceDto
  import opened SNService
  import opened BatchOperationDto
  import opened BatchRequestDto
  import Base64
  import Utf8

  // ----- object classes -----

  /** ACCOUNT and GROUP are different object classes. */
  lemma AccountIsNotGroup(oc: ObjectClass)
    ensures !(IsAccount(oc) && IsGroup(oc))
  {
    assert |LowerString(AccountName)| == 11 && |LowerString(GroupName)| == 9;
  }

  /** setResourceType: accounts live in sys_user, groups in sys_user_group, and any other object
      class has no table (null). */
  function SetResourceType(oc: ObjectClass): (r: Option<ResourceTable>)
    ensures r == Some(SysUser) <==> IsAccount(oc)
    ensures r == Some(SysUserGroup) <==> IsGroup(oc)
    ensures r.None? <==> !IsAccount(oc) && !IsGroup(oc)
    ensures r != Some(SysUserGrMember)
  {
    AccountIsNotGroup(oc);
    if IsAccount(oc) then Some(SysUser) else if IsGroup(oc) then Some(SysUserGroup) else None
  }

  /** The table an operation (`Search`, `Create`, `Update`, `Delete`) works on, or the
      UnsupportedOperationException thrown for any object class but ACCOUNT and GROUP. */
  function SupportedTable(operation: string, oc: ObjectClass): (r: Result<ResourceTable>)
    ensures r.Success? <==> SetResourceType(oc).Some?
    ensures r.Success? ==> r.value == SetResourceType(oc).value
    ensures r.Failure? ==> r.error == UnsupportedOperation(operation + " of type" + oc.value + " is not supported")
  {
    if IsAccount(oc) || IsGroup(oc) then Success(SetResourceType(oc).value)
    else Failure(UnsupportedOperation(operation + " of type" + oc.value + " is not supported"))
  }

  // ----- input guards -----

  const EmptyAttributes: string := "Set of Attributes value is null or empty"

  /** create and update first refuse a null or empty set of attributes. */
  function CheckAttributes(attributes: Option<seq<Attribute>>): (o: Outcome)
    ensures o.Pass? <==> attributes.Some? && |attributes.value| > 0
    ensures o.Fail? ==> o == HandleGeneralError(EmptyAttributes)
  {
    if attributes.None? || |attributes.value| == 0 then HandleGeneralError(EmptyAttributes) else Pass
  }

  /** delete refuses a blank uid, then a null object class, then an unsupported one; otherwise it
      deletes from the table of the object class. */
  function DeleteTarget(uid: Option<string>, oc: Option<ObjectClass>): (r: Result<ResourceTable>)
    ensures IsBlank(uid) ==> r == Failure(InvalidAttributeValue("Uid value not provided or empty"))
    ensures !IsBlank(uid) && oc.None? ==> r == Failure(InvalidAttributeValue("Object value not provided"))
    ensures !IsBlank(uid) && oc.Some? ==> r == SupportedTable("Delete", oc.value)
    ensures r.Success? ==> !IsBlank(uid) && oc.Some? && r.value in {SysUser, SysUserGroup}
  {
    if IsBlank(uid) then Failure(InvalidAttributeValue("Uid value not provided or empty"))
    else if oc.None? then Failure(InvalidAttributeValue("Object value not provided"))
    else SupportedTable("Delete", oc.value)
  }

  // ----- names -----

  /** The name create and update use: the `name` attribute, or `__NAME__` when both `user_name`
      and `name` are blank. */
  function ChosenName(username: Option<string>, name: Option<string>, nameAttribute: Option<string>): (r: Option<string>)
    ensures !IsBlank(name) ==> r == name
    ensures !IsBlank(username) ==> r == name
    ensures IsBlank(username) && IsBlank(name) ==> r == nameAttribute
  {
    if IsBlank(username) && IsBlank(name) then nameAttribute else name
  }

  /** The name fromResource gives a record: its user name unless that is blank, then its name. */
  function DisplayName(userName: Option<string>, name: Option<string>): (r: Option<string>)
    ensures !IsBlank(userName) ==> r == userName
    ensures IsBlank(userName) ==> r == name
    ensures r == userName || r == name
  {
    if IsBlank(userName) then name else userName
  }

  /** A record read back after create with a `user_name` is named by it; one without is named
      by the name chosen at create. */
  lemma DisplayNameAfterCreate(username: Option<string>, name: Option<string>, nameAttribute: Option<string>)
    ensures !IsBlank(username) ==> DisplayName(username, ChosenName(username, name, nameAttribute)) == username
    ensures IsBlank(username) ==>
      (DisplayName(username, ChosenName(username, name, nameAttribute)) == if IsBlank(name) then nameAttribute else name)
  {
  }

  /** What `status.getValue().get(0).toString()` gives for the `__ENABLE__` attribute: nothing
      when the attribute is missing or has no values, the text of its first value otherwise
      (toString on a null first value throws). */
  datatype Status = NoStatus | ActiveText(text: Option<string>)

  function ReadStatus(status: Option<seq<Obj>>): (r: Result<Status>)
    ensures status.None? || |status.value| == 0 ==> r == Success(NoStatus)
    ensures status.Some? && |status.value| > 0 ==> (r.Failure? <==> status.value[0].Null?)
    ensures status.Some? && |status.value| > 0 && status.value[0].Bool? ==>
      r == Success(ActiveText(Some(if status.value[0].b then "true" else "false")))
    ensures status.Some? && |status.value| > 0 && status.value[0].Str? ==>
      r == Success(ActiveText(Some(status.value[0].s)))
    ensures status.Some? && |status.value| > 0 && !status.value[0].Null? ==>
      r == Success(ActiveText(ToString(status.value[0]).value))
  {
    if status.None? || |status.value| == 0 then Success(NoStatus)
    else
      var text :- ToString(status.value[0]);
      Success(ActiveText(text))
  }

  /** The fields create sets on its new Resource before fromAttributes: name, user name, the
      decrypted password when one is given, and active from the status. A status whose first value
      is null throws inside the try block, so it is wrapped. */
  method PrepareCreate(resource: Resource, username: Option<string>, name: Option<string>,
                       password: Option<string>, status: Option<seq<Obj>>) returns (o: Outcome)
    requires resource.Valid()
    modifies resource
    ensures resource.Valid()
    ensures resource.Name() == name && resource.UserName() == username
    ensures ReadStatus(status).Failure? ==>
      o == WrapGeneralError("Could not create Resource : " + JavaString(username), ReadStatus(status).error)
    ensures ReadStatus(status).Success? ==> o == Pass
    ensures var s1 := old(resource.slots)[NameAt := TextSlot(name)][UserNameAt := TextSlot(username)];
      var s2 := if password.Some? then s1[UserPasswordAt := TextSlot(password)] else s1;
      match ReadStatus(status)
      case Success(ActiveText(t)) => resource.slots == s2[ActiveAt := TextSlot(t)]
      case _ => resource.slots == s2
  {
    resource.SetName(name);
    resource.SetUserName(username);
    if password.Some? {
      resource.SetUserPassword(password);
    }
    var st := ReadStatus(status);
    if st.Failure? {
      return WrapGeneralError("Could not create Resource : " + JavaString(username), st.error);
    }
    if st.value.ActiveText? {
      resource.SetActive(st.value.text);
    }
    UserNameField();
    NameField();
    return Pass;
  }

  /** The fields update sets on its new Resource before fromAttributes: the sys_id of the uid,
      then the user name twice, the second time to the chosen name, which wins. The status is
      read outside the try block, so a null first value escapes unwrapped. */
  method PrepareUpdate(resource: Resource, uid: Option<string>, username: Option<string>, name: Option<string>,
                       status: Option<seq<Obj>>) returns (o: Outcome)
    requires resource.Valid()
    modifies resource
    ensures resource.Valid()
    ensures resource.SysId() == uid && resource.UserName() == name
    ensures ReadStatus(status).Failure? ==> o == Fail(ReadStatus(status).error)
    ensures ReadStatus(status).Success? ==> o == Pass
    ensures var s1 := old(resource.slots)[SysIdAt := TextSlot(uid)][UserNameAt := TextSlot(name)];
      match ReadStatus(status)
      case Success(ActiveText(t)) => resource.slots == s1[ActiveAt := TextSlot(t)]
      case _ => resource.slots == s1
  {
    resource.SetSysId(uid);
    resource.SetUserName(username);
    resource.SetUserName(name);
    var st := ReadStatus(status);
    if st.Failure? {
      return Fail(st.error);
    }
    if st.value.ActiveText? {
      resource.SetActive(st.value.text);
    }
    UserNameField();
    SysIdField();
    return Pass;
  }

  // ----- search -----

  /** Collection.size(): the number of elements, capped at Integer.MAX_VALUE. */
  function JavaSize<T>(s: seq<T>): (n: nat)
    ensures IsInt32(n) && n <= |s|
    ensures |s| <= MaxInt ==> n == |s|
    ensures |s| > MaxInt ==> n == MaxInt
  {
    if |s| <= MaxInt then |s| else MaxInt
  }

  /** The page executeQuery fetches: None for every record (no page size, or a page size of -1),
      the offset the cookie holds when it is not blank, and 0 otherwise. A cookie that is not a
      number throws in Integer.valueOf. */
  function RequestedOffset(pageSize: Option<int>, cookie: Option<string>): (r: Result<Option<int>>)
    ensures pageSize.None? || pageSize.value == -1 ==> r == Success(None)
    ensures pageSize.Some? && pageSize.value != -1 && IsBlank(cookie) ==> r == Success(Some(0))
    ensures pageSize.Some? && pageSize.value != -1 && !IsBlank(cookie) ==>
      r == match ParseInt(cookie.value) case Success(c) => Success(Some(c)) case Failure(e) => Failure(e)
  {
    var size := pageSize.GetOr(-1);
    if size == -1 then Success(None)
    else if !IsBlank(cookie) then
      var c :- ParseInt(cookie.value);
      Success(Some(c))
    else Success(Some(0))
  }

  /** The cookie handed back after a page of `size` records: the offset of the next page when the
      page was full (size >= page size), null when it was short. The offset is the int sum of the
      cookie and the size. */
  function NextCookie(pageSize: int, cookie: Option<string>, size: nat): (r: Result<Option<string>>)
    requires IsInt32(size)
    ensures size < pageSize ==> r.Success? ==> r.value.None?
    ensures IsBlank(cookie) ==> r == Success(if size >= pageSize then Some(IntToString(size)) else None)
    ensures !IsBlank(cookie) ==> (r.Success? <==> ParseInt(cookie.value).Success?)
    ensures !IsBlank(cookie) && r.Success? && size >= pageSize ==>
      r.value == Some(IntToString(AddInt32(ParseInt(cookie.value).value, size)))
  {
    if !IsBlank(cookie) then
      var c :- ParseInt(cookie.value);
      Success(if size >= pageSize then Some(IntToString(AddInt32(c, size))) else None)
    else Success(if size >= pageSize then Some(IntToString(size)) else None)
  }

  /** The SearchResult: the records handed to the handler, the cookie, and the remaining count,
      which is always -1. */
  datatype SearchPage<R> = SearchPage(records: seq<R>, cookie: Option<string>, remaining: int)

  /** executeQuery without a filter. `fetch(None)` is the unpaged listing, `fetch(Some(o))` the page
      of `pageSize` records from offset `o`; an exception on the way is wrapped. */
  function Search<R>(pageSize: Option<int>, cookie: Option<string>, fetch: Option<int> -> Result<seq<R>>)
    : (r: Result<SearchPage<R>>)
    ensures r.Success? ==> r.value.remaining == -1
    ensures r.Failure? ==> r.error.IsConnectorException()
    ensures (pageSize.None? || pageSize.value == -1) ==>
      (r.Success? <==> fetch(None).Success?) && (r.Success? ==> r.value == SearchPage(fetch(None).value, cookie, -1))
    ensures pageSize.Some? && pageSize.value != -1 && r.Success? ==>
      && RequestedOffset(pageSize, cookie).Success?
      && fetch(RequestedOffset(pageSize, cookie).value).Success?
      && r.value.records == fetch(RequestedOffset(pageSize, cookie).value).value
      && Success(r.value.cookie) == NextCookie(pageSize.value, cookie, JavaSize(r.value.records))
    ensures pageSize.Some? && pageSize.value != -1 ==>
      (r.Success? <==>
        && RequestedOffset(pageSize, cookie).Success?
        && fetch(RequestedOffset(pageSize, cookie).value).Success?
        && NextCookie(pageSize.value, cookie, JavaSize(fetch(RequestedOffset(pageSize, cookie).value).value)).Success?)
  {
    match RequestedOffset(pageSize, cookie)
    case Failure(e) => Failure(WrapGeneralError("While getting Resources!", e).error)
    case Success(offset) =>
      match fetch(offset)
      case Failure(e) => Failure(WrapGeneralError("While getting Resources!", e).error)
      case Success(records) =>
        if offset.None? then Success(SearchPage(records, cookie, -1))
        else
          match NextCookie(pageSize.value, cookie, JavaSize(records))
          case Failure(e) => Failure(WrapGeneralError("While getting Resources!", e).error)
          case Success(next) => Success(SearchPage(records, next, -1))
  }

  /** A search without a page size hands back the caller's cookie and -1: a null cookie stays null. */
  lemma UnpagedSearchKeepsCookie<R>(cookie: Option<string>, all: seq<R>)
    ensures Search(None, cookie, (o: Option<int>) => Success(all)) == Success(SearchPage(all, cookie, -1))
  {
  }

  // ----- paging over a table -----

  /** The records a server holding `total` records serves for a page of `p` from `offset`. */
  function Served(total: nat, p: nat, offset: nat): (n: nat)
    ensures n <= p
    ensures offset + p <= total ==> n == p
    ensures offset <= total ==> n <= total - offset
  {
    if offset >= total then 0 else if total - offset < p then total - offset else p
  }

  /** The cookie that points at `offset`: none for the first page. */
  function CookieAt(offset: nat): Option<string> {
    if offset == 0 then None else Some(IntToString(offset))
  }

  /** Following the cookie: the page at `offset` is fetched from `offset`, and the cookie it hands
      back points at the next page exactly when this one was full. */
  lemma CookieStep(total: nat, p: nat, offset: nat)
    requires 0 < p && total <= MaxInt && offset <= total
    ensures RequestedOffset(Some(p), CookieAt(offset)) == Success(Some(offset))
    ensures NextCookie(p, CookieAt(offset), Served(total, p, offset))
      == Success(if offset + p <= total then CookieAt(offset + p) else None)
  {
    if offset > 0 {
      var s := IntToString(offset);
      ParseIntOfIntToString(offset);
      NatToStringDigits(offset);
      assert !IsJavaWhitespace(s[0]);
      assert !IsBlank(Some(s));
    } else {
      assert IsBlank(None);
    }
  }

  /** The number of pages read by following the cookies from `offset` until a null one. */
  function PagesFrom(total: nat, p: nat, offset: nat): nat
    requires p > 0
    decreases if offset <= total then total - offset else 0
  {
    if offset + p <= total then 1 + PagesFrom(total, p, offset + p) else 1
  }

  /** The offset of the page that hands back the null cookie. */
  function LastOffset(total: nat, p: nat, offset: nat): nat
    requires p > 0
    decreases if offset <= total then total - offset else 0
  {
    if offset + p <= total then LastOffset(total, p, offset + p) else offset
  }

  lemma {:induction false} PagesFromCount(total: nat, p: nat, offset: nat)
    requires 0 < p && offset <= total
    ensures offset + (PagesFrom(total, p, offset) - 1) * p == LastOffset(total, p, offset)
    ensures LastOffset(total, p, offset) <= total < LastOffset(total, p, offset) + p
    decreases total - offset
  {
    if offset + p <= total {
      PagesFromCount(total, p, offset + p);
    }
  }

  lemma {:induction false} MulMonotone(x: int, y: int, p: nat)
    requires x <= y
    ensures x * p <= y * p
    decreases y - x
  {
    if x < y {
      MulMonotone(x + 1, y, p);
      assert (x + 1) * p == x * p + p;
    }
  }

  lemma MulStrict(a: int, b: int, p: nat)
    ensures a < b ==> a * p + p <= b * p
  {
    if a < b {
      MulMonotone(a + 1, b, p);
      assert (a + 1) * p == a * p + p;
    }
  }

  lemma DivisionIsUnique(total: nat, p: nat, q: nat)
    requires 0 < p && q * p <= total < q * p + p
    ensures q == total / p && total - q * p == total % p
  {
    var d, m := total / p, total % p;
    assert total == d * p + m;
    MulStrict(q, d, p);
    MulStrict(d, q, p);
  }

  /** Paging through `total` records with page size `p` from the first page reads `total / p + 1`
      pages: one more than the full pages, so that when `p` divides `total` the last page read is
      empty. The last page holds `total % p` records, and it is the only one whose cookie is null. */
  lemma PagingReadsAllPages(total: nat, p: nat)
    requires 0 < p
    ensures PagesFrom(total, p, 0) == total / p + 1
    ensures LastOffset(total, p, 0) == (total / p) * p
    ensures Served(total, p, LastOffset(total, p, 0)) == total % p
  {
    PagesFromCount(total, p, 0);
    var q := PagesFrom(total, p, 0) - 1;
    DivisionIsUnique(total, p, q);
  }

  /** Search follows the cookies: from the cookie of `offset`, on a server holding `total`
      records, it hands over the page served there and the cookie of the next page, or null after
      the last one. */
  lemma SearchFollowsCookie<R>(total: nat, p: nat, offset: nat, fetch: Option<int> -> Result<seq<R>>, page: seq<R>)
    requires 0 < p && total <= MaxInt && offset <= total
    requires fetch(Some(offset)) == Success(page) && |page| == Served(total, p, offset)
    ensures Search(Some(p), CookieAt(offset), fetch)
      == Success(SearchPage(page, if offset + p <= total then CookieAt(offset + p) else None, -1))
  {
    CookieStep(total, p, offset);
    assert JavaSize(page) == Served(total, p, offset);
  }

  // ----- the equality lookups -----

  /** executeQuery with an equality filter on `__NAME__`: the records whose `name` equals the
      value; for accounts with none, those whose `user_name` does. The first one is the result. An
      exception on the way is wrapped. */
  function FindByName<R>(table: ResourceTable, value: string, fetch: string -> Result<seq<R>>): (r: Result<Option<R>>)
    ensures r.Failure? ==> r.error.IsConnectorException()
    ensures fetch("name=" + value).Success? && |fetch("name=" + value).value| > 0 ==>
      r == Success(Some(fetch("name=" + value).value[0]))
    ensures fetch("name=" + value).Success? && |fetch("name=" + value).value| == 0 && table != SysUser ==>
      r == Success(None)
    ensures r.Success? && r.value.Some? && table != SysUser ==> fetch("name=" + value).Success?
    ensures fetch("name=" + value).Failure? ==>
      r == Failure(WrapGeneralError("While getting Resource : __NAME__ - " + value, fetch("name=" + value).error).error)
    ensures fetch("name=" + value).Success? && |fetch("name=" + value).value| == 0 && table == SysUser ==>
      r == match fetch("user_name=" + value)
           case Failure(e) => Failure(WrapGeneralError("While getting Resource : __NAME__ - " + value, e).error)
           case Success(byUserName) => Success(if |byUserName| > 0 then Some(byUserName[0]) else None)
  {
    var context := "While getting Resource : __NAME__ - " + value;
    match fetch("name=" + value)
    case Failure(e) => Failure(WrapGeneralError(context, e).error)
    case Success(byName) =>
      if |byName| == 0 && table == SysUser then
        match fetch("user_name=" + value)
        case Failure(e) => Failure(WrapGeneralError(context, e).error)
        case Success(byUserName) => Success(if |byUserName| > 0 then Some(byUserName[0]) else None)
      else Success(if |byName| > 0 then Some(byName[0]) else None)
  }

  const UidName: string := "__UID__"
  const NameName: string := "__NAME__"

  /** executeQuery with an equality filter on `key`: by `__UID__` or `sys_id` the one record of
      that id (getResource never answers null, it throws), by `__NAME__` the lookup above, and by
      any other attribute nothing. An exception on the way is wrapped. */
  function Lookup<R>(table: ResourceTable, key: string, value: string, getOne: string -> Result<R>,
                     fetch: string -> Result<seq<R>>): (r: Result<Option<R>>)
    ensures r.Failure? ==> r.error.IsConnectorException()
    ensures key == UidName || key == ResourceAttributeId ==>
      (r.Success? <==> getOne(value).Success?) && (r.Success? ==> r.value == Some(getOne(value).value))
    ensures key != UidName && key != ResourceAttributeId && key == NameName ==> r == FindByName(table, value, fetch)
    ensures key != UidName && key != ResourceAttributeId && key != NameName ==> r == Success(None)
  {
    if key == UidName || key == ResourceAttributeId then
      match getOne(value)
      case Failure(e) => Failure(WrapGeneralError("While getting Resource : " + key + " - " + value, e).error)
      case Success(one) => Success(Some(one))
    else if key == NameName then FindByName(table, value, fetch)
    else Success(None)
  }

  // ----- fromResource -----

  /** The attributes of `attributes` whose name is among `names`, in order. */
  function Selected(attributes: seq<Attribute>, names: set<string>): seq<Attribute> {
    if |attributes| == 0 then []
    else
      var front := Selected(attributes[..|attributes| - 1], names);
      var a := attributes[|attributes| - 1];
      if a.name in names then front + [a] else front
  }

  /** Exactly the attributes asked for are kept. */
  lemma {:induction false} SelectedMembers(attributes: seq<Attribute>, names: set<string>)
    ensures |Selected(attributes, names)| <= |attributes|
    ensures forall a :: a in Selected(attributes, names) <==> a in attributes && a.name in names
  {
    if |attributes| > 0 {
      var front := attributes[..|attributes| - 1];
      SelectedMembers(front, names);
      assert attributes == front + [attributes[|attributes| - 1]];
    }
  }

  /** The loop of fromResource over the attributes, with its inner loop over the names asked for,
      which stops at the first equal name. */
  method Project(attributes: seq<Attribute>, attributesToGet: set<string>) returns (kept: seq<Attribute>)
    ensures kept == Selected(attributes, attributesToGet)
    ensures forall a :: a in kept <==> a in attributes && a.name in attributesToGet
  {
    kept := [];
    for i := 0 to |attributes|
      invariant kept == Selected(attributes[..i], attributesToGet)
    {
      var a := attributes[i];
      var names := attributesToGet;
      var found := false;
      while names != {} && !found
        invariant names <= attributesToGet
        invariant found ==> a.name in attributesToGet
        invariant !found ==> a.name !in attributesToGet - names
        decreases names, !found
      {
        var n :| n in names;
        if a.name == n {
          found := true;
        } else {
          names := names - {n};
        }
      }
      assert attributes[..i + 1][..i] == attributes[..i];
      if found {
        kept := kept + [a];
      }
    }
    assert attributes[..|attributes|] == attributes;
    SelectedMembers(attributes, attributesToGet);
  }

  /** What fromResource builds: the object class, the record's sys_id as uid, its display name, and
      the attributes asked for. The `__GROUPS__` membership lookup is not part of this model. */
  datatype ConnectorObject = ConnectorObject(
    objectClass: ObjectClass, uid: Option<string>, name: Option<string>, attributes: seq<Attribute>)

  method FromResource(resource: Resource, oc: ObjectClass, attributesToGet: set<string>) returns (obj: ConnectorObject)
    requires resource.Valid()
    ensures obj.objectClass == oc && obj.uid == resource.SysId()
    ensures obj.name == DisplayName(resource.UserName(), resource.Name())
    ensures AttributesOf(Fields, resource.slots, |Fields|).Success?
    ensures obj.attributes == Selected(AttributesOf(Fields, resource.slots, |Fields|).value, attributesToGet)
  {
    var all := resource.ToAttributes();
    FieldsGood();
    AttributesOfTable(Fields, resource.slots, |Fields|);
    var kept := Project(all.value, attributesToGet);
    obj := ConnectorObject(oc, resource.SysId(), DisplayName(resource.UserName(), resource.Name()), kept);
  }

  // ----- membership batches -----

  /** The one header every membership operation carries. */
  const DefaultHttpHeaders: seq<map<string, string>> := [map["name" := "Content-Type", "value" := "application/json"]]

  /** The membership table, addressed by concatenation rather than through the service's paths. */
  const MembershipUrl: string := "/api/now/table/" + TableName(SysUserGrMember)

  /** The operation that adds a membership, with its JSON body text encoded. */
  function PostOp(id: int, json: string): Operation {
    Operation(Some(IntToString(id)), Some("POST"), Some(MembershipUrl), Some(DefaultHttpHeaders), Some(EncodedBody(json)))
  }

  /** The operation that removes the membership whose sys_id is given; a null one reads "null". */
  function DeleteOp(id: int, membership: Option<string>): Operation {
    Operation(Some(IntToString(id)), Some("DELETE"), Some(MembershipUrl + "/" + JavaString(membership)),
              Some(DefaultHttpHeaders), None)
  }

  /** The JSON text of `{user: sysId, group: group.toString()}`, or the exception: toString of a
      null group, or Map.of refusing a null user or group, throws a NullPointerException, and a
      serialization failure is rethrown as a ConnectorException. */
  function MembershipBody(sysId: Option<string>, group: Obj, writeJson: map<string, string> -> Result<string>)
    : (r: Result<string>)
    ensures r.Success? <==>
      && ToString(group).Success? && ToString(group).value.Some? && sysId.Some?
      && writeJson(map["user" := sysId.value, "group" := ToString(group).value.value]).Success?
    ensures r.Success? ==> r.value == writeJson(map["user" := sysId.value, "group" := ToString(group).value.value]).value
  {
    var text :- ToString(group);
    if sysId.None? || text.None? then Failure(NullPointer)
    else
      match writeJson(map["user" := sysId.value, "group" := text.value])
      case Success(json) => Success(json)
      case Failure(e) => Failure(Wrapped(e))
  }

  /** The bodies for `groups`, in order, or the exception of the first group that fails. */
  function MembershipBodies(sysId: Option<string>, groups: seq<Obj>, writeJson: map<string, string> -> Result<string>)
    : (r: Result<seq<string>>)
    ensures r.Success? ==> |r.value| == |groups|
  {
    if |groups| == 0 then Success([])
    else
      var front :- MembershipBodies(sysId, groups[..|groups| - 1], writeJson);
      var body :- MembershipBody(sysId, groups[|groups| - 1], writeJson);
      Success(front + [body])
  }

  lemma {:induction false} MembershipBodiesStop(sysId: Option<string>, groups: seq<Obj>,
                                                writeJson: map<string, string> -> Result<string>, n: nat)
    requires n <= |groups| && MembershipBodies(sysId, groups[..n], writeJson).Failure?
    ensures MembershipBodies(sysId, groups, writeJson) == MembershipBodies(sysId, groups[..n], writeJson)
    decreases |groups| - n
  {
    if n < |groups| {
      assert groups[..n + 1][..n] == groups[..n];
      MembershipBodiesStop(sysId, groups, writeJson, n + 1);
    } else {
      assert groups[..n] == groups;
    }
  }

  /** The bodies up to group `i` extend those before it by the body of group `i`, or stop at its
      exception. */
  lemma BodiesStep(sysId: Option<string>, groups: seq<Obj>, writeJson: map<string, string> -> Result<string>, i: nat)
    requires i < |groups| && MembershipBodies(sysId, groups[..i], writeJson).Success?
    ensures MembershipBody(sysId, groups[i], writeJson).Failure? ==>
      MembershipBodies(sysId, groups[..i + 1], writeJson) == Failure(MembershipBody(sysId, groups[i], writeJson).error)
    ensures MembershipBody(sysId, groups[i], writeJson).Success? ==>
      MembershipBodies(sysId, groups[..i + 1], writeJson)
        == Success(MembershipBodies(sysId, groups[..i], writeJson).value + [MembershipBody(sysId, groups[i], writeJson).value])
  {
    assert groups[..i + 1][..i] == groups[..i];
    assert groups[..i + 1][i] == groups[i];
  }

  lemma PostsSnoc(first: int, bodies: seq<string>, body: string)
    ensures Posts(first, bodies + [body]) == Posts(first, bodies) + [PostOp(first + |bodies|, body)]
  {
  }

  function Posts(first: int, bodies: seq<string>): (ops: seq<Operation>)
    ensures |ops| == |bodies|
  {
    seq(|bodies|, i requires 0 <= i < |bodies| => PostOp(first + i, bodies[i]))
  }

  function Deletes(first: int, memberships: seq<Option<string>>): (ops: seq<Operation>)
    ensures |ops| == |memberships|
  {
    seq(|memberships|, i requires 0 <= i < |memberships| => DeleteOp(first + i, memberships[i]))
  }

  /** The operations of a membership batch: one DELETE per existing membership, then one POST per
      body, all numbered by one counter that starts at 1. */
  function MembershipOps(memberships: seq<Option<string>>, bodies: seq<string>): seq<Operation> {
    Deletes(1, memberships) + Posts(1 + |memberships|, bodies)
  }

  /** Operation `i` carries the id `i + 1`: the ids run "1", "2", ... in order. Every DELETE comes
      before every POST, and each POST carries its own body, which decodes back to its JSON text. */
  lemma MembershipOpsShape(memberships: seq<Option<string>>, bodies: seq<string>)
    ensures var ops := MembershipOps(memberships, bodies);
      && |ops| == |memberships| + |bodies|
      && (forall i :: 0 <= i < |ops| ==> ops[i].id == Some(IntToString(i + 1)))
      && (forall i :: 0 <= i < |memberships| ==> ops[i].httpMethod == Some("DELETE") && ops[i].body.None?)
      && (forall i :: |memberships| <= i < |ops| ==>
            (&& ops[i].httpMethod == Some("POST")
             && ops[i].body.Some?
             && Base64.Decode(ops[i].body.value) == Some(Utf8.Encode(bodies[i - |memberships|]))))
  {
    var ops := MembershipOps(memberships, bodies);
    forall i | |memberships| <= i < |ops|
      ensures ops[i] == PostOp(i + 1, bodies[i - |memberships|])
    {
    }
  }

  /** No two operations of a batch share an id (for batches of fewer than 2^31 operations, the
      range of the int counter). */
  lemma MembershipIdsUnique(memberships: seq<Option<string>>, bodies: seq<string>, i: nat, j: nat)
    requires |memberships| + |bodies| <= MaxInt
    requires i < j < |MembershipOps(memberships, bodies)|
    ensures MembershipOps(memberships, bodies)[i].id != MembershipOps(memberships, bodies)[j].id
  {
    MembershipOpsShape(memberships, bodies);
    if IntToString(i + 1) == IntToString(j + 1) {
      IntToStringInjective(i + 1, j + 1);
    }
  }

  /** Replacing the groups {A} by {B, C}: one DELETE for the membership in A, then the two POSTs,
      with the ids "1", "2", "3". */
  lemma ReplaceOneGroupByTwo(membershipA: string, bodyB: string, bodyC: string)
    ensures var ops := MembershipOps([Some(membershipA)], [bodyB, bodyC]);
      && |ops| == 3
      && ops[0] == DeleteOp(1, Some(membershipA)) && ops[0].id == Some("1")
      && ops[1] == PostOp(2, bodyB) && ops[1].id == Some("2")
      && ops[2] == PostOp(3, bodyC) && ops[2].id == Some("3")
  {
    var ops := MembershipOps([Some(membershipA)], [bodyB, bodyC]);
    assert ops[0] == DeleteOp(1, Some(membershipA));
    assert ops[1] == PostOp(2, bodyB);
    assert ops[2] == PostOp(3, bodyC);
    assert IntToString(1) == "1" && IntToString(2) == "2" && IntToString(3) == "3";
  }

  /** One POST appended to the batch through the Builder: id, url, headers, method, then the
      body. A body that fails leaves the batch as it was. */
  method AppendPost(batch: BatchRequest, id: int, sysId: Option<string>, group: Obj,
                    writeJson: map<string, string> -> Result<string>) returns (o: Outcome)
    modifies batch
    ensures batch.batchRequestId == old(batch.batchRequestId)
    ensures var body := MembershipBody(sysId, group, writeJson);
      body.Success? ==> o == Pass && batch.requests == old(batch.requests) + [PostOp(id, body.value)]
    ensures var body := MembershipBody(sysId, group, writeJson);
      body.Failure? ==> o == Fail(body.error) && batch.requests == old(batch.requests)
  {
    var builder := new Builder();
    var b := builder.Id(Some(IntToString(id)));
    b := builder.Url(Some(MembershipUrl));
    b := builder.Headers(Some(DefaultHttpHeaders));
    b := builder.Method(Some("POST"));
    var text := ToString(group);
    if text.Failure? {
      return Fail(text.error);
    }
    if sysId.None? || text.value.None? {
      return Fail(NullPointer);
    }
    var withBody := builder.Body(writeJson(map["user" := sysId.value, "group" := text.value.value]));
    if withBody.Failure? {
      return Fail(withBody.error);
    }
    var op := builder.Build();
    batch.Add(op);
    return Pass;
  }

  /** One DELETE appended to the batch through the Builder: id, url, headers, method. */
  method AppendDelete(batch: BatchRequest, id: int, membership: Option<string>)
    modifies batch
    ensures batch.batchRequestId == old(batch.batchRequestId)
    ensures batch.requests == old(batch.requests) + [DeleteOp(id, membership)]
  {
    var builder := new Builder();
    var b := builder.Id(Some(IntToString(id)));
    b := builder.Url(Some(MembershipUrl + "/" + JavaString(membership)));
    b := builder.Headers(Some(DefaultHttpHeaders));
    b := builder.Method(Some("DELETE"));
    var op := builder.Build();
    batch.Add(op);
  }

  /** The forEach over the groups: one POST per group, numbered from `counter`. The first group
      that fails is rethrown through wrapGeneralError with the message `context`. */
  method AddPosts(batch: BatchRequest, counter: int, sysId: Option<string>, groups: seq<Obj>,
                  writeJson: map<string, string> -> Result<string>, context: string)
    returns (next: int, o: Outcome)
    modifies batch
    ensures batch.batchRequestId == old(batch.batchRequestId)
    ensures var bodies := MembershipBodies(sysId, groups, writeJson);
      bodies.Success? ==>
        (o == Pass && next == counter + |groups| && batch.requests == old(batch.requests) + Posts(counter, bodies.value))
    ensures var bodies := MembershipBodies(sysId, groups, writeJson);
      bodies.Failure? ==> o == WrapGeneralError(context, bodies.error)
  {
    next := counter;
    var i := 0;
    ghost var done: seq<string> := [];
    while i < |groups|
      invariant 0 <= i <= |groups| && next == counter + i
      invariant MembershipBodies(sysId, groups[..i], writeJson) == Success(done)
      invariant batch.requests == old(batch.requests) + Posts(counter, done)
      invariant batch.batchRequestId == old(batch.batchRequestId)
    {
      var r := AppendPost(batch, next, sysId, groups[i], writeJson);
      if r.Fail? {
        BodiesStep(sysId, groups, writeJson, i);
        MembershipBodiesStop(sysId, groups, writeJson, i + 1);
        return next, WrapGeneralError(context, r.error);
      }
      ghost var body := MembershipBody(sysId, groups[i], writeJson).value;
      BodiesStep(sysId, groups, writeJson, i);
      PostsSnoc(counter, done, body);
      done := done + [body];
      next := next + 1;
      i := i + 1;
    }
    assert groups[..i] == groups;
    o := Pass;
  }

  /** The forEach over the existing memberships: one DELETE each, numbered from `counter`. */
  method AddDeletes(batch: BatchRequest, counter: int, memberships: seq<Option<string>>) returns (next: int)
    modifies batch
    ensures batch.batchRequestId == old(batch.batchRequestId)
    ensures next == counter + |memberships|
    ensures batch.requests == old(batch.requests) + Deletes(counter, memberships)
  {
    next := counter;
    for i := 0 to |memberships|
      invariant next == counter + i
      invariant batch.requests == old(batch.requests) + Deletes(counter, memberships[..i])
      invariant batch.batchRequestId == old(batch.batchRequestId)
    {
      AppendDelete(batch, next, memberships[i]);
      assert Deletes(counter, memberships[..i + 1]) == Deletes(counter, memberships[..i]) + [DeleteOp(next, memberships[i])];
      next := next + 1;
    }
    assert memberships[..|memberships|] == memberships;
  }

  /** The membership batch of create: a POST per value of `__GROUPS__` (None when the attribute is
      absent) for the new record's sys_id. `submit` says whether executeBatch is called: only for a
      batch with operations. */
  method CreateMembershipBatch(batchId: string, sysId: Option<string>, groups: Option<seq<Obj>>,
                               writeJson: map<string, string> -> Result<string>, username: Option<string>)
    returns (batch: BatchRequest, o: Outcome, submit: bool)
    ensures fresh(batch) && batch.batchRequestId == Some(batchId)
    ensures var bodies := MembershipBodies(sysId, groups.GetOr([]), writeJson);
      bodies.Success? ==> o == Pass && batch.requests == MembershipOps([], bodies.value)
    ensures var bodies := MembershipBodies(sysId, groups.GetOr([]), writeJson);
      bodies.Failure? ==> o == WrapGeneralError("Could not create user-group memberships : " + JavaString(username), bodies.error)
    ensures submit <==> o.Pass? && |batch.requests| > 0
  {
    batch := new BatchRequest(Some(batchId));
    var counter := 1;
    o := Pass;
    if groups.Some? {
      counter, o := AddPosts(batch, counter, sysId, groups.value, writeJson,
                             "Could not create user-group memberships : " + JavaString(username));
    } else {
      assert MembershipBodies(sysId, [], writeJson) == Success([]);
    }
    submit := o.Pass? && |batch.requests| > 0;
  }

  /** The membership batch of update: a DELETE for every membership the user has now, then a POST
      per value of `__GROUPS__`, on one counter. Nothing is diffed: every membership is replaced. */
  method UpdateMembershipBatch(batchId: string, sysId: Option<string>, memberships: seq<Option<string>>,
                               groups: Option<seq<Obj>>, writeJson: map<string, string> -> Result<string>,
                               username: Option<string>)
    returns (batch: BatchRequest, o: Outcome, submit: bool)
    ensures fresh(batch) && batch.batchRequestId == Some(batchId)
    ensures var bodies := MembershipBodies(sysId, groups.GetOr([]), writeJson);
      bodies.Success? ==> o == Pass && batch.requests == MembershipOps(memberships, bodies.value)
    ensures var bodies := MembershipBodies(sysId, groups.GetOr([]), writeJson);
      bodies.Failure? ==> o == WrapGeneralError("While creating user-group memberships on update: " + JavaString(username), bodies.error)
    ensures submit <==> o.Pass? && |batch.requests| > 0
  {
    batch := new BatchRequest(Some(batchId));
    var counter := AddDeletes(batch, 1, memberships);
    o := Pass;
    if groups.Some? {
      counter, o := AddPosts(batch, counter, sysId, groups.value, writeJson,
                             "While creating user-group memberships on update: " + JavaString(username));
    } else {
      assert MembershipBodies(sysId, [], writeJson) == Success([]);
    }
    submit := o.Pass? && |batch.requests| > 0;
  }

  /** An empty batch is never submitted: the batch goes out exactly when there is a membership to
      remove or a group to add. */
  lemma SubmitWhenNonEmpty(memberships: seq<Option<string>>, bodies: seq<string>)
    ensures |MembershipOps(memberships, bodies)| > 0 <==> |memberships| > 0 || |bodies| > 0
  {
  }
}
