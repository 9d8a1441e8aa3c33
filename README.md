# ServiceNow connector for ConnId, in Dafny

This project models the core of the ConnId ServiceNow connector (Tirasa ConnIdServiceNowBundle),
which manages ServiceNow users (`sys_user`), groups (`sys_user_group`) and their memberships
(`sys_user_grmember`) through the ServiceNow Table API. It proves properties of the model.

The model covers these parts:

- **Name translation** (`SNUtils`). Names convert between the service's snake_case (`user_name`)
  and the connector's camelCase field names (`userName`). The error helpers always throw, and
  there is an emptiness test.
- **Field mapper** (`Resource`, `SNAttributes`, `SNComplex`, `SNComplexDeserializer`).
  - A record carries 125 fields. Each field is a String or a reference to another record.
  - `toAttributes` turns a record into ConnId attributes, and `fromAttributes` goes the other way.
  - `asMapAttributeField` gives the JSON-name-to-field map.
  - The attribute builder turns one field value into attribute values.
  - A reference `{link, value}` is read from the Table API's JSON, and the connector writes it back as its `value` alone.
- **Responses** (`DetectHtml`, `SNService`).
  - The HTML-detection regular expression is a derivative matcher, proved equal to "some substring matches".
  - Responses are classified by HTTP status (section 15 of RFC 9110), media type and body.
  - The `{"result": ...}` envelope is handled on GET, create and update.
  - Request paths are joined like CXF's `WebClient.path`.
- **Client** (`SNClient`). It covers the query parameters of the listings, the record paths, the
  sys_id precondition of an update, and the decoding of answers.
- **Batches** (`BatchOperation`, `BatchRequest`). The Builder shares one instance across all its
  steps. A body is Base64 (section 4 of RFC 4648) of the UTF-8 octets (RFC 3629) of its JSON text,
  and both encodings are proved to round-trip.
- **Connector** (`SNConnector`).
  - Object classes are routed to tables, and inputs are guarded.
  - The paging cookie is offset arithmetic, including a count of the pages a full scan reads.
  - The equality lookups, the display-name rules, and the projection of a record onto the requested attributes.
  - The membership batch: DELETEs of the current memberships, then one POST per group, numbered "1", "2", ….
- **Configuration** (`SNConnectorConfiguration`). `validate` runs three ordered non-blank checks.

Several inputs are parameters rather than models:

- The HTTP exchange: a response is a value holding its status, an "HTML media type" flag, its body and its `x-total-count` header.
- Jackson parsing and writing.
- The batch id (a random UUID in the source).
- The memberships a user currently has.

Java's reflection over the declared fields is replaced by a field table
(`ResourceFields.Fields`). The translation is specified for any table with the properties
`ResourceDto.GoodTable` states, and the table is proved to have them (`ResourceDto.FieldsGood`).

Each Java file is one module. A class whose fields the source updates in place is a Dafny class
with `modifies` clauses: `Resource`, `SNComplex`, `BatchOperation` and its `Builder`,
`BatchRequest`, `SNConnectorConfiguration` and the `WebClient` path and query. Every loop of the
source is a method proved against a specification function.

Where the documented behaviour of the connector and its code disagree, the model follows the code:

- **Null fields in `toAttributes`.** A field holding null still yields an attribute. The attribute has the field's name and no values; the field is not left out.
- **Boolean-typed fields in `toAttributes`.** No declared field is boolean-typed: `active` and the others are Strings. So every value is emitted as a String.
- **Reference `case` labels in `fromAttributes`.** Six of the twelve labels are written in snake_case (`cost_center`, `opened_by`, `sys_domain`, `assignment_group`, `cmdb_ci`, `default_perspective`), so no camelCase name can ever match them. Those fields, and `caller_id`, are never set from a String. Likewise six of the eleven `case` labels in `toAttributes` are written in snake_case and never match; only the other five unwrap a reference.
- **Page count.** Paging through N records with page size p reads N / p + 1 pages. When p divides N, the last page read is empty. The documented behaviour is ceil(N / p) pages (`SNConnector.PagingReadsAllPages`).

## Model

| member | source | states |
|---|---|---|
| SNUtils.HandleGeneralError | src/main/java/net/tirasa/connid/bundles/servicenow/utils/SNUtils.java:41-44 | always fails, with a ConnectorException carrying the message |
| SNUtils.WrapGeneralError | src/main/java/net/tirasa/connid/bundles/servicenow/utils/SNUtils.java:51-54 | always fails; a ConnectorException is rethrown as is, anything else is wrapped in one |
| SNUtils.IsEmptyObject | src/main/java/net/tirasa/connid/bundles/servicenow/utils/SNUtils.java:56-60 | true exactly for null, an empty list or a blank string; a string with a non-whitespace character is not empty |
| SNUtils.FromUnderscoredToCamelCase | src/main/java/net/tirasa/connid/bundles/servicenow/utils/SNUtils.java:62-72 | the accumulating loop computes the conversion: the input unchanged without `_` or with `__`, otherwise the capitalised parts of `split("_")` with the first letter lower-cased; an empty part throws |
| SNUtils.CamelToUnderscored | src/main/java/net/tirasa/connid/bundles/servicenow/utils/SNUtils.java:74-76 | the result has no upper-case letter |
| SNUtils.CamelHasNoUnderscore | src/main/java/net/tirasa/connid/bundles/servicenow/utils/SNUtils.java:66-71 | a converted name contains no `_` |
| SNUtils.LeadingUnderscoreFails | src/main/java/net/tirasa/connid/bundles/servicenow/utils/SNUtils.java:67-68 | a leading `_` makes `substring(0, 1)` of an empty part throw |
| SNUtils.TrailingUnderscoreIgnored | src/main/java/net/tirasa/connid/bundles/servicenow/utils/SNUtils.java:67-68 | a trailing `_` is dropped by `split` and does not change the result |
| SNUtils.RoundTrip | src/main/java/net/tirasa/connid/bundles/servicenow/utils/SNUtils.java:62-76 | for names made of lower-case/digit parts, each later part starting with a letter and longer than one character, snake→camel gives the camelCase name and camel→snake gives back the snake_case name |
| SNUtils.UserNameExample | src/main/java/net/tirasa/connid/bundles/servicenow/utils/SNUtils.java:62-76 | `user_name` converts to `userName` and back |
| SNUtils.SingleLetterPartBreaksRoundTrip | src/main/java/net/tirasa/connid/bundles/servicenow/utils/SNUtils.java:74-76 | `a_b_c` becomes `aBC`, which converts back to `a_bc`: a run of capitals gets one `_` only |
| Complex.SNComplex.Empty | src/main/java/net/tirasa/connid/bundles/servicenow/dto/SNComplex.java:23-24 | a new reference has a null link and a null value |
| Complex.SNComplex.constructor | src/main/java/net/tirasa/connid/bundles/servicenow/dto/SNComplex.java:26-28 | the value is set and the link is null |
| Complex.SNComplex.SetLink | src/main/java/net/tirasa/connid/bundles/servicenow/dto/SNComplex.java:40-42 | changes the link only |
| Complex.SNComplex.SetValue | src/main/java/net/tirasa/connid/bundles/servicenow/dto/SNComplex.java:48-50 | changes the value only |
| Complex.SNComplex.ToString | src/main/java/net/tirasa/connid/bundles/servicenow/dto/SNComplex.java:52-56 | returns the value, possibly null |
| Complex.Serialize | src/main/java/net/tirasa/connid/bundles/servicenow/dto/SNComplex.java:52-56 | a reference is written as a JSON string exactly when its value is present (JSON null otherwise) |
| Complex.SerializeIgnoresLink | src/main/java/net/tirasa/connid/bundles/servicenow/dto/SNComplex.java:52-56 | the link is never written out |
| Complex.SettersAreIndependent | src/main/java/net/tirasa/connid/bundles/servicenow/dto/SNComplex.java:40-50 | setting the link and then the value leaves both as set |
| ComplexDeserializer.Deserialize | src/main/java/net/tirasa/connid/bundles/servicenow/utils/SNComplexDeserializer.java:36-51 | a string or any non-object token reads as null; an object reads as the `asText` of its `link` and `value`, and a missing member throws a NullPointerException |
| ComplexDeserializer.SerializeThenDeserializeDropsReference | src/main/java/net/tirasa/connid/bundles/servicenow/utils/SNComplexDeserializer.java:41-42 | what the connector writes for a reference never reads back as a reference |
| ComplexDeserializer.ObjectFormRoundTrip | src/main/java/net/tirasa/connid/bundles/servicenow/utils/SNComplexDeserializer.java:43-47 | the object form with two string members reads back as exactly those strings |
| ComplexDeserializer.NullMemberReadsAsNullText | src/main/java/net/tirasa/connid/bundles/servicenow/utils/SNComplexDeserializer.java:46-47 | a JSON null member is present and reads as the text "null" |
| SNAttributes.BuiltValues | src/main/java/net/tirasa/connid/bundles/servicenow/utils/SNAttributes.java:83-98 | null adds nothing; a boolean-typed field accepts only Booleans, added as they are; a list of two or more elements adds nothing; a one-element list adds its element's text and throws on a null element; a String adds itself |
| SNAttributes.DoBuildAttributeFromClassField | src/main/java/net/tirasa/connid/bundles/servicenow/utils/SNAttributes.java:79-103 | the builder holds exactly the values above and the name when it is not null; it fails exactly when the values do |
| SNAttributes.BuildFailsOnNullSingleton | src/main/java/net/tirasa/connid/bundles/servicenow/utils/SNAttributes.java:86-94 | on a field that is not boolean-typed the build fails exactly on a one-element list holding null, at any depth of nesting, and always with a NullPointerException |
| ResourceFields.TableOk | src/main/java/net/tirasa/connid/bundles/servicenow/dto/Resource.java:38-411 | for every declared field, camel→snake of the Java name is the JSON name and snake→camel of the JSON name is the Java name; JSON names are strictly sorted |
| ResourceFields.TableKindsOk | src/main/java/net/tirasa/connid/bundles/servicenow/dto/Resource.java:1492-1528 | every field a reachable `case` label of fromAttributes names is declared SNComplex |
| ResourceDto.FieldsGood | src/main/java/net/tirasa/connid/bundles/servicenow/dto/Resource.java:38-411 | the field table has every property the translation relies on |
| ResourceDto.JavaNameAt | src/main/java/net/tirasa/connid/bundles/servicenow/dto/Resource.java:1466 | the attribute name toAttributes gives a field is its JSON name |
| ResourceDto.JsonNameAt | src/main/java/net/tirasa/connid/bundles/servicenow/dto/Resource.java:1482-1488 | a field's JSON name is not skipped and converts to its Java name |
| ResourceDto.JsonNamesDistinct | src/main/java/net/tirasa/connid/bundles/servicenow/dto/Resource.java:38-411 | no two fields share a JSON name |
| ResourceDto.FieldIndex | src/main/java/net/tirasa/connid/bundles/servicenow/dto/Resource.java:1489 | getDeclaredField finds a field with that Java name, or reports that none has it |
| ResourceDto.FieldIndexOfJava | src/main/java/net/tirasa/connid/bundles/servicenow/dto/Resource.java:1489 | every field is found under its own Java name |
| ResourceDto.ToCasesWithoutUnderscore | src/main/java/net/tirasa/connid/bundles/servicenow/dto/Resource.java:1429-1463 | only the five labels of toAttributes written without `_` can match a field name |
| ResourceDto.FromCasesWithoutUnderscore | src/main/java/net/tirasa/connid/bundles/servicenow/dto/Resource.java:1492-1528 | only six of the twelve labels of fromAttributes can match a field name |
| ResourceDto.AttributesOfStopsAtFailure | src/main/java/net/tirasa/connid/bundles/servicenow/dto/Resource.java:1421-1467 | an exception of one field ends toAttributes with that exception |
| ResourceDto.AttributesOfTable | src/main/java/net/tirasa/connid/bundles/servicenow/dto/Resource.java:1421-1471 | toAttributes succeeds and emits one attribute per field, in order, named by its JSON name: a null field with no values, a String as itself, a reference as its value |
| ResourceDto.AttributeNamesDistinct | src/main/java/net/tirasa/connid/bundles/servicenow/dto/Resource.java:1419-1471 | the attributes number exactly the fields, and no two share a name |
| ResourceDto.ApplyAllStopsAtFailure | src/main/java/net/tirasa/connid/bundles/servicenow/dto/Resource.java:1476-1540 | once an exception escapes fromAttributes, later attributes change nothing |
| ResourceDto.ApplyKeepsShape | src/main/java/net/tirasa/connid/bundles/servicenow/dto/Resource.java:1492-1531 | applying one attribute keeps every field of its declared type |
| ResourceDto.ApplyChangesOneField | src/main/java/net/tirasa/connid/bundles/servicenow/dto/Resource.java:1488-1531 | one attribute changes at most the field its converted name designates |
| ResourceDto.ApplyByJsonName | src/main/java/net/tirasa/connid/bundles/servicenow/dto/Resource.java:1478-1536 | an attribute named by a field's JSON name sets that field by its kind: a new SNComplex for the six reachable labels, the first value for Strings, the field unchanged for a Boolean or for a String into another reference, null otherwise |
| ResourceDto.StoredOfEmitted | src/main/java/net/tirasa/connid/bundles/servicenow/dto/Resource.java:1429-1531 | a field's own emitted values stored into a null field leave what the round trip predicts |
| ResourceDto.RoundTripStep | src/main/java/net/tirasa/connid/bundles/servicenow/dto/Resource.java:1476-1531 | each emitted attribute, applied in order, extends the round trip by one field |
| ResourceDto.RoundTrip | src/main/java/net/tirasa/connid/bundles/servicenow/dto/Resource.java:1418-1540 | fromAttributes(toAttributes(r)) on a new record throws nothing, restores every String field, and restores no link |
| ResourceDto.ApplyAllKeepsShape | src/main/java/net/tirasa/connid/bundles/servicenow/dto/Resource.java:1476-1540 | fromAttributes keeps every field of its declared type, whatever the attributes |
| ResourceDto.BuildAttributes | src/main/java/net/tirasa/connid/bundles/servicenow/dto/Resource.java:1421-1471 | the loop over the declared fields computes the toAttributes specification |
| ResourceDto.ApplyOne | src/main/java/net/tirasa/connid/bundles/servicenow/dto/Resource.java:1478-1537 | the body of the fromAttributes loop computes the effect of one attribute |
| ResourceDto.ApplyAttributes | src/main/java/net/tirasa/connid/bundles/servicenow/dto/Resource.java:1477-1539 | the fromAttributes loop computes the in-order application that stops at the first exception |
| ResourceDto.NameMapEntries | src/main/java/net/tirasa/connid/bundles/servicenow/dto/Resource.java:1545-1551 | one entry per field, each JSON name mapped to its Java name |
| ResourceDto.NameMapLinked | src/main/java/net/tirasa/connid/bundles/servicenow/dto/Resource.java:1549 | each key converts to its value and back |
| ResourceDto.JsonToJava | src/main/java/net/tirasa/connid/bundles/servicenow/dto/Resource.java:1544-1551 | the loop builds the map of JSON names to Java names |
| ResourceDto.AsMapAttributeField | src/main/java/net/tirasa/connid/bundles/servicenow/dto/Resource.java:1543-1554 | 125 entries, each field's JSON name to its Java name, linked by both conversions |
| ResourceDto.SysIdField | src/main/java/net/tirasa/connid/bundles/servicenow/dto/Resource.java:38-39 | the `sys_id` field is the String `sysId` |
| ResourceDto.Resource.constructor | src/main/java/net/tirasa/connid/bundles/servicenow/dto/Resource.java:33-411 | a new record has every field null |
| ResourceDto.Resource.SysId | src/main/java/net/tirasa/connid/bundles/servicenow/dto/Resource.java:863-865 | returns the `sysId` field |
| ResourceDto.Resource.SetSysId | src/main/java/net/tirasa/connid/bundles/servicenow/dto/Resource.java:868-870 | sets `sysId` and changes no other field |
| ResourceDto.Resource.TextField | src/main/java/net/tirasa/connid/bundles/servicenow/dto/Resource.java:1128-1130 | a String getter returns its field |
| ResourceDto.Resource.SetTextField | src/main/java/net/tirasa/connid/bundles/servicenow/dto/Resource.java:1132-1134 | a String setter changes its field only |
| ResourceDto.Resource.UserName | src/main/java/net/tirasa/connid/bundles/servicenow/dto/Resource.java:1176-1178 | returns the `userName` field |
| ResourceDto.Resource.Name | src/main/java/net/tirasa/connid/bundles/servicenow/dto/Resource.java:1128-1130 | returns the `name` field |
| ResourceDto.Resource.SetName | src/main/java/net/tirasa/connid/bundles/servicenow/dto/Resource.java:1132-1134 | sets `name` only |
| ResourceDto.Resource.SetUserName | src/main/java/net/tirasa/connid/bundles/servicenow/dto/Resource.java:1180-1182 | sets `userName` only |
| ResourceDto.Resource.SetUserPassword | src/main/java/net/tirasa/connid/bundles/servicenow/dto/Resource.java:1028-1030 | sets `userPassword` only |
| ResourceDto.Resource.SetActive | src/main/java/net/tirasa/connid/bundles/servicenow/dto/Resource.java:666-668 | sets `active` only |
| ResourceDto.Resource.ToAttributes | src/main/java/net/tirasa/connid/bundles/servicenow/dto/Resource.java:1416-1472 | the attributes of the record's fields, as specified |
| ResourceDto.Resource.FromAttributes | src/main/java/net/tirasa/connid/bundles/servicenow/dto/Resource.java:1474-1540 | the fields after the attributes are applied in order, and the exception that escaped, if any |
| DetectHtml.FindCorrect | src/main/java/net/tirasa/connid/bundles/servicenow/service/DetectHtml.java:41 | the derivative-based search succeeds exactly when some substring matches |
| DetectHtml.IsHtmlCorrect | src/main/java/net/tirasa/connid/bundles/servicenow/service/DetectHtml.java:34-44 | isHtml is false for null, and otherwise true exactly when a substring is a start tag … end tag, a self-closing tag, or an entity |
| DetectHtml.IsHtmlMonotonic | src/main/java/net/tirasa/connid/bundles/servicenow/service/DetectHtml.java:41 | any text containing HTML text is HTML |
| DetectHtml.NoMarkupNotHtml | src/main/java/net/tirasa/connid/bundles/servicenow/service/DetectHtml.java:22-32 | text without `<` and `&` is never HTML |
| DetectHtml.LoneStartTagNotHtml | src/main/java/net/tirasa/connid/bundles/servicenow/service/DetectHtml.java:22-36 | `<b>` alone is not HTML |
| DetectHtml.PatternMinLength | src/main/java/net/tirasa/connid/bundles/servicenow/service/DetectHtml.java:22-36 | every match of the pattern is at least four characters long: an entity needs two name characters, a tag is at least `<a/>` |
| DetectHtml.ShortTextNotHtml | src/main/java/net/tirasa/connid/bundles/servicenow/service/DetectHtml.java:22-44 | no text shorter than four characters is HTML; `&a;`, whose entity has one name character, is one |
| DetectHtml.AmpEntityIsHtml | src/main/java/net/tirasa/connid/bundles/servicenow/service/DetectHtml.java:31-32 | `&amp;` is HTML |
| DetectHtml.MismatchedTagsAreHtml | src/main/java/net/tirasa/connid/bundles/servicenow/service/DetectHtml.java:22-26 | `<a></b>` is HTML: the end tag need not match the start tag |
| Base64.DecodeEncode | src/main/java/net/tirasa/connid/bundles/servicenow/dto/BatchOperation.java:130-131 | decoding the Base64 encoding gives back the octets |
| Utf8.DecodeEncode | src/main/java/net/tirasa/connid/bundles/servicenow/dto/BatchOperation.java:131 | decoding the UTF-8 encoding gives back the text |
| Utf8.EncodeInjective | src/main/java/net/tirasa/connid/bundles/servicenow/dto/BatchOperation.java:131 | different texts have different UTF-8 encodings |
| BatchOperationDto.EncodedBody | src/main/java/net/tirasa/connid/bundles/servicenow/dto/BatchOperation.java:128-131 | length 4·ceil(n/3) for n octets, Base64 alphabet plus `=`, decodes back to the UTF-8 octets and to the JSON text |
| BatchOperationDto.EncodedBodyInjective | src/main/java/net/tirasa/connid/bundles/servicenow/dto/BatchOperation.java:130-131 | different JSON texts give different bodies |
| BatchOperationDto.BatchOperation.constructor | src/main/java/net/tirasa/connid/bundles/servicenow/dto/BatchOperation.java:32-45 | a new operation has every field null |
| BatchOperationDto.BatchOperation.SetId | src/main/java/net/tirasa/connid/bundles/servicenow/dto/BatchOperation.java:92-94 | stores the id as given and nothing else |
| BatchOperationDto.BatchOperation.SetMethod | src/main/java/net/tirasa/connid/bundles/servicenow/dto/BatchOperation.java:100-102 | stores the method as given and nothing else |
| BatchOperationDto.BatchOperation.SetUrl | src/main/java/net/tirasa/connid/bundles/servicenow/dto/BatchOperation.java:108-110 | stores the url as given and nothing else |
| BatchOperationDto.BatchOperation.SetHeaders | src/main/java/net/tirasa/connid/bundles/servicenow/dto/BatchOperation.java:116-118 | stores the headers as given and nothing else |
| BatchOperationDto.BatchOperation.SetBodyText | src/main/java/net/tirasa/connid/bundles/servicenow/dto/BatchOperation.java:124-126 | stores a String body unencoded |
| BatchOperationDto.BatchOperation.SetBodyOf | src/main/java/net/tirasa/connid/bundles/servicenow/dto/BatchOperation.java:128-135 | stores the encoded JSON text; a serialization failure becomes a ConnectorException and leaves the body unchanged |
| BatchOperationDto.Builder.constructor | src/main/java/net/tirasa/connid/bundles/servicenow/dto/BatchOperation.java:47-49 | a new builder has no instance yet |
| BatchOperationDto.Builder.GetInstance | src/main/java/net/tirasa/connid/bundles/servicenow/dto/BatchOperation.java:51-56 | creates the instance on first use and returns the same one afterwards |
| BatchOperationDto.Builder.Id | src/main/java/net/tirasa/connid/bundles/servicenow/dto/BatchOperation.java:58-61 | sets the id on the shared instance and returns the builder |
| BatchOperationDto.Builder.Method | src/main/java/net/tirasa/connid/bundles/servicenow/dto/BatchOperation.java:63-66 | sets the method on the shared instance and returns the builder |
| BatchOperationDto.Builder.Url | src/main/java/net/tirasa/connid/bundles/servicenow/dto/BatchOperation.java:68-71 | sets the url on the shared instance and returns the builder |
| BatchOperationDto.Builder.Headers | src/main/java/net/tirasa/connid/bundles/servicenow/dto/BatchOperation.java:73-76 | sets the headers on the shared instance and returns the builder |
| BatchOperationDto.Builder.Body | src/main/java/net/tirasa/connid/bundles/servicenow/dto/BatchOperation.java:78-81 | always takes the encoding path, with its failure |
| BatchOperationDto.Builder.Build | src/main/java/net/tirasa/connid/bundles/servicenow/dto/BatchOperation.java:83-85 | returns the shared instance, holding every step so far |
| BatchOperationDto.BuildTwice | src/main/java/net/tirasa/connid/bundles/servicenow/dto/BatchOperation.java:83-85 | two builds return the same instance |
| BatchRequestDto.BatchRequest.constructor | src/main/java/net/tirasa/connid/bundles/servicenow/dto/BatchRequest.java:28-33 | sets the id; the operations start empty |
| BatchRequestDto.BatchRequest.SetBatchRequestId | src/main/java/net/tirasa/connid/bundles/servicenow/dto/BatchRequest.java:39-41 | changes the id only |
| BatchRequestDto.BatchRequest.Add | src/main/java/net/tirasa/connid/bundles/servicenow/dto/BatchRequest.java:43-45 | appending to the live list adds the operation at the end |
| SNService.TableNamesDistinct | src/main/java/net/tirasa/connid/bundles/servicenow/service/SNService.java:51-56 | the three tables have distinct names |
| SNService.JoinPath | src/main/java/net/tirasa/connid/bundles/servicenow/service/SNService.java:70-71 | a path segment is appended with exactly one `/` at the joint: one is added when neither side has one, one is dropped when both have one, and otherwise the two are concatenated |
| SNService.TablePathIs | src/main/java/net/tirasa/connid/bundles/servicenow/service/SNService.java:70-71 | a table's path is `/api/now/table/<table>` |
| SNService.OpPathIs | src/main/java/net/tirasa/connid/bundles/servicenow/service/SNService.java:90-91 | an operation's path is `/api/now/v1/<op>` |
| SNService.WebClient.Path | src/main/java/net/tirasa/connid/bundles/servicenow/service/SNService.java:70-71 | appends a segment to the path, query unchanged |
| SNService.WebClient.Query | src/main/java/net/tirasa/connid/bundles/servicenow/service/SNService.java:75 | sets one query parameter, path unchanged |
| SNService.AddQuery | src/main/java/net/tirasa/connid/bundles/servicenow/service/SNService.java:73-77 | the loop adds every parameter |
| SNService.GetTableWebClient | src/main/java/net/tirasa/connid/bundles/servicenow/service/SNService.java:62-80 | a client on the table's path, carrying exactly the parameters given |
| SNService.GetOpWebClient | src/main/java/net/tirasa/connid/bundles/servicenow/service/SNService.java:82-100 | a client on the operation's path, carrying exactly the parameters given |
| SNService.CheckServiceErrors | src/main/java/net/tirasa/connid/bundles/servicenow/service/SNService.java:212-228 | no response and any status but 200/201/202 are general errors, 404 is NoSuchEntity with the body, an accepted response with an HTML media type or body is a general error; each general error carries its own message and the body; otherwise exactly the body is returned |
| SNService.NoContentIsError | src/main/java/net/tirasa/connid/bundles/servicenow/service/SNService.java:220-223 | 204 is an error on this path |
| SNService.DoDelete | src/main/java/net/tirasa/connid/bundles/servicenow/service/SNService.java:204-210 | passes exactly on 204 or 200, NoSuchEntity otherwise |
| SNService.DoGet | src/main/java/net/tirasa/connid/bundles/servicenow/service/SNService.java:102-123 | errors of the response pass through; unparsable text gives null; an array `result` keeps the envelope and gains `totalCount` exactly from a non-blank header, other members unchanged; another `result` is unwrapped |
| SNService.CreatedSysId | src/main/java/net/tirasa/connid/bundles/servicenow/service/SNService.java:129-146 | succeeds exactly when `result.sys_id` is present and not null, giving its text |
| SNService.DoCreate | src/main/java/net/tirasa/connid/bundles/servicenow/service/SNService.java:125-147 | on success the caller's record carries the new sys_id and nothing else changes; on failure it is unchanged |
| SNService.DoUpdate | src/main/java/net/tirasa/connid/bundles/servicenow/service/SNService.java:177-202 | the non-null `result` member, or the response's error or a general error |
| SNClient.PagingParams | src/main/java/net/tirasa/connid/bundles/servicenow/service/SNClient.java:59-68 | `sysparm_offset` always, `sysparm_limit` exactly when a count is given, `rel` prev/next by direction; a null direction throws |
| SNClient.PagedQuery | src/main/java/net/tirasa/connid/bundles/servicenow/service/SNClient.java:55-69 | exactly `sysparm_offset` (String.valueOf, "null" for null), `rel`, and `sysparm_limit` when a count is given; a null direction throws |
| SNClient.FilteredQuery | src/main/java/net/tirasa/connid/bundles/servicenow/service/SNClient.java:78-81 | exactly `sysparm_query`, holding the filter verbatim |
| SNClient.FilteredPagedQuery | src/main/java/net/tirasa/connid/bundles/servicenow/service/SNClient.java:93-109 | exactly `sysparm_query`, `sysparm_offset`, `rel`, and `sysparm_limit` when a count is given; a null direction throws |
| SNClient.FilteredPageAddsQuery | src/main/java/net/tirasa/connid/bundles/servicenow/service/SNClient.java:93-110 | the filtered page has the plain page's parameters plus `sysparm_query`, verbatim |
| SNClient.TestServiceQuery | src/main/java/net/tirasa/connid/bundles/servicenow/service/SNClient.java:159-161 | the test asks for offset 0, limit 1, `next` |
| SNClient.RecordClient | src/main/java/net/tirasa/connid/bundles/servicenow/service/SNClient.java:118-121 | a record is addressed below its table's path, without query |
| SNClient.RecordPathIs | src/main/java/net/tirasa/connid/bundles/servicenow/service/SNClient.java:148-152 | a record's path is `/api/now/table/<table>/<id>` |
| SNClient.DoGetResources | src/main/java/net/tirasa/connid/bundles/servicenow/service/SNClient.java:163-178 | the decoded page, or an error: never null |
| SNClient.DoGetResource | src/main/java/net/tirasa/connid/bundles/servicenow/service/SNClient.java:180-194 | the decoded record, or an error: never null |
| SNClient.UpdateResource | src/main/java/net/tirasa/connid/bundles/servicenow/service/SNClient.java:196-215 | a blank sys_id fails first; otherwise the decoded PATCH answer, or an error |
| SNClient.BlankSysIdSendsNothing | src/main/java/net/tirasa/connid/bundles/servicenow/service/SNClient.java:197-199 | with a blank sys_id the answer plays no part |
| SNClient.CreateResource | src/main/java/net/tirasa/connid/bundles/servicenow/service/SNClient.java:217-220 | returns the very record it was given, carrying the new sys_id with every other field kept; on failure the record is untouched |
| SNClient.TestService | src/main/java/net/tirasa/connid/bundles/servicenow/service/SNClient.java:159-161 | true exactly when the page arrives; never false |
| ConnectorConfiguration.Decrypt | src/main/java/net/tirasa/connid/bundles/servicenow/SNConnectorConfiguration.java:78 | the clear text, or a NullPointerException for a null password |
| ConnectorConfiguration.SNConnectorConfiguration.constructor | src/main/java/net/tirasa/connid/bundles/servicenow/SNConnectorConfiguration.java:34-38 | every setting starts null |
| ConnectorConfiguration.SNConnectorConfiguration.GetBaseAddress | src/main/java/net/tirasa/connid/bundles/servicenow/SNConnectorConfiguration.java:42-44 | returns the base address |
| ConnectorConfiguration.SNConnectorConfiguration.SetBaseAddress | src/main/java/net/tirasa/connid/bundles/servicenow/SNConnectorConfiguration.java:46-48 | the getter returns what was set; the other settings are unchanged |
| ConnectorConfiguration.SNConnectorConfiguration.GetUsername | src/main/java/net/tirasa/connid/bundles/servicenow/SNConnectorConfiguration.java:52-54 | returns the user name |
| ConnectorConfiguration.SNConnectorConfiguration.SetUsername | src/main/java/net/tirasa/connid/bundles/servicenow/SNConnectorConfiguration.java:56-58 | the getter returns what was set; the other settings are unchanged |
| ConnectorConfiguration.SNConnectorConfiguration.GetPassword | src/main/java/net/tirasa/connid/bundles/servicenow/SNConnectorConfiguration.java:62-64 | returns the password |
| ConnectorConfiguration.SNConnectorConfiguration.SetPassword | src/main/java/net/tirasa/connid/bundles/servicenow/SNConnectorConfiguration.java:66-68 | the getter returns what was set; the other settings are unchanged |
| ConnectorConfiguration.SNConnectorConfiguration.Validate | src/main/java/net/tirasa/connid/bundles/servicenow/SNConnectorConfiguration.java:70-81 | base address, then user name, then decrypted password must be non-blank; the first failure is reported; passes exactly when all three are non-blank |
| ConnectorConfiguration.ConfiguredPasses | src/main/java/net/tirasa/connid/bundles/servicenow/SNConnectorConfiguration.java:70-81 | three non-blank settings validate, whatever order the setters run in and however often each runs, provided each runs at least once |
| SNConnector.AccountIsNotGroup | src/main/java/net/tirasa/connid/bundles/servicenow/SNConnector.java:502-510 | no object class is both ACCOUNT and GROUP |
| SNConnector.SetResourceType | src/main/java/net/tirasa/connid/bundles/servicenow/SNConnector.java:502-510 | ACCOUNT ↦ sys_user, GROUP ↦ sys_user_group, anything else ↦ null, each an if-and-only-if; never the membership table |
| SNConnector.SupportedTable | src/main/java/net/tirasa/connid/bundles/servicenow/SNConnector.java:232-236 | the table, or UnsupportedOperationException naming the operation and object class |
| SNConnector.CheckAttributes | src/main/java/net/tirasa/connid/bundles/servicenow/SNConnector.java:243-245 | passes exactly for a non-null, non-empty attribute set |
| SNConnector.DeleteTarget | src/main/java/net/tirasa/connid/bundles/servicenow/SNConnector.java:325-337 | a blank uid fails first, then a null object class, then an unsupported one |
| SNConnector.ChosenName | src/main/java/net/tirasa/connid/bundles/servicenow/SNConnector.java:252-256 | `name`, or `__NAME__` only when `user_name` and `name` are both blank |
| SNConnector.DisplayName | src/main/java/net/tirasa/connid/bundles/servicenow/SNConnector.java:472 | the user name unless blank, then the name |
| SNConnector.DisplayNameAfterCreate | src/main/java/net/tirasa/connid/bundles/servicenow/SNConnector.java:252-262 | a record created with a user name is displayed by it; one without, by the chosen name |
| SNConnector.ReadStatus | src/main/java/net/tirasa/connid/bundles/servicenow/SNConnector.java:270-277 | no status for a missing or empty `__ENABLE__`; otherwise the toString of the first value (a String itself, a Boolean "true"/"false"), failing exactly on null |
| SNConnector.PrepareCreate | src/main/java/net/tirasa/connid/bundles/servicenow/SNConnector.java:260-284 | sets name, user name, password when given, and active from the status; a status failure is wrapped with the create message |
| SNConnector.PrepareUpdate | src/main/java/net/tirasa/connid/bundles/servicenow/SNConnector.java:373-385 | sets the sys_id, and the user name to the chosen name (the second call wins); a status failure escapes unwrapped |
| SNConnector.JavaSize | src/main/java/net/tirasa/connid/bundles/servicenow/SNConnector.java:177-178 | the list size, or Integer.MAX_VALUE when the list is longer |
| SNConnector.RequestedOffset | src/main/java/net/tirasa/connid/bundles/servicenow/SNConnector.java:167-189 | no page size: everything; a non-blank cookie: its number, which must parse; otherwise offset 0 |
| SNConnector.NextCookie | src/main/java/net/tirasa/connid/bundles/servicenow/SNConnector.java:172-186 | null after a short page; after a full one, `size` with no cookie and the int sum `cookie + size` with one |
| SNConnector.Search | src/main/java/net/tirasa/connid/bundles/servicenow/SNConnector.java:164-201 | paged: succeeds exactly when the cookie parses, the page is fetched and the next cookie is computed, and then gives the page, the next cookie and -1; unpaged: succeeds exactly when the listing is fetched, and gives every record, the caller's cookie and -1; every exception wrapped |
| SNConnector.UnpagedSearchKeepsCookie | src/main/java/net/tirasa/connid/bundles/servicenow/SNConnector.java:188-200 | without a page size a null cookie stays null and the remaining count is -1 |
| SNConnector.CookieStep | src/main/java/net/tirasa/connid/bundles/servicenow/SNConnector.java:172-186 | the cookie for an offset fetches that offset, and a full page hands back the cookie of the next one |
| SNConnector.PagesFromCount | src/main/java/net/tirasa/connid/bundles/servicenow/SNConnector.java:172-186 | following cookies from an offset ends at the page containing the end of the records |
| SNConnector.SearchFollowsCookie | src/main/java/net/tirasa/connid/bundles/servicenow/SNConnector.java:164-201 | a search from the cookie of an offset hands over the page served there and the cookie of the next page, or null after the last page |
| SNConnector.PagingReadsAllPages | src/main/java/net/tirasa/connid/bundles/servicenow/SNConnector.java:172-186 | a full scan reads N / p + 1 pages, the last one holding N mod p records and alone handing back null |
| SNConnector.FindByName | src/main/java/net/tirasa/connid/bundles/servicenow/SNConnector.java:211-226 | the first record whose `name` matches; for accounts with none, the first whose `user_name` matches |
| SNConnector.Lookup | src/main/java/net/tirasa/connid/bundles/servicenow/SNConnector.java:202-230 | by `__UID__` or `sys_id` the record of that id, by `__NAME__` the name lookup, by any other key nothing |
| SNConnector.SelectedMembers | src/main/java/net/tirasa/connid/bundles/servicenow/SNConnector.java:476-484 | exactly the attributes whose name was asked for are kept |
| SNConnector.Project | src/main/java/net/tirasa/connid/bundles/servicenow/SNConnector.java:476-484 | the nested loop keeps the asked-for attributes, in order |
| SNConnector.FromResource | src/main/java/net/tirasa/connid/bundles/servicenow/SNConnector.java:465-487 | the object class, sys_id as uid, the display name, and the asked-for attributes of toAttributes |
| SNConnector.MembershipBody | src/main/java/net/tirasa/connid/bundles/servicenow/SNConnector.java:297-298 | the JSON of `{user, group}`, failing exactly on a null sys_id, a null group or a serialization failure |
| SNConnector.MembershipBodies | src/main/java/net/tirasa/connid/bundles/servicenow/SNConnector.java:291-302 | one body per group |
| SNConnector.MembershipOpsShape | src/main/java/net/tirasa/connid/bundles/servicenow/SNConnector.java:410-446 | ids run "1", "2", … in order; every DELETE precedes every POST; each POST body decodes to its JSON |
| SNConnector.MembershipIdsUnique | src/main/java/net/tirasa/connid/bundles/servicenow/SNConnector.java:411-440 | no two operations share an id |
| SNConnector.ReplaceOneGroupByTwo | src/main/java/net/tirasa/connid/bundles/servicenow/SNConnector.java:410-446 | replacing one group by two gives DELETE "1", POST "2", POST "3" |
| SNConnector.AppendPost | src/main/java/net/tirasa/connid/bundles/servicenow/SNConnector.java:293-298 | appends the POST with its body, or leaves the batch unchanged on failure |
| SNConnector.AppendDelete | src/main/java/net/tirasa/connid/bundles/servicenow/SNConnector.java:417-424 | appends the DELETE of the membership |
| SNConnector.AddPosts | src/main/java/net/tirasa/connid/bundles/servicenow/SNConnector.java:289-303 | the loop appends one POST per group from the counter, or fails with the wrapped error of the first bad group |
| SNConnector.AddDeletes | src/main/java/net/tirasa/connid/bundles/servicenow/SNConnector.java:414-428 | the loop appends one DELETE per membership from the counter |
| SNConnector.CreateMembershipBatch | src/main/java/net/tirasa/connid/bundles/servicenow/SNConnector.java:287-310 | the POSTs numbered from "1"; submitted exactly when it passes and is not empty |
| SNConnector.UpdateMembershipBatch | src/main/java/net/tirasa/connid/bundles/servicenow/SNConnector.java:410-450 | the DELETEs then the POSTs on one counter; submitted exactly when it passes and is not empty |
| SNConnector.SubmitWhenNonEmpty | src/main/java/net/tirasa/connid/bundles/servicenow/SNConnector.java:448-450 | a batch has operations exactly when there is a membership to remove or a group to add |

## Left out

- HTTP transport: CXF `WebClient`, basic authentication, the PATCH invocation and the async-conduit flag. A response is an input value, and a `WebClient` is only its path and query.
- Jackson: parsing and writing JSON are function parameters. The key order of the `{user, group}` map is unspecified, so the model never states the bytes of a body, only its round trip.
- Reflection: the declared fields are a static table (`ResourceFields.Fields`). The reflective `set` is modelled by its observable outcome per field kind.
- `executeBatch` and `getMembershipResources`: they are external calls. The memberships a user has are an input, and whether the batch is submitted is an output.
- The batch-response constants and `PagedResults` beyond the list of records.
- Schema building (`SNAttributes.buildSchema`), `ConnectorObjectBuilder` and `AttributesAccessor`: the attribute values they would find are inputs.
- `SecurityUtil` and `GuardedString`: a password is its clear text, and a null one makes decrypt throw.
- `getConnectorMessages`: `validate` reports the message key.
- Logging.
- `UUID.randomUUID`: the batch id is a parameter.
- The `AtomicInteger`: it is a plain counter.
- Unicode case mapping: `toUpperCase`, `toLowerCase` and `equalsIgnoreCase` are restricted to ASCII.
- The connector lifecycle (`init`, `dispose`, `test`, `schema`, `createFilterTranslator`) and the handler callbacks of `executeQuery`.
- `release` is modelled with an empty body and no frame, so it changes nothing.
- SNConnector.FromResource: the `__GROUPS__` lookup of a user's memberships goes through `getMembershipResources`, which is external, and is not modelled.
- SNConnector.PrepareCreate: `create` and `update` then call a two-argument `fromAttributes(attributes, baseAddress)`. Resource.java declares only the one-argument form, which `Resource.FromAttributes` models. The call from `create` and `update` into it is not modelled.
- SNClient.RecordClient: SNClient calls `getWebclient(type, params)`, which SNService.java does not declare. The model uses `SNService.GetTableWebClient` (SNService.java:62-80) in its place, for the listings and the single-record paths alike.
- BatchRequestDto.BatchRequest.Add: the list holds a snapshot of the operation's fields rather than the reference. Changes made to an operation after it is added are not reflected; the connector makes none.
- ResourceDto.Resource: a record holds its SNComplex references by value (`Reference`). Aliasing of one SNComplex between records is not modelled.
- ResourceDto.Resource.ToAttributes: the set of attributes is a sequence in field order. HashSet order is not modelled, and the attribute names are proved distinct.
- SNConnector.Project: `attributesToGet` is a set. Its iteration order is arbitrary in the model, as in a HashSet, and it does not change the result.
- The 123 field setters and getters other than those of `sysId`, `name`, `userName`, `userPassword` and `active`: they are represented by the generic `TextField` and `SetTextField`.
- JavaText.IsBlank: ConnId's `StringUtil.isBlank` is not part of this model. Blankness is modelled as "null, or every character satisfies `Character.isWhitespace`", and it may differ from a `trim()`-based test on control characters and Unicode spaces.
- SNUtils.HandleGeneralError: the two-argument form `handleGeneralError(message, ex)` used by doCreate and doUpdate is modelled as the one-argument form. The exception's cause is not carried.
