/** The fields of Resource that Jackson maps (every field carrying @JsonProperty and not
    @JsonIgnore): for each one its JSON property name, its Java field name and its declared type.
    getDeclaredFields returns the fields in no particular order, so the table is kept sorted by
    JSON name; the order makes the distinctness of the names cheap to prove. */
module ResourceFields {
  import opened Wrappers
  import opened JavaText
  import opened SNUtils

  /** The declared type of a field: String, or SNComplex. */
  datatype Kind = Text | Ref

  datatype FieldSpec = FieldSpec(json: string, java: string, kind: Kind)

  const Chunk0: seq<FieldSpec> := [
    FieldSpec("active", "active", Text),
    FieldSpec("activity_due", "activityDue", Text),
    FieldSpec("additional_assignee_list", "additionalAssigneeList", Text),
    FieldSpec("approval", "approval", Text),
    FieldSpec("approval_history", "approvalHistory", Text),
    FieldSpec("approval_set", "approvalSet", Text),
    FieldSpec("assigned_to", "assignedTo", Text),
    FieldSpec("assignment_group", "assignmentGroup", Ref)
  ]

  const Chunk1: seq<FieldSpec> := [
    FieldSpec("building", "building", Text),
    FieldSpec("business_duration", "businessDuration", Text),
    FieldSpec("business_service", "businessService", Text),
    FieldSpec("business_stc", "businessStc", Text),
    FieldSpec("calendar_duration", "calendarDuration", Text),
    FieldSpec("calendar_integration", "calendarIntegration", Text),
    FieldSpec("calendar_stc", "calendarStc", Text),
    FieldSpec("caller_id", "callerId", Ref)
  ]

  const Chunk2: seq<FieldSpec> := [
    FieldSpec("category", "category", Text),
    FieldSpec("caused_by", "causedBy", Text),
    FieldSpec("child_incidents", "childIncidents", Text),
    FieldSpec("city", "city", Text),
    FieldSpec("close_code", "closeCode", Text),
    FieldSpec("close_notes", "closeNotes", Text),
    FieldSpec("closed_at", "closedAt", Text),
    FieldSpec("closed_by", "closedBy", Text)
  ]

  const Chunk3: seq<FieldSpec> := [
    FieldSpec("cmdb_ci", "cmdbCi", Ref),
    FieldSpec("comments", "comments", Text),
    FieldSpec("comments_and_work_notes", "commentsAndWorkNotes", Text),
    FieldSpec("company", "company", Ref),
    FieldSpec("contact_type", "contactType", Text),
    FieldSpec("correlation_display", "correlationDisplay", Text),
    FieldSpec("correlation_id", "correlationId", Text),
    FieldSpec("cost_center", "costCenter", Ref)
  ]

  const Chunk4: seq<FieldSpec> := [
    FieldSpec("country", "country", Text),
    FieldSpec("date_format", "dateFormat", Text),
    FieldSpec("default_perspective", "defaultPerspective", Ref),
    FieldSpec("delivery_plan", "deliveryPlan", Text),
    FieldSpec("delivery_task", "deliveryTask", Text),
    FieldSpec("department", "department", Ref),
    FieldSpec("description", "description", Text),
    FieldSpec("due_date", "dueDate", Text)
  ]

  const Chunk5: seq<FieldSpec> := [
    FieldSpec("email", "email", Text),
    FieldSpec("employee_number", "employeeNumber", Text),
    FieldSpec("enable_multifactor_authn", "enableMultifactorAuthn", Text),
    FieldSpec("escalation", "escalation", Text),
    FieldSpec("expected_start", "expectedStart", Text),
    FieldSpec("failed_attempts", "failedAttempts", Text),
    FieldSpec("first_name", "firstName", Text),
    FieldSpec("follow_up", "followUp", Text)
  ]

  const Chunk6: seq<FieldSpec> := [
    FieldSpec("gender", "gender", Text),
    FieldSpec("group_list", "groupList", Text),
    FieldSpec("home_phone", "homePhone", Text),
    FieldSpec("impact", "impact", Text),
    FieldSpec("incident_state", "incidentState", Text),
    FieldSpec("internal_integration_user", "internalIntegrationUser", Text),
    FieldSpec("introduction", "introduction", Text),
    FieldSpec("knowledge", "knowledge", Text)
  ]

  const Chunk7: seq<FieldSpec> := [
    FieldSpec("last_login", "lastLogin", Text),
    FieldSpec("last_login_time", "lastLoginTime", Text),
    FieldSpec("last_name", "lastName", Text),
    FieldSpec("ldap_server", "ldapServer", Text),
    FieldSpec("location", "location", Ref),
    FieldSpec("locked_out", "lockedOut", Text),
    FieldSpec("made_sla", "madeSla", Text),
    FieldSpec("manager", "manager", Ref)
  ]

  const Chunk8: seq<FieldSpec> := [
    FieldSpec("middle_name", "middleName", Text),
    FieldSpec("mobile_phone", "mobilePhone", Text),
    FieldSpec("name", "name", Text),
    FieldSpec("notification", "notification", Text),
    FieldSpec("notify", "notify", Text),
    FieldSpec("number", "number", Text),
    FieldSpec("opened_at", "openedAt", Text),
    FieldSpec("opened_by", "openedBy", Ref)
  ]

  const Chunk9: seq<FieldSpec> := [
    FieldSpec("order", "order", Text),
    FieldSpec("parent", "parent", Ref),
    FieldSpec("parent_incident", "parentIncident", Text),
    FieldSpec("password_needs_reset", "passwordNeedsReset", Text),
    FieldSpec("phone", "phone", Text),
    FieldSpec("photo", "photo", Text),
    FieldSpec("preferred_language", "preferredLanguage", Text),
    FieldSpec("priority", "priority", Text)
  ]

  const Chunk10: seq<FieldSpec> := [
    FieldSpec("problem_id", "problemId", Text),
    FieldSpec("reassignment_count", "reassignmentCount", Text),
    FieldSpec("rejection_goto", "rejectionGoto", Text),
    FieldSpec("reopen_count", "reopenCount", Text),
    FieldSpec("resolved_at", "resolvedAt", Text),
    FieldSpec("resolved_by", "resolvedBy", Text),
    FieldSpec("rfc", "rfc", Text),
    FieldSpec("roles", "roles", Text)
  ]

  const Chunk11: seq<FieldSpec> := [
    FieldSpec("schedule", "schedule", Ref),
    FieldSpec("severity", "severity", Text),
    FieldSpec("short_description", "shortDescription", Text),
    FieldSpec("sla_due", "slaDue", Text),
    FieldSpec("source", "source", Text),
    FieldSpec("state", "state", Text),
    FieldSpec("street", "street", Text),
    FieldSpec("subcategory", "subcategory", Text)
  ]

  const Chunk12: seq<FieldSpec> := [
    FieldSpec("sys_class_name", "sysClassName", Text),
    FieldSpec("sys_created_by", "sysCreatedBy", Text),
    FieldSpec("sys_created_on", "sysCreatedOn", Text),
    FieldSpec("sys_domain", "sysDomain", Ref),
    FieldSpec("sys_domain_path", "sysDomainPath", Text),
    FieldSpec("sys_id", "sysId", Text),
    FieldSpec("sys_mod_count", "sysModCount", Text),
    FieldSpec("sys_tags", "sysTags", Text)
  ]

  const Chunk13: seq<FieldSpec> := [
    FieldSpec("sys_updated_by", "sysUpdatedBy", Text),
    FieldSpec("sys_updated_on", "sysUpdatedOn", Text),
    FieldSpec("time_format", "timeFormat", Text),
    FieldSpec("time_worked", "timeWorked", Text),
    FieldSpec("time_zone", "timeZone", Text),
    FieldSpec("title", "title", Text),
    FieldSpec("upon_approval", "uponApproval", Text),
    FieldSpec("upon_reject", "uponReject", Text)
  ]

  const Chunk14: seq<FieldSpec> := [
    FieldSpec("urgency", "urgency", Text),
    FieldSpec("user_input", "userInput", Text),
    FieldSpec("user_name", "userName", Text),
    FieldSpec("user_password", "userPassword", Text),
    FieldSpec("vip", "vip", Text),
    FieldSpec("watch_list", "watchList", Text),
    FieldSpec("web_service_access_only", "webServiceAccessOnly", Text),
    FieldSpec("wf_activity", "wfActivity", Text)
  ]

  const Chunk15: seq<FieldSpec> := [
    FieldSpec("work_end", "workEnd", Text),
    FieldSpec("work_notes", "workNotes", Text),
    FieldSpec("work_notes_list", "workNotesList", Text),
    FieldSpec("work_start", "workStart", Text),
    FieldSpec("zip", "zip", Text)
  ]

  /** The 125 mapped fields of Resource, sorted by JSON name. */
  const Fields: seq<FieldSpec> :=
    Chunk0 + Chunk1 + Chunk2 + Chunk3 + Chunk4 + Chunk5 + Chunk6 + Chunk7 + Chunk8 + Chunk9 + Chunk10 + Chunk11 + Chunk12 + Chunk13 + Chunk14 + Chunk15

  // ----- the order on names -----

  /** `a` comes strictly before `b` in the order of char codes, first differing at `k` (or `a`
      is a proper prefix of `b` of length `k`). */
  predicate NameBelowAt(a: string, b: string, k: nat) {
    k <= |a| && k < |b| && a[..k] == b[..k] && (k == |a| || a[k] < b[k])
  }

  ghost predicate NameBelow(a: string, b: string) {
    exists k: nat :: NameBelowAt(a, b, k)
  }

  lemma NameBelowTransitive(a: string, b: string, c: string)
    requires NameBelow(a, b) && NameBelow(b, c)
    ensures NameBelow(a, c)
  {
    var k1: nat :| NameBelowAt(a, b, k1);
    var k2: nat :| NameBelowAt(b, c, k2);
    if k1 <= k2 {
      assert c[..k1] == c[..k2][..k1];
      assert b[..k1] == b[..k2][..k1];
      assert NameBelowAt(a, c, k1);
    } else {
      assert a[..k2] == a[..k1][..k2];
      assert b[..k2] == b[..k1][..k2];
      assert a[k2] == a[..k1][k2] == b[..k1][k2] == b[k2];
      assert NameBelowAt(a, c, k2);
    }
  }

  lemma NameBelowIrreflexive(a: string)
    ensures !NameBelow(a, a)
  {
  }

  /** Each name strictly before the next one. */
  ghost predicate SortedByJson(fs: seq<FieldSpec>) {
    forall i :: 0 <= i < |fs| - 1 ==> NameBelow(fs[i].json, fs[i + 1].json)
  }

  lemma {:induction false} SortedBelow(fs: seq<FieldSpec>, i: nat, j: nat)
    requires SortedByJson(fs) && i < j < |fs|
    ensures NameBelow(fs[i].json, fs[j].json)
    decreases j - i
  {
    if i + 1 < j {
      SortedBelow(fs, i + 1, j);
      NameBelowTransitive(fs[i].json, fs[i + 1].json, fs[j].json);
    }
  }

  lemma SortedAppend(a: seq<FieldSpec>, b: seq<FieldSpec>)
    requires SortedByJson(a) && SortedByJson(b)
    requires |a| > 0 && |b| > 0 && NameBelow(a[|a| - 1].json, b[0].json)
    ensures SortedByJson(a + b)
  {
    var ab := a + b;
    forall i | 0 <= i < |ab| - 1
      ensures NameBelow(ab[i].json, ab[i + 1].json)
    {
      if i + 1 < |a| {
        assert ab[i] == a[i] && ab[i + 1] == a[i + 1];
      } else if i + 1 == |a| {
        assert ab[i] == a[|a| - 1] && ab[i + 1] == b[0];
      } else {
        assert ab[i] == b[i - |a|] && ab[i + 1] == b[i - |a| + 1];
      }
    }
  }

  // ----- what each entry satisfies -----

  /** equalsIgnoreCase, restricted to ASCII case. */
  predicate EqualsIgnoreCase(a: string, b: string) {
    LowerString(a) == LowerString(b)
  }

  /** The two conversions link the entry's names; the Java name has no `_`; the JSON name has
      no `__` and is not `memberOf` in any case, so fromAttributes does not skip it. */
  predicate EntryOk(f: FieldSpec) {
    && UnderscoredToCamel(f.json) == Success(f.java)
    && CamelToUnderscored(f.java) == f.json
    && '_' !in f.java
    && !HasDoubleUnderscore(f.json)
    && !EqualsIgnoreCase(f.json, "memberOf")
  }

  predicate AllOk(fs: seq<FieldSpec>) {
    forall i :: 0 <= i < |fs| ==> EntryOk(fs[i])
  }

  /** The `case` labels of the switch in toAttributes, as written. */
  const ToAttributesCases: set<string> := {
    "manager", "department", "cost_center", "opened_by", "sys_domain", "location", "company",
    "assignment_group", "cmdb_ci", "default_perspective", "parent"
  }

  /** The `case` labels of the switch in fromAttributes, as written. */
  const FromAttributesCases: set<string> := {
    "manager", "department", "cost_center", "opened_by", "sys_domain", "location", "company",
    "assignment_group", "cmdb_ci", "default_perspective", "schedule", "parent"
  }

  /** The labels of fromAttributes that have no `_`: the only ones a Java field name can equal. */
  const CamelCases: set<string> := {"manager", "department", "location", "company", "schedule", "parent"}

  /** A field whose Java name is one of those labels holds an SNComplex, so the switch's
      assignment of a new SNComplex to it is well typed. */
  predicate KindOk(f: FieldSpec) {
    f.java in CamelCases ==> f.kind == Ref
  }

  predicate AllKindsOk(fs: seq<FieldSpec>) {
    forall i :: 0 <= i < |fs| ==> KindOk(fs[i])
  }

  lemma AllKindsAppend(a: seq<FieldSpec>, b: seq<FieldSpec>)
    requires AllKindsOk(a) && AllKindsOk(b)
    ensures AllKindsOk(a + b)
  {
    var ab := a + b;
    forall i | 0 <= i < |ab|
      ensures KindOk(ab[i])
    {
      if i < |a| {
        assert ab[i] == a[i];
      } else {
        assert ab[i] == b[i - |a|];
      }
    }
  }

  /** The entry's JSON name is the snake_case name and its Java name the camelCase name of the
      same well-formed parts, and its JSON name is not `memberof`. */
  ghost predicate NamedByParts(f: FieldSpec, parts: seq<string>) {
    SnakeParts(parts) && f.json == SnakeName(parts) && f.java == CamelName(parts) && f.json != "memberof"
  }

  ghost predicate WellNamed(f: FieldSpec) {
    exists parts :: NamedByParts(f, parts)
  }

  ghost predicate AllWellNamed(fs: seq<FieldSpec>) {
    forall i :: 0 <= i < |fs| ==> WellNamed(fs[i])
  }

  /** A well-named entry satisfies EntryOk. */
  lemma WellNamedOk(f: FieldSpec)
    requires WellNamed(f)
    ensures EntryOk(f)
  {
    var parts :| NamedByParts(f, parts);
    var json := f.json;
    RoundTrip(parts);
    PartsAvoidUnderscore(parts);
    JoinNoDouble(parts);
    if '_' in json {
      CamelHasNoUnderscore(json);
    } else {
      assert UnderscoredToCamel(json) == Success(json);
    }
    LowerStringOfLower(json);
  }

  lemma AllWellNamedOk(fs: seq<FieldSpec>)
    requires AllWellNamed(fs)
    ensures AllOk(fs)
  {
    forall i | 0 <= i < |fs|
      ensures EntryOk(fs[i])
    {
      WellNamedOk(fs[i]);
    }
  }

  lemma AllWellNamedAppend(a: seq<FieldSpec>, b: seq<FieldSpec>)
    requires AllWellNamed(a) && AllWellNamed(b)
    ensures AllWellNamed(a + b)
  {
    var ab := a + b;
    forall i | 0 <= i < |ab|
      ensures WellNamed(ab[i])
    {
      if i < |a| {
        assert ab[i] == a[i];
      } else {
        assert ab[i] == b[i - |a|];
      }
    }
  }

  lemma Entry1(f: FieldSpec, a: string)
    requires SnakeParts([a]) && f.json == a && f.java == a && f.json != "memberof"
    ensures NamedByParts(f, [a])
  {
    Shape1(a);
  }

  lemma Entry2(f: FieldSpec, a: string, b: string)
    requires SnakeParts([a, b]) && |b| > 0 && f.json == a + "_" + b && f.java == a + Capitalized(b)
    ensures NamedByParts(f, [a, b])
  {
    Shape2(a, b);
    assert f.json[|a|] == '_';
  }

  lemma Entry3(f: FieldSpec, a: string, b: string, c: string)
    requires SnakeParts([a, b, c]) && |b| > 0 && |c| > 0
    requires f.json == a + "_" + b + "_" + c && f.java == a + Capitalized(b) + Capitalized(c)
    ensures NamedByParts(f, [a, b, c])
  {
    Shape3(a, b, c);
    assert f.json[|a|] == '_';
  }

  lemma Entry4(f: FieldSpec, a: string, b: string, c: string, d: string)
    requires SnakeParts([a, b, c, d]) && |b| > 0 && |c| > 0 && |d| > 0
    requires f.json == a + "_" + b + "_" + c + "_" + d
    requires f.java == a + Capitalized(b) + Capitalized(c) + Capitalized(d)
    ensures NamedByParts(f, [a, b, c, d])
  {
    Shape4(a, b, c, d);
    assert f.json[|a|] == '_';
  }

  lemma Shape1(a: string)
    requires SnakeParts([a])
    ensures SnakeName([a]) == a && CamelName([a]) == a
  {
    assert [a][1..] == [];
  }

  lemma Shape2(a: string, b: string)
    requires SnakeParts([a, b]) && |b| > 0
    ensures SnakeName([a, b]) == a + "_" + b
    ensures CamelName([a, b]) == a + Capitalized(b)
  {
    var ps := [a, b];
    assert ps[1..] == [b] && ps[1..][1..] == [];
    assert Join([b], '_') == b;
    assert Join(ps, '_') == a + "_" + b;
    assert CapitalizedBody([b]) == Capitalized(b) + CapitalizedBody([]);
  }

  lemma Shape3(a: string, b: string, c: string)
    requires SnakeParts([a, b, c]) && |b| > 0 && |c| > 0
    ensures SnakeName([a, b, c]) == a + "_" + b + "_" + c
    ensures CamelName([a, b, c]) == a + Capitalized(b) + Capitalized(c)
  {
    var ps := [a, b, c];
    assert ps[1..] == [b, c] && ps[1..][1..] == [c] && ps[1..][1..][1..] == [];
    assert [b, c][1..] == [c];
    assert Join([c], '_') == c;
    assert Join([b, c], '_') == b + "_" + c;
    assert Join(ps, '_') == a + "_" + (b + "_" + c);
    assert CapitalizedBody([c]) == Capitalized(c) + CapitalizedBody([]);
    assert CapitalizedBody([b, c]) == Capitalized(b) + CapitalizedBody([c]);
  }

  lemma Shape4(a: string, b: string, c: string, d: string)
    requires SnakeParts([a, b, c, d]) && |b| > 0 && |c| > 0 && |d| > 0
    ensures SnakeName([a, b, c, d]) == a + "_" + b + "_" + c + "_" + d
    ensures CamelName([a, b, c, d]) == a + Capitalized(b) + Capitalized(c) + Capitalized(d)
  {
    var ps := [a, b, c, d];
    assert ps[1..] == [b, c, d] && ps[1..][1..] == [c, d] && ps[1..][1..][1..] == [d];
    assert ps[1..][1..][1..][1..] == [];
    assert [b, c, d][1..] == [c, d] && [c, d][1..] == [d];
    assert Join([d], '_') == d;
    assert Join([c, d], '_') == c + "_" + d;
    assert Join([b, c, d], '_') == b + "_" + (c + "_" + d);
    assert Join(ps, '_') == a + "_" + (b + "_" + (c + "_" + d));
    assert CapitalizedBody([d]) == Capitalized(d) + CapitalizedBody([]);
    assert CapitalizedBody([c, d]) == Capitalized(c) + CapitalizedBody([d]);
    assert CapitalizedBody([b, c, d]) == Capitalized(b) + CapitalizedBody([c, d]);
  }

  lemma NamesActive(i: nat)
    requires i == 0
    ensures NamedByParts(Chunk0[i], ["active"])
  {
    var f := Chunk0[i];
    assert f == FieldSpec("active", "active", Text);
    Entry1(f, "active");
  }

  lemma SpellActivityDue(j: string, v: string)
    requires j == "activity_due" && v == "activityDue"
    ensures j == "activity" + "_" + "due"
    ensures v == "activity" + "Due"
  {
  }

  lemma NamesActivityDue(i: nat)
    requires i == 1
    ensures NamedByParts(Chunk0[i], ["activity", "due"])
  {
    var f := Chunk0[i];
    assert f == FieldSpec("activity_due", "activityDue", Text);
    SpellActivityDue(f.json, f.java);
    Entry2(f, "activity", "due");
  }

  lemma PartsAdditionalAssigneeList(p0: string, p1: string, p2: string)
    requires p0 == "additional" && p1 == "assignee" && p2 == "list"
    ensures SnakeParts([p0, p1, p2])
    ensures Capitalized(p1) == "Assignee" && Capitalized(p2) == "List"
  {
  }

  lemma SpellAdditionalAssigneeList(j: string, v: string)
    requires j == "additional_assignee_list" && v == "additionalAssigneeList"
    ensures j == "additional" + "_" + "assignee" + "_" + "list"
    ensures v == "additional" + "Assignee" + "List"
  {
  }

  lemma NamesAdditionalAssigneeList(i: nat)
    requires i == 2
    ensures NamedByParts(Chunk0[i], ["additional", "assignee", "list"])
  {
    var f := Chunk0[i];
    assert f == FieldSpec("additional_assignee_list", "additionalAssigneeList", Text);
    PartsAdditionalAssigneeList("additional", "assignee", "list");
    SpellAdditionalAssigneeList(f.json, f.java);
    Entry3(f, "additional", "assignee", "list");
  }

  lemma NamesApproval(i: nat)
    requires i == 3
    ensures NamedByParts(Chunk0[i], ["approval"])
  {
    var f := Chunk0[i];
    assert f == FieldSpec("approval", "approval", Text);
    Entry1(f, "approval");
  }

  lemma SpellApprovalHistory(j: string, v: string)
    requires j == "approval_history" && v == "approvalHistory"
    ensures j == "approval" + "_" + "history"
    ensures v == "approval" + "History"
  {
  }

  lemma NamesApprovalHistory(i: nat)
    requires i == 4
    ensures NamedByParts(Chunk0[i], ["approval", "history"])
  {
    var f := Chunk0[i];
    assert f == FieldSpec("approval_history", "approvalHistory", Text);
    SpellApprovalHistory(f.json, f.java);
    Entry2(f, "approval", "history");
  }

  lemma SpellApprovalSet(j: string, v: string)
    requires j == "approval_set" && v == "approvalSet"
    ensures j == "approval" + "_" + "set"
    ensures v == "approval" + "Set"
  {
  }

  lemma NamesApprovalSet(i: nat)
    requires i == 5
    ensures NamedByParts(Chunk0[i], ["approval", "set"])
  {
    var f := Chunk0[i];
    assert f == FieldSpec("approval_set", "approvalSet", Text);
    SpellApprovalSet(f.json, f.java);
    Entry2(f, "approval", "set");
  }

  lemma SpellAssignedTo(j: string, v: string)
    requires j == "assigned_to" && v == "assignedTo"
    ensures j == "assigned" + "_" + "to"
    ensures v == "assigned" + "To"
  {
  }

  lemma NamesAssignedTo(i: nat)
    requires i == 6
    ensures NamedByParts(Chunk0[i], ["assigned", "to"])
  {
    var f := Chunk0[i];
    assert f == FieldSpec("assigned_to", "assignedTo", Text);
    SpellAssignedTo(f.json, f.java);
    Entry2(f, "assigned", "to");
  }

  lemma SpellAssignmentGroup(j: string, v: string)
    requires j == "assignment_group" && v == "assignmentGroup"
    ensures j == "assignment" + "_" + "group"
    ensures v == "assignment" + "Group"
  {
  }

  lemma NamesAssignmentGroup(i: nat)
    requires i == 7
    ensures NamedByParts(Chunk0[i], ["assignment", "group"])
  {
    var f := Chunk0[i];
    assert f == FieldSpec("assignment_group", "assignmentGroup", Ref);
    SpellAssignmentGroup(f.json, f.java);
    Entry2(f, "assignment", "group");
  }

  lemma Chunk0Named(i: nat)
    requires i < |Chunk0|
    ensures WellNamed(Chunk0[i])
  {
    if i == 0 {
      NamesActive(i);
    } else if i == 1 {
      NamesActivityDue(i);
    } else if i == 2 {
      NamesAdditionalAssigneeList(i);
    } else if i == 3 {
      NamesApproval(i);
    } else if i == 4 {
      NamesApprovalHistory(i);
    } else if i == 5 {
      NamesApprovalSet(i);
    } else if i == 6 {
      NamesAssignedTo(i);
    } else if i == 7 {
      NamesAssignmentGroup(i);
    }
  }

  lemma Chunk0Sorted()
    ensures SortedByJson(Chunk0)
  {
    assert NameBelowAt(Chunk0[0].json, Chunk0[1].json, 5);
    assert NameBelowAt(Chunk0[1].json, Chunk0[2].json, 1);
    assert NameBelowAt(Chunk0[2].json, Chunk0[3].json, 1);
    assert NameBelowAt(Chunk0[3].json, Chunk0[4].json, 8);
    assert NameBelowAt(Chunk0[4].json, Chunk0[5].json, 9);
    assert NameBelowAt(Chunk0[5].json, Chunk0[6].json, 1);
    assert NameBelowAt(Chunk0[6].json, Chunk0[7].json, 6);
  }

  lemma Chunk0Kinds()
    ensures AllKindsOk(Chunk0)
  {
  }

  lemma Chunk0Ok()
    ensures AllWellNamed(Chunk0) && SortedByJson(Chunk0)
  {
    forall i | 0 <= i < |Chunk0|
      ensures WellNamed(Chunk0[i])
    {
      Chunk0Named(i);
    }
    Chunk0Sorted();
  }

  lemma NamesBuilding(i: nat)
    requires i == 0
    ensures NamedByParts(Chunk1[i], ["building"])
  {
    var f := Chunk1[i];
    assert f == FieldSpec("building", "building", Text);
    Entry1(f, "building");
  }

  lemma SpellBusinessDuration(j: string, v: string)
    requires j == "business_duration" && v == "businessDuration"
    ensures j == "business" + "_" + "duration"
    ensures v == "business" + "Duration"
  {
  }

  lemma NamesBusinessDuration(i: nat)
    requires i == 1
    ensures NamedByParts(Chunk1[i], ["business", "duration"])
  {
    var f := Chunk1[i];
    assert f == FieldSpec("business_duration", "businessDuration", Text);
    SpellBusinessDuration(f.json, f.java);
    Entry2(f, "business", "duration");
  }

  lemma SpellBusinessService(j: string, v: string)
    requires j == "business_service" && v == "businessService"
    ensures j == "business" + "_" + "service"
    ensures v == "business" + "Service"
  {
  }

  lemma NamesBusinessService(i: nat)
    requires i == 2
    ensures NamedByParts(Chunk1[i], ["business", "service"])
  {
    var f := Chunk1[i];
    assert f == FieldSpec("business_service", "businessService", Text);
    SpellBusinessService(f.json, f.java);
    Entry2(f, "business", "service");
  }

  lemma SpellBusinessStc(j: string, v: string)
    requires j == "business_stc" && v == "businessStc"
    ensures j == "business" + "_" + "stc"
    ensures v == "business" + "Stc"
  {
  }

  lemma NamesBusinessStc(i: nat)
    requires i == 3
    ensures NamedByParts(Chunk1[i], ["business", "stc"])
  {
    var f := Chunk1[i];
    assert f == FieldSpec("business_stc", "businessStc", Text);
    SpellBusinessStc(f.json, f.java);
    Entry2(f, "business", "stc");
  }

  lemma SpellCalendarDuration(j: string, v: string)
    requires j == "calendar_duration" && v == "calendarDuration"
    ensures j == "calendar" + "_" + "duration"
    ensures v == "calendar" + "Duration"
  {
  }

  lemma NamesCalendarDuration(i: nat)
    requires i == 4
    ensures NamedByParts(Chunk1[i], ["calendar", "duration"])
  {
    var f := Chunk1[i];
    assert f == FieldSpec("calendar_duration", "calendarDuration", Text);
    SpellCalendarDuration(f.json, f.java);
    Entry2(f, "calendar", "duration");
  }

  lemma SpellCalendarIntegration(j: string, v: string)
    requires j == "calendar_integration" && v == "calendarIntegration"
    ensures j == "calendar" + "_" + "integration"
    ensures v == "calendar" + "Integration"
  {
  }

  lemma NamesCalendarIntegration(i: nat)
    requires i == 5
    ensures NamedByParts(Chunk1[i], ["calendar", "integration"])
  {
    var f := Chunk1[i];
    assert f == FieldSpec("calendar_integration", "calendarIntegration", Text);
    SpellCalendarIntegration(f.json, f.java);
    Entry2(f, "calendar", "integration");
  }

  lemma SpellCalendarStc(j: string, v: string)
    requires j == "calendar_stc" && v == "calendarStc"
    ensures j == "calendar" + "_" + "stc"
    ensures v == "calendar" + "Stc"
  {
  }

  lemma NamesCalendarStc(i: nat)
    requires i == 6
    ensures NamedByParts(Chunk1[i], ["calendar", "stc"])
  {
    var f := Chunk1[i];
    assert f == FieldSpec("calendar_stc", "calendarStc", Text);
    SpellCalendarStc(f.json, f.java);
    Entry2(f, "calendar", "stc");
  }

  lemma SpellCallerId(j: string, v: string)
    requires j == "caller_id" && v == "callerId"
    ensures j == "caller" + "_" + "id"
    ensures v == "caller" + "Id"
  {
  }

  lemma NamesCallerId(i: nat)
    requires i == 7
    ensures NamedByParts(Chunk1[i], ["caller", "id"])
  {
    var f := Chunk1[i];
    assert f == FieldSpec("caller_id", "callerId", Ref);
    SpellCallerId(f.json, f.java);
    Entry2(f, "caller", "id");
  }

  lemma Chunk1Named(i: nat)
    requires i < |Chunk1|
    ensures WellNamed(Chunk1[i])
  {
    if i == 0 {
      NamesBuilding(i);
    } else if i == 1 {
      NamesBusinessDuration(i);
    } else if i == 2 {
      NamesBusinessService(i);
    } else if i == 3 {
      NamesBusinessStc(i);
    } else if i == 4 {
      NamesCalendarDuration(i);
    } else if i == 5 {
      NamesCalendarIntegration(i);
    } else if i == 6 {
      NamesCalendarStc(i);
    } else if i == 7 {
      NamesCallerId(i);
    }
  }

  lemma Chunk1Sorted()
    ensures SortedByJson(Chunk1)
  {
    assert NameBelowAt(Chunk1[0].json, Chunk1[1].json, 2);
    assert NameBelowAt(Chunk1[1].json, Chunk1[2].json, 9);
    assert NameBelowAt(Chunk1[2].json, Chunk1[3].json, 10);
    assert NameBelowAt(Chunk1[3].json, Chunk1[4].json, 0);
    assert NameBelowAt(Chunk1[4].json, Chunk1[5].json, 9);
    assert NameBelowAt(Chunk1[5].json, Chunk1[6].json, 9);
    assert NameBelowAt(Chunk1[6].json, Chunk1[7].json, 3);
  }

  lemma Chunk1Kinds()
    ensures AllKindsOk(Chunk1)
  {
  }

  lemma Chunk1Ok()
    ensures AllWellNamed(Chunk1) && SortedByJson(Chunk1)
  {
    forall i | 0 <= i < |Chunk1|
      ensures WellNamed(Chunk1[i])
    {
      Chunk1Named(i);
    }
    Chunk1Sorted();
  }

  lemma NamesCategory(i: nat)
    requires i == 0
    ensures NamedByParts(Chunk2[i], ["category"])
  {
    var f := Chunk2[i];
    assert f == FieldSpec("category", "category", Text);
    Entry1(f, "category");
  }

  lemma SpellCausedBy(j: string, v: string)
    requires j == "caused_by" && v == "causedBy"
    ensures j == "caused" + "_" + "by"
    ensures v == "caused" + "By"
  {
  }

  lemma NamesCausedBy(i: nat)
    requires i == 1
    ensures NamedByParts(Chunk2[i], ["caused", "by"])
  {
    var f := Chunk2[i];
    assert f == FieldSpec("caused_by", "causedBy", Text);
    SpellCausedBy(f.json, f.java);
    Entry2(f, "caused", "by");
  }

  lemma SpellChildIncidents(j: string, v: string)
    requires j == "child_incidents" && v == "childIncidents"
    ensures j == "child" + "_" + "incidents"
    ensures v == "child" + "Incidents"
  {
  }

  lemma NamesChildIncidents(i: nat)
    requires i == 2
    ensures NamedByParts(Chunk2[i], ["child", "incidents"])
  {
    var f := Chunk2[i];
    assert f == FieldSpec("child_incidents", "childIncidents", Text);
    SpellChildIncidents(f.json, f.java);
    Entry2(f, "child", "incidents");
  }

  lemma NamesCity(i: nat)
    requires i == 3
    ensures NamedByParts(Chunk2[i], ["city"])
  {
    var f := Chunk2[i];
    assert f == FieldSpec("city", "city", Text);
    Entry1(f, "city");
  }

  lemma SpellCloseCode(j: string, v: string)
    requires j == "close_code" && v == "closeCode"
    ensures j == "close" + "_" + "code"
    ensures v == "close" + "Code"
  {
  }

  lemma NamesCloseCode(i: nat)
    requires i == 4
    ensures NamedByParts(Chunk2[i], ["close", "code"])
  {
    var f := Chunk2[i];
    assert f == FieldSpec("close_code", "closeCode", Text);
    SpellCloseCode(f.json, f.java);
    Entry2(f, "close", "code");
  }

  lemma SpellCloseNotes(j: string, v: string)
    requires j == "close_notes" && v == "closeNotes"
    ensures j == "close" + "_" + "notes"
    ensures v == "close" + "Notes"
  {
  }

  lemma NamesCloseNotes(i: nat)
    requires i == 5
    ensures NamedByParts(Chunk2[i], ["close", "notes"])
  {
    var f := Chunk2[i];
    assert f == FieldSpec("close_notes", "closeNotes", Text);
    SpellCloseNotes(f.json, f.java);
    Entry2(f, "close", "notes");
  }

  lemma SpellClosedAt(j: string, v: string)
    requires j == "closed_at" && v == "closedAt"
    ensures j == "closed" + "_" + "at"
    ensures v == "closed" + "At"
  {
  }

  lemma NamesClosedAt(i: nat)
    requires i == 6
    ensures NamedByParts(Chunk2[i], ["closed", "at"])
  {
    var f := Chunk2[i];
    assert f == FieldSpec("closed_at", "closedAt", Text);
    SpellClosedAt(f.json, f.java);
    Entry2(f, "closed", "at");
  }

  lemma SpellClosedBy(j: string, v: string)
    requires j == "closed_by" && v == "closedBy"
    ensures j == "closed" + "_" + "by"
    ensures v == "closed" + "By"
  {
  }

  lemma NamesClosedBy(i: nat)
    requires i == 7
    ensures NamedByParts(Chunk2[i], ["closed", "by"])
  {
    var f := Chunk2[i];
    assert f == FieldSpec("closed_by", "closedBy", Text);
    SpellClosedBy(f.json, f.java);
    Entry2(f, "closed", "by");
  }

  lemma Chunk2Named(i: nat)
    requires i < |Chunk2|
    ensures WellNamed(Chunk2[i])
  {
    if i == 0 {
      NamesCategory(i);
    } else if i == 1 {
      NamesCausedBy(i);
    } else if i == 2 {
      NamesChildIncidents(i);
    } else if i == 3 {
      NamesCity(i);
    } else if i == 4 {
      NamesCloseCode(i);
    } else if i == 5 {
      NamesCloseNotes(i);
    } else if i == 6 {
      NamesClosedAt(i);
    } else if i == 7 {
      NamesClosedBy(i);
    }
  }

  lemma Chunk2Sorted()
    ensures SortedByJson(Chunk2)
  {
    assert NameBelowAt(Chunk2[0].json, Chunk2[1].json, 2);
    assert NameBelowAt(Chunk2[1].json, Chunk2[2].json, 1);
    assert NameBelowAt(Chunk2[2].json, Chunk2[3].json, 1);
    assert NameBelowAt(Chunk2[3].json, Chunk2[4].json, 1);
    assert NameBelowAt(Chunk2[4].json, Chunk2[5].json, 6);
    assert NameBelowAt(Chunk2[5].json, Chunk2[6].json, 5);
    assert NameBelowAt(Chunk2[6].json, Chunk2[7].json, 7);
  }

  lemma Chunk2Kinds()
    ensures AllKindsOk(Chunk2)
  {
  }

  lemma Chunk2Ok()
    ensures AllWellNamed(Chunk2) && SortedByJson(Chunk2)
  {
    forall i | 0 <= i < |Chunk2|
      ensures WellNamed(Chunk2[i])
    {
      Chunk2Named(i);
    }
    Chunk2Sorted();
  }

  lemma SpellCmdbCi(j: string, v: string)
    requires j == "cmdb_ci" && v == "cmdbCi"
    ensures j == "cmdb" + "_" + "ci"
    ensures v == "cmdb" + "Ci"
  {
  }

  lemma NamesCmdbCi(i: nat)
    requires i == 0
    ensures NamedByParts(Chunk3[i], ["cmdb", "ci"])
  {
    var f := Chunk3[i];
    assert f == FieldSpec("cmdb_ci", "cmdbCi", Ref);
    SpellCmdbCi(f.json, f.java);
    Entry2(f, "cmdb", "ci");
  }

  lemma NamesComments(i: nat)
    requires i == 1
    ensures NamedByParts(Chunk3[i], ["comments"])
  {
    var f := Chunk3[i];
    assert f == FieldSpec("comments", "comments", Text);
    Entry1(f, "comments");
  }

  lemma PartsCommentsAndWorkNotes(p0: string, p1: string, p2: string, p3: string)
    requires p0 == "comments" && p1 == "and" && p2 == "work" && p3 == "notes"
    ensures SnakeParts([p0, p1, p2, p3])
    ensures Capitalized(p1) == "And" && Capitalized(p2) == "Work" && Capitalized(p3) == "Notes"
  {
  }

  lemma SpellCommentsAndWorkNotes(j: string, v: string)
    requires j == "comments_and_work_notes" && v == "commentsAndWorkNotes"
    ensures j == "comments" + "_" + "and" + "_" + "work" + "_" + "notes"
    ensures v == "comments" + "And" + "Work" + "Notes"
  {
  }

  lemma NamesCommentsAndWorkNotes(i: nat)
    requires i == 2
    ensures NamedByParts(Chunk3[i], ["comments", "and", "work", "notes"])
  {
    var f := Chunk3[i];
    assert f == FieldSpec("comments_and_work_notes", "commentsAndWorkNotes", Text);
    PartsCommentsAndWorkNotes("comments", "and", "work", "notes");
    SpellCommentsAndWorkNotes(f.json, f.java);
    Entry4(f, "comments", "and", "work", "notes");
  }

  lemma NamesCompany(i: nat)
    requires i == 3
    ensures NamedByParts(Chunk3[i], ["company"])
  {
    var f := Chunk3[i];
    assert f == FieldSpec("company", "company", Ref);
    Entry1(f, "company");
  }

  lemma SpellContactType(j: string, v: string)
    requires j == "contact_type" && v == "contactType"
    ensures j == "contact" + "_" + "type"
    ensures v == "contact" + "Type"
  {
  }

  lemma NamesContactType(i: nat)
    requires i == 4
    ensures NamedByParts(Chunk3[i], ["contact", "type"])
  {
    var f := Chunk3[i];
    assert f == FieldSpec("contact_type", "contactType", Text);
    SpellContactType(f.json, f.java);
    Entry2(f, "contact", "type");
  }

  lemma SpellCorrelationDisplay(j: string, v: string)
    requires j == "correlation_display" && v == "correlationDisplay"
    ensures j == "correlation" + "_" + "display"
    ensures v == "correlation" + "Display"
  {
  }

  lemma NamesCorrelationDisplay(i: nat)
    requires i == 5
    ensures NamedByParts(Chunk3[i], ["correlation", "display"])
  {
    var f := Chunk3[i];
    assert f == FieldSpec("correlation_display", "correlationDisplay", Text);
    SpellCorrelationDisplay(f.json, f.java);
    Entry2(f, "correlation", "display");
  }

  lemma SpellCorrelationId(j: string, v: string)
    requires j == "correlation_id" && v == "correlationId"
    ensures j == "correlation" + "_" + "id"
    ensures v == "correlation" + "Id"
  {
  }

  lemma NamesCorrelationId(i: nat)
    requires i == 6
    ensures NamedByParts(Chunk3[i], ["correlation", "id"])
  {
    var f := Chunk3[i];
    assert f == FieldSpec("correlation_id", "correlationId", Text);
    SpellCorrelationId(f.json, f.java);
    Entry2(f, "correlation", "id");
  }

  lemma SpellCostCenter(j: string, v: string)
    requires j == "cost_center" && v == "costCenter"
    ensures j == "cost" + "_" + "center"
    ensures v == "cost" + "Center"
  {
  }

  lemma NamesCostCenter(i: nat)
    requires i == 7
    ensures NamedByParts(Chunk3[i], ["cost", "center"])
  {
    var f := Chunk3[i];
    assert f == FieldSpec("cost_center", "costCenter", Ref);
    SpellCostCenter(f.json, f.java);
    Entry2(f, "cost", "center");
  }

  lemma Chunk3Named(i: nat)
    requires i < |Chunk3|
    ensures WellNamed(Chunk3[i])
  {
    if i == 0 {
      NamesCmdbCi(i);
    } else if i == 1 {
      NamesComments(i);
    } else if i == 2 {
      NamesCommentsAndWorkNotes(i);
    } else if i == 3 {
      NamesCompany(i);
    } else if i == 4 {
      NamesContactType(i);
    } else if i == 5 {
      NamesCorrelationDisplay(i);
    } else if i == 6 {
      NamesCorrelationId(i);
    } else if i == 7 {
      NamesCostCenter(i);
    }
  }

  lemma Chunk3Sorted()
    ensures SortedByJson(Chunk3)
  {
    assert NameBelowAt(Chunk3[0].json, Chunk3[1].json, 1);
    assert NameBelowAt(Chunk3[1].json, Chunk3[2].json, 8);
    assert NameBelowAt(Chunk3[2].json, Chunk3[3].json, 3);
    assert NameBelowAt(Chunk3[3].json, Chunk3[4].json, 2);
    assert NameBelowAt(Chunk3[4].json, Chunk3[5].json, 2);
    assert NameBelowAt(Chunk3[5].json, Chunk3[6].json, 12);
    assert NameBelowAt(Chunk3[6].json, Chunk3[7].json, 2);
  }

  lemma Chunk3Kinds()
    ensures AllKindsOk(Chunk3)
  {
  }

  lemma Chunk3Ok()
    ensures AllWellNamed(Chunk3) && SortedByJson(Chunk3)
  {
    forall i | 0 <= i < |Chunk3|
      ensures WellNamed(Chunk3[i])
    {
      Chunk3Named(i);
    }
    Chunk3Sorted();
  }

  lemma NamesCountry(i: nat)
    requires i == 0
    ensures NamedByParts(Chunk4[i], ["country"])
  {
    var f := Chunk4[i];
    assert f == FieldSpec("country", "country", Text);
    Entry1(f, "country");
  }

  lemma SpellDateFormat(j: string, v: string)
    requires j == "date_format" && v == "dateFormat"
    ensures j == "date" + "_" + "format"
    ensures v == "date" + "Format"
  {
  }

  lemma NamesDateFormat(i: nat)
    requires i == 1
    ensures NamedByParts(Chunk4[i], ["date", "format"])
  {
    var f := Chunk4[i];
    assert f == FieldSpec("date_format", "dateFormat", Text);
    SpellDateFormat(f.json, f.java);
    Entry2(f, "date", "format");
  }

  lemma SpellDefaultPerspective(j: string, v: string)
    requires j == "default_perspective" && v == "defaultPerspective"
    ensures j == "default" + "_" + "perspective"
    ensures v == "default" + "Perspective"
  {
  }

  lemma NamesDefaultPerspective(i: nat)
    requires i == 2
    ensures NamedByParts(Chunk4[i], ["default", "perspective"])
  {
    var f := Chunk4[i];
    assert f == FieldSpec("default_perspective", "defaultPerspective", Ref);
    SpellDefaultPerspective(f.json, f.java);
    Entry2(f, "default", "perspective");
  }

  lemma SpellDeliveryPlan(j: string, v: string)
    requires j == "delivery_plan" && v == "deliveryPlan"
    ensures j == "delivery" + "_" + "plan"
    ensures v == "delivery" + "Plan"
  {
  }

  lemma NamesDeliveryPlan(i: nat)
    requires i == 3
    ensures NamedByParts(Chunk4[i], ["delivery", "plan"])
  {
    var f := Chunk4[i];
    assert f == FieldSpec("delivery_plan", "deliveryPlan", Text);
    SpellDeliveryPlan(f.json, f.java);
    Entry2(f, "delivery", "plan");
  }

  lemma SpellDeliveryTask(j: string, v: string)
    requires j == "delivery_task" && v == "deliveryTask"
    ensures j == "delivery" + "_" + "task"
    ensures v == "delivery" + "Task"
  {
  }

  lemma NamesDeliveryTask(i: nat)
    requires i == 4
    ensures NamedByParts(Chunk4[i], ["delivery", "task"])
  {
    var f := Chunk4[i];
    assert f == FieldSpec("delivery_task", "deliveryTask", Text);
    SpellDeliveryTask(f.json, f.java);
    Entry2(f, "delivery", "task");
  }

  lemma NamesDepartment(i: nat)
    requires i == 5
    ensures NamedByParts(Chunk4[i], ["department"])
  {
    var f := Chunk4[i];
    assert f == FieldSpec("department", "department", Ref);
    Entry1(f, "department");
  }

  lemma NamesDescription(i: nat)
    requires i == 6
    ensures NamedByParts(Chunk4[i], ["description"])
  {
    var f := Chunk4[i];
    assert f == FieldSpec("description", "description", Text);
    Entry1(f, "description");
  }

  lemma SpellDueDate(j: string, v: string)
    requires j == "due_date" && v == "dueDate"
    ensures j == "due" + "_" + "date"
    ensures v == "due" + "Date"
  {
  }

  lemma NamesDueDate(i: nat)
    requires i == 7
    ensures NamedByParts(Chunk4[i], ["due", "date"])
  {
    var f := Chunk4[i];
    assert f == FieldSpec("due_date", "dueDate", Text);
    SpellDueDate(f.json, f.java);
    Entry2(f, "due", "date");
  }

  lemma Chunk4Named(i: nat)
    requires i < |Chunk4|
    ensures WellNamed(Chunk4[i])
  {
    if i == 0 {
      NamesCountry(i);
    } else if i == 1 {
      NamesDateFormat(i);
    } else if i == 2 {
      NamesDefaultPerspective(i);
    } else if i == 3 {
      NamesDeliveryPlan(i);
    } else if i == 4 {
      NamesDeliveryTask(i);
    } else if i == 5 {
      NamesDepartment(i);
    } else if i == 6 {
      NamesDescription(i);
    } else if i == 7 {
      NamesDueDate(i);
    }
  }

  lemma Chunk4Sorted()
    ensures SortedByJson(Chunk4)
  {
    assert NameBelowAt(Chunk4[0].json, Chunk4[1].json, 0);
    assert NameBelowAt(Chunk4[1].json, Chunk4[2].json, 1);
    assert NameBelowAt(Chunk4[2].json, Chunk4[3].json, 2);
    assert NameBelowAt(Chunk4[3].json, Chunk4[4].json, 9);
    assert NameBelowAt(Chunk4[4].json, Chunk4[5].json, 2);
    assert NameBelowAt(Chunk4[5].json, Chunk4[6].json, 2);
    assert NameBelowAt(Chunk4[6].json, Chunk4[7].json, 1);
  }

  lemma Chunk4Kinds()
    ensures AllKindsOk(Chunk4)
  {
  }

  lemma Chunk4Ok()
    ensures AllWellNamed(Chunk4) && SortedByJson(Chunk4)
  {
    forall i | 0 <= i < |Chunk4|
      ensures WellNamed(Chunk4[i])
    {
      Chunk4Named(i);
    }
    Chunk4Sorted();
  }

  lemma NamesEmail(i: nat)
    requires i == 0
    ensures NamedByParts(Chunk5[i], ["email"])
  {
    var f := Chunk5[i];
    assert f == FieldSpec("email", "email", Text);
    Entry1(f, "email");
  }

  lemma SpellEmployeeNumber(j: string, v: string)
    requires j == "employee_number" && v == "employeeNumber"
    ensures j == "employee" + "_" + "number"
    ensures v == "employee" + "Number"
  {
  }

  lemma NamesEmployeeNumber(i: nat)
    requires i == 1
    ensures NamedByParts(Chunk5[i], ["employee", "number"])
  {
    var f := Chunk5[i];
    assert f == FieldSpec("employee_number", "employeeNumber", Text);
    SpellEmployeeNumber(f.json, f.java);
    Entry2(f, "employee", "number");
  }

  lemma PartsEnableMultifactorAuthn(p0: string, p1: string, p2: string)
    requires p0 == "enable" && p1 == "multifactor" && p2 == "authn"
    ensures SnakeParts([p0, p1, p2])
    ensures Capitalized(p1) == "Multifactor" && Capitalized(p2) == "Authn"
  {
  }

  lemma SpellEnableMultifactorAuthn(j: string, v: string)
    requires j == "enable_multifactor_authn" && v == "enableMultifactorAuthn"
    ensures j == "enable" + "_" + "multifactor" + "_" + "authn"
    ensures v == "enable" + "Multifactor" + "Authn"
  {
  }

  lemma NamesEnableMultifactorAuthn(i: nat)
    requires i == 2
    ensures NamedByParts(Chunk5[i], ["enable", "multifactor", "authn"])
  {
    var f := Chunk5[i];
    assert f == FieldSpec("enable_multifactor_authn", "enableMultifactorAuthn", Text);
    PartsEnableMultifactorAuthn("enable", "multifactor", "authn");
    SpellEnableMultifactorAuthn(f.json, f.java);
    Entry3(f, "enable", "multifactor", "authn");
  }

  lemma NamesEscalation(i: nat)
    requires i == 3
    ensures NamedByParts(Chunk5[i], ["escalation"])
  {
    var f := Chunk5[i];
    assert f == FieldSpec("escalation", "escalation", Text);
    Entry1(f, "escalation");
  }

  lemma SpellExpectedStart(j: string, v: string)
    requires j == "expected_start" && v == "expectedStart"
    ensures j == "expected" + "_" + "start"
    ensures v == "expected" + "Start"
  {
  }

  lemma NamesExpectedStart(i: nat)
    requires i == 4
    ensures NamedByParts(Chunk5[i], ["expected", "start"])
  {
    var f := Chunk5[i];
    assert f == FieldSpec("expected_start", "expectedStart", Text);
    SpellExpectedStart(f.json, f.java);
    Entry2(f, "expected", "start");
  }

  lemma SpellFailedAttempts(j: string, v: string)
    requires j == "failed_attempts" && v == "failedAttempts"
    ensures j == "failed" + "_" + "attempts"
    ensures v == "failed" + "Attempts"
  {
  }

  lemma NamesFailedAttempts(i: nat)
    requires i == 5
    ensures NamedByParts(Chunk5[i], ["failed", "attempts"])
  {
    var f := Chunk5[i];
    assert f == FieldSpec("failed_attempts", "failedAttempts", Text);
    SpellFailedAttempts(f.json, f.java);
    Entry2(f, "failed", "attempts");
  }

  lemma SpellFirstName(j: string, v: string)
    requires j == "first_name" && v == "firstName"
    ensures j == "first" + "_" + "name"
    ensures v == "first" + "Name"
  {
  }

  lemma NamesFirstName(i: nat)
    requires i == 6
    ensures NamedByParts(Chunk5[i], ["first", "name"])
  {
    var f := Chunk5[i];
    assert f == FieldSpec("first_name", "firstName", Text);
    SpellFirstName(f.json, f.java);
    Entry2(f, "first", "name");
  }

  lemma SpellFollowUp(j: string, v: string)
    requires j == "follow_up" && v == "followUp"
    ensures j == "follow" + "_" + "up"
    ensures v == "follow" + "Up"
  {
  }

  lemma NamesFollowUp(i: nat)
    requires i == 7
    ensures NamedByParts(Chunk5[i], ["follow", "up"])
  {
    var f := Chunk5[i];
    assert f == FieldSpec("follow_up", "followUp", Text);
    SpellFollowUp(f.json, f.java);
    Entry2(f, "follow", "up");
  }

  lemma Chunk5Named(i: nat)
    requires i < |Chunk5|
    ensures WellNamed(Chunk5[i])
  {
    if i == 0 {
      NamesEmail(i);
    } else if i == 1 {
      NamesEmployeeNumber(i);
    } else if i == 2 {
      NamesEnableMultifactorAuthn(i);
    } else if i == 3 {
      NamesEscalation(i);
    } else if i == 4 {
      NamesExpectedStart(i);
    } else if i == 5 {
      NamesFailedAttempts(i);
    } else if i == 6 {
      NamesFirstName(i);
    } else if i == 7 {
      NamesFollowUp(i);
    }
  }

  lemma Chunk5Sorted()
    ensures SortedByJson(Chunk5)
  {
    assert NameBelowAt(Chunk5[0].json, Chunk5[1].json, 2);
    assert NameBelowAt(Chunk5[1].json, Chunk5[2].json, 1);
    assert NameBelowAt(Chunk5[2].json, Chunk5[3].json, 1);
    assert NameBelowAt(Chunk5[3].json, Chunk5[4].json, 1);
    assert NameBelowAt(Chunk5[4].json, Chunk5[5].json, 0);
    assert NameBelowAt(Chunk5[5].json, Chunk5[6].json, 1);
    assert NameBelowAt(Chunk5[6].json, Chunk5[7].json, 1);
  }

  lemma Chunk5Kinds()
    ensures AllKindsOk(Chunk5)
  {
  }

  lemma Chunk5Ok()
    ensures AllWellNamed(Chunk5) && SortedByJson(Chunk5)
  {
    forall i | 0 <= i < |Chunk5|
      ensures WellNamed(Chunk5[i])
    {
      Chunk5Named(i);
    }
    Chunk5Sorted();
  }

  lemma NamesGender(i: nat)
    requires i == 0
    ensures NamedByParts(Chunk6[i], ["gender"])
  {
    var f := Chunk6[i];
    assert f == FieldSpec("gender", "gender", Text);
    Entry1(f, "gender");
  }

  lemma SpellGroupList(j: string, v: string)
    requires j == "group_list" && v == "groupList"
    ensures j == "group" + "_" + "list"
    ensures v == "group" + "List"
  {
  }

  lemma NamesGroupList(i: nat)
    requires i == 1
    ensures NamedByParts(Chunk6[i], ["group", "list"])
  {
    var f := Chunk6[i];
    assert f == FieldSpec("group_list", "groupList", Text);
    SpellGroupList(f.json, f.java);
    Entry2(f, "group", "list");
  }

  lemma SpellHomePhone(j: string, v: string)
    requires j == "home_phone" && v == "homePhone"
    ensures j == "home" + "_" + "phone"
    ensures v == "home" + "Phone"
  {
  }

  lemma NamesHomePhone(i: nat)
    requires i == 2
    ensures NamedByParts(Chunk6[i], ["home", "phone"])
  {
    var f := Chunk6[i];
    assert f == FieldSpec("home_phone", "homePhone", Text);
    SpellHomePhone(f.json, f.java);
    Entry2(f, "home", "phone");
  }

  lemma NamesImpact(i: nat)
    requires i == 3
    ensures NamedByParts(Chunk6[i], ["impact"])
  {
    var f := Chunk6[i];
    assert f == FieldSpec("impact", "impact", Text);
    Entry1(f, "impact");
  }

  lemma SpellIncidentState(j: string, v: string)
    requires j == "incident_state" && v == "incidentState"
    ensures j == "incident" + "_" + "state"
    ensures v == "incident" + "State"
  {
  }

  lemma NamesIncidentState(i: nat)
    requires i == 4
    ensures NamedByParts(Chunk6[i], ["incident", "state"])
  {
    var f := Chunk6[i];
    assert f == FieldSpec("incident_state", "incidentState", Text);
    SpellIncidentState(f.json, f.java);
    Entry2(f, "incident", "state");
  }

  lemma PartsInternalIntegrationUser(p0: string, p1: string, p2: string)
    requires p0 == "internal" && p1 == "integration" && p2 == "user"
    ensures SnakeParts([p0, p1, p2])
    ensures Capitalized(p1) == "Integration" && Capitalized(p2) == "User"
  {
  }

  lemma SpellInternalIntegrationUser(j: string, v: string)
    requires j == "internal_integration_user" && v == "internalIntegrationUser"
    ensures j == "internal" + "_" + "integration" + "_" + "user"
    ensures v == "internal" + "Integration" + "User"
  {
  }

  lemma NamesInternalIntegrationUser(i: nat)
    requires i == 5
    ensures NamedByParts(Chunk6[i], ["internal", "integration", "user"])
  {
    var f := Chunk6[i];
    assert f == FieldSpec("internal_integration_user", "internalIntegrationUser", Text);
    PartsInternalIntegrationUser("internal", "integration", "user");
    SpellInternalIntegrationUser(f.json, f.java);
    Entry3(f, "internal", "integration", "user");
  }

  lemma NamesIntroduction(i: nat)
    requires i == 6
    ensures NamedByParts(Chunk6[i], ["introduction"])
  {
    var f := Chunk6[i];
    assert f == FieldSpec("introduction", "introduction", Text);
    Entry1(f, "introduction");
  }

  lemma NamesKnowledge(i: nat)
    requires i == 7
    ensures NamedByParts(Chunk6[i], ["knowledge"])
  {
    var f := Chunk6[i];
    assert f == FieldSpec("knowledge", "knowledge", Text);
    Entry1(f, "knowledge");
  }

  lemma Chunk6Named(i: nat)
    requires i < |Chunk6|
    ensures WellNamed(Chunk6[i])
  {
    if i == 0 {
      NamesGender(i);
    } else if i == 1 {
      NamesGroupList(i);
    } else if i == 2 {
      NamesHomePhone(i);
    } else if i == 3 {
      NamesImpact(i);
    } else if i == 4 {
      NamesIncidentState(i);
    } else if i == 5 {
      NamesInternalIntegrationUser(i);
    } else if i == 6 {
      NamesIntroduction(i);
    } else if i == 7 {
      NamesKnowledge(i);
    }
  }

  lemma Chunk6Sorted()
    ensures SortedByJson(Chunk6)
  {
    assert NameBelowAt(Chunk6[0].json, Chunk6[1].json, 1);
    assert NameBelowAt(Chunk6[1].json, Chunk6[2].json, 0);
    assert NameBelowAt(Chunk6[2].json, Chunk6[3].json, 0);
    assert NameBelowAt(Chunk6[3].json, Chunk6[4].json, 1);
    assert NameBelowAt(Chunk6[4].json, Chunk6[5].json, 2);
    assert NameBelowAt(Chunk6[5].json, Chunk6[6].json, 3);
    assert NameBelowAt(Chunk6[6].json, Chunk6[7].json, 0);
  }

  lemma Chunk6Kinds()
    ensures AllKindsOk(Chunk6)
  {
  }

  lemma Chunk6Ok()
    ensures AllWellNamed(Chunk6) && SortedByJson(Chunk6)
  {
    forall i | 0 <= i < |Chunk6|
      ensures WellNamed(Chunk6[i])
    {
      Chunk6Named(i);
    }
    Chunk6Sorted();
  }

  lemma SpellLastLogin(j: string, v: string)
    requires j == "last_login" && v == "lastLogin"
    ensures j == "last" + "_" + "login"
    ensures v == "last" + "Login"
  {
  }

  lemma NamesLastLogin(i: nat)
    requires i == 0
    ensures NamedByParts(Chunk7[i], ["last", "login"])
  {
    var f := Chunk7[i];
    assert f == FieldSpec("last_login", "lastLogin", Text);
    SpellLastLogin(f.json, f.java);
    Entry2(f, "last", "login");
  }

  lemma PartsLastLoginTime(p0: string, p1: string, p2: string)
    requires p0 == "last" && p1 == "login" && p2 == "time"
    ensures SnakeParts([p0, p1, p2])
    ensures Capitalized(p1) == "Login" && Capitalized(p2) == "Time"
  {
  }

  lemma SpellLastLoginTime(j: string, v: string)
    requires j == "last_login_time" && v == "lastLoginTime"
    ensures j == "last" + "_" + "login" + "_" + "time"
    ensures v == "last" + "Login" + "Time"
  {
  }

  lemma NamesLastLoginTime(i: nat)
    requires i == 1
    ensures NamedByParts(Chunk7[i], ["last", "login", "time"])
  {
    var f := Chunk7[i];
    assert f == FieldSpec("last_login_time", "lastLoginTime", Text);
    PartsLastLoginTime("last", "login", "time");
    SpellLastLoginTime(f.json, f.java);
    Entry3(f, "last", "login", "time");
  }

  lemma SpellLastName(j: string, v: string)
    requires j == "last_name" && v == "lastName"
    ensures j == "last" + "_" + "name"
    ensures v == "last" + "Name"
  {
  }

  lemma NamesLastName(i: nat)
    requires i == 2
    ensures NamedByParts(Chunk7[i], ["last", "name"])
  {
    var f := Chunk7[i];
    assert f == FieldSpec("last_name", "lastName", Text);
    SpellLastName(f.json, f.java);
    Entry2(f, "last", "name");
  }

  lemma SpellLdapServer(j: string, v: string)
    requires j == "ldap_server" && v == "ldapServer"
    ensures j == "ldap" + "_" + "server"
    ensures v == "ldap" + "Server"
  {
  }

  lemma NamesLdapServer(i: nat)
    requires i == 3
    ensures NamedByParts(Chunk7[i], ["ldap", "server"])
  {
    var f := Chunk7[i];
    assert f == FieldSpec("ldap_server", "ldapServer", Text);
    SpellLdapServer(f.json, f.java);
    Entry2(f, "ldap", "server");
  }

  lemma NamesLocation(i: nat)
    requires i == 4
    ensures NamedByParts(Chunk7[i], ["location"])
  {
    var f := Chunk7[i];
    assert f == FieldSpec("location", "location", Ref);
    Entry1(f, "location");
  }

  lemma SpellLockedOut(j: string, v: string)
    requires j == "locked_out" && v == "lockedOut"
    ensures j == "locked" + "_" + "out"
    ensures v == "locked" + "Out"
  {
  }

  lemma NamesLockedOut(i: nat)
    requires i == 5
    ensures NamedByParts(Chunk7[i], ["locked", "out"])
  {
    var f := Chunk7[i];
    assert f == FieldSpec("locked_out", "lockedOut", Text);
    SpellLockedOut(f.json, f.java);
    Entry2(f, "locked", "out");
  }

  lemma SpellMadeSla(j: string, v: string)
    requires j == "made_sla" && v == "madeSla"
    ensures j == "made" + "_" + "sla"
    ensures v == "made" + "Sla"
  {
  }

  lemma NamesMadeSla(i: nat)
    requires i == 6
    ensures NamedByParts(Chunk7[i], ["made", "sla"])
  {
    var f := Chunk7[i];
    assert f == FieldSpec("made_sla", "madeSla", Text);
    SpellMadeSla(f.json, f.java);
    Entry2(f, "made", "sla");
  }

  lemma NamesManager(i: nat)
    requires i == 7
    ensures NamedByParts(Chunk7[i], ["manager"])
  {
    var f := Chunk7[i];
    assert f == FieldSpec("manager", "manager", Ref);
    Entry1(f, "manager");
  }

  lemma Chunk7Named(i: nat)
    requires i < |Chunk7|
    ensures WellNamed(Chunk7[i])
  {
    if i == 0 {
      NamesLastLogin(i);
    } else if i == 1 {
      NamesLastLoginTime(i);
    } else if i == 2 {
      NamesLastName(i);
    } else if i == 3 {
      NamesLdapServer(i);
    } else if i == 4 {
      NamesLocation(i);
    } else if i == 5 {
      NamesLockedOut(i);
    } else if i == 6 {
      NamesMadeSla(i);
    } else if i == 7 {
      NamesManager(i);
    }
  }

  lemma Chunk7Sorted()
    ensures SortedByJson(Chunk7)
  {
    assert NameBelowAt(Chunk7[0].json, Chunk7[1].json, 10);
    assert NameBelowAt(Chunk7[1].json, Chunk7[2].json, 5);
    assert NameBelowAt(Chunk7[2].json, Chunk7[3].json, 1);
    assert NameBelowAt(Chunk7[3].json, Chunk7[4].json, 1);
    assert NameBelowAt(Chunk7[4].json, Chunk7[5].json, 3);
    assert NameBelowAt(Chunk7[5].json, Chunk7[6].json, 0);
    assert NameBelowAt(Chunk7[6].json, Chunk7[7].json, 2);
  }

  lemma Chunk7Kinds()
    ensures AllKindsOk(Chunk7)
  {
  }

  lemma Chunk7Ok()
    ensures AllWellNamed(Chunk7) && SortedByJson(Chunk7)
  {
    forall i | 0 <= i < |Chunk7|
      ensures WellNamed(Chunk7[i])
    {
      Chunk7Named(i);
    }
    Chunk7Sorted();
  }

  lemma SpellMiddleName(j: string, v: string)
    requires j == "middle_name" && v == "middleName"
    ensures j == "middle" + "_" + "name"
    ensures v == "middle" + "Name"
  {
  }

  lemma NamesMiddleName(i: nat)
    requires i == 0
    ensures NamedByParts(Chunk8[i], ["middle", "name"])
  {
    var f := Chunk8[i];
    assert f == FieldSpec("middle_name", "middleName", Text);
    SpellMiddleName(f.json, f.java);
    Entry2(f, "middle", "name");
  }

  lemma SpellMobilePhone(j: string, v: string)
    requires j == "mobile_phone" && v == "mobilePhone"
    ensures j == "mobile" + "_" + "phone"
    ensures v == "mobile" + "Phone"
  {
  }

  lemma NamesMobilePhone(i: nat)
    requires i == 1
    ensures NamedByParts(Chunk8[i], ["mobile", "phone"])
  {
    var f := Chunk8[i];
    assert f == FieldSpec("mobile_phone", "mobilePhone", Text);
    SpellMobilePhone(f.json, f.java);
    Entry2(f, "mobile", "phone");
  }

  lemma NamesName(i: nat)
    requires i == 2
    ensures NamedByParts(Chunk8[i], ["name"])
  {
    var f := Chunk8[i];
    assert f == FieldSpec("name", "name", Text);
    Entry1(f, "name");
  }

  lemma NamesNotification(i: nat)
    requires i == 3
    ensures NamedByParts(Chunk8[i], ["notification"])
  {
    var f := Chunk8[i];
    assert f == FieldSpec("notification", "notification", Text);
    Entry1(f, "notification");
  }

  lemma NamesNotify(i: nat)
    requires i == 4
    ensures NamedByParts(Chunk8[i], ["notify"])
  {
    var f := Chunk8[i];
    assert f == FieldSpec("notify", "notify", Text);
    Entry1(f, "notify");
  }

  lemma NamesNumber(i: nat)
    requires i == 5
    ensures NamedByParts(Chunk8[i], ["number"])
  {
    var f := Chunk8[i];
    assert f == FieldSpec("number", "number", Text);
    Entry1(f, "number");
  }

  lemma SpellOpenedAt(j: string, v: string)
    requires j == "opened_at" && v == "openedAt"
    ensures j == "opened" + "_" + "at"
    ensures v == "opened" + "At"
  {
  }

  lemma NamesOpenedAt(i: nat)
    requires i == 6
    ensures NamedByParts(Chunk8[i], ["opened", "at"])
  {
    var f := Chunk8[i];
    assert f == FieldSpec("opened_at", "openedAt", Text);
    SpellOpenedAt(f.json, f.java);
    Entry2(f, "opened", "at");
  }

  lemma SpellOpenedBy(j: string, v: string)
    requires j == "opened_by" && v == "openedBy"
    ensures j == "opened" + "_" + "by"
    ensures v == "opened" + "By"
  {
  }

  lemma NamesOpenedBy(i: nat)
    requires i == 7
    ensures NamedByParts(Chunk8[i], ["opened", "by"])
  {
    var f := Chunk8[i];
    assert f == FieldSpec("opened_by", "openedBy", Ref);
    SpellOpenedBy(f.json, f.java);
    Entry2(f, "opened", "by");
  }

  lemma Chunk8Named(i: nat)
    requires i < |Chunk8|
    ensures WellNamed(Chunk8[i])
  {
    if i == 0 {
      NamesMiddleName(i);
    } else if i == 1 {
      NamesMobilePhone(i);
    } else if i == 2 {
      NamesName(i);
    } else if i == 3 {
      NamesNotification(i);
    } else if i == 4 {
      NamesNotify(i);
    } else if i == 5 {
      NamesNumber(i);
    } else if i == 6 {
      NamesOpenedAt(i);
    } else if i == 7 {
      NamesOpenedBy(i);
    }
  }

  lemma Chunk8Sorted()
    ensures SortedByJson(Chunk8)
  {
    assert NameBelowAt(Chunk8[0].json, Chunk8[1].json, 1);
    assert NameBelowAt(Chunk8[1].json, Chunk8[2].json, 0);
    assert NameBelowAt(Chunk8[2].json, Chunk8[3].json, 1);
    assert NameBelowAt(Chunk8[3].json, Chunk8[4].json, 5);
    assert NameBelowAt(Chunk8[4].json, Chunk8[5].json, 1);
    assert NameBelowAt(Chunk8[5].json, Chunk8[6].json, 0);
    assert NameBelowAt(Chunk8[6].json, Chunk8[7].json, 7);
  }

  lemma Chunk8Kinds()
    ensures AllKindsOk(Chunk8)
  {
  }

  lemma Chunk8Ok()
    ensures AllWellNamed(Chunk8) && SortedByJson(Chunk8)
  {
    forall i | 0 <= i < |Chunk8|
      ensures WellNamed(Chunk8[i])
    {
      Chunk8Named(i);
    }
    Chunk8Sorted();
  }

  lemma NamesOrder(i: nat)
    requires i == 0
    ensures NamedByParts(Chunk9[i], ["order"])
  {
    var f := Chunk9[i];
    assert f == FieldSpec("order", "order", Text);
    Entry1(f, "order");
  }

  lemma NamesParent(i: nat)
    requires i == 1
    ensures NamedByParts(Chunk9[i], ["parent"])
  {
    var f := Chunk9[i];
    assert f == FieldSpec("parent", "parent", Ref);
    Entry1(f, "parent");
  }

  lemma SpellParentIncident(j: string, v: string)
    requires j == "parent_incident" && v == "parentIncident"
    ensures j == "parent" + "_" + "incident"
    ensures v == "parent" + "Incident"
  {
  }

  lemma NamesParentIncident(i: nat)
    requires i == 2
    ensures NamedByParts(Chunk9[i], ["parent", "incident"])
  {
    var f := Chunk9[i];
    assert f == FieldSpec("parent_incident", "parentIncident", Text);
    SpellParentIncident(f.json, f.java);
    Entry2(f, "parent", "incident");
  }

  lemma PartsPasswordNeedsReset(p0: string, p1: string, p2: string)
    requires p0 == "password" && p1 == "needs" && p2 == "reset"
    ensures SnakeParts([p0, p1, p2])
    ensures Capitalized(p1) == "Needs" && Capitalized(p2) == "Reset"
  {
  }

  lemma SpellPasswordNeedsReset(j: string, v: string)
    requires j == "password_needs_reset" && v == "passwordNeedsReset"
    ensures j == "password" + "_" + "needs" + "_" + "reset"
    ensures v == "password" + "Needs" + "Reset"
  {
  }

  lemma NamesPasswordNeedsReset(i: nat)
    requires i == 3
    ensures NamedByParts(Chunk9[i], ["password", "needs", "reset"])
  {
    var f := Chunk9[i];
    assert f == FieldSpec("password_needs_reset", "passwordNeedsReset", Text);
    PartsPasswordNeedsReset("password", "needs", "reset");
    SpellPasswordNeedsReset(f.json, f.java);
    Entry3(f, "password", "needs", "reset");
  }

  lemma NamesPhone(i: nat)
    requires i == 4
    ensures NamedByParts(Chunk9[i], ["phone"])
  {
    var f := Chunk9[i];
    assert f == FieldSpec("phone", "phone", Text);
    Entry1(f, "phone");
  }

  lemma NamesPhoto(i: nat)
    requires i == 5
    ensures NamedByParts(Chunk9[i], ["photo"])
  {
    var f := Chunk9[i];
    assert f == FieldSpec("photo", "photo", Text);
    Entry1(f, "photo");
  }

  lemma SpellPreferredLanguage(j: string, v: string)
    requires j == "preferred_language" && v == "preferredLanguage"
    ensures j == "preferred" + "_" + "language"
    ensures v == "preferred" + "Language"
  {
  }

  lemma NamesPreferredLanguage(i: nat)
    requires i == 6
    ensures NamedByParts(Chunk9[i], ["preferred", "language"])
  {
    var f := Chunk9[i];
    assert f == FieldSpec("preferred_language", "preferredLanguage", Text);
    SpellPreferredLanguage(f.json, f.java);
    Entry2(f, "preferred", "language");
  }

  lemma NamesPriority(i: nat)
    requires i == 7
    ensures NamedByParts(Chunk9[i], ["priority"])
  {
    var f := Chunk9[i];
    assert f == FieldSpec("priority", "priority", Text);
    Entry1(f, "priority");
  }

  lemma Chunk9Named(i: nat)
    requires i < |Chunk9|
    ensures WellNamed(Chunk9[i])
  {
    if i == 0 {
      NamesOrder(i);
    } else if i == 1 {
      NamesParent(i);
    } else if i == 2 {
      NamesParentIncident(i);
    } else if i == 3 {
      NamesPasswordNeedsReset(i);
    } else if i == 4 {
      NamesPhone(i);
    } else if i == 5 {
      NamesPhoto(i);
    } else if i == 6 {
      NamesPreferredLanguage(i);
    } else if i == 7 {
      NamesPriority(i);
    }
  }

  lemma Chunk9Sorted()
    ensures SortedByJson(Chunk9)
  {
    assert NameBelowAt(Chunk9[0].json, Chunk9[1].json, 0);
    assert NameBelowAt(Chunk9[1].json, Chunk9[2].json, 6);
    assert NameBelowAt(Chunk9[2].json, Chunk9[3].json, 2);
    assert NameBelowAt(Chunk9[3].json, Chunk9[4].json, 1);
    assert NameBelowAt(Chunk9[4].json, Chunk9[5].json, 3);
    assert NameBelowAt(Chunk9[5].json, Chunk9[6].json, 1);
    assert NameBelowAt(Chunk9[6].json, Chunk9[7].json, 2);
  }

  lemma Chunk9Kinds()
    ensures AllKindsOk(Chunk9)
  {
  }

  lemma Chunk9Ok()
    ensures AllWellNamed(Chunk9) && SortedByJson(Chunk9)
  {
    forall i | 0 <= i < |Chunk9|
      ensures WellNamed(Chunk9[i])
    {
      Chunk9Named(i);
    }
    Chunk9Sorted();
  }

  lemma SpellProblemId(j: string, v: string)
    requires j == "problem_id" && v == "problemId"
    ensures j == "problem" + "_" + "id"
    ensures v == "problem" + "Id"
  {
  }

  lemma NamesProblemId(i: nat)
    requires i == 0
    ensures NamedByParts(Chunk10[i], ["problem", "id"])
  {
    var f := Chunk10[i];
    assert f == FieldSpec("problem_id", "problemId", Text);
    SpellProblemId(f.json, f.java);
    Entry2(f, "problem", "id");
  }

  lemma SpellReassignmentCount(j: string, v: string)
    requires j == "reassignment_count" && v == "reassignmentCount"
    ensures j == "reassignment" + "_" + "count"
    ensures v == "reassignment" + "Count"
  {
  }

  lemma NamesReassignmentCount(i: nat)
    requires i == 1
    ensures NamedByParts(Chunk10[i], ["reassignment", "count"])
  {
    var f := Chunk10[i];
    assert f == FieldSpec("reassignment_count", "reassignmentCount", Text);
    SpellReassignmentCount(f.json, f.java);
    Entry2(f, "reassignment", "count");
  }

  lemma SpellRejectionGoto(j: string, v: string)
    requires j == "rejection_goto" && v == "rejectionGoto"
    ensures j == "rejection" + "_" + "goto"
    ensures v == "rejection" + "Goto"
  {
  }

  lemma NamesRejectionGoto(i: nat)
    requires i == 2
    ensures NamedByParts(Chunk10[i], ["rejection", "goto"])
  {
    var f := Chunk10[i];
    assert f == FieldSpec("rejection_goto", "rejectionGoto", Text);
    SpellRejectionGoto(f.json, f.java);
    Entry2(f, "rejection", "goto");
  }

  lemma SpellReopenCount(j: string, v: string)
    requires j == "reopen_count" && v == "reopenCount"
    ensures j == "reopen" + "_" + "count"
    ensures v == "reopen" + "Count"
  {
  }

  lemma NamesReopenCount(i: nat)
    requires i == 3
    ensures NamedByParts(Chunk10[i], ["reopen", "count"])
  {
    var f := Chunk10[i];
    assert f == FieldSpec("reopen_count", "reopenCount", Text);
    SpellReopenCount(f.json, f.java);
    Entry2(f, "reopen", "count");
  }

  lemma SpellResolvedAt(j: string, v: string)
    requires j == "resolved_at" && v == "resolvedAt"
    ensures j == "resolved" + "_" + "at"
    ensures v == "resolved" + "At"
  {
  }

  lemma NamesResolvedAt(i: nat)
    requires i == 4
    ensures NamedByParts(Chunk10[i], ["resolved", "at"])
  {
    var f := Chunk10[i];
    assert f == FieldSpec("resolved_at", "resolvedAt", Text);
    SpellResolvedAt(f.json, f.java);
    Entry2(f, "resolved", "at");
  }

  lemma SpellResolvedBy(j: string, v: string)
    requires j == "resolved_by" && v == "resolvedBy"
    ensures j == "resolved" + "_" + "by"
    ensures v == "resolved" + "By"
  {
  }

  lemma NamesResolvedBy(i: nat)
    requires i == 5
    ensures NamedByParts(Chunk10[i], ["resolved", "by"])
  {
    var f := Chunk10[i];
    assert f == FieldSpec("resolved_by", "resolvedBy", Text);
    SpellResolvedBy(f.json, f.java);
    Entry2(f, "resolved", "by");
  }

  lemma NamesRfc(i: nat)
    requires i == 6
    ensures NamedByParts(Chunk10[i], ["rfc"])
  {
    var f := Chunk10[i];
    assert f == FieldSpec("rfc", "rfc", Text);
    Entry1(f, "rfc");
  }

  lemma NamesRoles(i: nat)
    requires i == 7
    ensures NamedByParts(Chunk10[i], ["roles"])
  {
    var f := Chunk10[i];
    assert f == FieldSpec("roles", "roles", Text);
    Entry1(f, "roles");
  }

  lemma Chunk10Named(i: nat)
    requires i < |Chunk10|
    ensures WellNamed(Chunk10[i])
  {
    if i == 0 {
      NamesProblemId(i);
    } else if i == 1 {
      NamesReassignmentCount(i);
    } else if i == 2 {
      NamesRejectionGoto(i);
    } else if i == 3 {
      NamesReopenCount(i);
    } else if i == 4 {
      NamesResolvedAt(i);
    } else if i == 5 {
      NamesResolvedBy(i);
    } else if i == 6 {
      NamesRfc(i);
    } else if i == 7 {
      NamesRoles(i);
    }
  }

  lemma Chunk10Sorted()
    ensures SortedByJson(Chunk10)
  {
    assert NameBelowAt(Chunk10[0].json, Chunk10[1].json, 0);
    assert NameBelowAt(Chunk10[1].json, Chunk10[2].json, 2);
    assert NameBelowAt(Chunk10[2].json, Chunk10[3].json, 2);
    assert NameBelowAt(Chunk10[3].json, Chunk10[4].json, 2);
    assert NameBelowAt(Chunk10[4].json, Chunk10[5].json, 9);
    assert NameBelowAt(Chunk10[5].json, Chunk10[6].json, 1);
    assert NameBelowAt(Chunk10[6].json, Chunk10[7].json, 1);
  }

  lemma Chunk10Kinds()
    ensures AllKindsOk(Chunk10)
  {
  }

  lemma Chunk10Ok()
    ensures AllWellNamed(Chunk10) && SortedByJson(Chunk10)
  {
    forall i | 0 <= i < |Chunk10|
      ensures WellNamed(Chunk10[i])
    {
      Chunk10Named(i);
    }
    Chunk10Sorted();
  }

  lemma NamesSchedule(i: nat)
    requires i == 0
    ensures NamedByParts(Chunk11[i], ["schedule"])
  {
    var f := Chunk11[i];
    assert f == FieldSpec("schedule", "schedule", Ref);
    Entry1(f, "schedule");
  }

  lemma NamesSeverity(i: nat)
    requires i == 1
    ensures NamedByParts(Chunk11[i], ["severity"])
  {
    var f := Chunk11[i];
    assert f == FieldSpec("severity", "severity", Text);
    Entry1(f, "severity");
  }

  lemma SpellShortDescription(j: string, v: string)
    requires j == "short_description" && v == "shortDescription"
    ensures j == "short" + "_" + "description"
    ensures v == "short" + "Description"
  {
  }

  lemma NamesShortDescription(i: nat)
    requires i == 2
    ensures NamedByParts(Chunk11[i], ["short", "description"])
  {
    var f := Chunk11[i];
    assert f == FieldSpec("short_description", "shortDescription", Text);
    SpellShortDescription(f.json, f.java);
    Entry2(f, "short", "description");
  }

  lemma SpellSlaDue(j: string, v: string)
    requires j == "sla_due" && v == "slaDue"
    ensures j == "sla" + "_" + "due"
    ensures v == "sla" + "Due"
  {
  }

  lemma NamesSlaDue(i: nat)
    requires i == 3
    ensures NamedByParts(Chunk11[i], ["sla", "due"])
  {
    var f := Chunk11[i];
    assert f == FieldSpec("sla_due", "slaDue", Text);
    SpellSlaDue(f.json, f.java);
    Entry2(f, "sla", "due");
  }

  lemma NamesSource(i: nat)
    requires i == 4
    ensures NamedByParts(Chunk11[i], ["source"])
  {
    var f := Chunk11[i];
    assert f == FieldSpec("source", "source", Text);
    Entry1(f, "source");
  }

  lemma NamesState(i: nat)
    requires i == 5
    ensures NamedByParts(Chunk11[i], ["state"])
  {
    var f := Chunk11[i];
    assert f == FieldSpec("state", "state", Text);
    Entry1(f, "state");
  }

  lemma NamesStreet(i: nat)
    requires i == 6
    ensures NamedByParts(Chunk11[i], ["street"])
  {
    var f := Chunk11[i];
    assert f == FieldSpec("street", "street", Text);
    Entry1(f, "street");
  }

  lemma NamesSubcategory(i: nat)
    requires i == 7
    ensures NamedByParts(Chunk11[i], ["subcategory"])
  {
    var f := Chunk11[i];
    assert f == FieldSpec("subcategory", "subcategory", Text);
    Entry1(f, "subcategory");
  }

  lemma Chunk11Named(i: nat)
    requires i < |Chunk11|
    ensures WellNamed(Chunk11[i])
  {
    if i == 0 {
      NamesSchedule(i);
    } else if i == 1 {
      NamesSeverity(i);
    } else if i == 2 {
      NamesShortDescription(i);
    } else if i == 3 {
      NamesSlaDue(i);
    } else if i == 4 {
      NamesSource(i);
    } else if i == 5 {
      NamesState(i);
    } else if i == 6 {
      NamesStreet(i);
    } else if i == 7 {
      NamesSubcategory(i);
    }
  }

  lemma Chunk11Sorted()
    ensures SortedByJson(Chunk11)
  {
    assert NameBelowAt(Chunk11[0].json, Chunk11[1].json, 1);
    assert NameBelowAt(Chunk11[1].json, Chunk11[2].json, 1);
    assert NameBelowAt(Chunk11[2].json, Chunk11[3].json, 1);
    assert NameBelowAt(Chunk11[3].json, Chunk11[4].json, 1);
    assert NameBelowAt(Chunk11[4].json, Chunk11[5].json, 1);
    assert NameBelowAt(Chunk11[5].json, Chunk11[6].json, 2);
    assert NameBelowAt(Chunk11[6].json, Chunk11[7].json, 1);
  }

  lemma Chunk11Kinds()
    ensures AllKindsOk(Chunk11)
  {
  }

  lemma Chunk11Ok()
    ensures AllWellNamed(Chunk11) && SortedByJson(Chunk11)
  {
    forall i | 0 <= i < |Chunk11|
      ensures WellNamed(Chunk11[i])
    {
      Chunk11Named(i);
    }
    Chunk11Sorted();
  }

  lemma PartsSysClassName(p0: string, p1: string, p2: string)
    requires p0 == "sys" && p1 == "class" && p2 == "name"
    ensures SnakeParts([p0, p1, p2])
    ensures Capitalized(p1) == "Class" && Capitalized(p2) == "Name"
  {
  }

  lemma SpellSysClassName(j: string, v: string)
    requires j == "sys_class_name" && v == "sysClassName"
    ensures j == "sys" + "_" + "class" + "_" + "name"
    ensures v == "sys" + "Class" + "Name"
  {
  }

  lemma NamesSysClassName(i: nat)
    requires i == 0
    ensures NamedByParts(Chunk12[i], ["sys", "class", "name"])
  {
    var f := Chunk12[i];
    assert f == FieldSpec("sys_class_name", "sysClassName", Text);
    PartsSysClassName("sys", "class", "name");
    SpellSysClassName(f.json, f.java);
    Entry3(f, "sys", "class", "name");
  }

  lemma PartsSysCreatedBy(p0: string, p1: string, p2: string)
    requires p0 == "sys" && p1 == "created" && p2 == "by"
    ensures SnakeParts([p0, p1, p2])
    ensures Capitalized(p1) == "Created" && Capitalized(p2) == "By"
  {
  }

  lemma SpellSysCreatedBy(j: string, v: string)
    requires j == "sys_created_by" && v == "sysCreatedBy"
    ensures j == "sys" + "_" + "created" + "_" + "by"
    ensures v == "sys" + "Created" + "By"
  {
  }

  lemma NamesSysCreatedBy(i: nat)
    requires i == 1
    ensures NamedByParts(Chunk12[i], ["sys", "created", "by"])
  {
    var f := Chunk12[i];
    assert f == FieldSpec("sys_created_by", "sysCreatedBy", Text);
    PartsSysCreatedBy("sys", "created", "by");
    SpellSysCreatedBy(f.json, f.java);
    Entry3(f, "sys", "created", "by");
  }

  lemma PartsSysCreatedOn(p0: string, p1: string, p2: string)
    requires p0 == "sys" && p1 == "created" && p2 == "on"
    ensures SnakeParts([p0, p1, p2])
    ensures Capitalized(p1) == "Created" && Capitalized(p2) == "On"
  {
  }

  lemma SpellSysCreatedOn(j: string, v: string)
    requires j == "sys_created_on" && v == "sysCreatedOn"
    ensures j == "sys" + "_" + "created" + "_" + "on"
    ensures v == "sys" + "Created" + "On"
  {
  }

  lemma NamesSysCreatedOn(i: nat)
    requires i == 2
    ensures NamedByParts(Chunk12[i], ["sys", "created", "on"])
  {
    var f := Chunk12[i];
    assert f == FieldSpec("sys_created_on", "sysCreatedOn", Text);
    PartsSysCreatedOn("sys", "created", "on");
    SpellSysCreatedOn(f.json, f.java);
    Entry3(f, "sys", "created", "on");
  }

  lemma SpellSysDomain(j: string, v: string)
    requires j == "sys_domain" && v == "sysDomain"
    ensures j == "sys" + "_" + "domain"
    ensures v == "sys" + "Domain"
  {
  }

  lemma NamesSysDomain(i: nat)
    requires i == 3
    ensures NamedByParts(Chunk12[i], ["sys", "domain"])
  {
    var f := Chunk12[i];
    assert f == FieldSpec("sys_domain", "sysDomain", Ref);
    SpellSysDomain(f.json, f.java);
    Entry2(f, "sys", "domain");
  }

  lemma PartsSysDomainPath(p0: string, p1: string, p2: string)
    requires p0 == "sys" && p1 == "domain" && p2 == "path"
    ensures SnakeParts([p0, p1, p2])
    ensures Capitalized(p1) == "Domain" && Capitalized(p2) == "Path"
  {
  }

  lemma SpellSysDomainPath(j: string, v: string)
    requires j == "sys_domain_path" && v == "sysDomainPath"
    ensures j == "sys" + "_" + "domain" + "_" + "path"
    ensures v == "sys" + "Domain" + "Path"
  {
  }

  lemma NamesSysDomainPath(i: nat)
    requires i == 4
    ensures NamedByParts(Chunk12[i], ["sys", "domain", "path"])
  {
    var f := Chunk12[i];
    assert f == FieldSpec("sys_domain_path", "sysDomainPath", Text);
    PartsSysDomainPath("sys", "domain", "path");
    SpellSysDomainPath(f.json, f.java);
    Entry3(f, "sys", "domain", "path");
  }

  lemma SpellSysId(j: string, v: string)
    requires j == "sys_id" && v == "sysId"
    ensures j == "sys" + "_" + "id"
    ensures v == "sys" + "Id"
  {
  }

  lemma NamesSysId(i: nat)
    requires i == 5
    ensures NamedByParts(Chunk12[i], ["sys", "id"])
  {
    var f := Chunk12[i];
    assert f == FieldSpec("sys_id", "sysId", Text);
    SpellSysId(f.json, f.java);
    Entry2(f, "sys", "id");
  }

  lemma PartsSysModCount(p0: string, p1: string, p2: string)
    requires p0 == "sys" && p1 == "mod" && p2 == "count"
    ensures SnakeParts([p0, p1, p2])
    ensures Capitalized(p1) == "Mod" && Capitalized(p2) == "Count"
  {
  }

  lemma SpellSysModCount(j: string, v: string)
    requires j == "sys_mod_count" && v == "sysModCount"
    ensures j == "sys" + "_" + "mod" + "_" + "count"
    ensures v == "sys" + "Mod" + "Count"
  {
  }

  lemma NamesSysModCount(i: nat)
    requires i == 6
    ensures NamedByParts(Chunk12[i], ["sys", "mod", "count"])
  {
    var f := Chunk12[i];
    assert f == FieldSpec("sys_mod_count", "sysModCount", Text);
    PartsSysModCount("sys", "mod", "count");
    SpellSysModCount(f.json, f.java);
    Entry3(f, "sys", "mod", "count");
  }

  lemma SpellSysTags(j: string, v: string)
    requires j == "sys_tags" && v == "sysTags"
    ensures j == "sys" + "_" + "tags"
    ensures v == "sys" + "Tags"
  {
  }

  lemma NamesSysTags(i: nat)
    requires i == 7
    ensures NamedByParts(Chunk12[i], ["sys", "tags"])
  {
    var f := Chunk12[i];
    assert f == FieldSpec("sys_tags", "sysTags", Text);
    SpellSysTags(f.json, f.java);
    Entry2(f, "sys", "tags");
  }

  lemma Chunk12Named(i: nat)
    requires i < |Chunk12|
    ensures WellNamed(Chunk12[i])
  {
    if i == 0 {
      NamesSysClassName(i);
    } else if i == 1 {
      NamesSysCreatedBy(i);
    } else if i == 2 {
      NamesSysCreatedOn(i);
    } else if i == 3 {
      NamesSysDomain(i);
    } else if i == 4 {
      NamesSysDomainPath(i);
    } else if i == 5 {
      NamesSysId(i);
    } else if i == 6 {
      NamesSysModCount(i);
    } else if i == 7 {
      NamesSysTags(i);
    }
  }

  lemma Chunk12Sorted()
    ensures SortedByJson(Chunk12)
  {
    assert NameBelowAt(Chunk12[0].json, Chunk12[1].json, 5);
    assert NameBelowAt(Chunk12[1].json, Chunk12[2].json, 12);
    assert NameBelowAt(Chunk12[2].json, Chunk12[3].json, 4);
    assert NameBelowAt(Chunk12[3].json, Chunk12[4].json, 10);
    assert NameBelowAt(Chunk12[4].json, Chunk12[5].json, 4);
    assert NameBelowAt(Chunk12[5].json, Chunk12[6].json, 4);
    assert NameBelowAt(Chunk12[6].json, Chunk12[7].json, 4);
  }

  lemma Chunk12Kinds()
    ensures AllKindsOk(Chunk12)
  {
  }

  lemma Chunk12Ok()
    ensures AllWellNamed(Chunk12) && SortedByJson(Chunk12)
  {
    forall i | 0 <= i < |Chunk12|
      ensures WellNamed(Chunk12[i])
    {
      Chunk12Named(i);
    }
    Chunk12Sorted();
  }

  lemma PartsSysUpdatedBy(p0: string, p1: string, p2: string)
    requires p0 == "sys" && p1 == "updated" && p2 == "by"
    ensures SnakeParts([p0, p1, p2])
    ensures Capitalized(p1) == "Updated" && Capitalized(p2) == "By"
  {
  }

  lemma SpellSysUpdatedBy(j: string, v: string)
    requires j == "sys_updated_by" && v == "sysUpdatedBy"
    ensures j == "sys" + "_" + "updated" + "_" + "by"
    ensures v == "sys" + "Updated" + "By"
  {
  }

  lemma NamesSysUpdatedBy(i: nat)
    requires i == 0
    ensures NamedByParts(Chunk13[i], ["sys", "updated", "by"])
  {
    var f := Chunk13[i];
    assert f == FieldSpec("sys_updated_by", "sysUpdatedBy", Text);
    PartsSysUpdatedBy("sys", "updated", "by");
    SpellSysUpdatedBy(f.json, f.java);
    Entry3(f, "sys", "updated", "by");
  }

  lemma PartsSysUpdatedOn(p0: string, p1: string, p2: string)
    requires p0 == "sys" && p1 == "updated" && p2 == "on"
    ensures SnakeParts([p0, p1, p2])
    ensures Capitalized(p1) == "Updated" && Capitalized(p2) == "On"
  {
  }

  lemma SpellSysUpdatedOn(j: string, v: string)
    requires j == "sys_updated_on" && v == "sysUpdatedOn"
    ensures j == "sys" + "_" + "updated" + "_" + "on"
    ensures v == "sys" + "Updated" + "On"
  {
  }

  lemma NamesSysUpdatedOn(i: nat)
    requires i == 1
    ensures NamedByParts(Chunk13[i], ["sys", "updated", "on"])
  {
    var f := Chunk13[i];
    assert f == FieldSpec("sys_updated_on", "sysUpdatedOn", Text);
    PartsSysUpdatedOn("sys", "updated", "on");
    SpellSysUpdatedOn(f.json, f.java);
    Entry3(f, "sys", "updated", "on");
  }

  lemma SpellTimeFormat(j: string, v: string)
    requires j == "time_format" && v == "timeFormat"
    ensures j == "time" + "_" + "format"
    ensures v == "time" + "Format"
  {
  }

  lemma NamesTimeFormat(i: nat)
    requires i == 2
    ensures NamedByParts(Chunk13[i], ["time", "format"])
  {
    var f := Chunk13[i];
    assert f == FieldSpec("time_format", "timeFormat", Text);
    SpellTimeFormat(f.json, f.java);
    Entry2(f, "time", "format");
  }

  lemma SpellTimeWorked(j: string, v: string)
    requires j == "time_worked" && v == "timeWorked"
    ensures j == "time" + "_" + "worked"
    ensures v == "time" + "Worked"
  {
  }

  lemma NamesTimeWorked(i: nat)
    requires i == 3
    ensures NamedByParts(Chunk13[i], ["time", "worked"])
  {
    var f := Chunk13[i];
    assert f == FieldSpec("time_worked", "timeWorked", Text);
    SpellTimeWorked(f.json, f.java);
    Entry2(f, "time", "worked");
  }

  lemma SpellTimeZone(j: string, v: string)
    requires j == "time_zone" && v == "timeZone"
    ensures j == "time" + "_" + "zone"
    ensures v == "time" + "Zone"
  {
  }

  lemma NamesTimeZone(i: nat)
    requires i == 4
    ensures NamedByParts(Chunk13[i], ["time", "zone"])
  {
    var f := Chunk13[i];
    assert f == FieldSpec("time_zone", "timeZone", Text);
    SpellTimeZone(f.json, f.java);
    Entry2(f, "time", "zone");
  }

  lemma NamesTitle(i: nat)
    requires i == 5
    ensures NamedByParts(Chunk13[i], ["title"])
  {
    var f := Chunk13[i];
    assert f == FieldSpec("title", "title", Text);
    Entry1(f, "title");
  }

  lemma SpellUponApproval(j: string, v: string)
    requires j == "upon_approval" && v == "uponApproval"
    ensures j == "upon" + "_" + "approval"
    ensures v == "upon" + "Approval"
  {
  }

  lemma NamesUponApproval(i: nat)
    requires i == 6
    ensures NamedByParts(Chunk13[i], ["upon", "approval"])
  {
    var f := Chunk13[i];
    assert f == FieldSpec("upon_approval", "uponApproval", Text);
    SpellUponApproval(f.json, f.java);
    Entry2(f, "upon", "approval");
  }

  lemma SpellUponReject(j: string, v: string)
    requires j == "upon_reject" && v == "uponReject"
    ensures j == "upon" + "_" + "reject"
    ensures v == "upon" + "Reject"
  {
  }

  lemma NamesUponReject(i: nat)
    requires i == 7
    ensures NamedByParts(Chunk13[i], ["upon", "reject"])
  {
    var f := Chunk13[i];
    assert f == FieldSpec("upon_reject", "uponReject", Text);
    SpellUponReject(f.json, f.java);
    Entry2(f, "upon", "reject");
  }

  lemma Chunk13Named(i: nat)
    requires i < |Chunk13|
    ensures WellNamed(Chunk13[i])
  {
    if i == 0 {
      NamesSysUpdatedBy(i);
    } else if i == 1 {
      NamesSysUpdatedOn(i);
    } else if i == 2 {
      NamesTimeFormat(i);
    } else if i == 3 {
      NamesTimeWorked(i);
    } else if i == 4 {
      NamesTimeZone(i);
    } else if i == 5 {
      NamesTitle(i);
    } else if i == 6 {
      NamesUponApproval(i);
    } else if i == 7 {
      NamesUponReject(i);
    }
  }

  lemma Chunk13Sorted()
    ensures SortedByJson(Chunk13)
  {
    assert NameBelowAt(Chunk13[0].json, Chunk13[1].json, 12);
    assert NameBelowAt(Chunk13[1].json, Chunk13[2].json, 0);
    assert NameBelowAt(Chunk13[2].json, Chunk13[3].json, 5);
    assert NameBelowAt(Chunk13[3].json, Chunk13[4].json, 5);
    assert NameBelowAt(Chunk13[4].json, Chunk13[5].json, 2);
    assert NameBelowAt(Chunk13[5].json, Chunk13[6].json, 0);
    assert NameBelowAt(Chunk13[6].json, Chunk13[7].json, 5);
  }

  lemma Chunk13Kinds()
    ensures AllKindsOk(Chunk13)
  {
  }

  lemma Chunk13Ok()
    ensures AllWellNamed(Chunk13) && SortedByJson(Chunk13)
  {
    forall i | 0 <= i < |Chunk13|
      ensures WellNamed(Chunk13[i])
    {
      Chunk13Named(i);
    }
    Chunk13Sorted();
  }

  lemma NamesUrgency(i: nat)
    requires i == 0
    ensures NamedByParts(Chunk14[i], ["urgency"])
  {
    var f := Chunk14[i];
    assert f == FieldSpec("urgency", "urgency", Text);
    Entry1(f, "urgency");
  }

  lemma SpellUserInput(j: string, v: string)
    requires j == "user_input" && v == "userInput"
    ensures j == "user" + "_" + "input"
    ensures v == "user" + "Input"
  {
  }

  lemma NamesUserInput(i: nat)
    requires i == 1
    ensures NamedByParts(Chunk14[i], ["user", "input"])
  {
    var f := Chunk14[i];
    assert f == FieldSpec("user_input", "userInput", Text);
    SpellUserInput(f.json, f.java);
    Entry2(f, "user", "input");
  }

  lemma SpellUserName(j: string, v: string)
    requires j == "user_name" && v == "userName"
    ensures j == "user" + "_" + "name"
    ensures v == "user" + "Name"
  {
  }

  lemma NamesUserName(i: nat)
    requires i == 2
    ensures NamedByParts(Chunk14[i], ["user", "name"])
  {
    var f := Chunk14[i];
    assert f == FieldSpec("user_name", "userName", Text);
    SpellUserName(f.json, f.java);
    Entry2(f, "user", "name");
  }

  lemma SpellUserPassword(j: string, v: string)
    requires j == "user_password" && v == "userPassword"
    ensures j == "user" + "_" + "password"
    ensures v == "user" + "Password"
  {
  }

  lemma NamesUserPassword(i: nat)
    requires i == 3
    ensures NamedByParts(Chunk14[i], ["user", "password"])
  {
    var f := Chunk14[i];
    assert f == FieldSpec("user_password", "userPassword", Text);
    SpellUserPassword(f.json, f.java);
    Entry2(f, "user", "password");
  }

  lemma NamesVip(i: nat)
    requires i == 4
    ensures NamedByParts(Chunk14[i], ["vip"])
  {
    var f := Chunk14[i];
    assert f == FieldSpec("vip", "vip", Text);
    Entry1(f, "vip");
  }

  lemma SpellWatchList(j: string, v: string)
    requires j == "watch_list" && v == "watchList"
    ensures j == "watch" + "_" + "list"
    ensures v == "watch" + "List"
  {
  }

  lemma NamesWatchList(i: nat)
    requires i == 5
    ensures NamedByParts(Chunk14[i], ["watch", "list"])
  {
    var f := Chunk14[i];
    assert f == FieldSpec("watch_list", "watchList", Text);
    SpellWatchList(f.json, f.java);
    Entry2(f, "watch", "list");
  }

  lemma PartsWebServiceAccessOnly(p0: string, p1: string, p2: string, p3: string)
    requires p0 == "web" && p1 == "service" && p2 == "access" && p3 == "only"
    ensures SnakeParts([p0, p1, p2, p3])
    ensures Capitalized(p1) == "Service" && Capitalized(p2) == "Access" && Capitalized(p3) == "Only"
  {
  }

  lemma SpellWebServiceAccessOnly(j: string, v: string)
    requires j == "web_service_access_only" && v == "webServiceAccessOnly"
    ensures j == "web" + "_" + "service" + "_" + "access" + "_" + "only"
    ensures v == "web" + "Service" + "Access" + "Only"
  {
  }

  lemma NamesWebServiceAccessOnly(i: nat)
    requires i == 6
    ensures NamedByParts(Chunk14[i], ["web", "service", "access", "only"])
  {
    var f := Chunk14[i];
    assert f == FieldSpec("web_service_access_only", "webServiceAccessOnly", Text);
    PartsWebServiceAccessOnly("web", "service", "access", "only");
    SpellWebServiceAccessOnly(f.json, f.java);
    Entry4(f, "web", "service", "access", "only");
  }

  lemma SpellWfActivity(j: string, v: string)
    requires j == "wf_activity" && v == "wfActivity"
    ensures j == "wf" + "_" + "activity"
    ensures v == "wf" + "Activity"
  {
  }

  lemma NamesWfActivity(i: nat)
    requires i == 7
    ensures NamedByParts(Chunk14[i], ["wf", "activity"])
  {
    var f := Chunk14[i];
    assert f == FieldSpec("wf_activity", "wfActivity", Text);
    SpellWfActivity(f.json, f.java);
    Entry2(f, "wf", "activity");
  }

  lemma Chunk14Named(i: nat)
    requires i < |Chunk14|
    ensures WellNamed(Chunk14[i])
  {
    if i == 0 {
      NamesUrgency(i);
    } else if i == 1 {
      NamesUserInput(i);
    } else if i == 2 {
      NamesUserName(i);
    } else if i == 3 {
      NamesUserPassword(i);
    } else if i == 4 {
      NamesVip(i);
    } else if i == 5 {
      NamesWatchList(i);
    } else if i == 6 {
      NamesWebServiceAccessOnly(i);
    } else if i == 7 {
      NamesWfActivity(i);
    }
  }

  lemma Chunk14Sorted()
    ensures SortedByJson(Chunk14)
  {
    assert NameBelowAt(Chunk14[0].json, Chunk14[1].json, 1);
    assert NameBelowAt(Chunk14[1].json, Chunk14[2].json, 5);
    assert NameBelowAt(Chunk14[2].json, Chunk14[3].json, 5);
    assert NameBelowAt(Chunk14[3].json, Chunk14[4].json, 0);
    assert NameBelowAt(Chunk14[4].json, Chunk14[5].json, 0);
    assert NameBelowAt(Chunk14[5].json, Chunk14[6].json, 1);
    assert NameBelowAt(Chunk14[6].json, Chunk14[7].json, 1);
  }

  lemma Chunk14Kinds()
    ensures AllKindsOk(Chunk14)
  {
  }

  lemma Chunk14Ok()
    ensures AllWellNamed(Chunk14) && SortedByJson(Chunk14)
  {
    forall i | 0 <= i < |Chunk14|
      ensures WellNamed(Chunk14[i])
    {
      Chunk14Named(i);
    }
    Chunk14Sorted();
  }

  lemma SpellWorkEnd(j: string, v: string)
    requires j == "work_end" && v == "workEnd"
    ensures j == "work" + "_" + "end"
    ensures v == "work" + "End"
  {
  }

  lemma NamesWorkEnd(i: nat)
    requires i == 0
    ensures NamedByParts(Chunk15[i], ["work", "end"])
  {
    var f := Chunk15[i];
    assert f == FieldSpec("work_end", "workEnd", Text);
    SpellWorkEnd(f.json, f.java);
    Entry2(f, "work", "end");
  }

  lemma SpellWorkNotes(j: string, v: string)
    requires j == "work_notes" && v == "workNotes"
    ensures j == "work" + "_" + "notes"
    ensures v == "work" + "Notes"
  {
  }

  lemma NamesWorkNotes(i: nat)
    requires i == 1
    ensures NamedByParts(Chunk15[i], ["work", "notes"])
  {
    var f := Chunk15[i];
    assert f == FieldSpec("work_notes", "workNotes", Text);
    SpellWorkNotes(f.json, f.java);
    Entry2(f, "work", "notes");
  }

  lemma PartsWorkNotesList(p0: string, p1: string, p2: string)
    requires p0 == "work" && p1 == "notes" && p2 == "list"
    ensures SnakeParts([p0, p1, p2])
    ensures Capitalized(p1) == "Notes" && Capitalized(p2) == "List"
  {
  }

  lemma SpellWorkNotesList(j: string, v: string)
    requires j == "work_notes_list" && v == "workNotesList"
    ensures j == "work" + "_" + "notes" + "_" + "list"
    ensures v == "work" + "Notes" + "List"
  {
  }

  lemma NamesWorkNotesList(i: nat)
    requires i == 2
    ensures NamedByParts(Chunk15[i], ["work", "notes", "list"])
  {
    var f := Chunk15[i];
    assert f == FieldSpec("work_notes_list", "workNotesList", Text);
    PartsWorkNotesList("work", "notes", "list");
    SpellWorkNotesList(f.json, f.java);
    Entry3(f, "work", "notes", "list");
  }

  lemma SpellWorkStart(j: string, v: string)
    requires j == "work_start" && v == "workStart"
    ensures j == "work" + "_" + "start"
    ensures v == "work" + "Start"
  {
  }

  lemma NamesWorkStart(i: nat)
    requires i == 3
    ensures NamedByParts(Chunk15[i], ["work", "start"])
  {
    var f := Chunk15[i];
    assert f == FieldSpec("work_start", "workStart", Text);
    SpellWorkStart(f.json, f.java);
    Entry2(f, "work", "start");
  }

  lemma NamesZip(i: nat)
    requires i == 4
    ensures NamedByParts(Chunk15[i], ["zip"])
  {
    var f := Chunk15[i];
    assert f == FieldSpec("zip", "zip", Text);
    Entry1(f, "zip");
  }

  lemma Chunk15Named(i: nat)
    requires i < |Chunk15|
    ensures WellNamed(Chunk15[i])
  {
    if i == 0 {
      NamesWorkEnd(i);
    } else if i == 1 {
      NamesWorkNotes(i);
    } else if i == 2 {
      NamesWorkNotesList(i);
    } else if i == 3 {
      NamesWorkStart(i);
    } else if i == 4 {
      NamesZip(i);
    }
  }

  lemma Chunk15Sorted()
    ensures SortedByJson(Chunk15)
  {
    assert NameBelowAt(Chunk15[0].json, Chunk15[1].json, 5);
    assert NameBelowAt(Chunk15[1].json, Chunk15[2].json, 10);
    assert NameBelowAt(Chunk15[2].json, Chunk15[3].json, 5);
    assert NameBelowAt(Chunk15[3].json, Chunk15[4].json, 0);
  }

  lemma Chunk15Kinds()
    ensures AllKindsOk(Chunk15)
  {
  }

  lemma Chunk15Ok()
    ensures AllWellNamed(Chunk15) && SortedByJson(Chunk15)
  {
    forall i | 0 <= i < |Chunk15|
      ensures WellNamed(Chunk15[i])
    {
      Chunk15Named(i);
    }
    Chunk15Sorted();
  }

  lemma UpTo1Ok()
    ensures AllWellNamed(Chunk0 + Chunk1)
    ensures SortedByJson(Chunk0 + Chunk1)
  {
    Chunk0Ok();
    Chunk1Ok();
    var a := Chunk0;
    assert a[|a| - 1] == Chunk0[7];
    assert NameBelowAt(a[|a| - 1].json, Chunk1[0].json, 0);
    AllWellNamedAppend(a, Chunk1);
    SortedAppend(a, Chunk1);
  }

  lemma UpTo2Ok()
    ensures AllWellNamed(Chunk0 + Chunk1 + Chunk2)
    ensures SortedByJson(Chunk0 + Chunk1 + Chunk2)
  {
    UpTo1Ok();
    Chunk2Ok();
    var a := Chunk0 + Chunk1;
    assert a[|a| - 1] == Chunk1[7];
    assert NameBelowAt(a[|a| - 1].json, Chunk2[0].json, 2);
    AllWellNamedAppend(a, Chunk2);
    SortedAppend(a, Chunk2);
  }

  lemma UpTo3Ok()
    ensures AllWellNamed(Chunk0 + Chunk1 + Chunk2 + Chunk3)
    ensures SortedByJson(Chunk0 + Chunk1 + Chunk2 + Chunk3)
  {
    UpTo2Ok();
    Chunk3Ok();
    var a := Chunk0 + Chunk1 + Chunk2;
    assert a[|a| - 1] == Chunk2[7];
    assert NameBelowAt(a[|a| - 1].json, Chunk3[0].json, 1);
    AllWellNamedAppend(a, Chunk3);
    SortedAppend(a, Chunk3);
  }

  lemma UpTo4Ok()
    ensures AllWellNamed(Chunk0 + Chunk1 + Chunk2 + Chunk3 + Chunk4)
    ensures SortedByJson(Chunk0 + Chunk1 + Chunk2 + Chunk3 + Chunk4)
  {
    UpTo3Ok();
    Chunk4Ok();
    var a := Chunk0 + Chunk1 + Chunk2 + Chunk3;
    assert a[|a| - 1] == Chunk3[7];
    assert NameBelowAt(a[|a| - 1].json, Chunk4[0].json, 2);
    AllWellNamedAppend(a, Chunk4);
    SortedAppend(a, Chunk4);
  }

  lemma UpTo5Ok()
    ensures AllWellNamed(Chunk0 + Chunk1 + Chunk2 + Chunk3 + Chunk4 + Chunk5)
    ensures SortedByJson(Chunk0 + Chunk1 + Chunk2 + Chunk3 + Chunk4 + Chunk5)
  {
    UpTo4Ok();
    Chunk5Ok();
    var a := Chunk0 + Chunk1 + Chunk2 + Chunk3 + Chunk4;
    assert a[|a| - 1] == Chunk4[7];
    assert NameBelowAt(a[|a| - 1].json, Chunk5[0].json, 0);
    AllWellNamedAppend(a, Chunk5);
    SortedAppend(a, Chunk5);
  }

  lemma UpTo6Ok()
    ensures AllWellNamed(Chunk0 + Chunk1 + Chunk2 + Chunk3 + Chunk4 + Chunk5 + Chunk6)
    ensures SortedByJson(Chunk0 + Chunk1 + Chunk2 + Chunk3 + Chunk4 + Chunk5 + Chunk6)
  {
    UpTo5Ok();
    Chunk6Ok();
    var a := Chunk0 + Chunk1 + Chunk2 + Chunk3 + Chunk4 + Chunk5;
    assert a[|a| - 1] == Chunk5[7];
    assert NameBelowAt(a[|a| - 1].json, Chunk6[0].json, 0);
    AllWellNamedAppend(a, Chunk6);
    SortedAppend(a, Chunk6);
  }

  lemma UpTo7Ok()
    ensures AllWellNamed(Chunk0 + Chunk1 + Chunk2 + Chunk3 + Chunk4 + Chunk5 + Chunk6 + Chunk7)
    ensures SortedByJson(Chunk0 + Chunk1 + Chunk2 + Chunk3 + Chunk4 + Chunk5 + Chunk6 + Chunk7)
  {
    UpTo6Ok();
    Chunk7Ok();
    var a := Chunk0 + Chunk1 + Chunk2 + Chunk3 + Chunk4 + Chunk5 + Chunk6;
    assert a[|a| - 1] == Chunk6[7];
    assert NameBelowAt(a[|a| - 1].json, Chunk7[0].json, 0);
    AllWellNamedAppend(a, Chunk7);
    SortedAppend(a, Chunk7);
  }

  lemma UpTo8Ok()
    ensures AllWellNamed(Chunk0 + Chunk1 + Chunk2 + Chunk3 + Chunk4 + Chunk5 + Chunk6 + Chunk7 + Chunk8)
    ensures SortedByJson(Chunk0 + Chunk1 + Chunk2 + Chunk3 + Chunk4 + Chunk5 + Chunk6 + Chunk7 + Chunk8)
  {
    UpTo7Ok();
    Chunk8Ok();
    var a := Chunk0 + Chunk1 + Chunk2 + Chunk3 + Chunk4 + Chunk5 + Chunk6 + Chunk7;
    assert a[|a| - 1] == Chunk7[7];
    assert NameBelowAt(a[|a| - 1].json, Chunk8[0].json, 1);
    AllWellNamedAppend(a, Chunk8);
    SortedAppend(a, Chunk8);
  }

  lemma UpTo9Ok()
    ensures AllWellNamed(Chunk0 + Chunk1 + Chunk2 + Chunk3 + Chunk4 + Chunk5 + Chunk6 + Chunk7 + Chunk8 + Chunk9)
    ensures SortedByJson(Chunk0 + Chunk1 + Chunk2 + Chunk3 + Chunk4 + Chunk5 + Chunk6 + Chunk7 + Chunk8 + Chunk9)
  {
    UpTo8Ok();
    Chunk9Ok();
    var a := Chunk0 + Chunk1 + Chunk2 + Chunk3 + Chunk4 + Chunk5 + Chunk6 + Chunk7 + Chunk8;
    assert a[|a| - 1] == Chunk8[7];
    assert NameBelowAt(a[|a| - 1].json, Chunk9[0].json, 1);
    AllWellNamedAppend(a, Chunk9);
    SortedAppend(a, Chunk9);
  }

  lemma UpTo10Ok()
    ensures AllWellNamed(Chunk0 + Chunk1 + Chunk2 + Chunk3 + Chunk4 + Chunk5 + Chunk6 + Chunk7 + Chunk8 + Chunk9 + Chunk10)
    ensures SortedByJson(Chunk0 + Chunk1 + Chunk2 + Chunk3 + Chunk4 + Chunk5 + Chunk6 + Chunk7 + Chunk8 + Chunk9 + Chunk10)
  {
    UpTo9Ok();
    Chunk10Ok();
    var a := Chunk0 + Chunk1 + Chunk2 + Chunk3 + Chunk4 + Chunk5 + Chunk6 + Chunk7 + Chunk8 + Chunk9;
    assert a[|a| - 1] == Chunk9[7];
    assert NameBelowAt(a[|a| - 1].json, Chunk10[0].json, 2);
    AllWellNamedAppend(a, Chunk10);
    SortedAppend(a, Chunk10);
  }

  lemma UpTo11Ok()
    ensures AllWellNamed(Chunk0 + Chunk1 + Chunk2 + Chunk3 + Chunk4 + Chunk5 + Chunk6 + Chunk7 + Chunk8 + Chunk9 + Chunk10 + Chunk11)
    ensures SortedByJson(Chunk0 + Chunk1 + Chunk2 + Chunk3 + Chunk4 + Chunk5 + Chunk6 + Chunk7 + Chunk8 + Chunk9 + Chunk10 + Chunk11)
  {
    UpTo10Ok();
    Chunk11Ok();
    var a := Chunk0 + Chunk1 + Chunk2 + Chunk3 + Chunk4 + Chunk5 + Chunk6 + Chunk7 + Chunk8 + Chunk9 + Chunk10;
    assert a[|a| - 1] == Chunk10[7];
    assert NameBelowAt(a[|a| - 1].json, Chunk11[0].json, 0);
    AllWellNamedAppend(a, Chunk11);
    SortedAppend(a, Chunk11);
  }

  lemma UpTo12Ok()
    ensures AllWellNamed(Chunk0 + Chunk1 + Chunk2 + Chunk3 + Chunk4 + Chunk5 + Chunk6 + Chunk7 + Chunk8 + Chunk9 + Chunk10 + Chunk11 + Chunk12)
    ensures SortedByJson(Chunk0 + Chunk1 + Chunk2 + Chunk3 + Chunk4 + Chunk5 + Chunk6 + Chunk7 + Chunk8 + Chunk9 + Chunk10 + Chunk11 + Chunk12)
  {
    UpTo11Ok();
    Chunk12Ok();
    var a := Chunk0 + Chunk1 + Chunk2 + Chunk3 + Chunk4 + Chunk5 + Chunk6 + Chunk7 + Chunk8 + Chunk9 + Chunk10 + Chunk11;
    assert a[|a| - 1] == Chunk11[7];
    assert NameBelowAt(a[|a| - 1].json, Chunk12[0].json, 1);
    AllWellNamedAppend(a, Chunk12);
    SortedAppend(a, Chunk12);
  }

  lemma UpTo13Ok()
    ensures AllWellNamed(Chunk0 + Chunk1 + Chunk2 + Chunk3 + Chunk4 + Chunk5 + Chunk6 + Chunk7 + Chunk8 + Chunk9 + Chunk10 + Chunk11 + Chunk12 + Chunk13)
    ensures SortedByJson(Chunk0 + Chunk1 + Chunk2 + Chunk3 + Chunk4 + Chunk5 + Chunk6 + Chunk7 + Chunk8 + Chunk9 + Chunk10 + Chunk11 + Chunk12 + Chunk13)
  {
    UpTo12Ok();
    Chunk13Ok();
    var a := Chunk0 + Chunk1 + Chunk2 + Chunk3 + Chunk4 + Chunk5 + Chunk6 + Chunk7 + Chunk8 + Chunk9 + Chunk10 + Chunk11 + Chunk12;
    assert a[|a| - 1] == Chunk12[7];
    assert NameBelowAt(a[|a| - 1].json, Chunk13[0].json, 4);
    AllWellNamedAppend(a, Chunk13);
    SortedAppend(a, Chunk13);
  }

  lemma UpTo14Ok()
    ensures AllWellNamed(Chunk0 + Chunk1 + Chunk2 + Chunk3 + Chunk4 + Chunk5 + Chunk6 + Chunk7 + Chunk8 + Chunk9 + Chunk10 + Chunk11 + Chunk12 + Chunk13 + Chunk14)
    ensures SortedByJson(Chunk0 + Chunk1 + Chunk2 + Chunk3 + Chunk4 + Chunk5 + Chunk6 + Chunk7 + Chunk8 + Chunk9 + Chunk10 + Chunk11 + Chunk12 + Chunk13 + Chunk14)
  {
    UpTo13Ok();
    Chunk14Ok();
    var a := Chunk0 + Chunk1 + Chunk2 + Chunk3 + Chunk4 + Chunk5 + Chunk6 + Chunk7 + Chunk8 + Chunk9 + Chunk10 + Chunk11 + Chunk12 + Chunk13;
    assert a[|a| - 1] == Chunk13[7];
    assert NameBelowAt(a[|a| - 1].json, Chunk14[0].json, 1);
    AllWellNamedAppend(a, Chunk14);
    SortedAppend(a, Chunk14);
  }

  lemma UpTo15Ok()
    ensures AllWellNamed(Chunk0 + Chunk1 + Chunk2 + Chunk3 + Chunk4 + Chunk5 + Chunk6 + Chunk7 + Chunk8 + Chunk9 + Chunk10 + Chunk11 + Chunk12 + Chunk13 + Chunk14 + Chunk15)
    ensures SortedByJson(Chunk0 + Chunk1 + Chunk2 + Chunk3 + Chunk4 + Chunk5 + Chunk6 + Chunk7 + Chunk8 + Chunk9 + Chunk10 + Chunk11 + Chunk12 + Chunk13 + Chunk14 + Chunk15)
  {
    UpTo14Ok();
    Chunk15Ok();
    var a := Chunk0 + Chunk1 + Chunk2 + Chunk3 + Chunk4 + Chunk5 + Chunk6 + Chunk7 + Chunk8 + Chunk9 + Chunk10 + Chunk11 + Chunk12 + Chunk13 + Chunk14;
    assert a[|a| - 1] == Chunk14[7];
    assert NameBelowAt(a[|a| - 1].json, Chunk15[0].json, 1);
    AllWellNamedAppend(a, Chunk15);
    SortedAppend(a, Chunk15);
  }

  /** Every field whose Java name is a reachable label of fromAttributes is a reference. */
  lemma TableKindsOk()
    ensures AllKindsOk(Fields)
  {
    Chunk0Kinds();
    Chunk1Kinds();
    AllKindsAppend(Chunk0, Chunk1);
    Chunk2Kinds();
    AllKindsAppend(Chunk0 + Chunk1, Chunk2);
    Chunk3Kinds();
    AllKindsAppend(Chunk0 + Chunk1 + Chunk2, Chunk3);
    Chunk4Kinds();
    AllKindsAppend(Chunk0 + Chunk1 + Chunk2 + Chunk3, Chunk4);
    Chunk5Kinds();
    AllKindsAppend(Chunk0 + Chunk1 + Chunk2 + Chunk3 + Chunk4, Chunk5);
    Chunk6Kinds();
    AllKindsAppend(Chunk0 + Chunk1 + Chunk2 + Chunk3 + Chunk4 + Chunk5, Chunk6);
    Chunk7Kinds();
    AllKindsAppend(Chunk0 + Chunk1 + Chunk2 + Chunk3 + Chunk4 + Chunk5 + Chunk6, Chunk7);
    Chunk8Kinds();
    AllKindsAppend(Chunk0 + Chunk1 + Chunk2 + Chunk3 + Chunk4 + Chunk5 + Chunk6 + Chunk7, Chunk8);
    Chunk9Kinds();
    AllKindsAppend(Chunk0 + Chunk1 + Chunk2 + Chunk3 + Chunk4 + Chunk5 + Chunk6 + Chunk7 + Chunk8, Chunk9);
    Chunk10Kinds();
    AllKindsAppend(Chunk0 + Chunk1 + Chunk2 + Chunk3 + Chunk4 + Chunk5 + Chunk6 + Chunk7 + Chunk8 + Chunk9, Chunk10);
    Chunk11Kinds();
    AllKindsAppend(Chunk0 + Chunk1 + Chunk2 + Chunk3 + Chunk4 + Chunk5 + Chunk6 + Chunk7 + Chunk8 + Chunk9 + Chunk10, Chunk11);
    Chunk12Kinds();
    AllKindsAppend(Chunk0 + Chunk1 + Chunk2 + Chunk3 + Chunk4 + Chunk5 + Chunk6 + Chunk7 + Chunk8 + Chunk9 + Chunk10 + Chunk11, Chunk12);
    Chunk13Kinds();
    AllKindsAppend(Chunk0 + Chunk1 + Chunk2 + Chunk3 + Chunk4 + Chunk5 + Chunk6 + Chunk7 + Chunk8 + Chunk9 + Chunk10 + Chunk11 + Chunk12, Chunk13);
    Chunk14Kinds();
    AllKindsAppend(Chunk0 + Chunk1 + Chunk2 + Chunk3 + Chunk4 + Chunk5 + Chunk6 + Chunk7 + Chunk8 + Chunk9 + Chunk10 + Chunk11 + Chunk12 + Chunk13, Chunk14);
    Chunk15Kinds();
    AllKindsAppend(Chunk0 + Chunk1 + Chunk2 + Chunk3 + Chunk4 + Chunk5 + Chunk6 + Chunk7 + Chunk8 + Chunk9 + Chunk10 + Chunk11 + Chunk12 + Chunk13 + Chunk14, Chunk15);
  }

  /** Every entry of the table satisfies EntryOk, and the JSON names are strictly sorted. */
  lemma TableOk()
    ensures AllOk(Fields) && SortedByJson(Fields)
  {
    UpTo15Ok();
    AllWellNamedOk(Fields);
  }
}
