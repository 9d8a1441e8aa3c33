/** Resource: one ServiceNow record (a user or a group) with its Jackson-mapped fields, and the
    reflective translation between those fields and ConnId attributes.

    The reflection over the declared fields is replaced by a field table: field `i` of a Resource
    is slot `i`, of the kind the table gives it. The translation is specified over any table `fs`
    with the properties GoodTable states, and the class uses the table of ResourceFields, which
    has them (FieldsGood). */
module ResourceDto {
  import opened Wrappers
  import opened JavaText
  import opened SNUtils
  import opened Complex
  import opened Framework
  import opened SNAttributes
  import opened ResourceFields

  /** The value of one field: a String, or an SNComplex held by value; either may be null. */
  datatype Slot = TextSlot(text: Option<string>) | RefSlot(ref: Option<Reference>)

  predicate Fits(f: FieldSpec, s: Slot) {
    s.TextSlot? <==> f.kind == Text
  }

  /** One slot per field of the table, each of the field's declared type. */
  predicate Shaped(fs: seq<FieldSpec>, slots: seq<Slot>) {
    |slots| == |fs| && forall i :: 0 <= i < |slots| ==> Fits(fs[i], slots[i])
  }

  /** A field set to null. */
  function NullSlot(f: FieldSpec): (s: Slot)
    ensures Fits(f, s)
    ensures s == TextSlot(None) || s == RefSlot(None)
  {
    if f.kind == Text then TextSlot(None) else RefSlot(None)
  }

  /** The fields of a new Resource: all null. */
  function NullSlots(fs: seq<FieldSpec>): (slots: seq<Slot>)
    ensures Shaped(fs, slots)
    ensures forall i :: 0 <= i < |slots| ==> slots[i] == NullSlot(fs[i])
  {
    seq(|fs|, i requires 0 <= i < |fs| => NullSlot(fs[i]))
  }

  // ----- what the translation needs of the table -----

  /** Every entry links its names through the two conversions, the JSON names are strictly
      sorted (so no two fields share a name), and the fields named like a reachable `case`
      label are references. */
  ghost predicate GoodTable(fs: seq<FieldSpec>) {
    AllOk(fs) && SortedByJson(fs) && AllKindsOk(fs)
  }

  lemma FieldsGood()
    ensures GoodTable(Fields)
  {
    TableOk();
    TableKindsOk();
  }

  /** The facts about one entry that toAttributes relies on. */
  lemma JavaNameAt(fs: seq<FieldSpec>, k: nat)
    requires GoodTable(fs) && k < |fs|
    ensures '_' !in fs[k].java && CamelToUnderscored(fs[k].java) == fs[k].json
    ensures KindOk(fs[k])
  {
    assert EntryOk(fs[k]);
  }

  /** The facts about one entry that fromAttributes relies on. */
  lemma JsonNameAt(fs: seq<FieldSpec>, k: nat)
    requires GoodTable(fs) && k < |fs|
    ensures '_' !in fs[k].java && UnderscoredToCamel(fs[k].json) == Success(fs[k].java)
    ensures !HasDoubleUnderscore(fs[k].json) && !EqualsIgnoreCase(fs[k].json, UserAttributeMemberOf)
    ensures KindOk(fs[k])
  {
    assert EntryOk(fs[k]);
  }

  /** Distinct positions have distinct JSON names. */
  lemma JsonNamesDistinct(fs: seq<FieldSpec>, i: nat, j: nat)
    requires GoodTable(fs) && i < |fs| && j < |fs| && i != j
    ensures fs[i].json != fs[j].json
  {
    if i < j {
      SortedBelow(fs, i, j);
      NameBelowIrreflexive(fs[i].json);
    } else {
      SortedBelow(fs, j, i);
      NameBelowIrreflexive(fs[j].json);
    }
  }

  /** Distinct positions have distinct Java names, since each Java name converts back to its own
      JSON name. */
  lemma JavaNamesDistinct(fs: seq<FieldSpec>, i: nat, j: nat)
    requires GoodTable(fs) && i < |fs| && j < |fs| && i != j
    ensures fs[i].java != fs[j].java
  {
    JavaNameAt(fs, i);
    JavaNameAt(fs, j);
    JsonNamesDistinct(fs, i, j);
  }

  /** getDeclaredField(name) among the mapped fields: the position of the field with that Java
      name. The only other declared field, the static LOG, cannot be set, and the
      IllegalAccessException that setting it raises is swallowed just like a missing field. */
  function FieldIndex(fs: seq<FieldSpec>, name: string): (r: Option<nat>)
    ensures r.Some? ==> r.value < |fs| && fs[r.value].java == name
    ensures r.None? ==> forall i :: 0 <= i < |fs| ==> fs[i].java != name
  {
    FieldIndexFrom(fs, name, 0)
  }

  function FieldIndexFrom(fs: seq<FieldSpec>, name: string, i: nat): (r: Option<nat>)
    requires i <= |fs|
    decreases |fs| - i
    ensures r.Some? ==> i <= r.value < |fs| && fs[r.value].java == name
    ensures r.None? ==> forall j :: i <= j < |fs| ==> fs[j].java != name
  {
    if i == |fs| then None
    else if fs[i].java == name then Some(i)
    else FieldIndexFrom(fs, name, i + 1)
  }

  /** Every field is found again under its Java name. */
  lemma FieldIndexOfJava(fs: seq<FieldSpec>, k: nat)
    requires GoodTable(fs) && k < |fs|
    ensures FieldIndex(fs, fs[k].java) == Some(k)
  {
    var r := FieldIndex(fs, fs[k].java);
    if r.Some? && r.value != k {
      JavaNamesDistinct(fs, r.value, k);
    }
  }

  /** A name without `_` is a `case` label of toAttributes exactly when it is one of the five
      labels written without `_`; the six others can never match a Java field name. */
  lemma ToCasesWithoutUnderscore(s: string)
    requires '_' !in s
    ensures s in ToAttributesCases <==> s in CamelCases - {"schedule"}
  {
    assert "cost_center"[4] == '_' && "opened_by"[6] == '_' && "sys_domain"[3] == '_';
    assert "assignment_group"[10] == '_' && "cmdb_ci"[4] == '_' && "default_perspective"[7] == '_';
  }

  /** Likewise for fromAttributes: six of its twelve labels can match. */
  lemma FromCasesWithoutUnderscore(s: string)
    requires '_' !in s
    ensures s in FromAttributesCases <==> s in CamelCases
  {
    assert "cost_center"[4] == '_' && "opened_by"[6] == '_' && "sys_domain"[3] == '_';
    assert "assignment_group"[10] == '_' && "cmdb_ci"[4] == '_' && "default_perspective"[7] == '_';
  }

  // ----- toAttributes -----

  /** The object toAttributes hands to the attribute builder for one field: the field's value,
      except that a non-null SNComplex whose converted name is a `case` label is replaced by its
      `value` string. */
  function BuilderInput(newName: string, s: Slot): Obj {
    match s
    case TextSlot(t) => TextObj(t)
    case RefSlot(None) => Null
    case RefSlot(Some(r)) => if newName in ToAttributesCases then TextObj(r.value) else ComplexRef(r)
  }

  /** The attribute toAttributes builds for one field, named by the snake_case form of the Java
      name, or the exception thrown on the way. */
  function FieldAttribute(f: FieldSpec, s: Slot): Result<Attribute> {
    var newName :- UnderscoredToCamel(f.java);
    var values :- BuiltValues(BuilderInput(newName, s), false);
    Success(Attribute(CamelToUnderscored(f.java), values))
  }

  /** The attributes of the first `n` fields, in table order. */
  function AttributesOf(fs: seq<FieldSpec>, slots: seq<Slot>, n: nat): Result<seq<Attribute>>
    requires n <= |slots| == |fs|
  {
    if n == 0 then Success([])
    else
      var prev :- AttributesOf(fs, slots, n - 1);
      var a :- FieldAttribute(fs[n - 1], slots[n - 1]);
      Success(prev + [a])
  }

  /** The values a field is emitted with, case by case:
      - a null field: none;
      - a String: itself;
      - an SNComplex with a value: that value;
      - an SNComplex whose value is null: none for the five fields the switch unwraps, and a single
        null for the others, which are passed on as SNComplex and added as toString(). */
  function EmittedValues(f: FieldSpec, s: Slot): seq<Obj> {
    match s
    case TextSlot(None) => []
    case TextSlot(Some(t)) => [Str(t)]
    case RefSlot(None) => []
    case RefSlot(Some(r)) =>
      if r.value.Some? then [Str(r.value.value)]
      else if f.java in CamelCases - {"schedule"} then []
      else [Null]
  }

  lemma FieldAttributeOfEntry(f: FieldSpec, s: Slot)
    requires '_' !in f.java && CamelToUnderscored(f.java) == f.json
    ensures FieldAttribute(f, s) == Success(Attribute(f.json, EmittedValues(f, s)))
  {
    assert UnderscoredToCamel(f.java) == Success(f.java);
    ToCasesWithoutUnderscore(f.java);
  }

  lemma FieldAttributeAt(fs: seq<FieldSpec>, slots: seq<Slot>, k: nat)
    requires GoodTable(fs) && k < |fs| == |slots|
    ensures FieldAttribute(fs[k], slots[k]) == Success(Attribute(fs[k].json, EmittedValues(fs[k], slots[k])))
  {
    JavaNameAt(fs, k);
    FieldAttributeOfEntry(fs[k], slots[k]);
  }

  /** Once a field has failed, toAttributes has failed with that field's exception. */
  lemma {:induction false} AttributesOfStopsAtFailure(fs: seq<FieldSpec>, slots: seq<Slot>, i: nat, n: nat)
    requires i < n <= |slots| == |fs|
    requires AttributesOf(fs, slots, i + 1).Failure?
    ensures AttributesOf(fs, slots, n) == AttributesOf(fs, slots, i + 1)
  {
    if n > i + 1 {
      AttributesOfStopsAtFailure(fs, slots, i, n - 1);
    }
  }

  /** One attribute per field, named by the field's JSON name, with the values EmittedValues
      gives. */
  ghost function Emitted(fs: seq<FieldSpec>, slots: seq<Slot>, n: nat): seq<Attribute>
    requires n <= |slots| == |fs|
  {
    seq(n, i requires 0 <= i < n => Attribute(fs[i].json, EmittedValues(fs[i], slots[i])))
  }

  lemma AttributesOfStep(fs: seq<FieldSpec>, slots: seq<Slot>, n: nat)
    requires 0 < n <= |slots| == |fs|
    requires AttributesOf(fs, slots, n - 1) == Success(Emitted(fs, slots, n - 1))
    requires FieldAttribute(fs[n - 1], slots[n - 1]) == Success(Attribute(fs[n - 1].json, EmittedValues(fs[n - 1], slots[n - 1])))
    ensures AttributesOf(fs, slots, n) == Success(Emitted(fs, slots, n))
  {
    var a := Attribute(fs[n - 1].json, EmittedValues(fs[n - 1], slots[n - 1]));
    assert Emitted(fs, slots, n) == Emitted(fs, slots, n - 1) + [a];
  }

  /** The fields' attributes, each known on its own, make up the attributes of the first `n`. */
  lemma {:induction false} AttributesOfEach(fs: seq<FieldSpec>, slots: seq<Slot>, n: nat)
    requires n <= |slots| == |fs|
    requires forall k :: 0 <= k < n ==>
      FieldAttribute(fs[k], slots[k]) == Success(Attribute(fs[k].json, EmittedValues(fs[k], slots[k])))
    ensures AttributesOf(fs, slots, n) == Success(Emitted(fs, slots, n))
  {
    if n == 0 {
      assert Emitted(fs, slots, 0) == [];
    } else {
      AttributesOfEach(fs, slots, n - 1);
      AttributesOfStep(fs, slots, n);
    }
  }

  /** toAttributes emits exactly one attribute per field, in table order, named by the field's
      JSON name, with the values EmittedValues gives. */
  lemma AttributesOfTable(fs: seq<FieldSpec>, slots: seq<Slot>, n: nat)
    requires GoodTable(fs) && n <= |slots| == |fs|
    ensures AttributesOf(fs, slots, n) == Success(Emitted(fs, slots, n))
  {
    forall k | 0 <= k < n
      ensures FieldAttribute(fs[k], slots[k]) == Success(Attribute(fs[k].json, EmittedValues(fs[k], slots[k])))
    {
      FieldAttributeAt(fs, slots, k);
    }
    AttributesOfEach(fs, slots, n);
  }

  /** No two attributes of toAttributes share a name, so the set it returns has one element per
      field. */
  lemma AttributeNamesDistinct(fs: seq<FieldSpec>, slots: seq<Slot>)
    requires GoodTable(fs) && |slots| == |fs|
    ensures AttributesOf(fs, slots, |fs|).Success?
    ensures |AttributesOf(fs, slots, |fs|).value| == |fs|
    ensures forall i, j :: 0 <= i < j < |fs| ==>
      AttributesOf(fs, slots, |fs|).value[i].name != AttributesOf(fs, slots, |fs|).value[j].name
  {
    AttributesOfTable(fs, slots, |fs|);
    forall i, j | 0 <= i < j < |fs|
      ensures fs[i].json != fs[j].json
    {
      JsonNamesDistinct(fs, i, j);
    }
  }

  // ----- fromAttributes -----

  /** The effect of one attribute on the fields, or the exception that escapes:
      - an attribute without values, with `__` in its name, or named memberOf in any case is
        skipped;
      - its name is converted to camelCase (a leading `_` throws) and looked up among the
        fields; an unknown name is skipped;
      - a name matching a `case` label stores a new SNComplex of the first value cast to String
        (a cast that fails throws);
      - otherwise the first value is stored when it is a String; a Boolean, or a String for an
        SNComplex field, is refused by the reflective set and the field is left as it was; any
        other first value sets the field to null. */
  function ApplyAttribute(fs: seq<FieldSpec>, slots: seq<Slot>, a: Attribute): Result<seq<Slot>>
    requires |slots| == |fs|
  {
    if |a.values| == 0 || HasDoubleUnderscore(a.name) || EqualsIgnoreCase(a.name, UserAttributeMemberOf) then
      Success(slots)
    else
      var newName :- UnderscoredToCamel(a.name);
      match FieldIndex(fs, newName)
      case None => Success(slots)
      case Some(i) =>
        if newName in FromAttributesCases then
          match a.values[0]
          case Str(v) => Success(slots[i := RefSlot(Some(Reference(None, Some(v))))])
          case Null => Success(slots[i := RefSlot(Some(Reference(None, None)))])
          case _ => Failure(ClassCast)
        else
          match a.values[0]
          case Str(v) => Success(if fs[i].kind == Text then slots[i := TextSlot(Some(v))] else slots)
          case Bool(_) => Success(slots)
          case _ => Success(slots[i := NullSlot(fs[i])])
  }

  /** The state of a fromAttributes run: the fields, and whether an exception has escaped. */
  datatype Progress = Progress(slots: seq<Slot>, outcome: Outcome)

  /** The attributes applied in order; the first exception stops the run, leaving the fields set
      so far. */
  function ApplyAll(fs: seq<FieldSpec>, slots: seq<Slot>, attrs: seq<Attribute>): (p: Progress)
    requires |slots| == |fs|
    ensures |p.slots| == |fs|
  {
    if |attrs| == 0 then Progress(slots, Pass)
    else
      var p := ApplyAll(fs, slots, attrs[..|attrs| - 1]);
      if p.outcome.Fail? then p
      else
        match ApplyAttribute(fs, p.slots, attrs[|attrs| - 1])
        case Failure(e) => Progress(p.slots, Fail(e))
        case Success(s) => Progress(s, Pass)
  }

  /** Once an exception has escaped, the later attributes change nothing. */
  lemma {:induction false} ApplyAllStopsAtFailure(fs: seq<FieldSpec>, slots: seq<Slot>, attrs: seq<Attribute>, n: nat)
    requires |slots| == |fs| && n <= |attrs|
    requires ApplyAll(fs, slots, attrs[..n]).outcome.Fail?
    ensures ApplyAll(fs, slots, attrs) == ApplyAll(fs, slots, attrs[..n])
    decreases |attrs| - n
  {
    if n < |attrs| {
      var m := n + 1;
      assert attrs[..m][..m - 1] == attrs[..n];
      ApplyAllStopsAtFailure(fs, slots, attrs, m);
    } else {
      assert attrs[..n] == attrs;
    }
  }

  /** The fields a `case` label of fromAttributes can reach are references. */
  predicate LabelsAreRefs(fs: seq<FieldSpec>) {
    forall i :: 0 <= i < |fs| && fs[i].java in FromAttributesCases ==> fs[i].kind == Ref
  }

  lemma GoodTableLabelsAreRefs(fs: seq<FieldSpec>)
    requires GoodTable(fs)
    ensures LabelsAreRefs(fs)
  {
    forall i | 0 <= i < |fs| && fs[i].java in FromAttributesCases
      ensures fs[i].kind == Ref
    {
      JavaNameAt(fs, i);
      FromCasesWithoutUnderscore(fs[i].java);
    }
  }

  /** fromAttributes keeps every field of its declared type. */
  lemma ApplyKeepsShape(fs: seq<FieldSpec>, slots: seq<Slot>, a: Attribute)
    requires LabelsAreRefs(fs) && Shaped(fs, slots)
    ensures ApplyAttribute(fs, slots, a).Success? ==> Shaped(fs, ApplyAttribute(fs, slots, a).value)
  {
  }

  /** One attribute changes at most one field: the one whose Java name is its converted name. */
  lemma ApplyChangesOneField(fs: seq<FieldSpec>, slots: seq<Slot>, a: Attribute, j: nat)
    requires |slots| == |fs| && j < |fs|
    requires UnderscoredToCamel(a.name).Success? ==> fs[j].java != UnderscoredToCamel(a.name).value
    ensures ApplyAttribute(fs, slots, a).Success? ==> ApplyAttribute(fs, slots, a).value[j] == slots[j]
  {
  }

  /** What a field holds after an attribute whose first value is `first` is applied to it,
      stated by the kind of field:
      - manager, department, location, company, schedule and parent take a new SNComplex of the
        first value, with no link; a first value that is neither a String nor null throws;
      - the other SNComplex fields (cost_center, opened_by, sys_domain, assignment_group,
        cmdb_ci, default_perspective, caller_id) are never set from a String or a Boolean, and
        become null otherwise;
      - String fields take a String first value, ignore a Boolean, and become null otherwise. */
  function StoredSlot(f: FieldSpec, current: Slot, first: Obj): Result<Slot> {
    if f.java in CamelCases then
      if first.Str? then Success(RefSlot(Some(Reference(None, Some(first.s)))))
      else if first.Null? then Success(RefSlot(Some(Reference(None, None))))
      else Failure(ClassCast)
    else if f.kind == Ref then
      if first.Str? || first.Bool? then Success(current) else Success(RefSlot(None))
    else
      if first.Str? then Success(TextSlot(Some(first.s)))
      else if first.Bool? then Success(current)
      else Success(TextSlot(None))
  }

  /** An attribute named by a field's JSON name reaches that field, and only it. */
  lemma ApplyByJsonName(fs: seq<FieldSpec>, slots: seq<Slot>, k: nat, values: seq<Obj>)
    requires GoodTable(fs) && |slots| == |fs| && k < |fs| && |values| > 0
    ensures ApplyAttribute(fs, slots, Attribute(fs[k].json, values))
      == match StoredSlot(fs[k], slots[k], values[0])
         case Success(s) => Success(slots[k := s])
         case Failure(e) => Failure(e)
  {
    var f := fs[k];
    JsonNameAt(fs, k);
    FieldIndexOfJava(fs, k);
    FromCasesWithoutUnderscore(f.java);
    var a := Attribute(f.json, values);
    assert slots[k := slots[k]] == slots;
    assert !(|a.values| == 0 || HasDoubleUnderscore(a.name) || EqualsIgnoreCase(a.name, UserAttributeMemberOf));
    assert UnderscoredToCamel(a.name) == Success(f.java);
    assert FieldIndex(fs, f.java) == Some(k);
  }

  // ----- round trip -----

  /** What a field holds after its own attribute from toAttributes is applied to a new Resource:
      String fields are restored; the six reference fields fromAttributes unwraps come back as a
      new SNComplex with the value and without the link (a null value comes back as a null
      field, except for schedule, which toAttributes emits as a null value); the other reference
      fields stay null. */
  function AfterRoundTrip(f: FieldSpec, s: Slot): Slot {
    match s
    case TextSlot(_) => s
    case RefSlot(None) => s
    case RefSlot(Some(r)) =>
      if f.java !in CamelCases then RefSlot(None)
      else if r.value.Some? || f.java == "schedule" then RefSlot(Some(Reference(None, r.value)))
      else RefSlot(None)
  }

  /** The fields of a new Resource after the attributes of the first `n` fields are applied. */
  function RoundTripped(fs: seq<FieldSpec>, slots: seq<Slot>, n: nat): (r: seq<Slot>)
    requires |slots| == |fs|
    ensures |r| == |fs|
  {
    seq(|fs|, i requires 0 <= i < |fs| => if i < n then AfterRoundTrip(fs[i], slots[i]) else NullSlot(fs[i]))
  }

  /** One field's attribute, applied to a null field, leaves what AfterRoundTrip says. */
  lemma StoredOfEmitted(f: FieldSpec, s: Slot)
    requires Fits(f, s) && KindOk(f)
    ensures EmittedValues(f, s) == [] ==> AfterRoundTrip(f, s) == NullSlot(f)
    ensures EmittedValues(f, s) != [] ==>
      StoredSlot(f, NullSlot(f), EmittedValues(f, s)[0]) == Success(AfterRoundTrip(f, s))
  {
  }

  /** The attribute of field `k` takes the fields from the round trip of the fields before it to
      that of the fields up to it. */
  lemma RoundTripStep(fs: seq<FieldSpec>, slots: seq<Slot>, k: nat)
    requires GoodTable(fs) && Shaped(fs, slots) && k < |fs|
    ensures ApplyAttribute(fs, RoundTripped(fs, slots, k), Attribute(fs[k].json, EmittedValues(fs[k], slots[k])))
      == Success(RoundTripped(fs, slots, k + 1))
  {
    var before := RoundTripped(fs, slots, k);
    var f := fs[k];
    JsonNameAt(fs, k);
    StoredOfEmitted(f, slots[k]);
    var values := EmittedValues(f, slots[k]);
    if values == [] {
      assert RoundTripped(fs, slots, k + 1) == before;
    } else {
      ApplyByJsonName(fs, before, k, values);
      assert RoundTripped(fs, slots, k + 1) == before[k := AfterRoundTrip(f, slots[k])];
    }
  }

  lemma {:induction false} RoundTripPrefix(fs: seq<FieldSpec>, slots: seq<Slot>, attrs: seq<Attribute>, n: nat)
    requires GoodTable(fs) && Shaped(fs, slots) && n <= |fs| == |attrs|
    requires forall i :: 0 <= i < |fs| ==> attrs[i] == Attribute(fs[i].json, EmittedValues(fs[i], slots[i]))
    ensures ApplyAll(fs, NullSlots(fs), attrs[..n]) == Progress(RoundTripped(fs, slots, n), Pass)
  {
    if n == 0 {
      assert RoundTripped(fs, slots, 0) == NullSlots(fs);
    } else {
      RoundTripPrefix(fs, slots, attrs, n - 1);
      assert attrs[..n][..n - 1] == attrs[..n - 1];
      RoundTripStep(fs, slots, n - 1);
    }
  }

  /** Reading toAttributes' output back into a new Resource with fromAttributes: no exception, and
      every field holds what AfterRoundTrip says; in particular every String field is restored
      and no reference keeps its link. */
  lemma RoundTrip(fs: seq<FieldSpec>, slots: seq<Slot>)
    requires GoodTable(fs) && Shaped(fs, slots)
    ensures AttributesOf(fs, slots, |fs|).Success?
    ensures ApplyAll(fs, NullSlots(fs), AttributesOf(fs, slots, |fs|).value)
      == Progress(RoundTripped(fs, slots, |fs|), Pass)
    ensures forall i :: 0 <= i < |fs| && fs[i].kind == Text ==> RoundTripped(fs, slots, |fs|)[i] == slots[i]
    ensures forall i :: 0 <= i < |fs| && RoundTripped(fs, slots, |fs|)[i].RefSlot? ==>
      RoundTripped(fs, slots, |fs|)[i].ref.None? || RoundTripped(fs, slots, |fs|)[i].ref.value.link.None?
  {
    AttributesOfTable(fs, slots, |fs|);
    var attrs := AttributesOf(fs, slots, |fs|).value;
    RoundTripPrefix(fs, slots, attrs, |fs|);
    assert attrs[..|fs|] == attrs;
  }

  /** fromAttributes keeps every field of its declared type, whatever the attributes. */
  lemma {:induction false} ApplyAllKeepsShape(fs: seq<FieldSpec>, slots: seq<Slot>, attrs: seq<Attribute>)
    requires LabelsAreRefs(fs) && Shaped(fs, slots)
    ensures Shaped(fs, ApplyAll(fs, slots, attrs).slots)
  {
    if |attrs| > 0 {
      var prev := attrs[..|attrs| - 1];
      ApplyAllKeepsShape(fs, slots, prev);
      ApplyKeepsShape(fs, ApplyAll(fs, slots, prev).slots, attrs[|attrs| - 1]);
    }
  }

  // ----- the loops over the declared fields -----

  /** The loop of toAttributes over the declared fields, given as the table `fs`, with the
      field values `slots`. */
  method BuildAttributes(fs: seq<FieldSpec>, slots: seq<Slot>) returns (r: Result<seq<Attribute>>)
    requires |slots| == |fs|
    ensures r == AttributesOf(fs, slots, |fs|)
  {
    var attrs: seq<Attribute> := [];
    var i := 0;
    while i < |fs|
      invariant 0 <= i <= |fs|
      invariant AttributesOf(fs, slots, i) == Success(attrs)
    {
      var f := fs[i];
      var newName := FromUnderscoredToCamelCase(f.java);
      if newName.Failure? {
        AttributesOfStopsAtFailure(fs, slots, i, |fs|);
        return Failure(newName.error);
      }
      var value: Obj;
      match slots[i] {
        case TextSlot(t) =>
          value := TextObj(t);
        case RefSlot(None) =>
          value := Null;
        case RefSlot(Some(c)) =>
          value := if newName.value in ToAttributesCases then TextObj(c.value) else ComplexRef(c);
      }
      var builder := DoBuildAttributeFromClassField(Some(CamelToUnderscored(f.java)), value, false);
      // None of these values is a list, so the build cannot fail.
      assert builder.Success?;
      attrs := attrs + [Attribute(builder.value.name.value, builder.value.values)];
      i := i + 1;
    }
    return Success(attrs);
  }

  /** The body of the loop of fromAttributes: one attribute applied to the field values
      `current` of a Resource whose declared fields are the table `fs`. */
  method ApplyOne(fs: seq<FieldSpec>, current: seq<Slot>, a: Attribute) returns (r: Result<seq<Slot>>)
    requires |current| == |fs|
    ensures r == ApplyAttribute(fs, current, a)
  {
    r := Success(current);
    if |a.values| > 0 && !HasDoubleUnderscore(a.name) && !EqualsIgnoreCase(a.name, UserAttributeMemberOf) {
      var newName := FromUnderscoredToCamelCase(a.name);
      if newName.Failure? {
        return Failure(newName.error);
      }
      var index := FieldIndex(fs, newName.value);
      if index.Some? {
        var k := index.value;
        if newName.value in FromAttributesCases {
          match a.values[0] {
            case Str(v) =>
              r := Success(current[k := RefSlot(Some(Reference(None, Some(v))))]);
            case Null =>
              r := Success(current[k := RefSlot(Some(Reference(None, None)))]);
            case _ =>
              r := Failure(ClassCast);
          }
        } else {
          match a.values[0] {
            case Str(v) =>
              if fs[k].kind == Text {
                r := Success(current[k := TextSlot(Some(v))]);
              }
            case Bool(_) =>
            case _ =>
              r := Success(current[k := NullSlot(fs[k])]);
          }
        }
      }
    }
  }

  /** The loop of fromAttributes over the attributes, on a Resource whose declared fields are the
      table `fs` and whose field values are `slots`. */
  method ApplyAttributes(fs: seq<FieldSpec>, slots: seq<Slot>, attributes: seq<Attribute>) returns (p: Progress)
    requires |slots| == |fs|
    ensures p == ApplyAll(fs, slots, attributes)
  {
    var current := slots;
    var i := 0;
    while i < |attributes|
      invariant 0 <= i <= |attributes| && |current| == |fs|
      invariant ApplyAll(fs, slots, attributes[..i]) == Progress(current, Pass)
    {
      assert attributes[..i + 1][..i] == attributes[..i];
      var r := ApplyOne(fs, current, attributes[i]);
      if r.Failure? {
        ApplyAllStopsAtFailure(fs, slots, attributes, i + 1);
        return Progress(current, Fail(r.error));
      }
      current := r.value;
      i := i + 1;
    }
    assert attributes[..i] == attributes;
    return Progress(current, Pass);
  }

  /** The entries the first `n` fields contribute to asMapAttributeField. */
  ghost function NameMap(fs: seq<FieldSpec>, n: nat): map<string, string>
    requires n <= |fs|
  {
    if n == 0 then map[] else NameMap(fs, n - 1)[fs[n - 1].json := fs[n - 1].java]
  }

  /** Every key of the map comes from one of the first `n` fields. */
  lemma {:induction false} NameMapKeys(fs: seq<FieldSpec>, n: nat, key: string)
    requires n <= |fs| && key in NameMap(fs, n)
    ensures exists j :: 0 <= j < n && fs[j].json == key && NameMap(fs, n)[key] == fs[j].java
  {
    if key != fs[n - 1].json {
      NameMapKeys(fs, n - 1, key);
    }
  }

  /** One entry per field, each field's JSON name mapped to its Java name. */
  lemma {:induction false} NameMapEntries(fs: seq<FieldSpec>, n: nat)
    requires GoodTable(fs) && n <= |fs|
    ensures |NameMap(fs, n)| == n
    ensures forall i :: 0 <= i < n ==> fs[i].json in NameMap(fs, n) && NameMap(fs, n)[fs[i].json] == fs[i].java
  {
    if n > 0 {
      NameMapEntries(fs, n - 1);
      var m := NameMap(fs, n - 1);
      if fs[n - 1].json in m {
        NameMapKeys(fs, n - 1, fs[n - 1].json);
        var j :| 0 <= j < n - 1 && fs[j].json == fs[n - 1].json;
        JsonNamesDistinct(fs, n - 1, j);
      }
      forall i | 0 <= i < n - 1
        ensures fs[i].json != fs[n - 1].json
      {
        JsonNamesDistinct(fs, i, n - 1);
      }
    }
  }

  /** Each key of the map converts to its Java name, and back. */
  lemma NameMapLinked(fs: seq<FieldSpec>, key: string)
    requires GoodTable(fs) && key in NameMap(fs, |fs|)
    ensures UnderscoredToCamel(key) == Success(NameMap(fs, |fs|)[key])
    ensures CamelToUnderscored(NameMap(fs, |fs|)[key]) == key
  {
    NameMapKeys(fs, |fs|, key);
    var j :| 0 <= j < |fs| && fs[j].json == key && NameMap(fs, |fs|)[key] == fs[j].java;
    JsonNameAt(fs, j);
    JavaNameAt(fs, j);
  }

  lemma NameMapAllLinked(fs: seq<FieldSpec>)
    requires GoodTable(fs)
    ensures forall k :: k in NameMap(fs, |fs|) ==>
      UnderscoredToCamel(k) == Success(NameMap(fs, |fs|)[k]) && CamelToUnderscored(NameMap(fs, |fs|)[k]) == k
  {
    forall k | k in NameMap(fs, |fs|)
      ensures UnderscoredToCamel(k) == Success(NameMap(fs, |fs|)[k]) && CamelToUnderscored(NameMap(fs, |fs|)[k]) == k
    {
      NameMapLinked(fs, k);
    }
  }

  /** The map from each JSON name of the table to its Java name. */
  method JsonToJava(fs: seq<FieldSpec>) returns (m: map<string, string>)
    ensures m == NameMap(fs, |fs|)
  {
    m := map[];
    var i := 0;
    while i < |fs|
      invariant 0 <= i <= |fs| && m == NameMap(fs, i)
    {
      m := m[fs[i].json := fs[i].java];
      i := i + 1;
    }
  }

  /** asMapAttributeField(): each mapped field's JSON name to its Java name, one entry per field,
      each entry linked by the two name conversions. */
  method AsMapAttributeField() returns (m: map<string, string>)
    ensures |m| == |Fields|
    ensures forall i :: 0 <= i < |Fields| ==> Fields[i].json in m && m[Fields[i].json] == Fields[i].java
    ensures forall k :: k in m ==> UnderscoredToCamel(k) == Success(m[k]) && CamelToUnderscored(m[k]) == k
  {
    m := JsonToJava(Fields);
    FieldsGood();
    NameMapEntries(Fields, |Fields|);
    NameMapAllLinked(Fields);
  }

  // ----- the record -----

  /** The position of `sys_id` in the table of ResourceFields. */
  const SysIdAt: nat := 101

  lemma SysIdField()
    ensures SysIdAt < |Fields| && Fields[SysIdAt] == FieldSpec(ResourceAttributeId, "sysId", Text)
  {
    var front := Chunk0 + Chunk1 + Chunk2 + Chunk3 + Chunk4 + Chunk5 + Chunk6 + Chunk7 + Chunk8 + Chunk9 + Chunk10 + Chunk11;
    var back := Chunk12 + Chunk13 + Chunk14 + Chunk15;
    assert Fields == front + back;
    assert |front| == 96;
    assert Fields[SysIdAt] == back[5] == Chunk12[5];
  }

  /** The positions of the text fields the connector sets by name. */
  const ActiveAt: nat := 0
  const NameAt: nat := 66
  const UserNameAt: nat := 114
  const UserPasswordAt: nat := 115

  lemma HeadOfAppend(a: seq<FieldSpec>, b: seq<FieldSpec>)
    requires |a| > 0
    ensures (a + b)[0] == a[0]
  {
  }

  lemma ActiveField()
    ensures ActiveAt < |Fields| && Fields[ActiveAt] == FieldSpec("active", "active", Text)
  {
    HeadOfAppend(Chunk0 + Chunk1 + Chunk2 + Chunk3 + Chunk4 + Chunk5 + Chunk6 + Chunk7 + Chunk8 + Chunk9 + Chunk10 + Chunk11 + Chunk12 + Chunk13 + Chunk14, Chunk15);
    HeadOfAppend(Chunk0 + Chunk1 + Chunk2 + Chunk3 + Chunk4 + Chunk5 + Chunk6 + Chunk7 + Chunk8 + Chunk9 + Chunk10 + Chunk11 + Chunk12 + Chunk13, Chunk14);
    HeadOfAppend(Chunk0 + Chunk1 + Chunk2 + Chunk3 + Chunk4 + Chunk5 + Chunk6 + Chunk7 + Chunk8 + Chunk9 + Chunk10 + Chunk11 + Chunk12, Chunk13);
    HeadOfAppend(Chunk0 + Chunk1 + Chunk2 + Chunk3 + Chunk4 + Chunk5 + Chunk6 + Chunk7 + Chunk8 + Chunk9 + Chunk10 + Chunk11, Chunk12);
    HeadOfAppend(Chunk0 + Chunk1 + Chunk2 + Chunk3 + Chunk4 + Chunk5 + Chunk6 + Chunk7 + Chunk8 + Chunk9 + Chunk10, Chunk11);
    HeadOfAppend(Chunk0 + Chunk1 + Chunk2 + Chunk3 + Chunk4 + Chunk5 + Chunk6 + Chunk7 + Chunk8 + Chunk9, Chunk10);
    HeadOfAppend(Chunk0 + Chunk1 + Chunk2 + Chunk3 + Chunk4 + Chunk5 + Chunk6 + Chunk7 + Chunk8, Chunk9);
    HeadOfAppend(Chunk0 + Chunk1 + Chunk2 + Chunk3 + Chunk4 + Chunk5 + Chunk6 + Chunk7, Chunk8);
    HeadOfAppend(Chunk0 + Chunk1 + Chunk2 + Chunk3 + Chunk4 + Chunk5 + Chunk6, Chunk7);
    HeadOfAppend(Chunk0 + Chunk1 + Chunk2 + Chunk3 + Chunk4 + Chunk5, Chunk6);
    HeadOfAppend(Chunk0 + Chunk1 + Chunk2 + Chunk3 + Chunk4, Chunk5);
    HeadOfAppend(Chunk0 + Chunk1 + Chunk2 + Chunk3, Chunk4);
    HeadOfAppend(Chunk0 + Chunk1 + Chunk2, Chunk3);
    HeadOfAppend(Chunk0 + Chunk1, Chunk2);
    HeadOfAppend(Chunk0, Chunk1);
  }

  lemma NameField()
    ensures NameAt < |Fields| && Fields[NameAt] == FieldSpec(ResourceAttributeName, "name", Text)
  {
    var front := Chunk0 + Chunk1 + Chunk2 + Chunk3 + Chunk4 + Chunk5 + Chunk6 + Chunk7;
    var back := Chunk8 + Chunk9 + Chunk10 + Chunk11 + Chunk12 + Chunk13 + Chunk14 + Chunk15;
    assert Fields == front + back;
    assert |front| == 64;
    assert Fields[NameAt] == back[2] == Chunk8[2];
  }

  lemma UserNameField()
    ensures UserNameAt < |Fields| && Fields[UserNameAt] == FieldSpec(UserAttributeUsername, "userName", Text)
    ensures UserPasswordAt < |Fields| && Fields[UserPasswordAt] == FieldSpec("user_password", "userPassword", Text)
  {
    var front := Chunk0 + Chunk1 + Chunk2 + Chunk3 + Chunk4 + Chunk5 + Chunk6 + Chunk7 + Chunk8 + Chunk9
      + Chunk10 + Chunk11 + Chunk12 + Chunk13;
    var back := Chunk14 + Chunk15;
    assert Fields == front + back;
    assert |front| == 112;
    assert Fields[UserNameAt] == back[2] == Chunk14[2];
    assert Fields[UserPasswordAt] == back[3] == Chunk14[3];
  }

  class Resource {
    var slots: seq<Slot>

    predicate Valid()
      reads this
    {
      Shaped(Fields, slots)
    }

    /** new Resource(): every field null. */
    constructor ()
      ensures Valid() && slots == NullSlots(Fields)
    {
      slots := NullSlots(Fields);
    }

    /** getSysId(). */
    function SysId(): (id: Option<string>)
      reads this
      requires Valid()
      ensures TextSlot(id) == slots[SysIdAt]
    {
      SysIdField();
      slots[SysIdAt].text
    }

    /** setSysId(id): changes that field only. */
    method SetSysId(id: Option<string>)
      requires Valid()
      modifies this
      ensures Valid() && SysId() == id
      ensures slots == old(slots)[SysIdAt := TextSlot(id)]
    {
      SysIdField();
      slots := slots[SysIdAt := TextSlot(id)];
    }

    /** The getter of a text field. */
    function TextField(at: nat): (v: Option<string>)
      reads this
      requires Valid() && at < |Fields| && Fields[at].kind == Text
      ensures TextSlot(v) == slots[at]
    {
      slots[at].text
    }

    /** The setter of a text field (setName, setUserName, setUserPassword, setActive, ...):
        changes that field only. */
    method SetTextField(at: nat, v: Option<string>)
      requires Valid() && at < |Fields| && Fields[at].kind == Text
      modifies this
      ensures Valid() && TextField(at) == v
      ensures slots == old(slots)[at := TextSlot(v)]
    {
      slots := slots[at := TextSlot(v)];
    }

    /** getUserName(). */
    function UserName(): (v: Option<string>)
      reads this
      requires Valid()
      ensures TextSlot(v) == slots[UserNameAt]
    {
      UserNameField();
      slots[UserNameAt].text
    }

    /** getName(). */
    function Name(): (v: Option<string>)
      reads this
      requires Valid()
      ensures TextSlot(v) == slots[NameAt]
    {
      NameField();
      slots[NameAt].text
    }

    /** setName(name): changes that field only. */
    method SetName(name: Option<string>)
      requires Valid()
      modifies this
      ensures Valid() && Name() == name
      ensures slots == old(slots)[NameAt := TextSlot(name)]
    {
      NameField();
      SetTextField(NameAt, name);
    }

    /** setUserName(userName): changes that field only. */
    method SetUserName(userName: Option<string>)
      requires Valid()
      modifies this
      ensures Valid() && UserName() == userName
      ensures slots == old(slots)[UserNameAt := TextSlot(userName)]
    {
      UserNameField();
      SetTextField(UserNameAt, userName);
    }

    /** setUserPassword(password): changes that field only. */
    method SetUserPassword(password: Option<string>)
      requires Valid()
      modifies this
      ensures Valid()
      ensures slots == old(slots)[UserPasswordAt := TextSlot(password)]
    {
      UserNameField();
      SetTextField(UserPasswordAt, password);
    }

    /** setActive(active): changes that field only. */
    method SetActive(active: Option<string>)
      requires Valid()
      modifies this
      ensures Valid()
      ensures slots == old(slots)[ActiveAt := TextSlot(active)]
    {
      ActiveField();
      SetTextField(ActiveAt, active);
    }

    /** toAttributes(): the attributes of every field, or the exception of the first field that
        fails (none does: see AttributesOfTable). */
    method ToAttributes() returns (r: Result<seq<Attribute>>)
      requires Valid()
      ensures r == AttributesOf(Fields, slots, |Fields|)
    {
      r := BuildAttributes(Fields, slots);
    }

    /** fromAttributes(attributes): applies the attributes in the order given; an exception that
        escapes leaves the fields set by the attributes before it. */
    method FromAttributes(attributes: seq<Attribute>) returns (o: Outcome)
      requires Valid()
      modifies this
      ensures Valid()
      ensures Progress(slots, o) == ApplyAll(Fields, old(slots), attributes)
    {
      FieldsGood();
      GoodTableLabelsAreRefs(Fields);
      ApplyAllKeepsShape(Fields, slots, attributes);
      var p := ApplyAttributes(Fields, slots, attributes);
      slots := p.slots;
      o := p.outcome;
    }
  }
}
