/** The parts of the ConnId framework that the connector's logic touches: the untyped values an
    attribute carries, attributes, the attribute builder, and object classes. */
module Framework {
  import opened Wrappers
  import opened JavaText
  import opened Complex

  /** A Java object as it appears among attribute values. */
  datatype Obj =
    | Null
    | Str(s: string)
    | Bool(b: bool)
    | Int(n: int)
    | ComplexRef(ref: Reference)
    | ListOf(items: seq<Obj>)

  /** String.valueOf(o): "null" for a null reference or a null toString(). */
  function ValueOf(o: Obj): string
    decreases o, 1
  {
    match o
    case Null => "null"
    case Str(s) => s
    case Bool(b) => if b then "true" else "false"
    case Int(n) => IntToString(n)
    case ComplexRef(r) => JavaString(r.value)
    case ListOf(_) => "[" + ListText(o, 0) + "]"
  }

  /** The elements from index `i` on, as AbstractCollection.toString separates them. */
  function ListText(list: Obj, i: nat): string
    requires list.ListOf? && i <= |list.items|
    decreases list, 0, |list.items| - i
  {
    if i == |list.items| then ""
    else if i == |list.items| - 1 then ValueOf(list.items[i])
    else ValueOf(list.items[i]) + ", " + ListText(list, i + 1)
  }

  /** o.toString(): a NullPointerException on a null reference; SNComplex.toString may itself
      return null. */
  function ToString(o: Obj): (r: Result<Option<string>>)
    ensures r.Failure? <==> o.Null?
    ensures o.Str? ==> r == Success(Some(o.s))
    ensures o.ComplexRef? ==> r == Success(o.ref.value)
  {
    match o
    case Null => Failure(NullPointer)
    case ComplexRef(r) => Success(r.value)
    case _ => Success(Some(ValueOf(o)))
  }

  /** The attribute value a possibly null String becomes. */
  function TextObj(s: Option<string>): Obj {
    if s.Some? then Str(s.value) else Null
  }

  datatype Attribute = Attribute(name: string, values: seq<Obj>)

  /** ObjectClass: named by its object-class value; two object classes are equal when their
      values are equal ignoring case. */
  datatype ObjectClass = ObjectClass(value: string) {
    predicate Is(name: string) {
      LowerString(value) == LowerString(name)
    }
  }

  const AccountName: string := "__ACCOUNT__"
  const GroupName: string := "__GROUP__"

  /** ObjectClass.ACCOUNT.equals(oc). */
  predicate IsAccount(oc: ObjectClass) { oc.Is(AccountName) }

  /** ObjectClass.GROUP.equals(oc). */
  predicate IsGroup(oc: ObjectClass) { oc.Is(GroupName) }

  /** AttributeBuilder: a name and the values added so far. */
  class AttributeBuilder {
    var name: Option<string>
    var values: seq<Obj>

    constructor ()
      ensures name == None && values == []
    {
      name := None;
      values := [];
    }

    /** addValue(v): appends one value, a null one included. */
    method AddValue(v: Obj)
      modifies this
      ensures values == old(values) + [v] && name == old(name)
    {
      values := values + [v];
    }

    method SetName(n: string)
      modifies this
      ensures name == Some(n) && values == old(values)
    {
      name := Some(n);
    }
  }
}
