/** SNAttributes: the attribute names the connector relies on, and the builder that turns one
    field value of a Resource into a ConnId attribute. */
module SNAttributes {
  import opened Wrappers
  import opened Framework

  const ResourceAttributeId: string := "sys_id"
  const UserAttributeUsername: string := "user_name"
  const UserAttributeMemberOf: string := "memberOf"
  const ResourceAttributeName: string := "name"

  /** The values doBuildAttributeFromClassField adds for `value` when the field's declared type is
      `boolean`/`Boolean` (isBoolean) or anything else, or the exception it throws:
      - null adds nothing;
      - a boolean-typed field adds the value cast to Boolean, and any other value fails the cast;
      - a list of two or more elements builds each element on a discarded builder, so it adds
        nothing, but an element that fails makes the whole call fail;
      - a one-element list adds the element's toString(), an empty list nothing;
      - any other value adds its toString(). */
  function BuiltValues(value: Obj, isBoolean: bool): (r: Result<seq<Obj>>)
    decreases value, 1
    ensures value.Null? ==> r == Success([])
    ensures r.Success? ==> |r.value| <= 1
    ensures isBoolean ==> (r.Success? <==> value.Null? || value.Bool?)
    ensures isBoolean && value.Bool? ==> r == Success([value])
    ensures value.ListOf? && |value.items| != 1 && r.Success? ==> r.value == []
    ensures !isBoolean && value.ListOf? && |value.items| == 1 ==> (r.Failure? <==> value.items[0].Null?)
    ensures !isBoolean && value.Str? ==> r == Success([value])
    ensures !isBoolean && value.ListOf? && |value.items| == 1 && r.Success? ==>
      r.value == [TextObj(ToString(value.items[0]).value)]
    ensures !isBoolean && !value.Null? && !value.ListOf? ==> r == Success([TextObj(ToString(value).value)])
  {
    if value.Null? then Success([])
    else if isBoolean then
      if value.Bool? then Success([value]) else Failure(ClassCast)
    else if value.ListOf? then
      if |value.items| > 1 then
        match ElementsFailure(value, 0, isBoolean)
        case Some(e) => Failure(e)
        case None => Success([])
      else if |value.items| == 1 then
        match ToString(value.items[0])
        case Failure(e) => Failure(e)
        case Success(s) => Success([TextObj(s)])
      else Success([])
    else
      Success([TextObj(ToString(value).value)])
  }

  /** The exception of the first element, from index `i` on, whose own build fails. */
  function ElementsFailure(list: Obj, i: nat, isBoolean: bool): Option<Failure>
    requires list.ListOf? && i <= |list.items|
    decreases list, 0, |list.items| - i
  {
    if i == |list.items| then None
    else
      match BuiltValues(list.items[i], isBoolean)
      case Failure(e) => Some(e)
      case Success(_) => ElementsFailure(list, i + 1, isBoolean)
  }

  /** doBuildAttributeFromClassField(name, value, clazz): a new builder holding the values above
      and, when `name` is not null, that name. */
  method DoBuildAttributeFromClassField(name: Option<string>, value: Obj, isBoolean: bool)
    returns (r: Result<AttributeBuilder>)
    decreases value
    ensures r.Success? <==> BuiltValues(value, isBoolean).Success?
    ensures r.Success? ==> fresh(r.value)
    ensures r.Success? ==> r.value.values == BuiltValues(value, isBoolean).value && r.value.name == name
  {
    var builder := new AttributeBuilder();
    if !value.Null? {
      if isBoolean {
        if !value.Bool? {
          return Failure(ClassCast);
        }
        builder.AddValue(value);
      } else if value.ListOf? {
        var list := value.items;
        if |list| > 1 {
          var k := 0;
          while k < |list|
            invariant 0 <= k <= |list|
            invariant ElementsFailure(value, 0, isBoolean) == ElementsFailure(value, k, isBoolean)
            invariant builder.values == [] && builder.name == None
          {
            var discarded := DoBuildAttributeFromClassField(name, list[k], isBoolean);
            if discarded.Failure? {
              return Failure(discarded.error);
            }
            k := k + 1;
          }
        } else if |list| == 1 {
          var s := ToString(list[0]);
          if s.Failure? {
            return Failure(s.error);
          }
          builder.AddValue(TextObj(s.value));
        }
      } else {
        builder.AddValue(TextObj(ToString(value).value));
      }
    }
    if name.Some? {
      builder.SetName(name.value);
    }
    return Success(builder);
  }

  /** A value whose build fails on a field that is not boolean-typed: a one-element list whose
      element is null, either at the top or as an element of a longer list, at any depth. */
  ghost predicate HasNullSingleton(v: Obj)
    decreases v
  {
    && v.ListOf?
    && ((|v.items| == 1 && v.items[0].Null?)
        || (|v.items| > 1 && exists i :: 0 <= i < |v.items| && HasNullSingleton(v.items[i])))
  }

  /** On a field that is not boolean-typed the build fails exactly on a null singleton list, and
      then always with a NullPointerException. */
  lemma {:induction false} BuildFailsOnNullSingleton(value: Obj)
    decreases value, 1
    ensures BuiltValues(value, false).Failure? <==> HasNullSingleton(value)
    ensures BuiltValues(value, false).Failure? ==> BuiltValues(value, false).error == NullPointer
  {
    if value.ListOf? && |value.items| > 1 {
      ElementsFailOnNullSingleton(value, 0);
    }
  }

  lemma {:induction false} ElementsFailOnNullSingleton(list: Obj, i: nat)
    requires list.ListOf? && i <= |list.items|
    decreases list, 0, |list.items| - i
    ensures ElementsFailure(list, i, false).Some?
        <==> exists j :: i <= j < |list.items| && HasNullSingleton(list.items[j])
    ensures ElementsFailure(list, i, false).Some? ==> ElementsFailure(list, i, false).value == NullPointer
  {
    if i < |list.items| {
      BuildFailsOnNullSingleton(list.items[i]);
      ElementsFailOnNullSingleton(list, i + 1);
    }
  }
}
