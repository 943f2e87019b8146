/** CompositeDataWriter: turns an item into a CompositeData record by applying one
    mapper per declared field, in declaration order. */
module CompositeDataWriters {
  import opened Common
  import opened OpenTypes

  /** A field mapper: from the item to the field's value, or an exception. */
  type Mapper<!I> = I -> Attempt<Value>

  datatype CompositeDataWriter<!I> = CompositeDataWriter(
    attributeNames: seq<string>,
    attributeMappers: seq<Mapper<I>>,
    compositeType: OpenType)
  {
    /** apply(item): all mappers are applied to the same item, in order; the record pairs
        the i-th field name with the i-th mapper's value. CompositeDataSupport then wants
        at least one name, one value per name, and names that are non-empty, distinct and
        exactly the type's item names. Any exception, from a mapper or from building the
        record, becomes a RuntimeException and no record is returned. */
    function Apply(item: I): (r: Attempt<Value>)
      ensures r.Ok? <==>
                && |attributeNames| > 0 && |attributeMappers| == |attributeNames|
                && (forall i :: 0 <= i < |attributeMappers| ==> attributeMappers[i](item).Ok?)
                && RecordNamesMatch(attributeNames, compositeType)
      ensures r.Ok? ==>
                && r.value.CompositeData? && r.value.compositeType == compositeType
                && r.value.names == attributeNames && |r.value.values| == |attributeNames|
                && forall i :: 0 <= i < |attributeNames| ==> r.value.values[i] == attributeMappers[i](item).value
      ensures r.Thrown? ==> r.exception.Runtime?
    {
      match MapAll(attributeMappers, item)
      case Thrown(e) => Thrown(Runtime(e))
      case Ok(values) =>
        if |attributeNames| == 0 || |values| != |attributeNames| || !NoneEmpty(attributeNames)
        then Thrown(Runtime(IllegalArgument("names and values do not match")))
        else if !RecordNamesMatch(attributeNames, compositeType)
        then Thrown(Runtime(OpenData("item names do not match the composite type")))
        else Ok(CompositeData(compositeType, attributeNames, values))
    }
  }

  /** The stream map over the mappers: every mapper's value in order, or the exception of
      the first mapper that throws. */
  function MapAll<I>(mappers: seq<Mapper<I>>, item: I): (r: Attempt<seq<Value>>)
    ensures r.Ok? <==> forall i :: 0 <= i < |mappers| ==> mappers[i](item).Ok?
    ensures r.Ok? ==> |r.value| == |mappers| && forall i :: 0 <= i < |mappers| ==> r.value[i] == mappers[i](item).value
    ensures r.Thrown? ==> exists i :: 0 <= i < |mappers| && mappers[i](item) == Thrown(r.exception)
                                      && forall j :: 0 <= j < i ==> mappers[j](item).Ok?
    decreases |mappers|
  {
    if |mappers| == 0 then Ok([])
    else match mappers[0](item)
      case Thrown(e) => Thrown(e)
      case Ok(v) =>
        var rest := MapAll(mappers[1..], item);
        if rest.Thrown? then
          assert exists i :: 0 <= i < |mappers| - 1 && mappers[1..][i](item) == Thrown(rest.exception)
                             && forall j :: 0 <= j < i ==> mappers[1..][j](item).Ok?;
          var i :| 0 <= i < |mappers| - 1 && mappers[1..][i](item) == Thrown(rest.exception)
                   && forall j :: 0 <= j < i ==> mappers[1..][j](item).Ok?;
          assert mappers[i + 1](item) == Thrown(rest.exception);
          assert forall j :: 0 <= j < i + 1 ==> mappers[j](item).Ok? by {
            forall j | 0 <= j < i + 1 ensures mappers[j](item).Ok? {
              if j > 0 { assert mappers[j] == mappers[1..][j - 1]; }
            }
          }
          Thrown(rest.exception)
        else
          assert forall i :: 1 <= i < |mappers| ==> mappers[i] == mappers[1..][i - 1];
          Ok([v] + rest.value)
  }

  /** The constructor: names, type name, type description, descriptions, types and
      mappers must not be null (checked in that order), then the composite type is built
      from the type name, description and the three parallel lists. An
      OpenDataException from it is rethrown as a RuntimeException; an
      IllegalArgumentException passes through. */
  function NewCompositeDataWriter<I>(typeName: Option<string>, typeDescription: Option<string>,
                                     attributeNames: Option<seq<string>>,
                                     attributeDescriptions: Option<seq<string>>,
                                     attributeTypes: Option<seq<OpenType>>,
                                     attributeMappers: Option<seq<Mapper<I>>>): (r: Attempt<CompositeDataWriter<I>>)
    ensures attributeNames.None? ==> r == Thrown(NullPointer("Null attributeNames"))
    ensures attributeNames.Some? && typeName.None? ==> r == Thrown(NullPointer("Null typeName"))
    ensures attributeNames.Some? && typeName.Some? && typeDescription.None? ==>
              r == Thrown(NullPointer("Null typeDescription"))
    ensures attributeNames.Some? && typeName.Some? && typeDescription.Some? && attributeDescriptions.None? ==>
              r == Thrown(NullPointer("Null attributeDescriptions"))
    ensures (attributeNames.Some? && typeName.Some? && typeDescription.Some? && attributeDescriptions.Some?
             && attributeTypes.None?) ==> r == Thrown(NullPointer("Null attributeTypes"))
    ensures (attributeNames.Some? && typeName.Some? && typeDescription.Some? && attributeDescriptions.Some?
             && attributeTypes.Some? && attributeMappers.None?) ==> r.Thrown? && r.exception.NullPointer?
    ensures r.Ok? ==>
      && attributeNames.Some? && typeName.Some? && typeDescription.Some?
      && attributeDescriptions.Some? && attributeTypes.Some? && attributeMappers.Some?
      && NewCompositeType(typeName.value, typeDescription.value, attributeNames.value,
                          attributeDescriptions.value, attributeTypes.value) == Ok(r.value.compositeType)
      && r.value.attributeNames == attributeNames.value && r.value.attributeMappers == attributeMappers.value
    ensures (attributeNames.Some? && typeName.Some? && typeDescription.Some? && attributeDescriptions.Some?
             && attributeTypes.Some? && attributeMappers.Some?) ==>
      var t := NewCompositeType(typeName.value, typeDescription.value, attributeNames.value,
                                attributeDescriptions.value, attributeTypes.value);
      && (r.Ok? <==> t.Ok?)
      && (t.Thrown? && t.exception.OpenData? ==> r == Thrown(Runtime(t.exception)))
      && (t.Thrown? && t.exception.IllegalArgument? ==> r == Thrown(t.exception))
  {
    if attributeNames.None? then Thrown(NullPointer("Null attributeNames"))
    else if typeName.None? then Thrown(NullPointer("Null typeName"))
    else if typeDescription.None? then Thrown(NullPointer("Null typeDescription"))
    else if attributeDescriptions.None? then Thrown(NullPointer("Null attributeDescriptions"))
    else if attributeTypes.None? then Thrown(NullPointer("Null attributeTypes"))
    else if attributeMappers.None? then Thrown(NullPointer(""))
    else match NewCompositeType(typeName.value, typeDescription.value, attributeNames.value,
                                attributeDescriptions.value, attributeTypes.value)
      case Ok(compositeType) => Ok(CompositeDataWriter(attributeNames.value, attributeMappers.value, compositeType))
      case Thrown(e) => if e.OpenData? then Thrown(Runtime(e)) else Thrown(e)
  }

  /** Function.andThen: the mapper, then the writer on the mapper's result. */
  function AndThen<I, T>(mapper: I -> Attempt<T>, writer: CompositeDataWriter<T>): Mapper<I> {
    x => match mapper(x)
         case Thrown(e) => Thrown(e)
         case Ok(t) => writer.Apply(t)
  }

  /** Names that are their own trims, with distinct trims, are the keys they trim to. */
  lemma TrimmedNamesMatch(names: seq<string>, keys: seq<string>)
    requires keys == TrimAll(names) && NoneBlank(names) && Distinct(keys)
    requires forall i :: 0 <= i < |names| ==> Trim(names[i]) == names[i]
    ensures NoneEmpty(names) && Distinct(names)
    ensures (forall n :: n in names ==> n in keys) && (forall n :: n in keys ==> n in names)
  {
    assert keys == names;
    forall i | 0 <= i < |names| ensures names[i] != "" {
      assert !Blank(names[i]);
    }
  }

  /** A name that is not its own trim is none of the trimmed keys. */
  lemma UntrimmedNameMisses(names: seq<string>, keys: seq<string>, i: nat)
    requires keys == TrimAll(names) && i < |names| && Trim(names[i]) != names[i]
    ensures names[i] !in keys
  {
    TrimFixed(names[i]);
  }

  /** A constructed writer keys its type by the trimmed names but builds records under
      the names as given, so it can produce a record only when every name is already
      its own trim. */
  lemma ConstructedNamesMatch<I>(w: CompositeDataWriter<I>, typeName: string, typeDescription: string,
                                 descriptions: seq<string>, types: seq<OpenType>)
    requires NewCompositeDataWriter(Some(typeName), Some(typeDescription), Some(w.attributeNames),
                                    Some(descriptions), Some(types), Some(w.attributeMappers)) == Ok(w)
    ensures RecordNamesMatch(w.attributeNames, w.compositeType) <==>
              forall i :: 0 <= i < |w.attributeNames| ==> Trim(w.attributeNames[i]) == w.attributeNames[i]
  {
    var names := w.attributeNames;
    var keys := RowItemNames(w.compositeType);
    assert NewCompositeType(typeName, typeDescription, names, descriptions, types) == Ok(w.compositeType);
    CompositeItemNames(typeName, typeDescription, names, descriptions, types);
    assert keys == TrimAll(names) && NoneBlank(names) && Distinct(keys);
    if forall i :: 0 <= i < |names| ==> Trim(names[i]) == names[i] {
      TrimmedNamesMatch(names, keys);
      assert RecordNamesMatch(names, w.compositeType);
    } else {
      var i :| 0 <= i < |names| && Trim(names[i]) != names[i];
      UntrimmedNameMisses(names, keys, i);
      assert names[i] in names;
      assert !RecordNamesMatch(names, w.compositeType);
    }
  }

  /** In a record produced by a constructed writer, looking up the i-th field name gives
      the i-th mapper's value: the record is a positional projection of the item. */
  lemma ApplyProjects<I>(w: CompositeDataWriter<I>, typeName: string, typeDescription: string,
                         descriptions: seq<string>, types: seq<OpenType>, item: I, i: nat)
    requires NewCompositeDataWriter(Some(typeName), Some(typeDescription), Some(w.attributeNames),
                                    Some(descriptions), Some(types), Some(w.attributeMappers)) == Ok(w)
    requires w.Apply(item).Ok? && i < |w.attributeNames|
    ensures ItemValue(w.Apply(item).value.names, w.Apply(item).value.values, w.attributeNames[i])
            == w.attributeMappers[i](item).value
  {
    var r := w.Apply(item).value;
    ItemValueAt(r.names, r.values, i);
  }
}

/** CompositeDataWriter.Builder: four parallel lists (names, descriptions, types and
    mappers) that every with-attribute call extends by one entry each. */
module CompositeDataWriterBuilders {
  import opened Common
  import opened OpenTypes
  import opened CompositeDataWriters
  import opened TabularDataWriters

  /** The argument class TypeResolver infers from a mapper: a class, or its Unknown marker. */
  datatype Resolved = Known(cls: ClassToken) | Unknown

  class Builder<!I> {
    /** OpenTypeMapper.fromClass: the open type a Java class maps to. */
    const openTypeMapper: ClassToken -> OpenType
    var typeDescription: Option<string>
    var typeName: Option<string>
    var attributeNames: seq<string>
    var attributeDescriptions: seq<string>
    var attributeTypes: seq<OpenType>
    var attributeMappers: seq<Mapper<I>>

    /** The four lists move in lockstep. */
    predicate Lockstep()
      reads this
    {
      |attributeNames| == |attributeDescriptions| == |attributeTypes| == |attributeMappers|
    }

    /** CompositeDataWriter.builder(clazz) */
    constructor(openTypeMapper: ClassToken -> OpenType)
      ensures this.openTypeMapper == openTypeMapper && Lockstep()
      ensures typeDescription.None? && typeName.None?
      ensures attributeNames == [] && attributeDescriptions == [] && attributeTypes == [] && attributeMappers == []
    {
      this.openTypeMapper := openTypeMapper;
      typeDescription := None;
      typeName := None;
      attributeNames := [];
      attributeDescriptions := [];
      attributeTypes := [];
      attributeMappers := [];
    }

    method WithTypeName(typeName: string)
      modifies this
      ensures this.typeName == Some(typeName) && typeDescription == old(typeDescription)
      ensures attributeNames == old(attributeNames) && attributeDescriptions == old(attributeDescriptions)
      ensures attributeTypes == old(attributeTypes) && attributeMappers == old(attributeMappers)
    {
      this.typeName := Some(typeName);
    }

    method WithTypeDescription(typeDescription: string)
      modifies this
      ensures this.typeDescription == Some(typeDescription) && typeName == old(typeName)
      ensures attributeNames == old(attributeNames) && attributeDescriptions == old(attributeDescriptions)
      ensures attributeTypes == old(attributeTypes) && attributeMappers == old(attributeMappers)
    {
      this.typeDescription := Some(typeDescription);
    }

    /** Appends one field: its name, its description, its type and its mapper. */
    method Append(name: string, description: string, attributeType: OpenType, mapper: Mapper<I>)
      modifies this
      requires Lockstep()
      ensures Lockstep()
      ensures attributeNames == old(attributeNames) + [name]
      ensures attributeDescriptions == old(attributeDescriptions) + [description]
      ensures attributeTypes == old(attributeTypes) + [attributeType]
      ensures attributeMappers == old(attributeMappers) + [mapper]
      ensures typeName == old(typeName) && typeDescription == old(typeDescription)
    {
      attributeNames := attributeNames + [name];
      attributeDescriptions := attributeDescriptions + [description];
      attributeTypes := attributeTypes + [attributeType];
      attributeMappers := attributeMappers + [mapper];
    }

    /** withSimpleAttribute(attributeType, name[, description], mapper): the field's type
        is the open type of the class; without a description the name is used. */
    method WithSimpleAttribute(attributeType: ClassToken, name: string, description: Option<string>, mapper: Mapper<I>)
      modifies this
      requires Lockstep()
      ensures Lockstep()
      ensures attributeNames == old(attributeNames) + [name]
      ensures attributeDescriptions == old(attributeDescriptions) + [if description.Some? then description.value else name]
      ensures attributeTypes == old(attributeTypes) + [openTypeMapper(attributeType)]
      ensures attributeMappers == old(attributeMappers) + [mapper]
      ensures typeName == old(typeName) && typeDescription == old(typeDescription)
    {
      Append(name, if description.Some? then description.value else name, openTypeMapper(attributeType), mapper);
    }

    /** withSimpleAttribute(name[, description], mapper) with the class inferred from the
        mapper: an Unknown class throws IllegalStateException and adds nothing. */
    method WithInferredSimpleAttribute(name: string, description: Option<string>, resolved: Resolved, mapper: Mapper<I>)
      returns (r: Attempt<()>)
      modifies this
      requires Lockstep()
      ensures Lockstep()
      ensures r.Thrown? <==> resolved.Unknown?
      ensures r.Thrown? ==> r.exception.IllegalState?
      ensures resolved.Unknown? ==>
                attributeNames == old(attributeNames) && attributeDescriptions == old(attributeDescriptions)
                && attributeTypes == old(attributeTypes) && attributeMappers == old(attributeMappers)
      ensures resolved.Known? ==>
                && attributeNames == old(attributeNames) + [name]
                && attributeDescriptions == old(attributeDescriptions) + [if description.Some? then description.value else name]
                && attributeTypes == old(attributeTypes) + [openTypeMapper(resolved.cls)]
                && attributeMappers == old(attributeMappers) + [mapper]
      ensures typeName == old(typeName) && typeDescription == old(typeDescription)
    {
      if resolved.Unknown? {
        return Thrown(IllegalState("Cannot infer type from class"));
      }
      WithSimpleAttribute(resolved.cls, name, description, mapper);
      r := Ok(());
    }

    /** withCompositeAttribute(name[, description], mapper, writer): the field's type is the
        nested writer's composite type and its mapper is the mapper followed by the writer. */
    method WithCompositeAttribute<T>(name: string, description: Option<string>, mapper: I -> Attempt<T>,
                                     writer: CompositeDataWriter<T>)
      modifies this
      requires Lockstep()
      ensures Lockstep()
      ensures attributeNames == old(attributeNames) + [name]
      ensures attributeDescriptions == old(attributeDescriptions) + [if description.Some? then description.value else name]
      ensures attributeTypes == old(attributeTypes) + [writer.compositeType]
      ensures attributeMappers == old(attributeMappers) + [AndThen(mapper, writer)]
      ensures typeName == old(typeName) && typeDescription == old(typeDescription)
    {
      WithCompositeTypeAttribute(writer.compositeType, name, description, AndThen(mapper, writer));
    }

    /** withCompositeAttribute(attributeType, name[, description], mapper) */
    method WithCompositeTypeAttribute(attributeType: OpenType, name: string, description: Option<string>,
                                      mapper: Mapper<I>)
      modifies this
      requires Lockstep()
      ensures Lockstep()
      ensures attributeNames == old(attributeNames) + [name]
      ensures attributeDescriptions == old(attributeDescriptions) + [if description.Some? then description.value else name]
      ensures attributeTypes == old(attributeTypes) + [attributeType]
      ensures attributeMappers == old(attributeMappers) + [mapper]
      ensures typeName == old(typeName) && typeDescription == old(typeDescription)
    {
      Append(name, if description.Some? then description.value else name, attributeType, mapper);
    }

    /** withTabularAttribute(name, mapper, tabularWriter): the field's type is the nested
        writer's tabular type, its description the name, and its mapper the mapper
        followed by the tabular writer. */
    method WithTabularAttribute<R>(name: string, mapper: I -> Attempt<seq<R>>, tabularWriter: TabularDataWriter<R>)
      modifies this
      requires Lockstep()
      ensures Lockstep()
      ensures attributeNames == old(attributeNames) + [name]
      ensures attributeDescriptions == old(attributeDescriptions) + [name]
      ensures attributeTypes == old(attributeTypes) + [tabularWriter.tabularType]
      ensures attributeMappers == old(attributeMappers) + [TabulateAfter(mapper, tabularWriter)]
      ensures typeName == old(typeName) && typeDescription == old(typeDescription)
    {
      WithTabularTypeAttribute(tabularWriter.tabularType, name, None, TabulateAfter(mapper, tabularWriter));
    }

    /** withTabularAttribute(attributeType, name[, description], mapper) */
    method WithTabularTypeAttribute(attributeType: OpenType, name: string, description: Option<string>,
                                    mapper: Mapper<I>)
      modifies this
      requires Lockstep()
      ensures Lockstep()
      ensures attributeNames == old(attributeNames) + [name]
      ensures attributeDescriptions == old(attributeDescriptions) + [if description.Some? then description.value else name]
      ensures attributeTypes == old(attributeTypes) + [attributeType]
      ensures attributeMappers == old(attributeMappers) + [mapper]
      ensures typeName == old(typeName) && typeDescription == old(typeDescription)
    {
      Append(name, if description.Some? then description.value else name, attributeType, mapper);
    }

    /** Passes the builder's fields, unchanged, to the constructor. */
    method Build() returns (r: Attempt<CompositeDataWriter<I>>)
      ensures r == NewCompositeDataWriter(typeName, typeDescription, Some(attributeNames),
                                          Some(attributeDescriptions), Some(attributeTypes), Some(attributeMappers))
      ensures r.Ok? ==> r.value.compositeType.Composite? && ItemNames(r.value.compositeType.items) == TrimAll(attributeNames)
    {
      r := NewCompositeDataWriter(typeName, typeDescription, Some(attributeNames),
                                  Some(attributeDescriptions), Some(attributeTypes), Some(attributeMappers));
    }
  }

  /** Function.andThen with a tabular writer: the mapper, then the table of its items. */
  function TabulateAfter<I, R>(mapper: I -> Attempt<seq<R>>, tabularWriter: TabularDataWriter<R>): Mapper<I> {
    x => match mapper(x)
         case Thrown(e) => Thrown(e)
         case Ok(items) => Tabulate(tabularWriter, items)
  }

  /** Worked example, an instance of ApplyProjects: a writer with the address type and the
      street and city names builds its record under those names, with the values its two
      mappers give. */
  lemma AddressRecord(w: CompositeDataWriter<(string, string)>, item: (string, string))
    requires w.attributeNames == ["street", "city"] && |w.attributeMappers| == 2
    requires w.compositeType == Composite("Address", "a postal address",
                                          [Item("street", "the street", Simple("java.lang.String")),
                                           Item("city", "city", Simple("java.lang.String"))])
    requires w.attributeMappers[0](item) == Ok(Str(item.0)) && w.attributeMappers[1](item) == Ok(Str(item.1))
    ensures w.Apply(item) == Ok(CompositeData(w.compositeType, ["street", "city"], [Str(item.0), Str(item.1)]))
  {
    assert RowItemNames(w.compositeType) == ["street", "city"];
    assert RecordNamesMatch(w.attributeNames, w.compositeType);
    var record := w.Apply(item);
    assert record.value.values == [Str(item.0), Str(item.1)];
  }

  /** The address builder: a type name and description, a street field with its own
      description and a city field whose description defaults to its name, in call
      order. */
  method AddressBuilder() returns (b: Builder<(string, string)>)
    ensures b.Lockstep()
    ensures b.typeName == Some("Address") && b.typeDescription == Some("a postal address")
    ensures b.attributeNames == ["street", "city"]
    ensures b.attributeDescriptions == ["the street", "city"]
    ensures b.attributeTypes == [Simple("java.lang.String"), Simple("java.lang.String")]
    ensures |b.attributeMappers| == 2
    ensures forall item :: b.attributeMappers[0](item) == Ok(Str(item.0)) && b.attributeMappers[1](item) == Ok(Str(item.1))
  {
    var stringClass := ClassToken("java.lang.String", "java.lang.String");
    b := new Builder<(string, string)>((c: ClassToken) => Simple(c.name));
    b.WithTypeName("Address");
    b.WithTypeDescription("a postal address");
    b.WithSimpleAttribute(stringClass, "street", Some("the street"), (a: (string, string)) => Ok(Str(a.0)));
    b.WithSimpleAttribute(stringClass, "city", None, (a: (string, string)) => Ok(Str(a.1)));
  }

  /** Building the address writer: the type lists the fields in call order with their
      names and descriptions as given, and applying the writer yields the two values in
      the same order. */
  method AddressScenario() returns (r: Attempt<CompositeDataWriter<(string, string)>>)
    ensures r.Ok?
    ensures r.value.compositeType ==
              Composite("Address", "a postal address",
                        [Item("street", "the street", Simple("java.lang.String")), Item("city", "city", Simple("java.lang.String"))])
    ensures r.value.Apply(("Main St", "Springfield")) ==
              Ok(CompositeData(r.value.compositeType, ["street", "city"], [Str("Main St"), Str("Springfield")]))
  {
    var b := AddressBuilder();
    TrimmedArgumentsKept("Address", "a postal address", b.attributeNames, b.attributeDescriptions, b.attributeTypes);
    ghost var t := Composite("Address", "a postal address",
                             [Item("street", "the street", Simple("java.lang.String")), Item("city", "city", Simple("java.lang.String"))]);
    ghost var built := NewCompositeType("Address", "a postal address", b.attributeNames, b.attributeDescriptions, b.attributeTypes);
    assert built.value.items == t.items;
    assert built == Ok(t);
    r := b.Build();
    assert r == Ok(CompositeDataWriter(b.attributeNames, b.attributeMappers, t));
    AddressRecord(r.value, ("Main St", "Springfield"));
  }
}
