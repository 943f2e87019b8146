/** AttributeInfo: one management attribute, a name and type with an optional getter
    and an optional setter (a missing one makes the attribute write-only or read-only),
    a description, a descriptor and a per-attribute change-notification counter.

    The getter and setter are caller-supplied closures over some state of the caller.
    Here that state is a Cell: the getter reads the cell, the setter computes the cell's
    new contents from its old contents and the written value. This is what lets the
    model say that the old value of a change notification is read after the write. */
module Attributes {
  import opened Common
  import opened OpenTypes
  import opened Descriptors

  /** The state the getter and setter of an attribute close over. */
  class Cell {
    var contents: Value

    constructor(contents: Value)
      ensures this.contents == contents
    {
      this.contents := contents;
    }
  }

  /** Supplier.get over the cell's contents; Null is Java's null. */
  type Getter = Value -> Attempt<Value>

  /** Consumer.accept: from the cell's contents and the written value to the new contents. */
  type Setter = (Value, Value) -> Attempt<Value>

  /** get(): empty when there is no getter or the getter returns null, the getter's value
      otherwise; an exception from the getter is rethrown wrapped in RuntimeException. */
  function Read(supplier: Option<Getter>, contents: Value): (r: Attempt<Option<Value>>)
    ensures r == Ok(None) <==> supplier.None? || supplier.value(contents) == Ok(Null)
    ensures r.Ok? && r.value.Some? <==> supplier.Some? && supplier.value(contents).Ok? && supplier.value(contents).value != Null
    ensures r.Ok? && r.value.Some? ==> r.value.value == supplier.value(contents).value
    ensures r.Thrown? <==> supplier.Some? && supplier.value(contents).Thrown?
    ensures r.Thrown? ==> r.exception == Runtime(supplier.value(contents).exception)
  {
    if supplier.None? then Ok(None)
    else match supplier.value(contents)
      case Ok(v) => if v == Null then Ok(None) else Ok(Some(v))
      case Thrown(e) => Thrown(Runtime(e))
  }

  /** Everything one set call does: its result, the cell's new contents, the new value of
      the sequence counter and the change notification handed to the receiver, if any. */
  datatype SetOutcome = SetOutcome(result: Attempt<bool>, contents: Value, sequenceNumber: nat,
                                   emitted: Option<Notification>)

  /** set(value, receiver). Without a setter nothing happens and the result is false.
      Otherwise the setter runs once; if it throws, that exception propagates. After the
      write, if there is a getter and a receiver, the getter is read (so the "old" value
      is the value after the write) and one AttributeChange notification with the current
      sequence number is handed over, the counter moving on by one; a getter exception
      here propagates unwrapped. The result is then true. */
  function SetStep(name: string, attributeType: string, supplier: Option<Getter>, consumer: Option<Setter>,
                   contents: Value, sequenceNumber: nat, value: Value, hasReceiver: bool): (r: SetOutcome)
  {
    if consumer.None? then SetOutcome(Ok(false), contents, sequenceNumber, None)
    else match consumer.value(contents, value)
      case Thrown(e) => SetOutcome(Thrown(e), contents, sequenceNumber, None)
      case Ok(written) =>
        if supplier.Some? && hasReceiver then
          match supplier.value(written)
            case Thrown(e) => SetOutcome(Thrown(e), written, sequenceNumber, None)
            case Ok(oldValue) =>
              SetOutcome(Ok(true), written, sequenceNumber + 1,
                         Some(AttributeChange(sequenceNumber, name, attributeType, oldValue, value)))
        else SetOutcome(Ok(true), written, sequenceNumber, None)
  }

  /** The cases of one set call: what it returns, what the cell and the counter hold
      afterwards and when a notification is handed over. */
  lemma SetStepOutcome(name: string, attributeType: string, supplier: Option<Getter>, consumer: Option<Setter>,
                       contents: Value, sequenceNumber: nat, value: Value, hasReceiver: bool)
    ensures var r := SetStep(name, attributeType, supplier, consumer, contents, sequenceNumber, value, hasReceiver);
            && (consumer.None? ==> r == SetOutcome(Ok(false), contents, sequenceNumber, None))
            && (consumer.Some? && consumer.value(contents, value).Thrown? ==>
                 r == SetOutcome(Thrown(consumer.value(contents, value).exception), contents, sequenceNumber, None))
            && (consumer.Some? && consumer.value(contents, value).Ok? ==>
                 r.contents == consumer.value(contents, value).value)
            && (r.emitted.Some? <==>
                 && consumer.Some? && consumer.value(contents, value).Ok?
                 && supplier.Some? && hasReceiver && supplier.value(r.contents).Ok?)
            && (r.emitted.Some? ==>
                 && r.emitted.value == AttributeChange(sequenceNumber, name, attributeType,
                                                       supplier.value(r.contents).value, value)
                 && r.sequenceNumber == sequenceNumber + 1)
            && (r.emitted.None? ==> r.sequenceNumber == sequenceNumber)
            && (r.result == Ok(true) <==>
                 && consumer.Some? && consumer.value(contents, value).Ok?
                 && (supplier.Some? && hasReceiver ==> supplier.value(r.contents).Ok?))
            && (r.result != Ok(true) && r.result != Ok(false) ==> r.result.Thrown?)
  {
  }

  /** javax.management.MBeanAttributeInfo */
  datatype MBeanAttributeInfo = MBeanAttributeInfo(
    name: string, attributeType: string, description: string,
    isReadable: bool, isWritable: bool, isIs: bool, descriptor: Fields)

  class AttributeInfo {
    const name: string
    /** The attribute's Java type name. */
    const attributeType: string
    const description: string
    const supplier: Option<Getter>
    const consumer: Option<Setter>
    const descriptor: Option<Fields>
    /** The state the supplier and consumer act on. */
    const state: Cell
    /** The AtomicLong counter of change notifications; it starts at 1. */
    var sequenceNumber: nat

    constructor(name: string, attributeType: string, description: string, supplier: Option<Getter>,
                consumer: Option<Setter>, descriptor: Option<Fields>, state: Cell)
      ensures this.name == name && this.attributeType == attributeType && this.description == description
      ensures this.supplier == supplier && this.consumer == consumer && this.descriptor == descriptor
      ensures this.state == state && sequenceNumber == 1
    {
      this.name := name;
      this.attributeType := attributeType;
      this.description := description;
      this.supplier := supplier;
      this.consumer := consumer;
      this.descriptor := descriptor;
      this.state := state;
      sequenceNumber := 1;
    }

    /** The public constructor: name, type and description must not be null, checked in
        that order; getter, setter and descriptor may be. */
    static method New(name: Option<string>, attributeType: Option<string>, description: Option<string>,
                      supplier: Option<Getter>, consumer: Option<Setter>, descriptor: Option<Fields>,
                      state: Cell) returns (r: Attempt<AttributeInfo>)
      ensures r.Ok? <==> name.Some? && attributeType.Some? && description.Some?
      ensures name.None? ==> r == Thrown(NullPointer("Null name"))
      ensures name.Some? && attributeType.None? ==> r == Thrown(NullPointer("Null type"))
      ensures name.Some? && attributeType.Some? && description.None? ==> r == Thrown(NullPointer("Null description"))
      ensures r.Ok? ==>
        && fresh(r.value) && r.value.sequenceNumber == 1
        && r.value.name == name.value && r.value.attributeType == attributeType.value
        && r.value.description == description.value && r.value.supplier == supplier
        && r.value.consumer == consumer && r.value.descriptor == descriptor && r.value.state == state
    {
      if name.None? {
        return Thrown(NullPointer("Null name"));
      }
      if attributeType.None? {
        return Thrown(NullPointer("Null type"));
      }
      if description.None? {
        return Thrown(NullPointer("Null description"));
      }
      var info := new AttributeInfo(name.value, attributeType.value, description.value, supplier, consumer,
                                    descriptor, state);
      r := Ok(info);
    }

    /** get(): reads the getter over the current contents of the cell. */
    function Get(): (r: Attempt<Option<Value>>)
      reads state
      ensures r == Read(supplier, state.contents)
    {
      Read(supplier, state.contents)
    }

    /** set(value, receiver): performs SetStep on the cell and the counter. The receiver is
        present when hasReceiver holds; the notification handed to it is returned. */
    method Set(value: Value, hasReceiver: bool) returns (result: Attempt<bool>, emitted: Option<Notification>)
      modifies this`sequenceNumber, state
      ensures var o := SetStep(name, attributeType, supplier, consumer, old(state.contents),
                               old(sequenceNumber), value, hasReceiver);
              result == o.result && emitted == o.emitted
              && state.contents == o.contents && sequenceNumber == o.sequenceNumber
    {
      emitted := None;
      if consumer.None? {
        return Ok(false), None;
      }
      var written := consumer.value(state.contents, value);
      if written.Thrown? {
        return Thrown(written.exception), None;
      }
      state.contents := written.value;
      if supplier.Some? && hasReceiver {
        var oldValue := supplier.value(state.contents);
        if oldValue.Thrown? {
          return Thrown(oldValue.exception), None;
        }
        emitted := Some(AttributeChange(sequenceNumber, name, attributeType, oldValue.value, value));
        sequenceNumber := sequenceNumber + 1;
      }
      result := Ok(true);
    }

    /** Readable exactly when there is a getter, writable exactly when there is a setter,
        never an is-getter; a missing descriptor is published as an empty one. */
    function GetMBeanAttributeInfo(): (r: MBeanAttributeInfo)
      ensures r.isReadable <==> supplier.Some?
      ensures r.isWritable <==> consumer.Some?
      ensures !r.isIs
      ensures r.name == name && r.attributeType == attributeType && r.description == description
      ensures descriptor.Some? ==> r.descriptor == descriptor.value
      ensures descriptor.None? ==> r.descriptor == map[]
    {
      MBeanAttributeInfo(name, attributeType, description, supplier.Some?, consumer.Some?, false,
                         if descriptor.Some? then descriptor.value else map[])
    }
  }

  /** The value a set call writes is what a later get reads back, when the setter stores
      the written value and the getter reads the cell; and the notification that set
      sends then carries that same value as both its old and its new value. */
  lemma ReadAfterSet(name: string, attributeType: string, supplier: Getter, consumer: Setter,
                                        contents: Value, sequenceNumber: nat, value: Value)
    requires consumer(contents, value) == Ok(value)
    requires supplier(value) == Ok(value)
    requires value != Null
    ensures var o := SetStep(name, attributeType, Some(supplier), Some(consumer), contents, sequenceNumber, value, true);
            && o.result == Ok(true)
            && Read(Some(supplier), o.contents) == Ok(Some(value))
            && o.emitted == Some(AttributeChange(sequenceNumber, name, attributeType, value, value))
  {
  }

  /** The outcomes of successive set calls on one attribute, each starting from the state
      the previous one left: the final contents, the final counter and the notifications
      sent, in order. */
  function SetEach(name: string, attributeType: string, supplier: Option<Getter>, consumer: Option<Setter>,
                   contents: Value, sequenceNumber: nat, values: seq<Value>, hasReceiver: bool)
    : (r: (Value, nat, seq<Notification>))
    decreases |values|
  {
    if |values| == 0 then (contents, sequenceNumber, [])
    else
      var o := SetStep(name, attributeType, supplier, consumer, contents, sequenceNumber,
                       values[0], hasReceiver);
      var rest := SetEach(name, attributeType, supplier, consumer, o.contents, o.sequenceNumber,
                          values[1..], hasReceiver);
      (rest.0, rest.1, (if o.emitted.Some? then [o.emitted.value] else []) + rest.2)
  }

  /** The counter numbers notifications consecutively from where it stood, and ends one
      past the last number used: starting from 1, the k-th notification has number k + 1. */
  lemma {:induction false} SequenceNumbersConsecutive(name: string, attributeType: string, supplier: Option<Getter>,
                                                      consumer: Option<Setter>, contents: Value,
                                                      sequenceNumber: nat, values: seq<Value>, hasReceiver: bool)
    ensures var r := SetEach(name, attributeType, supplier, consumer, contents, sequenceNumber, values, hasReceiver);
            && r.1 == sequenceNumber + |r.2|
            && |r.2| <= |values|
            && forall k :: 0 <= k < |r.2| ==> r.2[k].AttributeChange? && r.2[k].sequenceNumber == sequenceNumber + k
    decreases |values|
  {
    if |values| > 0 {
      var o := SetStep(name, attributeType, supplier, consumer, contents, sequenceNumber, values[0], hasReceiver);
      SequenceNumbersConsecutive(name, attributeType, supplier, consumer, o.contents, o.sequenceNumber,
                                 values[1..], hasReceiver);
    }
  }

  /** AttributeInfo.Builder for an attribute of the given Java class. The open type the
      class maps to is an input (the mapping itself is JDK code). */
  class Builder {
    const attributeType: ClassToken
    const openType: OpenType
    /** The state the getter and setter given to this builder act on. */
    const state: Cell
    var name: Option<string>
    var description: Option<string>
    var supplier: Option<Getter>
    var consumer: Option<Setter>
    const descriptorBuilder: Descriptors.Builder

    /** AttributeInfo.builder(attributeType) */
    constructor(attributeType: ClassToken, openType: OpenType, state: Cell)
      ensures this.attributeType == attributeType && this.openType == openType && this.state == state
      ensures name.None? && description.None? && supplier.None? && consumer.None?
      ensures fresh(descriptorBuilder) && fresh(descriptorBuilder.descriptor)
      ensures descriptorBuilder.descriptor.fields == map[]
    {
      this.attributeType := attributeType;
      this.openType := openType;
      this.state := state;
      name := None;
      description := None;
      supplier := None;
      consumer := None;
      descriptorBuilder := new Descriptors.Builder();
    }

    method WithName(name: string)
      modifies this
      ensures this.name == Some(name)
      ensures description == old(description) && supplier == old(supplier) && consumer == old(consumer)
    {
      this.name := Some(name);
    }

    method WithDescription(description: string)
      modifies this
      ensures this.description == Some(description)
      ensures name == old(name) && supplier == old(supplier) && consumer == old(consumer)
    {
      this.description := Some(description);
    }

    /** Merges the fields into the builder's descriptor: later fields win. */
    method WithDescriptor(descriptor: Fields) returns (r: Attempt<()>)
      modifies descriptorBuilder.descriptor
      ensures r.Ok? <==> AllValid(descriptor)
      ensures r.Ok? ==> descriptorBuilder.descriptor.fields == old(descriptorBuilder.descriptor.fields) + descriptor
      ensures r.Thrown? ==>
                && r.exception.RuntimeOperations?
                && PartialMerge(old(descriptorBuilder.descriptor.fields), descriptorBuilder.descriptor.fields, descriptor)
    {
      r := descriptorBuilder.WithDescriptor(descriptor);
    }

    method WithSupplier(supplier: Getter)
      modifies this
      ensures this.supplier == Some(supplier)
      ensures name == old(name) && description == old(description) && consumer == old(consumer)
    {
      this.supplier := Some(supplier);
    }

    method WithConsumer(consumer: Setter)
      modifies this
      ensures this.consumer == Some(consumer)
      ensures name == old(name) && description == old(description) && supplier == old(supplier)
    {
      this.consumer := Some(consumer);
    }

    /** A null or empty description becomes the name (the builder keeps it); the
        descriptor gains openType and originalType; the attribute's type is the class name.
        Construction then fails only for a missing name. */
    method Build() returns (r: Attempt<AttributeInfo>)
      modifies this`description, descriptorBuilder.descriptor
      ensures description == (if old(description).None? || old(description) == Some("") then name else old(description))
      ensures descriptorBuilder.descriptor.fields ==
                old(descriptorBuilder.descriptor.fields)["openType" := TypeValue(openType)]
                                                        ["originalType" := Text(attributeType.name)]
      ensures r.Ok? <==> name.Some?
      ensures r.Thrown? ==> r.exception == NullPointer("Null name")
      ensures r.Ok? ==>
        && fresh(r.value) && r.value.sequenceNumber == 1
        && r.value.name == name.value && r.value.attributeType == attributeType.name
        && r.value.description == description.value
        && r.value.supplier == supplier && r.value.consumer == consumer
        && r.value.descriptor == Some(descriptorBuilder.descriptor.fields) && r.value.state == state
    {
      if description.None? || description == Some("") {
        description := name;
      }
      var originalType := attributeType.name;
      var _ := descriptorBuilder.WithField("openType", TypeValue(openType));
      var _ := descriptorBuilder.WithField("originalType", Text(originalType));
      var descriptor := descriptorBuilder.Build();
      r := AttributeInfo.New(name, Some(originalType), description, supplier, consumer, Some(descriptor.fields), state);
    }
  }

  /** An age attribute with a getter and setter over one cell: building it without a
      description uses the name; setting 21 sends one notification numbered 1 whose old
      value is already 21; reading then gives 21. */
  method AgeScenario() returns (built: Attempt<AttributeInfo>, emitted: Option<Notification>)
    ensures built.Ok? && built.value.description == "age"
    ensures emitted == Some(AttributeChange(1, "age", "int", Int(21), Int(21)))
    ensures built.value.sequenceNumber == 2 && built.value.Get() == Ok(Some(Int(21)))
  {
    var cell := new Cell(Int(12));
    var b := new Builder(ClassToken("int", "int"), Simple("java.lang.Integer"), cell);
    b.WithName("age");
    b.WithSupplier(c => Ok(c));
    b.WithConsumer((c, v) => Ok(v));
    built := b.Build();
    var info := built.value;
    assert info.Get() == Ok(Some(Int(12)));
    var result;
    result, emitted := info.Set(Int(21), true);
    assert result == Ok(true);
    assert emitted == Some(AttributeChange(1, "age", "int", Int(21), Int(21)));
    assert info.Get() == Ok(Some(Int(21)));
  }
}
