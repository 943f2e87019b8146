/** ParameterInfo: the type, name, description and descriptor of one operation
    parameter, used to give reflected or lambda parameters readable names. */
module Parameters {
  import opened Common
  import opened Descriptors

  /** Only the type is required; name, description and descriptor may be null. The
      descriptor is kept as a snapshot of its fields. */
  datatype ParameterInfo = ParameterInfo(
    paramType: ClassToken,
    name: Option<string>,
    description: Option<string>,
    descriptor: Option<Fields>)

  /** The four-argument constructor: a null type is rejected, everything else is kept. */
  function NewParameterInfo(paramType: Option<ClassToken>, name: Option<string>,
                            description: Option<string>, descriptor: Option<Fields>): (r: Attempt<ParameterInfo>)
    ensures r.Ok? <==> paramType.Some?
    ensures r.Thrown? ==> r.exception.NullPointer?
    ensures r.Ok? ==> r.value.paramType == paramType.value && r.value.name == name
                      && r.value.description == description && r.value.descriptor == descriptor
  {
    if paramType.None? then Thrown(NullPointer("type"))
    else Ok(ParameterInfo(paramType.value, name, description, descriptor))
  }

  /** The two-argument constructor: no description and no descriptor. */
  function NewNamedParameterInfo(paramType: Option<ClassToken>, name: Option<string>): (r: Attempt<ParameterInfo>)
    ensures r.Ok? <==> paramType.Some?
    ensures r.Ok? ==> r.value.name == name && r.value.description.None? && r.value.descriptor.None?
  {
    NewParameterInfo(paramType, name, None, None)
  }

  /** ParameterInfo.Builder: collects the optional parts and calls the constructor. */
  class Builder {
    var paramType: Option<ClassToken>
    var name: Option<string>
    var description: Option<string>
    var descriptor: Option<Fields>

    /** ParameterInfo.builder(type) */
    constructor(paramType: Option<ClassToken>)
      ensures this.paramType == paramType && name.None? && description.None? && descriptor.None?
    {
      this.paramType := paramType;
      name := None;
      description := None;
      descriptor := None;
    }

    method WithName(name: string)
      modifies this
      ensures this.name == Some(name)
      ensures paramType == old(paramType) && description == old(description) && descriptor == old(descriptor)
    {
      this.name := Some(name);
    }

    method WithDescription(description: string)
      modifies this
      ensures this.description == Some(description)
      ensures paramType == old(paramType) && name == old(name) && descriptor == old(descriptor)
    {
      this.description := Some(description);
    }

    /** Replaces the descriptor (no merge). */
    method WithDescriptor(descriptor: Fields)
      modifies this
      ensures this.descriptor == Some(descriptor)
      ensures paramType == old(paramType) && name == old(name) && description == old(description)
    {
      this.descriptor := Some(descriptor);
    }

    method Build() returns (r: Attempt<ParameterInfo>)
      ensures r == NewParameterInfo(paramType, name, description, descriptor)
      ensures r.Ok? <==> paramType.Some?
    {
      r := NewParameterInfo(paramType, name, description, descriptor);
    }
  }

  /** A builder given a type and a name builds a parameter carrying exactly those. */
  method BuilderScenario() returns (r: Attempt<ParameterInfo>)
    ensures r == Ok(ParameterInfo(ClassToken("java.lang.Integer", "java.lang.Integer"), Some("age"), None, None))
  {
    var b := new Builder(Some(ClassToken("java.lang.Integer", "java.lang.Integer")));
    b.WithName("age");
    r := b.Build();
  }
}
