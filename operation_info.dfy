/** OperationInfo: an immutable description of one management operation (name, ordered
    parameter signature, return type name, impact, optional description, descriptor and
    completion notifier) together with the invoker that runs it, and the builder whose
    withMethod variants fix the signature and return type. */
module Operations {
  import opened Common
  import opened OpenTypes
  import opened Descriptors
  import opened Parameters

  /** MethodInvoker.invoke: runs the operation on the argument array. The reflection
      layer behind it is not modelled; it is any function from arguments to a result or
      an exception. */
  type Invoker = seq<Value> -> Attempt<Value>

  /** The completion function: builds a notification from the operation's return value
      (the bean it also receives is the one sending the notification). */
  type CompletionNotifier = Value -> Notification

  /** A method found by reflection: the name of its return class and its invoker. */
  datatype ResolvedMethod = ResolvedMethod(returnClass: ClassToken, invoker: Invoker)

  /** Class.getMethod on the target object's class: the public method with this name and
      these parameter classes, if there is one. */
  type MethodLookup = (string, seq<ClassToken>) -> Option<ResolvedMethod>

  // MBeanOperationInfo impact codes.
  const INFO: int := 0
  const UNKNOWN: int := 3

  datatype OperationInfo = OperationInfo(
    name: string,
    signature: seq<ParameterInfo>,
    returnType: string,
    invoker: Invoker,
    description: Option<string>,
    impact: int,
    descriptor: Option<Fields>,
    notifier: Option<CompletionNotifier>)

  /** The eight-argument constructor: name, signature, return type and invoker must not
      be null; description, descriptor and notifier may be. */
  function NewOperationInfo(name: Option<string>, signature: Option<seq<ParameterInfo>>,
                            returnType: Option<string>, invoker: Option<Invoker>,
                            description: Option<string>, impact: int, descriptor: Option<Fields>,
                            notifier: Option<CompletionNotifier>): (r: Attempt<OperationInfo>)
    ensures r.Ok? <==> name.Some? && signature.Some? && returnType.Some? && invoker.Some?
    ensures r.Thrown? ==> r.exception.NullPointer?
    ensures r.Ok? ==>
      && r.value.name == name.value && r.value.signature == signature.value
      && r.value.returnType == returnType.value && r.value.invoker == invoker.value
      && r.value.description == description && r.value.impact == impact
      && r.value.descriptor == descriptor && r.value.notifier == notifier
  {
    if name.None? then Thrown(NullPointer("name"))
    else if signature.None? then Thrown(NullPointer("signature"))
    else if returnType.None? then Thrown(NullPointer("returnType"))
    else if invoker.None? then Thrown(NullPointer("invoker"))
    else Ok(OperationInfo(name.value, signature.value, returnType.value, invoker.value,
                          description, impact, descriptor, notifier))
  }

  /** The four-argument constructor: impact UNKNOWN, no description, descriptor or notifier. */
  function NewPlainOperationInfo(name: Option<string>, signature: Option<seq<ParameterInfo>>,
                                 returnType: Option<string>, invoker: Option<Invoker>): (r: Attempt<OperationInfo>)
    ensures r.Ok? <==> name.Some? && signature.Some? && returnType.Some? && invoker.Some?
    ensures r.Ok? ==> r.value.impact == UNKNOWN && r.value.description.None?
                      && r.value.descriptor.None? && r.value.notifier.None?
  {
    NewOperationInfo(name, signature, returnType, invoker, None, UNKNOWN, None, None)
  }

  /** javax.management.MBeanParameterInfo: name, class name (Class.getName) and description. */
  datatype MBeanParameterInfo = MBeanParameterInfo(name: Option<string>, paramType: string, description: Option<string>)

  /** javax.management.MBeanOperationInfo */
  datatype MBeanOperationInfo = MBeanOperationInfo(
    name: string,
    description: Option<string>,
    signature: seq<MBeanParameterInfo>,
    returnType: string,
    impact: int,
    descriptor: Fields)

  /** What the metadata says about one parameter. */
  function DescribeParameter(p: ParameterInfo): (r: MBeanParameterInfo)
    ensures r.name == p.name && r.paramType == p.paramType.name && r.description == p.description
  {
    MBeanParameterInfo(p.name, p.paramType.name, p.description)
  }

  /** The operation's metadata: one parameter entry per signature element, at the same
      index, with the operation's own name, description, return type, impact and
      descriptor (an empty one when it has none). */
  function DescribeOperation(info: OperationInfo): (r: MBeanOperationInfo)
    ensures r.name == info.name && r.description == info.description && r.returnType == info.returnType
    ensures r.impact == info.impact
    ensures info.descriptor.Some? ==> r.descriptor == info.descriptor.value
    ensures info.descriptor.None? ==> r.descriptor == map[]
    ensures |r.signature| == |info.signature|
    ensures forall i :: 0 <= i < |info.signature| ==>
              r.signature[i].name == info.signature[i].name
              && r.signature[i].paramType == info.signature[i].paramType.name
              && r.signature[i].description == info.signature[i].description
  {
    MBeanOperationInfo(info.name, info.description,
                       seq(|info.signature|, i requires 0 <= i < |info.signature| => DescribeParameter(info.signature[i])),
                       info.returnType, info.impact, if info.descriptor.Some? then info.descriptor.value else map[])
  }

  /** getMBeanOperationInfo: fills the parameter array in an index loop. */
  method GetMBeanOperationInfo(info: OperationInfo) returns (r: MBeanOperationInfo)
    ensures r == DescribeOperation(info)
  {
    var parameterInfos := new MBeanParameterInfo[|info.signature|];
    for i := 0 to parameterInfos.Length
      invariant forall k :: 0 <= k < i ==> parameterInfos[k] == DescribeParameter(info.signature[k])
    {
      parameterInfos[i] := DescribeParameter(info.signature[i]);
    }
    r := MBeanOperationInfo(info.name, info.description, parameterInfos[..], info.returnType,
                            info.impact, if info.descriptor.Some? then info.descriptor.value else map[]);
  }

  /** The single parameter a (Function, name) or the two parameters a (BiFunction, n1, n2)
      registration declares: the resolved class and the given name, nothing else. */
  function NamedParameter(paramType: ClassToken, name: string): (r: ParameterInfo)
    ensures r.paramType == paramType && r.name == Some(name)
    ensures r.description.None? && r.descriptor.None?
  {
    NewNamedParameterInfo(Some(paramType), Some(name)).value
  }

  /** OperationInfo.Builder. Every withMethod variant overwrites signature, return type
      and invoker together. Types the source resolves from lambda classes are passed in. */
  class Builder {
    var name: Option<string>
    var signature: Option<seq<ParameterInfo>>
    var description: Option<string>
    var returnType: Option<string>
    var impact: int
    const descriptorBuilder: Descriptors.Builder
    var invoker: Option<Invoker>
    var notifier: Option<CompletionNotifier>

    /** Everything starts null, except impact, which starts at 0 (INFO). */
    constructor()
      ensures name.None? && signature.None? && description.None? && returnType.None?
      ensures invoker.None? && notifier.None? && impact == INFO
      ensures fresh(descriptorBuilder) && fresh(descriptorBuilder.descriptor)
      ensures descriptorBuilder.descriptor.fields == map[]
    {
      name := None;
      signature := None;
      description := None;
      returnType := None;
      impact := INFO;
      invoker := None;
      notifier := None;
      descriptorBuilder := new Descriptors.Builder();
    }

    method WithName(name: string)
      modifies this
      ensures this.name == Some(name)
      ensures signature == old(signature) && description == old(description) && returnType == old(returnType)
      ensures impact == old(impact) && invoker == old(invoker) && notifier == old(notifier)
    {
      this.name := Some(name);
    }

    method WithDescription(description: string)
      modifies this
      ensures this.description == Some(description)
      ensures name == old(name) && signature == old(signature) && returnType == old(returnType)
      ensures impact == old(impact) && invoker == old(invoker) && notifier == old(notifier)
    {
      this.description := Some(description);
    }

    method WithImpact(impact: int)
      modifies this
      ensures this.impact == impact
      ensures name == old(name) && signature == old(signature) && description == old(description)
      ensures returnType == old(returnType) && invoker == old(invoker) && notifier == old(notifier)
    {
      this.impact := impact;
    }

    /** Merges the fields into the builder's descriptor: later fields win. */
    method WithDescriptor(descriptor: Fields) returns (r: Attempt<()>)
      modifies descriptorBuilder.descriptor
      ensures r.Ok? <==> AllValid(descriptor)
      ensures r.Ok? ==> descriptorBuilder.descriptor.fields == old(descriptorBuilder.descriptor.fields) + descriptor
      ensures r.Thrown? ==>
                && r.exception.RuntimeOperations?
                && PartialMerge(old(descriptorBuilder.descriptor.fields), descriptorBuilder.descriptor.fields, descriptor)
    {
      r := descriptorBuilder.WithDescriptor(descriptor);
    }

    /** withMethod(Runnable): no parameters and return type java.lang.Void. */
    method WithRunnable(runnable: Invoker)
      modifies this
      ensures signature == Some([]) && returnType == Some("java.lang.Void") && invoker == Some(runnable)
      ensures name == old(name) && description == old(description) && impact == old(impact)
      ensures notifier == old(notifier)
    {
      returnType := Some("java.lang.Void");
      signature := Some([]);
      invoker := Some(runnable);
    }

    /** withMethod(Supplier): no parameters; the return type is the supplier's resolved
        result class. */
    method WithSupplier(supplier: Invoker, resultClass: ClassToken)
      modifies this
      ensures signature == Some([]) && returnType == Some(resultClass.name) && invoker == Some(supplier)
      ensures name == old(name) && description == old(description) && impact == old(impact)
      ensures notifier == old(notifier)
    {
      returnType := Some(resultClass.name);
      signature := Some([]);
      invoker := Some(supplier);
    }

    /** withMethod(Function, paramName): exactly one parameter, of the function's resolved
        argument class and with the given name. */
    method WithFunction(fn: Invoker, argumentClass: ClassToken, resultClass: ClassToken, paramName: string)
      modifies this
      ensures signature == Some([NamedParameter(argumentClass, paramName)])
      ensures returnType == Some(resultClass.name) && invoker == Some(fn)
      ensures name == old(name) && description == old(description) && impact == old(impact)
      ensures notifier == old(notifier)
    {
      signature := Some([NamedParameter(argumentClass, paramName)]);
      returnType := Some(resultClass.name);
      invoker := Some(fn);
    }

    /** withMethod(Function, ParameterInfo): the given parameter is the whole signature. */
    method WithFunctionParameter(fn: Invoker, parameter: ParameterInfo, resultClass: ClassToken)
      modifies this
      ensures signature == Some([parameter])
      ensures returnType == Some(resultClass.name) && invoker == Some(fn)
      ensures name == old(name) && description == old(description) && impact == old(impact)
      ensures notifier == old(notifier)
    {
      signature := Some([parameter]);
      returnType := Some(resultClass.name);
      invoker := Some(fn);
    }

    /** withMethod(BiFunction, arg1Name, arg2Name): two parameters, in that order. */
    method WithBiFunction(biFunction: Invoker, firstClass: ClassToken, secondClass: ClassToken,
                          resultClass: ClassToken, arg1Name: string, arg2Name: string)
      modifies this
      ensures signature == Some([NamedParameter(firstClass, arg1Name), NamedParameter(secondClass, arg2Name)])
      ensures returnType == Some(resultClass.name) && invoker == Some(biFunction)
      ensures name == old(name) && description == old(description) && impact == old(impact)
      ensures notifier == old(notifier)
    {
      signature := Some([NamedParameter(firstClass, arg1Name), NamedParameter(secondClass, arg2Name)]);
      returnType := Some(resultClass.name);
      invoker := Some(biFunction);
    }

    /** withMethod(BiFunction, ParameterInfo[]): the array is adopted unchanged. */
    method WithBiFunctionSignature(biFunction: Invoker, signature: seq<ParameterInfo>, resultClass: ClassToken)
      modifies this
      ensures this.signature == Some(signature)
      ensures returnType == Some(resultClass.name) && invoker == Some(biFunction)
      ensures name == old(name) && description == old(description) && impact == old(impact)
      ensures notifier == old(notifier)
    {
      this.returnType := Some(resultClass.name);
      this.signature := Some(signature);
      this.invoker := Some(biFunction);
    }

    /** withMethod(obj, ParameterInfo[]): looks up the public method of the target's class
        that has the builder's current name and the parameters' classes. A null name makes
        the lookup throw NullPointerException; a missing method is rethrown as a
        RuntimeException around NoSuchMethodException. Either way nothing changes. On
        success the array is adopted unchanged as the signature. */
    method WithTargetMethod(lookup: MethodLookup, parameters: seq<ParameterInfo>) returns (r: Attempt<()>)
      modifies this
      ensures name.None? ==> r.Thrown? && r.exception.NullPointer?
      ensures name.Some? && lookup(name.value, ParameterClasses(parameters)).None? ==>
                r.Thrown? && r.exception.Runtime? && r.exception.cause.NoSuchMethod?
      ensures r.Thrown? ==> signature == old(signature) && returnType == old(returnType) && invoker == old(invoker)
      ensures r.Ok? <==> name.Some? && lookup(name.value, ParameterClasses(parameters)).Some?
      ensures r.Ok? ==>
        var m := lookup(name.value, ParameterClasses(parameters)).value;
        signature == Some(parameters) && returnType == Some(m.returnClass.name) && invoker == Some(m.invoker)
      ensures name == old(name) && description == old(description) && impact == old(impact)
      ensures notifier == old(notifier)
    {
      if name.None? {
        return Thrown(NullPointer("name"));
      }
      var parameterClasses := new ClassToken[|parameters|];
      for i := 0 to parameterClasses.Length
        invariant unchanged(this)
        invariant forall k :: 0 <= k < i ==> parameterClasses[k] == parameters[k].paramType
      {
        parameterClasses[i] := parameters[i].paramType;
      }
      assert parameterClasses[..] == ParameterClasses(parameters);
      var found := lookup(name.value, parameterClasses[..]);
      if found.None? {
        return Thrown(Runtime(NoSuchMethod(name.value)));
      }
      signature := Some(parameters);
      returnType := Some(found.value.returnClass.name);
      invoker := Some(found.value.invoker);
      r := Ok(());
    }

    /** Binds (or, given null, clears) the completion notifier. */
    method WithCompletionNotification(f: Option<CompletionNotifier>)
      modifies this
      ensures notifier == f
      ensures name == old(name) && signature == old(signature) && description == old(description)
      ensures returnType == old(returnType) && impact == old(impact) && invoker == old(invoker)
    {
      notifier := f;
    }

    /** Calls the eight-argument constructor with the builder's fields and its descriptor. */
    method Build() returns (r: Attempt<OperationInfo>)
      ensures r == NewOperationInfo(name, signature, returnType, invoker, description, impact,
                                    Some(descriptorBuilder.descriptor.fields), notifier)
      ensures r.Ok? ==> (r.value.notifier.Some? <==> notifier.Some?)
    {
      var d := descriptorBuilder.Build();
      r := NewOperationInfo(name, signature, returnType, invoker, description, impact, Some(d.fields), notifier);
    }
  }

  /** The classes of the parameters, in signature order. */
  function ParameterClasses(parameters: seq<ParameterInfo>): (r: seq<ClassToken>)
    ensures |r| == |parameters|
    ensures forall i :: 0 <= i < |r| ==> r[i] == parameters[i].paramType
  {
    seq(|parameters|, i requires 0 <= i < |parameters| => parameters[i].paramType)
  }

  /** A builder with a name and a two-argument function builds an operation whose
      signature lists the two named parameters in order; a builder with no name cannot
      look up a target method. */
  method BuilderScenario(add: Invoker) returns (missingName: Attempt<()>, built: Attempt<OperationInfo>)
    ensures missingName.Thrown?
    ensures built.Ok? && built.value.name == "add" && |built.value.signature| == 2
    ensures built.value.signature[0].name == Some("a") && built.value.signature[1].name == Some("b")
    ensures built.value.returnType == "java.lang.Integer" && built.value.impact == INFO
  {
    var integer := ClassToken("java.lang.Integer", "java.lang.Integer");
    var b := new Builder();
    missingName := b.WithTargetMethod((n, cs) => None, []);
    b.WithName("add");
    b.WithBiFunction(add, integer, integer, integer, "a", "b");
    built := b.Build();
  }
}
