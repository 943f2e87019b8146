/** DynamicBean: a JMX dynamic MBean assembled from registries of attributes, operations
    and notification descriptions, plus the builder that fills those registries.
    Attributes are looked up by name, operations by a key made of the operation name and
    its parameter type names, so that overloads coexist. What the bean's notification
    broadcaster sends is recorded, in order, in the bean's notification log. */
module DynamicBeans {
  import opened Common
  import opened OpenTypes
  import opened Descriptors
  import opened Parameters
  import opened Notifications
  import opened Operations
  import opened Attributes

  // ---------------------------------------------------------------------------------
  // Operation keys

  /** String.join(",", parts) */
  function Join(parts: seq<string>): string
    decreases |parts|
  {
    if |parts| == 0 then ""
    else if |parts| == 1 then parts[0]
    else parts[0] + "," + Join(parts[1..])
  }

  /** Cuts a string at every comma: the reading of a key back into its parts. */
  function Split(s: string): (r: seq<string>)
    ensures |r| > 0
    decreases |s|
  {
    if |s| == 0 then [""]
    else
      var rest := Split(s[1..]);
      if s[0] == ',' then [""] + rest else [[s[0]] + rest[0]] + rest[1..]
  }

  predicate CommaFree(s: string) {
    ',' !in s
  }

  predicate AllCommaFree(ss: seq<string>) {
    forall i :: 0 <= i < |ss| ==> CommaFree(ss[i])
  }

  /** OperationInfos.key: the operation name followed by the type names, comma-joined. */
  function Key(name: string, types: seq<string>): string {
    Join([name] + types)
  }

  lemma {:induction false} SplitPrefix(p: string, t: string)
    requires CommaFree(p)
    ensures Split(p + t) == [p + Split(t)[0]] + Split(t)[1..]
    decreases |p|
  {
    if |p| == 0 {
      assert p + t == t && p + Split(t)[0] == Split(t)[0];
      assert [Split(t)[0]] + Split(t)[1..] == Split(t);
    } else {
      assert (p + t)[0] == p[0] && (p + t)[1..] == p[1..] + t;
      SplitPrefix(p[1..], t);
      assert [p[0]] + (p[1..] + Split(t)[0]) == p + Split(t)[0];
    }
  }

  /** Splitting undoes joining when no part contains a comma. */
  lemma {:induction false} SplitJoin(parts: seq<string>)
    requires |parts| > 0 && AllCommaFree(parts)
    ensures Split(Join(parts)) == parts
    decreases |parts|
  {
    if |parts| == 1 {
      SplitPrefix(parts[0], "");
      assert parts[0] + "" == parts[0];
    } else {
      var rest := Join(parts[1..]);
      assert AllCommaFree(parts[1..]) by {
        forall i | 0 <= i < |parts| - 1 ensures CommaFree(parts[1..][i]) {
          assert parts[1..][i] == parts[i + 1];
        }
      }
      SplitJoin(parts[1..]);
      assert CommaFree(parts[0]);
      assert parts[0] + "," + rest == parts[0] + ("," + rest);
      SplitPrefix(parts[0], "," + rest);
      assert ("," + rest)[1..] == rest;
      assert Split("," + rest) == [""] + parts[1..];
      assert parts[0] + "" == parts[0];
    }
  }

  /** With comma-free names and type names, two keys are equal exactly when the names
      and the type-name lists are: an operation is only replaced by one with the same
      name and signature, and overloads get distinct keys. */
  lemma KeyInjective(name1: string, types1: seq<string>, name2: string, types2: seq<string>)
    requires CommaFree(name1) && AllCommaFree(types1) && CommaFree(name2) && AllCommaFree(types2)
    ensures Key(name1, types1) == Key(name2, types2) <==> name1 == name2 && types1 == types2
  {
    if Key(name1, types1) == Key(name2, types2) {
      assert AllCommaFree([name1] + types1) by {
        forall i | 0 <= i < |types1| + 1 ensures CommaFree(([name1] + types1)[i]) {
          if i > 0 { assert ([name1] + types1)[i] == types1[i - 1]; }
        }
      }
      assert AllCommaFree([name2] + types2) by {
        forall i | 0 <= i < |types2| + 1 ensures CommaFree(([name2] + types2)[i]) {
          if i > 0 { assert ([name2] + types2)[i] == types2[i - 1]; }
        }
      }
      SplitJoin([name1] + types1);
      SplitJoin([name2] + types2);
      assert ([name1] + types1)[0] == name1 && ([name1] + types1)[1..] == types1;
      assert ([name2] + types2)[0] == name2 && ([name2] + types2)[1..] == types2;
    }
  }

  /** Without the comma-free condition keys collide: an operation named "a,b" with no
      parameters and an operation "a" taking one parameter of type "b" share a key. */
  lemma CommaInNameCollides()
    ensures Key("a,b", []) == Key("a", ["b"])
  {
    assert [ "a,b" ] + [] == ["a,b"];
    assert ["a"] + ["b"] == ["a", "b"] && ["a", "b"][1..] == ["b"];
  }

  // ---------------------------------------------------------------------------------
  // Operation dispatch

  /** The type names an operation is registered under (Class.getTypeName of each
      parameter type, in signature order). */
  function TypeNames(signature: seq<ParameterInfo>): (r: seq<string>)
    ensures |r| == |signature|
    ensures forall i :: 0 <= i < |r| ==> r[i] == signature[i].paramType.typeName
  {
    seq(|signature|, i requires 0 <= i < |signature| => signature[i].paramType.typeName)
  }

  function RegistryKey(info: OperationInfo): string {
    Key(info.name, TypeNames(info.signature))
  }

  /** What an invoke call returns and the notification it sends, if any. */
  datatype InvokeOutcome = InvokeOutcome(result: Attempt<Value>, sent: Option<Notification>)

  /** Running a registered operation. On success the return value is returned and, when
      a completion notifier is bound, exactly one notification built from the return
      value is sent. An InvocationTargetException or IllegalAccessException from the
      invoker is returned, wrapped in a ReflectionException, as the result (not thrown);
      any other exception propagates. A failed call sends nothing. */
  function Run(info: OperationInfo, params: seq<Value>): (r: InvokeOutcome)
    ensures info.invoker(params).Ok? ==>
              && r.result == info.invoker(params)
              && r.sent == (if info.notifier.Some? then Some(info.notifier.value(info.invoker(params).value)) else None)
    ensures info.invoker(params).Thrown? ==> r.sent.None?
    ensures info.invoker(params).Thrown? ==>
              var e := info.invoker(params).exception;
              && (e.InvocationTarget? || e.IllegalAccess? ==> r.result == Ok(Throwable(Reflection(e))))
              && (!e.InvocationTarget? && !e.IllegalAccess? ==> r.result == Thrown(e))
  {
    match info.invoker(params)
    case Ok(returnValue) =>
      InvokeOutcome(Ok(returnValue),
                    if info.notifier.Some? then Some(info.notifier.value(returnValue)) else None)
    case Thrown(e) =>
      if e.InvocationTarget? || e.IllegalAccess? then InvokeOutcome(Ok(Throwable(Reflection(e))), None)
      else InvokeOutcome(Thrown(e), None)
  }

  const NO_METHOD_PREFIX: string := "No method found with key "

  function NoMethodMessage(key: string, signature: seq<string>): string {
    NO_METHOD_PREFIX + key + ", actual signature (" + Join(signature) + ")"
  }

  /** OperationInfos.invoke: the operation registered under the key of the action name
      and signature is run; with no such operation a ReflectionException around a
      NoSuchMethodException is thrown whose message contains the key, no invoker runs
      and nothing is sent. */
  function Dispatch(operationMap: map<string, OperationInfo>, actionName: string, params: seq<Value>,
                    signature: seq<string>): (r: InvokeOutcome)
    ensures Key(actionName, signature) in operationMap ==> r == Run(operationMap[Key(actionName, signature)], params)
    ensures Key(actionName, signature) !in operationMap ==>
              && r.sent.None? && r.result.Thrown?
              && r.result.exception.Reflection? && r.result.exception.cause.NoSuchMethod?
              && var message := r.result.exception.cause.message;
                 && |NO_METHOD_PREFIX| + |Key(actionName, signature)| <= |message|
                 && message[|NO_METHOD_PREFIX|..|NO_METHOD_PREFIX| + |Key(actionName, signature)|] == Key(actionName, signature)
  {
    var key := Key(actionName, signature);
    if key in operationMap then Run(operationMap[key], params)
    else
      var message := NoMethodMessage(key, signature);
      assert message[|NO_METHOD_PREFIX|..|NO_METHOD_PREFIX| + |key|] == key by {
        assert message == NO_METHOD_PREFIX + key + (", actual signature (" + Join(signature) + ")");
      }
      InvokeOutcome(Thrown(Reflection(NoSuchMethod(message))), None)
  }

  /** Once an operation is registered, invoking it by its name and the type names of its
      signature runs it. */
  lemma DispatchAfterAdd(operationMap: map<string, OperationInfo>, info: OperationInfo, params: seq<Value>)
    ensures Dispatch(operationMap[RegistryKey(info) := info], info.name, params, TypeNames(info.signature))
            == Run(info, params)
  {
  }

  /** Two overloads of one name, with different parameter type lists, both stay
      reachable after both are registered, each under its own signature. */
  lemma OverloadsCoexist(operationMap: map<string, OperationInfo>, first: OperationInfo, second: OperationInfo,
                         params: seq<Value>)
    requires first.name == second.name && CommaFree(first.name)
    requires AllCommaFree(TypeNames(first.signature)) && AllCommaFree(TypeNames(second.signature))
    requires TypeNames(first.signature) != TypeNames(second.signature)
    ensures var m := operationMap[RegistryKey(first) := first][RegistryKey(second) := second];
            && Dispatch(m, first.name, params, TypeNames(first.signature)) == Run(first, params)
            && Dispatch(m, second.name, params, TypeNames(second.signature)) == Run(second, params)
  {
    KeyInjective(first.name, TypeNames(first.signature), second.name, TypeNames(second.signature));
  }

  /** The parameter types a client reads from the published operation metadata. */
  function PublishedSignature(m: MBeanOperationInfo): (r: seq<string>)
    ensures |r| == |m.signature|
    ensures forall i :: 0 <= i < |r| ==> r[i] == m.signature[i].paramType
  {
    seq(|m.signature|, i requires 0 <= i < |m.signature| => m.signature[i].paramType)
  }

  /** Operations are keyed by Class.getTypeName, but their published metadata gives
      Class.getName. The two differ for array classes, so invoking such an operation with
      the signature its own metadata publishes finds nothing. */
  lemma PublishedSignatureMisses(info: OperationInfo, params: seq<Value>, i: nat)
    requires CommaFree(info.name) && AllCommaFree(TypeNames(info.signature))
    requires AllCommaFree(PublishedSignature(DescribeOperation(info)))
    requires i < |info.signature| && info.signature[i].paramType.name != info.signature[i].paramType.typeName
    ensures var r := Dispatch(map[RegistryKey(info) := info], info.name, params,
                              PublishedSignature(DescribeOperation(info)));
            r.result.Thrown? && r.result.exception.Reflection? && r.sent.None?
  {
    var published := PublishedSignature(DescribeOperation(info));
    assert published[i] != TypeNames(info.signature)[i];
    KeyInjective(info.name, published, info.name, TypeNames(info.signature));
  }

  // ---------------------------------------------------------------------------------
  // Registries

  /** The attribute registry: attribute name to attribute, a later entry replacing an
      earlier one. */
  class AttributeInfos {
    var infos: map<string, AttributeInfo>

    constructor()
      ensures infos == map[]
    {
      infos := map[];
    }

    /** The registered attributes. */
    function Infos(): set<AttributeInfo>
      reads this
    {
      set n | n in infos :: infos[n]
    }

    /** The cells the registered attributes act on. */
    function Cells(): set<Cell>
      reads this
    {
      set n | n in infos :: infos[n].state
    }

    /** What each registered attribute's cell holds. */
    function Contents(): (r: map<Cell, Value>)
      reads this, Cells()
      ensures r.Keys == Cells()
      ensures forall n :: n in infos ==> r[infos[n].state] == infos[n].state.contents
    {
      map c | c in Cells() :: c.contents
    }

    /** Each registered attribute's notification counter. */
    function Counters(): (r: map<AttributeInfo, nat>)
      reads this, Infos()
      ensures r.Keys == Infos()
      ensures forall n :: n in infos ==> r[infos[n]] == infos[n].sequenceNumber
    {
      map a | a in Infos() :: a.sequenceNumber
    }

    /** Every registered attribute's cell and counter hold what the run says. */
    predicate Holds(run: SetRun)
      reads this, Cells(), Infos()
    {
      && Covers(infos, run)
      && (forall n :: n in infos ==>
            && infos[n].state.contents == run.contents[infos[n].state]
            && infos[n].sequenceNumber == run.counters[infos[n]])
    }

    /** The registry's state as a bulk set starts from it: nothing sent, nothing thrown. */
    function Snapshot(): (r: SetRun)
      reads this, Cells(), Infos()
      ensures Holds(r) && r.sent == [] && r.failure.None?
    {
      SetRun(Contents(), Counters(), [], None)
    }

    /** find(name): empty exactly when no attribute is registered under the name. */
    function Find(name: string): (r: Option<AttributeInfo>)
      reads this
      ensures r.None? <==> name !in infos
      ensures r.Some? ==> r.value == infos[name] && r.value in Infos() && r.value.state in Cells()
    {
      if name in infos then Some(infos[name]) else None
    }

    /** add(info): registers under the attribute's own name and returns the entry it
        replaced, if any. */
    method Add(info: AttributeInfo) returns (previous: Option<AttributeInfo>)
      modifies this
      ensures infos == old(infos)[info.name := info]
      ensures previous == if info.name in old(infos) then Some(old(infos)[info.name]) else None
    {
      previous := Find(info.name);
      infos := infos[info.name := info];
    }

    /** add(key, info): registers under an explicit key and returns the replaced entry. */
    method AddWithKey(key: string, info: AttributeInfo) returns (previous: Option<AttributeInfo>)
      modifies this
      ensures infos == old(infos)[key := info]
      ensures previous == if key in old(infos) then Some(old(infos)[key]) else None
    {
      previous := Find(key);
      infos := infos[key := info];
    }

    /** remove(key): unregisters and returns what was registered, if anything. */
    method Remove(key: string) returns (removed: Option<AttributeInfo>)
      modifies this
      ensures infos == old(infos) - {key}
      ensures removed == if key in old(infos) then Some(old(infos)[key]) else None
    {
      removed := Find(key);
      infos := infos - {key};
    }

    /** getMBeanAttributeInfos: the metadata of every registered attribute, one entry per
        key, in the map's (unspecified) key order; that order is the ghost out-parameter. */
    method GetMBeanAttributeInfos() returns (r: seq<MBeanAttributeInfo>, ghost order: seq<string>)
      ensures Distinct(order) && (forall k :: k in order <==> k in infos)
      ensures |r| == |order| == |infos|
      ensures forall i :: 0 <= i < |order| ==> order[i] in infos && r[i] == infos[order[i]].GetMBeanAttributeInfo()
      ensures forall k :: k in infos ==> infos[k].GetMBeanAttributeInfo() in r
      ensures forall x :: x in r ==> exists k :: k in infos && x == infos[k].GetMBeanAttributeInfo()
    {
      r := [];
      order := [];
      var keys := infos.Keys;
      while keys != {}
        invariant keys <= infos.Keys
        invariant |r| + |keys| == |infos| && |r| == |order|
        invariant Distinct(order)
        invariant forall k :: k in infos ==> (k in order <==> k !in keys)
        invariant forall i :: 0 <= i < |order| ==> order[i] in infos && r[i] == infos[order[i]].GetMBeanAttributeInfo()
        invariant forall k :: k in infos && k !in keys ==> infos[k].GetMBeanAttributeInfo() in r
        invariant forall x :: x in r ==> exists k :: k in infos && x == infos[k].GetMBeanAttributeInfo()
        decreases keys
      {
        var k :| k in keys;
        r := r + [infos[k].GetMBeanAttributeInfo()];
        order := order + [k];
        keys := keys - {k};
      }
    }
  }

  /** The operation registry: key of name and parameter type names to operation. */
  class OperationInfos {
    var operationMap: map<string, OperationInfo>

    constructor()
      ensures operationMap == map[]
    {
      operationMap := map[];
    }

    /** add(info): registers under the key of the name and the parameter type names,
        replacing an operation with the same key. */
    method Add(info: OperationInfo)
      modifies this
      ensures operationMap == old(operationMap)[RegistryKey(info) := info]
    {
      var signature := new string[|info.signature|];
      for i := 0 to signature.Length
        invariant unchanged(this)
        invariant forall k :: 0 <= k < i ==> signature[k] == info.signature[k].paramType.typeName
      {
        signature[i] := info.signature[i].paramType.typeName;
      }
      assert signature[..] == TypeNames(info.signature);
      operationMap := operationMap[Key(info.name, signature[..]) := info];
    }

    /** invoke(source, actionName, params, signature): what Dispatch says; the caller
        sends the notification. */
    method Invoke(actionName: string, params: seq<Value>, signature: seq<string>) returns (r: InvokeOutcome)
      ensures r == Dispatch(operationMap, actionName, params, signature)
    {
      var key := Key(actionName, signature);
      if key in operationMap {
        var info := operationMap[key];
        var returnValue := info.invoker(params);
        if returnValue.Thrown? {
          var e := returnValue.exception;
          if e.InvocationTarget? || e.IllegalAccess? {
            return InvokeOutcome(Ok(Throwable(Reflection(e))), None);
          }
          return InvokeOutcome(Thrown(e), None);
        }
        var sent := if info.notifier.Some? then Some(info.notifier.value(returnValue.value)) else None;
        return InvokeOutcome(returnValue, sent);
      }
      r := InvokeOutcome(Thrown(Reflection(NoSuchMethod(NoMethodMessage(key, signature)))), None);
    }

    /** getMBeanOperationInfos: the metadata of every registered operation, one entry per
        key, in the map's (unspecified) key order; that order is the ghost out-parameter. */
    method GetMBeanOperationInfos() returns (r: seq<MBeanOperationInfo>, ghost order: seq<string>)
      ensures Distinct(order) && (forall k :: k in order <==> k in operationMap)
      ensures |r| == |order| == |operationMap|
      ensures forall i :: 0 <= i < |order| ==>
                order[i] in operationMap && r[i] == DescribeOperation(operationMap[order[i]])
      ensures forall k :: k in operationMap ==> DescribeOperation(operationMap[k]) in r
      ensures forall x :: x in r ==> exists k :: k in operationMap && x == DescribeOperation(operationMap[k])
    {
      r := [];
      order := [];
      var keys := operationMap.Keys;
      while keys != {}
        invariant keys <= operationMap.Keys
        invariant |r| + |keys| == |operationMap| && |r| == |order|
        invariant Distinct(order)
        invariant forall k :: k in operationMap ==> (k in order <==> k !in keys)
        invariant forall i :: 0 <= i < |order| ==>
                    order[i] in operationMap && r[i] == DescribeOperation(operationMap[order[i]])
        invariant forall k :: k in operationMap && k !in keys ==> DescribeOperation(operationMap[k]) in r
        invariant forall x :: x in r ==> exists k :: k in operationMap && x == DescribeOperation(operationMap[k])
        decreases keys
      {
        var k :| k in keys;
        var described := GetMBeanOperationInfo(operationMap[k]);
        r := r + [described];
        order := order + [k];
        keys := keys - {k};
      }
    }
  }

  /** The notification descriptions, in the order they were added. */
  class NotificationInfos {
    var infos: seq<NotificationInfo>

    constructor()
      ensures infos == []
    {
      infos := [];
    }

    method Add(info: NotificationInfo)
      modifies this
      ensures infos == old(infos) + [info]
    {
      infos := infos + [info];
    }

    /** getMBeanNotificationInfos: one metadata entry per description, in order. */
    function GetMBeanNotificationInfos(): (r: seq<MBeanNotificationInfo>)
      reads this
      ensures |r| == |infos|
      ensures forall i :: 0 <= i < |infos| ==> r[i] == GetMBeanNotificationInfo(infos[i])
    {
      seq(|infos|, i requires 0 <= i < |infos| reads this => GetMBeanNotificationInfo(infos[i]))
    }
  }

  // ---------------------------------------------------------------------------------
  // The bean

  /** javax.management.MBeanInfo (the bean has no constructors to describe). */
  datatype MBeanInfo = MBeanInfo(
    className: string,
    description: string,
    attributes: seq<MBeanAttributeInfo>,
    operations: seq<MBeanOperationInfo>,
    notifications: seq<MBeanNotificationInfo>,
    descriptor: Fields)

  /** The attributes of a bulk set that name a registered attribute, in input order. */
  function Registered(names: set<string>, list: seq<(string, Value)>): (r: seq<(string, Value)>)
    ensures |r| <= |list|
    decreases |list|
  {
    if |list| == 0 then []
    else
      var last := list[|list| - 1];
      Registered(names, list[..|list| - 1]) + (if last.0 in names then [last] else [])
  }

  /** The echo holds exactly the pairs of the list whose name is registered. */
  lemma {:induction false} RegisteredMembers(names: set<string>, list: seq<(string, Value)>)
    ensures forall p :: p in Registered(names, list) ==> p in list && p.0 in names
    ensures forall p :: p in list && p.0 in names ==> p in Registered(names, list)
    decreases |list|
  {
    if |list| > 0 {
      var front := list[..|list| - 1];
      RegisteredMembers(names, front);
      assert list == front + [list[|list| - 1]];
    }
  }

  /** Of a bulk set cut short, the attributes echoed so far are a prefix of the full echo. */
  lemma {:induction false} RegisteredPrefix(names: set<string>, list: seq<(string, Value)>, n: nat)
    requires n <= |list|
    ensures Registered(names, list[..n]) <= Registered(names, list)
    decreases |list| - n
  {
    if n < |list| {
      RegisteredPrefix(names, list, n + 1);
      assert list[..n + 1][..n] == list[..n];
    } else {
      assert list[..n] == list;
    }
  }

  /** The echo keeps request order and multiplicity: the echo of two lists one after
      the other is the echo of the first followed by the echo of the second. */
  lemma {:induction false} RegisteredAppend(names: set<string>, a: seq<(string, Value)>, b: seq<(string, Value)>)
    ensures Registered(names, a + b) == Registered(names, a) + Registered(names, b)
    decreases |b|
  {
    if |b| == 0 {
      assert a + b == a;
    } else {
      var front := b[..|b| - 1];
      var last := b[|b| - 1];
      var tail := if last.0 in names then [last] else [];
      assert (a + b)[..|a + b| - 1] == a + front;
      assert (a + b)[|a + b| - 1] == last;
      assert Registered(names, a + b) == Registered(names, a + front) + tail;
      assert Registered(names, b) == Registered(names, front) + tail;
      RegisteredAppend(names, a, front);
    }
  }

  /** A single pair is echoed exactly when its name is registered. */
  lemma RegisteredSingle(names: set<string>, p: (string, Value))
    ensures Registered(names, [p]) == if p.0 in names then [p] else []
  {
    assert [p][..0] == [];
  }

  /** Extending the list by one pair echoes that pair exactly when its name is registered. */
  lemma {:induction false} RegisteredStep(names: set<string>, list: seq<(string, Value)>, i: nat)
    requires i < |list|
    ensures Registered(names, list[..i + 1]) == Registered(names, list[..i]) + (if list[i].0 in names then [list[i]] else [])
  {
    assert list[..i + 1][..i] == list[..i];
  }

  /** A bulk set in progress: every cell's contents and every attribute's counter, the
      notifications sent so far, and the exception that ended it, if one did. */
  datatype SetRun = SetRun(contents: map<Cell, Value>, counters: map<AttributeInfo, nat>,
                           sent: seq<Notification>, failure: Option<Exception>)

  /** The run holds the cell and the counter of every registered attribute. */
  predicate Covers(infos: map<string, AttributeInfo>, run: SetRun)
  {
    forall n :: n in infos ==> infos[n].state in run.contents && infos[n] in run.counters
  }

  /** One pair of a bulk set: an unregistered name is skipped; a registered attribute's
      set runs on its cell and counter with a receiver that sends through the bean, the
      notification it hands over is sent, and an exception it throws ends the run. Only
      that attribute's cell and counter change. */
  function SetPair(infos: map<string, AttributeInfo>, run: SetRun, pair: (string, Value)): (r: SetRun)
    requires Covers(infos, run)
    ensures r.contents.Keys == run.contents.Keys && r.counters.Keys == run.counters.Keys
    ensures pair.0 !in infos ==> r == run
    ensures run.sent <= r.sent && |r.sent| <= |run.sent| + 1
  {
    if pair.0 !in infos then run
    else
      var target := infos[pair.0];
      var o := SetStep(target.name, target.attributeType, target.supplier, target.consumer,
                       run.contents[target.state], run.counters[target], pair.1, true);
      SetRun(run.contents[target.state := o.contents], run.counters[target := o.sequenceNumber],
             run.sent + (if o.emitted.Some? then [o.emitted.value] else []),
             if o.result.Thrown? then Some(o.result.exception) else None)
  }

  /** One pair of a bulk set changes only the cell and the counter of the attribute it
      names. */
  lemma SetPairKeeps(infos: map<string, AttributeInfo>, run: SetRun, pair: (string, Value))
    requires Covers(infos, run)
    ensures var r := SetPair(infos, run, pair);
            && (forall c :: c in run.contents && (pair.0 in infos ==> c != infos[pair.0].state) ==>
                  r.contents[c] == run.contents[c])
            && (forall a :: a in run.counters && (pair.0 in infos ==> a != infos[pair.0]) ==>
                  r.counters[a] == run.counters[a])
  {
  }

  /** A bulk set from a given start over the first n pairs of the list: the pairs in
      input order, each applied by SetPair, until one throws; the pairs after it are not
      looked at. Notifications are only added, and a run that fails was ended by a
      registered name. */
  function SetFirst(infos: map<string, AttributeInfo>, list: seq<(string, Value)>, n: nat, start: SetRun): (r: SetRun)
    requires Covers(infos, start) && n <= |list|
    ensures Covers(infos, r)
    ensures r.contents.Keys == start.contents.Keys && r.counters.Keys == start.counters.Keys
    ensures start.sent <= r.sent
  {
    if n == 0 then start
    else
      var run := SetFirst(infos, list, n - 1, start);
      if run.failure.Some? then run else SetPair(infos, run, list[n - 1])
  }

  /** A run that starts without an exception and ends with one was ended by a
      registered name. */
  lemma {:induction false} SetFirstFails(infos: map<string, AttributeInfo>, list: seq<(string, Value)>, n: nat,
                                         start: SetRun)
    requires Covers(infos, start) && n <= |list|
    requires start.failure.None? && SetFirst(infos, list, n, start).failure.Some?
    ensures exists i :: 0 <= i < n && list[i].0 in infos
  {
    if SetFirst(infos, list, n - 1, start).failure.Some? {
      SetFirstFails(infos, list, n - 1, start);
    } else {
      assert list[n - 1].0 in infos;
    }
  }

  /** A bulk set sends at most one notification per registered pair. */
  lemma {:induction false} SetFirstSends(infos: map<string, AttributeInfo>, list: seq<(string, Value)>, n: nat,
                                         start: SetRun)
    requires Covers(infos, start) && n <= |list|
    ensures |SetFirst(infos, list, n, start).sent| <= |start.sent| + |Registered(infos.Keys, list[..n])|
  {
    if n > 0 {
      SetFirstSends(infos, list, n - 1, start);
      RegisteredStep(infos.Keys, list, n - 1);
      var run := SetFirst(infos, list, n - 1, start);
      if run.failure.None? && list[n - 1].0 in infos {
        assert |SetPair(infos, run, list[n - 1]).sent| <= |run.sent| + 1;
      }
    }
  }

  /** A list with no registered name among its first n pairs changes nothing. */
  lemma {:induction false} SetFirstSkips(infos: map<string, AttributeInfo>, list: seq<(string, Value)>, n: nat,
                                         start: SetRun)
    requires Covers(infos, start) && n <= |list|
    requires Registered(infos.Keys, list[..n]) == []
    ensures SetFirst(infos, list, n, start) == start
  {
    if n > 0 {
      RegisteredStep(infos.Keys, list, n - 1);
      SetFirstSkips(infos, list, n - 1, start);
    }
  }

  /** A bulk set touches only the attributes the list names: a cell or counter that no
      registered name among the first n pairs leads to keeps its value. */
  lemma {:induction false} SetFirstKeeps(infos: map<string, AttributeInfo>, list: seq<(string, Value)>, n: nat,
                                         start: SetRun, c: Cell, a: AttributeInfo)
    requires Covers(infos, start) && n <= |list|
    ensures var r := SetFirst(infos, list, n, start);
            && (c in start.contents && (forall j :: 0 <= j < n && list[j].0 in infos ==> infos[list[j].0].state != c) ==>
                  r.contents[c] == start.contents[c])
            && (a in start.counters && (forall j :: 0 <= j < n && list[j].0 in infos ==> infos[list[j].0] != a) ==>
                  r.counters[a] == start.counters[a])
  {
    if n > 0 {
      SetFirstKeeps(infos, list, n - 1, start, c, a);
      SetPairKeeps(infos, SetFirst(infos, list, n - 1, start), list[n - 1]);
    }
  }

  /** A run that has failed is not extended by the next pair. */
  lemma SetFirstStopped(infos: map<string, AttributeInfo>, list: seq<(string, Value)>, k: nat, start: SetRun)
    requires Covers(infos, start) && k < |list|
    requires SetFirst(infos, list, k, start).failure.Some?
    ensures SetFirst(infos, list, k + 1, start) == SetFirst(infos, list, k, start)
  {
  }

  /** Once a run has failed, the pairs after it change nothing. */
  lemma {:induction false} SetFirstStops(infos: map<string, AttributeInfo>, list: seq<(string, Value)>, n: nat,
                                         m: nat, start: SetRun)
    requires Covers(infos, start) && n <= m <= |list|
    requires SetFirst(infos, list, n, start).failure.Some?
    ensures SetFirst(infos, list, m, start) == SetFirst(infos, list, n, start)
    decreases m - n
  {
    if n < m {
      SetFirstStopped(infos, list, n, start);
      SetFirstStops(infos, list, n + 1, m, start);
    }
  }

  class DynamicBean {
    const info: MBeanInfo
    const attributeInfos: AttributeInfos
    const operationInfos: OperationInfos
    const notificationInfos: NotificationInfos
    /** Everything the bean's broadcaster has sent, oldest first. */
    var notifications: seq<Notification>

    constructor(info: MBeanInfo, attributeInfos: AttributeInfos, operationInfos: OperationInfos,
                notificationInfos: NotificationInfos)
      ensures this.info == info && this.attributeInfos == attributeInfos
      ensures this.operationInfos == operationInfos && this.notificationInfos == notificationInfos
      ensures notifications == []
    {
      this.info := info;
      this.attributeInfos := attributeInfos;
      this.operationInfos := operationInfos;
      this.notificationInfos := notificationInfos;
      notifications := [];
    }

    /** getAttribute(name): the getter's value. An unregistered name, a missing getter and
        a null value all give AttributeNotFoundException; a getter exception surfaces as
        the RuntimeException that get throws. */
    function GetAttribute(name: string): (r: Attempt<Value>)
      reads attributeInfos, attributeInfos.Cells()
      ensures name !in attributeInfos.infos ==> r == Thrown(AttributeNotFound("Attribute " + name + " not found"))
      ensures name in attributeInfos.infos ==>
                var got := attributeInfos.infos[name].Get();
                && (got == Ok(None) ==> r == Thrown(AttributeNotFound("Attribute " + name + " not found")))
                && (got.Ok? && got.value.Some? ==> r == Ok(got.value.value))
                && (got.Thrown? ==> r == Thrown(got.exception))
      ensures r.Ok? ==> r.value != Null
    {
      match attributeInfos.Find(name)
      case None => Thrown(AttributeNotFound("Attribute " + name + " not found"))
      case Some(attributeInfo) =>
        match attributeInfo.Get()
        case Thrown(e) => Thrown(e)
        case Ok(got) =>
          if got.Some? then Ok(got.value) else Thrown(AttributeNotFound("Attribute " + name + " not found"))
    }

    /** The attributes a bulk get returns: one (name, value) pair per requested name whose
        single get succeeds with a non-null value, in request order; the rest are
        silently omitted. */
    function Readable(names: seq<string>): (r: seq<(string, Value)>)
      reads attributeInfos, attributeInfos.Cells()
      ensures |r| <= |names|
      ensures forall i :: 0 <= i < |r| ==> r[i].0 in names && GetAttribute(r[i].0) == Ok(r[i].1)
      ensures forall n :: n in names && GetAttribute(n).Ok? ==> exists i :: 0 <= i < |r| && r[i].0 == n
      decreases |names|
    {
      if |names| == 0 then []
      else
        var prefix := names[..|names| - 1];
        var name := names[|names| - 1];
        var value := GetAttribute(name);
        var rest := Readable(prefix);
        var r := rest + (if value.Ok? && value.value != Null then [(name, value.value)] else []);
        assert forall i :: 0 <= i < |rest| ==> r[i] == rest[i];
        assert forall n :: n in names ==> n in prefix || n == name;
        assert value.Ok? ==> r[|r| - 1].0 == name;
        r
    }

    /** getAttributes(names): a loop that keeps the successes and drops the failures. */
    method GetAttributes(names: seq<string>) returns (list: seq<(string, Value)>)
      ensures list == Readable(names)
    {
      list := [];
      for i := 0 to |names|
        invariant list == Readable(names[..i])
      {
        assert names[..i + 1][..i] == names[..i];
        var value := GetAttribute(names[i]);
        if value.Ok? && value.value != Null {
          list := list + [(names[i], value.value)];
        }
      }
      assert names[..|names|] == names;
    }

    /** Runs a registered attribute's set with a receiver that sends through this bean:
        the cell and counter follow SetStep and its notification, if any, is sent. Seen
        from the whole registry, that is one SetPair step of a bulk set in progress. */
    method SetThrough(name: string, target: AttributeInfo, value: Value, ghost run: SetRun,
                      ghost sentBefore: seq<Notification>) returns (result: Attempt<bool>)
      requires name in attributeInfos.infos && attributeInfos.infos[name] == target
      requires attributeInfos.Holds(run) && run.failure.None? && notifications == sentBefore + run.sent
      modifies this`notifications, target`sequenceNumber, target.state
      ensures var o := SetStep(target.name, target.attributeType, target.supplier, target.consumer,
                               old(target.state.contents), old(target.sequenceNumber), value, true);
              && result == o.result
              && target.state.contents == o.contents && target.sequenceNumber == o.sequenceNumber
              && notifications == old(notifications) + (if o.emitted.Some? then [o.emitted.value] else [])
      ensures var next := SetPair(attributeInfos.infos, run, (name, value));
              && attributeInfos.Holds(next)
              && notifications == sentBefore + next.sent
              && (result.Thrown? <==> next.failure.Some?)
              && (result.Thrown? ==> result.exception == next.failure.value)
    {
      var emitted;
      result, emitted := target.Set(value, true);
      if emitted.Some? {
        SendNotification(emitted.value);
      }
    }

    /** setAttribute(attribute): an unregistered name throws AttributeNotFoundException
        and no setter runs; otherwise the attribute's set runs with a receiver that sends
        through this bean, and its exceptions propagate. Only the target attribute's cell
        and counter can change. */
    method SetAttribute(name: string, value: Value) returns (r: Attempt<()>)
      modifies this`notifications, attributeInfos.Infos(), attributeInfos.Cells()
      ensures name !in attributeInfos.infos ==>
                && r == Thrown(AttributeNotFound("Cannot find " + name))
                && notifications == old(notifications)
                && (forall c :: c in attributeInfos.Cells() ==> c.contents == old(c.contents))
                && (forall a :: a in attributeInfos.Infos() ==> a.sequenceNumber == old(a.sequenceNumber))
      ensures name in attributeInfos.infos ==>
                var target := attributeInfos.infos[name];
                var o := SetStep(target.name, target.attributeType, target.supplier, target.consumer,
                                 old(target.state.contents), old(target.sequenceNumber), value, true);
                && r == (if o.result.Thrown? then Thrown(o.result.exception) else Ok(()))
                && target.state.contents == o.contents && target.sequenceNumber == o.sequenceNumber
                && notifications == old(notifications) + (if o.emitted.Some? then [o.emitted.value] else [])
                && (forall c :: c in attributeInfos.Cells() && c != target.state ==> c.contents == old(c.contents))
                && (forall a :: a in attributeInfos.Infos() && a != target ==> a.sequenceNumber == old(a.sequenceNumber))
    {
      var found := attributeInfos.Find(name);
      if found.None? {
        return Thrown(AttributeNotFound("Cannot find " + name));
      }
      var result := SetThrough(name, found.value, value, attributeInfos.Snapshot(), notifications);
      r := if result.Thrown? then Thrown(result.exception) else Ok(());
    }

    /** setAttributes(list): sets every attribute whose name is registered, in input
        order, and echoes exactly those; unregistered names are skipped. An exception from
        a set is not caught and ends the call. The registered cells and counters end as
        SetFirst computes over the whole list from the registry's state before the call,
        and the notifications it sends are appended to the log. */
    method SetAttributes(list: seq<(string, Value)>) returns (r: Attempt<seq<(string, Value)>>)
      modifies this`notifications, attributeInfos.Infos(), attributeInfos.Cells()
      ensures var run := SetFirst(attributeInfos.infos, list, |list|, old(attributeInfos.Snapshot()));
              && attributeInfos.Holds(run)
              && notifications == old(notifications) + run.sent
              && (r.Ok? <==> run.failure.None?)
              && (r.Thrown? ==> r.exception == run.failure.value)
      ensures r.Ok? ==> r.value == Registered(attributeInfos.infos.Keys, list)
      ensures r.Thrown? ==> exists i :: 0 <= i < |list| && list[i].0 in attributeInfos.infos
      ensures old(notifications) <= notifications
      ensures |notifications| <= |old(notifications)| + |Registered(attributeInfos.infos.Keys, list)|
      ensures Registered(attributeInfos.infos.Keys, list) == [] ==>
                && r == Ok([]) && notifications == old(notifications)
                && (forall c :: c in attributeInfos.Cells() ==> c.contents == old(c.contents))
    {
      ghost var start := attributeInfos.Snapshot();
      r := SetInOrder(list, start);
      ghost var run := SetFirst(attributeInfos.infos, list, |list|, start);
      SetFirstSends(attributeInfos.infos, list, |list|, start);
      assert list[..|list|] == list;
      if r.Thrown? {
        SetFirstFails(attributeInfos.infos, list, |list|, start);
      }
      if Registered(attributeInfos.infos.Keys, list) == [] {
        SetFirstSkips(attributeInfos.infos, list, |list|, start);
        forall c | c in attributeInfos.Cells()
          ensures c.contents == old(c.contents)
        {
          var n :| n in attributeInfos.infos && attributeInfos.infos[n].state == c;
        }
      }
    }

    /** Pass i of the setAttributes loop: the i-th name is looked up; an unregistered one
        is skipped, a registered one is set through this bean. Seen from the whole
        registry, the bulk set has then run over the first i + 1 pairs. */
    method SetNext(list: seq<(string, Value)>, i: nat, retlist: seq<(string, Value)>, ghost start: SetRun,
                   ghost sentBefore: seq<Notification>)
      returns (echo: seq<(string, Value)>, thrown: Option<Exception>)
      requires i < |list| && Covers(attributeInfos.infos, start)
      requires retlist == Registered(attributeInfos.infos.Keys, list[..i])
      requires var run := SetFirst(attributeInfos.infos, list, i, start);
               && attributeInfos.Holds(run) && run.failure.None? && notifications == sentBefore + run.sent
      modifies this`notifications, attributeInfos.Infos(), attributeInfos.Cells()
      ensures echo == Registered(attributeInfos.infos.Keys, list[..i + 1])
      ensures var next := SetFirst(attributeInfos.infos, list, i + 1, start);
              && attributeInfos.Holds(next)
              && notifications == sentBefore + next.sent
              && (thrown.Some? <==> next.failure.Some?)
              && (thrown.Some? ==> thrown.value == next.failure.value)
    {
      ghost var run := SetFirst(attributeInfos.infos, list, i, start);
      RegisteredStep(attributeInfos.infos.Keys, list, i);
      var found := attributeInfos.Find(list[i].0);
      if found.None? {
        return retlist, None;
      }
      var result := SetThrough(list[i].0, found.value, list[i].1, run, sentBefore);
      echo := retlist + [list[i]];
      thrown := if result.Thrown? then Some(result.exception) else None;
    }

    /** The loop of setAttributes, started from a fold state that describes the registry
        with nothing sent yet: pass i brings the bulk set over the first i + 1 pairs, and
        a set that throws ends the loop with its exception. */
    method SetInOrder(list: seq<(string, Value)>, ghost start: SetRun) returns (r: Attempt<seq<(string, Value)>>)
      requires attributeInfos.Holds(start) && start.sent == [] && start.failure.None?
      modifies this`notifications, attributeInfos.Infos(), attributeInfos.Cells()
      ensures var run := SetFirst(attributeInfos.infos, list, |list|, start);
              && attributeInfos.Holds(run)
              && notifications == old(notifications) + run.sent
              && (r.Ok? <==> run.failure.None?)
              && (r.Thrown? ==> r.exception == run.failure.value)
      ensures r.Ok? ==> r.value == Registered(attributeInfos.infos.Keys, list)
    {
      var retlist := [];
      for i := 0 to |list|
        invariant retlist == Registered(attributeInfos.infos.Keys, list[..i])
        invariant var run := SetFirst(attributeInfos.infos, list, i, start);
                  && run.failure.None? && attributeInfos.Holds(run)
                  && notifications == old(notifications) + run.sent
      {
        var thrown;
        retlist, thrown := SetNext(list, i, retlist, start, old(notifications));
        if thrown.Some? {
          SetFirstStops(attributeInfos.infos, list, i + 1, |list|, start);
          return Thrown(thrown.value);
        }
      }
      assert list[..|list|] == list;
      r := Ok(retlist);
    }

    /** invoke(actionName, params, signature): dispatches, and sends the completion
        notification, if any, through this bean. */
    method Invoke(actionName: string, params: seq<Value>, signature: seq<string>) returns (r: Attempt<Value>)
      modifies this`notifications
      ensures var o := Dispatch(operationInfos.operationMap, actionName, params, signature);
              r == o.result && notifications == old(notifications) + (if o.sent.Some? then [o.sent.value] else [])
    {
      var o := operationInfos.Invoke(actionName, params, signature);
      if o.sent.Some? {
        SendNotification(o.sent.value);
      }
      r := o.result;
    }

    method SendNotification(notification: Notification)
      modifies this`notifications
      ensures notifications == old(notifications) + [notification]
    {
      notifications := notifications + [notification];
    }

    /** getNotificationInfo: the metadata of the registered notification descriptions. */
    function GetNotificationInfo(): (r: seq<MBeanNotificationInfo>)
      reads notificationInfos
      ensures |r| == |notificationInfos.infos|
      ensures forall i :: 0 <= i < |r| ==> r[i] == GetMBeanNotificationInfo(notificationInfos.infos[i])
    {
      notificationInfos.GetMBeanNotificationInfos()
    }
  }

  // ---------------------------------------------------------------------------------
  // The builder

  const ATTRIBUTE_CHANGE_NOTIFICATION: string := "javax.management.AttributeChangeNotification"
  const ATTRIBUTE_CHANGE: string := "jmx.attribute.change"

  /** DynamicBean.Builder: three fresh registries, a descriptor that starts with the
      field " mxbean" (with a leading space) set to "true", and an empty class name and
      description. */
  class Builder {
    const attributeInfos: AttributeInfos
    const operationInfos: OperationInfos
    const notificationInfos: NotificationInfos
    const descriptorBuilder: Descriptors.Builder
    var className: string
    var description: string

    constructor()
      ensures fresh(attributeInfos) && fresh(operationInfos) && fresh(notificationInfos)
      ensures fresh(descriptorBuilder) && fresh(descriptorBuilder.descriptor)
      ensures attributeInfos.infos == map[] && operationInfos.operationMap == map[] && notificationInfos.infos == []
      ensures descriptorBuilder.descriptor.fields == map[" mxbean" := Text("true")]
      ensures className == "" && description == ""
    {
      attributeInfos := new AttributeInfos();
      operationInfos := new OperationInfos();
      notificationInfos := new NotificationInfos();
      descriptorBuilder := new Descriptors.Builder();
      className := "";
      description := "";
      new;
      var _ := descriptorBuilder.WithField(" mxbean", Text("true"));
    }

    method WithDescription(description: string)
      modifies this
      ensures this.description == description && className == old(className)
    {
      this.description := description;
    }

    method WithClassName(className: string)
      modifies this
      ensures this.className == className && description == old(description)
    {
      this.className := className;
    }

    method WithAttribute(info: AttributeInfo)
      modifies attributeInfos
      ensures attributeInfos.infos == old(attributeInfos.infos)[info.name := info]
    {
      var _ := attributeInfos.Add(info);
    }

    method WithOperation(info: OperationInfo)
      modifies operationInfos
      ensures operationInfos.operationMap == old(operationInfos.operationMap)[RegistryKey(info) := info]
    {
      operationInfos.Add(info);
    }

    method WithNotification(info: NotificationInfo)
      modifies notificationInfos
      ensures notificationInfos.infos == old(notificationInfos.infos) + [info]
    {
      notificationInfos.Add(info);
    }

    /** withNotification(name, types...): a description named and described by the name,
        with those types and an empty descriptor. */
    method WithNamedNotification(name: string, types: seq<string>)
      modifies notificationInfos
      ensures notificationInfos.infos == old(notificationInfos.infos) + [NotificationInfo(types, name, Some(name), Some(map[]))]
    {
      var b := new Notifications.Builder();
      b.WithName(name);
      b.WithTypes(types);
      b.WithDescription(name);
      var built := b.Build();
      notificationInfos.Add(built.value);
    }

    /** withAttributeChangeNotifications: declares AttributeChangeNotification. The
        sentence meant as its description is passed as a notification type, so the
        declared types are that sentence and "jmx.attribute.change", and the description
        is the class name. */
    method WithAttributeChangeNotifications()
      modifies notificationInfos
      ensures notificationInfos.infos == old(notificationInfos.infos) +
                [NotificationInfo(["An attribute of this MBean has changed", ATTRIBUTE_CHANGE],
                                  ATTRIBUTE_CHANGE_NOTIFICATION, Some(ATTRIBUTE_CHANGE_NOTIFICATION), Some(map[]))]
    {
      WithNamedNotification(ATTRIBUTE_CHANGE_NOTIFICATION, ["An attribute of this MBean has changed", ATTRIBUTE_CHANGE]);
    }

    method WithImmutableInfo()
      modifies descriptorBuilder.descriptor
      ensures descriptorBuilder.descriptor.fields == old(descriptorBuilder.descriptor.fields)[IMMUTABLE_INFO_FIELD := Flag(true)]
    {
      descriptorBuilder.WithImmutableInfo(true);
    }

    /** Adds to, rather than replaces, the bean's descriptor. */
    method WithDescriptor(descriptor: Fields) returns (r: Attempt<()>)
      modifies descriptorBuilder.descriptor
      ensures r.Ok? <==> AllValid(descriptor)
      ensures r.Ok? ==> descriptorBuilder.descriptor.fields == old(descriptorBuilder.descriptor.fields) + descriptor
      ensures r.Thrown? ==>
                && r.exception.RuntimeOperations?
                && PartialMerge(old(descriptorBuilder.descriptor.fields), descriptorBuilder.descriptor.fields, descriptor)
    {
      r := descriptorBuilder.WithDescriptor(descriptor);
    }

    /** Builds the metadata from the registries' current contents and a bean that shares
        the registries themselves, so later registrations reach the bean's dispatch but
        not its metadata. The attribute and operation lists hold one entry per registered
        key, in the key orders returned as ghost out-parameters. */
    method Build() returns (bean: DynamicBean, ghost attributeOrder: seq<string>, ghost operationOrder: seq<string>)
      ensures fresh(bean) && bean.notifications == []
      ensures bean.attributeInfos == attributeInfos && bean.operationInfos == operationInfos
      ensures bean.notificationInfos == notificationInfos
      ensures bean.info.className == className && bean.info.description == description
      ensures bean.info.descriptor == descriptorBuilder.descriptor.fields
      ensures Distinct(attributeOrder) && (forall k :: k in attributeOrder <==> k in attributeInfos.infos)
      ensures |bean.info.attributes| == |attributeOrder| == |attributeInfos.infos|
      ensures forall i :: 0 <= i < |attributeOrder| ==>
                attributeOrder[i] in attributeInfos.infos &&
                bean.info.attributes[i] == attributeInfos.infos[attributeOrder[i]].GetMBeanAttributeInfo()
      ensures forall k :: k in attributeInfos.infos ==> attributeInfos.infos[k].GetMBeanAttributeInfo() in bean.info.attributes
      ensures forall x :: x in bean.info.attributes ==>
                exists k :: k in attributeInfos.infos && x == attributeInfos.infos[k].GetMBeanAttributeInfo()
      ensures Distinct(operationOrder) && (forall k :: k in operationOrder <==> k in operationInfos.operationMap)
      ensures |bean.info.operations| == |operationOrder| == |operationInfos.operationMap|
      ensures forall i :: 0 <= i < |operationOrder| ==>
                operationOrder[i] in operationInfos.operationMap &&
                bean.info.operations[i] == DescribeOperation(operationInfos.operationMap[operationOrder[i]])
      ensures forall k :: k in operationInfos.operationMap ==> DescribeOperation(operationInfos.operationMap[k]) in bean.info.operations
      ensures forall x :: x in bean.info.operations ==>
                exists k :: k in operationInfos.operationMap && x == DescribeOperation(operationInfos.operationMap[k])
      ensures bean.info.notifications == notificationInfos.GetMBeanNotificationInfos()
    {
      var attributes, operations;
      attributes, attributeOrder := attributeInfos.GetMBeanAttributeInfos();
      operations, operationOrder := operationInfos.GetMBeanOperationInfos();
      var descriptor := descriptorBuilder.Build();
      var info := MBeanInfo(className, description, attributes, operations,
                            notificationInfos.GetMBeanNotificationInfos(), descriptor.fields);
      bean := new DynamicBean(info, attributeInfos, operationInfos, notificationInfos);
    }
  }

  /** The bulk get keeps request order and multiplicity: asking for two lists one after
      the other gives the first list's pairs followed by the second's. */
  lemma {:induction false} ReadableAppend(bean: DynamicBean, a: seq<string>, b: seq<string>)
    ensures bean.Readable(a + b) == bean.Readable(a) + bean.Readable(b)
    decreases |b|
  {
    if |b| > 0 {
      var front := b[..|b| - 1];
      assert (a + b)[..|a + b| - 1] == a + front;
      assert (a + b)[|a + b| - 1] == b[|b| - 1];
      ReadableAppend(bean, a, front);
    } else {
      assert a + b == a;
    }
  }

  /** A single name gives its pair exactly when its single get returns a non-null value. */
  lemma ReadableSingle(bean: DynamicBean, n: string)
    ensures bean.Readable([n]) ==
              if bean.GetAttribute(n).Ok? && bean.GetAttribute(n).value != Null then [(n, bean.GetAttribute(n).value)] else []
  {
    assert [n][..0] == [];
  }

  /** A bean with one read-write attribute "age" over a cell holding 12, registered
      directly: the value comes from the attribute's getter. */
  method AgeBean() returns (bean: DynamicBean, info: AttributeInfo)
    ensures fresh(bean) && fresh(bean.attributeInfos) && fresh(info) && fresh(info.state)
    ensures bean.attributeInfos.infos == map["age" := info] && bean.notifications == []
    ensures info.name == "age" && info.attributeType == "java.lang.Integer"
    ensures info.state.contents == Int(12) && info.sequenceNumber == 1
    ensures info.supplier == Some((c: Value) => Ok(c)) && info.consumer == Some((c: Value, v: Value) => Ok(v))
  {
    var cell := new Cell(Int(12));
    var age := AttributeInfo.New(Some("age"), Some("java.lang.Integer"), Some("age"),
                                 Some((c: Value) => Ok(c)), Some((c: Value, v: Value) => Ok(v)), None, cell);
    info := age.value;
    var attributeInfos := new AttributeInfos();
    var _ := attributeInfos.Add(info);
    var operationInfos := new OperationInfos();
    var notificationInfos := new NotificationInfos();
    bean := new DynamicBean(MBeanInfo("", "", [], [], [], map[]), attributeInfos, operationInfos, notificationInfos);
  }

  /** Reading "age" gives 12; an unknown attribute is not found. */
  method ReadScenario() returns (bean: DynamicBean)
    ensures fresh(bean)
    ensures bean.GetAttribute("age") == Ok(Int(12))
    ensures bean.GetAttribute("height").Thrown? && bean.GetAttribute("height").exception.AttributeNotFound?
  {
    var info;
    bean, info := AgeBean();
    assert info.Get() == Ok(Some(Int(12)));
    assert bean.GetAttribute("age") == Ok(Int(12));
    assert "height" !in bean.attributeInfos.infos;
    assert bean.GetAttribute("height").Thrown? && bean.GetAttribute("height").exception.AttributeNotFound?;
  }

  /** Writing 21 to "age" sends one change notification, numbered 1, whose old value is
      already 21; reading then gives 21. */
  method WriteScenario() returns (bean: DynamicBean)
    ensures fresh(bean)
    ensures bean.notifications == [AttributeChange(1, "age", "java.lang.Integer", Int(21), Int(21))]
    ensures bean.GetAttribute("age") == Ok(Int(21))
  {
    var info;
    bean, info := AgeBean();
    var written := bean.SetAttribute("age", Int(21));
    assert written == Ok(());
    assert info.state.contents == Int(21) && info.sequenceNumber == 2;
    assert bean.notifications == [AttributeChange(1, "age", "java.lang.Integer", Int(21), Int(21))];
    assert info.Get() == Ok(Some(Int(21)));
    assert bean.GetAttribute("age") == Ok(Int(21));
  }

  /** The operation of the scenarios below: doubles an Integer argument. */
  function Doubled(args: seq<Value>): Attempt<Value> {
    if |args| == 1 && args[0].Int? then Ok(Int(2 * args[0].i)) else Ok(Null)
  }

  /** A bean with one operation "double" on an Integer, with a completion notifier,
      registered directly. */
  method DoubleBean() returns (bean: DynamicBean)
    ensures fresh(bean) && fresh(bean.operationInfos) && bean.notifications == []
    ensures bean.operationInfos.operationMap ==
              map[Key("double", ["java.lang.Integer"]) :=
                    OperationInfo("double", [NamedParameter(ClassToken("java.lang.Integer", "java.lang.Integer"), "x")],
                                  "java.lang.Integer", Doubled, None, INFO, None, Some((v: Value) => Custom("done", v)))]
  {
    var integer := ClassToken("java.lang.Integer", "java.lang.Integer");
    var operation := NewOperationInfo(Some("double"), Some([NamedParameter(integer, "x")]), Some("java.lang.Integer"),
                                      Some(Doubled), None, INFO, None, Some((v: Value) => Custom("done", v)));
    var attributeInfos := new AttributeInfos();
    var operationInfos := new OperationInfos();
    assert TypeNames(operation.value.signature) == ["java.lang.Integer"];
    operationInfos.Add(operation.value);
    var notificationInfos := new NotificationInfos();
    bean := new DynamicBean(MBeanInfo("", "", [], [], [], map[]), attributeInfos, operationInfos, notificationInfos);
  }

  /** Invoking "double" by its signature runs it and sends its completion notification. */
  method InvokeScenario() returns (bean: DynamicBean, result: Attempt<Value>)
    ensures fresh(bean)
    ensures result == Ok(Int(8))
    ensures bean.notifications == [Custom("done", Int(8))]
  {
    bean := DoubleBean();
    result := bean.Invoke("double", [Int(4)], ["java.lang.Integer"]);
  }

  /** Invoking "double" with another signature throws a ReflectionException and sends
      nothing. */
  method MissScenario() returns (bean: DynamicBean, missing: Attempt<Value>)
    ensures fresh(bean)
    ensures missing.Thrown? && missing.exception.Reflection?
    ensures bean.notifications == []
  {
    bean := DoubleBean();
    assert Key("double", ["int"]) != Key("double", ["java.lang.Integer"]) by {
      KeyInjective("double", ["int"], "double", ["java.lang.Integer"]);
    }
    missing := bean.Invoke("double", [Int(4)], ["int"]);
  }

  /** A bean built with only a description and the attribute-change declaration: its
      metadata carries the " mxbean" descriptor field and one notification entry whose
      types are the description sentence and "jmx.attribute.change". */
  method BuilderScenario() returns (bean: DynamicBean)
    ensures fresh(bean)
    ensures bean.info.description == "people" && bean.info.className == ""
    ensures bean.info.descriptor == map[" mxbean" := Text("true")]
    ensures |bean.info.attributes| == 0 && |bean.info.operations| == 0
    ensures bean.info.notifications ==
              [MBeanNotificationInfo(["An attribute of this MBean has changed", ATTRIBUTE_CHANGE],
                                     ATTRIBUTE_CHANGE_NOTIFICATION, Some(ATTRIBUTE_CHANGE_NOTIFICATION), map[])]
  {
    var b := new Builder();
    b.WithDescription("people");
    b.WithAttributeChangeNotifications();
    ghost var attributeOrder, operationOrder;
    bean, attributeOrder, operationOrder := b.Build();
  }
}
