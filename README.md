# jmxbuilder in Dafny

A model of the core of jmxbuilder, a Java library that assembles JMX dynamic MBeans with
fluent builders. A `DynamicBean` holds three registries:

- attributes, keyed by name;
- operations, keyed by the operation name followed by its parameter type names, joined
  with commas, so that overloads coexist;
- notification descriptions, kept in order.

Clients reach the bean through `getAttribute`/`setAttribute`, their bulk forms and
`invoke`. The values are described by immutable info records. Each record has a builder:

- `AttributeInfo`: an optional getter and setter over some caller state, and a
  change-notification counter;
- `OperationInfo`: an ordered signature, a return type, an invoker and an optional
  completion notifier;
- `ParameterInfo` and `NotificationInfo`;
- `DescriptorSupport.Builder`: one mutable descriptor that every `with` call writes to.

`CompositeDataWriter` and `TabularDataWriter` turn Java objects into Open MBean
records and tables.

## How the model is built

- Java `null` is `Option`. A call that may throw returns `Attempt` (`Ok` or `Thrown`
  with an `Exception` value).
- Caller closures are total functions. The invoker maps arguments to a result or an
  exception.
- The getter and setter of an attribute act on a `Cell`. That is what lets the model state
  when the old value of a change notification is read.
- The builders are classes whose methods reassign their fields. The registries are classes
  over a `map` or a `seq`. Sending a notification appends it to the bean's
  `notifications` log.
- What reflection, type inference and the Open MBean type mapper would compute is passed
  in as an input:
  - a `ClassToken` giving `getName` and `getTypeName`;
  - a `Resolved` class with an `Unknown` marker;
  - a `MethodLookup`;
  - an `openTypeMapper` function.
- The argument rules of the JDK `CompositeType` and `TabularType` constructors, and the
  `String.trim` they apply to names and descriptions, are stated as functions
  (`NewCompositeType`, `NewTabularType`, `Trim`), so that construction failures and the
  stored names can be modelled. `DescriptorSupport.setField`'s rejection of an empty
  field name and of an invalid severity is modelled the same way.

Where the behaviour described for the library and its code differ, the model follows the
code:

- `AttributeInfo.set` reads the notification's "old" value through the getter *after* the
  setter has run, so the old value is the value just written.
- `AttributeInfo.Builder.build` does not demand a getter or a setter.
- `withLocale` writes the `legalValues` field, the same field `withLegalValues` writes.
- `withAttributeChangeNotifications` passes its description sentence as a notification
  *type*.
- The bean descriptor's marker field is `" mxbean"`, with a leading space.
- The operation builder's impact starts at 0 (INFO), while the four-argument
  `OperationInfo` constructor uses UNKNOWN.
- Operations are keyed by `Class.getTypeName`, but their metadata publishes
  `Class.getName`. For array parameters the signature a client reads from the metadata
  therefore does not find the operation (`DynamicBeans.PublishedSignatureMisses`).
- `setAttributes` does not catch exceptions: the first failing set ends the call.
- `withField` on `DescriptorSupport.Builder` is called by the other builders, but it is
  not declared in the version of `DescriptorSupport.java` modelled here. It is modelled
  as a `setField` on the builder's descriptor.

## Model

| member | source | states |
|---|---|---|
| Descriptors.Descriptor.constructor | src/main/java/com/tersesystems/jmxbuilder/DescriptorSupport.java:33 | a new descriptor has no fields |
| Descriptors.Descriptor.SetField | src/main/java/com/tersesystems/jmxbuilder/DescriptorSupport.java:33-38 | DescriptorSupport.setField: fails exactly when the field name is empty or a severity value is not 0..6, as a number or as decimal text with an optional sign; a failure is a RuntimeOperationsException around an IllegalArgumentException and changes nothing; otherwise the named field gets the value and every other field is kept |
| Descriptors.Builder.constructor | src/main/java/com/tersesystems/jmxbuilder/DescriptorSupport.java:32-33 | a fresh builder owns a fresh, empty descriptor |
| Descriptors.Builder.WithField | src/main/java/com/tersesystems/jmxbuilder/AttributeInfo.java:208-210 | sets one arbitrary field through setField: succeeds exactly when setField accepts the field, last write wins, other fields kept; a rejected field changes nothing |
| Descriptors.Builder.WithDefaultValue | src/main/java/com/tersesystems/jmxbuilder/DescriptorSupport.java:35-38 | sets exactly defaultValue; other fields untouched |
| Descriptors.Builder.WithDeprecated | src/main/java/com/tersesystems/jmxbuilder/DescriptorSupport.java:40-43 | sets exactly deprecated; other fields untouched |
| Descriptors.Builder.WithImmutableInfo | src/main/java/com/tersesystems/jmxbuilder/DescriptorSupport.java:45-48 | sets exactly immutableInfo; other fields untouched |
| Descriptors.Builder.WithInterfaceClassName | src/main/java/com/tersesystems/jmxbuilder/DescriptorSupport.java:50-53 | sets exactly interfaceClassName; other fields untouched |
| Descriptors.Builder.WithLocale | src/main/java/com/tersesystems/jmxbuilder/DescriptorSupport.java:55-58 | writes the locale into the legalValues field |
| Descriptors.Builder.WithLegalValues | src/main/java/com/tersesystems/jmxbuilder/DescriptorSupport.java:60-63 | sets exactly legalValues; other fields untouched |
| Descriptors.Builder.WithMaxValue | src/main/java/com/tersesystems/jmxbuilder/DescriptorSupport.java:65-68 | sets exactly maxValue; other fields untouched |
| Descriptors.Builder.WithMinValue | src/main/java/com/tersesystems/jmxbuilder/DescriptorSupport.java:70-73 | sets exactly minValue; other fields untouched |
| Descriptors.Builder.WithEnabled | src/main/java/com/tersesystems/jmxbuilder/DescriptorSupport.java:75-78 | sets exactly enabled; other fields untouched |
| Descriptors.Builder.WithExceptions | src/main/java/com/tersesystems/jmxbuilder/DescriptorSupport.java:80-83 | sets exactly exceptions, keeping the list's order |
| Descriptors.Builder.WithInfoTimeout | src/main/java/com/tersesystems/jmxbuilder/DescriptorSupport.java:85-89 | a null timeout throws and changes nothing; otherwise infoTimeout holds the decimal text of the number |
| Descriptors.Builder.WithMetricType | src/main/java/com/tersesystems/jmxbuilder/DescriptorSupport.java:91-94 | sets exactly metricType; other fields untouched |
| Descriptors.Builder.WithSeverity | src/main/java/com/tersesystems/jmxbuilder/DescriptorSupport.java:96-99 | succeeds exactly when the severity is present and within 0..6, and then sets exactly severity; a null or out-of-range severity throws RuntimeOperationsException and changes nothing |
| Descriptors.Builder.WithSince | src/main/java/com/tersesystems/jmxbuilder/DescriptorSupport.java:101-104 | sets exactly since; other fields untouched |
| Descriptors.Builder.WithUnits | src/main/java/com/tersesystems/jmxbuilder/DescriptorSupport.java:106-109 | sets exactly units; other fields untouched |
| Descriptors.Builder.WithDisplayName | src/main/java/com/tersesystems/jmxbuilder/DescriptorSupport.java:111-114 | sets exactly displayName; other fields untouched |
| Descriptors.Builder.WithDescriptionResource | src/main/java/com/tersesystems/jmxbuilder/DescriptorSupport.java:116-119 | sets exactly descriptionResource; other fields untouched |
| Descriptors.Builder.WithDescriptionResourceKey | src/main/java/com/tersesystems/jmxbuilder/DescriptorSupport.java:121-124 | sets exactly descriptionResourceKey; other fields untouched |
| Descriptors.Builder.WithDescriptor | src/main/java/com/tersesystems/jmxbuilder/DescriptorSupport.java:126-133 | succeeds exactly when setField accepts every field of the argument, and then yields the old fields overridden by the argument's: same-named fields replaced, all others kept; a failure loses no old field and leaves each field at its old or its new value |
| Descriptors.Builder.Build | src/main/java/com/tersesystems/jmxbuilder/DescriptorSupport.java:135-137 | returns the builder's own descriptor object, not a copy |
| Descriptors.SharedDescriptorScenario | src/main/java/com/tersesystems/jmxbuilder/DescriptorSupport.java:55-63 | worked example: withLocale after withLegalValues wins; a field set after build shows through the built descriptor |
| Descriptors.Digits | src/main/java/com/tersesystems/jmxbuilder/DescriptorSupport.java:85-89 | the decimal text of a magnitude is a non-empty run of digits |
| Descriptors.DigitsRoundTrip | src/main/java/com/tersesystems/jmxbuilder/DescriptorSupport.java:85-89 | reading the digits back gives the number (induction) |
| Descriptors.DecimalRoundTrip | src/main/java/com/tersesystems/jmxbuilder/DescriptorSupport.java:85-89 | the stored infoTimeout text parses back to the timeout, negative values included |
| Descriptors.SeverityTextMatchesNumber | src/main/java/com/tersesystems/jmxbuilder/DescriptorSupport.java:96-99 | a severity written as decimal text, with or without a leading plus on a non-negative number, is accepted exactly when the same number is |
| Descriptors.SignedSeverityText | src/main/java/com/tersesystems/jmxbuilder/DescriptorSupport.java:96-99 | worked example: "+3" and "-0" are accepted as severity text, "+-3", "+" and "7" are refused |
| OpenTypes.NewCompositeType | src/main/java/com/tersesystems/jmxbuilder/CompositeDataWriter.java:56-61 | the CompositeType constructor: succeeds exactly when type name, description, item names and item descriptions are not blank after trimming, the three lists have one non-zero length, and the trimmed item names are distinct; the type holds the trimmed type name and description and, in argument order, each trimmed name and description with its type; a blank string or a shape mismatch is IllegalArgument, a duplicate after trimming is OpenData |
| OpenTypes.Trim | src/main/java/com/tersesystems/jmxbuilder/CompositeDataWriter.java:56-61 | String.trim as the JDK type constructors apply it: the result is empty or starts and ends above the space |
| OpenTypes.TrimStart | src/main/java/com/tersesystems/jmxbuilder/CompositeDataWriter.java:56-61 | drops exactly the leading characters at or below the space, keeping the rest |
| OpenTypes.TrimEnd | src/main/java/com/tersesystems/jmxbuilder/CompositeDataWriter.java:56-61 | drops exactly the trailing characters at or below the space, keeping the rest |
| OpenTypes.TrimFixed | src/main/java/com/tersesystems/jmxbuilder/CompositeDataWriter.java:56-61 | a string is its own trim exactly when it is empty or starts and ends above the space; trimming is idempotent |
| OpenTypes.BlankIff | src/main/java/com/tersesystems/jmxbuilder/CompositeDataWriter.java:56-61 | a string is blank exactly when every character is at or below the space (induction) |
| OpenTypes.TrimAll | src/main/java/com/tersesystems/jmxbuilder/CompositeDataWriter.java:56-61 | each item name trimmed, position by position |
| OpenTypes.CompositeItemNames | src/main/java/com/tersesystems/jmxbuilder/CompositeDataWriter.java:56-61 | the item names of a built composite type are the trimmed argument names, in order |
| OpenTypes.TrimOfWord | src/main/java/com/tersesystems/jmxbuilder/CompositeDataWriter.java:56-61 | a non-empty string that starts and ends above the space is its own trim and not blank |
| OpenTypes.WordsTrim | src/main/java/com/tersesystems/jmxbuilder/CompositeDataWriter.java:56-61 | a list of such strings trims to itself and has no blank entry |
| OpenTypes.TrimmedArgumentsKept | src/main/java/com/tersesystems/jmxbuilder/CompositeDataWriter.java:56-61 | already-trimmed arguments with distinct names build exactly the type they describe |
| OpenTypes.TrimmedNamesCollide | src/main/java/com/tersesystems/jmxbuilder/CompositeDataWriter.java:56-61 | item names "a" and "a " collide after trimming, so construction throws OpenData |
| OpenTypes.NewTabularType | src/main/java/com/tersesystems/jmxbuilder/TabularDataWriter.java:42 | the TabularType constructor: succeeds exactly when type name, description and index names are not blank, there is an index name, and every index name, untrimmed, is an item of the row type; the type keeps the trimmed type name and description, the row type and the index names; blank or missing arguments are IllegalArgument, an unknown index name OpenData |
| OpenTypes.ItemValueAt | src/main/java/com/tersesystems/jmxbuilder/CompositeDataWriter.java:72-75 | with distinct names, looking up the i-th name in a record gives the i-th value (induction) |
| Parameters.NewParameterInfo | src/main/java/com/tersesystems/jmxbuilder/ParameterInfo.java:42-47 | fails, with NullPointerException, exactly when the type is null; name, description and descriptor are kept as given, absent when null |
| Parameters.NewNamedParameterInfo | src/main/java/com/tersesystems/jmxbuilder/ParameterInfo.java:38-40 | same type check; description and descriptor absent |
| Parameters.Builder.constructor | src/main/java/com/tersesystems/jmxbuilder/ParameterInfo.java:76-78 | keeps the type; everything else starts absent |
| Parameters.Builder.WithName | src/main/java/com/tersesystems/jmxbuilder/ParameterInfo.java:80-83 | replaces the name only |
| Parameters.Builder.WithDescription | src/main/java/com/tersesystems/jmxbuilder/ParameterInfo.java:85-88 | replaces the description only |
| Parameters.Builder.WithDescriptor | src/main/java/com/tersesystems/jmxbuilder/ParameterInfo.java:90-93 | replaces the descriptor only (no merge) |
| Parameters.Builder.Build | src/main/java/com/tersesystems/jmxbuilder/ParameterInfo.java:95-97 | passes type, name, description and descriptor unchanged to the constructor; succeeds exactly when a type was given |
| Parameters.BuilderScenario | src/main/java/com/tersesystems/jmxbuilder/ParameterInfo.java:65-97 | worked example: a builder given a type and a name builds exactly that parameter |
| Notifications.NewNotificationInfo | src/main/java/com/tersesystems/jmxbuilder/NotificationInfo.java:39-44 | fails exactly when types or name is null; all four parts kept, optional ones absent when null |
| Notifications.GetMBeanNotificationInfo | src/main/java/com/tersesystems/jmxbuilder/NotificationInfo.java:62-64 | publishes the same types, name and description; a missing descriptor becomes an empty one |
| Notifications.Builder.constructor | src/main/java/com/tersesystems/jmxbuilder/NotificationInfo.java:70-77 | nothing set, empty descriptor |
| Notifications.Builder.WithTypes | src/main/java/com/tersesystems/jmxbuilder/NotificationInfo.java:79-82 | replaces the types only |
| Notifications.Builder.WithName | src/main/java/com/tersesystems/jmxbuilder/NotificationInfo.java:86-89 | replaces the name only |
| Notifications.Builder.WithDescription | src/main/java/com/tersesystems/jmxbuilder/NotificationInfo.java:91-94 | replaces the description only |
| Notifications.Builder.WithDescriptor | src/main/java/com/tersesystems/jmxbuilder/NotificationInfo.java:96-99 | merges the fields into the builder's descriptor, later fields winning, exactly when setField accepts every field; a rejected field throws RuntimeOperationsException and loses no earlier field |
| Notifications.Builder.Build | src/main/java/com/tersesystems/jmxbuilder/NotificationInfo.java:101-103 | calls the constructor with the fields so far; a built info always has a descriptor |
| Notifications.BuilderScenario | src/main/java/com/tersesystems/jmxbuilder/NotificationInfo.java:79-103 | worked example: no types means a NullPointerException; two merged descriptors combine |
| Operations.NewOperationInfo | src/main/java/com/tersesystems/jmxbuilder/OperationInfo.java:56-72 | fails with NullPointerException exactly when name, signature, return type or invoker is null; all eight parts kept as given |
| Operations.NewPlainOperationInfo | src/main/java/com/tersesystems/jmxbuilder/OperationInfo.java:49-54 | the same null checks; impact UNKNOWN; description, descriptor and notifier absent |
| Operations.DescribeParameter | src/main/java/com/tersesystems/jmxbuilder/OperationInfo.java:109-111 | a parameter is published with its name, its class's getName and its description |
| Operations.DescribeOperation | src/main/java/com/tersesystems/jmxbuilder/OperationInfo.java:106-115 | the metadata has one parameter entry per signature element, same order, same names and descriptions; the other parts are copied and a missing descriptor is published as an empty one |
| Operations.GetMBeanOperationInfo | src/main/java/com/tersesystems/jmxbuilder/OperationInfo.java:106-115 | the index loop filling the parameter array produces DescribeOperation |
| Operations.NamedParameter | src/main/java/com/tersesystems/jmxbuilder/OperationInfo.java:175 | a parameter with that class and name, and no description or descriptor |
| Operations.Builder.constructor | src/main/java/com/tersesystems/jmxbuilder/OperationInfo.java:121-132 | everything null except impact, which is 0 (INFO); empty descriptor |
| Operations.Builder.WithName | src/main/java/com/tersesystems/jmxbuilder/OperationInfo.java:134-137 | replaces the name only |
| Operations.Builder.WithDescription | src/main/java/com/tersesystems/jmxbuilder/OperationInfo.java:139-142 | replaces the description only |
| Operations.Builder.WithImpact | src/main/java/com/tersesystems/jmxbuilder/OperationInfo.java:144-147 | replaces the impact only |
| Operations.Builder.WithDescriptor | src/main/java/com/tersesystems/jmxbuilder/OperationInfo.java:149-152 | merges the fields into the builder's descriptor, later fields winning, exactly when setField accepts every field; a rejected field throws RuntimeOperationsException and loses no earlier field |
| Operations.Builder.WithRunnable | src/main/java/com/tersesystems/jmxbuilder/OperationInfo.java:155-161 | empty signature, return type java.lang.Void, the runnable as invoker; overwrites any earlier withMethod |
| Operations.Builder.WithSupplier | src/main/java/com/tersesystems/jmxbuilder/OperationInfo.java:164-171 | empty signature; the resolved class as return type |
| Operations.Builder.WithFunction | src/main/java/com/tersesystems/jmxbuilder/OperationInfo.java:173-179 | exactly one parameter with the given name and resolved class |
| Operations.Builder.WithFunctionParameter | src/main/java/com/tersesystems/jmxbuilder/OperationInfo.java:181-187 | the given parameter is the whole signature |
| Operations.Builder.WithBiFunction | src/main/java/com/tersesystems/jmxbuilder/OperationInfo.java:189-198 | two parameters, named in the given order |
| Operations.Builder.WithBiFunctionSignature | src/main/java/com/tersesystems/jmxbuilder/OperationInfo.java:200-207 | the given array becomes the signature unchanged |
| Operations.Builder.WithTargetMethod | src/main/java/com/tersesystems/jmxbuilder/OperationInfo.java:209-224 | looks up the method by the builder's name and the parameters' classes; a missing method is a RuntimeException around NoSuchMethodException and changes nothing; a found one sets signature, return type and invoker |
| Operations.Builder.WithCompletionNotification | src/main/java/com/tersesystems/jmxbuilder/OperationInfo.java:226-229 | the notifier is exactly the given function, absent when null |
| Operations.Builder.Build | src/main/java/com/tersesystems/jmxbuilder/OperationInfo.java:231-233 | the eight-argument constructor on the builder's fields; the built notifier is present exactly when one was supplied |
| Operations.ParameterClasses | src/main/java/com/tersesystems/jmxbuilder/OperationInfo.java:211-214 | the parameters' classes in signature order |
| Operations.BuilderScenario | src/main/java/com/tersesystems/jmxbuilder/OperationInfo.java:189-198 | worked example: a BiFunction with two names builds two parameters in order with impact INFO; a target lookup without a name throws |
| Attributes.Cell.constructor | src/main/java/com/tersesystems/jmxbuilder/AttributeInfo.java:47-48 | the state a getter and setter share starts with the given contents |
| Attributes.Read | src/main/java/com/tersesystems/jmxbuilder/AttributeInfo.java:62-68 | empty exactly when there is no getter or it yields null; otherwise the getter's value; a getter exception becomes a RuntimeException |
| Attributes.SetStepOutcome | src/main/java/com/tersesystems/jmxbuilder/AttributeInfo.java:70-84 | the cases of one set: no setter gives false and changes nothing; a setter exception propagates with cell and counter unchanged; else the contents are what the setter wrote, and a notification is emitted exactly when getter and receiver exist and the getter succeeds, its old value read after the write, its number the current counter, which then moves on by one |
| Attributes.AttributeInfo.constructor | src/main/java/com/tersesystems/jmxbuilder/AttributeInfo.java:53-60 | all parts kept; the counter starts at 1 |
| Attributes.AttributeInfo.New | src/main/java/com/tersesystems/jmxbuilder/AttributeInfo.java:53-60 | null name, type or description throw NullPointerException with the source's messages, checked in that order |
| Attributes.AttributeInfo.Get | src/main/java/com/tersesystems/jmxbuilder/AttributeInfo.java:62-68 | get reads the getter over the cell's current contents as Read says |
| Attributes.AttributeInfo.Set | src/main/java/com/tersesystems/jmxbuilder/AttributeInfo.java:70-84 | the cell, the counter, the result and the emitted notification are those SetStep gives from the old state |
| Attributes.AttributeInfo.GetMBeanAttributeInfo | src/main/java/com/tersesystems/jmxbuilder/AttributeInfo.java:106-108 | readable exactly when a getter exists, writable exactly when a setter exists, never is-getter; name, type and description copied; a missing descriptor is published as an empty one |
| Attributes.ReadAfterSet | src/main/java/com/tersesystems/jmxbuilder/AttributeInfo.java:70-79 | with a storing setter and a reading getter, get returns the written value and the notification's old and new values are both that value |
| Attributes.SequenceNumbersConsecutive | src/main/java/com/tersesystems/jmxbuilder/AttributeInfo.java:51 | over successive sets the notifications are numbered consecutively from the counter, which ends one past the last number (induction) |
| Attributes.Builder.constructor | src/main/java/com/tersesystems/jmxbuilder/AttributeInfo.java:131-133 | keeps the class; everything else absent; empty descriptor |
| Attributes.Builder.WithName | src/main/java/com/tersesystems/jmxbuilder/AttributeInfo.java:135-138 | replaces the name only |
| Attributes.Builder.WithDescription | src/main/java/com/tersesystems/jmxbuilder/AttributeInfo.java:140-143 | replaces the description only |
| Attributes.Builder.WithDescriptor | src/main/java/com/tersesystems/jmxbuilder/AttributeInfo.java:145-148 | merges the fields into the builder's descriptor, later fields winning, exactly when setField accepts every field; a rejected field throws RuntimeOperationsException and loses no earlier field |
| Attributes.Builder.WithSupplier | src/main/java/com/tersesystems/jmxbuilder/AttributeInfo.java:150-153 | replaces the getter only |
| Attributes.Builder.WithConsumer | src/main/java/com/tersesystems/jmxbuilder/AttributeInfo.java:155-158 | replaces the setter only |
| Attributes.Builder.Build | src/main/java/com/tersesystems/jmxbuilder/AttributeInfo.java:194-212 | a null or empty description becomes the name; the descriptor gains openType and originalType; the type is the class name; fails only for a missing name |
| Attributes.AgeScenario | src/main/java/com/tersesystems/jmxbuilder/AttributeInfo.java:70-84 | worked example: building without a description uses the name; setting 21 emits one notification numbered 1 whose old and new values are both 21, the counter moves to 2 and a get returns 21 |
| CompositeDataWriters.CompositeDataWriter.Apply | src/main/java/com/tersesystems/jmxbuilder/CompositeDataWriter.java:72-79 | succeeds exactly when every mapper succeeds and the names fit the type as CompositeDataSupport demands (non-empty, distinct, exactly the type's item names); the record holds the i-th mapper's value under the i-th name; every failure is a RuntimeException |
| CompositeDataWriters.MapAll | src/main/java/com/tersesystems/jmxbuilder/CompositeDataWriter.java:74 | all values in mapper order, or the exception of the first failing mapper |
| CompositeDataWriters.NewCompositeDataWriter | src/main/java/com/tersesystems/jmxbuilder/CompositeDataWriter.java:42-65 | the null checks in source order with their messages; success exactly when the composite type can be built from the same lists; OpenData becomes RuntimeException |
| CompositeDataWriters.ApplyProjects | src/main/java/com/tersesystems/jmxbuilder/CompositeDataWriter.java:72-75 | in a record from a constructed writer, the field named by the i-th name holds the i-th mapper's value |
| CompositeDataWriters.TrimmedNamesMatch | src/main/java/com/tersesystems/jmxbuilder/CompositeDataWriter.java:54-61 | names that are their own trims, non-blank and distinct once trimmed, are exactly the item names of the built type |
| CompositeDataWriters.UntrimmedNameMisses | src/main/java/com/tersesystems/jmxbuilder/CompositeDataWriter.java:54-61 | a name with surrounding blanks is not among the trimmed item names of the type |
| CompositeDataWriters.ConstructedNamesMatch | src/main/java/com/tersesystems/jmxbuilder/CompositeDataWriter.java:54-79 | for a constructed writer, the record name check of apply passes exactly when every attribute name is its own trim |
| CompositeDataWriterBuilders.Builder.constructor | src/main/java/com/tersesystems/jmxbuilder/CompositeDataWriter.java:81-96 | four empty lists in lockstep, nothing named |
| CompositeDataWriterBuilders.Builder.WithTypeName | src/main/java/com/tersesystems/jmxbuilder/CompositeDataWriter.java:104-107 | replaces the type name only |
| CompositeDataWriterBuilders.Builder.WithTypeDescription | src/main/java/com/tersesystems/jmxbuilder/CompositeDataWriter.java:115-118 | replaces the type description only |
| CompositeDataWriterBuilders.Builder.Append | src/main/java/com/tersesystems/jmxbuilder/CompositeDataWriter.java:178-184 | appends one entry to each of the four lists, keeping them in lockstep |
| CompositeDataWriterBuilders.Builder.WithSimpleAttribute | src/main/java/com/tersesystems/jmxbuilder/CompositeDataWriter.java:164-184 | one field whose type is the class's open type; without a description the name is used |
| CompositeDataWriterBuilders.Builder.WithInferredSimpleAttribute | src/main/java/com/tersesystems/jmxbuilder/CompositeDataWriter.java:128-153 | an Unknown inferred class throws IllegalStateException and adds nothing; a known one adds one field |
| CompositeDataWriterBuilders.Builder.WithCompositeAttribute | src/main/java/com/tersesystems/jmxbuilder/CompositeDataWriter.java:195-220 | the field's type is the nested writer's type and its mapper is the mapper followed by the nested writer |
| CompositeDataWriterBuilders.Builder.WithCompositeTypeAttribute | src/main/java/com/tersesystems/jmxbuilder/CompositeDataWriter.java:230-249 | one field of the given composite type; the name as default description |
| CompositeDataWriterBuilders.Builder.WithTabularAttribute | src/main/java/com/tersesystems/jmxbuilder/CompositeDataWriter.java:260-264 | the field's type is the nested table type and its mapper is the mapper followed by the tabular writer |
| CompositeDataWriterBuilders.Builder.WithTabularTypeAttribute | src/main/java/com/tersesystems/jmxbuilder/CompositeDataWriter.java:274-293 | one field of the given tabular type; the name as default description |
| CompositeDataWriterBuilders.Builder.Build | src/main/java/com/tersesystems/jmxbuilder/CompositeDataWriter.java:300-302 | the constructor on the builder's lists; the built type's item names are the trimmed attribute names, in the order of the writer's name array |
| CompositeDataWriterBuilders.AddressScenario | src/main/java/com/tersesystems/jmxbuilder/CompositeDataWriter.java:178-184 | worked example: two trimmed, distinct fields build a type holding their names and descriptions as given, and apply yields a record with the two mapped values under those names |
| CompositeDataWriterBuilders.AddressBuilder | src/main/java/com/tersesystems/jmxbuilder/CompositeDataWriter.java:164-184 | worked example: two simple String attributes added in turn leave the lists in lockstep with those names, descriptions, types and projecting mappers |
| CompositeDataWriterBuilders.AddressRecord | src/main/java/com/tersesystems/jmxbuilder/CompositeDataWriter.java:72-79 | worked example: apply on the two-field writer yields a record holding both mapped values under their names |
| TabularDataWriters.TabularDataWriter.Apply | src/main/java/com/tersesystems/jmxbuilder/TabularDataWriter.java:59-65 | the put loop produces the table Tabulate describes |
| TabularDataWriters.PutAllSucceeds | src/main/java/com/tersesystems/jmxbuilder/TabularDataWriter.java:61-63 | putting succeeds exactly when every row builds, the keys are pairwise distinct and none is already in the table; a failure is a RuntimeException or KeyAlreadyExists (induction) |
| TabularDataWriters.PutAllContents | src/main/java/com/tersesystems/jmxbuilder/TabularDataWriter.java:61-63 | after a successful put the table keeps its old entries, holds each item's row under its key, and has grown by one entry per item (induction) |
| TabularDataWriters.PutAllStep | src/main/java/com/tersesystems/jmxbuilder/TabularDataWriter.java:61-63 | a successful put of a non-empty list built the first row, filed it under a key not yet in the table and went on with the rest |
| TabularDataWriters.PutAllRejectsRepeatedKey | src/main/java/com/tersesystems/jmxbuilder/TabularDataWriter.java:61-63 | a row whose key is already filed makes the put fail with KeyAlreadyExists (induction) |
| TabularDataWriters.Tabulate | src/main/java/com/tersesystems/jmxbuilder/TabularDataWriter.java:59-65 | one row per item under its key exactly when all rows build and keys are distinct; empty input gives an empty table |
| TabularDataWriters.NewTabularDataWriter | src/main/java/com/tersesystems/jmxbuilder/TabularDataWriter.java:35-46 | the null checks in source order with their messages; the row type is the writer's composite type |
| TabularDataWriters.Builder.constructor | src/main/java/com/tersesystems/jmxbuilder/TabularDataWriter.java:77-78 | nothing set |
| TabularDataWriters.Builder.WithTypeName | src/main/java/com/tersesystems/jmxbuilder/TabularDataWriter.java:86-89 | replaces the type name only |
| TabularDataWriters.Builder.WithTypeDescription | src/main/java/com/tersesystems/jmxbuilder/TabularDataWriter.java:97-100 | replaces the description only |
| TabularDataWriters.Builder.WithIndexName | src/main/java/com/tersesystems/jmxbuilder/TabularDataWriter.java:108-111 | replaces the index names by that one name |
| TabularDataWriters.Builder.WithIndexNames | src/main/java/com/tersesystems/jmxbuilder/TabularDataWriter.java:119-133 | replaces the index names by the list, order kept |
| TabularDataWriters.Builder.WithCompositeDataWriter | src/main/java/com/tersesystems/jmxbuilder/TabularDataWriter.java:141-144 | replaces the row writer only |
| TabularDataWriters.Builder.Build | src/main/java/com/tersesystems/jmxbuilder/TabularDataWriter.java:151-153 | the constructor on the final fields, unchanged |
| DynamicBeans.Split | src/main/java/com/tersesystems/jmxbuilder/DynamicBean.java:658-663 | reading a key back into its comma-separated parts; never empty |
| DynamicBeans.SplitPrefix | src/main/java/com/tersesystems/jmxbuilder/DynamicBean.java:658-663 | splitting after a comma-free prefix attaches the prefix to the first part (induction) |
| DynamicBeans.SplitJoin | src/main/java/com/tersesystems/jmxbuilder/DynamicBean.java:658-663 | splitting undoes the comma join of comma-free parts (induction) |
| DynamicBeans.KeyInjective | src/main/java/com/tersesystems/jmxbuilder/DynamicBean.java:658-663 | with comma-free names, two keys are equal exactly when name and type list are equal |
| DynamicBeans.CommaInNameCollides | src/main/java/com/tersesystems/jmxbuilder/DynamicBean.java:658-663 | with a comma in a name, two different operations share a key |
| DynamicBeans.TypeNames | src/main/java/com/tersesystems/jmxbuilder/DynamicBean.java:684-687 | one type name per parameter, in order, from getTypeName |
| DynamicBeans.Run | src/main/java/com/tersesystems/jmxbuilder/DynamicBean.java:667-677 | success returns the value and sends exactly one notifier-built notification when a notifier exists; InvocationTarget and IllegalAccess are returned wrapped in ReflectionException; other exceptions propagate; failures send nothing |
| DynamicBeans.Dispatch | src/main/java/com/tersesystems/jmxbuilder/DynamicBean.java:665-682 | a registered key runs that operation; an unregistered one throws ReflectionException around NoSuchMethodException whose message contains the key, and sends nothing |
| DynamicBeans.DispatchAfterAdd | src/main/java/com/tersesystems/jmxbuilder/DynamicBean.java:684-687 | after add, invoking by name and parameter type names runs the added operation |
| DynamicBeans.OverloadsCoexist | src/main/java/com/tersesystems/jmxbuilder/DynamicBean.java:684-687 | two overloads with different type lists both stay reachable |
| DynamicBeans.PublishedSignature | src/main/java/com/tersesystems/jmxbuilder/OperationInfo.java:111 | the parameter classes a client reads from the metadata |
| DynamicBeans.PublishedSignatureMisses | src/main/java/com/tersesystems/jmxbuilder/DynamicBean.java:684-687 | when a parameter's getName differs from its getTypeName, invoking with the published signature fails |
| DynamicBeans.AttributeInfos.constructor | src/main/java/com/tersesystems/jmxbuilder/DynamicBean.java:619-620 | an empty registry |
| DynamicBeans.AttributeInfos.Find | src/main/java/com/tersesystems/jmxbuilder/DynamicBean.java:634-636 | empty exactly when no attribute has that name; otherwise the registered one |
| DynamicBeans.AttributeInfos.Add | src/main/java/com/tersesystems/jmxbuilder/DynamicBean.java:638-640 | stores under the info's name, replacing and returning any previous entry |
| DynamicBeans.AttributeInfos.AddWithKey | src/main/java/com/tersesystems/jmxbuilder/DynamicBean.java:642-644 | stores under the given key, returning the replaced entry |
| DynamicBeans.AttributeInfos.Remove | src/main/java/com/tersesystems/jmxbuilder/DynamicBean.java:646-648 | unregisters the key and returns what was there |
| DynamicBeans.AttributeInfos.GetMBeanAttributeInfos | src/main/java/com/tersesystems/jmxbuilder/DynamicBean.java:650-652 | the list follows a ghost key order that holds every registered key exactly once: entry i is the metadata of the attribute under key i, so there is one entry per key and nothing else |
| DynamicBeans.OperationInfos.constructor | src/main/java/com/tersesystems/jmxbuilder/DynamicBean.java:655-656 | an empty registry |
| DynamicBeans.OperationInfos.Add | src/main/java/com/tersesystems/jmxbuilder/DynamicBean.java:684-687 | registers under the key of the name and the parameter type names; an equal key is overwritten |
| DynamicBeans.OperationInfos.Invoke | src/main/java/com/tersesystems/jmxbuilder/DynamicBean.java:665-682 | computes what Dispatch describes |
| DynamicBeans.OperationInfos.GetMBeanOperationInfos | src/main/java/com/tersesystems/jmxbuilder/DynamicBean.java:689-691 | the list follows a ghost key order that holds every registered key exactly once: entry i is the description of the operation under key i, so there is one entry per key and nothing else |
| DynamicBeans.NotificationInfos.constructor | src/main/java/com/tersesystems/jmxbuilder/DynamicBean.java:694-695 | an empty list |
| DynamicBeans.NotificationInfos.Add | src/main/java/com/tersesystems/jmxbuilder/DynamicBean.java:706-708 | appends |
| DynamicBeans.NotificationInfos.GetMBeanNotificationInfos | src/main/java/com/tersesystems/jmxbuilder/DynamicBean.java:710-712 | one metadata entry per description, in order |
| DynamicBeans.Registered | src/main/java/com/tersesystems/jmxbuilder/DynamicBean.java:122-140 | the echo of a bulk set is never longer than the request (with RegisteredMembers, RegisteredAppend and RegisteredSingle for its contents and order) |
| DynamicBeans.RegisteredMembers | src/main/java/com/tersesystems/jmxbuilder/DynamicBean.java:125-138 | a pair is echoed exactly when it is in the request and its name is registered (induction) |
| DynamicBeans.RegisteredStep | src/main/java/com/tersesystems/jmxbuilder/DynamicBean.java:127-133 | one more pair of the request adds that pair to the echo exactly when its name is registered |
| DynamicBeans.RegisteredPrefix | src/main/java/com/tersesystems/jmxbuilder/DynamicBean.java:125-138 | the echo of a prefix of the list is a prefix of the full echo (induction) |
| DynamicBeans.RegisteredAppend | src/main/java/com/tersesystems/jmxbuilder/DynamicBean.java:125-138 | the echo of a concatenation is the concatenation of the echoes (induction) |
| DynamicBeans.RegisteredSingle | src/main/java/com/tersesystems/jmxbuilder/DynamicBean.java:125-138 | a single pair is echoed exactly when its name is registered |
| DynamicBeans.SetPair | src/main/java/com/tersesystems/jmxbuilder/DynamicBean.java:127-132 | one step of the bulk set: an unregistered name changes nothing; a registered one keeps the set of cells and counters and sends at most one notification after the earlier ones |
| DynamicBeans.SetPairKeeps | src/main/java/com/tersesystems/jmxbuilder/DynamicBean.java:127-132 | one step moves only the cell and the counter of the attribute it names |
| DynamicBeans.SetFirst | src/main/java/com/tersesystems/jmxbuilder/DynamicBean.java:122-140 | the bulk set over the first n pairs as a fold of SetPair in order, stopping at the first exception: cells and counters stay covered and the log only grows |
| DynamicBeans.SetFirstFails | src/main/java/com/tersesystems/jmxbuilder/DynamicBean.java:125-138 | a run that throws was ended by a registered name (induction) |
| DynamicBeans.SetFirstSends | src/main/java/com/tersesystems/jmxbuilder/DynamicBean.java:125-138 | the fold sends at most one notification per registered pair (induction) |
| DynamicBeans.SetFirstSkips | src/main/java/com/tersesystems/jmxbuilder/DynamicBean.java:125-138 | a list with no registered name changes nothing (induction) |
| DynamicBeans.SetFirstKeeps | src/main/java/com/tersesystems/jmxbuilder/DynamicBean.java:122-140 | a cell or counter that no registered pair of the list targets keeps its value through the fold (induction) |
| DynamicBeans.SetFirstStopped | src/main/java/com/tersesystems/jmxbuilder/DynamicBean.java:125-138 | a run that has thrown is not extended by the next pair |
| DynamicBeans.SetFirstStops | src/main/java/com/tersesystems/jmxbuilder/DynamicBean.java:122-140 | once a prefix of the list has thrown, the rest of the list changes nothing (induction) |
| DynamicBeans.AttributeInfos.Contents | src/main/java/com/tersesystems/jmxbuilder/DynamicBean.java:619-620 | the current contents of every registered attribute's cell |
| DynamicBeans.AttributeInfos.Counters | src/main/java/com/tersesystems/jmxbuilder/DynamicBean.java:619-620 | the current counter of every registered attribute |
| DynamicBeans.AttributeInfos.Snapshot | src/main/java/com/tersesystems/jmxbuilder/DynamicBean.java:619-620 | the registry's cells and counters as a fold state, nothing sent and nothing thrown |
| DynamicBeans.DynamicBean.constructor | src/main/java/com/tersesystems/jmxbuilder/DynamicBean.java:75-81 | keeps metadata and registries; nothing sent yet |
| DynamicBeans.DynamicBean.GetAttribute | src/main/java/com/tersesystems/jmxbuilder/DynamicBean.java:84-87 | AttributeNotFoundException for an unregistered name, a missing getter or a null value; the getter's value otherwise; getter exceptions propagate; never returns null |
| DynamicBeans.DynamicBean.Readable | src/main/java/com/tersesystems/jmxbuilder/DynamicBean.java:105-119 | the bulk-get result: one pair per requested name whose single get succeeds with a non-null value, in request order, repeats kept (with ReadableAppend and ReadableSingle); every pair is a successful single get |
| DynamicBeans.DynamicBean.GetAttributes | src/main/java/com/tersesystems/jmxbuilder/DynamicBean.java:105-119 | the loop returns Readable of the names |
| DynamicBeans.ReadableAppend | src/main/java/com/tersesystems/jmxbuilder/DynamicBean.java:105-119 | the bulk get of a concatenation is the concatenation of the bulk gets (induction) |
| DynamicBeans.ReadableSingle | src/main/java/com/tersesystems/jmxbuilder/DynamicBean.java:108-116 | one name gives its pair exactly when its single get succeeds with a non-null value |
| DynamicBeans.DynamicBean.SetThrough | src/main/java/com/tersesystems/jmxbuilder/DynamicBean.java:90-101 | a registered attribute's set runs with a receiver bound to this bean: cell and counter follow SetStep, the emitted notification is sent, and the registry moves from a fold state to SetPair of that state |
| DynamicBeans.DynamicBean.SetAttribute | src/main/java/com/tersesystems/jmxbuilder/DynamicBean.java:90-102 | an unregistered name throws and changes no cell, counter or log entry; otherwise the target's cell and counter follow SetStep with a receiver, its notification is sent, and no other cell or counter changes |
| DynamicBeans.DynamicBean.SetAttributes | src/main/java/com/tersesystems/jmxbuilder/DynamicBean.java:122-140 | the cells, counters and sent notifications end as SetFirst computes over the whole list from the old state; it throws exactly when the fold stops on an exception, with that exception, and only when some name is registered; on success it returns exactly the registered pairs; with no registered pair nothing changes |
| DynamicBeans.DynamicBean.SetNext | src/main/java/com/tersesystems/jmxbuilder/DynamicBean.java:126-137 | one pass of the loop: the echo gains the pair exactly when its name is registered, and the registry moves from the fold over i pairs to the fold over i + 1, throwing exactly when that step throws |
| DynamicBeans.DynamicBean.SetInOrder | src/main/java/com/tersesystems/jmxbuilder/DynamicBean.java:124-139 | the loop: the registry ends as the fold over the whole list, an exception ends the loop with the fold's exception, and success returns exactly the registered pairs |
| DynamicBeans.DynamicBean.Invoke | src/main/java/com/tersesystems/jmxbuilder/DynamicBean.java:143-145 | the result is Dispatch's and its notification, if any, is appended to the log |
| DynamicBeans.DynamicBean.SendNotification | src/main/java/com/tersesystems/jmxbuilder/DynamicBean.java:172-174 | appends the notification to the log |
| DynamicBeans.DynamicBean.GetNotificationInfo | src/main/java/com/tersesystems/jmxbuilder/DynamicBean.java:168-170 | one metadata entry per registered description, in order |
| DynamicBeans.Builder.constructor | src/main/java/com/tersesystems/jmxbuilder/DynamicBean.java:180-189 | fresh registries, the descriptor holding only " mxbean" = "true", empty class name and description |
| DynamicBeans.Builder.WithDescription | src/main/java/com/tersesystems/jmxbuilder/DynamicBean.java:199-202 | replaces the description only |
| DynamicBeans.Builder.WithClassName | src/main/java/com/tersesystems/jmxbuilder/DynamicBean.java:209-212 | replaces the class name only |
| DynamicBeans.Builder.WithAttribute | src/main/java/com/tersesystems/jmxbuilder/DynamicBean.java:370-373 | registers the attribute under its name |
| DynamicBeans.Builder.WithOperation | src/main/java/com/tersesystems/jmxbuilder/DynamicBean.java:537-540 | registers the operation under its key |
| DynamicBeans.Builder.WithNotification | src/main/java/com/tersesystems/jmxbuilder/DynamicBean.java:566-569 | appends the description |
| DynamicBeans.Builder.WithNamedNotification | src/main/java/com/tersesystems/jmxbuilder/DynamicBean.java:549-556 | appends a description named and described by the name, with those types and an empty descriptor |
| DynamicBeans.Builder.WithAttributeChangeNotifications | src/main/java/com/tersesystems/jmxbuilder/DynamicBean.java:576-579 | appends AttributeChangeNotification whose types are the description sentence and jmx.attribute.change |
| DynamicBeans.Builder.WithImmutableInfo | src/main/java/com/tersesystems/jmxbuilder/DynamicBean.java:586-589 | sets immutableInfo to true in the bean descriptor |
| DynamicBeans.Builder.WithDescriptor | src/main/java/com/tersesystems/jmxbuilder/DynamicBean.java:597-600 | adds to, not replaces, the bean descriptor, later fields winning, exactly when setField accepts every field; a rejected field throws RuntimeOperationsException and loses no earlier field |
| DynamicBeans.Builder.Build | src/main/java/com/tersesystems/jmxbuilder/DynamicBean.java:607-617 | the attribute and operation metadata list the registered entries' metadata along ghost key orders that hold every registered key exactly once, so one entry per key and nothing else; the notification metadata and descriptor are the current ones; the bean shares the registries themselves |
| DynamicBeans.ReadScenario | src/main/java/com/tersesystems/jmxbuilder/DynamicBean.java:84-87 | worked example: reading a registered attribute gives its getter's value (12); an unknown name is not found |
| DynamicBeans.WriteScenario | src/main/java/com/tersesystems/jmxbuilder/DynamicBean.java:90-101 | worked example: setting 21 sends one notification numbered 1 whose old value is already 21, and a later get returns 21 |
| DynamicBeans.InvokeScenario | src/main/java/com/tersesystems/jmxbuilder/DynamicBean.java:665-681 | worked example: invoking by the registered signature returns the doubled value and sends exactly the completion notification |
| DynamicBeans.MissScenario | src/main/java/com/tersesystems/jmxbuilder/DynamicBean.java:665-681 | worked example: invoking with another signature throws ReflectionException and sends nothing |
| DynamicBeans.BuilderScenario | src/main/java/com/tersesystems/jmxbuilder/DynamicBean.java:576-617 | worked example: the built metadata has the " mxbean" field and the attribute-change description |

## Left out

- Reflection (`MethodInvoker`, `Method.invoke`, `getMethod`) is not modelled. An invoker is any function from arguments to a result or an exception; a method lookup is an input.
- `OpenTypeMapper` and `TypeResolver` are foreign code. Their results (open types, resolved classes, the `Unknown` marker) are inputs.
- `AttributeInfo.Builder.withBeanProperty` and `DynamicBean.Builder.withBeanAttribute` are not modelled, because they use JavaBeans introspection.
- The `DynamicBean.Builder` convenience overloads `withSimpleAttribute`, `withCompositeAttribute`, `withTabularAttribute` and the `withOperation(name, …)` forms are not modelled. They only compose the attribute and operation builders, which are modelled, with `WithAttribute`/`WithOperation`.
- `AttributeInfos.of` is not modelled; it is a loop of `Add`.
- `NotificationBroadcasterSupport`, its executor, and listener add and remove are not modelled, because they are asynchronous delivery. Sending is an append to the bean's log.
- Notification timestamps, messages and the source object are not modelled. A completion notifier gets only the return value.
- Notifications are built eagerly, whereas the source hands a function to the receiver. The counter still moves on only when the receiver is called.
- The `AtomicLong` counter is an unbounded natural, so its 64-bit wrap-around is not modelled.
- Descriptors are snapshots (maps) inside the value records. The Java objects share one mutable `DescriptorSupport`, and `CompositeDataWriter` shares the builder's mapper list, so that aliasing is not captured.
- Descriptor field names are compared exactly; JMX compares them case-insensitively.
- JDK validation beyond the stated rules is not modelled: item value types against open types (`CompositeDataSupport`'s value check), the operation impact range, and the `MBeanInfo`/`MBeanAttributeInfo` constructor checks.
- OpenTypes.NewCompositeType: the JDK keeps the items in a `TreeMap` sorted by name; the model keeps them in argument order. Item lookup is by name either way, so only the order of `keySet` differs.
- Descriptors.Descriptor.SetField: of `DescriptorSupport`'s reserved-field checks only the empty name and the severity range are modelled; the checks on other reserved fields (`visibility`, `persistPolicy`, `log`, `currencyTimeLimit` and the like) are not. Severity text is parsed over ASCII digits only, while the JDK's integer parse also takes other Unicode decimal digits. Field names are compared exactly, while the JDK compares them ignoring case.
- A null string passed to a builder setter, a null array argument, and a null key or signature in `invoke` are not modelled.
- `DynamicBean`'s constructor null checks are not modelled; the builder never passes null.
- Getters that only return a field, or wrap it in `Optional`, are the datatype's fields and `Option` values.
- DynamicBeans.AttributeInfos.GetMBeanAttributeInfos: `HashMap` iteration order is unspecified, so the contract fixes the entry for each key and leaves the key order itself open (a ghost out-parameter). The same holds for DynamicBeans.OperationInfos.GetMBeanOperationInfos.
