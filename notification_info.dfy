/** NotificationInfo: a notification class name, the notification types it is sent with,
    an optional description and an optional descriptor, and the builder that fills them. */
module Notifications {
  import opened Common
  import opened Descriptors

  datatype NotificationInfo = NotificationInfo(
    notifTypes: seq<string>,
    name: string,
    description: Option<string>,
    descriptor: Option<Fields>)

  /** javax.management.MBeanNotificationInfo as built from a NotificationInfo; a null
      descriptor is published as an empty one. */
  datatype MBeanNotificationInfo = MBeanNotificationInfo(
    notifTypes: seq<string>,
    name: string,
    description: Option<string>,
    descriptor: Fields)

  /** The constructor: types and name must not be null; description and descriptor may. */
  function NewNotificationInfo(notifTypes: Option<seq<string>>, name: Option<string>,
                               description: Option<string>, descriptor: Option<Fields>): (r: Attempt<NotificationInfo>)
    ensures r.Ok? <==> notifTypes.Some? && name.Some?
    ensures r.Thrown? ==> r.exception.NullPointer?
    ensures r.Ok? ==> r.value.notifTypes == notifTypes.value && r.value.name == name.value
                      && r.value.description == description && r.value.descriptor == descriptor
  {
    if notifTypes.None? then Thrown(NullPointer("notifTypes"))
    else if name.None? then Thrown(NullPointer("name"))
    else Ok(NotificationInfo(notifTypes.value, name.value, description, descriptor))
  }

  /** Publishes the same types, name and description; the descriptor's fields, or none. */
  function GetMBeanNotificationInfo(info: NotificationInfo): (r: MBeanNotificationInfo)
    ensures r.notifTypes == info.notifTypes && r.name == info.name && r.description == info.description
    ensures info.descriptor.Some? ==> r.descriptor == info.descriptor.value
    ensures info.descriptor.None? ==> r.descriptor == map[]
  {
    MBeanNotificationInfo(info.notifTypes, info.name, info.description,
                          if info.descriptor.Some? then info.descriptor.value else map[])
  }

  /** NotificationInfo.Builder: its descriptor comes from a descriptor builder, so
      descriptors given to it are merged and the built info always has one. */
  class Builder {
    var name: Option<string>
    var description: Option<string>
    var notifTypes: Option<seq<string>>
    const descriptorBuilder: Descriptors.Builder

    constructor()
      ensures name.None? && description.None? && notifTypes.None?
      ensures fresh(descriptorBuilder) && fresh(descriptorBuilder.descriptor)
      ensures descriptorBuilder.descriptor.fields == map[]
    {
      name := None;
      description := None;
      notifTypes := None;
      descriptorBuilder := new Descriptors.Builder();
    }

    method WithTypes(notifTypes: seq<string>)
      modifies this
      ensures this.notifTypes == Some(notifTypes)
      ensures name == old(name) && description == old(description)
    {
      this.notifTypes := Some(notifTypes);
    }

    /** The fully qualified class name of the notification objects. */
    method WithName(name: string)
      modifies this
      ensures this.name == Some(name)
      ensures notifTypes == old(notifTypes) && description == old(description)
    {
      this.name := Some(name);
    }

    method WithDescription(description: string)
      modifies this
      ensures this.description == Some(description)
      ensures notifTypes == old(notifTypes) && name == old(name)
    {
      this.description := Some(description);
    }

    /** Merges the fields into the builder's descriptor: later fields win. */
    method WithDescriptor(descriptor: Fields) returns (r: Attempt<()>)
      modifies descriptorBuilder.descriptor
      ensures r.Ok? <==> AllValid(descriptor)
      ensures r.Ok? ==> descriptorBuilder.descriptor.fields == old(descriptorBuilder.descriptor.fields) + descriptor
      ensures r.Thrown? ==>
                && r.exception.RuntimeOperations?
                && PartialMerge(old(descriptorBuilder.descriptor.fields), descriptorBuilder.descriptor.fields, descriptor)
    {
      r := descriptorBuilder.WithDescriptor(descriptor);
    }

    /** Calls the constructor with the fields collected so far; the descriptor is never null. */
    method Build() returns (r: Attempt<NotificationInfo>)
      ensures r == NewNotificationInfo(notifTypes, name, description, Some(descriptorBuilder.descriptor.fields))
      ensures r.Ok? ==> r.value.descriptor.Some?
    {
      var d := descriptorBuilder.Build();
      r := NewNotificationInfo(notifTypes, name, description, Some(d.fields));
    }
  }

  /** A builder given no types cannot build; two merged descriptors combine with the
      later one winning on a shared field. */
  method BuilderScenario() returns (missingTypes: Attempt<NotificationInfo>, built: Attempt<NotificationInfo>)
    ensures missingTypes.Thrown? && missingTypes.exception.NullPointer?
    ensures built.Ok? && built.value.name == "javax.management.Notification"
    ensures built.value.descriptor == Some(map["units" := Text("ms"), "severity" := Number(6)])
  {
    var b := new Builder();
    b.WithName("javax.management.Notification");
    missingTypes := b.Build();
    b.WithTypes(["example.started"]);
    var _ := b.WithDescriptor(map["units" := Text("s"), "severity" := Number(6)]);
    var _ := b.WithDescriptor(map["units" := Text("ms")]);
    assert b.descriptorBuilder.descriptor.fields == map["units" := Text("ms"), "severity" := Number(6)];
    built := b.Build();
  }
}
