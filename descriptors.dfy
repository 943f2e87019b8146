/** DescriptorSupport.Builder: a fluent builder whose every method sets one field of a
    single mutable descriptor (javax.management.modelmbean.DescriptorSupport) and whose
    build hands out that same descriptor object. */
module Descriptors {
  import opened Common
  import opened OpenTypes

  /** The kinds of object the builder stores as field values. */
  datatype FieldValue =
    | Text(text: string)
    | Flag(flag: bool)
    | Number(number: int)
    | Texts(texts: seq<string>)
    | ValueSet(values: set<Value>)
    | TypeValue(openType: OpenType)
    | ObjectValue(value: Value)

  /** The content of a descriptor: field name to field value. */
  type Fields = map<string, FieldValue>

  // Field names defined by javax.management.JMX.
  const DEFAULT_VALUE_FIELD: string := "defaultValue"
  const IMMUTABLE_INFO_FIELD: string := "immutableInfo"
  const INTERFACE_CLASS_NAME_FIELD: string := "interfaceClassName"
  const LEGAL_VALUES_FIELD: string := "legalValues"
  const MAX_VALUE_FIELD: string := "maxValue"
  const MIN_VALUE_FIELD: string := "minValue"

  /** java.lang.Long */
  type Long = n: int | -0x8000_0000_0000_0000 <= n < 0x8000_0000_0000_0000

  const SEVERITY_FIELD: string := "severity"

  /** The severity field's rule in DescriptorSupport: an integer, or numeric text, from
      0 to 6; null and any other kind of value are refused. */
  predicate ValidSeverity(value: FieldValue) {
    match value
    case Number(n) => 0 <= n <= 6
    case Text(s) => ParseDecimal(s).Some? && 0 <= ParseDecimal(s).value <= 6
    case _ => false
  }

  /** What DescriptorSupport.setField accepts: a non-empty field name, and a valid value
      when the field is the reserved severity field. */
  predicate ValidField(name: string, value: FieldValue) {
    name != "" && (name == SEVERITY_FIELD ==> ValidSeverity(value))
  }

  predicate AllValid(fields: Fields) {
    forall n :: n in fields ==> ValidField(n, fields[n])
  }

  /** A merge of added into before that stopped part-way: no field was lost, and every
      field holds either its value from before or its value from added. */
  predicate PartialMerge(before: Fields, after: Fields, added: Fields) {
    && (forall n :: n in before ==> n in after)
    && (forall n :: n in after ==>
          (n in added && after[n] == added[n]) || (n in before && after[n] == before[n]))
  }

  /** The mutable descriptor object the builder fills. */
  class Descriptor {
    var fields: Fields

    constructor()
      ensures fields == map[]
    {
      fields := map[];
    }

    /** Descriptor.setField: adds the field or replaces its value; an invalid field is
        refused with a RuntimeOperationsException around an IllegalArgumentException and
        the descriptor is left as it was. */
    method SetField(name: string, value: FieldValue) returns (r: Attempt<()>)
      modifies this
      ensures r.Ok? <==> ValidField(name, value)
      ensures r.Ok? ==> fields == old(fields)[name := value]
      ensures r.Thrown? ==>
                && r.exception.RuntimeOperations? && r.exception.cause.IllegalArgument?
                && fields == old(fields)
    {
      if name == "" {
        return Thrown(RuntimeOperations(IllegalArgument("Field name is empty")));
      }
      if name == SEVERITY_FIELD && !ValidSeverity(value) {
        return Thrown(RuntimeOperations(IllegalArgument("Field value invalid: severity")));
      }
      fields := fields[name := value];
      r := Ok(());
    }
  }

  class Builder {
    /** The one descriptor instance every builder call writes to. */
    const descriptor: Descriptor

    constructor()
      ensures fresh(descriptor) && descriptor.fields == map[]
    {
      descriptor := new Descriptor();
    }

    /** Sets an arbitrary field; the other builders in this library call it as withField. */
    method WithField(name: string, value: FieldValue) returns (r: Attempt<()>)
      modifies descriptor
      ensures r.Ok? <==> ValidField(name, value)
      ensures r.Ok? ==> descriptor.fields == old(descriptor.fields)[name := value]
      ensures r.Thrown? ==> r.exception.RuntimeOperations? && descriptor.fields == old(descriptor.fields)
    {
      r := descriptor.SetField(name, value);
    }

    method WithDefaultValue(defaultValue: Value)
      modifies descriptor
      ensures descriptor.fields == old(descriptor.fields)[DEFAULT_VALUE_FIELD := ObjectValue(defaultValue)]
    {
      var _ := descriptor.SetField(DEFAULT_VALUE_FIELD, ObjectValue(defaultValue));
    }

    method WithDeprecated(value: string)
      modifies descriptor
      ensures descriptor.fields == old(descriptor.fields)["deprecated" := Text(value)]
    {
      var _ := descriptor.SetField("deprecated", Text(value));
    }

    method WithImmutableInfo(value: bool)
      modifies descriptor
      ensures descriptor.fields == old(descriptor.fields)[IMMUTABLE_INFO_FIELD := Flag(value)]
    {
      var _ := descriptor.SetField(IMMUTABLE_INFO_FIELD, Flag(value));
    }

    method WithInterfaceClassName(value: string)
      modifies descriptor
      ensures descriptor.fields == old(descriptor.fields)[INTERFACE_CLASS_NAME_FIELD := Text(value)]
    {
      var _ := descriptor.SetField(INTERFACE_CLASS_NAME_FIELD, Text(value));
    }

    /** Writes the locale into the legal-values field, the same field WithLegalValues writes. */
    method WithLocale(locale: string)
      modifies descriptor
      ensures descriptor.fields == old(descriptor.fields)[LEGAL_VALUES_FIELD := Text(locale)]
    {
      var _ := descriptor.SetField(LEGAL_VALUES_FIELD, Text(locale));
    }

    method WithLegalValues(values: set<Value>)
      modifies descriptor
      ensures descriptor.fields == old(descriptor.fields)[LEGAL_VALUES_FIELD := ValueSet(values)]
    {
      var _ := descriptor.SetField(LEGAL_VALUES_FIELD, ValueSet(values));
    }

    method WithMaxValue(value: Value)
      modifies descriptor
      ensures descriptor.fields == old(descriptor.fields)[MAX_VALUE_FIELD := ObjectValue(value)]
    {
      var _ := descriptor.SetField(MAX_VALUE_FIELD, ObjectValue(value));
    }

    method WithMinValue(value: Value)
      modifies descriptor
      ensures descriptor.fields == old(descriptor.fields)[MIN_VALUE_FIELD := ObjectValue(value)]
    {
      var _ := descriptor.SetField(MIN_VALUE_FIELD, ObjectValue(value));
    }

    method WithEnabled(value: bool)
      modifies descriptor
      ensures descriptor.fields == old(descriptor.fields)["enabled" := Flag(value)]
    {
      var _ := descriptor.SetField("enabled", Flag(value));
    }

    method WithExceptions(exceptions: seq<string>)
      modifies descriptor
      ensures descriptor.fields == old(descriptor.fields)["exceptions" := Texts(exceptions)]
    {
      var _ := descriptor.SetField("exceptions", Texts(exceptions));
    }

    /** Stores the decimal text of the timeout, not the number; a null timeout throws. */
    method WithInfoTimeout(infoTimeout: Option<Long>) returns (r: Attempt<()>)
      modifies descriptor
      ensures infoTimeout.None? ==> r.Thrown? && r.exception.NullPointer?
                                    && descriptor.fields == old(descriptor.fields)
      ensures infoTimeout.Some? ==>
        r == Ok(()) && descriptor.fields == old(descriptor.fields)["infoTimeout" := Text(DecimalString(infoTimeout.value))]
    {
      if infoTimeout.None? {
        return Thrown(NullPointer(""));
      }
      var _ := descriptor.SetField("infoTimeout", Text(DecimalString(infoTimeout.value)));
      r := Ok(());
    }

    method WithMetricType(metricType: string)
      modifies descriptor
      ensures descriptor.fields == old(descriptor.fields)["metricType" := Text(metricType)]
    {
      var _ := descriptor.SetField("metricType", Text(metricType));
    }

    /** The severity is validated by the descriptor: null, or a value outside 0..6,
        throws and leaves the descriptor as it was. */
    method WithSeverity(severity: Option<int>) returns (r: Attempt<()>)
      modifies descriptor
      ensures r.Ok? <==> severity.Some? && 0 <= severity.value <= 6
      ensures r.Ok? ==> descriptor.fields == old(descriptor.fields)[SEVERITY_FIELD := Number(severity.value)]
      ensures r.Thrown? ==> r.exception.RuntimeOperations? && descriptor.fields == old(descriptor.fields)
    {
      var value := if severity.Some? then Number(severity.value) else ObjectValue(Null);
      r := descriptor.SetField(SEVERITY_FIELD, value);
    }

    method WithSince(since: string)
      modifies descriptor
      ensures descriptor.fields == old(descriptor.fields)["since" := Text(since)]
    {
      var _ := descriptor.SetField("since", Text(since));
    }

    method WithUnits(units: string)
      modifies descriptor
      ensures descriptor.fields == old(descriptor.fields)["units" := Text(units)]
    {
      var _ := descriptor.SetField("units", Text(units));
    }

    method WithDisplayName(displayName: string)
      modifies descriptor
      ensures descriptor.fields == old(descriptor.fields)["displayName" := Text(displayName)]
    {
      var _ := descriptor.SetField("displayName", Text(displayName));
    }

    method WithDescriptionResource(descriptionResource: string)
      modifies descriptor
      ensures descriptor.fields == old(descriptor.fields)["descriptionResource" := Text(descriptionResource)]
    {
      var _ := descriptor.SetField("descriptionResource", Text(descriptionResource));
    }

    method WithDescriptionResourceKey(descriptionResourceKey: string)
      modifies descriptor
      ensures descriptor.fields == old(descriptor.fields)["descriptionResourceKey" := Text(descriptionResourceKey)]
    {
      var _ := descriptor.SetField("descriptionResourceKey", Text(descriptionResourceKey));
    }

    /** Copies every field of the argument, one setField per field name: fields of the
        argument win over same-named fields already present, all other fields stay. The
        first invalid field ends the copy with its exception; the fields copied before it
        stay copied. */
    method WithDescriptor(newDescriptor: Fields) returns (r: Attempt<()>)
      modifies descriptor
      ensures r.Ok? <==> AllValid(newDescriptor)
      ensures r.Ok? ==> descriptor.fields == old(descriptor.fields) + newDescriptor
      ensures r.Thrown? ==>
                r.exception.RuntimeOperations? && PartialMerge(old(descriptor.fields), descriptor.fields, newDescriptor)
    {
      var fieldNames := newDescriptor.Keys;
      while fieldNames != {}
        invariant fieldNames <= newDescriptor.Keys
        invariant forall n :: n in newDescriptor.Keys - fieldNames ==> ValidField(n, newDescriptor[n])
        invariant descriptor.fields ==
          old(descriptor.fields) + (map n | n in newDescriptor.Keys - fieldNames :: newDescriptor[n])
        decreases fieldNames
      {
        var fieldName :| fieldName in fieldNames;
        r := descriptor.SetField(fieldName, newDescriptor[fieldName]);
        if r.Thrown? {
          return;
        }
        fieldNames := fieldNames - {fieldName};
      }
      assert (map n | n in newDescriptor.Keys - fieldNames :: newDescriptor[n]) == newDescriptor;
      r := Ok(());
    }

    /** Returns the builder's own descriptor, not a copy. */
    method Build() returns (d: Descriptor)
      ensures d == descriptor
    {
      d := descriptor;
    }
  }

  /** Because Build hands out the builder's own descriptor, a field set after Build is
      visible through the descriptor Build returned; and of WithLocale and WithLegalValues,
      whichever runs last decides the legal-values field. */
  method SharedDescriptorScenario() returns (d: Descriptor)
    ensures fresh(d)
    ensures d.fields == map[LEGAL_VALUES_FIELD := Text("en-US"), "units" := Text("years")]
  {
    var b := new Builder();
    b.WithLegalValues({Int(1)});
    b.WithLocale("en-US");
    d := b.Build();
    b.WithUnits("years");
  }

  // Decimal text of a java.lang.Long, and the parse that reads it back.

  function DigitChar(d: nat): char
    requires d < 10
  {
    "0123456789"[d]
  }

  function DigitValue(c: char): nat {
    if '0' <= c <= '9' then (c as int - '0' as int) else 0
  }

  predicate IsDigits(s: string) {
    |s| > 0 && forall i :: 0 <= i < |s| ==> '0' <= s[i] <= '9'
  }

  function Digits(n: nat): (s: string)
    ensures IsDigits(s)
  {
    if n < 10 then [DigitChar(n)] else Digits(n / 10) + [DigitChar(n % 10)]
  }

  function DigitsValue(s: string): nat {
    if |s| == 0 then 0 else DigitsValue(s[..|s| - 1]) * 10 + DigitValue(s[|s| - 1])
  }

  /** Long.toString: an optional minus sign followed by the digits of the magnitude. */
  function DecimalString(n: int): string {
    if n < 0 then "-" + Digits(-n) else Digits(n)
  }

  /** Java's decimal integer parse (Long.parseLong) over ASCII digits: an optional minus
      or plus sign and at least one digit. */
  function ParseDecimal(s: string): Option<int> {
    if |s| > 0 && s[0] == '-' then
      (if IsDigits(s[1..]) then var magnitude: int := DigitsValue(s[1..]); Some(-magnitude) else None)
    else if |s| > 0 && s[0] == '+' then
      (if IsDigits(s[1..]) then Some(DigitsValue(s[1..])) else None)
    else if IsDigits(s) then Some(DigitsValue(s))
    else None
  }

  lemma {:induction false} DigitsRoundTrip(n: nat)
    ensures DigitsValue(Digits(n)) == n
  {
    if n >= 10 {
      DigitsRoundTrip(n / 10);
      var s := Digits(n);
      assert s[..|s| - 1] == Digits(n / 10);
      assert s[|s| - 1] == DigitChar(n % 10);
    }
  }

  /** The stored infoTimeout text reads back as the number that was passed. */
  lemma DecimalRoundTrip(n: int)
    ensures ParseDecimal(DecimalString(n)) == Some(n)
  {
    var s := DecimalString(n);
    if n < 0 {
      DigitsRoundTrip(-n);
      assert s[0] == '-' && s[1..] == Digits(-n);
    } else {
      DigitsRoundTrip(n);
      assert '0' <= s[0] <= '9';
    }
  }

  /** The severity rule accepts the decimal text of a number, with or without a leading
      plus sign on a non-negative one, exactly when it accepts the number itself. */
  lemma SeverityTextMatchesNumber(n: int)
    ensures ValidSeverity(Text(DecimalString(n))) <==> ValidSeverity(Number(n))
    ensures n >= 0 ==> (ValidSeverity(Text("+" + DecimalString(n))) <==> ValidSeverity(Number(n)))
  {
    DecimalRoundTrip(n);
    if n >= 0 {
      var s := "+" + DecimalString(n);
      DigitsRoundTrip(n);
      assert s[0] == '+' && s[1..] == Digits(n);
    }
  }

  /** A signed severity text: "+3" is accepted as 3, while "+-3", "+" and "7" are refused. */
  lemma SignedSeverityText()
    ensures ValidField(SEVERITY_FIELD, Text("+3")) && ValidField(SEVERITY_FIELD, Text("-0"))
    ensures !ValidField(SEVERITY_FIELD, Text("+-3")) && !ValidField(SEVERITY_FIELD, Text("+"))
    ensures !ValidField(SEVERITY_FIELD, Text("7"))
  {
    assert ParseDecimal("+3") == Some(3) by {
      assert "+3"[1..] == "3";
      assert DigitsValue("3") == 3 by { assert "3"[..0] == []; }
    }
    assert ParseDecimal("-0") == Some(0) by {
      assert "-0"[1..] == "0";
      assert DigitsValue("0") == 0 by { assert "0"[..0] == []; }
    }
    assert !IsDigits("+-3"[1..]) by { assert "+-3"[1..][0] == '-'; }
    assert ParseDecimal("7") == Some(7) by {
      assert DigitsValue("7") == 7 by { assert "7"[..0] == []; }
    }
  }
}
