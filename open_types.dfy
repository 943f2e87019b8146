/** The Open MBean type and value taxonomy of javax.management.openmbean, reduced to what
    the builders produce: simple types, composite (record) types and tabular types, and
    the values that inhabit them. The constructors of CompositeType and TabularType are
    JDK code; the rules they enforce on their arguments, and the trimming they apply, are
    stated here as functions so that the writers can say when their construction fails
    and what it builds. */
module OpenTypes {
  import opened Common

  datatype OpenType =
    | Simple(className: string)
    | Composite(typeName: string, description: string, items: seq<Item>)
    | Tabular(typeName: string, description: string, rowType: OpenType, indexNames: seq<string>)

  /** One declared item of a composite type, in declaration order. */
  datatype Item = Item(name: string, description: string, itemType: OpenType)

  /** A Java object as seen through the management interface. A composite value keeps its
      item names and values positionally; a tabular value maps each row's index values to
      the row. Throwable is an exception object handed back as an ordinary value. */
  datatype Value =
    | Null
    | Bool(b: bool)
    | Int(i: int)
    | Str(s: string)
    | CompositeData(compositeType: OpenType, names: seq<string>, values: seq<Value>)
    | TabularData(tabularType: OpenType, rows: map<seq<Value>, Value>)
    | Throwable(exception: Exception)

  /** What the bean sends: an attribute change built by an attribute, or whatever a
      caller-supplied completion function builds after an operation. */
  datatype Notification =
    | AttributeChange(sequenceNumber: nat, attributeName: string, attributeType: string,
                      oldValue: Value, newValue: Value)
    | Custom(notificationType: string, userData: Value)

  predicate NoneEmpty(ss: seq<string>) {
    forall i :: 0 <= i < |ss| ==> ss[i] != ""
  }

  predicate Distinct(ss: seq<string>) {
    forall i, j :: 0 <= i < j < |ss| ==> ss[i] != ss[j]
  }

  /** The leading characters at or below the space dropped. */
  function TrimStart(s: string): (r: string)
    ensures |r| <= |s| && r == s[|s| - |r|..]
    ensures r == "" || r[0] > ' '
    ensures forall i :: 0 <= i < |s| - |r| ==> s[i] <= ' '
    decreases |s|
  {
    if |s| > 0 && s[0] <= ' ' then TrimStart(s[1..]) else s
  }

  /** The trailing characters at or below the space dropped. */
  function TrimEnd(s: string): (r: string)
    ensures |r| <= |s| && r == s[..|r|]
    ensures r == "" || r[|r| - 1] > ' '
    ensures forall i :: |r| <= i < |s| ==> s[i] <= ' '
    decreases |s|
  {
    if |s| > 0 && s[|s| - 1] <= ' ' then TrimEnd(s[..|s| - 1]) else s
  }

  /** String.trim: the string without its leading and trailing characters at or below
      the space; a string with none is returned as it is. What is left is empty or
      starts and ends above the space. */
  function Trim(s: string): (r: string)
    ensures r == "" || (r[0] > ' ' && r[|r| - 1] > ' ')
  {
    if |s| > 0 && s[0] > ' ' && s[|s| - 1] > ' ' then s else TrimEnd(TrimStart(s))
  }

  /** A string is its own trim exactly when it is empty or starts and ends above the
      space; in particular trimming twice is trimming once. */
  lemma TrimFixed(s: string)
    ensures Trim(s) == s <==> s == "" || (s[0] > ' ' && s[|s| - 1] > ' ')
    ensures Trim(Trim(s)) == Trim(s)
  {
    var t := Trim(s);
    assert TrimStart(t) == t;
    assert TrimEnd(t) == t;
  }

  /** A string trims to nothing exactly when every character is at or below the space. */
  lemma {:induction false} BlankIff(s: string)
    ensures Trim(s) == "" <==> forall i :: 0 <= i < |s| ==> s[i] <= ' '
  {
    var t := TrimStart(s);
    if t != "" {
      assert t[0] == s[|s| - |t|];
      assert TrimEnd(t)[0] == t[0];
    }
  }

  /** The JDK's blank test on an argument string: nothing is left after trimming. */
  predicate Blank(s: string) {
    Trim(s) == ""
  }

  predicate NoneBlank(ss: seq<string>) {
    forall i :: 0 <= i < |ss| ==> !Blank(ss[i])
  }

  function TrimAll(ss: seq<string>): (r: seq<string>)
    ensures |r| == |ss| && forall i :: 0 <= i < |ss| ==> r[i] == Trim(ss[i])
  {
    seq(|ss|, i requires 0 <= i < |ss| => Trim(ss[i]))
  }

  function ItemNames(items: seq<Item>): seq<string> {
    seq(|items|, i requires 0 <= i < |items| => items[i].name)
  }

  /** The item names of a row type; a type that is not composite has none. */
  function RowItemNames(t: OpenType): seq<string> {
    if t.Composite? then ItemNames(t.items) else []
  }

  /** The shape rules of the CompositeType constructor, all IllegalArgumentException:
      type name and description not blank, at least one item, three arrays of one
      length, no blank item name or description. */
  predicate CompositeShape(typeName: string, description: string, names: seq<string>,
                           descriptions: seq<string>, types: seq<OpenType>)
  {
    && !Blank(typeName) && !Blank(description)
    && |names| > 0 && |names| == |descriptions| == |types|
    && NoneBlank(names) && NoneBlank(descriptions)
  }

  /** The CompositeType constructor: the shape rules, then no two item names that are
      equal once trimmed (OpenDataException). The type keeps the trimmed type name and
      description, and each item its trimmed name and description. */
  function NewCompositeType(typeName: string, description: string, names: seq<string>,
                            descriptions: seq<string>, types: seq<OpenType>): (r: Attempt<OpenType>)
    ensures r.Ok? <==> CompositeShape(typeName, description, names, descriptions, types) && Distinct(TrimAll(names))
    ensures r.Ok? ==>
      && r.value.Composite? && r.value.typeName == Trim(typeName) && r.value.description == Trim(description)
      && |r.value.items| == |names|
      && (forall i :: 0 <= i < |names| ==> r.value.items[i] == Item(Trim(names[i]), Trim(descriptions[i]), types[i]))
    ensures r.Thrown? ==>
      if CompositeShape(typeName, description, names, descriptions, types)
      then r.exception.OpenData? else r.exception.IllegalArgument?
  {
    if !CompositeShape(typeName, description, names, descriptions, types)
    then Thrown(IllegalArgument("invalid composite type arguments"))
    else if !Distinct(TrimAll(names)) then Thrown(OpenData("duplicate item name"))
    else Ok(Composite(Trim(typeName), Trim(description),
                      seq(|names|, i requires 0 <= i < |names| => Item(Trim(names[i]), Trim(descriptions[i]), types[i]))))
  }

  /** The item names of a built composite type are the trimmed argument names. */
  lemma CompositeItemNames(typeName: string, description: string, names: seq<string>,
                           descriptions: seq<string>, types: seq<OpenType>)
    requires NewCompositeType(typeName, description, names, descriptions, types).Ok?
    ensures RowItemNames(NewCompositeType(typeName, description, names, descriptions, types).value) == TrimAll(names)
  {
  }

  /** A non-empty string that starts and ends above the space. */
  predicate Word(s: string) {
    |s| > 0 && s[0] > ' ' && s[|s| - 1] > ' '
  }

  /** A word is its own trim and not blank. */
  lemma TrimOfWord(w: string)
    requires Word(w)
    ensures Trim(w) == w && !Blank(w)
  {
    TrimFixed(w);
  }

  /** Words trim to themselves. */
  lemma WordsTrim(ws: seq<string>)
    requires forall i :: 0 <= i < |ws| ==> Word(ws[i])
    ensures TrimAll(ws) == ws && NoneBlank(ws)
  {
    forall i | 0 <= i < |ws| ensures Trim(ws[i]) == ws[i] && !Blank(ws[i]) {
      TrimOfWord(ws[i]);
    }
  }

  /** Arguments that are already trimmed, with distinct item names, build exactly the
      type they describe: trimming changes nothing for them. */
  lemma TrimmedArgumentsKept(typeName: string, description: string, names: seq<string>,
                             descriptions: seq<string>, types: seq<OpenType>)
    requires Word(typeName) && Word(description)
    requires |names| > 0 && |names| == |descriptions| == |types|
    requires forall i :: 0 <= i < |names| ==> Word(names[i]) && Word(descriptions[i])
    requires Distinct(names)
    ensures var r := NewCompositeType(typeName, description, names, descriptions, types);
            && r.Ok? && r.value.Composite? && r.value.typeName == typeName && r.value.description == description
            && |r.value.items| == |names|
            && forall i :: 0 <= i < |names| ==> r.value.items[i] == Item(names[i], descriptions[i], types[i])
  {
    TrimOfWord(typeName);
    TrimOfWord(description);
    WordsTrim(names);
    WordsTrim(descriptions);
    var t := NewCompositeType(typeName, description, names, descriptions, types);
    assert t.Ok?;
    assert forall i :: 0 <= i < |names| ==> t.value.items[i] == Item(names[i], descriptions[i], types[i]) by {
      forall i | 0 <= i < |names| ensures t.value.items[i] == Item(names[i], descriptions[i], types[i]) {
        assert Trim(names[i]) == TrimAll(names)[i] && Trim(descriptions[i]) == TrimAll(descriptions)[i];
      }
    }
  }

  /** Two item names that differ only in surrounding blanks collide. */
  lemma TrimmedNamesCollide(names: seq<string>, descriptions: seq<string>, t: OpenType)
    requires names == ["a", "a "] && descriptions == ["x", "y"]
    ensures NewCompositeType("T", "d", names, descriptions, [t, t]) == Thrown(OpenData("duplicate item name"))
  {
    WordsTrim(["T", "d"]);
    WordsTrim(descriptions);
    WordsTrim(names[..1]);
    assert Trim(names[0]) == "a";
    assert Trim(names[1]) == "a" by {
      assert TrimStart(names[1]) == names[1];
      assert names[1][..1] == "a";
      assert TrimEnd(names[1]) == TrimEnd("a");
    }
    assert NoneBlank(names) by {
      assert !Blank(names[0]) && !Blank(names[1]);
    }
    assert CompositeShape("T", "d", names, descriptions, [t, t]);
    assert TrimAll(names)[0] == TrimAll(names)[1];
  }

  /** The TabularType constructor: type name, description and every index name not
      blank, at least one index name (IllegalArgumentException), and every index name,
      as given, an item of the row type (OpenDataException). The type keeps the trimmed
      type name and description and the index names as given. */
  function NewTabularType(typeName: string, description: string, rowType: OpenType,
                          indexNames: seq<string>): (r: Attempt<OpenType>)
    ensures r.Ok? <==>
      && !Blank(typeName) && !Blank(description) && |indexNames| > 0 && NoneBlank(indexNames)
      && forall n :: n in indexNames ==> n in RowItemNames(rowType)
    ensures r.Ok? ==> r.value == Tabular(Trim(typeName), Trim(description), rowType, indexNames)
    ensures r.Thrown? ==>
      if !Blank(typeName) && !Blank(description) && |indexNames| > 0 && NoneBlank(indexNames)
      then r.exception.OpenData? else r.exception.IllegalArgument?
  {
    if Blank(typeName) || Blank(description) || |indexNames| == 0 || !NoneBlank(indexNames)
    then Thrown(IllegalArgument("invalid tabular type arguments"))
    else if exists n :: n in indexNames && n !in RowItemNames(rowType)
    then Thrown(OpenData("index name is not an item of the row type"))
    else Ok(Tabular(Trim(typeName), Trim(description), rowType, indexNames))
  }

  /** What CompositeDataSupport demands of a record's item names: none empty, none
      repeated, and together exactly the item names of the composite type. */
  predicate RecordNamesMatch(names: seq<string>, t: OpenType) {
    && NoneEmpty(names) && Distinct(names)
    && (forall n :: n in names ==> n in RowItemNames(t))
    && (forall n :: n in RowItemNames(t) ==> n in names)
  }

  /** CompositeData.get: the value stored under an item name (Null when there is none). */
  function ItemValue(names: seq<string>, values: seq<Value>, name: string): Value {
    if |names| == 0 || |values| == 0 then Null
    else if names[0] == name then values[0]
    else ItemValue(names[1..], values[1..], name)
  }

  /** With distinct item names, CompositeData.get of the i-th name is the i-th value. */
  lemma {:induction false} ItemValueAt(names: seq<string>, values: seq<Value>, i: nat)
    requires Distinct(names) && |names| == |values| && i < |names|
    ensures ItemValue(names, values, names[i]) == values[i]
  {
    if i > 0 {
      assert names[0] != names[i];
      assert names[1..][i - 1] == names[i];
      ItemValueAt(names[1..], values[1..], i - 1);
    }
  }

  /** The key a TabularDataSupport files a row under: the row's values of the index
      items, in the order of the index names. */
  function RowKey(row: Value, indexNames: seq<string>): seq<Value> {
    if row.CompositeData?
    then seq(|indexNames|, k requires 0 <= k < |indexNames| => ItemValue(row.names, row.values, indexNames[k]))
    else []
  }
}
