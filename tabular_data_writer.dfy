/** TabularDataWriter: turns a sequence of items into a TabularData table, one row per
    item, each row produced by a CompositeDataWriter and filed under its index values. */
module TabularDataWriters {
  import opened Common
  import opened OpenTypes
  import opened CompositeDataWriters

  /** The table type the rows are filed in. */
  type Table = map<seq<Value>, Value>

  datatype TabularDataWriter<!I> = TabularDataWriter(compositeDataWriter: CompositeDataWriter<I>, tabularType: OpenType)
  {
    /** apply(items): starts from an empty table and puts the row of each item in turn;
        a row that cannot be built, or whose key is already in the table, aborts it. */
    method Apply(items: seq<I>) returns (r: Attempt<Value>)
      ensures r == Tabulate(this, items)
    {
      var table: Table := map[];
      for i := 0 to |items|
        invariant PutAll(this, items, map[]) == PutAll(this, items[i..], table)
      {
        assert items[i..][1..] == items[i + 1..];
        var row := compositeDataWriter.Apply(items[i]);
        if row.Thrown? {
          return Thrown(row.exception);
        }
        var key := RowKey(row.value, IndexNames(tabularType));
        if key in table {
          return Thrown(KeyAlreadyExists("row index already in table"));
        }
        table := table[key := row.value];
      }
      r := Ok(TabularData(tabularType, table));
    }
  }

  /** The index names of a tabular type; any other type has none. */
  function IndexNames(t: OpenType): seq<string> {
    if t.Tabular? then t.indexNames else []
  }

  /** The key the row of an item is filed under (empty when the row cannot be built). */
  function KeyOf<I>(w: TabularDataWriter<I>, item: I): seq<Value> {
    var row := w.compositeDataWriter.Apply(item);
    if row.Ok? then RowKey(row.value, IndexNames(w.tabularType)) else []
  }

  predicate RowsOk<I>(w: TabularDataWriter<I>, items: seq<I>) {
    forall i :: 0 <= i < |items| ==> w.compositeDataWriter.Apply(items[i]).Ok?
  }

  predicate KeysDistinct<I>(w: TabularDataWriter<I>, items: seq<I>) {
    forall i, j :: 0 <= i < j < |items| ==> KeyOf(w, items[i]) != KeyOf(w, items[j])
  }

  /** TabularDataSupport.put of each item's row in turn, starting from the given table. */
  function PutAll<I>(w: TabularDataWriter<I>, items: seq<I>, table: Table): Attempt<Table>
    decreases |items|
  {
    if |items| == 0 then Ok(table)
    else match w.compositeDataWriter.Apply(items[0])
      case Thrown(e) => Thrown(e)
      case Ok(row) =>
        var key := RowKey(row, IndexNames(w.tabularType));
        if key in table then Thrown(KeyAlreadyExists("row index already in table"))
        else PutAll(w, items[1..], table[key := row])
  }

  /** Every row of a non-empty list can be built exactly when the first one and all rows
      of the rest can. */
  lemma RowsOkCons<I>(w: TabularDataWriter<I>, items: seq<I>)
    requires |items| > 0
    ensures RowsOk(w, items) <==> w.compositeDataWriter.Apply(items[0]).Ok? && RowsOk(w, items[1..])
  {
    var rest := items[1..];
    if w.compositeDataWriter.Apply(items[0]).Ok? && RowsOk(w, rest) {
      forall i | 0 <= i < |items| ensures w.compositeDataWriter.Apply(items[i]).Ok? {
        if i > 0 { assert items[i] == rest[i - 1]; }
      }
    }
  }

  /** The keys of a non-empty list are pairwise distinct exactly when the first key
      differs from every later one and the keys of the rest are pairwise distinct. */
  lemma KeysDistinctCons<I>(w: TabularDataWriter<I>, items: seq<I>)
    requires |items| > 0
    ensures KeysDistinct(w, items) <==>
              (forall i :: 1 <= i < |items| ==> KeyOf(w, items[0]) != KeyOf(w, items[i]))
              && KeysDistinct(w, items[1..])
  {
    var rest := items[1..];
    if KeysDistinct(w, items) {
      forall i, j | 0 <= i < j < |rest| ensures KeyOf(w, rest[i]) != KeyOf(w, rest[j]) {
        assert rest[i] == items[i + 1] && rest[j] == items[j + 1];
      }
    }
    if (forall i :: 1 <= i < |items| ==> KeyOf(w, items[0]) != KeyOf(w, items[i])) && KeysDistinct(w, rest) {
      forall i, j | 0 <= i < j < |items| ensures KeyOf(w, items[i]) != KeyOf(w, items[j]) {
        assert items[j] == rest[j - 1];
        if i > 0 { assert items[i] == rest[i - 1]; }
      }
    }
  }

  /** No item's key is already a key of the table. */
  predicate FreshKeys<I>(w: TabularDataWriter<I>, items: seq<I>, table: Table) {
    forall i :: 0 <= i < |items| ==> KeyOf(w, items[i]) !in table
  }

  /** The keys of a non-empty list avoid the table exactly when the first key does and
      the keys of the rest avoid both the table and the first key. */
  lemma FreshKeysCons<I>(w: TabularDataWriter<I>, items: seq<I>, table: Table, row: Value)
    requires |items| > 0
    ensures FreshKeys(w, items, table) && KeysDistinct(w, items) <==>
              && KeyOf(w, items[0]) !in table
              && FreshKeys(w, items[1..], table[KeyOf(w, items[0]) := row])
              && KeysDistinct(w, items[1..])
  {
    var rest := items[1..];
    KeysDistinctCons(w, items);
    assert forall i :: 0 <= i < |rest| ==> rest[i] == items[i + 1];
  }

  /** The putting succeeds exactly when every row can be built and no two keys, and no
      key and an entry already present, coincide; a failure is the row's
      RuntimeException or a KeyAlreadyExistsException. */
  lemma {:induction false} PutAllSucceeds<I>(w: TabularDataWriter<I>, items: seq<I>, table: Table)
    ensures PutAll(w, items, table).Ok? <==>
              RowsOk(w, items) && KeysDistinct(w, items) && FreshKeys(w, items, table)
    ensures PutAll(w, items, table).Thrown? ==>
              PutAll(w, items, table).exception.Runtime? || PutAll(w, items, table).exception.KeyAlreadyExists?
    decreases |items|
  {
    if |items| > 0 {
      RowsOkCons(w, items);
      var row := w.compositeDataWriter.Apply(items[0]);
      if row.Ok? {
        FreshKeysCons(w, items, table, row.value);
        PutAllSucceeds(w, items[1..], table[KeyOf(w, items[0]) := row.value]);
      }
    }
  }

  /** A successful putting of a non-empty list has built the first row, filed it under
      a fresh key and gone on with the rest. */
  lemma PutAllStep<I>(w: TabularDataWriter<I>, items: seq<I>, table: Table)
    requires |items| > 0 && PutAll(w, items, table).Ok?
    ensures w.compositeDataWriter.Apply(items[0]).Ok? && KeyOf(w, items[0]) !in table
    ensures PutAll(w, items, table) ==
              PutAll(w, items[1..], table[KeyOf(w, items[0]) := w.compositeDataWriter.Apply(items[0]).value])
  {
  }

  /** A successful putting keeps what the table had, files each item's row under its
      key, and grows the table by one row per item. */
  lemma {:induction false} PutAllContents<I>(w: TabularDataWriter<I>, items: seq<I>, table: Table)
    ensures PutAll(w, items, table).Ok? ==>
              var t := PutAll(w, items, table).value;
              && |t| == |table| + |items|
              && (forall k :: k in table ==> k in t && t[k] == table[k])
              && (forall i :: 0 <= i < |items| ==>
                    && w.compositeDataWriter.Apply(items[i]).Ok? && KeyOf(w, items[i]) in t
                    && t[KeyOf(w, items[i])] == w.compositeDataWriter.Apply(items[i]).value)
    decreases |items|
  {
    if |items| > 0 && PutAll(w, items, table).Ok? {
      PutAllStep(w, items, table);
      var rest := items[1..];
      var next := table[KeyOf(w, items[0]) := w.compositeDataWriter.Apply(items[0]).value];
      PutAllContents(w, rest, next);
      assert forall i :: 1 <= i < |items| ==> items[i] == rest[i - 1];
    }
  }

  /** A row whose key was already filed, by the table or by an earlier item, makes the
      putting fail with KeyAlreadyExistsException, provided the rows up to it can be built. */
  lemma {:induction false} PutAllRejectsRepeatedKey<I>(w: TabularDataWriter<I>, items: seq<I>, table: Table, j: nat)
    requires j < |items|
    requires forall k :: 0 <= k <= j ==> w.compositeDataWriter.Apply(items[k]).Ok?
    requires KeyOf(w, items[j]) in table || exists i :: 0 <= i < j && KeyOf(w, items[i]) == KeyOf(w, items[j])
    ensures PutAll(w, items, table).Thrown? && PutAll(w, items, table).exception.KeyAlreadyExists?
    decreases j
  {
    var row := w.compositeDataWriter.Apply(items[0]);
    var key := KeyOf(w, items[0]);
    if key !in table {
      var rest := items[1..];
      if j == 0 {
        assert false;
      }
      assert rest[j - 1] == items[j];
      assert forall k :: 0 <= k <= j - 1 ==> rest[k] == items[k + 1];
      if KeyOf(w, items[j]) !in table[key := row.value] {
        var i :| 0 <= i < j && KeyOf(w, items[i]) == KeyOf(w, items[j]);
        assert i > 0;
        assert rest[i - 1] == items[i];
      }
      PutAllRejectsRepeatedKey(w, rest, table[key := row.value], j - 1);
    }
  }

  /** The table apply produces: exactly one row per item, each under its key, when all
      rows can be built and their keys are pairwise distinct; an exception otherwise. */
  function Tabulate<I>(w: TabularDataWriter<I>, items: seq<I>): (r: Attempt<Value>)
    ensures r.Ok? <==> RowsOk(w, items) && KeysDistinct(w, items)
    ensures r.Ok? ==>
              && r.value.TabularData? && r.value.tabularType == w.tabularType
              && |r.value.rows| == |items|
              && forall i :: 0 <= i < |items| ==>
                   KeyOf(w, items[i]) in r.value.rows
                   && r.value.rows[KeyOf(w, items[i])] == w.compositeDataWriter.Apply(items[i]).value
    ensures r.Thrown? ==> r.exception.Runtime? || r.exception.KeyAlreadyExists?
    ensures |items| == 0 ==> r == Ok(TabularData(w.tabularType, map[]))
  {
    PutAllSucceeds(w, items, map[]);
    PutAllContents(w, items, map[]);
    match PutAll(w, items, map[])
    case Ok(table) => Ok(TabularData(w.tabularType, table))
    case Thrown(e) => Thrown(e)
  }

  /** The constructor: type name, description, index names and writer must not be null
      (checked in that order); the table type's row type is the writer's composite type.
      An OpenDataException from the table type is rethrown as a RuntimeException; an
      IllegalArgumentException passes through. */
  function NewTabularDataWriter<I>(typeName: Option<string>, typeDescription: Option<string>,
                                   indexNames: Option<seq<string>>,
                                   compositeDataWriter: Option<CompositeDataWriter<I>>): (r: Attempt<TabularDataWriter<I>>)
    ensures typeName.None? ==> r == Thrown(NullPointer("Null typeName"))
    ensures typeName.Some? && typeDescription.None? ==> r == Thrown(NullPointer("Null typeDescription"))
    ensures typeName.Some? && typeDescription.Some? && indexNames.None? ==> r == Thrown(NullPointer("Null indexNames"))
    ensures typeName.Some? && typeDescription.Some? && indexNames.Some? && compositeDataWriter.None? ==>
              r == Thrown(NullPointer("Null compositeDataWriter"))
    ensures typeName.Some? && typeDescription.Some? && indexNames.Some? && compositeDataWriter.Some? ==>
      var t := NewTabularType(typeName.value, typeDescription.value, compositeDataWriter.value.compositeType,
                              indexNames.value);
      && (r.Ok? <==> t.Ok?)
      && (t.Thrown? && t.exception.OpenData? ==> r == Thrown(Runtime(t.exception)))
      && (t.Thrown? && t.exception.IllegalArgument? ==> r == Thrown(t.exception))
    ensures r.Ok? ==>
      && compositeDataWriter.Some? && r.value.compositeDataWriter == compositeDataWriter.value
      && r.value.tabularType == Tabular(Trim(typeName.value), Trim(typeDescription.value),
                                        compositeDataWriter.value.compositeType, indexNames.value)
  {
    if typeName.None? then Thrown(NullPointer("Null typeName"))
    else if typeDescription.None? then Thrown(NullPointer("Null typeDescription"))
    else if indexNames.None? then Thrown(NullPointer("Null indexNames"))
    else if compositeDataWriter.None? then Thrown(NullPointer("Null compositeDataWriter"))
    else match NewTabularType(typeName.value, typeDescription.value, compositeDataWriter.value.compositeType,
                              indexNames.value)
      case Ok(tabularType) => Ok(TabularDataWriter(compositeDataWriter.value, tabularType))
      case Thrown(e) => if e.OpenData? then Thrown(Runtime(e)) else Thrown(e)
  }

  /** TabularDataWriter.Builder: every setter replaces its field. */
  class Builder<!I> {
    var typeDescription: Option<string>
    var typeName: Option<string>
    var indexNames: Option<seq<string>>
    var compositeDataWriter: Option<CompositeDataWriter<I>>

    /** TabularDataWriter.builder(clazz) */
    constructor()
      ensures typeDescription.None? && typeName.None? && indexNames.None? && compositeDataWriter.None?
    {
      typeDescription := None;
      typeName := None;
      indexNames := None;
      compositeDataWriter := None;
    }

    method WithTypeName(name: string)
      modifies this
      ensures typeName == Some(name)
      ensures typeDescription == old(typeDescription) && indexNames == old(indexNames)
      ensures compositeDataWriter == old(compositeDataWriter)
    {
      typeName := Some(name);
    }

    method WithTypeDescription(description: string)
      modifies this
      ensures typeDescription == Some(description)
      ensures typeName == old(typeName) && indexNames == old(indexNames)
      ensures compositeDataWriter == old(compositeDataWriter)
    {
      typeDescription := Some(description);
    }

    /** Replaces any previous index names with this one name. */
    method WithIndexName(indexName: string)
      modifies this
      ensures indexNames == Some([indexName])
      ensures typeName == old(typeName) && typeDescription == old(typeDescription)
      ensures compositeDataWriter == old(compositeDataWriter)
    {
      indexNames := Some([indexName]);
    }

    /** withIndexNames(String[]) and withIndexNames(List): replaces any previous index
        names, keeping the given order. */
    method WithIndexNames(indexNames: seq<string>)
      modifies this
      ensures this.indexNames == Some(indexNames)
      ensures typeName == old(typeName) && typeDescription == old(typeDescription)
      ensures compositeDataWriter == old(compositeDataWriter)
    {
      this.indexNames := Some(indexNames);
    }

    method WithCompositeDataWriter(compositeDataWriter: CompositeDataWriter<I>)
      modifies this
      ensures this.compositeDataWriter == Some(compositeDataWriter)
      ensures typeName == old(typeName) && typeDescription == old(typeDescription) && indexNames == old(indexNames)
    {
      this.compositeDataWriter := Some(compositeDataWriter);
    }

    /** Passes the final fields, unchanged, to the constructor. */
    method Build() returns (r: Attempt<TabularDataWriter<I>>)
      ensures r == NewTabularDataWriter(typeName, typeDescription, indexNames, compositeDataWriter)
      ensures r.Ok? ==> r.value.tabularType.Tabular? && r.value.tabularType.indexNames == indexNames.value
    {
      r := NewTabularDataWriter(typeName, typeDescription, indexNames, compositeDataWriter);
    }
  }
}
