/** The reducer as it runs: a fresh record filled entry by entry. */
module ToolSchemaReducer {
  import opened Options
  import opened ToolSchema

  /** The type the first typed variant names. */
  method FirstVariantType(variants: Json) returns (first: Option<string>)
    ensures first == UnionType(variants)
    ensures !variants.Arr? ==> first.None?
    ensures variants.Arr? && first.None? ==> forall i | 0 <= i < |variants.items| :: TypeOf(variants.items[i]).None?
    ensures variants.Arr? && first.Some? ==>
              exists i | 0 <= i < |variants.items| ::
                TypeOf(variants.items[i]) == first && forall j | 0 <= j < i :: TypeOf(variants.items[j]).None?
  {
    if !variants.Arr? {
      return None;
    }
    var items := variants.items;
    var i := 0;
    while i < |items|
      invariant 0 <= i <= |items|
      invariant forall j | 0 <= j < i :: TypeOf(items[j]).None?
      invariant FirstType(items) == FirstType(items[i..])
    {
      assert items[i..][0] == items[i] && items[i..][1..] == items[i + 1..];
      if TypeOf(items[i]).Some? {
        return TypeOf(items[i]);
      }
      i := i + 1;
    }
    first := None;
  }

  /** `record[key] = value`: a key already there keeps its place. */
  function Put(record: seq<Entry>, key: string, value: Json): (after: seq<Entry>)
    ensures !Has(record, key) ==> after == record + [(key, value)]
  {
    if record == [] then [(key, value)]
    else if record[0].0 == key then [(key, value)] + record[1..]
    else
      assert forall i | 0 <= i < |record[1..]| :: record[1..][i] == record[i + 1];
      [record[0]] + Put(record[1..], key, value)
  }

  lemma {:induction false} FilterAppend(entries: seq<Entry>, last: Entry)
    ensures Filter(entries + [last]) == Filter(entries) + if Kept(last.0) then [last] else []
  {
    hide KindOf, Kept;
    if entries == [] {
      assert entries + [last] == [last] && [last][1..] == [];
    } else {
      assert (entries + [last])[1..] == entries[1..] + [last];
      FilterAppend(entries[1..], last);
    }
  }

  lemma {:induction false} AlternativeAppend(entries: seq<Entry>, last: Entry)
    ensures AlternativeType(entries + [last])
            == if AlternativeType(entries).Some? then AlternativeType(entries)
               else if KindOf(last.0) == Alternative then UnionType(last.1) else None
  {
    hide KindOf;
    if entries == [] {
      assert entries + [last] == [last] && [last][1..] == [];
    } else {
      assert (entries + [last])[1..] == entries[1..] + [last];
      AlternativeAppend(entries[1..], last);
    }
  }

  /** What the loop over the entries has gathered after the first `n`. */
  ghost predicate Gathered(entries: seq<Entry>, n: nat, record: seq<Entry>, alternative: Option<string>)
    requires n <= |entries|
  {
    record == Filter(ReduceFields(entries[..n])) && alternative == AlternativeType(entries[..n])
  }

  lemma GatheredNext(entries: seq<Entry>, n: nat, record: seq<Entry>, alternative: Option<string>)
    requires Distinct(entries) && n < |entries| && Gathered(entries, n, record, alternative)
    ensures var (key, value) := entries[n];
            && !Has(record, key)
            && Gathered(entries, n + 1, if Kept(key) then record + [(key, ReduceValue(key, value))] else record,
                        if alternative.None? && KindOf(key) == Alternative then UnionType(value) else alternative)
  {
    hide KindOf, ReduceValue;
    var before, entry := entries[..n], entries[n];
    var field := (entry.0, ReduceValue(entry.0, entry.1));
    assert entries[..n + 1] == before + [entry];
    assert ReduceFields(before + [entry]) == ReduceFields(before) + [field];
    FilterAppend(ReduceFields(before), field);
    AlternativeAppend(before, entry);
    FilterKeeps(ReduceFields(before));
    forall i | 0 <= i < |record| ensures record[i].0 != entry.0 {
      var j :| 0 <= j < n && ReduceFields(before)[j] == record[i];
      assert entries[j].0 == record[i].0;
    }
  }

  method ReduceItems(items: seq<Json>) returns (reduced: seq<Json>)
    requires forall i | 0 <= i < |items| :: Proper(items[i])
    ensures reduced == ReduceAll(items)
    decreases Arr(items), 0
  {
    reduced := [];
    for i := 0 to |items|
      invariant reduced == ReduceAll(items)[..i]
    {
      assert items[i] < Arr(items);
      var item := ReduceSchemaNode(items[i]);
      assert ReduceAll(items)[i] == item;
      reduced := reduced + [item];
    }
  }

  method ReduceSubschemas(entries: seq<Entry>) returns (reduced: seq<Entry>)
    requires forall i | 0 <= i < |entries| :: Proper(entries[i].1)
    ensures reduced == ReduceMembers(entries)
    decreases Obj(entries), 0
  {
    reduced := [];
    for i := 0 to |entries|
      invariant reduced == ReduceMembers(entries)[..i]
    {
      assert entries[i].1 < Obj(entries);
      var schema := ReduceSchemaNode(entries[i].1);
      assert ReduceMembers(entries)[i] == (entries[i].0, schema);
      reduced := reduced + [(entries[i].0, schema)];
    }
  }

  method ReduceField(key: string, value: Json) returns (reduced: Json)
    requires Proper(value)
    ensures reduced == ReduceValue(key, value)
    decreases value, 2
  {
    hide KindOf;
    if KindOf(key) == One {
      reduced := ReduceSchemaNode(value);
    } else if KindOf(key) == Members && value.Obj? {
      var members := ReduceSubschemas(value.entries);
      reduced := Obj(members);
    } else if KindOf(key) == List && value.Arr? {
      var items := ReduceItems(value.items);
      reduced := Arr(items);
    } else {
      reduced := value;
    }
  }

  method ReduceSchemaNode(node: Json) returns (reduced: Json)
    requires Proper(node)
    ensures reduced == Reduce(node)
    decreases node, 1
  {
    if node.Arr? {
      var items := ReduceItems(node.items);
      return Arr(items);
    }
    if !node.Obj? {
      return node;
    }
    hide KindOf, TYPE, AlternativeType, Filter, ReduceValue;
    var entries := node.entries;
    var record, alternative := [], None;
    assert Gathered(entries, 0, record, alternative) by { EmptyGathered(entries); }
    for i := 0 to |entries|
      invariant Gathered(entries, i, record, alternative)
    {
      var (key, value) := entries[i];
      assert value == entries[i].1 && value < node;
      GatheredNext(entries, i, record, alternative);
      if KindOf(key) == Alternative {
        if alternative.None? { alternative := FirstVariantType(value); }
      } else if KindOf(key) != Dropped {
        var field := ReduceField(key, value);
        record := Put(record, key, field);
      }
    }
    assert entries[..|entries|] == entries;
    if !Has(record, TYPE) && alternative.Some? {
      record := Put(record, TYPE, Text(alternative.value));
    }
    reduced := Obj(record);
  }

  lemma EmptyGathered(entries: seq<Entry>)
    ensures Gathered(entries, 0, [], None)
  {
    assert entries[..0] == [] && ReduceFields([]) == [];
  }
}
