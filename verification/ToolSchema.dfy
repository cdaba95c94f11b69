/** Reducing a tool's parameter schema to the keywords a grammar folder accepts. */
module ToolSchema {
  import opened Options

  /** Objects keep their entries in order: the first typed variant depends on it. */
  datatype Json =
    | Null
    | Bool(flag: bool)
    | Number(number: real)
    | Text(text: string)
    | Arr(items: seq<Json>)
    | Obj(entries: seq<Entry>)
  type Entry = (string, Json)

  // ---- keywords ----

  datatype Kind = Alternative | Dropped | One | Members | List | Plain

  const TYPE := "type"
  const REF := "$ref"
  const REQUIRED := "required"
  const ITEMS := "items"
  const PREFIX_ITEMS := "prefixItems"
  const PROPERTIES := "properties"
  const ADDITIONAL_PROPERTIES := "additionalProperties"
  const PATTERN_PROPERTIES := "patternProperties"
  const ANY_OF := "anyOf"
  const ONE_OF := "oneOf"
  const ANNOTATIONS := {
    "$schema", "default", "format", "minLength", "maxLength", "pattern", "minimum", "maximum", "exclusiveMinimum",
    "exclusiveMaximum", "multipleOf", "minItems", "maxItems", "uniqueItems", "minProperties", "maxProperties",
    PATTERN_PROPERTIES}
  const UNFOLDABLE := {
    "allOf", "not", "if", "then", "else", "contains", "propertyNames", "dependentSchemas", "dependentRequired",
    "unevaluatedProperties", "unevaluatedItems"}

  function KindOf(key: string): Kind {
    if key in {ANY_OF, ONE_OF} then Alternative
    else if key in ANNOTATIONS || key in UNFOLDABLE then Dropped
    else if key in {ITEMS, ADDITIONAL_PROPERTIES} then One
    else if key in {PROPERTIES, "$defs", "definitions"} then Members
    else if key in {PREFIX_ITEMS} then List
    else Plain
  }

  predicate Kept(key: string) { KindOf(key) != Alternative && KindOf(key) != Dropped }

  lemma PlainKinds()
    ensures KindOf(TYPE) == Plain && KindOf(REF) == Plain && KindOf(REQUIRED) == Plain
  {
  }

  lemma SchemaKinds()
    ensures KindOf(ITEMS) == One && KindOf(ADDITIONAL_PROPERTIES) == One
    ensures KindOf(PROPERTIES) == Members && KindOf(PREFIX_ITEMS) == List
  {
  }

  lemma GoneKinds()
    ensures KindOf(ANY_OF) == Alternative && KindOf(ONE_OF) == Alternative
    ensures KindOf(PATTERN_PROPERTIES) == Dropped
  {
  }

  // ---- records ----

  predicate Has(entries: seq<Entry>, key: string) { exists i | 0 <= i < |entries| :: entries[i].0 == key }

  function Value(entries: seq<Entry>, key: string): (value: Json)
    requires Has(entries, key)
    ensures exists i | 0 <= i < |entries| :: entries[i] == (key, value)
  {
    if entries[0].0 == key then entries[0].1
    else
      assert forall i | 0 < i < |entries| :: entries[i] == entries[1..][i - 1];
      var value := Value(entries[1..], key);
      assert exists i | 0 <= i < |entries[1..]| :: entries[1..][i] == (key, value);
      value
  }

  function Lookup(entries: seq<Entry>, key: string): Option<Json> {
    if Has(entries, key) then Some(Value(entries, key)) else None
  }

  predicate Distinct(entries: seq<Entry>) {
    forall i, j | 0 <= i < j < |entries| :: entries[i].0 != entries[j].0
  }

  /** No object holds a key twice. */
  predicate Proper(node: Json) {
    match node
    case Arr(items) => forall i | 0 <= i < |items| :: Proper(items[i])
    case Obj(entries) => Distinct(entries) && forall i | 0 <= i < |entries| :: Proper(entries[i].1)
    case _ => true
  }

  // ---- reduction ----

  function TypeOf(variant: Json): Option<string> {
    if variant.Obj? && Has(variant.entries, TYPE) && Value(variant.entries, TYPE).Text?
    then Some(Value(variant.entries, TYPE).text) else None
  }

  function FirstType(variants: seq<Json>): Option<string> {
    if variants == [] then None
    else if TypeOf(variants[0]).Some? then TypeOf(variants[0])
    else FirstType(variants[1..])
  }

  function UnionType(value: Json): Option<string> { if value.Arr? then FirstType(value.items) else None }

  /** The type that stands for the alternatives among the entries: that of the first one with a typed variant. */
  function AlternativeType(entries: seq<Entry>): Option<string> {
    if entries == [] then None
    else if KindOf(entries[0].0) == Alternative && UnionType(entries[0].1).Some? then UnionType(entries[0].1)
    else AlternativeType(entries[1..])
  }

  function Filter(entries: seq<Entry>): seq<Entry> {
    if entries == [] then [] else (if Kept(entries[0].0) then [entries[0]] else []) + Filter(entries[1..])
  }

  function Typed(entries: seq<Entry>, alternative: Option<string>): seq<Entry> {
    if !Has(entries, TYPE) && alternative.Some? then entries + [(TYPE, Text(alternative.value))] else entries
  }

  function ReduceAll(items: seq<Json>): seq<Json>
    decreases Arr(items), 0
  {
    seq(|items|, i requires 0 <= i < |items| => assert items[i] < Arr(items); Reduce(items[i]))
  }

  function ReduceMembers(entries: seq<Entry>): seq<Entry>
    decreases Obj(entries), 0
  {
    seq(|entries|, i requires 0 <= i < |entries| =>
      assert entries[i].1 < Obj(entries); (entries[i].0, Reduce(entries[i].1)))
  }

  function ReduceValue(key: string, value: Json): Json
    decreases value, 2
  {
    match KindOf(key)
    case One => Reduce(value)
    case Members => if value.Obj? then Obj(ReduceMembers(value.entries)) else value
    case List => if value.Arr? then Arr(ReduceAll(value.items)) else value
    case _ => value
  }

  function ReduceFields(entries: seq<Entry>): seq<Entry>
    decreases Obj(entries), 0
  {
    seq(|entries|, i requires 0 <= i < |entries| =>
      assert entries[i].1 < Obj(entries); (entries[i].0, ReduceValue(entries[i].0, entries[i].1)))
  }

  function Reduce(node: Json): Json
    decreases node, 1
  {
    match node
    case Arr(items) => Arr(ReduceAll(items))
    case Obj(entries) => Obj(Typed(Filter(ReduceFields(entries)), AlternativeType(entries)))
    case _ => node
  }

  // ---- what one object keeps ----

  lemma {:induction false} FieldLookup(entries: seq<Entry>, key: string)
    ensures Lookup(ReduceFields(entries), key)
            == if Has(entries, key) then Some(ReduceValue(key, Value(entries, key))) else None
  {
    hide KindOf, ReduceValue;
    var fields := ReduceFields(entries);
    if Has(entries, key) {
      var i :| 0 <= i < |entries| && entries[i].0 == key;
      assert fields[i].0 == key;
      if entries[0].0 != key {
        assert entries[1..][i - 1].0 == key;
        assert fields[1..] == ReduceFields(entries[1..]);
        FieldLookup(entries[1..], key);
      }
    } else {
      assert forall i | 0 <= i < |fields| :: fields[i].0 == entries[i].0;
    }
  }

  lemma {:induction false} FilterLookup(entries: seq<Entry>, key: string)
    ensures Lookup(Filter(entries), key) == if Kept(key) then Lookup(entries, key) else None
  {
    hide KindOf, Kept;
    if entries != [] {
      var head, rest := entries[0], entries[1..];
      FilterLookup(rest, key);
      ConsLookup(head, rest, key);
      assert [head] + rest == entries;
      if Kept(head.0) {
        ConsLookup(head, Filter(rest), key);
      } else {
        assert Filter(entries) == Filter(rest);
      }
    }
  }

  lemma ConsLookup(head: Entry, rest: seq<Entry>, key: string)
    ensures Lookup([head] + rest, key) == if head.0 == key then Some(head.1) else Lookup(rest, key)
  {
    var entries := [head] + rest;
    assert entries[0] == head && entries[1..] == rest;
    if Has(rest, key) {
      var i :| 0 <= i < |rest| && rest[i].0 == key;
      assert entries[i + 1].0 == key;
    }
    if Has(entries, key) && head.0 != key {
      var i :| 0 <= i < |entries| && entries[i].0 == key;
      assert rest[i - 1].0 == key;
    }
  }

  lemma {:induction false} AppendLookup(entries: seq<Entry>, last: Entry, key: string)
    ensures Lookup(entries + [last], key)
            == if Has(entries, key) then Lookup(entries, key) else if last.0 == key then Some(last.1) else None
  {
    if entries == [] {
      assert entries + [last] == [last] + [];
      ConsLookup(last, [], key);
    } else {
      var head, rest := entries[0], entries[1..];
      AppendLookup(rest, last, key);
      ConsLookup(head, rest, key);
      ConsLookup(head, rest + [last], key);
      assert [head] + rest == entries && [head] + (rest + [last]) == entries + [last];
    }
  }

  /** What a key of a reduced object holds. */
  lemma ReducedLookup(entries: seq<Entry>, key: string)
    ensures Lookup(Reduce(Obj(entries)).entries, key)
            == if !Kept(key) then None
               else if Has(entries, key) then Some(ReduceValue(key, Value(entries, key)))
               else if key == TYPE && AlternativeType(entries).Some? then Some(Text(AlternativeType(entries).value))
               else None
  {
    PlainKinds();
    hide KindOf, ReduceValue, Filter, AlternativeType, TYPE;
    var kept := Filter(ReduceFields(entries));
    FieldLookup(entries, key);
    FilterLookup(ReduceFields(entries), key);
    FieldLookup(entries, TYPE);
    FilterLookup(ReduceFields(entries), TYPE);
    if AlternativeType(entries).Some? {
      AppendLookup(kept, (TYPE, Text(AlternativeType(entries).value)), key);
    }
  }

  // ---- reducing twice ----

  lemma {:induction false} FilterAll(entries: seq<Entry>)
    requires forall i | 0 <= i < |entries| :: Kept(entries[i].0)
    ensures Filter(entries) == entries
  {
    hide KindOf, Kept;
    if entries != [] {
      assert forall i | 0 <= i < |entries[1..]| :: entries[1..][i] == entries[i + 1];
      FilterAll(entries[1..]);
    }
  }

  lemma {:induction false} FilterKeeps(entries: seq<Entry>)
    ensures forall i | 0 <= i < |Filter(entries)| :: Kept(Filter(entries)[i].0) && Filter(entries)[i] in entries
  {
    hide KindOf, Kept;
    if entries != [] { FilterKeeps(entries[1..]); }
  }

  lemma {:induction false} NoAlternative(entries: seq<Entry>)
    requires forall i | 0 <= i < |entries| :: Kept(entries[i].0)
    ensures AlternativeType(entries) == None
  {
    hide KindOf;
    if entries != [] {
      assert forall i | 0 <= i < |entries[1..]| :: entries[1..][i] == entries[i + 1];
      NoAlternative(entries[1..]);
    }
  }

  lemma {:induction false} ValueTwice(key: string, value: Json)
    ensures ReduceValue(key, ReduceValue(key, value)) == ReduceValue(key, value)
    decreases value, 2
  {
    hide KindOf;
    ReduceTwice(value);
    if value.Obj? {
      var once := ReduceMembers(value.entries);
      forall i | 0 <= i < |value.entries| ensures ReduceMembers(once)[i] == once[i] {
        assert value.entries[i].1 < Obj(value.entries);
        ReduceTwice(value.entries[i].1);
      }
      assert ReduceMembers(once) == once;
    }
    if value.Arr? { AllTwice(value.items); }
  }

  lemma {:induction false} AllTwice(items: seq<Json>)
    ensures ReduceAll(ReduceAll(items)) == ReduceAll(items)
    decreases Arr(items), 0
  {
    var once := ReduceAll(items);
    forall i | 0 <= i < |items| ensures ReduceAll(once)[i] == once[i] {
      assert items[i] < Arr(items);
      ReduceTwice(items[i]);
    }
  }

  /** Reducing a reduced schema changes nothing. */
  lemma {:induction false} ReduceTwice(node: Json)
    ensures Reduce(Reduce(node)) == Reduce(node)
    decreases node, 1
  {
    match node
    case Arr(items) =>
      AllTwice(items);
    case Obj(entries) =>
      var once := Reduce(node).entries;
      forall i | 0 <= i < |once| ensures Kept(once[i].0) && ReduceFields(once)[i] == once[i] {
        EntryKept(entries, i);
        FieldTwice(entries, i);
      }
      assert ReduceFields(once) == once;
      NoAlternative(once);
      FilterAll(once);
    case _ =>
  }

  /** Every entry of a reduced object is a kept field or the type of the alternatives. */
  lemma EntryKept(entries: seq<Entry>, i: nat)
    requires i < |Reduce(Obj(entries)).entries|
    ensures var entry := Reduce(Obj(entries)).entries[i];
            Kept(entry.0) && (entry in ReduceFields(entries) || (entry.0 == TYPE && entry.1.Text?))
  {
    PlainKinds();
    FilterKeeps(ReduceFields(entries));
    hide KindOf, TYPE, Filter;
  }

  lemma {:induction false} FieldTwice(entries: seq<Entry>, i: nat)
    requires i < |Reduce(Obj(entries)).entries|
    ensures var entry := Reduce(Obj(entries)).entries[i]; ReduceValue(entry.0, entry.1) == entry.1
    decreases Obj(entries), 0
  {
    PlainKinds();
    hide KindOf, TYPE;
    EntryKept(entries, i);
    var entry := Reduce(Obj(entries)).entries[i];
    if entry in ReduceFields(entries) {
      var j :| 0 <= j < |entries| && entry == ReduceFields(entries)[j];
      assert entries[j].1 < Obj(entries);
      ValueTwice(entries[j].0, entries[j].1);
    }
  }
}
