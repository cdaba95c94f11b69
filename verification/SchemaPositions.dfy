/** Which parts of a tool schema are schemas themselves, and what a reduced one holds at each of them. */
module SchemaPositions {
  import opened Options
  import opened ToolSchema

  datatype Step = Key(name: string) | Index(index: nat)
  type Path = seq<Step>

  /** The value a path leads to through any objects and lists. */
  function Get(node: Json, path: Path): Option<Json>
    decreases |path|
  {
    if path == [] then Some(node)
    else
      match path[0]
      case Key(name) =>
        if node.Obj? && Has(node.entries, name) then Get(Value(node.entries, name), path[1..]) else None
      case Index(i) => if node.Arr? && i < |node.items| then Get(node.items[i], path[1..]) else None
  }

  /** The schema a path leads to through the keywords that hold schemas. */
  function At(node: Json, path: Path): Option<Json>
    decreases |path|, 0
  {
    if path == [] then Some(node)
    else if path[0].Index? then
      if node.Arr? && path[0].index < |node.items| then At(node.items[path[0].index], path[1..]) else None
    else if node.Obj? && Has(node.entries, path[0].name) then
      Below(path[0].name, Value(node.entries, path[0].name), path[1..])
    else None
  }

  function Below(key: string, value: Json, path: Path): Option<Json>
    decreases |path|, 1
  {
    match KindOf(key)
    case One => At(value, path)
    case Members =>
      if path != [] && path[0].Key? && value.Obj? && Has(value.entries, path[0].name)
      then At(Value(value.entries, path[0].name), path[1..]) else None
    case List =>
      if path != [] && path[0].Index? && value.Arr? && path[0].index < |value.items|
      then At(value.items[path[0].index], path[1..]) else None
    case _ => None
  }

  function ReducedOption(node: Option<Json>): Option<Json> {
    if node.Some? then Some(Reduce(node.value)) else None
  }

  lemma MemberLookup(entries: seq<Entry>, name: string)
    ensures Lookup(ReduceMembers(entries), name)
            == if Has(entries, name) then Some(Reduce(Value(entries, name))) else None
    decreases |entries|
  {
    var members := ReduceMembers(entries);
    if entries == [] {
    } else {
      assert members[1..] == ReduceMembers(entries[1..]);
      MemberLookup(entries[1..], name);
      ConsLookup(entries[0], entries[1..], name);
      ConsLookup(members[0], members[1..], name);
      assert [entries[0]] + entries[1..] == entries && [members[0]] + members[1..] == members;
    }
  }

  /** Reduction keeps every position where a schema stands, adds none, and reduces the schema there. */
  lemma {:induction false} PositionsKept(node: Json, path: Path)
    ensures At(Reduce(node), path) == ReducedOption(At(node, path))
    decreases |path|, 0
  {
    if path != [] && node.Arr? {
      if path[0].Index? && path[0].index < |node.items| { PositionsKept(node.items[path[0].index], path[1..]); }
    } else if path != [] && node.Obj? && path[0].Key? {
      var key := path[0].name;
      ReducedLookup(node.entries, key);
      hide KindOf;
      PlainKinds();
      if Has(node.entries, key) { BelowKept(key, Value(node.entries, key), path[1..]); }
    }
  }

  lemma {:induction false} BelowKept(key: string, value: Json, path: Path)
    ensures Below(key, ReduceValue(key, value), path) == ReducedOption(Below(key, value, path))
    decreases |path|, 1
  {
    hide KindOf;
    match KindOf(key)
    case One => PositionsKept(value, path);
    case Members =>
      if path != [] && path[0].Key? && value.Obj? {
        MemberLookup(value.entries, path[0].name);
        if Has(value.entries, path[0].name) { PositionsKept(Value(value.entries, path[0].name), path[1..]); }
      }
    case List =>
      if path != [] && path[0].Index? && value.Arr? && path[0].index < |value.items| {
        PositionsKept(value.items[path[0].index], path[1..]);
      }
    case _ =>
  }

  /** The path goes through schemas into a keyword that reduction takes out. */
  predicate Lost(node: Json, path: Path)
    decreases |path|, 0
  {
    path != [] &&
    if path[0].Index? then node.Arr? && path[0].index < |node.items| && Lost(node.items[path[0].index], path[1..])
    else
      node.Obj? && Has(node.entries, path[0].name)
      && (!Kept(path[0].name) || LostBelow(path[0].name, Value(node.entries, path[0].name), path[1..]))
  }

  predicate LostBelow(key: string, value: Json, path: Path)
    decreases |path|, 1
  {
    match KindOf(key)
    case One => Lost(value, path)
    case Members =>
      path != [] && path[0].Key? && value.Obj? && Has(value.entries, path[0].name)
      && Lost(Value(value.entries, path[0].name), path[1..])
    case List =>
      path != [] && path[0].Index? && value.Arr? && path[0].index < |value.items|
      && Lost(value.items[path[0].index], path[1..])
    case _ => false
  }

  /** What a path led to is out of reach in the reduced schema exactly when the path is a lost one. */
  lemma {:induction false} OutOfReach(node: Json, path: Path)
    ensures Lost(node, path) ==> Get(Reduce(node), path).None?
    ensures Get(node, path).Some? && !Lost(node, path) ==> Get(Reduce(node), path).Some?
    decreases |path|, 0
  {
    if path != [] && node.Arr? {
      if path[0].Index? && path[0].index < |node.items| { OutOfReach(node.items[path[0].index], path[1..]); }
    } else if path != [] && node.Obj? && path[0].Key? {
      var key := path[0].name;
      ReducedLookup(node.entries, key);
      hide KindOf, Kept;
      if Has(node.entries, key) && Kept(key) { BelowOutOfReach(key, Value(node.entries, key), path[1..]); }
    }
  }

  lemma {:induction false} BelowOutOfReach(key: string, value: Json, path: Path)
    requires Kept(key)
    ensures LostBelow(key, value, path) ==> Get(ReduceValue(key, value), path).None?
    ensures Get(value, path).Some? && !LostBelow(key, value, path) ==> Get(ReduceValue(key, value), path).Some?
    decreases |path|, 1
  {
    hide KindOf;
    match KindOf(key)
    case One => OutOfReach(value, path);
    case Members =>
      if path != [] && path[0].Key? && value.Obj? {
        MemberLookup(value.entries, path[0].name);
        if Has(value.entries, path[0].name) { OutOfReach(Value(value.entries, path[0].name), path[1..]); }
      }
    case List =>
      if path != [] && path[0].Index? && value.Arr? && path[0].index < |value.items| {
        OutOfReach(value.items[path[0].index], path[1..]);
      }
    case _ =>
  }

  /** No schema in a reduced one holds a dropped keyword or alternatives. */
  lemma Foldable(node: Json, path: Path, key: string)
    requires At(Reduce(node), path).Some? && At(Reduce(node), path).value.Obj?
    requires Has(At(Reduce(node), path).value.entries, key)
    ensures KindOf(key) != Alternative && KindOf(key) != Dropped
  {
    PositionsKept(node, path);
    var schema := At(node, path).value;
    ReducedLookup(schema.entries, key);
    hide KindOf;
  }

  /** Every other keyword stays; one that holds no schema keeps its value, so do the names under `properties`. */
  lemma KeywordsKept(node: Json, path: Path, key: string)
    requires At(node, path).Some? && At(node, path).value.Obj? && Has(At(node, path).value.entries, key)
    requires Kept(key)
    ensures At(Reduce(node), path).Some? && At(Reduce(node), path).value.Obj?
    ensures var before, after := Value(At(node, path).value.entries, key), Lookup(At(Reduce(node), path).value.entries, key);
            && after.Some?
            && (KindOf(key) == Plain ==> after.value == before)
            && (KindOf(key) == Members && before.Obj? ==> after.value.Obj? && SameNames(before.entries, after.value.entries))
  {
    PositionsKept(node, path);
    ReducedLookup(At(node, path).value.entries, key);
    hide KindOf;
  }

  predicate SameNames(before: seq<Entry>, after: seq<Entry>) {
    |before| == |after| && forall i | 0 <= i < |before| :: before[i].0 == after[i].0
  }

  /** A type is added only where none stood, and then it is the type of some variant. */
  lemma TypeKept(node: Json, path: Path)
    requires At(node, path).Some? && At(node, path).value.Obj?
    ensures At(Reduce(node), path).Some? && At(Reduce(node), path).value.Obj?
    ensures var before, after := At(node, path).value.entries, At(Reduce(node), path).value.entries;
            Lookup(after, TYPE) == if Has(before, TYPE) then Lookup(before, TYPE)
                                   else if AlternativeType(before).Some? then Some(Text(AlternativeType(before).value))
                                   else None
  {
    PlainKinds();
    PositionsKept(node, path);
    ReducedLookup(At(node, path).value.entries, TYPE);
    hide KindOf, TYPE;
  }
}
