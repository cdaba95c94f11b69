/** What a tool schema accepts (JSON Schema 2020-12), and that reduction only weakens it. */
module ToolSchemaMeaning {
  import opened Options
  import opened ToolSchema
  import opened SchemaPositions

  /**
   The parts of a validator left open: where a reference leads, which names a pattern matches, the keywords that look
   at nothing but their own value (`local`), and the dropped keywords, which may look at anything (`dropped`).
   */
  datatype Validator = Validator(
    target: string -> Path,
    matches: (string, string) -> bool,
    local: (string, Json, Json) -> bool,
    dropped: (Json, Json, string, Json) -> bool)

  predicate NamedType(name: string, value: Json) {
    match value
    case Null => name == "null"
    case Bool(_) => name == "boolean"
    case Number(n) => name == "number" || (name == "integer" && n == n.Floor as real)
    case Text(_) => name == "string"
    case Arr(_) => name == "array"
    case Obj(_) => name == "object"
  }

  predicate TypeHolds(type_: Json, value: Json) {
    match type_
    case Text(name) => NamedType(name, value)
    case Arr(names) => exists i | 0 <= i < |names| :: names[i].Text? && NamedType(names[i].text, value)
    case _ => false
  }

  /** The positions of a list that `prefixItems` describes. */
  function Prefix(entries: seq<Entry>): nat {
    match Lookup(entries, PREFIX_ITEMS)
    case Some(Arr(items)) => |items|
    case _ => 0
  }

  predicate Declared(entries: seq<Entry>, name: string) {
    match Lookup(entries, PROPERTIES)
    case Some(Obj(members)) => Has(members, name)
    case _ => false
  }

  ghost predicate Matched(v: Validator, entries: seq<Entry>, name: string) {
    match Lookup(entries, PATTERN_PROPERTIES)
    case Some(Obj(members)) => exists pattern: string :: Has(members, pattern) && v.matches(pattern, name)
    case _ => false
  }

  /** The schema accepts the value, following at most `fuel` references in a row. */
  ghost predicate Accepts(v: Validator, root: Json, node: Json, value: Json, fuel: nat)
    decreases fuel, node, 1
  {
    match node
    case Bool(flag) => flag
    case Obj(entries) => forall key: string | Has(entries, key) :: Holds(v, root, node, key, value, fuel)
    case _ => false
  }

  /** One keyword of a schema holds of the value. */
  ghost predicate Holds(v: Validator, root: Json, node: Json, key: string, value: Json, fuel: nat)
    requires node.Obj? && Has(node.entries, key)
    decreases fuel, node, 0
  {
    var own := Value(node.entries, key);
    if key == TYPE then TypeHolds(own, value)
    else if key == REF then
      own.Text? && fuel > 0 &&
      var target := Get(root, v.target(own.text));
      target.Some? && Accepts(v, root, target.value, value, fuel - 1)
    else if key == ITEMS then
      value.Arr? ==>
        if own.Arr? then AcceptsEach(v, root, own, value, fuel)
        else forall i | Prefix(node.entries) <= i < |value.items| :: Accepts(v, root, own, value.items[i], fuel)
    else if key == PREFIX_ITEMS && own.Arr? then value.Arr? ==> AcceptsEach(v, root, own, value, fuel)
    else if key == PROPERTIES && own.Obj? then
      value.Obj? ==>
        forall name: string | Has(own.entries, name) && Has(value.entries, name) ::
          assert Value(own.entries, name) < own;
          Accepts(v, root, Value(own.entries, name), Value(value.entries, name), fuel)
    else if key == ADDITIONAL_PROPERTIES then
      value.Obj? ==>
        forall name: string | Has(value.entries, name) ::
          Declared(node.entries, name) || Matched(v, node.entries, name)
          || Accepts(v, root, own, Value(value.entries, name), fuel)
    else if key == PATTERN_PROPERTIES && own.Obj? then
      value.Obj? ==>
        forall pattern: string, name: string
          | Has(own.entries, pattern) && Has(value.entries, name) && v.matches(pattern, name) ::
          assert Value(own.entries, pattern) < own;
          Accepts(v, root, Value(own.entries, pattern), Value(value.entries, name), fuel)
    else if key == ANY_OF && own.Arr? then Accepting(v, root, own, |own.items|, value, fuel) > 0
    else if key == ONE_OF && own.Arr? then Accepting(v, root, own, |own.items|, value, fuel) == 1
    else if KindOf(key) == Members then true
    else if Kept(key) then v.local(key, own, value)
    else v.dropped(root, node, key, value)
  }

  ghost predicate AcceptsEach(v: Validator, root: Json, schemas: Json, value: Json, fuel: nat)
    requires schemas.Arr? && value.Arr?
    decreases fuel, schemas, 0
  {
    forall i | 0 <= i < |schemas.items| && i < |value.items| ::
      Accepts(v, root, schemas.items[i], value.items[i], fuel)
  }

  /** How many of the first `n` variants accept the value. */
  ghost function Accepting(v: Validator, root: Json, variants: Json, n: nat, value: Json, fuel: nat): nat
    requires variants.Arr? && n <= |variants.items|
    decreases fuel, variants, 0, n
  {
    if n == 0 then 0
    else Accepting(v, root, variants, n - 1, value, fuel)
         + if Accepts(v, root, variants.items[n - 1], value, fuel) then 1 else 0
  }

  // ---- reduction weakens ----

  /** Reduction adds no type to the object and drops no `patternProperties` that `additionalProperties` looks at. */
  predicate Plainly(entries: seq<Entry>) {
    && (Has(entries, TYPE) || AlternativeType(entries).None?)
    && !(Has(entries, ADDITIONAL_PROPERTIES) && Has(entries, PATTERN_PROPERTIES))
  }

  /** The schema accepts no value. */
  ghost predicate Barren(v: Validator, root: Json, node: Json) {
    forall value: Json, fuel: nat :: !Accepts(v, root, node, value, fuel)
  }

  /**
   What reduction needs of one object: besides the above, a reference leads to a schema position or nowhere, unless the
   object accepts nothing anyway.
   */
  ghost predicate Weakenable(v: Validator, root: Json, node: Json)
    requires node.Obj?
  {
    && Plainly(node.entries)
    && (Barren(v, root, node)
        || forall r: string | Lookup(node.entries, REF) == Some(Text(r)) :: At(root, v.target(r)) == Get(root, v.target(r)))
  }

  ghost predicate AllWeakenable(v: Validator, root: Json) {
    forall path: Path | At(root, path).Some? && At(root, path).value.Obj? :: Weakenable(v, root, At(root, path).value)
  }

  ghost predicate Position(root: Json, node: Json) { exists path: Path :: At(root, path) == Some(node) }

  lemma {:induction false} AtAppend(node: Json, first: Path, rest: Path)
    requires At(node, first).Some?
    ensures At(node, first + rest) == At(At(node, first).value, rest)
    decreases |first|, 0
  {
    hide KindOf;
    if first == [] {
      assert first + rest == rest;
    } else {
      assert (first + rest)[1..] == first[1..] + rest;
      if first[0].Index? {
        AtAppend(node.items[first[0].index], first[1..], rest);
      } else {
        BelowAppend(first[0].name, Value(node.entries, first[0].name), first[1..], rest);
      }
    }
  }

  lemma {:induction false} BelowAppend(key: string, value: Json, first: Path, rest: Path)
    requires Below(key, value, first).Some?
    ensures Below(key, value, first + rest) == At(Below(key, value, first).value, rest)
    decreases |first|, 1
  {
    hide KindOf;
    if KindOf(key) == One {
      AtAppend(value, first, rest);
    } else {
      assert (first + rest)[1..] == first[1..] + rest;
      if KindOf(key) == Members {
        AtAppend(Value(value.entries, first[0].name), first[1..], rest);
      } else {
        AtAppend(value.items[first[0].index], first[1..], rest);
      }
    }
  }

  lemma PositionBelow(root: Json, node: Json, rest: Path)
    requires Position(root, node) && At(node, rest).Some?
    ensures Position(root, At(node, rest).value)
  {
    var path :| At(root, path) == Some(node);
    AtAppend(root, path, rest);
  }

  lemma PositionItem(root: Json, node: Json, i: nat)
    requires Position(root, node) && node.Arr? && i < |node.items|
    ensures Position(root, node.items[i])
  {
    assert [Index(i)][1..] == [];
    assert At(node, [Index(i)]) == Some(node.items[i]);
    PositionBelow(root, node, [Index(i)]);
  }

  lemma PositionOne(root: Json, node: Json, key: string)
    requires Position(root, node) && node.Obj? && Has(node.entries, key) && KindOf(key) == One
    ensures Position(root, Value(node.entries, key))
  {
    hide KindOf;
    assert [Key(key)][1..] == [];
    assert Below(key, Value(node.entries, key), []) == Some(Value(node.entries, key));
    assert At(node, [Key(key)]) == Some(Value(node.entries, key));
    PositionBelow(root, node, [Key(key)]);
  }

  lemma PositionMember(root: Json, node: Json, key: string, name: string)
    requires Position(root, node) && node.Obj? && Has(node.entries, key) && KindOf(key) == Members
    requires Value(node.entries, key).Obj? && Has(Value(node.entries, key).entries, name)
    ensures Position(root, Value(Value(node.entries, key).entries, name))
  {
    hide KindOf;
    var path := [Key(key), Key(name)];
    var member := Value(Value(node.entries, key).entries, name);
    assert path[1..] == [Key(name)] && path[1..][1..] == [];
    assert At(member, []) == Some(member);
    assert Below(key, Value(node.entries, key), [Key(name)]) == Some(member);
    assert At(node, path) == Some(member);
    PositionBelow(root, node, path);
  }

  lemma PositionElement(root: Json, node: Json, key: string, i: nat)
    requires Position(root, node) && node.Obj? && Has(node.entries, key) && KindOf(key) == List
    requires Value(node.entries, key).Arr? && i < |Value(node.entries, key).items|
    ensures Position(root, Value(node.entries, key).items[i])
  {
    hide KindOf;
    var path := [Key(key), Index(i)];
    var item := Value(node.entries, key).items[i];
    assert path[1..] == [Index(i)] && path[1..][1..] == [];
    assert At(item, []) == Some(item);
    assert Below(key, Value(node.entries, key), [Index(i)]) == Some(item);
    assert At(node, path) == Some(item);
    PositionBelow(root, node, path);
  }

  lemma {:induction false} AtIsGet(node: Json, path: Path)
    requires At(node, path).Some?
    ensures Get(node, path) == At(node, path)
    decreases |path|
  {
    hide KindOf;
    if path != [] {
      if path[0].Index? {
        AtIsGet(node.items[path[0].index], path[1..]);
      } else {
        var key := path[0].name;
        var value := Value(node.entries, key);
        assert Get(node, path) == Get(value, path[1..]);
        if KindOf(key) == One {
          AtIsGet(value, path[1..]);
        } else if KindOf(key) == Members {
          AtIsGet(Value(value.entries, path[1].name), path[1..][1..]);
        } else {
          AtIsGet(value.items[path[1].index], path[1..][1..]);
        }
      }
    }
  }

  lemma OtherKeys()
    ensures TYPE != REF && ITEMS != ADDITIONAL_PROPERTIES
    ensures KindOf(TYPE) == Plain && KindOf(REF) == Plain
    ensures KindOf(ITEMS) == One && KindOf(ADDITIONAL_PROPERTIES) == One
    ensures KindOf(PROPERTIES) == Members && KindOf(PREFIX_ITEMS) == List
    ensures KindOf(ANY_OF) == Alternative && KindOf(ONE_OF) == Alternative && KindOf(PATTERN_PROPERTIES) == Dropped
  {
    PlainKinds();
    SchemaKinds();
    GoneKinds();
    hide KindOf;
    assert TYPE[0] != REF[0] && ITEMS[0] != ADDITIONAL_PROPERTIES[0];
  }

  lemma OnlyKeys(key: string)
    ensures KindOf(key) == One ==> key == ITEMS || key == ADDITIONAL_PROPERTIES
    ensures KindOf(key) == List ==> key == PREFIX_ITEMS
  {
    hide TYPE, REF, ITEMS, ADDITIONAL_PROPERTIES, PROPERTIES, PREFIX_ITEMS, ANY_OF, ONE_OF, PATTERN_PROPERTIES, ANNOTATIONS,
      UNFOLDABLE;
  }

  lemma SiblingsKept(node: Json, name: string)
    requires node.Obj?
    ensures Prefix(Reduce(node).entries) == Prefix(node.entries)
    ensures Declared(Reduce(node).entries, name) <==> Declared(node.entries, name)
  {
    OtherKeys();
    hide KindOf, TYPE, REF, ITEMS, ADDITIONAL_PROPERTIES, PROPERTIES, PREFIX_ITEMS, ANY_OF, ONE_OF, PATTERN_PROPERTIES;
    ReducedLookup(node.entries, PREFIX_ITEMS);
    ReducedLookup(node.entries, PROPERTIES);
    match Lookup(node.entries, PROPERTIES)
    case Some(Obj(members)) => MemberLookup(members, name);
    case _ =>
  }

  lemma {:induction false} EachWeakens(v: Validator, root: Json, schemas: Json, value: Json, fuel: nat)
    requires AllWeakenable(v, root) && schemas.Arr? && value.Arr?
    requires forall i | 0 <= i < |schemas.items| :: Position(root, schemas.items[i])
    requires AcceptsEach(v, root, schemas, value, fuel)
    ensures AcceptsEach(v, Reduce(root), Reduce(schemas), value, fuel)
    decreases fuel, schemas, 0
  {
    hide AllWeakenable, Position, Accepts, Holds;
    forall i | 0 <= i < |schemas.items| && i < |value.items|
      ensures Accepts(v, Reduce(root), Reduce(schemas).items[i], value.items[i], fuel)
    {
      Weakens(v, root, schemas.items[i], value.items[i], fuel);
    }
  }

  lemma {:induction false} ItemsWeakens(v: Validator, root: Json, node: Json, value: Json, fuel: nat)
    requires AllWeakenable(v, root) && Position(root, node)
    requires node.Obj? && Has(node.entries, ITEMS) && Holds(v, root, node, ITEMS, value, fuel)
    ensures Has(Reduce(node).entries, ITEMS) && Holds(v, Reduce(root), Reduce(node), ITEMS, value, fuel)
    decreases fuel, node, 0
  {
    OtherKeys();
    hide KindOf, TYPE, REF, ITEMS, ADDITIONAL_PROPERTIES, PROPERTIES, PREFIX_ITEMS, ANY_OF, ONE_OF, PATTERN_PROPERTIES;
    hide AllWeakenable, Position, Accepts, AcceptsEach;
    var own := Value(node.entries, ITEMS);
    ReducedLookup(node.entries, ITEMS);
    SiblingsKept(node, "");
    PositionOne(root, node, ITEMS);
    if value.Arr? {
      if own.Arr? {
        forall i | 0 <= i < |own.items| ensures Position(root, own.items[i]) { PositionItem(root, own, i); }
        EachWeakens(v, root, own, value, fuel);
      } else {
        forall i | Prefix(node.entries) <= i < |value.items|
          ensures Accepts(v, Reduce(root), Reduce(own), value.items[i], fuel)
        {
          Weakens(v, root, own, value.items[i], fuel);
        }
      }
    }
  }

  lemma {:induction false} PrefixWeakens(v: Validator, root: Json, node: Json, value: Json, fuel: nat)
    requires AllWeakenable(v, root) && Position(root, node)
    requires node.Obj? && Has(node.entries, PREFIX_ITEMS) && Holds(v, root, node, PREFIX_ITEMS, value, fuel)
    ensures Has(Reduce(node).entries, PREFIX_ITEMS)
    ensures Holds(v, Reduce(root), Reduce(node), PREFIX_ITEMS, value, fuel)
    decreases fuel, node, 0
  {
    OtherKeys();
    hide KindOf, TYPE, REF, ITEMS, ADDITIONAL_PROPERTIES, PROPERTIES, PREFIX_ITEMS, ANY_OF, ONE_OF, PATTERN_PROPERTIES;
    hide AllWeakenable, Position, Accepts, AcceptsEach;
    var own := Value(node.entries, PREFIX_ITEMS);
    ReducedLookup(node.entries, PREFIX_ITEMS);
    if value.Arr? && own.Arr? {
      forall i | 0 <= i < |own.items| ensures Position(root, own.items[i]) {
        PositionElement(root, node, PREFIX_ITEMS, i);
      }
      EachWeakens(v, root, own, value, fuel);
      assert Reduce(own) == Arr(ReduceAll(own.items));
    }
  }

  lemma {:induction false} PropertiesWeaken(v: Validator, root: Json, node: Json, value: Json, fuel: nat)
    requires AllWeakenable(v, root) && Position(root, node)
    requires node.Obj? && Has(node.entries, PROPERTIES) && Holds(v, root, node, PROPERTIES, value, fuel)
    ensures Has(Reduce(node).entries, PROPERTIES)
    ensures Holds(v, Reduce(root), Reduce(node), PROPERTIES, value, fuel)
    decreases fuel, node, 0
  {
    OtherKeys();
    hide KindOf, TYPE, REF, ITEMS, ADDITIONAL_PROPERTIES, PROPERTIES, PREFIX_ITEMS, ANY_OF, ONE_OF, PATTERN_PROPERTIES;
    hide AllWeakenable, Position, Accepts;
    var own := Value(node.entries, PROPERTIES);
    ReducedLookup(node.entries, PROPERTIES);
    if value.Obj? && own.Obj? {
      var members := ReduceMembers(own.entries);
      forall name: string | Has(members, name) && Has(value.entries, name)
        ensures Accepts(v, Reduce(root), Value(members, name), Value(value.entries, name), fuel)
      {
        MemberLookup(own.entries, name);
        PositionMember(root, node, PROPERTIES, name);
        assert Value(own.entries, name) < own;
        Weakens(v, root, Value(own.entries, name), Value(value.entries, name), fuel);
      }
    }
  }

  lemma {:induction false} AdditionalWeakens(v: Validator, root: Json, node: Json, value: Json, fuel: nat)
    requires AllWeakenable(v, root) && Position(root, node)
    requires node.Obj? && Has(node.entries, ADDITIONAL_PROPERTIES)
    requires Holds(v, root, node, ADDITIONAL_PROPERTIES, value, fuel)
    ensures Has(Reduce(node).entries, ADDITIONAL_PROPERTIES)
    ensures Holds(v, Reduce(root), Reduce(node), ADDITIONAL_PROPERTIES, value, fuel)
    decreases fuel, node, 0
  {
    OtherKeys();
    hide KindOf, TYPE, REF, ITEMS, ADDITIONAL_PROPERTIES, PROPERTIES, PREFIX_ITEMS, ANY_OF, ONE_OF, PATTERN_PROPERTIES;
    hide Accepts;
    var own := Value(node.entries, ADDITIONAL_PROPERTIES);
    ReducedLookup(node.entries, ADDITIONAL_PROPERTIES);
    PositionOne(root, node, ADDITIONAL_PROPERTIES);
    assert !Has(node.entries, PATTERN_PROPERTIES);
    hide AllWeakenable, Position;
    if value.Obj? {
      forall name: string | Has(value.entries, name)
        ensures Declared(Reduce(node).entries, name)
                || Accepts(v, Reduce(root), Reduce(own), Value(value.entries, name), fuel)
      {
        SiblingsKept(node, name);
        if !Declared(node.entries, name) { Weakens(v, root, own, Value(value.entries, name), fuel); }
      }
    }
  }

  lemma {:induction false} RefWeakens(v: Validator, root: Json, node: Json, value: Json, fuel: nat)
    requires AllWeakenable(v, root) && Position(root, node)
    requires node.Obj? && Has(node.entries, REF) && Holds(v, root, node, REF, value, fuel)
    requires Accepts(v, root, node, value, fuel)
    ensures Has(Reduce(node).entries, REF) && Holds(v, Reduce(root), Reduce(node), REF, value, fuel)
    decreases fuel, node, 0
  {
    OtherKeys();
    hide KindOf, TYPE, REF, ITEMS, ADDITIONAL_PROPERTIES, PROPERTIES, PREFIX_ITEMS, ANY_OF, ONE_OF, PATTERN_PROPERTIES;
    hide Accepts, At, Get;
    ReducedLookup(node.entries, REF);
    var r := Value(node.entries, REF).text;
    var path := v.target(r);
    assert Lookup(node.entries, REF) == Some(Text(r));
    assert At(root, path) == Get(root, path);
    PositionsKept(root, path);
    AtIsGet(Reduce(root), path);
    Weakens(v, root, Get(root, path).value, value, fuel - 1);
  }

  /** A kept keyword that held before the reduction holds after it. */
  lemma {:induction false} KeywordWeakens(v: Validator, root: Json, node: Json, key: string, value: Json, fuel: nat)
    requires AllWeakenable(v, root) && Position(root, node)
    requires node.Obj? && Has(node.entries, key) && Kept(key) && Holds(v, root, node, key, value, fuel)
    requires Accepts(v, root, node, value, fuel)
    ensures Has(Reduce(node).entries, key) && Holds(v, Reduce(root), Reduce(node), key, value, fuel)
    decreases fuel, node, 1
  {
    OtherKeys();
    hide KindOf, TYPE, REF, ITEMS, ADDITIONAL_PROPERTIES, PROPERTIES, PREFIX_ITEMS, ANY_OF, ONE_OF, PATTERN_PROPERTIES;
    hide AllWeakenable, Position, Accepts, AcceptsEach;
    if key == REF { RefWeakens(v, root, node, value, fuel); }
    else if key == ITEMS { ItemsWeakens(v, root, node, value, fuel); }
    else if key == PREFIX_ITEMS { PrefixWeakens(v, root, node, value, fuel); }
    else if key == PROPERTIES { PropertiesWeaken(v, root, node, value, fuel); }
    else if key == ADDITIONAL_PROPERTIES { AdditionalWeakens(v, root, node, value, fuel); }
    else {
      OnlyKeys(key);
      ReducedLookup(node.entries, key);
    }
  }

  /** Everything a schema accepts at a position, its reduced form accepts there. */
  lemma {:induction false} Weakens(v: Validator, root: Json, node: Json, value: Json, fuel: nat)
    requires AllWeakenable(v, root) && Position(root, node)
    requires Accepts(v, root, node, value, fuel)
    ensures Accepts(v, Reduce(root), Reduce(node), value, fuel)
    decreases fuel, node, 2
  {
    hide KindOf, Holds, TYPE;
    if node.Obj? {
      var entries := Reduce(node).entries;
      forall key: string | Has(entries, key) ensures Holds(v, Reduce(root), Reduce(node), key, value, fuel) {
        ReducedLookup(node.entries, key);
        KeywordWeakens(v, root, node, key, value, fuel);
      }
    }
  }

  // ---- whole schemas ----

  lemma {:induction false} NoUnions(entries: seq<Entry>)
    requires !Has(entries, ANY_OF) && !Has(entries, ONE_OF)
    ensures AlternativeType(entries) == None
  {
    OtherKeys();
    if entries != [] {
      assert entries[0].0 != ANY_OF && entries[0].0 != ONE_OF;
      assert KindOf(entries[0].0) != Alternative by {
        hide TYPE, REF, ITEMS, ADDITIONAL_PROPERTIES, PROPERTIES, PREFIX_ITEMS, ANY_OF, ONE_OF, PATTERN_PROPERTIES,
          ANNOTATIONS, UNFOLDABLE;
      }
      hide KindOf, TYPE, REF, ITEMS, ADDITIONAL_PROPERTIES, PROPERTIES, PREFIX_ITEMS, ANY_OF, ONE_OF, PATTERN_PROPERTIES;
      assert forall i | 0 <= i < |entries[1..]| :: entries[1..][i] == entries[i + 1];
      NoUnions(entries[1..]);
    }
  }

  /**
   A schema without alternatives, without `patternProperties` beside `additionalProperties`, and with references to
   schema positions only, loses no accepted value.
   */
  lemma WithoutUnionsWeakens(v: Validator, root: Json, value: Json, fuel: nat)
    requires forall path: Path | At(root, path).Some? && At(root, path).value.Obj? ::
               var entries := At(root, path).value.entries;
               && !Has(entries, ANY_OF) && !Has(entries, ONE_OF)
               && !(Has(entries, ADDITIONAL_PROPERTIES) && Has(entries, PATTERN_PROPERTIES))
               && (forall r: string | Lookup(entries, REF) == Some(Text(r)) :: At(root, v.target(r)) == Get(root, v.target(r)))
    requires Accepts(v, root, root, value, fuel)
    ensures Accepts(v, Reduce(root), Reduce(root), value, fuel)
  {
    hide KindOf, Accepts, TYPE, REF, ITEMS, ADDITIONAL_PROPERTIES, PROPERTIES, PREFIX_ITEMS, ANY_OF, ONE_OF,
      PATTERN_PROPERTIES, AlternativeType, Get;
    forall path: Path | At(root, path).Some? && At(root, path).value.Obj?
      ensures Weakenable(v, root, At(root, path).value)
    {
      NoUnions(At(root, path).value.entries);
    }
    assert At(root, []) == Some(root);
    Weakens(v, root, root, value, fuel);
  }

  // ---- where values are lost ----

  function Typing(name: string): Json { Obj([(TYPE, Text(name))]) }

  /** Alternatives that name one type each. */
  function Union(types: seq<string>): Json {
    Obj([(ANY_OF, Arr(seq(|types|, i requires 0 <= i < |types| => Typing(types[i]))))])
  }

  predicate TypeName(name: string) {
    name == "null" || name == "boolean" || name == "number" || name == "integer" || name == "string" || name == "array"
    || name == "object"
  }

  /** Every value of type `narrow` has type `wide`. */
  predicate Covers(wide: string, narrow: string) {
    wide == narrow || (wide == "number" && narrow == "integer") || !TypeName(narrow)
  }

  function Witness(name: string): Json {
    if name == "boolean" then Bool(true)
    else if name == "number" then Number(0.5)
    else if name == "integer" then Number(1.0)
    else if name == "string" then Text("")
    else if name == "array" then Arr([])
    else if name == "object" then Obj([])
    else Null
  }

  lemma CoversMeans(wide: string, narrow: string)
    ensures Covers(wide, narrow) ==> forall value: Json :: NamedType(narrow, value) ==> NamedType(wide, value)
    ensures !Covers(wide, narrow) ==> NamedType(narrow, Witness(narrow)) && !NamedType(wide, Witness(narrow))
  {
  }

  lemma Single(v: Validator, root: Json, name: string, value: Json, fuel: nat)
    ensures Accepts(v, root, Typing(name), value, fuel) <==> NamedType(name, value)
  {
    ConsLookup((TYPE, Text(name)), [], TYPE);
    var node := Typing(name);
    assert node.entries == [(TYPE, Text(name))] + [];
    assert Value(node.entries, TYPE) == Text(name);
    assert Has(node.entries, TYPE);
    hide NamedType, TYPE;
    assert Holds(v, root, node, TYPE, value, fuel) <==> NamedType(name, value);
  }

  lemma {:induction false} SomeVariant(v: Validator, root: Json, types: seq<string>, n: nat, value: Json, fuel: nat)
    requires n <= |types|
    ensures Accepting(v, root, Union(types).entries[0].1, n, value, fuel) > 0
            <==> exists i | 0 <= i < n :: NamedType(types[i], value)
    decreases n
  {
    hide NamedType, TYPE, ANY_OF;
    if n > 0 {
      SomeVariant(v, root, types, n - 1, value, fuel);
      Single(v, root, types[n - 1], value, fuel);
      hide Accepts;
    }
  }

  lemma UnionAccepts(v: Validator, types: seq<string>, value: Json, fuel: nat)
    ensures Accepts(v, Union(types), Union(types), value, fuel) <==> exists i | 0 <= i < |types| :: NamedType(types[i], value)
  {
    OtherKeys();
    var node := Union(types);
    var own := node.entries[0].1;
    ConsLookup((ANY_OF, own), [], ANY_OF);
    assert node.entries == [(ANY_OF, own)] + [];
    assert Has(node.entries, ANY_OF) && Value(node.entries, ANY_OF) == own;
    SomeVariant(v, node, types, |types|, value, fuel);
    hide NamedType, KindOf, TYPE, REF, ITEMS, ADDITIONAL_PROPERTIES, PROPERTIES, PREFIX_ITEMS, ANY_OF, ONE_OF, PATTERN_PROPERTIES;
    assert Holds(v, node, node, ANY_OF, value, fuel) <==> Accepting(v, node, own, |types|, value, fuel) > 0;
  }

  lemma UnionReduces(types: seq<string>)
    requires types != []
    ensures Reduce(Union(types)) == Typing(types[0])
  {
    OtherKeys();
    hide KindOf, TYPE, ANY_OF;
    var entries := Union(types).entries;
    var variants := entries[0].1.items;
    ConsLookup((TYPE, Text(types[0])), [], TYPE);
    assert variants[0].entries == [(TYPE, Text(types[0]))] + [];
    assert TypeOf(variants[0]) == Some(types[0]);
    assert AlternativeType(entries) == Some(types[0]);
    assert ReduceFields(entries)[1..] == [];
    assert Filter(ReduceFields(entries)) == [];
  }

  /** Alternatives between types lose no value exactly when the first type covers every other. */
  lemma UnionNarrows(v: Validator, types: seq<string>, fuel: nat)
    requires types != []
    ensures (forall value: Json | Accepts(v, Union(types), Union(types), value, fuel) ::
               Accepts(v, Reduce(Union(types)), Reduce(Union(types)), value, fuel))
            <==> forall i | 0 <= i < |types| :: Covers(types[0], types[i])
  {
    hide NamedType, TypeName, Accepts, Union, Typing, Witness, Covers;
    UnionReduces(types);
    var root := Typing(types[0]);
    forall value: Json
      ensures Accepts(v, root, root, value, fuel) <==> NamedType(types[0], value)
      ensures Accepts(v, Union(types), Union(types), value, fuel)
              <==> exists i | 0 <= i < |types| :: NamedType(types[i], value)
    {
      Single(v, root, types[0], value, fuel);
      UnionAccepts(v, types, value, fuel);
    }
    forall i | 0 <= i < |types|
      ensures Covers(types[0], types[i]) ==> forall value: Json :: NamedType(types[i], value) ==> NamedType(types[0], value)
      ensures !Covers(types[0], types[i])
              ==> NamedType(types[i], Witness(types[i])) && !NamedType(types[0], Witness(types[i]))
    {
      CoversMeans(types[0], types[i]);
    }
    if i :| 0 <= i < |types| && !Covers(types[0], types[i]) {
      assert Accepts(v, Union(types), Union(types), Witness(types[i]), fuel);
      assert !Accepts(v, root, root, Witness(types[i]), fuel);
    }
  }

  /** Names that match `pattern` are allowed and no others. */
  function OnlyPattern(pattern: string): Json {
    Obj([(PATTERN_PROPERTIES, Obj([(pattern, Bool(true))])), (ADDITIONAL_PROPERTIES, Bool(false))])
  }

  const CLOSED := Obj([(ADDITIONAL_PROPERTIES, Bool(false))])

  lemma OnlyPatternLookup(pattern: string, key: string)
    ensures Lookup(OnlyPattern(pattern).entries, key)
            == if key == PATTERN_PROPERTIES then Some(Obj([(pattern, Bool(true))]))
               else if key == ADDITIONAL_PROPERTIES then Some(Bool(false)) else None
    ensures Lookup([(pattern, Bool(true))], key) == if key == pattern then Some(Bool(true)) else None
  {
    hide KindOf, ADDITIONAL_PROPERTIES, PATTERN_PROPERTIES;
    var first, last: Entry := (PATTERN_PROPERTIES, Obj([(pattern, Bool(true))])), (ADDITIONAL_PROPERTIES, Bool(false));
    ConsLookup(first, [last], key);
    ConsLookup(last, [], key);
    ConsLookup((pattern, Bool(true)), [], key);
    assert OnlyPattern(pattern).entries == [first] + [last];
    assert [last] + [] == [last] && [(pattern, Bool(true))] + [] == [(pattern, Bool(true))];
  }

  lemma OnlyPatternReduces(pattern: string)
    ensures Reduce(OnlyPattern(pattern)) == CLOSED
  {
    OtherKeys();
    hide KindOf, TYPE, ADDITIONAL_PROPERTIES, PATTERN_PROPERTIES;
    var entries := OnlyPattern(pattern).entries;
    var fields := ReduceFields(entries);
    assert entries[1..][1..] == [] && fields[1..][1..] == [];
    assert AlternativeType(entries[1..][1..]) == None;
    assert AlternativeType(entries[1..]) == None;
    assert AlternativeType(entries) == None;
    assert Reduce(Bool(false)) == Bool(false);
    assert ReduceValue(ADDITIONAL_PROPERTIES, Bool(false)) == Bool(false);
    assert fields[1] == (ADDITIONAL_PROPERTIES, Bool(false));
    assert Filter(fields[1..]) == [fields[1]];
    assert Filter(fields) == [fields[1]];
  }

  lemma ClosedRejects(v: Validator, name: string, fuel: nat)
    ensures !Accepts(v, CLOSED, CLOSED, Obj([(name, Null)]), fuel)
  {
    OtherKeys();
    var value := Obj([(name, Null)]);
    assert value.entries[0].0 == name;
    ConsLookup((ADDITIONAL_PROPERTIES, Bool(false)), [], ADDITIONAL_PROPERTIES);
    ConsLookup((ADDITIONAL_PROPERTIES, Bool(false)), [], PROPERTIES);
    ConsLookup((ADDITIONAL_PROPERTIES, Bool(false)), [], PATTERN_PROPERTIES);
    assert CLOSED.entries == [(ADDITIONAL_PROPERTIES, Bool(false))] + [];
    hide KindOf, TYPE, REF, ITEMS, ADDITIONAL_PROPERTIES, PROPERTIES, PREFIX_ITEMS, ANY_OF, ONE_OF, PATTERN_PROPERTIES;
    assert !Declared(CLOSED.entries, name) && !Matched(v, CLOSED.entries, name);
    assert !Accepts(v, CLOSED, Bool(false), Value(value.entries, name), fuel);
    hide CLOSED;
    assert !Holds(v, CLOSED, CLOSED, ADDITIONAL_PROPERTIES, value, fuel);
  }

  lemma OnlyPatternAccepts(v: Validator, pattern: string, name: string, fuel: nat)
    requires v.matches(pattern, name)
    ensures Accepts(v, OnlyPattern(pattern), OnlyPattern(pattern), Obj([(name, Null)]), fuel)
  {
    OtherKeys();
    hide KindOf, TYPE, REF, ITEMS, ADDITIONAL_PROPERTIES, PROPERTIES, PREFIX_ITEMS, ANY_OF, ONE_OF, PATTERN_PROPERTIES;
    var schema, value := OnlyPattern(pattern), Obj([(name, Null)]);
    OnlyPatternLookup(pattern, pattern);
    OnlyPatternLookup(pattern, ADDITIONAL_PROPERTIES);
    OnlyPatternLookup(pattern, PATTERN_PROPERTIES);
    forall key: string | Has(schema.entries, key)
      ensures key == ADDITIONAL_PROPERTIES || key == PATTERN_PROPERTIES
    {
      OnlyPatternLookup(pattern, key);
    }
    forall p: string | Has([(pattern, Bool(true))], p) ensures p == pattern {
      OnlyPatternLookup(pattern, p);
    }
    forall other: string | Has(value.entries, other) ensures other == name {
      ConsLookup((name, Null), [], other);
      assert value.entries == [(name, Null)] + [];
    }
    hide OnlyPattern;
    assert Matched(v, schema.entries, name);
    assert Holds(v, schema, schema, ADDITIONAL_PROPERTIES, value, fuel);
    assert Holds(v, schema, schema, PATTERN_PROPERTIES, value, fuel);
  }

  /** A closed object with patterns loses a value exactly when some name matches. */
  lemma PatternNarrows(v: Validator, pattern: string, fuel: nat)
    ensures (exists value: Json :: Accepts(v, OnlyPattern(pattern), OnlyPattern(pattern), value, fuel)
                                   && !Accepts(v, Reduce(OnlyPattern(pattern)), Reduce(OnlyPattern(pattern)), value, fuel))
            <==> exists name: string :: v.matches(pattern, name)
  {
    OnlyPatternReduces(pattern);
    hide OnlyPattern, Accepts, CLOSED, Reduce;
    if name: string :| v.matches(pattern, name) {
      OnlyPatternAccepts(v, pattern, name, fuel);
      ClosedRejects(v, name, fuel);
      assert Reduce(OnlyPattern(pattern)) == CLOSED;
    } else {
      forall value: Json | Accepts(v, OnlyPattern(pattern), OnlyPattern(pattern), value, fuel)
        ensures Accepts(v, CLOSED, CLOSED, value, fuel)
      {
        UnmatchedKeeps(v, pattern, value, fuel);
      }
    }
  }

  lemma UnmatchedKeeps(v: Validator, pattern: string, value: Json, fuel: nat)
    requires forall name: string :: !v.matches(pattern, name)
    requires Accepts(v, OnlyPattern(pattern), OnlyPattern(pattern), value, fuel)
    ensures Accepts(v, CLOSED, CLOSED, value, fuel)
  {
    OtherKeys();
    hide KindOf, TYPE, REF, ITEMS, ADDITIONAL_PROPERTIES, PROPERTIES, PREFIX_ITEMS, ANY_OF, ONE_OF, PATTERN_PROPERTIES;
    var schema := OnlyPattern(pattern);
    OnlyPatternLookup(pattern, ADDITIONAL_PROPERTIES);
    OnlyPatternLookup(pattern, PATTERN_PROPERTIES);
    OnlyPatternLookup(pattern, PROPERTIES);
    assert Has(schema.entries, ADDITIONAL_PROPERTIES);
    assert Holds(v, schema, schema, ADDITIONAL_PROPERTIES, value, fuel);
    hide OnlyPattern;
    if value.Obj? {
      forall name: string | Has(value.entries, name) ensures false {
        assert !Declared(schema.entries, name) && !Matched(v, schema.entries, name);
        assert !Accepts(v, schema, Bool(false), Value(value.entries, name), fuel);
      }
    }
    assert CLOSED.entries[0].0 == ADDITIONAL_PROPERTIES && Value(CLOSED.entries, ADDITIONAL_PROPERTIES) == Bool(false);
    forall key: string | Has(CLOSED.entries, key) ensures Holds(v, CLOSED, CLOSED, key, value, fuel) {
      assert key == ADDITIONAL_PROPERTIES;
    }
  }

  function Referring(reference: string, key: string): Json {
    Obj([(REF, Text(reference)), (key, Arr([Bool(true)]))])
  }

  lemma ReferringLookup(reference: string, key: string, other: string)
    requires KindOf(key) == Dropped
    ensures Referring(reference, key).Obj? && Reduce(Referring(reference, key)).Obj?
    ensures var schema := Referring(reference, key);
            && Lookup(schema.entries, other)
               == (if other == REF then Some(Text(reference)) else if other == key then Some(Arr([Bool(true)])) else None)
            && (other == REF ==> Lookup(Reduce(schema).entries, other) == Some(Text(reference)))
            && (other == key ==> Lookup(Reduce(schema).entries, other) == None)
  {
    OtherKeys();
    hide KindOf, TYPE, REF, AlternativeType;
    var first, last: Entry := (REF, Text(reference)), (key, Arr([Bool(true)]));
    var schema := Referring(reference, key);
    assert schema.entries == [first] + [last] && [last] == [last] + [];
    ConsLookup(first, [last], other);
    ConsLookup(last, [], other);
    ReducedLookup(schema.entries, other);
  }

  lemma ReferringGet(v: Validator, reference: string, key: string)
    requires KindOf(key) == Dropped && v.target(reference) == [Key(key), Index(0)]
    ensures var schema := Referring(reference, key);
            Get(schema, v.target(reference)) == Some(Bool(true)) && Get(Reduce(schema), v.target(reference)) == None
  {
    OtherKeys();
    var schema := Referring(reference, key);
    ReferringLookup(reference, key, key);
    var path := v.target(reference);
    hide KindOf, REF, Referring, Reduce;
    assert path[1..] == [Index(0)] && path[1..][1..] == [];
    assert Get(Arr([Bool(true)]), path[1..]) == Get(Bool(true), path[1..][1..]);
    assert Value(schema.entries, key) == Arr([Bool(true)]);
  }

  /** Its reduced form accepts nothing, so it loses just what the dropped keyword lets through. */
  lemma ReferringLoses(v: Validator, reference: string, key: string, value: Json, fuel: nat)
    requires KindOf(key) == Dropped && key != PATTERN_PROPERTIES
    requires v.target(reference) == [Key(key), Index(0)]
    ensures var schema := Referring(reference, key);
            && !Accepts(v, Reduce(schema), Reduce(schema), value, fuel)
            && (Accepts(v, schema, schema, value, fuel) <==> fuel > 0 && v.dropped(schema, schema, key, value))
  {
    OtherKeys();
    hide KindOf, TYPE, REF, ITEMS, ADDITIONAL_PROPERTIES, PROPERTIES, PREFIX_ITEMS, ANY_OF, ONE_OF, PATTERN_PROPERTIES;
    hide Get, Referring, Reduce;
    var schema := Referring(reference, key);
    ReferringGet(v, reference, key);
    ReferringLookup(reference, key, REF);
    ReferringLookup(reference, key, key);
    assert Holds(v, schema, schema, key, value, fuel) <==> v.dropped(schema, schema, key, value);
    assert fuel > 0 ==> Accepts(v, schema, Bool(true), value, fuel - 1);
    assert Holds(v, schema, schema, REF, value, fuel) <==> fuel > 0;
    forall other: string | Has(schema.entries, other) ensures other == REF || other == key {
      ReferringLookup(reference, key, other);
    }
    assert !Holds(v, Reduce(schema), Reduce(schema), REF, value, fuel);
  }

  /** The object's reference leads through a keyword that reduction takes out. */
  ghost predicate Dangles(v: Validator, root: Json, node: Json) {
    node.Obj? && exists r: string :: Lookup(node.entries, REF) == Some(Text(r)) && Lost(root, v.target(r))
  }

  /** A reference into a keyword that reduction takes out leaves a schema that accepts nothing. */
  lemma DanglingReference(v: Validator, root: Json, node: Json)
    requires Dangles(v, root, node)
    ensures Barren(v, Reduce(root), Reduce(node))
  {
    OtherKeys();
    hide KindOf, TYPE, REF, ITEMS, ADDITIONAL_PROPERTIES, PROPERTIES, PREFIX_ITEMS, ANY_OF, ONE_OF, PATTERN_PROPERTIES;
    hide Get, Lost, AlternativeType, Filter, ReduceFields;
    var r: string :| Lookup(node.entries, REF) == Some(Text(r)) && Lost(root, v.target(r));
    OutOfReach(root, v.target(r));
    ReducedLookup(node.entries, REF);
    forall value: Json, fuel: nat ensures !Accepts(v, Reduce(root), Reduce(node), value, fuel) {
      assert !Holds(v, Reduce(root), Reduce(node), REF, value, fuel);
    }
  }

  /** Every value accepted at a schema position is accepted there after the reduction. */
  ghost predicate LosesNothing(v: Validator, root: Json) {
    forall node: Json, value: Json, fuel: nat | Position(root, node) && Accepts(v, root, node, value, fuel) ::
      Accepts(v, Reduce(root), Reduce(node), value, fuel)
  }

  /** Reduction adds no type and drops no patterns; references lead to a schema, nowhere or through a dropped keyword. */
  ghost predicate OnlyReferencesLost(v: Validator, root: Json) {
    forall path: Path | At(root, path).Some? && At(root, path).value.Obj? ::
      var entries := At(root, path).value.entries;
      && Plainly(entries)
      && (forall r: string | Lookup(entries, REF) == Some(Text(r)) ::
            At(root, v.target(r)) == Get(root, v.target(r)) || Lost(root, v.target(r)))
  }

  lemma BarrenDanglersKeep(v: Validator, root: Json)
    requires OnlyReferencesLost(v, root)
    requires forall node: Json | Position(root, node) && Dangles(v, root, node) :: Barren(v, root, node)
    ensures LosesNothing(v, root)
  {
    hide KindOf, Accepts, REF, Get, Lost, Plainly, Reduce, Barren;
    assert AllWeakenable(v, root) by {
      forall path: Path | At(root, path).Some? && At(root, path).value.Obj?
        ensures Weakenable(v, root, At(root, path).value)
      {
        assert Position(root, At(root, path).value);
      }
    }
    hide AllWeakenable, OnlyReferencesLost, Position, Dangles;
    forall node: Json, value: Json, fuel: nat | Position(root, node) && Accepts(v, root, node, value, fuel)
      ensures Accepts(v, Reduce(root), Reduce(node), value, fuel)
    {
      Weakens(v, root, node, value, fuel);
    }
  }

  /** Where only references can be lost, values are lost exactly when a schema with such a reference accepts one. */
  lemma ReferencesNarrow(v: Validator, root: Json)
    requires OnlyReferencesLost(v, root)
    ensures LosesNothing(v, root)
            <==> forall node: Json | Position(root, node) && Dangles(v, root, node) :: Barren(v, root, node)
  {
    hide OnlyReferencesLost, Position, Dangles, Reduce, Accepts;
    if forall node: Json | Position(root, node) && Dangles(v, root, node) :: Barren(v, root, node) {
      BarrenDanglersKeep(v, root);
    } else {
      var node: Json :| Position(root, node) && Dangles(v, root, node) && !Barren(v, root, node);
      DanglingReference(v, root, node);
    }
  }
}
