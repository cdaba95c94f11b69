/** The secrets a configuration names, and the file that holds them. */
module KeyJar {
  import opened Options
  import opened ConfigDiff

  // ---- which entries a configuration names ----

  /** `{ "jar": "<name>" }` and nothing else. */
  predicate IsRef(j: Json) {
    j.Obj? && j.fields.Keys == {"jar"} && j.fields["jar"].Str?
  }

  function Names(j: Json): set<string> {
    match j
    case Arr(items) =>
      var below := seq(|items|, i requires 0 <= i < |items| => Names(items[i]));
      set i, n | 0 <= i < |below| && n in below[i] :: n
    case Obj(fields) =>
      if IsRef(j) then {fields["jar"].s}
      else
        var below := map k | k in fields :: Names(fields[k]);
        set k, n | k in below && n in below[k] :: n
    case _ => {}
  }

  datatype Step = Member(key: string) | Item(index: nat)

  function At(j: Json, location: seq<Step>): Option<Json>
    decreases |location|
  {
    if location == [] then Some(j)
    else
      match location[0]
      case Member(k) => if j.Obj? && k in j.fields then At(j.fields[k], location[1..]) else None
      case Item(i) => if j.Arr? && i < |j.items| then At(j.items[i], location[1..]) else None
  }

  ghost predicate RefAt(j: Json, location: seq<Step>, n: string) {
    At(j, location).Some? && IsRef(At(j, location).value) && At(j, location).value.fields["jar"].s == n
  }

  lemma NamesOfItem(items: seq<Json>, n: string)
    ensures n in Names(Arr(items)) <==> exists i :: 0 <= i < |items| && n in Names(items[i])
  {
    var below := seq(|items|, i requires 0 <= i < |items| => Names(items[i]));
    assert Names(Arr(items)) == set i, n | 0 <= i < |below| && n in below[i] :: n;
    assert forall i | 0 <= i < |items| :: below[i] == Names(items[i]);
  }

  lemma NamesOfMember(fields: map<string, Json>, n: string)
    requires !IsRef(Obj(fields))
    ensures n in Names(Obj(fields)) <==> exists k :: k in fields && n in Names(fields[k])
  {
    var below := map k | k in fields :: Names(fields[k]);
    assert Names(Obj(fields)) == set k, n | k in below && n in below[k] :: n;
    hide Names;
    assert forall k | k in below :: below[k] == Names(fields[k]);
  }

  lemma SingleMember(k: string, v: Json)
    requires !(k == "jar" && v.Str?)
    ensures Names(Obj(map[k := v])) == Names(v)
  {
    var fields := map[k := v];
    assert !IsRef(Obj(fields)) by { assert k in fields.Keys; }
    forall n ensures n in Names(Obj(fields)) <==> n in Names(v) {
      NamesOfMember(fields, n);
      hide Names;
      assert k in fields && fields[k] == v;
    }
  }

  /** A name is found exactly when a reference to it stands somewhere in the configuration. */
  lemma {:induction false} NamesAreRefs(j: Json, n: string)
    ensures n in Names(j) <==> exists location :: RefAt(j, location, n)
  {
    if n in Names(j) {
      NameHasRef(j, n);
    }
    if exists location :: RefAt(j, location, n) {
      var location :| RefAt(j, location, n);
      RefHasName(j, location, n);
    }
  }

  lemma {:induction false} NameHasRef(j: Json, n: string)
    requires n in Names(j)
    ensures exists location :: RefAt(j, location, n)
    decreases j
  {
    match j
    case Arr(items) =>
      NamesOfItem(items, n);
      var i :| 0 <= i < |items| && n in Names(items[i]);
      NameHasRef(items[i], n);
      var rest :| RefAt(items[i], rest, n);
      Deeper(j, Item(i), items[i], rest, n);
    case Obj(fields) =>
      if IsRef(j) {
        assert RefAt(j, [], n);
      } else {
        NamesOfMember(fields, n);
        var k :| k in fields && n in Names(fields[k]);
        NameHasRef(fields[k], n);
        var rest :| RefAt(fields[k], rest, n);
        Deeper(j, Member(k), fields[k], rest, n);
      }
    case _ =>
  }

  lemma Deeper(j: Json, step: Step, child: Json, rest: seq<Step>, n: string)
    requires At(j, [step]) == Some(child) && RefAt(child, rest, n)
    ensures RefAt(j, [step] + rest, n)
  {
    assert ([step] + rest)[1..] == rest && [step][1..] == [];
  }

  lemma {:induction false} RefHasName(j: Json, location: seq<Step>, n: string)
    requires RefAt(j, location, n)
    ensures n in Names(j)
    decreases |location|
  {
    if location != [] {
      match location[0]
      case Member(k) =>
        RefHasName(j.fields[k], location[1..], n);
        assert !IsRef(j);
        NamesOfMember(j.fields, n);
      case Item(i) =>
        RefHasName(j.items[i], location[1..], n);
        NamesOfItem(j.items, n);
    }
  }

  /** The set one walk over a configuration fills. */
  class NameSet {
    var names: set<string>

    constructor ()
      ensures names == {}
    {
      names := {};
    }

    method Collect(value: Json)
      modifies this
      ensures names == old(names) + Names(value)
      decreases value, 1
    {
      match value
      case Arr(items) => CollectItems(items);
      case Obj(fields) =>
        if IsRef(value) {
          names := names + {fields["jar"].s};
        } else {
          CollectMembers(fields);
        }
      case _ =>
    }

    method CollectItems(items: seq<Json>)
      modifies this
      ensures names == old(names) + Names(Arr(items))
      decreases Arr(items), 0
    {
      hide Names, MemberNames, ItemNames;
      ItemNamesNone();
      assert items[..0] == [];
      for i := 0 to |items|
        invariant names == old(names) + ItemNames(items[..i])
      {
        assert items[i] < Arr(items);
        Collect(items[i]);
        ItemNamesMore(items, i);
      }
      assert items[..|items|] == items;
      ItemNamesAll(items);
    }

    method CollectMembers(fields: map<string, Json>)
      requires !IsRef(Obj(fields))
      modifies this
      ensures names == old(names) + Names(Obj(fields))
      decreases Obj(fields), 0
    {
      hide Names, MemberNames, ItemNames, IsRef;
      MemberNamesNone(fields);
      var keys := fields.Keys;
      ghost var done: set<string> := {};
      while keys != {}
        invariant done !! keys && done + keys == fields.Keys
        invariant names == old(names) + MemberNames(fields, done)
        decreases |keys|
      {
        var k :| k in keys;
        assert k in fields && fields[k] < Obj(fields);
        Collect(fields[k]);
        MemberNamesMore(fields, done, k);
        keys := keys - {k};
        done := done + {k};
      }
      assert done == fields.Keys;
      MemberNamesAll(fields);
    }
  }

  function ItemNames(items: seq<Json>): set<string> { set i, n | 0 <= i < |items| && n in Names(items[i]) :: n }

  function MemberNames(fields: map<string, Json>, keys: set<string>): set<string> {
    set k, n | k in keys && k in fields && n in Names(fields[k]) :: n
  }

  lemma ItemNamesNone()
    ensures ItemNames([]) == {}
  {
  }

  lemma MemberNamesNone(fields: map<string, Json>)
    ensures MemberNames(fields, {}) == {}
  {
  }

  lemma ItemNamesMore(items: seq<Json>, i: nat)
    requires i < |items|
    ensures ItemNames(items[..i + 1]) == ItemNames(items[..i]) + Names(items[i])
  {
    hide Names;
    assert items[..i + 1] == items[..i] + [items[i]];
    assert items[..i + 1][i] == items[i];
  }

  lemma ItemNamesAll(items: seq<Json>)
    ensures ItemNames(items) == Names(Arr(items))
  {
    forall n ensures n in ItemNames(items) <==> n in Names(Arr(items)) { NamesOfItem(items, n); }
  }

  lemma MemberNamesMore(fields: map<string, Json>, keys: set<string>, k: string)
    requires k in fields
    ensures MemberNames(fields, keys + {k}) == MemberNames(fields, keys) + Names(fields[k])
  {
    hide Names;
  }

  lemma MemberNamesAll(fields: map<string, Json>)
    requires !IsRef(Obj(fields))
    ensures MemberNames(fields, fields.Keys) == Names(Obj(fields))
  {
    forall n ensures n in MemberNames(fields, fields.Keys) <==> n in Names(Obj(fields)) { NamesOfMember(fields, n); }
  }
}
