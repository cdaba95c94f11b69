/** Which part of a changed configuration file the running process takes over. */
module ConfigDiff {
  import opened Options
  import opened Sets

  datatype Json =
    | Null
    | Bool(b: bool)
    | Num(n: int)
    | Str(s: string)
    | Arr(items: seq<Json>)
    | Obj(fields: map<string, Json>)

  datatype ChangeKind = Hot | Restart | OutsideServe

  /** A path as the report names it: object keys, a chat by id, a model by id. */
  datatype Segment = Key(key: string) | ChatId(id: int) | ModelId(model: string)
  type Path = seq<Segment>

  /** The hot whitelist, by section; the empty path is the section itself. */
  const HOT_PATHS: map<string, set<Path>> := map[
    "developer" := {[], [Key("record_model_payloads")]},
    "agent" := {
      [Key("provider")],
      [Key("model")],
      [Key("system_prompt_file")],
      [Key("thinking_level")],
      [Key("context_stop_ratio")],
      [Key("send_max_text_length")],
      [Key("send_disallow_blank_lines")],
      [Key("send_nudge_enabled")],
      [Key("send_barrier_enabled")],
      [Key("daily_budget"), Key("max_tokens")],
      [Key("max_concurrency")],
      [Key("history_messages")],
      [Key("context"), Key("max_wall_clock_seconds")],
      [Key("context"), Key("idle_grace_seconds")]
    },
    "vision" := {[Key("provider")], [Key("model")], [Key("max_output_tokens")]},
    "image" := {[]}
  ]

  /** What `serve` reads only through backups. */
  const OUTSIDE_SERVE_PATHS: map<string, set<Path>> := map[
    "paths" := {[Key("backups")]},
    "retention" := {[Key("online_days")], [Key("backup_copies")]}
  ]

  predicate Listed(list: map<string, set<Path>>, path: Path) {
    path != [] && path[0].Key? && path[0].key in list && path[1..] in list[path[0].key]
  }

  /** A hot prefix covers only what lies below it. */
  predicate UnderHotPrefix(path: Path) {
    || (|path| > 2 && path[0] == Key("agent") && path[1] == Key("rate_limits"))
    || (|path| > 1 && (path[0] == Key("providers") || path[0] == Key("image")))
  }

  function Classify(path: Path): ChangeKind {
    if Listed(OUTSIDE_SERVE_PATHS, path) then OutsideServe
    else if Listed(HOT_PATHS, path) || UnderHotPrefix(path) then Hot
    else Restart
  }

  const CHAT_HOT_KEYS := {"instructions_file", "provider", "model", "thinking_level"}

  /** The chat fields a reload applies although no whitelist entry names them. */
  predicate ChatHot(path: Path) {
    |path| == 4 && path[0] == Key("telegram") && path[1] == Key("chats") && path[2].ChatId?
    && path[3].Key? && path[3].key in CHAT_HOT_KEYS
  }

  function Kind(path: Path): ChangeKind { if ChatHot(path) then Hot else Classify(path) }

  // ---- equality ----

  /** Structural equality that ignores object key order. */
  function DeepEqual(x: Json, y: Json): bool {
    match (x, y)
    case (Arr(xs), Arr(ys)) => |xs| == |ys| && forall i | 0 <= i < |xs| :: DeepEqual(xs[i], ys[i])
    case (Obj(fs), Obj(gs)) => |fs.Keys| == |gs.Keys| && forall k | k in fs.Keys :: k in gs && DeepEqual(fs[k], gs[k])
    case (Null, Null) => true
    case (Bool(b), Bool(c)) => b == c
    case (Num(m), Num(n)) => m == n
    case (Str(s), Str(t)) => s == t
    case _ => false
  }

  lemma {:induction false} DeepEqualMeans(x: Json, y: Json)
    ensures DeepEqual(x, y) <==> x == y
  {
    match (x, y)
    case (Arr(xs), Arr(ys)) =>
      forall i | 0 <= i < |xs| && |xs| == |ys| ensures DeepEqual(xs[i], ys[i]) <==> xs[i] == ys[i] {
        DeepEqualMeans(xs[i], ys[i]);
      }
      if DeepEqual(x, y) { assert xs == ys; }
    case (Obj(fs), Obj(gs)) =>
      forall k | k in fs.Keys && k in gs.Keys ensures DeepEqual(fs[k], gs[k]) <==> fs[k] == gs[k] {
        DeepEqualMeans(fs[k], gs[k]);
      }
      if DeepEqual(x, y) {
        SubsetSize(fs.Keys, gs.Keys);
        assert fs == gs;
      }
    case _ =>
  }

  // ---- one field ----

  function Field(fields: map<string, Json>, key: string): Option<Json> {
    if key in fields then Some(fields[key]) else None
  }

  /** The value a field takes: objects are merged, anything else is the file's unless it waits for a restart. */
  function Merge(active: Json, file: Json, path: Path): Json
    decreases active
  {
    if active.Obj? && file.Obj? then
      Obj(map k | k in active.fields.Keys + file.fields.Keys
                  && (if k in active.fields && k in file.fields then true
                      else (k in active.fields) == (Kind(path + [Key(k)]) == Restart)) ::
            if k in active.fields && k in file.fields then Merge(active.fields[k], file.fields[k], path + [Key(k)])
            else if k in active.fields then active.fields[k] else file.fields[k])
    else if active == file then file
    else if Kind(path) == Restart then active else file
  }

  /** The same choice for a field either side may lack. */
  function Pick(active: Option<Json>, file: Option<Json>, path: Path): Option<Json> {
    if active.Some? && file.Some? then Some(Merge(active.value, file.value, path))
    else if Kind(path) == Restart then active else file
  }

  /** The paths reported as changed between two values. */
  function Changed(active: Json, file: Json, path: Path): set<Path>
    decreases active
  {
    if active.Obj? && file.Obj? then
      var below := map k | k in active.fields.Keys + file.fields.Keys ::
        if k in active.fields && k in file.fields
        then Changed(active.fields[k], file.fields[k], path + [Key(k)]) else {path + [Key(k)]};
      set k, p | k in below && p in below[k] :: p
    else if active == file then {} else {path}
  }

  function ChangedField(active: Option<Json>, file: Option<Json>, path: Path): set<Path> {
    if active.Some? && file.Some? then Changed(active.value, file.value, path)
    else if active.None? && file.None? then {} else {path}
  }

  lemma MergeField(active: Json, file: Json, path: Path, k: string)
    requires active.Obj? && file.Obj?
    ensures Merge(active, file, path).Obj?
    ensures Field(Merge(active, file, path).fields, k)
            == Pick(Field(active.fields, k), Field(file.fields, k), path + [Key(k)])
  {
  }

  lemma ChangedMeans(active: Json, file: Json, path: Path, p: Path)
    requires active.Obj? && file.Obj?
    ensures p in Changed(active, file, path)
            <==> exists k :: k in active.fields.Keys + file.fields.Keys
                             && p in ChangedField(Field(active.fields, k), Field(file.fields, k), path + [Key(k)])
  {
    var below := map k | k in active.fields.Keys + file.fields.Keys ::
      if k in active.fields && k in file.fields
      then Changed(active.fields[k], file.fields[k], path + [Key(k)]) else {path + [Key(k)]};
    assert Changed(active, file, path) == set k, p | k in below && p in below[k] :: p;
    hide Changed;
    assert forall k | k in below :: below[k] == ChangedField(Field(active.fields, k), Field(file.fields, k), path + [Key(k)]);
  }

  function Restarts(paths: set<Path>): set<Path> { set p | p in paths && Kind(p) == Restart }

  // ---- what is selected ----

  /** The value at the end of a chain of object keys. */
  function At(j: Option<Json>, keys: seq<string>): Option<Json>
    decreases |keys|
  {
    if keys == [] then j
    else if j.Some? && j.value.Obj? then At(Field(j.value.fields, keys[0]), keys[1..]) else None
  }

  function Extend(path: Path, keys: seq<string>): Path {
    path + seq(|keys|, i requires 0 <= i < |keys| => Key(keys[i]))
  }

  /** Both sides are objects all the way down to `keys`, where at least one is not. */
  predicate Diverges(active: Option<Json>, file: Option<Json>, keys: seq<string>)
    decreases |keys|
  {
    if keys == [] then active.None? || file.None? || !active.value.Obj? || !file.value.Obj?
    else active.Some? && file.Some? && active.value.Obj? && file.value.Obj?
         && Diverges(Field(active.value.fields, keys[0]), Field(file.value.fields, keys[0]), keys[1..])
  }

  /** Wherever the two sides part, the candidate has the active value on a restart path and the file's on any other. */
  lemma {:induction false} Selects(active: Option<Json>, file: Option<Json>, path: Path, keys: seq<string>)
    requires Diverges(active, file, keys)
    ensures At(Pick(active, file, path), keys)
            == if Kind(Extend(path, keys)) == Restart then At(active, keys) else At(file, keys)
    decreases |keys|
  {
    if keys == [] {
      assert Extend(path, keys) == path;
    } else {
      hide Kind, Merge;
      MergeField(active.value, file.value, path, keys[0]);
      Selects(Field(active.value.fields, keys[0]), Field(file.value.fields, keys[0]), path + [Key(keys[0])], keys[1..]);
      assert Extend(path + [Key(keys[0])], keys[1..]) == Extend(path, keys);
    }
  }

  // ---- merging twice ----

  lemma {:induction false} MergeSame(x: Json, path: Path)
    ensures Merge(x, x, path) == x && Changed(x, x, path) == {}
    decreases x
  {
    hide Kind;
    if x.Obj? {
      MergeField(x, x, path, "");
      forall k ensures Field(Merge(x, x, path).fields, k) == Field(x.fields, k)
      ensures ChangedField(Field(x.fields, k), Field(x.fields, k), path + [Key(k)]) == {}
      {
        MergeField(x, x, path, k);
        if k in x.fields { MergeSame(x.fields[k], path + [Key(k)]); }
        hide Merge, Changed;
      }
      forall p ensures p !in Changed(x, x, path) {
        hide Merge, Changed;
        ChangedMeans(x, x, path, p);
      }
      hide Merge;
      SameFields(Merge(x, x, path).fields, x.fields);
    }
  }

  lemma {:induction false} MergeTwice(active: Json, file: Json, path: Path)
    ensures Merge(Merge(active, file, path), file, path) == Merge(active, file, path)
    decreases active, 1
  {
    hide Kind;
    if active.Obj? && file.Obj? {
      hide Merge;
      var once := Merge(active, file, path);
      MergeField(active, file, path, "");
      var twice := Merge(once, file, path);
      MergeField(once, file, path, "");
      forall k ensures Field(twice.fields, k) == Field(once.fields, k) {
        MergeTwiceField(active, file, path, k);
      }
      SameFields(twice.fields, once.fields);
    } else {
      assert Merge(active, file, path) == active || Merge(active, file, path) == file;
      MergeSame(file, path);
    }
  }

  lemma {:induction false} MergeTwiceField(active: Json, file: Json, path: Path, k: string)
    requires active.Obj? && file.Obj? && Merge(active, file, path).Obj?
    ensures Merge(Merge(active, file, path), file, path).Obj?
    ensures Field(Merge(Merge(active, file, path), file, path).fields, k) == Field(Merge(active, file, path).fields, k)
    decreases active, 0
  {
    hide Kind, Merge;
    MergeField(active, file, path, k);
    MergeField(Merge(active, file, path), file, path, k);
    if k in active.fields && k in file.fields {
      MergeTwice(active.fields[k], file.fields[k], path + [Key(k)]);
    } else if k in file.fields {
      MergeSame(file.fields[k], path + [Key(k)]);
    }
  }

  lemma SameFields(a: map<string, Json>, b: map<string, Json>)
    requires forall k :: Field(a, k) == Field(b, k)
    ensures a == b
  {
    forall k ensures k in a <==> k in b {
      assert Field(a, k) == Field(b, k);
    }
    forall k | k in a ensures a[k] == b[k] {
      assert Field(a, k) == Field(b, k);
    }
  }

  /** Comparing the candidate with the same file again reports exactly what waits for a restart. */
  lemma {:induction false} ChangedAgain(active: Json, file: Json, path: Path)
    ensures Changed(Merge(active, file, path), file, path) == Restarts(Changed(active, file, path))
    decreases active, 1
  {
    hide Kind;
    if active.Obj? && file.Obj? {
      hide Merge, Changed, ChangedField;
      var once := Merge(active, file, path);
      MergeField(active, file, path, "");
      forall k
        ensures ChangedField(Field(once.fields, k), Field(file.fields, k), path + [Key(k)])
                == Restarts(ChangedField(Field(active.fields, k), Field(file.fields, k), path + [Key(k)]))
      {
        ChangedAgainField(active, file, path, k);
      }
      forall p ensures p in Changed(once, file, path) <==> p in Restarts(Changed(active, file, path)) {
        ChangedKeys(active, file, once, path, p);
      }
    } else {
      assert Merge(active, file, path) == active || Merge(active, file, path) == file;
      MergeSame(file, path);
    }
  }

  lemma {:induction false} ChangedAgainField(active: Json, file: Json, path: Path, k: string)
    requires active.Obj? && file.Obj? && Merge(active, file, path).Obj?
    ensures ChangedField(Field(Merge(active, file, path).fields, k), Field(file.fields, k), path + [Key(k)])
            == Restarts(ChangedField(Field(active.fields, k), Field(file.fields, k), path + [Key(k)]))
    decreases active, 0
  {
    hide Kind, Merge, Changed;
    MergeField(active, file, path, k);
    if k in active.fields && k in file.fields {
      ChangedAgain(active.fields[k], file.fields[k], path + [Key(k)]);
    } else if k in file.fields {
      MergeSame(file.fields[k], path + [Key(k)]);
    }
  }

  lemma ChangedKeys(active: Json, file: Json, once: Json, path: Path, p: Path)
    requires active.Obj? && file.Obj? && once.Obj?
    requires forall k :: ChangedField(Field(once.fields, k), Field(file.fields, k), path + [Key(k)])
                         == Restarts(ChangedField(Field(active.fields, k), Field(file.fields, k), path + [Key(k)]))
    ensures p in Changed(once, file, path) <==> p in Restarts(Changed(active, file, path))
  {
    hide Kind, Changed, ChangedField;
    ChangedMeans(once, file, path, p);
    ChangedMeans(active, file, path, p);
    if p in Changed(once, file, path) {
      var k :| k in once.fields.Keys + file.fields.Keys
               && p in ChangedField(Field(once.fields, k), Field(file.fields, k), path + [Key(k)]);
      assert p in ChangedField(Field(active.fields, k), Field(file.fields, k), path + [Key(k)]);
      Present(Field(active.fields, k), Field(file.fields, k), path + [Key(k)], p);
    }
    if p in Restarts(Changed(active, file, path)) {
      var k :| k in active.fields.Keys + file.fields.Keys
               && p in ChangedField(Field(active.fields, k), Field(file.fields, k), path + [Key(k)]);
      assert p in ChangedField(Field(once.fields, k), Field(file.fields, k), path + [Key(k)]);
      Present(Field(once.fields, k), Field(file.fields, k), path + [Key(k)], p);
    }
  }

  lemma Present(active: Option<Json>, file: Option<Json>, path: Path, p: Path)
    requires p in ChangedField(active, file, path)
    ensures active.Some? || file.Some?
  {
  }

  /** With nothing waiting for a restart the candidate is the file. */
  lemma {:induction false} NothingPending(active: Json, file: Json, path: Path)
    requires Restarts(Changed(active, file, path)) == {}
    ensures Merge(active, file, path) == file
    decreases active
  {
    hide Kind;
    if active.Obj? && file.Obj? {
      var once := Merge(active, file, path);
      MergeField(active, file, path, "");
      forall k ensures Field(once.fields, k) == Field(file.fields, k) {
        MergeField(active, file, path, k);
        hide Merge, Changed;
        var below := ChangedField(Field(active.fields, k), Field(file.fields, k), path + [Key(k)]);
        forall p | p in below ensures Kind(p) != Restart {
          ChangedMeans(active, file, path, p);
          Present(Field(active.fields, k), Field(file.fields, k), path + [Key(k)], p);
          assert p in Changed(active, file, path);
          assert p !in Restarts(Changed(active, file, path));
        }
        if k in active.fields && k in file.fields {
          NothingPending(active.fields[k], file.fields[k], path + [Key(k)]);
        }
      }
      SameFields(once.fields, file.fields);
    } else if active != file {
      assert path in Changed(active, file, path);
      assert path !in Restarts(Changed(active, file, path));
    }
  }

  /** With only restart changes the candidate is the active value. */
  lemma {:induction false} NothingApplied(active: Json, file: Json, path: Path)
    requires Restarts(Changed(active, file, path)) == Changed(active, file, path)
    ensures Merge(active, file, path) == active
    decreases active
  {
    hide Kind;
    if active.Obj? && file.Obj? {
      var once := Merge(active, file, path);
      MergeField(active, file, path, "");
      forall k ensures Field(once.fields, k) == Field(active.fields, k) {
        MergeField(active, file, path, k);
        hide Merge, Changed;
        var below := ChangedField(Field(active.fields, k), Field(file.fields, k), path + [Key(k)]);
        forall p | p in below ensures Kind(p) == Restart {
          ChangedMeans(active, file, path, p);
          Present(Field(active.fields, k), Field(file.fields, k), path + [Key(k)], p);
          assert p in Changed(active, file, path);
        }
        if k in active.fields && k in file.fields {
          assert Restarts(below) == below;
          NothingApplied(active.fields[k], file.fields[k], path + [Key(k)]);
        }
      }
      SameFields(once.fields, active.fields);
    } else if active != file {
      assert path in Restarts(Changed(active, file, path));
    }
  }
}
