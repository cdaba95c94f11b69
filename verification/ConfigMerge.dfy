/** The merge in the source's own form: records filled field by field, every change noted in a recorder. */
module ConfigMerge {
  import opened Options
  import opened ConfigDiff
  import opened ConfigCandidate

  /** The recorder after the paths of `ps` were added to what it held. */
  function Recorded(changes: map<Path, ChangeKind>, ps: set<Path>): map<Path, ChangeKind> {
    map p | p in changes.Keys + ps :: if p in changes then changes[p] else Kind(p)
  }

  lemma RecordedTwice(changes: map<Path, ChangeKind>, x: set<Path>, y: set<Path>)
    ensures Recorded(Recorded(changes, x), y) == Recorded(changes, x + y)
    ensures Recorded(changes, {}) == changes
  {
    hide Kind;
  }

  class ChangeRecorder {
    var changes: map<Path, ChangeKind>

    constructor ()
      ensures changes == map[]
    {
      changes := map[];
    }

    /** The first kind recorded for a path stays. */
    method Add(path: Path, kind: ChangeKind)
      modifies this
      ensures changes == if path in old(changes) then old(changes) else old(changes)[path := kind]
    {
      if path !in changes {
        changes := changes[path := kind];
      }
    }

    method Note(path: Path)
      modifies this
      ensures changes == Recorded(old(changes), {path})
    {
      var kind := Kind(path);
      hide Kind;
      Add(path, kind);
    }
  }

  /** The paths changed under the keys of `keys`. */
  function ChangedOver(active: map<string, Json>, file: map<string, Json>, path: Path, keys: set<string>): set<Path> {
    set k, p | k in keys && p in ChangedField(Field(active, k), Field(file, k), path + [Key(k)]) :: p
  }

  lemma ChangedOverMore(active: map<string, Json>, file: map<string, Json>, path: Path, keys: set<string>, k: string)
    ensures ChangedOver(active, file, path, keys + {k})
            == ChangedOver(active, file, path, keys) + ChangedField(Field(active, k), Field(file, k), path + [Key(k)])
  {
    hide ChangedField;
  }

  lemma ChangedOverAll(active: map<string, Json>, file: map<string, Json>, path: Path)
    ensures ChangedOver(active, file, path, active.Keys + file.Keys) == ChangedMap(active, file, path)
  {
    forall p ensures p in ChangedOver(active, file, path, active.Keys + file.Keys) <==> p in ChangedMap(active, file, path) {
      ChangedMeans(Obj(active), Obj(file), path, p);
    }
    hide Changed, ChangedField;
  }

  /** Merges one field into a record, honouring the whitelist. */
  method MergeFieldInto(active: Json, file: Json, target: map<string, Json>, key: string, path: Path,
                        recorder: ChangeRecorder) returns (result: map<string, Json>)
    requires active.Obj? && file.Obj?
    requires key in target ==> key in active.fields && target[key] == active.fields[key]
    modifies recorder
    ensures Field(result, key) == Pick(Field(active.fields, key), Field(file.fields, key), path)
    ensures forall k | k != key :: Field(result, k) == Field(target, k)
    ensures recorder.changes
            == Recorded(old(recorder.changes), ChangedField(Field(active.fields, key), Field(file.fields, key), path))
    decreases active, 0
  {
    hide Kind;
    result := target;
    if key !in active.fields && key !in file.fields {
      RecordedTwice(recorder.changes, {}, {});
      return;
    }
    if key !in file.fields {
      var kind := Kind(path);
      recorder.Note(path);
      if kind == Restart { result := target[key := active.fields[key]]; }
      else { result := target - {key}; }
      return;
    }
    if key !in active.fields {
      var kind := Kind(path);
      recorder.Note(path);
      if kind != Restart { result := target[key := file.fields[key]]; }
      return;
    }
    var value := MergeValue(active.fields[key], file.fields[key], path, recorder);
    result := target[key := value];
  }

  method MergeValue(active: Json, file: Json, path: Path, recorder: ChangeRecorder) returns (value: Json)
    modifies recorder
    ensures value == Merge(active, file, path)
    ensures recorder.changes == Recorded(old(recorder.changes), Changed(active, file, path))
    decreases active, 2
  {
    hide Kind;
    if active.Obj? && file.Obj? {
      var fields := MergeRecord(active, file, map[], path, recorder);
      MergeIsObj(active, file, path);
      return Obj(fields);
    }
    DeepEqualMeans(active, file);
    if DeepEqual(active, file) {
      RecordedTwice(recorder.changes, {}, {});
      return file;
    }
    recorder.Note(path);
    return if Kind(path) == Restart then active else file;
  }

  lemma MergeIsObj(active: Json, file: Json, path: Path)
    requires active.Obj? && file.Obj?
    ensures Merge(active, file, path) == Obj(MergeMap(active.fields, file.fields, path))
    ensures Changed(active, file, path) == ChangedMap(active.fields, file.fields, path)
  {
    hide Kind;
  }

  /** Fills `target`, empty or a copy of the active record, from both records. */
  method MergeRecord(active: Json, file: Json, target: map<string, Json>, path: Path, recorder: ChangeRecorder)
      returns (result: map<string, Json>)
    requires active.Obj? && file.Obj? && (target == map[] || target == active.fields)
    modifies recorder
    ensures result == MergeMap(active.fields, file.fields, path)
    ensures recorder.changes == Recorded(old(recorder.changes), ChangedMap(active.fields, file.fields, path))
    decreases active, 1
  {
    hide Kind, Merge, Changed, Recorded, ChangedOver, ChangedField, MergeMap, ChangedMap;
    result := target;
    ghost var done: set<string> := {};
    var keys := active.fields.Keys + file.fields.Keys;
    NothingFilled(active.fields, file.fields, target, path, recorder.changes);
    while keys != {}
      invariant done !! keys && done + keys == active.fields.Keys + file.fields.Keys
      invariant Filled(active.fields, file.fields, target, path, done, result)
      invariant recorder.changes == Recorded(old(recorder.changes), ChangedOver(active.fields, file.fields, path, done))
      decreases |keys|
    {
      var k :| k in keys;
      ghost var before := result;
      Unfilled(active.fields, file.fields, target, path, done, result, k);
      result := MergeFieldInto(active, file, result, k, path + [Key(k)], recorder);
      FilledMore(active.fields, file.fields, target, path, done, before, k, result);
      ChangedOverMore(active.fields, file.fields, path, done, k);
      RecordedTwice(old(recorder.changes), ChangedOver(active.fields, file.fields, path, done),
                    ChangedField(Field(active.fields, k), Field(file.fields, k), path + [Key(k)]));
      keys := keys - {k};
      done := done + {k};
    }
    assert done == active.fields.Keys + file.fields.Keys;
    ChangedOverAll(active.fields, file.fields, path);
    AllFilled(active.fields, file.fields, target, path, result);
  }

  /** The keys of `done` have their merged value, every other still has that of `target`. */
  ghost predicate Filled(active: map<string, Json>, file: map<string, Json>, target: map<string, Json>, path: Path,
                         done: set<string>, result: map<string, Json>)
  {
    forall k :: Field(result, k)
                == if k in done then Pick(Field(active, k), Field(file, k), path + [Key(k)]) else Field(target, k)
  }

  lemma NothingFilled(active: map<string, Json>, file: map<string, Json>, target: map<string, Json>, path: Path,
                      changes: map<Path, ChangeKind>)
    ensures Filled(active, file, target, path, {}, target)
    ensures Recorded(changes, ChangedOver(active, file, path, {})) == changes
  {
    hide Kind, Pick, ChangedField;
    RecordedTwice(changes, {}, {});
    assert ChangedOver(active, file, path, {}) == {};
  }

  lemma Unfilled(active: map<string, Json>, file: map<string, Json>, target: map<string, Json>, path: Path,
                 done: set<string>, result: map<string, Json>, key: string)
    requires Filled(active, file, target, path, done, result) && key !in done && (target == map[] || target == active)
    ensures key in result ==> key in active && result[key] == active[key]
  {
    hide Pick;
    assert Field(result, key) == Field(target, key);
  }

  lemma FilledMore(active: map<string, Json>, file: map<string, Json>, target: map<string, Json>, path: Path,
                   done: set<string>, before: map<string, Json>, key: string, result: map<string, Json>)
    requires Filled(active, file, target, path, done, before)
    requires Field(result, key) == Pick(Field(active, key), Field(file, key), path + [Key(key)])
    requires forall k | k != key :: Field(result, k) == Field(before, k)
    ensures Filled(active, file, target, path, done + {key}, result)
  {
    hide Pick, Field;
  }

  lemma AllFilled(active: map<string, Json>, file: map<string, Json>, target: map<string, Json>, path: Path,
                  result: map<string, Json>)
    requires Filled(active, file, target, path, active.Keys + file.Keys, result) && (target == map[] || target == active)
    ensures result == MergeMap(active, file, path)
  {
    hide Pick, MergeMap;
    assert forall k | k !in active.Keys + file.Keys :: Field(target, k) == None;
    FieldsDecide(active, file, result, path);
  }

  lemma FieldsDecide(active: map<string, Json>, file: map<string, Json>, result: map<string, Json>, path: Path)
    requires forall k | k in active.Keys + file.Keys :: Field(result, k) == Pick(Field(active, k), Field(file, k), path + [Key(k)])
    requires forall k | k !in active.Keys + file.Keys :: Field(result, k) == None
    ensures result == MergeMap(active, file, path)
  {
    hide Kind, Merge;
    forall k ensures Field(result, k) == Field(MergeMap(active, file, path), k) {
      MergeField(Obj(active), Obj(file), path, k);
    }
    hide MergeMap;
    SameFields(result, MergeMap(active, file, path));
  }

  // ---- chats ----

  class Differ {
    const recorder: ChangeRecorder

    constructor ()
      ensures fresh(recorder) && recorder.changes == map[]
    {
      recorder := new ChangeRecorder();
    }

    method MergeChatRecord(active: Chat, file: Chat, was: string, now: string) returns (result: Chat)
      requires active.settings.Keys <= SETTING_KEYS && file.settings.Keys <= SETTING_KEYS
      modifies recorder
      ensures result == MergeChat(active, file)
      ensures recorder.changes == Recorded(old(recorder.changes), ChangedChat(active, file, was, now))
    {
      hide Kind, Merge, Changed, Recorded;
      var path := ChatPath(active.id);
      var fields := MergeRecord(Obj(active.fields), Obj(file.fields), active.fields, path, recorder);
      ghost var before := recorder.changes;
      var settings := NoteSettings(active, file);
      RecordedTwice(old(recorder.changes), ChangedMap(active.fields, file.fields, path), ChangedSettings(active, file));
      ghost var noted := ChangedMap(active.fields, file.fields, path) + ChangedSettings(active, file);
      RecordedTwice(old(recorder.changes), noted, {});
      RecordedTwice(old(recorder.changes), noted, {path + [Key("instructions_file")]});
      if active.instructionsFile.Some? || file.instructionsFile.Some? {
        if active.instructionsFile != file.instructionsFile || was != now {
          recorder.Note(path + [Key("instructions_file")]);
        }
      }
      assert noted + {} == noted;
      return Chat(active.id, settings, fields, file.instructionsFile);
    }

    /** The model settings of a chat are taken from the file, one key at a time. */
    method NoteSetting(active: Chat, file: Chat, settings: map<string, string>, k: string)
      returns (after: map<string, string>)
      requires k in active.settings || k in file.settings
      modifies recorder
      ensures after == if !SettingDiffers(active, file, k) then settings
                       else if k in file.settings then settings[k := file.settings[k]] else settings - {k}
      ensures recorder.changes
              == Recorded(old(recorder.changes), if SettingDiffers(active, file, k) then {ChatPath(active.id) + [Key(k)]} else {})
    {
      hide Kind, Recorded, ChatPath;
      RecordedTwice(recorder.changes, {}, {});
      after := settings;
      if k !in file.settings {
        recorder.Note(ChatPath(active.id) + [Key(k)]);
        after := after - {k};
      } else if k !in active.settings || active.settings[k] != file.settings[k] {
        recorder.Note(ChatPath(active.id) + [Key(k)]);
        after := after[k := file.settings[k]];
      }
    }

    /** Every setting of a chat takes the value of the file. */
    method NoteSettings(active: Chat, file: Chat) returns (settings: map<string, string>)
      requires active.settings.Keys <= SETTING_KEYS && file.settings.Keys <= SETTING_KEYS
      modifies recorder
      ensures settings == file.settings
      ensures recorder.changes == Recorded(old(recorder.changes), ChangedSettings(active, file))
    {
      hide Kind, Recorded, SettingsOver, SettingDiffers, Setting, Settled, Walk, ChatPath;
      settings := active.settings;
      var keys := active.settings.Keys + file.settings.Keys;
      ghost var done: set<string> := {};
      SettledNone(active, file);
      WalkEnds(active.settings.Keys + file.settings.Keys, {});
      RecordedTwice(recorder.changes, {}, {});
      while keys != {}
        invariant Walk(active.settings.Keys + file.settings.Keys, done, keys)
        invariant Settled(active, file, done, settings)
        invariant recorder.changes == Recorded(old(recorder.changes), SettingsOver(active, file, done))
        decreases |keys|
      {
        var k :| k in keys;
        WalkStep(active.settings.Keys + file.settings.Keys, done, keys, k);
        SettledMore(active, file, done, settings, k);
        RecordedTwice(old(recorder.changes), SettingsOver(active, file, done),
                      if SettingDiffers(active, file, k) then {ChatPath(active.id) + [Key(k)]} else {});
        settings := NoteSetting(active, file, settings, k);
        keys := keys - {k};
        done := done + {k};
      }
      WalkEnds(active.settings.Keys + file.settings.Keys, done);
      SettledAll(active, file, settings);
    }

    method MergeAllChats(active: Source, file: Source) returns (result: seq<Chat>)
      requires Loaded(active) && Loaded(file)
      modifies recorder
      ensures result == MergeChats(active.file.chats, file.file.chats)
      ensures recorder.changes
              == Recorded(old(recorder.changes),
                          ChangedChats(active.file.chats, file.file.chats, active.instructions, file.instructions)
                          + AddedChats(active.file.chats, file.file.chats))
    {
      hide Kind, Recorded, MergeChats, ChangedChats, AddedChats, ChangedChat, MergeChat, ChatPath, Loaded;
      var a, f := active.file.chats, file.file.chats;
      ghost var all := ChangedChats(a, f, active.instructions, file.instructions);
      ghost var noted: set<Path> := {};
      result := [];
      RecordedTwice(recorder.changes, {}, {});
      for k := 0 to |a|
        invariant result + MergeChats(a[k..], f) == MergeChats(a, f)
        invariant noted + ChangedChats(a[k..], f, active.instructions, file.instructions) == all
        invariant recorder.changes == Recorded(old(recorder.changes), noted)
      {
        ChatStep(active, file, k);
        var m := MergeOneChat(active, file, k);
        ghost var here := ChatChange(a[k], f, active.instructions, file.instructions);
        RecordedTwice(old(recorder.changes), noted, here);
        Regroup(result, [m], MergeChats(a[k + 1..], f));
        noted := noted + here;
        result := result + [m];
      }
      ChatsEnd(a, f, active.instructions, file.instructions);
      NoteAdded(a, f);
      RecordedTwice(old(recorder.changes), noted, AddedChats(a, f));
      assert noted + {} == noted && result + [] == result;
    }

    method MergeOneChat(active: Source, file: Source, k: nat) returns (result: Chat)
      requires Loaded(active) && Loaded(file) && k < |active.file.chats|
      modifies recorder
      ensures result == Merged(active.file.chats[k], file.file.chats)
      ensures recorder.changes
              == Recorded(old(recorder.changes),
                          ChatChange(active.file.chats[k], file.file.chats, active.instructions, file.instructions))
    {
      hide Kind, Recorded, ChangedChat, MergeChat, ChatPath;
      var c := active.file.chats[k];
      assert c in active.file.chats;
      var found := Find(file.file.chats, c.id);
      if found.None? {
        recorder.Note(ChatPath(c.id));
        return c;
      }
      FoundChat(file, c.id);
      result := MergeChatRecord(c, found.value, Text(active.instructions, c.id), Text(file.instructions, c.id));
    }

    /** Chats the file adds wait for a restart. */
    method NoteAdded(active: seq<Chat>, file: seq<Chat>)
      modifies recorder
      ensures recorder.changes == Recorded(old(recorder.changes), AddedChats(active, file))
    {
      hide Kind, Recorded, ChatPath, Find, AddedChats;
      RecordedTwice(recorder.changes, {}, {});
      AddedMore(active, [], Chat(0, map[], map[], None));
      for k := 0 to |file|
        invariant recorder.changes == Recorded(old(recorder.changes), AddedChats(active, file[..k]))
      {
        assert file[..k + 1] == file[..k] + [file[k]];
        AddedMore(active, file[..k], file[k]);
        if Find(active, file[k].id).None? {
          recorder.Note(ChatPath(file[k].id));
          RecordedTwice(old(recorder.changes), AddedChats(active, file[..k]), {ChatPath(file[k].id)});
        }
      }
      assert file[..|file|] == file;
    }

    // ---- providers ----

    method NoteModels(alias: string, active: seq<Model>, file: seq<Model>)
      requires DistinctModels(active)
      modifies recorder
      ensures recorder.changes == Recorded(old(recorder.changes), ChangedModels(alias, active, file))
    {
      hide Kind, Recorded, ModelPath, NewModels, GoneModels;
      ModelsStep(alias, active, file, 0);
      RecordedTwice(recorder.changes, {}, {});
      for k := 0 to |file|
        invariant recorder.changes == Recorded(old(recorder.changes), NewModels(alias, active, file[..k]))
      {
        ModelsStep(alias, active, file, k);
        var was := ModelById(active, file[k].id);
        ModelByIdMeans(active, file[k]);
        RecordedTwice(old(recorder.changes), NewModels(alias, active, file[..k]), {ModelPath(alias, file[k].id)});
        if was.None? || was.value != file[k] {
          recorder.Note(ModelPath(alias, file[k].id));
        }
      }
      assert file[..|file|] == file;
      ghost var middle := recorder.changes;
      GoneStep(alias, active, file, 0);
      RecordedTwice(middle, {}, {});
      for k := 0 to |active|
        invariant recorder.changes == Recorded(middle, GoneModels(alias, active[..k], file))
      {
        GoneStep(alias, active, file, k);
        var now := ModelById(file, active[k].id);
        ModelByIdFinds(file, active[k].id);
        RecordedTwice(middle, GoneModels(alias, active[..k], file), {ModelPath(alias, active[k].id)});
        if now.None? {
          recorder.Note(ModelPath(alias, active[k].id));
        }
      }
      assert active[..|active|] == active;
      RecordedTwice(old(recorder.changes), NewModels(alias, active, file), GoneModels(alias, active, file));
    }

    method MergeProviderRecord(alias: string, active: Provider, file: Provider) returns (result: Provider)
      requires DistinctModels(active.models)
      modifies recorder
      ensures result == MergeProvider(alias, active, file)
      ensures recorder.changes == Recorded(old(recorder.changes), ChangedProvider(alias, active, file))
    {
      hide Kind, Recorded, Merge, Changed, ChangedModels;
      if active.kind != file.kind {
        recorder.Note(ProviderPath(alias));
        return file;
      }
      var fields := MergeRecord(Obj(active.fields), Obj(file.fields), active.fields, ProviderPath(alias), recorder);
      NoteModels(alias, active.models, file.models);
      RecordedTwice(old(recorder.changes), ChangedMap(active.fields, file.fields, ProviderPath(alias)),
                    ChangedModels(alias, active.models, file.models));
      return Provider(file.kind, fields, file.models);
    }

    method MergeOneProvider(active: map<string, Provider>, file: map<string, Provider>, result: map<string, Provider>,
                            alias: string)
      returns (after: map<string, Provider>)
      requires alias in active || alias in file
      requires alias in active ==> DistinctModels(active[alias].models)
      modifies recorder
      ensures after == if alias !in file then result
                       else result[alias := if alias in active then MergeProvider(alias, active[alias], file[alias])
                                            else file[alias]]
      ensures recorder.changes == Recorded(old(recorder.changes), ProviderChange(active, file, alias))
    {
      hide Kind, Recorded, MergeProvider, ChangedProvider;
      after := result;
      if alias in active && alias in file {
        var merged := MergeProviderRecord(alias, active[alias], file[alias]);
        after := after[alias := merged];
      } else {
        recorder.Note(ProviderPath(alias));
        if alias in file { after := after[alias := file[alias]]; }
      }
    }

    method MergeAllProviders(active: map<string, Provider>, file: map<string, Provider>) returns (result: map<string, Provider>)
      requires forall alias | alias in active :: DistinctModels(active[alias].models)
      modifies recorder
      ensures result == MergeProviders(active, file)
      ensures recorder.changes == Recorded(old(recorder.changes), ChangedProviders(active, file))
    {
      hide Kind, Recorded, MergeProvider, ChangedProvider, ProviderChange, ProvidersOver, ProvidersMerged, Walk;
      result := map[];
      ghost var done: set<string> := {};
      var aliases := active.Keys + file.Keys;
      ProvidersNone(active, file);
      WalkEnds(active.Keys + file.Keys, {});
      RecordedTwice(recorder.changes, {}, {});
      while aliases != {}
        invariant Walk(active.Keys + file.Keys, done, aliases)
        invariant ProvidersMerged(active, file, done, result)
        invariant recorder.changes == Recorded(old(recorder.changes), ProvidersOver(active, file, done))
        decreases |aliases|
      {
        var alias :| alias in aliases;
        WalkStep(active.Keys + file.Keys, done, aliases, alias);
        ProvidersMore(active, file, done, alias);
        RecordedTwice(old(recorder.changes), ProvidersOver(active, file, done), ProviderChange(active, file, alias));
        ghost var before := result;
        result := MergeOneProvider(active, file, result, alias);
        MergedMore(active, file, done, before, alias, result);
        aliases := aliases - {alias};
        done := done + {alias};
      }
      WalkEnds(active.Keys + file.Keys, done);
      ProvidersAll(active, file, result);
    }

    /** The candidate and every change. */
    method DiffConfig(active: Source, file: Source) returns (candidate: Source)
      requires Loaded(active) && Loaded(file) && recorder.changes == map[]
      modifies recorder
      ensures candidate == Candidate(active, file)
      ensures recorder.changes == map p | p in Changes(active, file) :: Kind(p)
    {
      hide Kind, Recorded, MergeMap, ChangedMap, MergeChats, ChangedChats, AddedChats, MergeProviders, ChangedProviders,
        PromptChange, Loaded, Assemble, Candidate;
      ModelsDistinct(active);
      var a, f := active.file, file.file;
      var top := MergeRecord(Obj(a.top), Obj(f.top), a.top, [], recorder);
      var telegram := MergeRecord(Obj(a.telegram), Obj(f.telegram), a.telegram, [Key("telegram")], recorder);
      var chats := MergeAllChats(active, file);
      var agent := MergeRecord(Obj(a.agent), Obj(f.agent), a.agent, [Key("agent")], recorder);
      NotePrompt(active, file);
      var providers := MergeAllProviders(a.providers, f.providers);
      RecordedChain(ChangedMap(a.top, f.top, []), ChangedMap(a.telegram, f.telegram, [Key("telegram")]),
                    ChangedChats(a.chats, f.chats, active.instructions, file.instructions), AddedChats(a.chats, f.chats),
                    ChangedMap(a.agent, f.agent, [Key("agent")]), PromptChange(active, file),
                    ChangedProviders(a.providers, f.providers));
      candidate := Assemble(top, telegram, chats, agent, providers, active, file);
      Assembled(active, file);
    }

    method NotePrompt(active: Source, file: Source)
      modifies recorder
      ensures recorder.changes == Recorded(old(recorder.changes), PromptChange(active, file))
    {
      hide Kind, Recorded;
      RecordedTwice(recorder.changes, {}, {});
      if active.file.promptFile != file.file.promptFile || active.prompt != file.prompt {
        recorder.Note([Key("agent"), Key("system_prompt_file")]);
      }
    }
  }

  lemma RecordedChain(a: set<Path>, b: set<Path>, c: set<Path>, d: set<Path>, e: set<Path>, f: set<Path>, g: set<Path>)
    ensures Recorded(Recorded(Recorded(Recorded(Recorded(Recorded(map[], a), b), c + d), e), f), g)
            == map p | p in a + b + c + d + e + f + g :: Kind(p)
  {
    hide Kind;
    var none: map<Path, ChangeKind> := map[];
    RecordedTwice(none, a, b);
    RecordedTwice(none, a + b, c + d);
    RecordedTwice(none, a + b + (c + d), e);
    RecordedTwice(none, a + b + (c + d) + e, f);
    RecordedTwice(none, a + b + (c + d) + e + f, g);
    assert a + b + (c + d) + e + f + g == a + b + c + d + e + f + g;
  }

  /** The candidate from its merged sections, with the prompt texts both sides already loaded. */
  function Assemble(top: map<string, Json>, telegram: map<string, Json>, chats: seq<Chat>, agent: map<string, Json>,
                    providers: map<string, Provider>, active: Source, file: Source): Source
  {
    Source(FileConfig(top, telegram, chats, agent, file.file.promptFile, providers), file.prompt,
           map c | c in chats :: c.id := if c.id in file.instructions then file.instructions[c.id]
                                         else Text(active.instructions, c.id))
  }

  lemma Assembled(active: Source, file: Source)
    ensures var a, f := active.file, file.file;
            Candidate(active, file)
            == Assemble(MergeMap(a.top, f.top, []), MergeMap(a.telegram, f.telegram, [Key("telegram")]),
                        MergeChats(a.chats, f.chats), MergeMap(a.agent, f.agent, [Key("agent")]),
                        MergeProviders(a.providers, f.providers), active, file)
  {
    hide MergeMap, MergeChats, MergeProviders;
  }

  lemma ModelsDistinct(active: Source)
    requires Loaded(active)
    ensures forall alias | alias in active.file.providers :: DistinctModels(active.file.providers[alias].models)
  {
  }

  lemma ChatStep(active: Source, file: Source, k: nat)
    requires k < |active.file.chats|
    ensures var a, f := active.file.chats, file.file.chats;
            && MergeChats(a[k..], f) == [Merged(a[k], f)] + MergeChats(a[k + 1..], f)
            && ChangedChats(a[k..], f, active.instructions, file.instructions)
               == ChatChange(a[k], f, active.instructions, file.instructions)
                  + ChangedChats(a[k + 1..], f, active.instructions, file.instructions)
  {
    hide Merged, ChatChange;
    var a := active.file.chats;
    assert a[k..][0] == a[k] && a[k..][1..] == a[k + 1..];
  }

  lemma ChatsEnd(active: seq<Chat>, file: seq<Chat>, was: map<int, string>, now: map<int, string>)
    ensures MergeChats(active[|active|..], file) == [] && ChangedChats(active[|active|..], file, was, now) == {}
  {
  }

  lemma Regroup(x: seq<Chat>, y: seq<Chat>, z: seq<Chat>)
    ensures x + (y + z) == x + y + z
  {
  }

  lemma ModelsStep(alias: string, active: seq<Model>, file: seq<Model>, k: nat)
    requires k <= |file|
    ensures k == 0 ==> NewModels(alias, active, file[..k]) == {}
    ensures k < |file| ==>
              NewModels(alias, active, file[..k + 1])
              == if file[k] in active then NewModels(alias, active, file[..k])
                 else NewModels(alias, active, file[..k]) + {ModelPath(alias, file[k].id)}
  {
    hide ModelPath;
    if k < |file| { assert file[..k + 1] == file[..k] + [file[k]]; }
  }

  lemma GoneStep(alias: string, active: seq<Model>, file: seq<Model>, k: nat)
    requires k <= |active|
    ensures k == 0 ==> GoneModels(alias, active[..k], file) == {}
    ensures k < |active| ==>
              GoneModels(alias, active[..k + 1], file)
              == if forall n | n in file :: n.id != active[k].id
                 then GoneModels(alias, active[..k], file) + {ModelPath(alias, active[k].id)}
                 else GoneModels(alias, active[..k], file)
  {
    hide ModelPath;
    if k < |active| { assert active[..k + 1] == active[..k] + [active[k]]; }
  }

  lemma FoundChat(file: Source, id: int)
    requires Loaded(file) && Find(file.file.chats, id).Some?
    ensures Find(file.file.chats, id).value.settings.Keys <= SETTING_KEYS
  {
    FindIsIn(file.file.chats, id);
  }

  lemma {:induction false} FindIsIn(chats: seq<Chat>, id: int)
    ensures Find(chats, id).Some? ==> Find(chats, id).value in chats
    decreases chats
  {
    if chats != [] { FindIsIn(chats[1..], id); }
  }

  lemma AddedMore(active: seq<Chat>, file: seq<Chat>, c: Chat)
    ensures AddedChats(active, []) == {}
    ensures AddedChats(active, file + [c])
            == if Find(active, c.id).None? then AddedChats(active, file) + {ChatPath(c.id)} else AddedChats(active, file)
  {
    hide Find, ChatPath;
  }

  function ModelById(models: seq<Model>, id: string): Option<Model> {
    if models == [] then None else if models[0].id == id then Some(models[0]) else ModelById(models[1..], id)
  }

  lemma {:induction false} ModelByIdFinds(models: seq<Model>, id: string)
    ensures ModelById(models, id).None? <==> forall m | m in models :: m.id != id
    ensures ModelById(models, id).Some? ==> ModelById(models, id).value in models && ModelById(models, id).value.id == id
    decreases models
  {
    if models != [] { ModelByIdFinds(models[1..], id); assert models == [models[0]] + models[1..]; }
  }

  lemma ModelByIdMeans(models: seq<Model>, m: Model)
    requires DistinctModels(models)
    ensures m in models <==> ModelById(models, m.id) == Some(m)
  {
    ModelByIdFinds(models, m.id);
    if m in models {
      var x := ModelById(models, m.id).value;
      var i :| 0 <= i < |models| && models[i] == m;
      var j :| 0 <= j < |models| && models[j] == x;
    }
  }

  ghost predicate ProvidersMerged(active: map<string, Provider>, file: map<string, Provider>, done: set<string>,
                                  result: map<string, Provider>)
  {
    forall alias :: (alias in result <==> alias in done && alias in file)
                    && (alias in done && alias in file ==>
                          result[alias] == if alias in active then MergeProvider(alias, active[alias], file[alias])
                                           else file[alias])
  }

  lemma ProvidersNone(active: map<string, Provider>, file: map<string, Provider>)
    ensures ProvidersMerged(active, file, {}, map[]) && ProvidersOver(active, file, {}) == {}
  {
    hide ProviderChange;
  }

  lemma ProvidersMore(active: map<string, Provider>, file: map<string, Provider>, done: set<string>, alias: string)
    ensures ProvidersOver(active, file, done + {alias}) == ProvidersOver(active, file, done) + ProviderChange(active, file, alias)
  {
    hide ProviderChange;
  }

  lemma MergedMore(active: map<string, Provider>, file: map<string, Provider>, done: set<string>,
                   before: map<string, Provider>, alias: string, result: map<string, Provider>)
    requires ProvidersMerged(active, file, done, before) && alias !in done
    requires result == if alias !in file then before
                       else before[alias := if alias in active then MergeProvider(alias, active[alias], file[alias]) else file[alias]]
    ensures ProvidersMerged(active, file, done + {alias}, result)
  {
    hide MergeProvider;
  }

  lemma ProvidersAll(active: map<string, Provider>, file: map<string, Provider>, result: map<string, Provider>)
    requires ProvidersMerged(active, file, active.Keys + file.Keys, result)
    ensures result == MergeProviders(active, file)
    ensures ProvidersOver(active, file, active.Keys + file.Keys) == ChangedProviders(active, file)
  {
    hide MergeProvider, ChangedProvider;
  }

  function Setting(settings: map<string, string>, k: string): Option<string> {
    if k in settings then Some(settings[k]) else None
  }

  predicate SettingDiffers(active: Chat, file: Chat, k: string) { Setting(active.settings, k) != Setting(file.settings, k) }

  function SettingsOver(active: Chat, file: Chat, keys: set<string>): set<Path> {
    set k | k in keys && SettingDiffers(active, file, k) :: ChatPath(active.id) + [Key(k)]
  }

  ghost predicate Settled(active: Chat, file: Chat, done: set<string>, settings: map<string, string>) {
    forall k :: Setting(settings, k) == Setting(if k in done then file.settings else active.settings, k)
  }

  lemma SettledNone(active: Chat, file: Chat)
    ensures Settled(active, file, {}, active.settings) && SettingsOver(active, file, {}) == {}
  {
  }

  /** A walk over a set: what was visited and what is left. */
  ghost predicate Walk(all: set<string>, done: set<string>, left: set<string>) { done !! left && done + left == all }

  lemma WalkStep(all: set<string>, done: set<string>, left: set<string>, x: string)
    requires Walk(all, done, left) && x in left
    ensures x in all && x !in done && Walk(all, done + {x}, left - {x})
  {
  }

  lemma WalkEnds(all: set<string>, done: set<string>)
    ensures Walk(all, {}, all)
    ensures Walk(all, done, {}) ==> done == all
  {
  }

  lemma SettledMore(active: Chat, file: Chat, done: set<string>, settings: map<string, string>, k: string)
    requires Settled(active, file, done, settings) && k !in done
    ensures k !in file.settings ==> Settled(active, file, done + {k}, settings - {k})
    ensures k in file.settings ==> Settled(active, file, done + {k}, settings[k := file.settings[k]])
    ensures !SettingDiffers(active, file, k) ==> Settled(active, file, done + {k}, settings)
    ensures SettingDiffers(active, file, k) <==>
              (k !in file.settings && k in active.settings)
              || (k in file.settings && (k !in active.settings || active.settings[k] != file.settings[k]))
    ensures SettingsOver(active, file, done + {k})
            == SettingsOver(active, file, done) + if SettingDiffers(active, file, k) then {ChatPath(active.id) + [Key(k)]} else {}
  {
    hide ChatPath;
    assert forall x | x != k :: Setting(settings - {k}, x) == Setting(settings, x);
    if k in file.settings {
      assert forall x | x != k :: Setting(settings[k := file.settings[k]], x) == Setting(settings, x);
    }
  }

  lemma SettledAll(active: Chat, file: Chat, settings: map<string, string>)
    requires Settled(active, file, active.settings.Keys + file.settings.Keys, settings)
    requires active.settings.Keys <= SETTING_KEYS && file.settings.Keys <= SETTING_KEYS
    ensures settings == file.settings
    ensures SettingsOver(active, file, active.settings.Keys + file.settings.Keys) == ChangedSettings(active, file)
  {
    hide ChatPath;
    forall k ensures Setting(settings, k) == Setting(file.settings, k) {
      assert k !in active.settings.Keys + file.settings.Keys ==> Setting(active.settings, k) == None == Setting(file.settings, k);
    }
    forall k ensures k in settings <==> k in file.settings { assert Setting(settings, k) == Setting(file.settings, k); }
    forall k | k in settings ensures settings[k] == file.settings[k] { assert Setting(settings, k) == Setting(file.settings, k); }
  }
}
