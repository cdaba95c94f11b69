/** A reload reports everything it would change: what only waits for a restart leaves the running configuration as it is. */
module ConfigReports {
  import opened ConfigDiff
  import opened ConfigCandidate
  import opened ConfigConverges

  /** Nothing in the set can be applied now. */
  predicate Waiting(paths: set<Path>) { forall p | p in paths :: Kind(p) == Restart }

  /** The same provider, its models in any order. */
  ghost predicate SameProvider(x: Provider, y: Provider) {
    x.kind == y.kind && x.fields == y.fields && forall m :: m in x.models <==> m in y.models
  }

  /** The same configuration, the models of each provider in any order. */
  ghost predicate SameUpToModels(x: Source, y: Source) {
    && x.prompt == y.prompt && x.instructions == y.instructions && x.file.(providers := y.file.providers) == y.file
    && x.file.providers.Keys == y.file.providers.Keys
    && forall alias | alias in x.file.providers :: SameProvider(x.file.providers[alias], y.file.providers[alias])
  }

  lemma WaitingIsRestarts(paths: set<Path>)
    requires Waiting(paths)
    ensures Restarts(paths) == paths
  {
    hide Kind;
  }

  lemma WaitingHot(paths: set<Path>)
    requires Waiting(paths) && Restarts(paths) == {}
    ensures paths == {}
  {
    WaitingIsRestarts(paths);
  }

  lemma WaitingParts(a: set<Path>, b: set<Path>, c: set<Path>, d: set<Path>, e: set<Path>, f: set<Path>, g: set<Path>)
    requires Waiting(a + b + c + d + e + f + g)
    ensures Waiting(a) && Waiting(b) && Waiting(c) && Waiting(d) && Waiting(e) && Waiting(f) && Waiting(g)
  {
    hide Kind;
  }

  lemma MapWaits(active: map<string, Json>, file: map<string, Json>, path: Path)
    requires Waiting(ChangedMap(active, file, path))
    ensures MergeMap(active, file, path) == active
    ensures ChangedMap(active, file, path) == {} ==> active == file
  {
    hide Kind;
    WaitingIsRestarts(ChangedMap(active, file, path));
    NothingApplied(Obj(active), Obj(file), path);
    if ChangedMap(active, file, path) == {} { NothingPending(Obj(active), Obj(file), path); }
    hide Merge, Changed;
  }

  // ---- chats ----

  lemma ChatWaits(active: Chat, file: Chat, was: string, now: string)
    requires active.id == file.id && active.settings.Keys <= SETTING_KEYS && file.settings.Keys <= SETTING_KEYS
    requires Waiting(ChangedChat(active, file, was, now))
    ensures MergeChat(active, file) == active
    ensures active.instructionsFile == file.instructionsFile && (active.instructionsFile.Some? ==> was == now)
  {
    hide Kind, MergeMap, ChangedMap, Restarts;
    var fields, settings, text := ChangedMap(active.fields, file.fields, ChatPath(active.id)), ChangedSettings(active, file),
      ChangedText(active, file, was, now);
    assert Waiting(fields) && Waiting(settings) && Waiting(text) by {
      hide ChangedSettings, ChangedText;
      assert forall p | p in fields + settings + text :: Kind(p) == Restart;
    }
    hide Waiting;
    MapWaits(active.fields, file.fields, ChatPath(active.id));
    SettingsHot(active, file, was, now);
    WaitingHot(settings);
    WaitingHot(text);
    SettingsEqual(active, file);
    TextEqual(active, file, was, now);
  }

  lemma SettingsEqual(active: Chat, file: Chat)
    requires active.settings.Keys <= SETTING_KEYS && file.settings.Keys <= SETTING_KEYS && ChangedSettings(active, file) == {}
    ensures active.settings == file.settings
  {
    forall k ensures (k in active.settings <==> k in file.settings)
      && (k in active.settings && k in file.settings ==> active.settings[k] == file.settings[k])
    {
      assert ChatPath(active.id) + [Key(k)] !in ChangedSettings(active, file);
      assert k in active.settings ==> k in active.settings.Keys;
      assert k in file.settings ==> k in file.settings.Keys;
    }
  }

  lemma TextEqual(active: Chat, file: Chat, was: string, now: string)
    requires ChangedText(active, file, was, now) == {}
    ensures active.instructionsFile == file.instructionsFile && (active.instructionsFile.Some? ==> was == now)
  {
    assert ChatPath(active.id) + [Key("instructions_file")] !in ChangedText(active, file, was, now);
    hide ChatPath;
  }

  lemma {:induction false} ChatsWait(active: seq<Chat>, file: seq<Chat>, was: map<int, string>, now: map<int, string>)
    requires Waiting(ChangedChats(active, file, was, now))
    requires forall c | c in active :: c.settings.Keys <= SETTING_KEYS
    requires forall c | c in file :: c.settings.Keys <= SETTING_KEYS
    ensures MergeChats(active, file) == active
    ensures forall c | c in active && Find(file, c.id).Some? ::
              c.instructionsFile == Find(file, c.id).value.instructionsFile
              && (c.instructionsFile.Some? ==> Text(was, c.id) == Text(now, c.id))
    decreases active
  {
    hide Kind, MergeChat, ChangedChat, Find, Text;
    if active != [] {
      var c := active[0];
      assert c in active;
      var head, rest := ChatChange(c, file, was, now), ChangedChats(active[1..], file, was, now);
      assert Waiting(head) && Waiting(rest) by { assert forall p | p in head + rest :: Kind(p) == Restart; }
      hide Waiting;
      FindMeans(file, c.id);
      if Find(file, c.id).Some? { ChatWaits(c, Find(file, c.id).value, Text(was, c.id), Text(now, c.id)); }
      assert forall x | x in active[1..] :: x in active;
      ChatsWait(active[1..], file, was, now);
      assert active == [c] + active[1..];
    }
  }

  // ---- providers ----

  lemma ProviderSettles(alias: string, active: Provider, file: Provider)
    requires ChangedProvider(alias, active, file) == {} && DistinctModels(active.models) && DistinctModels(file.models)
    ensures SameProvider(MergeProvider(alias, active, file), active)
  {
    hide Kind, MergeMap, ChangedMap, NewModels, GoneModels, ProviderPath;
    ModelsSettle(alias, active.models, file.models);
    assert active.kind == file.kind by { assert active.kind != file.kind ==> ProviderPath(alias) in {ProviderPath(alias)}; }
    assert ChangedMap(active.fields, file.fields, ProviderPath(alias)) == {};
    assert Waiting({});
    MapWaits(active.fields, file.fields, ProviderPath(alias));
    hide Waiting;
  }

  lemma ModelsSettle(alias: string, active: seq<Model>, file: seq<Model>)
    requires DistinctModels(active) && DistinctModels(file)
    ensures NewModels(alias, active, file) == {} && GoneModels(alias, active, file) == {} ==>
              forall m :: m in active <==> m in file
  {
    if NewModels(alias, active, file) == {} && GoneModels(alias, active, file) == {} {
      forall m | m in file ensures m in active { assert ModelPath(alias, m.id) !in NewModels(alias, active, file); }
      forall m | m in active ensures m in file {
        assert ModelPath(alias, m.id) !in GoneModels(alias, active, file);
        var n :| n in file && n.id == m.id;
        assert n in active;
        SameId(active, m, n);
      }
    }
  }

  lemma SameId(models: seq<Model>, m: Model, n: Model)
    requires DistinctModels(models) && m in models && n in models && m.id == n.id
    ensures m == n
  {
    var i :| 0 <= i < |models| && models[i] == m;
    var j :| 0 <= j < |models| && models[j] == n;
  }

  lemma ProvidersSettle(active: map<string, Provider>, file: map<string, Provider>)
    requires ChangedProviders(active, file) == {}
    requires forall alias | alias in active :: DistinctModels(active[alias].models)
    requires forall alias | alias in file :: DistinctModels(file[alias].models)
    ensures var r := MergeProviders(active, file);
            r.Keys == active.Keys && forall alias | alias in r :: SameProvider(r[alias], active[alias])
  {
    hide Kind, MergeProvider, ChangedProvider, SameProvider, DistinctModels;
    forall alias | alias in active.Keys + file.Keys
      ensures alias in active && alias in file && ChangedProvider(alias, active[alias], file[alias]) == {}
    {
      NoChange(active, file, alias);
    }
    forall alias | alias in file ensures SameProvider(MergeProvider(alias, active[alias], file[alias]), active[alias]) {
      assert alias in active.Keys + file.Keys;
      ProviderSettles(alias, active[alias], file[alias]);
    }
    assert forall alias :: alias in active.Keys <==> alias in file.Keys;
  }

  lemma NoChange(active: map<string, Provider>, file: map<string, Provider>, alias: string)
    requires ChangedProviders(active, file) == {} && alias in active.Keys + file.Keys
    ensures ProviderChange(active, file, alias) == {}
    ensures alias in active && alias in file && ChangedProvider(alias, active[alias], file[alias]) == {}
  {
    hide ChangedProvider, ProviderPath;
    var change := ProviderChange(active, file, alias);
    assert forall p :: p in change ==> p in ChangedProviders(active, file);
    assert alias !in active || alias !in file ==> ProviderPath(alias) in change;
  }

  // ---- the whole configuration ----

  /**
   Where every reported change waits for a restart, the candidate is the running configuration: whatever a reload would
   change at once is reported as such, and so is published.
   */
  lemma OnlyRestartIsActive(active: Source, file: Source)
    requires Loaded(active) && Loaded(file) && Waiting(Changes(active, file))
    ensures SameUpToModels(Candidate(active, file), active)
  {
    hide Kind, MergeMap, ChangedMap, MergeProviders, ChangedProviders, MergeChats, ChangedChats, AddedChats, Find, Waiting,
      SameProvider;
    var a, f := active.file, file.file;
    WaitingParts(ChangedMap(a.top, f.top, []), ChangedMap(a.telegram, f.telegram, [Key("telegram")]),
                 ChangedChats(a.chats, f.chats, active.instructions, file.instructions), AddedChats(a.chats, f.chats),
                 ChangedMap(a.agent, f.agent, [Key("agent")]), PromptChange(active, file),
                 ChangedProviders(a.providers, f.providers));
    MapWaits(a.top, f.top, []);
    MapWaits(a.telegram, f.telegram, [Key("telegram")]);
    MapWaits(a.agent, f.agent, [Key("agent")]);
    ChatsWait(a.chats, f.chats, active.instructions, file.instructions);
    PromptWaits(active, file);
    ProvidersAllHot(a.providers, f.providers);
    WaitingHot(ChangedProviders(a.providers, f.providers));
    ProvidersSettle(a.providers, f.providers);
    TextsWait(active, file);
  }

  lemma PromptWaits(active: Source, file: Source)
    requires Waiting(PromptChange(active, file))
    ensures active.file.promptFile == file.file.promptFile && active.prompt == file.prompt
  {
    PromptHot();
    hide Kind;
    assert [Key("agent"), Key("system_prompt_file")] !in PromptChange(active, file);
  }

  lemma TextsWait(active: Source, file: Source)
    requires Loaded(active) && Loaded(file)
    requires MergeChats(active.file.chats, file.file.chats) == active.file.chats
    requires forall c | c in active.file.chats && Find(file.file.chats, c.id).Some? ::
               c.instructionsFile == Find(file.file.chats, c.id).value.instructionsFile
               && (c.instructionsFile.Some? ==> Text(active.instructions, c.id) == Text(file.instructions, c.id))
    ensures Candidate(active, file).instructions == active.instructions
  {
    hide Kind, MergeMap, MergeProviders, MergeChats;
    CandidateTexts(active, file);
    var t := Candidate(active, file);
    forall id ensures id in t.instructions <==> id in active.instructions { FindMeans(active.file.chats, id); }
    forall id | id in active.instructions ensures t.instructions[id] == active.instructions[id] {
      var c :| c in active.file.chats && c.id == id;
      FindMeans(file.file.chats, id);
      if id in file.instructions {
        assert Find(file.file.chats, id).Some?;
        var d := Find(file.file.chats, id).value;
        if c.instructionsFile.None? { assert active.instructions[c.id] == "" && file.instructions[d.id] == ""; }
      }
    }
  }
}
