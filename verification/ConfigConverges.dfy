/** Comparing again settles: the candidate is a fixed point, and what is left is exactly what waits for a restart. */
module ConfigConverges {
  import opened Options
  import opened ConfigDiff
  import opened ConfigCandidate

  // ---- kinds of the paths that are built dynamically ----

  lemma ChatNeedsRestart(id: int)
    ensures Kind(ChatPath(id)) == Restart
  {
    assert ChatPath(id)[0] == Key("telegram");
  }

  lemma ChatFieldHot(id: int, k: string)
    requires k in CHAT_HOT_KEYS
    ensures Kind(ChatPath(id) + [Key(k)]) == Hot
  {
  }

  lemma ProviderHot(p: Path)
    requires |p| >= 2 && p[0] == Key("providers")
    ensures Kind(p) == Hot
  {
  }

  lemma PromptHot()
    ensures Kind([Key("agent"), Key("system_prompt_file")]) == Hot
  {
  }

  lemma {:induction false} ChangedExtends(active: Json, file: Json, path: Path, p: Path)
    requires p in Changed(active, file, path)
    ensures path <= p
    decreases active
  {
    if active.Obj? && file.Obj? {
      ChangedMeans(active, file, path, p);
      var k :| k in active.fields.Keys + file.fields.Keys
               && p in ChangedField(Field(active.fields, k), Field(file.fields, k), path + [Key(k)]);
      if k in active.fields && k in file.fields {
        ChangedExtends(active.fields[k], file.fields[k], path + [Key(k)], p);
      }
    }
  }

  lemma RestartsOfUnion(x: set<Path>, y: set<Path>)
    ensures Restarts(x + y) == Restarts(x) + Restarts(y)
  {
  }

  lemma MapAgain(active: map<string, Json>, file: map<string, Json>, path: Path)
    ensures MergeMap(MergeMap(active, file, path), file, path) == MergeMap(active, file, path)
    ensures ChangedMap(MergeMap(active, file, path), file, path) == Restarts(ChangedMap(active, file, path))
    ensures Restarts(ChangedMap(active, file, path)) == {} ==> MergeMap(active, file, path) == file
  {
    hide Kind;
    var once := Merge(Obj(active), Obj(file), path);
    assert once == Obj(MergeMap(active, file, path));
    MergeTwice(Obj(active), Obj(file), path);
    ChangedAgain(Obj(active), Obj(file), path);
    if Restarts(ChangedMap(active, file, path)) == {} { NothingPending(Obj(active), Obj(file), path); }
    hide Merge, Changed;
  }

  // ---- chats ----

  lemma HotOnly(paths: set<Path>)
    requires forall p | p in paths :: Kind(p) == Hot
    ensures Restarts(paths) == {}
  {
    hide Kind;
  }

  lemma SettingsHot(active: Chat, file: Chat, was: string, now: string)
    ensures Restarts(ChangedSettings(active, file)) == {} && Restarts(ChangedText(active, file, was, now)) == {}
  {
    forall k | k in CHAT_HOT_KEYS ensures Kind(ChatPath(active.id) + [Key(k)]) == Hot { ChatFieldHot(active.id, k); }
    assert SETTING_KEYS <= CHAT_HOT_KEYS && "instructions_file" in CHAT_HOT_KEYS;
    hide Kind, ChatPath;
    HotOnly(ChangedSettings(active, file));
    HotOnly(ChangedText(active, file, was, now));
  }

  lemma SettingsSettled(active: Chat, file: Chat, now: string)
    requires active.settings == file.settings && active.instructionsFile == file.instructionsFile
    ensures ChangedSettings(active, file) == {} && ChangedText(active, file, now, now) == {}
  {
  }

  lemma ChatAgain(active: Chat, file: Chat, was: string, now: string)
    requires active.id == file.id
    ensures MergeChat(MergeChat(active, file), file) == MergeChat(active, file)
    ensures ChangedChat(MergeChat(active, file), file, now, now) == Restarts(ChangedChat(active, file, was, now))
    ensures Restarts(ChangedChat(active, file, was, now)) == {} ==> MergeChat(active, file) == file
  {
    hide Kind, MergeMap, ChangedMap, ChatPath, ChangedSettings, ChangedText, Restarts;
    MapAgain(active.fields, file.fields, ChatPath(active.id));
    SettingsHot(active, file, was, now);
    SettingsSettled(MergeChat(active, file), file, now);
    var x := ChangedMap(active.fields, file.fields, ChatPath(active.id));
    RestartsOfUnion(x, ChangedSettings(active, file));
    RestartsOfUnion(x + ChangedSettings(active, file), ChangedText(active, file, was, now));
  }

  lemma {:induction false} FindMeans(chats: seq<Chat>, id: int)
    ensures Find(chats, id).Some? ==> Find(chats, id).value in chats && Find(chats, id).value.id == id
    ensures Find(chats, id).None? ==> forall c | c in chats :: c.id != id
    decreases chats
  {
    if chats != [] { FindMeans(chats[1..], id); }
  }

  lemma {:induction false} FindOwn(chats: seq<Chat>, c: Chat)
    requires DistinctChats(chats) && c in chats
    ensures Find(chats, c.id) == Some(c)
  {
    FindMeans(chats, c.id);
  }

  lemma {:induction false} MergedIds(active: seq<Chat>, file: seq<Chat>)
    ensures |MergeChats(active, file)| == |active|
    ensures forall i | 0 <= i < |active| :: MergeChats(active, file)[i] == Merged(active[i], file)
    decreases active
  {
    if active != [] {
      var rest := MergeChats(active[1..], file);
      assert MergeChats(active, file) == [Merged(active[0], file)] + rest;
      hide Merged, MergeChats;
      MergedIds(active[1..], file);
      forall i | 0 <= i < |active| ensures ([Merged(active[0], file)] + rest)[i] == Merged(active[i], file) {
        if i > 0 { assert active[1..][i - 1] == active[i]; }
      }
    }
  }

  lemma {:induction false} FindMerged(active: seq<Chat>, file: seq<Chat>, id: int)
    ensures Find(MergeChats(active, file), id).None? <==> Find(active, id).None?
    decreases active
  {
    if active != [] {
      FindMerged(active[1..], file, id);
      FindMeans(file, active[0].id);
      assert MergeChats(active, file)[1..] == MergeChats(active[1..], file);
    }
  }

  lemma {:induction false} MergeChatsTwice(active: seq<Chat>, file: seq<Chat>)
    ensures MergeChats(MergeChats(active, file), file) == MergeChats(active, file)
    decreases active
  {
    if active != [] {
      assert active[0] in active && forall c | c in active[1..] :: c in active;
      MergeChatsTwice(active[1..], file);
      FindMeans(file, active[0].id);
      var found := Find(file, active[0].id);
      if found.Some? { ChatAgain(active[0], found.value, "", ""); }
      hide MergeChat;
      var rest := MergeChats(active[1..], file);
      var first := if found.None? then active[0] else MergeChat(active[0], found.value);
      assert MergeChats(active, file) == [first] + rest && ([first] + rest)[1..] == rest;
    }
  }

  lemma {:induction false} ChangedChatsAgain(active: seq<Chat>, file: seq<Chat>, was: map<int, string>,
                                             candidate: map<int, string>, now: map<int, string>)
    requires forall c | c in active && Find(file, c.id).Some? :: Text(candidate, c.id) == Text(now, c.id)
    ensures ChangedChats(MergeChats(active, file), file, candidate, now) == Restarts(ChangedChats(active, file, was, now))
    decreases active
  {
    hide Kind;
    if active != [] {
      var c := active[0];
      assert c in active && forall x | x in active[1..] :: x in active;
      ChangedChatsAgain(active[1..], file, was, candidate, now);
      FindMeans(file, c.id);
      var found := Find(file, c.id);
      var rest := MergeChats(active[1..], file);
      var first := if found.None? then c else MergeChat(c, found.value);
      assert MergeChats(active, file) == [first] + rest && ([first] + rest)[1..] == rest;
      ChatNeedsRestart(c.id);
      if found.Some? { ChatAgain(c, found.value, Text(was, c.id), Text(now, c.id)); }
      var head := if found.None? then {ChatPath(c.id)} else ChangedChat(c, found.value, Text(was, c.id), Text(now, c.id));
      RestartsOfUnion(head, ChangedChats(active[1..], file, was, now));
      assert first.id == c.id;
      hide MergeChat, ChangedChat, ChatPath;
    }
  }

  // ---- providers ----

  lemma ProviderTakesFile(alias: string, active: Provider, file: Provider)
    ensures MergeProvider(alias, active, file) == file
    ensures ChangedProvider(alias, file, file) == {}
  {
    var path := ProviderPath(alias);
    forall p | p in ChangedMap(active.fields, file.fields, path) ensures Kind(p) == Hot {
      ChangedExtends(Obj(active.fields), Obj(file.fields), path, p);
      ProviderHot(p);
    }
    MapAgain(active.fields, file.fields, path);
    MergeSame(Obj(file.fields), path);
    hide Kind, MergeMap;
  }

  lemma ProvidersTakeFile(active: map<string, Provider>, file: map<string, Provider>)
    ensures MergeProviders(active, file) == file
  {
    hide MergeProvider;
    forall alias | alias in file && alias in active ensures MergeProvider(alias, active[alias], file[alias]) == file[alias] {
      ProviderTakesFile(alias, active[alias], file[alias]);
    }
  }

  lemma ProvidersSettled(file: map<string, Provider>)
    ensures ChangedProviders(file, file) == {}
  {
    hide ChangedProvider;
    forall alias | alias in file ensures ChangedProvider(alias, file[alias], file[alias]) == {} {
      ProviderTakesFile(alias, file[alias], file[alias]);
    }
    assert forall alias | alias in file :: alias in file.Keys;
  }

  lemma ProviderChangesHot(alias: string, active: Provider, file: Provider)
    ensures forall p | p in ChangedProvider(alias, active, file) :: Kind(p) == Hot
  {
    forall p | p in ChangedProvider(alias, active, file) ensures Kind(p) == Hot {
      if p in ChangedMap(active.fields, file.fields, ProviderPath(alias)) {
        ChangedExtends(Obj(active.fields), Obj(file.fields), ProviderPath(alias), p);
      }
      ProviderHot(p);
    }
  }

  lemma ProvidersAllHot(active: map<string, Provider>, file: map<string, Provider>)
    ensures Restarts(ChangedProviders(active, file)) == {}
  {
    forall alias | alias in active && alias in file
      ensures forall p | p in ChangedProvider(alias, active[alias], file[alias]) :: Kind(p) == Hot
    {
      ProviderChangesHot(alias, active[alias], file[alias]);
    }
    forall alias: string ensures Kind(ProviderPath(alias)) == Hot { ProviderHot(ProviderPath(alias)); }
    hide Kind, ChangedProvider, ProviderPath;
  }

  // ---- the whole configuration ----

  lemma CandidateTexts(active: Source, file: Source)
    requires Loaded(active) && Loaded(file)
    ensures var t := Candidate(active, file);
            && (forall id :: id in t.instructions <==> Find(active.file.chats, id).Some?)
            && (forall id | id in t.instructions ::
                  t.instructions[id] == if id in file.instructions then file.instructions[id]
                                        else Text(active.instructions, id))
            && (forall c | c in active.file.chats && Find(file.file.chats, c.id).Some? ::
                  Text(t.instructions, c.id) == Text(file.instructions, c.id))
  {
    hide Kind, MergeMap, MergeProviders, MergeChats, Find;
    var chats := MergeChats(active.file.chats, file.file.chats);
    MergedIds(active.file.chats, file.file.chats);
    forall id ensures Find(active.file.chats, id).Some? <==> exists c :: c in chats && c.id == id {
      FindMeans(active.file.chats, id);
      FindMeans(chats, id);
      FindMerged(active.file.chats, file.file.chats, id);
    }
    forall c | c in active.file.chats && Find(file.file.chats, c.id).Some? ensures c.id in file.instructions {
      FindMeans(file.file.chats, c.id);
    }
    forall c | c in active.file.chats ensures Find(active.file.chats, c.id).Some? { FindMeans(active.file.chats, c.id); }
  }

  /** Taking the candidate as active and comparing again yields the same candidate. */
  lemma CandidateTwice(active: Source, file: Source)
    requires Loaded(active) && Loaded(file)
    ensures Candidate(Candidate(active, file), file).file == Candidate(active, file).file
  {
    var a, f := active.file, file.file;
    MapAgain(a.top, f.top, []);
    MapAgain(a.telegram, f.telegram, [Key("telegram")]);
    MapAgain(a.agent, f.agent, [Key("agent")]);
    MergeChatsTwice(a.chats, f.chats);
    ProvidersTakeFile(a.providers, f.providers);
    ProvidersTakeFile(f.providers, f.providers);
    hide MergeMap, MergeProviders, MergeChats, Loaded, Kind;
  }

  lemma SameTexts(x: map<int, string>, y: map<int, string>, now: map<int, string>, was: map<int, string>)
    requires x.Keys == y.Keys
    requires forall id | id in x :: x[id] == if id in now then now[id] else Text(was, id)
    requires forall id | id in y :: y[id] == if id in now then now[id] else Text(x, id)
    ensures x == y
  {
    forall id | id in x ensures id in y && y[id] == x[id] { assert id in y.Keys; }
    forall id | id in y ensures id in x { assert id in x.Keys; }
  }

  lemma CandidateTwiceTexts(active: Source, file: Source)
    requires Loaded(active) && Loaded(file) && Loaded(Candidate(active, file))
    ensures Candidate(Candidate(active, file), file) == Candidate(active, file)
  {
    hide Kind, MergeMap, MergeProviders, Loaded, Find, MergeChats;
    var once := Candidate(active, file);
    var twice := Candidate(once, file);
    assert once.prompt == file.prompt && twice.prompt == file.prompt;
    assert once.file.chats == MergeChats(active.file.chats, file.file.chats);
    hide Candidate;
    CandidateTwice(active, file);
    CandidateTexts(active, file);
    CandidateTexts(once, file);
    forall id ensures id in once.instructions <==> id in twice.instructions {
      FindMerged(active.file.chats, file.file.chats, id);
    }
    SameTexts(once.instructions, twice.instructions, file.instructions, active.instructions);
  }

  lemma MergedChat(c: Chat, file: seq<Chat>)
    ensures Merged(c, file).id == c.id
    ensures Merged(c, file).settings == c.settings || exists x :: x in file && Merged(c, file).settings == x.settings
    ensures Merged(c, file).instructionsFile.None? ==>
              (Find(file, c.id).None? && c.instructionsFile.None?)
              || (Find(file, c.id).Some? && Find(file, c.id).value in file && Find(file, c.id).value.id == c.id
                  && Find(file, c.id).value.instructionsFile.None?)
  {
    FindMeans(file, c.id);
    hide MergeMap, ChatPath;
  }

  lemma MergedChats(active: Source, file: Source, c: Chat)
    requires Loaded(active) && Loaded(file) && c in active.file.chats
    ensures var m, t := Merged(c, file.file.chats), Candidate(active, file);
            && m.settings.Keys <= SETTING_KEYS
            && (m.instructionsFile.None? ==> m.id in t.instructions && t.instructions[m.id] == "")
  {
    CandidateTexts(active, file);
    MergedChat(c, file.file.chats);
    FindMeans(active.file.chats, c.id);
    FindMeans(file.file.chats, c.id);
    hide Merged, Candidate, Find, MergeChats;
  }

  lemma CandidateChats(active: Source, file: Source)
    requires Loaded(active) && Loaded(file)
    ensures var t := Candidate(active, file);
            && |t.file.chats| == |active.file.chats|
            && (forall i | 0 <= i < |t.file.chats| :: t.file.chats[i].id == active.file.chats[i].id)
            && (forall c | c in t.file.chats ::
                  c.settings.Keys <= SETTING_KEYS
                  && (c.instructionsFile.None? ==> c.id in t.instructions && t.instructions[c.id] == ""))
  {
    hide Kind, MergeMap, MergeProviders, MergeChats, Find, Merged, Loaded;
    var t := Candidate(active, file);
    var a, f := active.file.chats, file.file.chats;
    assert t.file.chats == MergeChats(a, f);
    hide Candidate;
    MergedIds(a, f);
    forall i | 0 <= i < |a| ensures t.file.chats[i].id == a[i].id { MergedChat(a[i], f); }
    forall c | c in t.file.chats
      ensures c.settings.Keys <= SETTING_KEYS && (c.instructionsFile.None? ==> c.id in t.instructions && t.instructions[c.id] == "")
    {
      var i :| 0 <= i < |a| && t.file.chats[i] == c;
      var x := a[i];
      assert x in a;
      MergedChats(active, file, x);
    }
  }

  lemma CandidateIds(active: Source, file: Source, id: int)
    requires Loaded(active) && Loaded(file)
    ensures var t := Candidate(active, file); id in t.instructions <==> exists c :: c in t.file.chats && c.id == id
  {
    CandidateTexts(active, file);
    FindMerged(active.file.chats, file.file.chats, id);
    FindMeans(Candidate(active, file).file.chats, id);
    hide Loaded, Find, MergeChats, MergeMap;
  }

  /** A candidate is itself a configuration a load could have produced. */
  lemma CandidateLoaded(active: Source, file: Source)
    requires Loaded(active) && Loaded(file)
    ensures Loaded(Candidate(active, file))
  {
    hide Kind, MergeMap, MergeProviders, MergeChats;
    var t := Candidate(active, file);
    assert t.file.providers == MergeProviders(active.file.providers, file.file.providers);
    ProvidersTakeFile(active.file.providers, file.file.providers);
    hide Candidate;
    CandidateChats(active, file);
    forall id ensures id in t.instructions <==> exists c :: c in t.file.chats && c.id == id {
      CandidateIds(active, file, id);
    }
  }

  /** Comparing the candidate with the same file reports exactly the changes that wait for a restart. */
  lemma ChangesAgain(active: Source, file: Source)
    requires Loaded(active) && Loaded(file)
    ensures Changes(Candidate(active, file), file) == Restarts(Changes(active, file))
  {
    hide Kind, MergeMap, ChangedMap, MergeProviders, ChangedProviders, MergeChats, ChangedChats, AddedChats, Find;
    var a, f, t := active.file, file.file, Candidate(active, file);
    MapAgain(a.top, f.top, []);
    MapAgain(a.telegram, f.telegram, [Key("telegram")]);
    MapAgain(a.agent, f.agent, [Key("agent")]);
    CandidateTexts(active, file);
    ChangedChatsAgain(a.chats, f.chats, active.instructions, t.instructions, file.instructions);
    AddedAgain(a.chats, f.chats);
    ProvidersTakeFile(a.providers, f.providers);
    ProvidersSettled(f.providers);
    ProvidersAllHot(a.providers, f.providers);
    PromptHot();
    hide Loaded;
    RestartsOfAll(ChangedMap(a.top, f.top, []), ChangedMap(a.telegram, f.telegram, [Key("telegram")]),
                  ChangedChats(a.chats, f.chats, active.instructions, file.instructions), AddedChats(a.chats, f.chats),
                  ChangedMap(a.agent, f.agent, [Key("agent")]), PromptChange(active, file),
                  ChangedProviders(a.providers, f.providers));
  }

  lemma RestartsOfAll(a: set<Path>, b: set<Path>, c: set<Path>, d: set<Path>, e: set<Path>, f: set<Path>, g: set<Path>)
    ensures Restarts(a + b + c + d + e + f + g)
            == Restarts(a) + Restarts(b) + Restarts(c) + Restarts(d) + Restarts(e) + Restarts(f) + Restarts(g)
  {
    hide Kind;
  }

  lemma AddedAgain(active: seq<Chat>, file: seq<Chat>)
    ensures AddedChats(MergeChats(active, file), file) == AddedChats(active, file)
    ensures Restarts(AddedChats(active, file)) == AddedChats(active, file)
  {
    forall id ensures Find(MergeChats(active, file), id).None? <==> Find(active, id).None? {
      FindMerged(active, file, id);
    }
    forall id ensures Kind(ChatPath(id)) == Restart { ChatNeedsRestart(id); }
    hide Kind, MergeChats, Find, ChatPath;
  }

  // ---- nothing waits for a restart ----

  lemma PartsOfUnion(a: set<Path>, b: set<Path>, c: set<Path>, d: set<Path>, e: set<Path>, f: set<Path>, g: set<Path>)
    requires Restarts(a + b + c + d + e + f + g) == {}
    ensures Restarts(a) == {} && Restarts(b) == {} && Restarts(c) == {} && Restarts(d) == {} && Restarts(e) == {}
    ensures Restarts(f) == {} && Restarts(g) == {}
  {
    hide Kind;
    RestartsOfAll(a, b, c, d, e, f, g);
  }

  lemma {:induction false} ChatsSettle(active: seq<Chat>, file: seq<Chat>, was: map<int, string>, now: map<int, string>)
    requires Restarts(ChangedChats(active, file, was, now)) == {}
    ensures forall c | c in active :: Find(file, c.id).Some? && MergeChat(c, Find(file, c.id).value) == Find(file, c.id).value
    decreases active
  {
    hide Kind, MergeChat, ChangedChat;
    if active != [] {
      var c := active[0];
      FindMeans(file, c.id);
      var found := Find(file, c.id);
      var head := if found.None? then {ChatPath(c.id)} else ChangedChat(c, found.value, Text(was, c.id), Text(now, c.id));
      RestartsOfUnion(head, ChangedChats(active[1..], file, was, now));
      ChatNeedsRestart(c.id);
      assert found.None? ==> ChatPath(c.id) in Restarts(head);
      if found.Some? { ChatAgain(c, found.value, Text(was, c.id), Text(now, c.id)); }
      ChatsSettle(active[1..], file, was, now);
      assert active == [c] + active[1..];
    }
  }

  lemma IdsCons(head: Chat, rest: seq<Chat>)
    ensures (set c | c in [head] + rest :: c.id) == (set c | c in rest :: c.id) + {head.id}
  {
  }

  lemma {:induction false} IdsCount(chats: seq<Chat>)
    requires DistinctChats(chats)
    ensures |set c | c in chats :: c.id| == |chats|
    decreases chats
  {
    if chats != [] {
      var rest := chats[1..];
      IdsCount(rest);
      assert chats == [chats[0]] + rest;
      IdsCons(chats[0], rest);
      forall c | c in rest ensures c.id != chats[0].id {
        var k :| 0 <= k < |rest| && rest[k] == c;
        assert chats[k + 1] == c;
      }
    }
  }

  /** With nothing waiting for a restart the candidate is the file, its chats possibly in another order. */
  lemma NoRestartIsFile(active: Source, file: Source)
    requires Loaded(active) && Loaded(file) && Restarts(Changes(active, file)) == {}
    ensures SameUpToOrder(Candidate(active, file), file)
  {
    hide Kind, MergeMap, ChangedMap, MergeProviders, ChangedProviders, MergeChats, ChangedChats, AddedChats, Find, Restarts;
    var a, f, t := active.file, file.file, Candidate(active, file);
    PartsOfUnion(ChangedMap(a.top, f.top, []), ChangedMap(a.telegram, f.telegram, [Key("telegram")]),
                 ChangedChats(a.chats, f.chats, active.instructions, file.instructions), AddedChats(a.chats, f.chats),
                 ChangedMap(a.agent, f.agent, [Key("agent")]), PromptChange(active, file),
                 ChangedProviders(a.providers, f.providers));
    MapAgain(a.top, f.top, []);
    MapAgain(a.telegram, f.telegram, [Key("telegram")]);
    MapAgain(a.agent, f.agent, [Key("agent")]);
    ProvidersTakeFile(a.providers, f.providers);
    CandidateTexts(active, file);
    SameChats(active, file);
  }

  lemma SameChats(active: Source, file: Source)
    requires Loaded(active) && Loaded(file)
    requires Restarts(ChangedChats(active.file.chats, file.file.chats, active.instructions, file.instructions)) == {}
    requires Restarts(AddedChats(active.file.chats, file.file.chats)) == {}
    ensures var m := MergeChats(active.file.chats, file.file.chats);
            |m| == |file.file.chats| && forall c :: c in m <==> c in file.file.chats
    ensures Candidate(active, file).instructions == file.instructions
  {
    hide Kind, MergeMap, MergeProviders, Find, ChangedChats, MergeChat, ChatPath;
    var a, f := active.file.chats, file.file.chats;
    ChatsSettle(a, f, active.instructions, file.instructions);
    AddedNone(a, f);
    hide MergeChats, AddedChats, Restarts;
    MergedIds(a, f);
    var m := MergeChats(a, f);
    forall c | c in m ensures c in f {
      var i :| 0 <= i < |a| && m[i] == c;
      var x := a[i];
      assert x in a;
      FindMeans(f, x.id);
    }
    forall c | c in f ensures c in m && Find(a, c.id).Some? {
      FindMeans(a, c.id);
      var x := Find(a, c.id).value;
      FindOwn(f, c);
      var i :| 0 <= i < |a| && a[i] == x;
      assert m[i] == c;
    }
    forall i | 0 <= i < |a| ensures m[i].id == a[i].id { MergedChat(a[i], f); }
    IdsCount(m);
    IdsCount(f);
    assert (set c | c in m :: c.id) == (set c | c in f :: c.id);
    SettledTexts(active, file);
  }

  lemma AddedNone(active: seq<Chat>, file: seq<Chat>)
    requires Restarts(AddedChats(active, file)) == {}
    ensures forall c | c in file :: Find(active, c.id).Some?
  {
    AddedAgain(active, file);
    hide Kind, Find, Restarts, ChatPath;
    forall c | c in file ensures Find(active, c.id).Some? {
      assert Find(active, c.id).None? ==> ChatPath(c.id) in AddedChats(active, file);
    }
  }

  lemma SettledTexts(active: Source, file: Source)
    requires Loaded(active) && Loaded(file)
    requires forall c | c in active.file.chats :: Find(file.file.chats, c.id).Some?
    requires forall c | c in file.file.chats :: Find(active.file.chats, c.id).Some?
    ensures Candidate(active, file).instructions == file.instructions
  {
    hide Kind, MergeMap, MergeProviders, Find, MergeChats;
    var t := Candidate(active, file);
    CandidateTexts(active, file);
    forall id ensures id in t.instructions <==> id in file.instructions {
      FindMeans(active.file.chats, id);
      FindMeans(file.file.chats, id);
    }
    hide Candidate, Loaded;
  }
}
