/** The candidate a reload builds from the active configuration and the file. */
module ConfigCandidate {
  import opened Options
  import opened ConfigDiff

  datatype Chat = Chat(id: int, settings: map<string, string>, fields: map<string, Json>, instructionsFile: Option<string>)
  datatype Model = Model(id: string, body: Json)
  datatype Provider = Provider(kind: string, fields: map<string, Json>, models: seq<Model>)

  /** `top` holds every section but telegram, agent and providers. */
  datatype FileConfig = FileConfig(
    top: map<string, Json>, telegram: map<string, Json>, chats: seq<Chat>, agent: map<string, Json>, promptFile: string,
    providers: map<string, Provider>)

  /** A configuration with the prompt texts it was loaded with. */
  datatype Source = Source(file: FileConfig, prompt: string, instructions: map<int, string>)

  const SETTING_KEYS := {"provider", "model", "thinking_level"}

  function ChatPath(id: int): Path { [Key("telegram"), Key("chats"), ChatId(id)] }
  function ProviderPath(alias: string): Path { [Key("providers"), Key(alias)] }

  predicate DistinctChats(chats: seq<Chat>) {
    forall i, j | 0 <= i < j < |chats| :: chats[i].id != chats[j].id
  }

  predicate DistinctModels(models: seq<Model>) {
    forall i, j | 0 <= i < j < |models| :: models[i].id != models[j].id
  }

  function Find(chats: seq<Chat>, id: int): Option<Chat> {
    if chats == [] then None else if chats[0].id == id then Some(chats[0]) else Find(chats[1..], id)
  }

  /** What a successful load guarantees. */
  ghost predicate Loaded(s: Source) {
    && DistinctChats(s.file.chats)
    && (forall c | c in s.file.chats :: c.settings.Keys <= SETTING_KEYS)
    && (forall id :: id in s.instructions <==> exists c :: c in s.file.chats && c.id == id)
    && (forall c | c in s.file.chats && c.instructionsFile.None? :: c.id in s.instructions && s.instructions[c.id] == "")
    && (forall alias | alias in s.file.providers :: DistinctModels(s.file.providers[alias].models))
  }

  function MergeMap(active: map<string, Json>, file: map<string, Json>, path: Path): map<string, Json> {
    Merge(Obj(active), Obj(file), path).fields
  }

  function ChangedMap(active: map<string, Json>, file: map<string, Json>, path: Path): set<Path> {
    Changed(Obj(active), Obj(file), path)
  }

  function Text(instructions: map<int, string>, id: int): string {
    if id in instructions then instructions[id] else ""
  }

  // ---- chats ----

  function MergeChat(active: Chat, file: Chat): Chat {
    Chat(active.id, file.settings, MergeMap(active.fields, file.fields, ChatPath(active.id)), file.instructionsFile)
  }

  function ChangedSettings(active: Chat, file: Chat): set<Path> {
    set k | k in SETTING_KEYS && (k in active.settings || k in file.settings)
            && (k in active.settings && k in file.settings ==> active.settings[k] != file.settings[k]) ::
      ChatPath(active.id) + [Key(k)]
  }

  /** The instructions are compared by path and by text. */
  function ChangedText(active: Chat, file: Chat, activeText: string, fileText: string): set<Path> {
    if (active.instructionsFile.Some? || file.instructionsFile.Some?)
       && (active.instructionsFile != file.instructionsFile || activeText != fileText)
    then {ChatPath(active.id) + [Key("instructions_file")]} else {}
  }

  function ChangedChat(active: Chat, file: Chat, activeText: string, fileText: string): set<Path> {
    ChangedMap(active.fields, file.fields, ChatPath(active.id)) + ChangedSettings(active, file)
    + ChangedText(active, file, activeText, fileText)
  }

  /** A chat the file dropped stays until a restart. */
  function Merged(active: Chat, file: seq<Chat>): Chat {
    var found := Find(file, active.id);
    if found.None? then active else MergeChat(active, found.value)
  }

  function ChatChange(active: Chat, file: seq<Chat>, was: map<int, string>, now: map<int, string>): set<Path> {
    var found := Find(file, active.id);
    if found.None? then {ChatPath(active.id)}
    else ChangedChat(active, found.value, Text(was, active.id), Text(now, active.id))
  }

  /** Active chats, in their order. */
  function MergeChats(active: seq<Chat>, file: seq<Chat>): seq<Chat> {
    if active == [] then [] else [Merged(active[0], file)] + MergeChats(active[1..], file)
  }

  function ChangedChats(active: seq<Chat>, file: seq<Chat>, was: map<int, string>, now: map<int, string>): set<Path> {
    if active == [] then {} else ChatChange(active[0], file, was, now) + ChangedChats(active[1..], file, was, now)
  }

  function AddedChats(active: seq<Chat>, file: seq<Chat>): set<Path> {
    set c | c in file && Find(active, c.id).None? :: ChatPath(c.id)
  }

  // ---- providers ----

  function MergeProvider(alias: string, active: Provider, file: Provider): Provider {
    if active.kind != file.kind then file
    else Provider(file.kind, MergeMap(active.fields, file.fields, ProviderPath(alias)), file.models)
  }

  function MergeProviders(active: map<string, Provider>, file: map<string, Provider>): map<string, Provider> {
    map alias | alias in file ::
      if alias in active then MergeProvider(alias, active[alias], file[alias]) else file[alias]
  }

  function ModelPath(alias: string, id: string): Path { ProviderPath(alias) + [ModelId(id)] }

  /** Models the file adds or edits, and models it no longer lists. */
  function NewModels(alias: string, active: seq<Model>, file: seq<Model>): set<Path> {
    set m | m in file && m !in active :: ModelPath(alias, m.id)
  }

  function GoneModels(alias: string, active: seq<Model>, file: seq<Model>): set<Path> {
    set m | m in active && (forall n | n in file :: n.id != m.id) :: ModelPath(alias, m.id)
  }

  function ChangedModels(alias: string, active: seq<Model>, file: seq<Model>): set<Path> {
    NewModels(alias, active, file) + GoneModels(alias, active, file)
  }

  function ChangedProvider(alias: string, active: Provider, file: Provider): set<Path> {
    if active.kind != file.kind then {ProviderPath(alias)}
    else ChangedMap(active.fields, file.fields, ProviderPath(alias)) + ChangedModels(alias, active.models, file.models)
  }

  function ProviderChange(active: map<string, Provider>, file: map<string, Provider>, alias: string): set<Path> {
    if alias in active && alias in file then ChangedProvider(alias, active[alias], file[alias]) else {ProviderPath(alias)}
  }

  function ProvidersOver(active: map<string, Provider>, file: map<string, Provider>, aliases: set<string>): set<Path> {
    set alias, p | alias in aliases && p in ProviderChange(active, file, alias) :: p
  }

  function ChangedProviders(active: map<string, Provider>, file: map<string, Provider>): set<Path> {
    ProvidersOver(active, file, active.Keys + file.Keys)
  }

  // ---- the whole configuration ----

  function Candidate(active: Source, file: Source): Source {
    var a, f := active.file, file.file;
    var chats := MergeChats(a.chats, f.chats);
    Source(FileConfig(MergeMap(a.top, f.top, []), MergeMap(a.telegram, f.telegram, [Key("telegram")]), chats,
                      MergeMap(a.agent, f.agent, [Key("agent")]), f.promptFile, MergeProviders(a.providers, f.providers)),
           file.prompt,
           map c | c in chats :: c.id := if c.id in file.instructions then file.instructions[c.id]
                                         else Text(active.instructions, c.id))
  }

  function PromptChange(active: Source, file: Source): set<Path> {
    if active.file.promptFile != file.file.promptFile || active.prompt != file.prompt
    then {[Key("agent"), Key("system_prompt_file")]} else {}
  }

  function Changes(active: Source, file: Source): set<Path> {
    var a, f := active.file, file.file;
    ChangedMap(a.top, f.top, []) + ChangedMap(a.telegram, f.telegram, [Key("telegram")])
    + ChangedChats(a.chats, f.chats, active.instructions, file.instructions) + AddedChats(a.chats, f.chats)
    + ChangedMap(a.agent, f.agent, [Key("agent")]) + PromptChange(active, file)
    + ChangedProviders(a.providers, f.providers)
  }

  /** The same configuration, with its chats in any order. */
  ghost predicate SameUpToOrder(x: Source, y: Source) {
    && x.prompt == y.prompt && x.instructions == y.instructions
    && x.file.(chats := y.file.chats) == y.file
    && |x.file.chats| == |y.file.chats| && (forall c :: c in x.file.chats <==> c in y.file.chats)
  }
}
