/** When a reload publishes, and why reloading an unchanged file publishes nothing. */
module ConfigReload {
  import opened Options
  import opened ConfigDiff
  import opened ConfigCandidate
  import opened ConfigConverges
  import opened ConfigMerge

  /** A loaded file and its identity, the hash of its text and prompt files. */
  datatype FileOnDisk = FileOnDisk(source: Source, hash: string)

  /**
   The deterministic parts a reload calls out to: semantic validation, the model registry and its
   validation, the image snapshot's identity (absent without an image service), the candidate's hash.
   */
  datatype Services = Services(
    valid: FileConfig -> bool, registry: Source -> bool, modelsFit: Source -> bool,
    image: Option<Source -> Option<string>>, digest: Source -> string)

  datatype Current = Current(config: Source, hash: string, generation: nat)

  datatype State = State(
    activeFile: FileConfig, current: Current, fileHash: string, restartRequired: set<Path>, imageId: Option<string>,
    failed: bool)

  datatype Code = ConfigPermissions | ConfigInvalid | CandidateInvalid | RegistryFailed | ModelUnusable | ImageFailed

  datatype Outcome = Applied(hot: set<Path>, restart: set<Path>, outside: set<Path>) | Rejected(code: Code)

  function Active(s: State): Source { Source(s.activeFile, s.current.config.prompt, s.current.config.instructions) }

  function OfKind(paths: set<Path>, kind: ChangeKind): set<Path> { set p | p in paths && Kind(p) == kind }

  /** `None` is a failed preparation. */
  function ImageId(services: Services, candidate: Source): Option<Option<string>> {
    if services.image.None? then Some(None)
    else
      var id := services.image.value(candidate);
      if id.None? then None else Some(id)
  }

  function Refusal(services: Services, candidate: Source): (r: Option<Code>)
    ensures r.None? ==> ImageId(services, candidate).Some?
  {
    if !services.valid(candidate.file) then Some(CandidateInvalid)
    else if !services.registry(candidate) then Some(RegistryFailed)
    else if !services.modelsFit(candidate) then Some(ModelUnusable)
    else if ImageId(services, candidate).None? then Some(ImageFailed) else None
  }

  function NewHash(s: State, services: Services, file: FileOnDisk, candidate: Source, restart: set<Path>, changed: bool): string {
    if restart == {} then file.hash else if changed then services.digest(candidate) else s.current.hash
  }

  function Settle(s: State, services: Services, file: FileOnDisk, candidate: Source, changes: set<Path>): (State, Outcome) {
    var refusal := Refusal(services, candidate);
    if refusal.Some? then (s.(failed := true), Rejected(refusal.value))
    else
      var hot, restart, outside := OfKind(changes, Hot), OfKind(changes, Restart), OfKind(changes, OutsideServe);
      var imageId := ImageId(services, candidate).value;
      var changed := hot != {} || outside != {} || imageId != s.imageId;
      var hash := NewHash(s, services, file, candidate, restart, changed);
      if !changed && hash == s.current.hash then
        (s.(fileHash := file.hash, restartRequired := restart, failed := false), Applied(hot, restart, outside))
      else
        (State(candidate.file, Current(candidate, hash, s.current.generation + 1), file.hash, restart, imageId, false),
         Applied(hot, restart, outside))
  }

  /** One reload of a file that loaded. */
  function ApplyLoaded(s: State, services: Services, file: FileOnDisk): (State, Outcome) {
    Settle(s, services, file, Candidate(Active(s), file.source), Changes(Active(s), file.source))
  }

  function Apply(s: State, services: Services, permitted: bool, file: Option<FileOnDisk>): (State, Outcome) {
    if !permitted then (s.(failed := true), Rejected(ConfigPermissions))
    else if file.None? then (s.(failed := true), Rejected(ConfigInvalid))
    else ApplyLoaded(s, services, file.value)
  }

  /** The file side and the running side describe the same configuration. */
  ghost predicate Valid(s: State) { s.activeFile == s.current.config.file && Loaded(s.current.config) }

  lemma RestartPart(changes: set<Path>)
    ensures OfKind(changes, Restart) == Restarts(changes)
    ensures OfKind(Restarts(changes), Restart) == Restarts(changes)
    ensures OfKind(Restarts(changes), Hot) == {} && OfKind(Restarts(changes), OutsideServe) == {}
  {
    hide Kind;
  }

  /** A refused reload changes nothing the process runs on; an accepted one keeps the state valid. */
  lemma ApplyKeeps(s: State, services: Services, permitted: bool, file: Option<FileOnDisk>)
    requires Valid(s) && (file.Some? ==> Loaded(file.value.source))
    ensures var (t, o) := Apply(s, services, permitted, file);
            && Valid(t)
            && (o.Rejected? ==> t == s.(failed := true))
            && (o.Applied? ==> permitted && file.Some? && t.fileHash == file.value.hash && !t.failed
                               && t.restartRequired == Restarts(Changes(Active(s), file.value.source)))
  {
    hide Candidate, Changes, Loaded, Kind;
    assert Active(s) == s.current.config;
    if permitted && file.Some? {
      CandidateLoaded(Active(s), file.value.source);
      RestartPart(Changes(Active(s), file.value.source));
    }
  }

  /** A reload is applied exactly when every check passes, and a refusal names the first one that does not. */
  lemma OutcomeMeans(s: State, services: Services, permitted: bool, file: Option<FileOnDisk>)
    ensures var o := Apply(s, services, permitted, file).1;
            && (!permitted ==> o == Rejected(ConfigPermissions))
            && (permitted && file.None? ==> o == Rejected(ConfigInvalid))
            && (permitted && file.Some? ==>
                  var candidate := Candidate(Active(s), file.value.source);
                  var image := services.image.Some? ==> services.image.value(candidate).Some?;
                  && (o.Applied? <==> services.valid(candidate.file) && services.registry(candidate)
                                      && services.modelsFit(candidate) && image)
                  && (o == Rejected(CandidateInvalid) <==> !services.valid(candidate.file))
                  && (o == Rejected(RegistryFailed) <==> services.valid(candidate.file) && !services.registry(candidate))
                  && (o == Rejected(ModelUnusable) <==>
                        services.valid(candidate.file) && services.registry(candidate) && !services.modelsFit(candidate))
                  && (o == Rejected(ImageFailed) <==>
                        services.valid(candidate.file) && services.registry(candidate) && services.modelsFit(candidate)
                        && !image))
  {
    hide Candidate, Changes, Kind;
  }

  /**
   What an applied reload reports and publishes: the candidate, under a new generation, exactly when something it can
   apply now changed, or the image did, or only the hash moved.
   */
  lemma PublishMeans(s: State, services: Services, file: FileOnDisk)
    requires ApplyLoaded(s, services, file).1.Applied?
    ensures var (t, o) := ApplyLoaded(s, services, file);
            var candidate, changes := Candidate(Active(s), file.source), Changes(Active(s), file.source);
            var image := if services.image.Some? then services.image.value(candidate) else None;
            var changed := (exists p | p in changes :: !Kind(p).Restart?) || image != s.imageId;
            && (forall p :: p in o.hot <==> p in changes && Kind(p).Hot?)
            && (forall p :: p in o.restart <==> p in changes && Kind(p).Restart?)
            && (forall p :: p in o.outside <==> p in changes && Kind(p).OutsideServe?)
            && t.fileHash == file.hash && t.restartRequired == o.restart && !t.failed
            && t.current.hash == (if o.restart == {} then file.hash else if changed then services.digest(candidate)
                                  else s.current.hash)
            && (if changed || t.current.hash != s.current.hash
                then t.current.config == candidate && t.current.generation == s.current.generation + 1
                     && t.activeFile == candidate.file && t.imageId == image
                else t.current == s.current && t.activeFile == s.activeFile && t.imageId == s.imageId)
  {
    hide Candidate, Changes, Kind;
    var (t, o) := ApplyLoaded(s, services, file);
    var changes := Changes(Active(s), file.source);
    if exists p | p in changes :: !Kind(p).Restart? {
      var p :| p in changes && !Kind(p).Restart?;
      assert p in o.hot || p in o.outside;
    }
    if o.hot != {} {
      var p :| p in o.hot;
      assert p in changes && !Kind(p).Restart?;
    }
    if o.outside != {} {
      var p :| p in o.outside;
      assert p in changes && !Kind(p).Restart?;
    }
  }

  /** Reloading an unchanged file a second time publishes nothing and changes nothing. */
  lemma SecondReloadIsQuiet(s: State, services: Services, file: FileOnDisk)
    requires Valid(s) && Loaded(file.source) && ApplyLoaded(s, services, file).1.Applied?
    ensures var (t, o) := ApplyLoaded(s, services, file);
            ApplyLoaded(t, services, file) == (t, Applied({}, o.restart, {}))
  {
    hide Candidate, Changes, Loaded, Kind;
    assert Active(s) == s.current.config;
    var changes := Changes(Active(s), file.source);
    var candidate := Candidate(Active(s), file.source);
    RestartPart(changes);
    CandidateLoaded(Active(s), file.source);
    ChangesAgain(Active(s), file.source);
    CandidateTwiceTexts(Active(s), file.source);
    var (t, o) := ApplyLoaded(s, services, file);
    assert Active(t) == candidate || Active(t) == Active(s);
  }

  /** With nothing waiting for a restart, a publishing reload leaves the process running exactly the file. */
  lemma PublishedIsFile(s: State, services: Services, file: FileOnDisk)
    requires Valid(s) && Loaded(file.source) && ApplyLoaded(s, services, file).1.Applied?
    requires ApplyLoaded(s, services, file).1.restart == {}
    ensures var t := ApplyLoaded(s, services, file).0;
            && t.current.hash == file.hash
            && (t.current.generation > s.current.generation ==> SameUpToOrder(t.current.config, file.source))
  {
    hide Candidate, Changes, Loaded, Kind, SameUpToOrder;
    assert Active(s) == s.current.config;
    RestartPart(Changes(Active(s), file.source));
    if Restarts(Changes(Active(s), file.source)) == {} { NoRestartIsFile(Active(s), file.source); }
  }

  class ConfigReloader {
    const services: Services
    var activeFile: FileConfig
    var current: Current
    var fileHash: string
    var restartRequired: set<Path>
    var imageSnapshotId: Option<string>
    var lastFailed: bool

    constructor (services: Services, loaded: FileOnDisk)
      requires Loaded(loaded.source)
      ensures Valid(View()) && current == Current(loaded.source, loaded.hash, 0) && fileHash == loaded.hash
    {
      this.services := services;
      activeFile, current, fileHash := loaded.source.file, Current(loaded.source, loaded.hash, 0), loaded.hash;
      restartRequired, imageSnapshotId, lastFailed := {}, None, false;
    }

    function View(): State
      reads this
    {
      State(activeFile, current, fileHash, restartRequired, imageSnapshotId, lastFailed)
    }

    method Failure(code: Code) returns (outcome: Outcome)
      modifies this`lastFailed
      ensures View() == old(View()).(failed := true) && outcome == Rejected(code)
    {
      lastFailed := true;
      return Rejected(code);
    }

    /** Diffs the file against the running configuration and publishes what can be applied now. */
    method ApplyFile(permitted: bool, loaded: Option<FileOnDisk>) returns (outcome: Outcome)
      requires Valid(View()) && (loaded.Some? ==> Loaded(loaded.value.source))
      modifies this
      ensures (View(), outcome) == Apply(old(View()), services, permitted, loaded)
      ensures Valid(View())
    {
      hide Candidate, Changes, Loaded, Kind;
      ghost var s := View();
      ApplyKeeps(s, services, permitted, loaded);
      if !permitted {
        outcome := Failure(ConfigPermissions);
        return;
      }
      if loaded.None? {
        outcome := Failure(ConfigInvalid);
        return;
      }
      var file := loaded.value;
      var active := Source(activeFile, current.config.prompt, current.config.instructions);
      var differ := new Differ();
      var candidate := differ.DiffConfig(active, file.source);
      var changes := differ.recorder.changes;
      var restart := PathsOf(changes, Restart);
      Recounted(changes, Changes(active, file.source));
      if !services.valid(candidate.file) {
        outcome := Failure(CandidateInvalid);
        return;
      }
      if !services.registry(candidate) {
        outcome := Failure(RegistryFailed);
        return;
      }
      if !services.modelsFit(candidate) {
        outcome := Failure(ModelUnusable);
        return;
      }
      var imageId: Option<string> := None;
      if services.image.Some? {
        imageId := services.image.value(candidate);
        if imageId.None? {
          outcome := Failure(ImageFailed);
          return;
        }
      }
      var imageChanged := imageId != imageSnapshotId;
      var applied, outside := PathsOf(changes, Hot), PathsOf(changes, OutsideServe);
      var changed := applied != {} || outside != {} || imageChanged;
      var hash := if restart == {} then file.hash else if changed then services.digest(candidate) else current.hash;
      if !changed && hash == current.hash {
        fileHash := file.hash;
        restartRequired := restart;
        lastFailed := false;
        return Applied(applied, restart, outside);
      }
      current := Current(candidate, hash, current.generation + 1);
      activeFile := candidate.file;
      fileHash := file.hash;
      restartRequired := restart;
      lastFailed := false;
      imageSnapshotId := imageId;
      return Applied(applied, restart, outside);
    }
  }

  function PathsOf(changes: map<Path, ChangeKind>, kind: ChangeKind): set<Path> {
    set p | p in changes && changes[p] == kind
  }

  lemma Recounted(changes: map<Path, ChangeKind>, paths: set<Path>)
    requires changes == map p | p in paths :: Kind(p)
    ensures forall kind :: PathsOf(changes, kind) == OfKind(paths, kind)
  {
    hide Kind;
  }
}
