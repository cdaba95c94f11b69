/** Writing the configuration and its key jar, two files that must agree whenever the process stops. */
module ConfigFile {
  import opened Options
  import opened ConfigDiff
  import opened KeyJar

  /** What is on disk; a missing jar holds nothing. */
  datatype Disk = Disk(config: Json, jar: map<string, string>)

  /** The configuration names only entries the jar has. */
  ghost predicate Consistent(d: Disk) { Names(d.config) <= d.jar.Keys }

  /** An edit of the text, `None` when it changes nothing, with the jar entries its value names. */
  datatype Edit = Edit(change: Json -> Option<Json>, keys: map<string, string>)

  /** How a file is loaded: an image section that is not valid is dropped, the rest must be valid. */
  datatype Loader = Loader(imageValid: Json -> bool, valid: Json -> bool)

  function Stripped(loader: Loader, j: Json): Json {
    if j.Obj? && "image" in j.fields && !loader.imageValid(j.fields["image"]) then Obj(j.fields - {"image"}) else j
  }

  function Load(loader: Loader, j: Json): Option<Json> {
    var stripped := Stripped(loader, j);
    if loader.valid(stripped) then Some(stripped) else None
  }

  function Edited(j: Json, edits: seq<Edit>): Option<Json>
    decreases edits
  {
    if edits == [] then Some(j)
    else
      var next := edits[0].change(j);
      if next.None? then None else Edited(next.value, edits[1..])
  }

  /** Later edits win where two carry an entry of one name. */
  function Added(edits: seq<Edit>): map<string, string>
    decreases |edits|
  {
    if edits == [] then map[] else Added(edits[..|edits| - 1]) + edits[|edits| - 1].keys
  }

  /** The entries the old text named and the loaded new one does not. */
  function Released(was: Json, loaded: Json): set<string> { Names(was) - Names(loaded) }

  // ---- what a crash can leave ----

  /** The four states the disk passes through; every crash and every failure leaves one of them. */
  function Stages(before: Disk, added: map<string, string>, text: Json, loaded: Json): seq<Disk> {
    var filled := before.jar + added;
    [before, Disk(before.config, filled), Disk(text, filled), Disk(text, filled - Released(before.config, loaded))]
  }

  /** The new text names only what the jar has or the edits add, and loading dropped no name the old text had too. */
  ghost predicate Safe(before: Disk, added: map<string, string>, text: Json, loaded: Json) {
    && Names(text) <= before.jar.Keys + added.Keys
    && Names(before.config) * (Names(text) - Names(loaded)) == {}
  }

  /** Every stage is consistent exactly under that condition. */
  lemma AllStagesConsistent(before: Disk, added: map<string, string>, text: Json, loaded: Json)
    requires Consistent(before)
    ensures (forall d | d in Stages(before, added, text, loaded) :: Consistent(d)) <==> Safe(before, added, text, loaded)
  {
    hide Names;
    var stages := Stages(before, added, text, loaded);
    assert stages[2] in stages && stages[3] in stages;
    assert (before.jar + added).Keys == before.jar.Keys + added.Keys;
    assert (before.jar + added - Released(before.config, loaded)).Keys
           == before.jar.Keys + added.Keys - Released(before.config, loaded);
    if Safe(before, added, text, loaded) {
      forall n | n in Names(text) ensures n in stages[3].jar.Keys {
        assert n !in Released(before.config, loaded) by {
          assert n in Names(before.config) && n !in Names(loaded) ==> n in Names(before.config) * (Names(text) - Names(loaded));
        }
      }
      assert Names(text) <= stages[3].jar.Keys;
      forall d | d in stages ensures Consistent(d) {
        assert d == stages[0] || d == stages[1] || d == stages[2] || d == stages[3];
      }
    }
    if forall d | d in stages :: Consistent(d) {
      assert Consistent(stages[2]) && Consistent(stages[3]);
      assert Names(text) <= before.jar.Keys + added.Keys;
      assert Names(before.config) * (Names(text) - Names(loaded)) == {};
    }
  }

  /** The last stage is consistent exactly when all four are. */
  lemma LastStage(before: Disk, added: map<string, string>, text: Json, loaded: Json)
    requires Consistent(before)
    ensures Consistent(Stages(before, added, text, loaded)[3]) <==> Safe(before, added, text, loaded)
  {
    hide Names;
    AllStagesConsistent(before, added, text, loaded);
    var stages := Stages(before, added, text, loaded);
    assert stages[3] in stages;
    assert (before.jar + added).Keys == before.jar.Keys + added.Keys;
    assert Consistent(stages[3]) ==> Consistent(stages[2]) && Consistent(stages[1]);
    forall d | d in stages ensures Consistent(stages[3]) ==> Consistent(d) {
      assert d == stages[0] || d == stages[1] || d == stages[2] || d == stages[3];
    }
  }

  /** When loading dropped nothing, it is enough that the new text names only known entries. */
  lemma NothingDropped(before: Disk, added: map<string, string>, text: Json)
    requires Consistent(before) && Names(text) <= before.jar.Keys + added.Keys
    ensures forall d | d in Stages(before, added, text, text) :: Consistent(d)
  {
    AllStagesConsistent(before, added, text, text);
    hide Names, Stages;
  }

  // ---- how a write ends ----

  datatype WriteResult = Written | Refused | Conflict | ChangedNothing | Invalid | Failed

  /** What fails in one update of the jar: reading it, or replacing it. */
  datatype Fault = Fault(unreadable: bool, unwritable: bool)

  predicate NoFault(f: Fault) { !f.unreadable && !f.unwritable }

  /** What fails in one write: the target, the temporary file, the added entries, the rename, and either clean-up. */
  datatype Faults = Faults(target: bool, temporary: bool, fill: Fault, rename: bool, undo: Fault, prune: Fault)

  /** The write goes through: its entries are new and stored, and the rename succeeds. */
  predicate Commits(jar: map<string, string>, added: map<string, string>, faults: Faults) {
    (added == map[] || (added.Keys !! jar.Keys && NoFault(faults.fill))) && !faults.rename
  }

  /** How a write ends, step by step. */
  function Verdict(before: Disk, edits: seq<Edit>, loader: Loader, stale: bool, faults: Faults): WriteResult {
    if faults.target then Refused
    else if stale then Conflict
    else
      match Edited(before.config, edits)
      case None => ChangedNothing
      case Some(text) =>
        if faults.temporary then Failed
        else if Load(loader, text).None? then Invalid
        else if Commits(before.jar, Added(edits), faults) then Written
        else Failed
  }

  const WELL := Fault(false, false)
  const FAULTLESS := Faults(false, false, WELL, false, WELL, WELL)

  // ---- a secret that is lost ----

  function Wrapped(k: string, v: Json): Json { Obj(map[k := v]) }

  const SECRET := Wrapped("jar", Str("k"))
  /** A valid image section, and the same secret under a name the schema does not know. */
  const IMAGE_ON := Wrapped("image", Wrapped("api_key", SECRET))
  const IMAGE_OFF := Wrapped("image", Wrapped("apikey", SECRET))

  lemma SecretNames()
    ensures Names(IMAGE_ON) == {"k"} && Names(IMAGE_OFF) == {"k"} && Names(Obj(map[])) == {}
  {
    assert Names(SECRET) == {"k"};
    SingleMember("api_key", SECRET);
    SingleMember("image", Wrapped("api_key", SECRET));
    SingleMember("apikey", SECRET);
    SingleMember("image", Wrapped("apikey", SECRET));
    var none: map<string, Json> := map[];
    assert "jar" !in none.Keys;
    forall n ensures n !in Names(Obj(none)) { NamesOfMember(none, n); }
  }

  /**
   It fails when an edit makes the image section invalid: the section stays in the text, its entry is taken for unused,
   and the write, which goes through, ends by removing a secret the text still names.
   */
  lemma DroppedSectionLosesSecret()
    ensures var loader := Loader((j: Json) => j.Obj? && "api_key" in j.fields, (j: Json) => true);
            var before := Disk(IMAGE_ON, map["k" := "secret"]);
            var edits := [Edit((j: Json) => Some(IMAGE_OFF), map[])];
            && Consistent(before) && Verdict(before, edits, loader, false, FAULTLESS) == Written
            && Edited(before.config, edits) == Some(IMAGE_OFF)
            && !Consistent(Stages(before, Added(edits), IMAGE_OFF, Load(loader, IMAGE_OFF).value)[3])
  {
    var loader := Loader((j: Json) => j.Obj? && "api_key" in j.fields, (j: Json) => true);
    var before := Disk(IMAGE_ON, map["k" := "secret"]);
    var edits := [Edit((j: Json) => Some(IMAGE_OFF), map[])];
    SecretNames();
    assert !loader.imageValid(Wrapped("apikey", SECRET));
    var none: map<string, Json> := map[];
    assert IMAGE_OFF.fields - {"image"} == none;
    hide Names;
    assert edits[1..] == [] && edits[..0] == [];
    assert Edited(before.config, edits) == Edited(IMAGE_OFF, edits[1..]);
    assert Added(edits) == Added(edits[..0]) + map[];
    assert Load(loader, IMAGE_OFF) == Some(Obj(none));
    assert "k" in Released(IMAGE_ON, Obj(none));
  }

  // ---- the write, step by step ----

  /**
   The two files, replaced only by atomic renames.  `history` lists what the disk has looked like; a
   crash leaves its last entry.  Any step that touches the disk may fail, which `Faults` says.
   */
  class Files {
    var config: Json
    var jar: map<string, string>
    ghost var history: seq<Disk>

    constructor (config: Json, jar: map<string, string>)
      ensures View() == Disk(config, jar) && history == [View()]
    {
      this.config, this.jar := config, jar;
      history := [Disk(config, jar)];
    }

    ghost function View(): Disk
      reads this
    {
      Disk(config, jar)
    }

    /** The temporary configuration replaces the real one, or the rename fails and nothing changes. */
    method RenameConfig(text: Json, fails: bool) returns (done: bool)
      modifies this
      ensures done <==> !fails
      ensures done ==> View() == Disk(text, old(jar)) && history == old(history) + [View()]
      ensures !done ==> View() == old(View()) && history == old(history)
    {
      if fails {
        return false;
      }
      config := text;
      history := history + [Disk(config, jar)];
      return true;
    }

    /** Adds entries that must be new, removes others, and replaces the jar in one rename. */
    method UpdateKeyJar(add: map<string, string>, remove: set<string>, fault: Fault) returns (done: bool)
      modifies this
      ensures done <==> !fault.unreadable && add.Keys !! (old(jar).Keys - remove)
                        && ((remove !! old(jar).Keys && add == map[]) || !fault.unwritable)
      ensures config == old(config)
      ensures done ==> add.Keys !! (old(jar).Keys - remove) && jar == old(jar) - remove + add
      ensures !done ==> jar == old(jar)
      ensures history == old(history) || history == old(history) + [View()]
      ensures history == old(history) ==> View() == old(View())
    {
      if fault.unreadable {
        return false;
      }
      var pruned, removed := Without(jar, remove);
      var ok, next := With(pruned, add);
      if !ok {
        return false;
      }
      if !removed && add == map[] {
        return true;
      }
      if fault.unwritable {
        return false;
      }
      jar := next;
      history := history + [Disk(config, jar)];
      return true;
    }

    /** Fills the jar, replaces the file, then prunes the jar. */
    method Commit(text: Json, added: map<string, string>, loaded: Json, previously: set<string>, faults: Faults)
      returns (done: bool)
      requires previously == Names(config)
      modifies this
      ensures done <==> Commits(old(jar), added, faults)
      ensures done && NoFault(faults.prune) ==> View() == Stages(old(View()), added, text, loaded)[3]
      ensures config == if done then text else old(config)
      ensures old(history) <= history
      ensures Within(history, |old(history)|, View(), Stages(old(View()), added, text, loaded))
    {
      hide Names, Stages, Within;
      ghost var before, n := View(), |history|;
      ghost var stages := Stages(before, added, text, loaded);
      StagesHold(before, added, text, loaded);
      WithinStart(history, before, stages);
      if added != map[] {
        ghost var past := history;
        var filled := UpdateKeyJar(added, {}, faults.fill);
        assert before.jar - {} == before.jar;
        WithinMore(past, n, before, history, View(), stages);
        if !filled {
          return false;
        }
      } else {
        assert before.jar + added == before.jar;
      }
      assert View() == stages[1];
      done := Replace(text, added, loaded, previously, faults, before, n);
    }

    /** The second half: the rename, and what follows it either way. */
    method Replace(text: Json, added: map<string, string>, loaded: Json, previously: set<string>, faults: Faults,
                   ghost before: Disk, ghost n: nat) returns (done: bool)
      requires previously == Names(config) && config == before.config && jar == before.jar + added
      requires added.Keys !! before.jar.Keys
      requires n <= |history| && Within(history, n, View(), Stages(before, added, text, loaded))
      modifies this
      ensures done <==> !faults.rename
      ensures done && NoFault(faults.prune) ==> View() == Stages(before, added, text, loaded)[3]
      ensures config == if done then text else before.config
      ensures old(history) <= history && Within(history, n, View(), Stages(before, added, text, loaded))
    {
      hide Names, Stages, Within;
      ghost var stages := Stages(before, added, text, loaded);
      StagesHold(before, added, text, loaded);
      ghost var past, was := history, View();
      var replaced := RenameConfig(text, faults.rename);
      if !replaced {
        if added != map[] {
          Undone(before.jar, added);
          var undone := UpdateKeyJar(map[], added.Keys, faults.undo);
          WithinMore(past, n, was, history, View(), stages);
        }
        return false;
      }
      WithinMore(past, n, was, history, View(), stages);
      past, was := history, View();
      var still := new NameSet();
      still.Collect(loaded);
      var released := previously - still.names;
      assert released == Released(before.config, loaded);
      if released != {} {
        var pruned := UpdateKeyJar(map[], released, faults.prune);
        assert before.jar + added - released + map[] == before.jar + added - released;
        WithinMore(past, n, was, history, View(), stages);
      }
      return true;
    }

    /** The edits in order: the new text, or none when one of them changes nothing, and the entries they carry. */
    method ApplyEdits(edits: seq<Edit>) returns (text: Option<Json>, added: map<string, string>)
      ensures text == Edited(config, edits)
      ensures text.Some? ==> added == Added(edits)
    {
      var current := config;
      added := map[];
      for k := 0 to |edits|
        invariant Edited(current, edits[k..]) == Edited(config, edits) && added == Added(edits[..k])
      {
        assert edits[k..][0] == edits[k] && edits[k..][1..] == edits[k + 1..];
        assert edits[..k + 1][..k] == edits[..k];
        added := added + edits[k].keys;
        var next := edits[k].change(current);
        if next.None? {
          return None, added;
        }
        current := next.value;
      }
      assert edits[..|edits|] == edits;
      return Some(current), added;
    }

    /** Every disk the write passes through, and the one it leaves, is one of the four stages. */
    method WriteConfigEdits(edits: seq<Edit>, loader: Loader, stale: bool, faults: Faults) returns (result: WriteResult)
      modifies this
      ensures old(history) <= history && result == Verdict(old(View()), edits, loader, stale, faults)
      ensures result.Written? && NoFault(faults.prune) ==>
                var before, text := old(View()), Edited(old(config), edits).value;
                && View() == Stages(before, Added(edits), text, Load(loader, text).value)[3]
                && (Consistent(before) ==>
                      (Consistent(View()) <==> Safe(before, Added(edits), text, Load(loader, text).value)))
      ensures var before := old(View());
              var text, added := Edited(before.config, edits), Added(edits);
              && (result.Written? ==> text.Some? && Load(loader, text.value).Some? && config == text.value)
              && (!result.Written? ==> config == before.config)
              && (text.None? || Load(loader, text.value).None? ==> history == old(history) && View() == before)
              && (text.Some? && Load(loader, text.value).Some? ==>
                    forall d | d in history[|old(history)|..] + [View()] ::
                      d in Stages(before, added, text.value, Load(loader, text.value).value))
    {
      hide Names, Stages;
      ghost var before := View();
      Untouched(before, edits, loader, history);
      SafeEnds(before, edits, loader);
      if faults.target {
        return Refused;
      }
      if stale {
        return Conflict;
      }
      var previously := new NameSet();
      previously.Collect(config);
      var text, added := ApplyEdits(edits);
      if text.None? {
        return ChangedNothing;
      }
      if faults.temporary {
        return Failed;
      }
      var loaded := Load(loader, text.value);
      if loaded.None? {
        return Invalid;
      }
      var done := Commit(text.value, added, loaded.value, previously.names, faults);
      return if done then Written else Failed;
    }
  }

  /** What was written from position `n` on, and what is on disk now, are stages. */
  ghost predicate Within(history: seq<Disk>, n: nat, now: Disk, stages: seq<Disk>)
    requires n <= |history|
  {
    forall d | d in history[n..] + [now] :: d in stages
  }

  lemma WithinStart(history: seq<Disk>, now: Disk, stages: seq<Disk>)
    requires now in stages
    ensures Within(history, |history|, now, stages)
  {
  }

  lemma WithinMore(past: seq<Disk>, n: nat, was: Disk, history: seq<Disk>, now: Disk, stages: seq<Disk>)
    requires n <= |past| && Within(past, n, was, stages) && now in stages
    requires history == past || history == past + [now]
    ensures n <= |history| && Within(history, n, now, stages)
  {
    assert history[n..] == past[n..] || history[n..] == past[n..] + [now];
  }

  lemma NothingRemoved(jar: map<string, string>, remove: set<string>)
    ensures (exists n :: n in remove && n in jar) <==> !(remove !! jar.Keys)
    ensures remove !! jar.Keys ==> jar - remove == jar
  {
  }

  /** The entries that stay when the named ones go, and whether any of those was there. */
  method Without(jar: map<string, string>, remove: set<string>) returns (next: map<string, string>, changed: bool)
    ensures next == jar - remove && (changed <==> !(remove !! jar.Keys)) && (!changed ==> next == jar)
  {
    next, changed := jar, false;
    var gone := remove;
    ghost var done: set<string> := {};
    while gone != {}
      invariant done !! gone && done + gone == remove && next == jar - done
      invariant changed <==> exists n :: n in done && n in jar
      decreases |gone|
    {
      var name :| name in gone;
      assert name in next <==> name in jar;
      changed := changed || name in next;
      next := next - {name};
      gone := gone - {name};
      done := done + {name};
    }
    assert done == remove;
    NothingRemoved(jar, remove);
  }

  /** The jar once the entries of `done` were added, none of which it had. */
  ghost predicate Filled(jar: map<string, string>, add: map<string, string>, done: set<string>, next: map<string, string>) {
    && done <= add.Keys && done !! jar.Keys && next.Keys == jar.Keys + done
    && forall n | n in next :: next[n] == if n in done && n in add then add[n] else if n in jar then jar[n] else ""
  }

  lemma FilledStart(jar: map<string, string>, add: map<string, string>)
    ensures Filled(jar, add, {}, jar)
  {
  }

  lemma FilledStep(jar: map<string, string>, add: map<string, string>, done: set<string>, next: map<string, string>, name: string)
    requires Filled(jar, add, done, next) && name in add && name !in done
    ensures name in next <==> name in jar
    ensures name !in jar ==> Filled(jar, add, done + {name}, next[name := add[name]])
  {
    assert name in next.Keys <==> name in jar.Keys + done;
  }

  lemma FilledEnd(jar: map<string, string>, add: map<string, string>, next: map<string, string>)
    requires Filled(jar, add, add.Keys, next)
    ensures next == jar + add && add.Keys !! jar.Keys
  {
    assert next.Keys == (jar + add).Keys;
  }

  /** Adds entries one by one; an entry that is already there is refused. */
  method With(jar: map<string, string>, add: map<string, string>) returns (ok: bool, next: map<string, string>)
    ensures ok <==> add.Keys !! jar.Keys
    ensures ok ==> next == jar + add
  {
    hide Filled;
    next := jar;
    var names := add.Keys;
    ghost var done: set<string> := {};
    FilledStart(jar, add);
    while names != {}
      invariant done !! names && done + names == add.Keys && Filled(jar, add, done, next)
      decreases |names|
    {
      var name :| name in names;
      FilledStep(jar, add, done, next, name);
      if name in next {
        return false, next;
      }
      next := next[name := add[name]];
      names := names - {name};
      done := done + {name};
    }
    assert done == add.Keys;
    FilledEnd(jar, add, next);
    return true, next;
  }

  lemma Undone(jar: map<string, string>, added: map<string, string>)
    ensures added.Keys !! jar.Keys ==> jar + added - added.Keys + map[] == jar
  {
  }

  lemma StagesHold(before: Disk, added: map<string, string>, text: Json, loaded: Json)
    ensures var stages := Stages(before, added, text, loaded);
            && |stages| == 4 && stages[0] in stages && stages[1] in stages && stages[2] in stages && stages[3] in stages
            && stages[0] == before && stages[1] == Disk(before.config, before.jar + added)
            && stages[2] == Disk(text, before.jar + added)
            && stages[3] == Disk(text, before.jar + added - Released(before.config, loaded))
  {
    hide Names;
  }

  lemma Untouched(before: Disk, edits: seq<Edit>, loader: Loader, history: seq<Disk>)
    ensures var text, added := Edited(before.config, edits), Added(edits);
            text.Some? && Load(loader, text.value).Some? ==>
              forall d | d in history[|history|..] + [before] :: d in Stages(before, added, text.value, Load(loader, text.value).value)
  {
    hide Names, Edited, Added, Load;
    var text := Edited(before.config, edits);
    if text.Some? && Load(loader, text.value).Some? {
      StagesHold(before, Added(edits), text.value, Load(loader, text.value).value);
      hide Stages;
      assert history[|history|..] == [];
    }
  }

  lemma SafeEnds(before: Disk, edits: seq<Edit>, loader: Loader)
    ensures var text, added := Edited(before.config, edits), Added(edits);
            text.Some? && Load(loader, text.value).Some? && Consistent(before) ==>
              var loaded := Load(loader, text.value).value;
              (Consistent(Stages(before, added, text.value, loaded)[3]) <==> Safe(before, added, text.value, loaded))
  {
    hide Consistent, Safe, Stages, Edited, Load;
    var text := Edited(before.config, edits);
    if text.Some? && Load(loader, text.value).Some? && Consistent(before) {
      LastStage(before, Added(edits), text.value, Load(loader, text.value).value);
    }
  }

  /** Every entry an edit carries is added, with the value of the last edit that carries it. */
  lemma {:induction false} AddedMeans(edits: seq<Edit>, name: string)
    ensures name in Added(edits) <==> exists k :: 0 <= k < |edits| && name in edits[k].keys
    ensures forall k | 0 <= k < |edits| && name in edits[k].keys && (forall l | k < l < |edits| :: name !in edits[l].keys) ::
              name in Added(edits) && Added(edits)[name] == edits[k].keys[name]
    decreases |edits|
  {
    if edits != [] {
      var last := |edits| - 1;
      AddedMeans(edits[..last], name);
      assert Added(edits) == Added(edits[..last]) + edits[last].keys;
      hide Added;
      forall k | 0 <= k < |edits| && name in edits[k].keys && (forall l | k < l < |edits| :: name !in edits[l].keys)
        ensures name in Added(edits) && Added(edits)[name] == edits[k].keys[name]
      {
        if k < last { assert edits[..last][k] == edits[k]; }
      }
      if name in Added(edits[..last]) {
        var k :| 0 <= k < last && name in edits[..last][k].keys;
        assert name in edits[k].keys;
      }
      if exists k :: 0 <= k < last && name in edits[k].keys {
        var k :| 0 <= k < last && name in edits[k].keys;
        assert name in edits[..last][k].keys;
      }
    }
  }

  /** A write goes through exactly when nothing stands in its way, and otherwise reports the first thing that did. */
  lemma VerdictMeans(before: Disk, edits: seq<Edit>, loader: Loader, stale: bool, faults: Faults)
    ensures var v, text := Verdict(before, edits, loader, stale, faults), Edited(before.config, edits);
            var edited := !faults.target && !stale && text.Some?;
            var loads := edited && !faults.temporary && Load(loader, text.value).Some?;
            && (v == Refused <==> faults.target)
            && (v == Conflict <==> !faults.target && stale)
            && (v == ChangedNothing <==> !faults.target && !stale && text.None?)
            && (v == Invalid <==> edited && !faults.temporary && Load(loader, text.value).None?)
            && (v == Written <==>
                  loads && !faults.rename
                  && (Added(edits) == map[]
                      || (Added(edits).Keys !! before.jar.Keys && !faults.fill.unreadable && !faults.fill.unwritable)))
  {
    hide Edited, Added, Load;
  }

  /** At every point the configuration on disk is the old text or a text that loads, and the two files agree. */
  lemma EveryCrashConsistent(before: Disk, edits: seq<Edit>, loader: Loader, d: Disk)
    requires Consistent(before)
    requires var text := Edited(before.config, edits);
             && text.Some? && Load(loader, text.value).Some?
             && Safe(before, Added(edits), text.value, Load(loader, text.value).value)
             && d in Stages(before, Added(edits), text.value, Load(loader, text.value).value)
    ensures Consistent(d)
    ensures d.config == before.config
            || (Edited(before.config, edits) == Some(d.config) && Load(loader, d.config).Some?)
  {
    var text := Edited(before.config, edits).value;
    AllStagesConsistent(before, Added(edits), text, Load(loader, text).value);
    hide Names, Consistent, Safe;
  }
}
