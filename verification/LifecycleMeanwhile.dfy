/** Whatever the rest of the process does between the two halves of a run's end: exactly when it breaks the end. */
module LifecycleMeanwhile {
  import opened Options
  import opened Ordering
  import opened LifecycleTables
  import opened LifecycleSteps
  import opened LifecycleInvariant
  import opened LifecycleRounds
  import opened LifecycleHandover
  import opened LifecycleQueries
  import opened LifecycleRuns
  import opened LifecycleResults
  import opened LifecycleTeardown
  import opened LifecycleReplay
  import opened LifecycleSplit

  /** The run keeps its row and the batches it was handed. */
  ghost predicate Kept(db: Tables, r: Tables, i: int) {
    && RunningInvocation(db, i) && RunningInvocation(r, i) && r.invocations[i] == db.invocations[i]
    && (forall b | b in db.invocations[i].batches && b in db.buckets && db.buckets[b].state.Running? ::
          b in r.buckets && r.buckets[b] == db.buckets[b])
  }

  lemma KeptTwice(db: Tables, r: Tables, u: Tables, i: int)
    requires Kept(db, r, i) && Kept(r, u, i)
    ensures Kept(db, u, i)
  {
  }

  /** A step that leaves the torn run and its memory alone leaves it torn. */
  lemma KeptEmptied(s: State, r: State, c: Conversation, i: int, clock: int, now: int)
    requires Emptied(s, c, i, clock) && clock <= now && Inv(Busy(r, c), now) && Kept(s.db, r.db, i) && Mem(r, c) == Mem(s, c)
    ensures Emptied(r, c, i, now)
  {
    hide Inv, Busy, Handed, RunningOf, Unread;
    forall e | e in Mem(r, c).pending ensures Handed(r.db, i, e.bucket, now) {
      InBuckets(Mem(s, c).pending, e);
      PendingUnread(s, c, i, clock, e.bucket);
      KeptHanded(s.db, r.db, i, e.bucket, clock, now);
    }
  }

  lemma KeptHanded(db: Tables, r: Tables, i: int, b: int, clock: int, now: int)
    requires Kept(db, r, i) && Handed(db, i, b, clock) && Unread(db, i, b) && clock <= now
    ensures Handed(r, i, b, now)
  {
  }

  // ---- steps that touch no memory ----

  lemma IngestAside(s: State, c: Conversation, i: int, d: Conversation, eligible: bool, allowed: bool, now: int, clock: int)
    requires Emptied(s, c, i, clock) && clock <= now
    ensures Emptied(Ingest(s, d, eligible, allowed, now), c, i, now)
    ensures Mem(Ingest(s, d, eligible, allowed, now), c) == Mem(s, c)
  {
    hide Inv, CollectingOf, Handed, Rows, RunsMatch, IdsBelow;
    OneRun(s, c, i, clock);
    var r := Ingest(s, d, eligible, allowed, now);
    assert Busy(r, c) == Ingest(Busy(s, c), d, eligible, allowed, now);
    IngestKeeps(Busy(s, c), d, eligible, allowed, now, clock);
    AddBucketKept(s.db, Bucket(d, BucketState.Collecting, now, now + s.window), i);
    KeptEmptied(s, r, c, i, clock, now);
  }

  lemma AddBucketKept(db: Tables, row: Bucket, i: int)
    requires Rows(db) && RunningInvocation(db, i)
    ensures Kept(db, AddBucket(db, row), i) && Kept(db, db, i)
  {
  }

  /** A step that changes tasks, receipts or paused chats only. */
  lemma RowsAside(s: State, r: State, c: Conversation, i: int, clock: int, now: int)
    requires Emptied(s, c, i, clock) && clock <= now && r.db == s.db && r.memory == s.memory && Inv(Busy(r, c), now)
    ensures Emptied(r, c, i, now) && Mem(r, c) == Mem(s, c)
  {
    hide Inv, Handed;
    KeptEmptied(s, r, c, i, clock, now);
  }

  lemma TasksAside(s: State, c: Conversation, i: int, e: Event, clock: int, now: int)
    requires Emptied(s, c, i, clock) && clock <= now && Enabled(s, e)
    requires e.TaskCreated? || e.TaskFinished? || e.TaskCancelled? || e.ResumeCommand?
    ensures var r := Next(s, Step(e, now)); Emptied(r, c, i, now) && Mem(r, c) == Mem(s, c)
  {
    hide Inv, CreateTask, EndTask, CancelTask, Handed;
    ClockAdvances(Busy(s, c), clock, now);
    var r := Next(s, Step(e, now));
    TasksBusy(s, c, e, now);
    NextKeeps(Busy(s, c), Step(e, now), now);
    RowsAside(s, r, c, i, clock, now);
  }

  lemma TasksBusy(s: State, c: Conversation, e: Event, now: int)
    requires Enabled(s, e) && (e.TaskCreated? || e.TaskFinished? || e.TaskCancelled? || e.ResumeCommand?)
    ensures Enabled(Busy(s, c), e)
    ensures var r := Next(s, Step(e, now));
            Busy(r, c) == Next(Busy(s, c), Step(e, now)) && r.db == s.db && r.memory == s.memory
  {
    hide RunningOf, Ingest, ProcessDue, ReceiptFold, Ordered, Launch, InjectPending, UserMessageEnd, Barrier, FreeAgent,
      Finish, Recover, CatchUp, Expire, SuppressFold, SkipFold, StartSideEffect, CreateTask, EndTask, CancelTask, Busy;
    BusyResumes(s, c, s.paused);
    match e
    case TaskCreated(t, d, due, bypass) => BusyCreates(s, c, t, d, due, bypass);
    case TaskFinished(t, state, notify) => BusyEnds(s, c, t, state, if notify then Pending else Suppressed, now);
    case TaskCancelled(t) => BusyCancels(s, c, t, now);
    case ResumeCommand(chat) => BusyResumes(s, c, s.paused - {chat});
    case _ =>
  }

  lemma BusyCreates(s: State, c: Conversation, t: int, d: Conversation, due: Option<int>, bypass: bool)
    ensures var r := CreateTask(s, t, d, due, bypass);
            Busy(r, c) == CreateTask(Busy(s, c), t, d, due, bypass) && r.db == s.db && r.memory == s.memory
  {
  }

  lemma BusyEnds(s: State, c: Conversation, t: int, state: TaskState, receipt: ReceiptState, now: int)
    ensures var r := EndTask(s, t, state, receipt, now);
            Busy(r, c) == EndTask(Busy(s, c), t, state, receipt, now) && r.db == s.db && r.memory == s.memory
  {
  }

  lemma BusyCancels(s: State, c: Conversation, t: int, now: int)
    ensures var r := CancelTask(s, t, now);
            Busy(r, c) == CancelTask(Busy(s, c), t, now) && r.db == s.db && r.memory == s.memory
  {
    hide EndTask;
    BusyEnds(s, c, t, Cancelled, Suppressed, now);
  }

  lemma BusyResumes(s: State, c: Conversation, paused: set<int>)
    ensures Busy(s.(paused := paused), c) == Busy(s, c).(paused := paused) && Busy(s, c).db == s.db
    ensures Busy(s, c).paused == s.paused
  {
  }

  // ---- queued work that is dropped ----

  /** Invocation `k` has nothing to do with run `i` or its batches. */
  ghost predicate Strange(db: Tables, k: int, i: int) {
    && k in db.invocations && RunningInvocation(db, i) && k != i
    && (forall b | b in db.invocations[i].batches && b in db.buckets && db.buckets[b].state.Running? ::
          b != db.invocations[k].bucket && b !in db.invocations[k].batches)
  }

  lemma QueuedStrange(db: Tables, k: int, i: int)
    requires QueueMatches(db) && QueuedInvocation(db, k) && RunningInvocation(db, i)
    ensures Strange(db, k, i)
  {
    assert Opens(db, k, db.invocations[k].bucket);
  }

  lemma DropKept(db: Tables, k: int, i: int, final: Final, bucketFinal: Final)
    requires Strange(db, k, i)
    ensures Kept(db, DropRows(db, k, final, bucketFinal), i)
    ensures forall j :: Strange(db, j, i) ==> Strange(DropRows(db, k, final, bucketFinal), j, i)
  {
  }

  lemma {:induction false} SkipKept(s: State, ks: seq<int>, i: int, m: map<Conversation, Memory>)
    requires RunningInvocation(s.db, i) && forall k | k in ks :: Strange(s.db, k, i)
    ensures forall k | k in ks :: k in s.db.invocations
    ensures Kept(s.db, SkipFold(s, ks).db, i)
    ensures SkipFold(s.(memory := m), ks) == SkipFold(s, ks).(memory := m) && SkipFold(s, ks).memory == s.memory
    decreases ks
  {
    if ks != [] {
      DropKept(s.db, ks[0], i, SkippedBudget, SkippedBudget);
      var r := DropQueued(s, ks[0], SkippedBudget, SkippedBudget, Handled);
      assert DropQueued(s.(memory := m), ks[0], SkippedBudget, SkippedBudget, Handled) == r.(memory := m);
      hide DropQueued, Strange, Kept;
      SkipKept(r, ks[1..], i, m);
      KeptTwice(s.db, r.db, SkipFold(r, ks[1..]).db, i);
    }
  }

  lemma SkipAside(s: State, c: Conversation, i: int, clock: int, now: int)
    requires Emptied(s, c, i, clock) && clock <= now
    ensures var r := SkipFold(s, Sleepers(s)); Emptied(r, c, i, now) && Mem(r, c) == Mem(s, c)
  {
    hide TablesMatch, MemoryMatches, Injected, ClaimsLive, ReceiptsMatch, Windows, Rounds, Handed, ExemptFromSleep, Strange,
      SkipFold, Kept;
    OneRun(s, c, i, clock);
    assert QueueMatches(s.db) by { TablesQueue(Busy(s, c).db); }
    var q := Busy(s, c);
    forall k | k in Sleepers(s) ensures Strange(s.db, k, i) { QueuedStrange(s.db, k, i); }
    SameSleepers(s, q);
    SkipKept(s, Sleepers(s), i, q.memory);
    ClockAdvances(q, clock, now);
    SkipSleepersKeeps(q, now);
    KeptEmptied(s, SkipFold(s, Sleepers(s)), c, i, clock, now);
  }

  lemma TablesQueue(db: Tables)
    requires TablesMatch(db)
    ensures QueueMatches(db)
  {
  }

  lemma SameSleepers(s: State, q: State)
    requires q == s.(memory := q.memory)
    ensures Sleepers(q) == Sleepers(s) && QueuedClaims(q) == QueuedClaims(s)
  {
    forall k ensures ExemptFromSleep(q, k) <==> ExemptFromSleep(s, k) {
    }
    hide Ordered;
    assert (set i | i in s.db.invocations && QueuedInvocation(s.db, i) && !ExemptFromSleep(s, i))
           == (set i | i in q.db.invocations && QueuedInvocation(q.db, i) && !ExemptFromSleep(q, i));
    assert (set t | t in s.receipts && t in s.tasks && QueuedClaim(s, t))
           == (set t | t in q.receipts && t in q.tasks && QueuedClaim(q, t));
  }

  lemma {:induction false} SuppressKept(s: State, ts: seq<int>, env: Env, i: int, m: map<Conversation, Memory>)
    requires RunningInvocation(s.db, i)
    requires forall t | t in ts :: Claimant(s, t) && Strange(s.db, s.receipts[t].invocation.value, i)
    ensures Kept(s.db, SuppressFold(s, ts, env).db, i)
    ensures forall t | t in ts :: Claimant(s.(memory := m), t)
    ensures SuppressFold(s.(memory := m), ts, env) == SuppressFold(s, ts, env).(memory := m)
    ensures SuppressFold(s, ts, env).memory == s.memory
    decreases ts
  {
    if ts != [] {
      var t := ts[0];
      assert t in ts && Claimant(s, t);
      DropKept(s.db, s.receipts[t].invocation.value, i, Aborted, Aborted);
      SuppressStepRows(s, t, env);
      var r := SuppressStep(s, t, env);
      assert Claimant(s.(memory := m), t) && SuppressStep(s.(memory := m), t, env) == r.(memory := m);
      assert r.memory == s.memory && Kept(s.db, r.db, i);
      assert forall u | u in ts[1..] :: u in ts;
      forall u | u in ts[1..] ensures Claimant(r, u) && Strange(r.db, r.receipts[u].invocation.value, i) {
        assert Claimant(s, u);
        assert r.receipts[u].invocation == s.receipts[u].invocation;
      }
      hide SuppressStep, Strange, Kept;
      SuppressKept(r, ts[1..], env, i, m);
      KeptTwice(s.db, r.db, SuppressFold(r, ts[1..], env).db, i);
    }
  }

  lemma SuppressAside(s: State, c: Conversation, i: int, env: Env, clock: int, now: int)
    requires Emptied(s, c, i, clock) && clock <= now
    ensures var r := SuppressFold(s, QueuedClaims(s), env); Emptied(r, c, i, now) && Mem(r, c) == Mem(s, c)
  {
    hide TablesMatch, MemoryMatches, Injected, ClaimsLive, ReceiptsMatch, Windows, Rounds, Handed, Strange,
      SuppressFold, Kept;
    OneRun(s, c, i, clock);
    assert QueueMatches(s.db) by { TablesQueue(Busy(s, c).db); }
    var q := Busy(s, c);
    forall t | t in QueuedClaims(s) ensures Claimant(s, t) && Strange(s.db, s.receipts[t].invocation.value, i) {
      QueuedStrange(s.db, s.receipts[t].invocation.value, i);
    }
    SameSleepers(s, q);
    SuppressKept(s, QueuedClaims(s), env, i, q.memory);
    ClockAdvances(q, clock, now);
    SuppressKeeps(q, env, now);
    KeptEmptied(s, SuppressFold(s, QueuedClaims(s), env), c, i, clock, now);
  }

  // ---- catch-up ----

  lemma CatchUpOneAside(s: State, c: Conversation, i: int, d: Conversation, gated: bool, env: Env, startedAt: int, now: int)
    requires Emptied(s, c, i, now)
    ensures var r := CatchUpOne(s, d, gated, env, startedAt, now); Emptied(r, c, i, now) && Mem(r, c) == Mem(s, c)
  {
    hide Inv, Handed, Rows, RunsMatch, IdsBelow;
    OneRun(s, c, i, now);
    var r := CatchUpOne(s, d, gated, env, startedAt, now);
    CatchUpOneKeeps(Busy(s, c), d, gated, env, startedAt, now, now);
    assert Busy(r, c) == CatchUpOne(Busy(s, c), d, gated, env, startedAt, now);
    CatchUpKept(s, i, d, gated, env, startedAt, now);
    KeptEmptied(s, r, c, i, now, now);
  }

  lemma CatchUpKept(s: State, i: int, d: Conversation, gated: bool, env: Env, startedAt: int, now: int)
    requires Rows(s.db) && RunningInvocation(s.db, i)
    ensures Kept(s.db, CatchUpOne(s, d, gated, env, startedAt, now).db, i)
  {
  }

  lemma {:induction false} CatchUpAside(
    s: State, c: Conversation, i: int, ds: seq<Conversation>, gated: set<Conversation>, env: Env, startedAt: int, now: int)
    requires Emptied(s, c, i, now)
    ensures var r := CatchUp(s, ds, gated, env, startedAt, now); Emptied(r, c, i, now) && Mem(r, c) == Mem(s, c)
    decreases ds
  {
    hide Emptied, CatchUpOne;
    if ds != [] {
      CatchUpOneAside(s, c, i, ds[0], ds[0] in gated, env, startedAt, now);
      CatchUpAside(CatchUpOne(s, ds[0], ds[0] in gated, env, startedAt, now), c, i, ds[1..], gated, env, startedAt, now);
    }
  }

  // ---- other runs ----

  lemma MemorySwaps(s: State, c: Conversation, d: Conversation, m: Memory)
    requires d != c
    ensures Busy(SetMemory(s, d, m), c) == SetMemory(Busy(s, c), d, m) && Mem(SetMemory(s, d, m), c) == Mem(s, c)
    ensures Mem(Busy(s, c), d) == Mem(s, d)
  {
    assert Busy(SetMemory(s, d, m), c).memory == SetMemory(Busy(s, c), d, m).memory;
  }

  lemma StartAside(s: State, c: Conversation, i: int, k: int, clock: int, now: int)
    requires Emptied(s, c, i, clock) && clock <= now && Startable(s.db, k)
    ensures var r := Start(s, k, now); Emptied(r, c, i, now) && Mem(r, c) == Mem(s, c)
  {
    hide Inv, Handed, Rows, RunsMatch, IdsBelow, QueueMatches;
    OneRun(s, c, i, clock);
    QueueOf(s, c, clock);
    var r := Start(s, k, now);
    StartKeeps(Busy(s, c), k, now, clock);
    StartKept(s, i, k, c, now);
    KeptEmptied(s, r, c, i, clock, now);
  }

  lemma QueueOf(s: State, c: Conversation, clock: int)
    requires Inv(Busy(s, c), clock)
    ensures QueueMatches(s.db)
  {
  }

  lemma StartKept(s: State, i: int, k: int, c: Conversation, now: int)
    requires QueueMatches(s.db) && RunsFor(s.db, c, i) && Startable(s.db, k)
    ensures var r := Start(s, k, now);
            Kept(s.db, r.db, i) && Mem(r, c) == Mem(s, c) && Busy(r, c) == Start(Busy(s, c), k, now)
  {
    QueuedStrange(s.db, k, i);
    var d := s.db.invocations[k].conv;
    assert d != c;
    var r := Start(s, k, now);
    var m := Mem(s, d).(tags := Mem(s, d).tags + [Batch(s.db.invocations[k].bucket)], round := true);
    MemorySwaps(s.(db := r.db), c, d, m);
    MemorySwaps(s, c, d, m);
    assert r == SetMemory(s.(db := r.db), d, m);
    assert Start(Busy(s, c), k, now) == SetMemory(Busy(s, c).(db := r.db), d, m);
    hide QueueMatches, ChatRunning, Mem, SetMemory;
  }

  lemma LaunchAside(s: State, c: Conversation, i: int, max: nat, clock: int, now: int)
    requires Emptied(s, c, i, clock) && clock <= now
    ensures var r := Launch(s, now, max); Emptied(r, c, i, now) && Mem(r, c) == Mem(s, c)
  {
    hide Emptied, Start, RunningSet, ChatRunning, LaunchRank;
    if |RunningSet(s.db)| < max && Launchable(s.db, now) != {} {
      StartAside(s, c, i, Least(Launchable(s.db, now), LaunchRank(s)), clock, now);
    } else {
      EmptiedLater(s, c, i, clock, now);
    }
  }

  lemma EmptiedLater(s: State, c: Conversation, i: int, clock: int, now: int)
    requires Emptied(s, c, i, clock) && clock <= now
    ensures Emptied(s, c, i, now)
  {
    hide Inv;
    ClockAdvances(Busy(s, c), clock, now);
  }

  /** A step of a run of another conversation. */
  predicate OtherRun(e: Event, c: Conversation) {
    match e
    case TurnBoundary(d, _) => d != c
    case Nudged(d) => d != c
    case UserMessageRead(d) => d != c
    case SendAttempt(d, _) => d != c
    case AgentFree(d) => d != c
    case Closing(d) => d != c
    case SideEffectStarts(d) => d != c
    case _ => false
  }

  lemma HookAside(s: State, c: Conversation, i: int, e: Event, clock: int, now: int)
    requires Emptied(s, c, i, clock) && clock <= now && OtherRun(e, c) && Enabled(s, e)
    ensures var r := Next(s, Step(e, now)); Emptied(r, c, i, now) && Mem(r, c) == Mem(s, c)
  {
    hide Inv, Handed, Next, Enabled, Kept, Busy, Mem, RunningOf;
    HookKept(s, c, i, e, now);
    BusyTables(s, c);
    EnabledBy(s, Busy(s, c), e);
    NextKeeps(Busy(s, c), Step(e, now), clock);
    KeptEmptied(s, Next(s, Step(e, now)), c, i, clock, now);
  }

  lemma BusyTables(s: State, c: Conversation)
    ensures Busy(s, c).db == s.db
  {
  }

  lemma EnabledBy(s: State, q: State, e: Event)
    requires q.db == s.db && Enabled(s, e)
    ensures Enabled(q, e)
  {
  }

  lemma HookKept(s: State, c: Conversation, i: int, e: Event, now: int)
    requires RunsFor(s.db, c, i) && OtherRun(e, c) && Enabled(s, e)
    ensures Enabled(Busy(s, c), e)
    ensures var r := Next(s, Step(e, now));
            Kept(s.db, r.db, i) && Mem(r, c) == Mem(s, c) && Busy(r, c) == Next(Busy(s, c), Step(e, now))
  {
    hide RunningOf, Ingest, ProcessDue, ReceiptFold, Ordered, Launch, InjectPending, UserMessageEnd, Barrier, FreeAgent,
      Finish, Recover, CatchUp, Expire, SuppressFold, SkipFold, StartSideEffect, CreateTask, EndTask, CancelTask, Mem, Busy,
      Kept, TimersDone;
    BusyTables(s, c);
    match e
    case TurnBoundary(d, inc) => InjectHook(s, c, i, d, inc);
    case Nudged(d) => FlagHook(s, c, i, d, Mem(s, d).(tags := Mem(s, d).tags + [Harness]));
    case UserMessageRead(d) => ReadHook(s, c, i, d);
    case SendAttempt(d, completing) => BarrierHook(s, c, i, d, completing);
    case AgentFree(d) => FreeHook(s, c, i, d, now);
    case Closing(d) => FlagHook(s, c, i, d, Mem(s, d).(closing := true));
    case SideEffectStarts(d) => SideEffectHook(s, c, i, d);
    case _ =>
  }

  lemma FlagHook(s: State, c: Conversation, i: int, d: Conversation, m: Memory)
    requires d != c && RunningInvocation(s.db, i)
    ensures var r := SetMemory(s, d, m);
            Kept(s.db, r.db, i) && Mem(r, c) == Mem(s, c) && Busy(r, c) == SetMemory(Busy(s, c), d, m)
    ensures Mem(Busy(s, c), d) == Mem(s, d)
  {
    MemorySwaps(s, c, d, m);
  }

  lemma InjectHook(s: State, c: Conversation, i: int, d: Conversation, inc: bool)
    requires d != c && RunningInvocation(s.db, i)
    ensures var r := InjectPending(s, d, inc);
            Kept(s.db, r.db, i) && Mem(r, c) == Mem(s, c) && Busy(r, c) == InjectPending(Busy(s, c), d, inc)
  {
    var m := Mem(s, d);
    MemorySwaps(s, c, d, m.(pending := Left(m, inc), tags := m.tags + Batches(Buckets(Taken(m, inc))), round := true));
    hide Taken, Left, Mem, SetMemory, Busy;
  }

  lemma ReadHook(s: State, c: Conversation, i: int, d: Conversation)
    requires d != c && RunsFor(s.db, c, i)
    ensures var r := UserMessageEnd(s, d);
            Kept(s.db, r.db, i) && Mem(r, c) == Mem(s, c) && Busy(r, c) == UserMessageEnd(Busy(s, c), d)
  {
    var m := Mem(s, d);
    if m.tags != [] {
      MemorySwaps(s, c, d, m.(tags := m.tags[1..]));
    } else {
      MemorySwaps(s, c, d, m);
    }
    hide RunningOf;
  }

  lemma BarrierHook(s: State, c: Conversation, i: int, d: Conversation, completing: bool)
    requires d != c && RunsFor(s.db, c, i)
    ensures var r := Barrier(s, d, completing);
            Kept(s.db, r.db, i) && Mem(r, c) == Mem(s, c) && Busy(r, c) == Barrier(Busy(s, c), d, completing)
  {
    hide RunningOf, CollectingOf, QueueInjection;
    var k := RunningOf(s.db, d);
    if k.Some? && CollectingOf(s.db, d) != {} && Barrier(s, d, completing) != s {
      var b := Least(CollectingOf(s.db, d), ById);
      var m := Mem(s, d).(pending := Mem(s, d).pending + [Entry(b, Messages)], barrierSpent := true);
      BarrierIs(s, d, completing, k.value, b);
      MemorySwaps(s, c, d, m);
      BarrierIs(Busy(s, c), d, completing, k.value, b);
      AttachKept(s.db, b, k.value, i);
      var r := s.(db := Attach(s.db, b, k.value));
      hide Attach, Barrier, Mem, SetMemory;
      assert SetMemory(r, d, m) == SetMemory(s, d, m).(db := r.db) by { SetTables(s, r.db, d, m); }
      SetTables(Busy(s, c), r.db, d, m);
      BusyTablesSet(SetMemory(s, d, m), c, r.db);
    } else {
      MemorySwaps(s, c, d, Mem(s, d));
    }
  }

  lemma SetTables(s: State, db: Tables, d: Conversation, m: Memory)
    ensures SetMemory(s.(db := db), d, m) == SetMemory(s, d, m).(db := db)
  {
  }

  lemma BusyTablesSet(s: State, c: Conversation, db: Tables)
    ensures Busy(s.(db := db), c) == Busy(s, c).(db := db) && Mem(s.(db := db), c) == Mem(s, c)
  {
  }

  lemma BarrierIs(s: State, d: Conversation, completing: bool, k: int, b: int)
    requires RunningOf(s.db, d).Some? && RunningOf(s.db, d).value == k
    requires CollectingOf(s.db, d) != {} && b == Least(CollectingOf(s.db, d), ById)
    ensures b in s.db.buckets && s.db.buckets[b].state.Collecting?
    ensures var m := Mem(s, d);
            Barrier(s, d, completing)
            == if m.closing || completing || OfKind(m.pending, Messages) != [] || m.barrierSpent then s
               else SetMemory(s.(db := Attach(s.db, b, k)), d,
                              m.(pending := m.pending + [Entry(b, Messages)], barrierSpent := true))
  {
    hide RunningOf, Attach;
  }

  lemma AttachKept(db: Tables, b: int, k: int, i: int)
    requires b in db.buckets && db.buckets[b].state.Collecting? && k in db.invocations && k != i && RunningInvocation(db, i)
    ensures Kept(db, Attach(db, b, k), i)
  {
  }

  lemma FreeHook(s: State, c: Conversation, i: int, d: Conversation, now: int)
    requires d != c && RunningInvocation(s.db, i)
    ensures var r := FreeAgent(s, d, now);
            Kept(s.db, r.db, i) && Mem(r, c) == Mem(s, c) && Busy(r, c) == FreeAgent(Busy(s, c), d, now)
  {
    MemorySwaps(s, c, d, Mem(s, d).(round := false, barrierSpent := false));
    hide CollectingOf;
  }

  lemma SideEffectHook(s: State, c: Conversation, i: int, d: Conversation)
    requires d != c && RunsFor(s.db, c, i)
    ensures var r := StartSideEffect(s, d);
            Kept(s.db, r.db, i) && Mem(r, c) == Mem(s, c) && Busy(r, c) == StartSideEffect(Busy(s, c), d)
  {
    hide RunningOf;
  }

  // ---- another run ends ----

  lemma EndAside(s: State, c: Conversation, i: int, k: int, final: Final, clock: int, now: int)
    requires Emptied(s, c, i, clock) && clock <= now && RunningInvocation(s.db, k) && k != i
    ensures var r := Finish(s, k, final, now); Emptied(r, c, i, now) && Mem(r, c) == Mem(s, c)
  {
    hide Inv, Handed, Rows, RunsMatch, IdsBelow, Finish, Kept, Busy;
    OneRun(s, c, i, clock);
    BusyTables(s, c);
    var d := s.db.invocations[k].conv;
    OtherChat(s.db, i, k);
    FinishBusy(s, c, k, final, now);
    FinishKept(s, i, k, final, now);
    FinishKeeps(Busy(s, c), k, final, now, clock);
    ClockAdvances(Finish(Busy(s, c), k, final, now), clock, now);
    KeptEmptied(s, Finish(s, k, final, now), c, i, clock, now);
  }

  lemma OtherChat(db: Tables, i: int, k: int)
    requires RunsMatch(db) && RunningInvocation(db, i) && RunningInvocation(db, k) && k != i
    ensures db.invocations[k].conv != db.invocations[i].conv
  {
  }

  lemma FinishBusy(s: State, c: Conversation, k: int, final: Final, now: int)
    requires k in s.db.invocations && IdsBelow(s.db) && s.db.invocations[k].conv != c
    ensures var r := Finish(s, k, final, now); Mem(r, c) == Mem(s, c) && Busy(r, c) == Finish(Busy(s, c), k, final, now)
  {
    hide IdsBelow, Finish, Terminal;
    var d, q := s.db.invocations[k].conv, Busy(s, c);
    HalvesMakeWhole(s, k, final, now);
    HalvesMakeWhole(q, k, final, now);
    TerminalForgets(Torn(s, d), Torn(q, d).memory, k, final, now);
    assert Torn(q, d) == Torn(s, d).(memory := Torn(q, d).memory);
    var r := Finish(s, k, final, now);
    assert r.memory == s.memory - {d};
    assert Busy(r, c).memory == q.memory - {d};
  }

  lemma FinishKept(s: State, i: int, k: int, final: Final, now: int)
    requires Rows(s.db) && IdsBelow(s.db) && RunningInvocation(s.db, i) && RunningInvocation(s.db, k)
    requires s.db.invocations[k].conv != s.db.invocations[i].conv
    ensures Kept(s.db, Finish(s, k, final, now).db, i)
  {
    hide IdsBelow, ReleaseFold, Rows, Released;
    FinishReleases(s, k);
    FinishIsSeal(s, k, final, now);
    RowsApart(s.db, i, k);
    var r := Releasing(s, k);
    ReleasedKept(s, r, i, k);
    hide Releasing, Seal;
    SealKept(r, i, k, final, now);
    KeptTwice(s.db, r.db, Seal(r, k, final, now).db, i);
  }

  ghost predicate NothingShared(db: Tables, i: int, k: int) {
    i in db.invocations && k in db.invocations && forall b | b in db.invocations[i].batches :: b !in db.invocations[k].batches
  }

  lemma RowsApart(db: Tables, i: int, k: int)
    requires Rows(db) && i in db.invocations && k in db.invocations && db.invocations[k].conv != db.invocations[i].conv
    ensures NothingShared(db, i, k)
  {
    forall b | b in db.invocations[i].batches ensures b !in db.invocations[k].batches {
      assert db.buckets[b].conv == db.invocations[i].conv;
    }
  }

  lemma ReleasedKept(s: State, r: State, i: int, k: int)
    requires Released(s, r, UnreadBatches(s, k)) && NothingShared(s.db, i, k) && RunningInvocation(s.db, i)
    ensures Kept(s.db, r.db, i) && NothingShared(r.db, i, k)
  {
    forall b | b in UnreadBatches(s, k) ensures b in s.db.invocations[k].batches {
      assert b in Uninjected(s.db, k);
    }
    hide OpensNew;
  }

  lemma SealKept(r: State, i: int, k: int, final: Final, now: int)
    requires NothingShared(r.db, i, k) && RunningInvocation(r.db, i) && k != i
    ensures Kept(r.db, Seal(r, k, final, now).db, i)
  {
    hide SettleReceipts;
  }

  // ---- what may happen meanwhile ----

  /**
   Everything but the steps of run `i` itself, a restart, and the two commands that also cancel batches already handed to
   a run.
   */
  predicate Aside(e: Event, c: Conversation, i: int) {
    match e
    case RunEnds(k, _) => k != i
    case PauseCommand(_) => false
    case CancelCommand => false
    case ProcessRestart => false
    case _ => Hook(e) ==> OtherRun(e, c)
  }

  predicate Hook(e: Event) {
    e.TurnBoundary? || e.Nudged? || e.UserMessageRead? || e.SendAttempt? || e.AgentFree? || e.Closing? || e.SideEffectStarts?
  }

  /** The step hands something to the run of `c` while that run tears down. */
  predicate HandsAt(s: State, step: Step, c: Conversation) {
    match step.event
    case DueTick(env) => exists b | b in s.db.buckets :: BatchDue(s, c, env, step.at, b)
    case ReceiptTick(env) => exists t | t in s.tasks :: t in PendingSet(s) && Deliverable(s, c, env, t)
    case _ => false
  }

  lemma DueAside(s: State, c: Conversation, i: int, env: Env, clock: int, now: int)
    requires Emptied(s, c, i, clock) && clock <= now
    ensures var r := ProcessDue(s, env, now);
            && Emptied(r, c, i, now)
            && (Mem(r, c).pending != []
                <==> Mem(s, c).pending != [] || exists b | b in s.db.buckets :: BatchDue(s, c, env, now, b))
  {
    hide Emptied, DueFold, ChatTaken;
    EmptiedLater(s, c, i, clock, now);
    DueEmptied(s, Due(s, now), env, now, c, i, now);
  }

  lemma ReceiptAside(s: State, c: Conversation, i: int, env: Env, clock: int, now: int)
    requires Emptied(s, c, i, clock) && clock <= now
    ensures var r := ReceiptFold(s, PendingReceipts(s), env, now);
            && Emptied(r, c, i, now)
            && (Mem(r, c).pending != []
                <==> Mem(s, c).pending != [] || exists t | t in s.tasks :: t in PendingSet(s) && Deliverable(s, c, env, t))
  {
    hide Emptied, ReceiptFold, Deliverable;
    EmptiedLater(s, c, i, clock, now);
    ReceiptsEmptied(s, PendingReceipts(s), env, now, c, i, now);
  }

  lemma TimerAside(s: State, c: Conversation, i: int, clock: int, now: int)
    requires Emptied(s, c, i, clock) && clock <= now
    ensures var r := TimersDone(s, now); Emptied(r, c, i, now) && Mem(r, c) == Mem(s, c)
  {
    hide Emptied, TasksDueFold, Ordered;
    EmptiedLater(s, c, i, clock, now);
    var ts := Ordered(TasksDueSet(s, now), Schedule(s));
    TimersEmptied(s, ts, now, c, i, now);
  }

  lemma AsideStep(s: State, c: Conversation, i: int, step: Step, clock: int)
    requires Emptied(s, c, i, clock) && clock <= step.at && Enabled(s, step.event) && Aside(step.event, c, i)
    ensures var r := Next(s, step);
            Emptied(r, c, i, step.at) && (Mem(r, c).pending != [] <==> Mem(s, c).pending != [] || HandsAt(s, step, c))
  {
    hide Emptied, RunningOf, Ingest, ProcessDue, ReceiptFold, Ordered, Launch, InjectPending, UserMessageEnd, Barrier,
      FreeAgent, Finish, Recover, CatchUp, Expire, SuppressFold, SkipFold, StartSideEffect, CreateTask, EndTask, CancelTask,
      Mem, TimersDone, BatchDue, Deliverable, PendingSet;
    var now := step.at;
    if Hook(step.event) {
      HookAside(s, c, i, step.event, clock, now);
    } else {
      match step.event
      case Message(d, eligible, allowed) => IngestAside(s, c, i, d, eligible, allowed, now, clock);
      case DueTick(env) => DueAside(s, c, i, env, clock, now);
      case TimerTick => TimerAside(s, c, i, clock, now);
      case ReceiptTick(env) => ReceiptAside(s, c, i, env, clock, now);
      case SuppressTick(env) => SuppressAside(s, c, i, env, clock, now);
      case SleepTick => SkipAside(s, c, i, clock, now);
      case LaunchTick(max) => LaunchAside(s, c, i, max, clock, now);
      case RunEnds(k, final) => EndAside(s, c, i, k, final, clock, now);
      case StartupCatchUp(ds, gated, env, startedAt) =>
        EmptiedLater(s, c, i, clock, now);
        CatchUpAside(s, c, i, ds, gated, env, startedAt, now);
      case _ => TasksAside(s, c, i, step.event, clock, now);
    }
  }

  // ---- whole runs between the two halves ----

  ghost predicate AllAside(steps: seq<Step>, c: Conversation, i: int) {
    forall k | 0 <= k < |steps| :: Aside(steps[k].event, c, i)
  }

  /** Some step of the run hands something over. */
  ghost predicate Hands(s: State, steps: seq<Step>, c: Conversation, clock: int)
    requires Legal(s, steps, clock)
    decreases steps
  {
    steps != [] && (HandsAt(s, steps[0], c) || Hands(Next(s, steps[0]), steps[1..], c, steps[0].at))
  }

  lemma {:induction false} AsideRun(s: State, c: Conversation, i: int, steps: seq<Step>, clock: int)
    requires Emptied(s, c, i, clock) && Legal(s, steps, clock) && AllAside(steps, c, i)
    ensures var u := After(s, steps, clock);
            && Emptied(u, c, i, Clock(steps, clock))
            && (Mem(u, c).pending != [] <==> Mem(s, c).pending != [] || Hands(s, steps, c, clock))
    decreases steps
  {
    hide Emptied, Next, HandsAt, Aside, Enabled, Mem;
    if steps != [] {
      assert Aside(steps[0].event, c, i) && forall k | 0 <= k < |steps[1..]| :: steps[1..][k] == steps[k + 1];
      AsideStep(s, c, i, steps[0], clock);
      AsideRun(Next(s, steps[0]), c, i, steps[1..], steps[0].at);
    }
  }

  /** The end of run `i` with `steps` between the teardown of its memory and its terminal transaction. */
  ghost function LateEnd(s: State, i: int, steps: seq<Step>, final: Final, end: int, clock: int): State
    requires Inv(s, clock) && RunningInvocation(s.db, i)
    requires var c := s.db.invocations[i].conv; Legal(Torn(s, c), steps, clock) && AllAside(steps, c, i)
  {
    LateRow(s, i, steps, clock);
    Terminal(After(Torn(s, s.db.invocations[i].conv), steps, clock), i, final, end)
  }

  lemma LateRow(s: State, i: int, steps: seq<Step>, clock: int)
    requires Inv(s, clock) && RunningInvocation(s.db, i)
    requires var c := s.db.invocations[i].conv; Legal(Torn(s, c), steps, clock) && AllAside(steps, c, i)
    ensures var c := s.db.invocations[i].conv;
            var u := After(Torn(s, c), steps, clock);
            && i in u.db.invocations && Emptied(u, c, i, Clock(steps, clock))
            && (Mem(u, c).pending != [] <==> Hands(Torn(s, c), steps, c, clock))
  {
    hide Inv, Legal, After, AllAside, Clock, Hands, Busy, Handed;
    TornEmptied(s, i, clock);
    AsideRun(Torn(s, s.db.invocations[i].conv), s.db.invocations[i].conv, i, steps, clock);
  }

  /** However much happens in between, the end leaves a good state exactly when nothing was handed to the dying run. */
  lemma LateEndKeeps(s: State, i: int, steps: seq<Step>, final: Final, end: int, clock: int)
    requires Inv(s, clock) && RunningInvocation(s.db, i)
    requires var c := s.db.invocations[i].conv; Legal(Torn(s, c), steps, clock) && AllAside(steps, c, i)
    requires Clock(steps, clock) <= end
    ensures var c := s.db.invocations[i].conv;
            Inv(LateEnd(s, i, steps, final, end, clock), end) <==> !Hands(Torn(s, c), steps, c, clock)
  {
    hide Inv, Legal, After, AllAside, Clock, Hands, Emptied, Terminal, ChatRunning, Torn;
    var c := s.db.invocations[i].conv;
    LateRow(s, i, steps, clock);
    var u := After(Torn(s, c), steps, clock);
    TerminalEnds(u, c, i, final, end, Clock(steps, clock));
    EmptiedMemory(u, c, i, Clock(steps, clock));
    SameMemory(u, Terminal(u, i, final, end), c);
    InvWithoutRun(Terminal(u, i, final, end), c, end);
  }

  lemma EmptiedMemory(u: State, c: Conversation, i: int, clock: int)
    requires Emptied(u, c, i, clock)
    ensures Mem(u, c) == IDLE.(pending := Mem(u, c).pending)
  {
  }

  /** And exactly then no run from there on can write a batch twice. */
  lemma LateEndInjects(s: State, i: int, steps: seq<Step>, final: Final, end: int, clock: int)
    requires Inv(s, clock) && RunningInvocation(s.db, i)
    requires var c := s.db.invocations[i].conv; Legal(Torn(s, c), steps, clock) && AllAside(steps, c, i)
    requires Clock(steps, clock) <= end
    ensures var c, t := s.db.invocations[i].conv, LateEnd(s, i, steps, final, end, clock);
            (forall b: int :: !CanRepeat(t, b, end)) <==> !Hands(Torn(s, c), steps, c, clock)
  {
    hide Inv, Legal, After, AllAside, Clock, Hands, Emptied, Terminal, CanRepeat, Torn;
    var c, t := s.db.invocations[i].conv, LateEnd(s, i, steps, final, end, clock);
    LateRow(s, i, steps, clock);
    if Hands(Torn(s, c), steps, c, clock) {
      EndedTwice(After(Torn(s, c), steps, clock), c, i, final, end, Clock(steps, clock));
    } else {
      LateEndKeeps(s, i, steps, final, end, clock);
      forall b: int ensures !CanRepeat(t, b, end) { GoodNeverRepeats(t, b, end); }
    }
  }

  lemma GoodNeverRepeats(t: State, b: int, clock: int)
    requires Inv(t, clock)
    ensures !CanRepeat(t, b, clock)
  {
    hide Legal, After, TablesMatch, MemoryMatches, ClaimsLive, ReceiptsMatch, Windows, Rounds;
    forall steps | Legal(t, steps, clock) ensures !Twice(After(t, steps, clock).injections, b) {
      RunKeeps(t, steps, clock);
    }
  }
}
