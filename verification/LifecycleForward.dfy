/** What no step ever takes back. */
module LifecycleForward {
  import opened Options
  import opened Ordering
  import opened LifecycleTables
  import opened LifecycleSteps
  import opened LifecycleInvariant
  import opened LifecycleSettling
  import opened LifecycleDrops
  import opened LifecycleRounds
  import opened LifecycleHandover
  import opened LifecycleQueries
  import opened LifecycleRuns

  /** A window only grows, nothing collects again, and a closed batch stays closed. */
  ghost predicate BucketForward(x: Bucket, y: Bucket) {
    && y.conv == x.conv && y.first == x.first && y.deadline >= x.deadline
    && (y.state.Collecting? ==> x.state.Collecting?) && (x.state.Closed? ==> y.state.Closed?)
  }

  /** An invocation never leaves its end, and neither a joined batch nor its acknowledgement is withdrawn. */
  ghost predicate InvocationForward(x: Invocation, y: Invocation) {
    && y.bucket == x.bucket && y.conv == x.conv
    && (y.state.Queued? ==> x.state.Queued?) && (x.state.Ended? ==> y.state.Ended?)
    && (forall b | b in x.batches :: b in y.batches && (x.batches[b] ==> y.batches[b]))
  }

  ghost predicate TablesForward(db: Tables, r: Tables) {
    && (forall b | b in db.buckets :: b in r.buckets && BucketForward(db.buckets[b], r.buckets[b]))
    && (forall i | i in db.invocations :: i in r.invocations && InvocationForward(db.invocations[i], r.invocations[i]))
  }

  function Progress(state: ReceiptState): nat {
    match state case Pending => 0 case Claimed => 1 case Handled => 2 case Suppressed => 2
  }

  ghost predicate ReceiptForward(x: Receipt, y: Receipt) {
    && Progress(x.state) <= Progress(y.state) && y.created == x.created
    && (x.state.Handled? || x.state.Suppressed? ==> y.state == x.state)
  }

  ghost predicate ReceiptsForward(receipts: map<int, Receipt>, kept: map<int, Receipt>) {
    forall t | t in receipts :: t in kept && ReceiptForward(receipts[t], kept[t])
  }

  ghost predicate TasksForward(tasks: map<int, Task>, kept: map<int, Task>) {
    forall t | t in tasks :: t in kept && kept[t].conv == tasks[t].conv && (!tasks[t].state.Waiting? ==> kept[t] == tasks[t])
  }

  ghost predicate Forward(s: State, t: State) {
    && t.window == s.window && TablesForward(s.db, t.db) && ReceiptsForward(s.receipts, t.receipts)
    && TasksForward(s.tasks, t.tasks) && s.injections <= t.injections && s.claims <= t.claims
  }

  lemma ForwardTwice(s: State, t: State, u: State)
    requires Forward(s, t) && Forward(t, u)
    ensures Forward(s, u)
  {
    TablesForwardTwice(s.db, t.db, u.db);
    hide TablesForward;
    forall x | x in s.receipts ensures x in u.receipts && ReceiptForward(s.receipts[x], u.receipts[x]) {
      assert ReceiptForward(s.receipts[x], t.receipts[x]) && ReceiptForward(t.receipts[x], u.receipts[x]);
    }
    forall x: int ensures s.claims[x] <= u.claims[x] {
      assert s.claims[x] <= t.claims[x] <= u.claims[x];
    }
  }

  lemma TablesForwardTwice(a: Tables, b: Tables, c: Tables)
    requires TablesForward(a, b) && TablesForward(b, c)
    ensures TablesForward(a, c)
  {
    forall x | x in a.buckets ensures x in c.buckets && BucketForward(a.buckets[x], c.buckets[x]) {
      assert BucketForward(a.buckets[x], b.buckets[x]) && BucketForward(b.buckets[x], c.buckets[x]);
    }
    forall x | x in a.invocations ensures x in c.invocations && InvocationForward(a.invocations[x], c.invocations[x]) {
      assert InvocationForward(a.invocations[x], b.invocations[x]) && InvocationForward(b.invocations[x], c.invocations[x]);
    }
  }

  // ---- rows ----

  ghost predicate FreshIds(db: Tables) {
    db.nextBucket !in db.buckets && db.nextInvocation !in db.invocations
  }

  lemma RowsGiveFreshIds(db: Tables)
    requires Rows(db)
    ensures FreshIds(db)
  {
  }

  lemma SettlesForward(db: Tables, r: Tables)
    requires RowsSettle(db, r)
    ensures TablesForward(db, r)
  {
    forall b | b in db.buckets ensures b in r.buckets && BucketForward(db.buckets[b], r.buckets[b]) {
      assert BucketSettles(db.buckets[b], r.buckets[b]);
    }
    forall i | i in db.invocations ensures i in r.invocations && InvocationForward(db.invocations[i], r.invocations[i]) {
      assert InvocationSettles(db.invocations[i], r.invocations[i]);
    }
  }

  lemma EnqueueForward(db: Tables, b: int)
    requires FreshIds(db) && b in db.buckets && !db.buckets[b].state.Closed?
    ensures TablesForward(db, Enqueue(db, b))
  {
  }

  lemma AttachForward(db: Tables, b: int, i: int)
    requires b in db.buckets && !db.buckets[b].state.Closed? && i in db.invocations && b !in db.invocations[i].batches
    ensures TablesForward(db, Attach(db, b, i))
  {
  }

  lemma AddBucketForward(db: Tables, row: Bucket)
    requires FreshIds(db)
    ensures TablesForward(db, AddBucket(db, row)) && db.nextInvocation !in AddBucket(db, row).invocations
  {
  }

  lemma AddInvocationForward(db: Tables, b: int)
    requires db.nextInvocation !in db.invocations && b in db.buckets
    ensures TablesForward(db, AddInvocation(db, b))
  {
  }

  lemma ReadForward(db: Tables, i: int, b: int)
    requires i in db.invocations
    ensures TablesForward(db, Join(db, i, b, true))
  {
  }

  lemma JoinNewForward(db: Tables, i: int, b: int)
    requires i in db.invocations && b !in db.invocations[i].batches
    ensures TablesForward(db, Join(db, i, b, false))
  {
  }

  lemma StartForward(s: State, i: int, now: int)
    requires QueuedInvocation(s.db, i) && s.db.invocations[i].bucket in s.db.buckets
    requires s.db.buckets[s.db.invocations[i].bucket].state.Queued?
    ensures TablesForward(s.db, Start(s, i, now).db)
  {
  }

  /** Only the tables, and what neither receipts nor tasks record, changed. */
  lemma TablesOnly(s: State, t: State)
    requires TablesForward(s.db, t.db)
    requires t == s.(db := t.db, memory := t.memory, freeAt := t.freeAt, injections := t.injections, paused := t.paused)
    requires s.injections <= t.injections
    ensures Forward(s, t)
  {
    hide TablesForward;
  }

  lemma SameTables(db: Tables)
    ensures TablesForward(db, db)
  {
  }

  lemma SameForward(s: State)
    ensures Forward(s, s)
  {
  }

  // ---- steps ----

  lemma DueRowsForward(db: Tables, b: int, atLeast: int)
    requires b in db.buckets && db.buckets[b].state.Collecting?
    ensures TablesForward(db, Defer(db, b, atLeast)) && TablesForward(db, SetBucket(db, b, Closed(SkippedBudget)))
  {
  }

  lemma HandForward(s: State, b: int, i: int, now: int)
    requires b in s.db.buckets && i in s.db.invocations && TablesForward(s.db, Attach(s.db, b, i))
    ensures Forward(s, DueApply(s, b, Hand(i), now))
  {
    hide Attach, TablesForward;
    TablesOnly(s, DueApply(s, b, Hand(i), now));
  }

  lemma DueStepForward(s: State, b: int, env: Env, now: int)
    requires Rows(s.db) && b in s.db.buckets && s.db.buckets[b].state.Collecting?
    ensures Forward(s, DueStep(s, b, env, now))
  {
    RowsGiveFreshIds(s.db);
    var c := s.db.buckets[b].conv;
    var action := DueDecision(s, c, env);
    assert action.Hand? ==> action.invocation in s.db.invocations && b !in s.db.invocations[action.invocation].batches;
    hide DueDecision, Rows, Attach, Enqueue, Defer, SetBucket, QueueInjection, TablesForward;
    DueRowsForward(s.db, b, now + Max(s.window, MINIMUM_DEFER));
    SameForward(s);
    match action
    case Postpone => TablesOnly(s, DueStep(s, b, env, now));
    case Leave =>
    case Skip => TablesOnly(s, DueStep(s, b, env, now));
    case Hand(i) =>
      AttachForward(s.db, b, i);
      HandForward(s, b, i, now);
    case Open =>
      EnqueueForward(s.db, b);
      TablesOnly(s, DueStep(s, b, env, now));
  }

  lemma {:induction false} DueFoldForward(s: State, due: seq<int>, env: Env, now: int, clock: int)
    requires Inv(s, clock) && AllCollecting(s.db, due)
    requires forall x, y | 0 <= x < y < |due| :: due[x] != due[y]
    ensures Forward(s, DueFold(s, due, env, now))
    decreases due
  {
    if due == [] {
      SameForward(s);
    } else {
      assert Rows(s.db);
      hide Inv, Rows;
      TailOf(due);
      DueStepForward(s, due[0], env, now);
      DueStepElsewhere(s, due[0], env, now);
      DueStepKeeps(s, due[0], env, now, clock);
      var t := DueStep(s, due[0], env, now);
      hide DueStep, Forward;
      DueFoldForward(t, due[1..], env, now, clock);
      ForwardTwice(s, t, DueFold(t, due[1..], env, now));
    }
  }

  lemma EndTaskForward(s: State, t: int, state: TaskState, receipt: ReceiptState, now: int)
    requires ReceiptsMatch(s.tasks, s.receipts, s.claims)
    ensures Forward(s, EndTask(s, t, state, receipt, now))
  {
    SameTables(s.db);
    hide TablesForward;
  }

  lemma {:induction false} TasksDueFoldForward(s: State, ts: seq<int>, now: int, clock: int)
    requires Inv(s, clock)
    ensures Forward(s, TasksDueFold(s, ts, now))
    decreases ts
  {
    if ts == [] {
      SameForward(s);
    } else {
      EndTaskForward(s, ts[0], Finished, Pending, now);
      hide Inv, Forward;
      var t := EndTask(s, ts[0], Finished, Pending, now);
      EndTaskKeeps(s, ts[0], Finished, Pending, now, clock);
      hide EndTask;
      TasksDueFoldForward(t, ts[1..], now, clock);
      ForwardTwice(s, t, TasksDueFold(t, ts[1..], now));
    }
  }

  lemma ClaimQueuedForward(s: State, t: int, c: Conversation, now: int)
    requires Rows(s.db) && t in s.receipts && s.receipts[t].state.Pending?
    ensures Forward(s, ClaimQueued(s, t, c, now))
  {
    RowsGiveFreshIds(s.db);
    hide Rows;
    var b := s.db.nextBucket;
    var r := AddBucket(s.db, Bucket(c, BucketState.Queued, now, now));
    AddBucketForward(s.db, Bucket(c, BucketState.Queued, now, now));
    AddInvocationForward(r, b);
    TablesForwardTwice(s.db, r, AddInvocation(r, b));
    hide TablesForward, AddBucket, AddInvocation;
    assert ClaimQueued(s, t, c, now).db == AddInvocation(r, b);
  }

  lemma ClaimAttachedForward(s: State, t: int, c: Conversation, i: int, now: int)
    requires Rows(s.db) && t in s.receipts && s.receipts[t].state.Pending? && i in s.db.invocations
    ensures Forward(s, ClaimAttached(s, t, c, i, now))
  {
    RowsGiveFreshIds(s.db);
    var b := s.db.nextBucket;
    var r := AddBucket(s.db, Bucket(c, BucketState.Running, now, now));
    AddBucketForward(s.db, Bucket(c, BucketState.Running, now, now));
    JoinNewForward(r, i, b);
    TablesForwardTwice(s.db, r, Join(r, i, b, false));
    hide Rows, TablesForward, AddBucket, Join;
    assert ClaimAttached(s, t, c, i, now).db == Join(r, i, b, false);
  }

  lemma ReceiptStepForward(s: State, t: int, env: Env, now: int)
    requires Rows(s.db) && t in s.receipts && t in s.tasks
    ensures Forward(s, ReceiptStep(s, t, env, now))
  {
    var action := ReceiptDecision(s, t, env);
    var c := s.tasks[t].conv;
    assert !action.Wait? ==> s.receipts[t].state.Pending?;
    assert action.Deliver? ==> action.invocation in s.db.invocations;
    SameForward(s);
    SameTables(s.db);
    hide Rows, ReceiptDecision, TablesForward, ClaimAttached, ClaimQueued;
    match action
    case Drop =>
    case Wait =>
    case Deliver(i) => ClaimAttachedForward(s, t, c, i, now);
    case OpenFor => ClaimQueuedForward(s, t, c, now);
  }

  lemma {:induction false} ReceiptFoldForward(s: State, pending: seq<int>, env: Env, now: int, clock: int)
    requires Inv(s, clock)
    requires forall t | t in pending :: t in s.receipts && t in s.tasks
    ensures Forward(s, ReceiptFold(s, pending, env, now))
    decreases pending
  {
    if pending == [] {
      SameForward(s);
    } else {
      assert Rows(s.db);
      hide Inv, Rows;
      ReceiptStepForward(s, pending[0], env, now);
      ReceiptStepKeeps(s, pending[0], env, now, clock);
      var t := ReceiptStep(s, pending[0], env, now);
      hide ReceiptStep, Forward;
      assert forall u | u in pending[1..] :: u in pending;
      ReceiptFoldForward(t, pending[1..], env, now, clock);
      ForwardTwice(s, t, ReceiptFold(t, pending[1..], env, now));
    }
  }

  lemma DropForward(s: State, i: int, final: Final, bucketFinal: Final, receipt: ReceiptState)
    requires i in s.db.invocations && (receipt.Handled? || receipt.Suppressed?)
    ensures Forward(s, DropQueued(s, i, final, bucketFinal, receipt))
  {
    var t := DropQueued(s, i, final, bucketFinal, receipt);
    assert TablesForward(s.db, t.db);
    hide TablesForward;
  }

  lemma SuppressStepForward(s: State, t: int, env: Env)
    requires Claimant(s, t) && QueuedClaim(s, t)
    ensures Forward(s, SuppressStep(s, t, env))
  {
    hide DeliveryBlocked;
    SameForward(s);
    assert TablesForward(s.db, DropRows(s.db, s.receipts[t].invocation.value, Aborted, Aborted));
    hide TablesForward, DropRows;
  }

  lemma {:induction false} SuppressFoldForward(s: State, ts: seq<int>, env: Env, clock: int)
    requires Inv(s, clock)
    requires forall t | t in ts :: Claimant(s, t) && QueuedClaim(s, t)
    requires forall x, y | 0 <= x < y < |ts| :: ts[x] != ts[y]
    ensures Forward(s, SuppressFold(s, ts, env))
    decreases ts
  {
    if ts == [] {
      SameForward(s);
    } else {
      TailOf(ts);
      SuppressStepLeaves(s, ts[0], env);
      SuppressStepRows(s, ts[0], env);
      hide Inv, Forward;
      SuppressStepForward(s, ts[0], env);
      SuppressStepKeeps(s, ts[0], env, clock);
      var t := SuppressStep(s, ts[0], env);
      hide SuppressStep, QueuedClaim, Claimant;
      SuppressFoldForward(t, ts[1..], env, clock);
      ForwardTwice(s, t, SuppressFold(t, ts[1..], env));
    }
  }

  lemma {:induction false} SkipFoldForward(s: State, sleepers: seq<int>)
    requires forall i | i in sleepers :: i in s.db.invocations
    ensures Forward(s, SkipFold(s, sleepers))
    decreases sleepers
  {
    hide Forward;
    if sleepers == [] {
      SameForward(s);
    } else {
      var t := DropQueued(s, sleepers[0], SkippedBudget, SkippedBudget, Handled);
      DropForward(s, sleepers[0], SkippedBudget, SkippedBudget, Handled);
      assert t.db.invocations.Keys == s.db.invocations.Keys;
      hide DropQueued;
      SkipFoldForward(t, sleepers[1..]);
      ForwardTwice(s, t, SkipFold(t, sleepers[1..]));
    }
  }

  lemma LaunchForward(s: State, now: int, maxConcurrency: nat)
    requires QueueMatches(s.db)
    ensures Forward(s, Launch(s, now, maxConcurrency))
  {
    SameForward(s);
    if |RunningSet(s.db)| < maxConcurrency && Launchable(s.db, now) != {} {
      var i := Least(Launchable(s.db, now), LaunchRank(s));
      assert Opens(s.db, i, s.db.invocations[i].bucket);
      hide QueueMatches, Launchable, RunningSet, LaunchRank, ChatRunning;
      StartForward(s, i, now);
      TablesOnly(s, Start(s, i, now));
    }
  }

  lemma UserMessageEndForward(s: State, c: Conversation)
    ensures Forward(s, UserMessageEnd(s, c))
  {
    SameForward(s);
    SameTables(s.db);
    var m, running := Mem(s, c), RunningOf(s.db, c);
    if m.tags != [] && running.Some? && m.tags[0].Batch? {
      ReadForward(s.db, running.value, m.tags[0].bucket);
    }
    hide TablesForward, RunningOf, Join;
    TablesOnly(s, UserMessageEnd(s, c));
  }

  lemma BarrierForward(s: State, c: Conversation, completing: bool)
    requires Rows(s.db)
    ensures Forward(s, Barrier(s, c, completing))
  {
    SameForward(s);
    SameTables(s.db);
    var running := RunningOf(s.db, c);
    if Barrier(s, c, completing) != s {
      var b := Least(CollectingOf(s.db, c), ById);
      assert b in CollectingOf(s.db, c);
      AttachForward(s.db, b, running.value);
      hide TablesForward, Attach, RunningOf, CollectingOf;
      TablesOnly(s, Barrier(s, c, completing));
    }
  }

  lemma PushForward(db: Tables, scope: set<int>, atLeast: int)
    ensures TablesForward(db, PushDeadlines(db, scope, atLeast))
  {
  }

  lemma SideEffectForward(s: State, c: Conversation)
    ensures TablesForward(s.db, StartSideEffect(s, c).db)
  {
    hide RunningOf;
    SameTables(s.db);
  }

  lemma ExpireForward(s: State, scope: set<Conversation>)
    ensures Forward(s, Expire(s, scope))
  {
    hide AttachedUninjected;
    assert TablesForward(s.db, Expire(s, scope).db);
    hide TablesForward;
  }

  // ---- the end of a run ----

  lemma ReleaseStepForward(s: State, i: int, b: int)
    requires FreshIds(s.db) && b in s.db.buckets
    ensures Forward(s, ReleaseStep(s, i, b))
  {
    SameTables(s.db);
    if s.db.buckets[b].state.Running? { EnqueueForward(s.db, b); }
    hide TablesForward, Enqueue;
  }

  lemma {:induction false} ReleaseFoldForward(s: State, i: int, bs: seq<int>, clock: int)
    requires Inv(s, clock) && RunningInvocation(s.db, i)
    requires forall b | b in bs :: b in s.db.buckets && Releasable(s, i, b)
    ensures Forward(s, ReleaseFold(s, i, bs))
    decreases bs
  {
    if bs == [] {
      SameForward(s);
    } else {
      var t := ReleaseStep(s, i, bs[0]);
      forall b | b in bs[1..] ensures b in t.db.buckets && Releasable(t, i, b) {
        ReleaseStepLeaves(s, i, bs[0], b);
        ReleaseStepKeys(s, i, bs[0]);
      }
      ReleaseStepRuns(s, i, bs[0]);
      RowsGiveFreshIds(s.db);
      hide Inv, FreshIds, Forward;
      ReleaseStepForward(s, i, bs[0]);
      hide ReleaseStep;
      ReleaseStepKeeps(s, i, bs[0], clock);
      hide Releasable, RunningInvocation;
      ReleaseFoldForward(t, i, bs[1..], clock);
      ForwardTwice(s, t, ReleaseFold(t, i, bs[1..]));
    }
  }

  lemma SealForward(s: State, i: int, final: Final, now: int)
    requires RunningInvocation(s.db, i)
    ensures Forward(s, Seal(s, i, final, now))
  {
    SealRowsSettle(s, i, final, now);
    SettlesForward(s.db, Seal(s, i, final, now).db);
    hide TablesForward, RowsSettle, PushDeadlines;
  }

  lemma FinishForward(s: State, i: int, final: Final, now: int, clock: int)
    requires Inv(s, clock) && RunningInvocation(s.db, i)
    ensures Forward(s, Finish(s, i, final, now))
  {
    var c := s.db.invocations[i].conv;
    var t := ClearQueues(s, c);
    SameTables(s.db);
    TablesOnly(s, t);
    FinishReleasable(s, i, clock);
    hide Inv, Releasable, Seal, Uninjected, Forward;
    ClearQueuesKeeps(s, c, clock);
    hide ClearQueues;
    var bs := Ordered(Uninjected(s.db, i), ById);
    ReleaseFoldKeeps(t, i, bs, clock);
    ReleaseFoldForward(t, i, bs, clock);
    SealForward(ReleaseFold(t, i, bs), i, final, now);
    ForwardTwice(s, t, ReleaseFold(t, i, bs));
    ForwardTwice(s, ReleaseFold(t, i, bs), Finish(s, i, final, now));
  }

  // ---- restart ----

  lemma RestartForward(s: State)
    ensures Forward(s, Restart(s))
  {
    RestartRowsSettle(s);
    SettlesForward(s.db, Restart(s).db);
    RestartEnds(s);
    hide TablesForward, RowsSettle, Restart;
    forall t | t in s.receipts
      ensures t in Restart(s).receipts && ReceiptSettles(s.receipts[t], Restart(s).receipts[t], Restart(s).db)
    {
    }
  }

  lemma {:induction false} ExpireFoldForward(s: State, bs: seq<int>)
    requires forall b | b in bs :: b in s.db.buckets
    ensures Forward(s, ExpireFold(s, bs))
    decreases bs
  {
    if bs == [] {
      SameForward(s);
    } else {
      var t := s.(db := ExpireStep(s.db, bs[0]));
      assert TablesForward(s.db, t.db);
      hide TablesForward, ExpireStep;
      assert Forward(s, t);
      hide Forward;
      ExpireFoldForward(t, bs[1..]);
      ForwardTwice(s, t, ExpireFold(t, bs[1..]));
    }
  }

  lemma RecoverForward(s: State, now: int)
    ensures Forward(s, Recover(s, now))
  {
    hide Forward, Restart;
    RestartForward(s);
    ExpireFoldForward(Restart(s), Expiring(Restart(s).db, now - RECOVERY_MAX_AGE));
    ForwardTwice(s, Restart(s), Recover(s, now));
  }

  lemma CatchUpOneForward(s: State, c: Conversation, gated: bool, env: Env, startedAt: int, now: int)
    requires FreshIds(s.db)
    ensures Forward(s, CatchUpOne(s, c, gated, env, startedAt, now))
  {
    AddBucketForward(s.db, Bucket(c, Closed(SkippedBudget), startedAt, now));
    var x := Bucket(c, BucketState.Queued, startedAt, now);
    AddBucketForward(s.db, x);
    AddInvocationForward(AddBucket(s.db, x), s.db.nextBucket);
    TablesForwardTwice(s.db, AddBucket(s.db, x), AddInvocation(AddBucket(s.db, x), s.db.nextBucket));
    hide TablesForward, AddInvocation;
    TablesOnly(s, CatchUpOne(s, c, gated, env, startedAt, now));
  }

  lemma {:induction false} CatchUpForward(
    s: State, cs: seq<Conversation>, gated: set<Conversation>, env: Env, startedAt: int, now: int, clock: int)
    requires Inv(s, clock)
    ensures Forward(s, CatchUp(s, cs, gated, env, startedAt, now))
    decreases cs
  {
    hide Inv, Forward, FreshIds, Rows, QueueMatches, ReceiptsMatch, CatchUpOne;
    InvParts(s, clock);
    if cs == [] {
      SameForward(s);
    } else {
      var t := CatchUpOne(s, cs[0], cs[0] in gated, env, startedAt, now);
      CatchUpOneForward(s, cs[0], cs[0] in gated, env, startedAt, now);
      CatchUpOneKeeps(s, cs[0], cs[0] in gated, env, startedAt, now, clock);
      CatchUpForward(t, cs[1..], gated, env, startedAt, now, clock);
      ForwardTwice(s, t, CatchUp(s, cs, gated, env, startedAt, now));
    }
  }

  lemma IngestForward(s: State, c: Conversation, eligible: bool, allowed: bool, now: int)
    requires FreshIds(s.db)
    ensures Forward(s, Ingest(s, c, eligible, allowed, now))
  {
    SameForward(s);
    AddBucketForward(s.db, Bucket(c, BucketState.Collecting, now, now + s.window));
    hide TablesForward, CollectingOf;
  }

  lemma CancelTaskForward(s: State, t: int, now: int)
    requires ReceiptsMatch(s.tasks, s.receipts, s.claims)
    ensures Forward(s, CancelTask(s, t, now))
  {
    SameTables(s.db);
    EndTaskForward(s, t, Cancelled, Suppressed, now);
    hide TablesForward, ReceiptsMatch, EndTask;
  }

  lemma CreateTaskForward(s: State, t: int, c: Conversation, due: Option<int>, bypass: bool)
    ensures Forward(s, CreateTask(s, t, c, due, bypass))
  {
    SameTables(s.db);
    hide TablesForward;
  }

  /** A step that leaves the tables alone, or only moves windows or marks a side effect. */
  lemma PlainForward(s: State, t: State)
    requires t == s.(db := t.db, memory := t.memory, freeAt := t.freeAt, paused := t.paused)
    requires TablesForward(s.db, t.db)
    ensures Forward(s, t)
  {
    hide TablesForward;
  }

  lemma TurnForward(s: State, e: Event, now: int)
    requires e.TurnBoundary? || e.Nudged? || e.AgentFree? || e.Closing? || e.SideEffectStarts? || e.ResumeCommand?
    requires Enabled(s, e)
    ensures Forward(s, Next(s, Step(e, now)))
  {
    SameTables(s.db);
    if e.AgentFree? { PushForward(s.db, CollectingOf(s.db, e.conv), now + s.window); }
    if e.SideEffectStarts? { SideEffectForward(s, e.conv); SameRuns(s, e.conv); }
    hide TablesForward, StartSideEffect, PushDeadlines, RunningOf, CollectingOf;
    PlainForward(s, Next(s, Step(e, now)));
  }

  lemma PauseForward(s: State, chat: int)
    ensures Forward(s, Pause(s, chat))
  {
    ExpireForward(s, set c | c in Conversations(s.db) && c.chat == chat);
    hide Expire, TablesForward;
  }

  lemma InvParts(s: State, clock: int)
    requires Inv(s, clock)
    ensures Rows(s.db) && QueueMatches(s.db) && ReceiptsMatch(s.tasks, s.receipts, s.claims) && FreshIds(s.db)
  {
    RowsGiveFreshIds(s.db);
    hide Rows, QueueMatches, ReceiptsMatch, MemoryMatches, Injected, ClaimsLive, Windows, Rounds, FreshIds, OneCollecting,
      OpensOnce, RunsMatch, AttachedOpensNothing;
  }

  /** Steps that walk a query's rows. */
  predicate Walks(e: Event) {
    e.DueTick? || e.TimerTick? || e.ReceiptTick? || e.SuppressTick? || e.SleepTick? || e.RunEnds? || e.ProcessRestart?
  }

  lemma WalkForward(s: State, step: Step, clock: int)
    requires Inv(s, clock) && clock <= step.at && Enabled(s, step.event) && Walks(step.event)
    ensures Forward(s, Next(s, step))
  {
    hide Inv, Forward;
    var now := step.at;
    match step.event
    case DueTick(env) => DueFoldForward(s, Due(s, now), env, now, clock);
    case TimerTick => TasksDueFoldForward(s, Ordered(TasksDueSet(s, now), Schedule(s)), now, clock);
    case ReceiptTick(env) => ReceiptFoldForward(s, PendingReceipts(s), env, now, clock);
    case SuppressTick(env) => SuppressFoldForward(s, QueuedClaims(s), env, clock);
    case SleepTick => SkipFoldForward(s, Sleepers(s));
    case RunEnds(i, final) => FinishForward(s, i, final, now, clock);
    case ProcessRestart => RecoverForward(s, now);
  }

  lemma NextForward(s: State, step: Step, clock: int)
    requires Inv(s, clock) && clock <= step.at && Enabled(s, step.event)
    ensures Forward(s, Next(s, step))
  {
    hide Inv, Forward, FreshIds, Rows, QueueMatches, ReceiptsMatch, RunningOf, Ingest, ProcessDue, ReceiptFold, Launch,
      InjectPending, UserMessageEnd, Barrier, FreeAgent, Finish, Recover, CatchUp, CreateTask, EndTask, CancelTask, Expire;
    InvParts(s, clock);
    var now := step.at;
    if Walks(step.event) {
      WalkForward(s, step, clock);
    } else {
      match step.event
      case Message(c, eligible, allowed) => IngestForward(s, c, eligible, allowed, now);
      case TaskCreated(t, c, due, bypass) => CreateTaskForward(s, t, c, due, bypass);
      case TaskFinished(t, state, notify) => EndTaskForward(s, t, state, if notify then Pending else Suppressed, now);
      case TaskCancelled(t) => CancelTaskForward(s, t, now);
      case LaunchTick(max) => LaunchForward(s, now, max);
      case UserMessageRead(c) => UserMessageEndForward(s, c);
      case SendAttempt(c, completing) => BarrierForward(s, c, completing);
      case PauseCommand(chat) => PauseForward(s, chat);
      case CancelCommand => ExpireForward(s, Conversations(s.db));
      case StartupCatchUp(cs, gated, env, startedAt) => CatchUpForward(s, cs, gated, env, startedAt, now, clock);
      case _ => TurnForward(s, step.event, now);
    }
  }

  lemma {:induction false} RunForward(s: State, steps: seq<Step>, clock: int)
    requires Inv(s, clock) && Legal(s, steps, clock)
    ensures Forward(s, After(s, steps, clock))
    decreases steps
  {
    hide Inv, Enabled, Next, Forward;
    if steps == [] {
      SameForward(s);
    } else {
      NextKeeps(s, steps[0], clock);
      NextForward(s, steps[0], clock);
      RunForward(Next(s, steps[0]), steps[1..], steps[0].at);
      ForwardTwice(s, Next(s, steps[0]), After(s, steps, clock));
    }
  }
}
