/** The transactions that walk a query's rows: due batches, pending receipts, queued work to drop. */
module LifecycleQueries {
  import opened Options
  import opened Ordering
  import opened LifecycleTables
  import opened LifecycleSteps
  import opened LifecycleInvariant
  import opened LifecycleKeeps
  import opened LifecycleDrops
  import opened LifecycleRounds
  import opened LifecycleHandover

  lemma TailOf(xs: seq<int>)
    requires xs != [] && forall x, y | 0 <= x < y < |xs| :: xs[x] != xs[y]
    ensures forall v | v in xs[1..] :: v in xs && v != xs[0]
    ensures forall x, y | 0 <= x < y < |xs[1..]| :: xs[1..][x] != xs[1..][y]
  {
    forall v | v in xs[1..] ensures v in xs && v != xs[0] {
      var k :| 0 <= k < |xs| - 1 && xs[1..][k] == v;
      assert xs[k + 1] == v;
    }
  }

  // ---- ingestion and the barrier ----

  lemma IngestKeeps(s: State, c: Conversation, eligible: bool, allowed: bool, now: int, clock: int)
    requires Inv(s, clock) && clock <= now
    ensures Inv(Ingest(s, c, eligible, allowed, now), now)
  {
    hide Inv, CollectingOf;
    ClockAdvances(s, clock, now);
    if Ingest(s, c, eligible, allowed, now) != s {
      AddBucketKeeps(s, Bucket(c, BucketState.Collecting, now, now + s.window), now);
    }
  }

  lemma CollectingAttachable(s: State, b: int, clock: int)
    requires Inv(s, clock) && b in s.db.buckets && s.db.buckets[b].state.Collecting?
    ensures Loose(b, s.db, s.injections) && Queueable(b, s.db, s.injections) && Unawaited(s.memory, b)
  {
    assert Rows(s.db) && Injected(s.injections, s.db);
    CollectingIsLoose(s.db, b, s.injections);
    hide Inv;
    LooseUnawaited(s, b, clock);
  }

  lemma BarrierKeeps(s: State, c: Conversation, completing: bool, clock: int)
    requires Inv(s, clock)
    ensures Inv(Barrier(s, c, completing), clock)
  {
    hide Inv;
    var running := RunningOf(s.db, c);
    if Barrier(s, c, completing) != s {
      var b := Least(CollectingOf(s.db, c), ById);
      CollectingAttachable(s, b, clock);
      AttachKeeps(s, b, running.value, Messages, clock);
      var t := QueueInjection(s.(db := Attach(s.db, b, running.value)), c, b, Messages);
      assert RunsFor(t.db, c, running.value);
      FlagsKeep(t, c, Mem(t, c).(barrierSpent := true), clock);
    }
  }

  // ---- due batches ----

  ghost predicate AllCollecting(db: Tables, due: seq<int>) {
    forall b | b in due :: b in db.buckets && db.buckets[b].state.Collecting?
  }

  lemma DueStepKeeps(s: State, b: int, env: Env, now: int, clock: int)
    requires Inv(s, clock) && b in s.db.buckets && s.db.buckets[b].state.Collecting?
    ensures Inv(DueStep(s, b, env, now), clock)
  {
    hide Inv;
    var c := s.db.buckets[b].conv;
    var action := DueDecision(s, c, env);
    assert action.Hand? ==> RunsFor(s.db, c, action.invocation);
    hide DueDecision, Attach, Enqueue, Defer, SetBucket, QueueInjection, Queueable, Loose, Unawaited, RunsFor;
    match action
    case Postpone => DeferKeeps(s, b, now + Max(s.window, MINIMUM_DEFER), clock);
    case Leave =>
    case Skip => SkipKeeps(s, b, SkippedBudget, clock);
    case Hand(i) => CollectingAttachable(s, b, clock); AttachKeeps(s, b, i, Messages, clock);
    case Open => CollectingAttachable(s, b, clock); EnqueueKeeps(s, b, clock);
  }

  /** Deciding one batch leaves the rows of the others alone. */
  lemma DueStepElsewhere(s: State, b: int, env: Env, now: int)
    requires b in s.db.buckets
    ensures forall a | a in s.db.buckets && a != b :: DueStep(s, b, env, now).db.buckets[a] == s.db.buckets[a]
  {
    hide DueDecision;
    match DueDecision(s, s.db.buckets[b].conv, env)
    case _ =>
  }

  lemma {:induction false} DueFoldKeeps(s: State, due: seq<int>, env: Env, now: int, clock: int)
    requires Inv(s, clock) && AllCollecting(s.db, due)
    requires forall x, y | 0 <= x < y < |due| :: due[x] != due[y]
    ensures Inv(DueFold(s, due, env, now), clock)
    decreases due
  {
    hide Inv;
    if due == [] {
    } else {
      TailOf(due);
      DueStepElsewhere(s, due[0], env, now);
      DueStepKeeps(s, due[0], env, now, clock);
      hide DueStep;
      DueFoldKeeps(DueStep(s, due[0], env, now), due[1..], env, now, clock);
    }
  }

  lemma ProcessDueKeeps(s: State, env: Env, now: int, clock: int)
    requires Inv(s, clock) && clock <= now
    ensures Inv(ProcessDue(s, env, now), now)
  {
    hide Inv;
    ClockAdvances(s, clock, now);
    DueFoldKeeps(s, Due(s, now), env, now, now);
  }

  // ---- tasks ----

  lemma CreateTaskKeeps(s: State, t: int, c: Conversation, due: Option<int>, bypass: bool, clock: int)
    requires Inv(s, clock)
    ensures Inv(CreateTask(s, t, c, due, bypass), clock)
  {
    hide TablesMatch, MemoryMatches, Injected, Windows, Rounds, ClaimsLive;
    var r := CreateTask(s, t, c, due, bypass);
    assert ReceiptsMatch(r.tasks, r.receipts, r.claims);
  }

  lemma EndTaskReceipts(s: State, t: int, state: TaskState, receipt: ReceiptState, now: int)
    requires ReceiptsMatch(s.tasks, s.receipts, s.claims)
    requires !state.Waiting? && (receipt.Pending? || receipt.Suppressed?)
    ensures var r := EndTask(s, t, state, receipt, now); ReceiptsMatch(r.tasks, r.receipts, r.claims)
  {
  }

  lemma EndTaskClaims(s: State, t: int, state: TaskState, receipt: ReceiptState, now: int)
    requires ClaimsLive(s.receipts, s.db) && (receipt.Pending? || receipt.Suppressed?)
    ensures ClaimsLive(EndTask(s, t, state, receipt, now).receipts, s.db)
  {
    var r := EndTask(s, t, state, receipt, now);
    forall u | u in r.receipts && r.receipts[u].state.Claimed? ensures ClaimLive(r.receipts[u], r.db) {
      assert ClaimLive(s.receipts[u], s.db);
    }
  }

  lemma EndTaskKeeps(s: State, t: int, state: TaskState, receipt: ReceiptState, now: int, clock: int)
    requires Inv(s, clock) && !state.Waiting? && (receipt.Pending? || receipt.Suppressed?)
    ensures Inv(EndTask(s, t, state, receipt, now), clock)
  {
    hide TablesMatch, MemoryMatches, Injected, Windows, Rounds, ClaimsLive, ReceiptsMatch;
    EndTaskReceipts(s, t, state, receipt, now);
    EndTaskClaims(s, t, state, receipt, now);
  }

  lemma CancelTaskKeeps(s: State, t: int, now: int, clock: int)
    requires Inv(s, clock)
    ensures Inv(CancelTask(s, t, now), clock)
  {
    hide Inv;
    if t in s.tasks && s.tasks[t].state.Waiting? {
      EndTaskKeeps(s, t, Cancelled, Suppressed, now, clock);
    } else if t in s.receipts && s.receipts[t].state.Pending? {
      SuppressPendingKeeps(s, t, clock);
    }
  }

  lemma {:induction false} TasksDueFoldKeeps(s: State, ts: seq<int>, now: int, clock: int)
    requires Inv(s, clock)
    ensures Inv(TasksDueFold(s, ts, now), clock)
    decreases ts
  {
    hide Inv;
    if ts == [] {
    } else {
      EndTaskKeeps(s, ts[0], Finished, Pending, now, clock);
      TasksDueFoldKeeps(EndTask(s, ts[0], Finished, Pending, now), ts[1..], now, clock);
    }
  }

  // ---- receipts ----

  lemma ReceiptStepKeeps(s: State, t: int, env: Env, now: int, clock: int)
    requires Inv(s, clock) && t in s.receipts && t in s.tasks
    ensures Inv(ReceiptStep(s, t, env, now), clock)
  {
    var action := ReceiptDecision(s, t, env);
    var c := s.tasks[t].conv;
    assert action.Deliver? ==> RunsFor(s.db, c, action.invocation);
    assert !action.Wait? ==> s.receipts[t].state.Pending?;
    hide Inv, ReceiptDecision;
    match action
    case Drop => SuppressPendingKeeps(s, t, clock);
    case Wait =>
    case Deliver(i) => ClaimAttachedKeeps(s, t, c, i, now, clock);
    case OpenFor => ClaimQueuedKeeps(s, t, c, now, clock);
  }

  lemma {:induction false} ReceiptFoldKeeps(s: State, pending: seq<int>, env: Env, now: int, clock: int)
    requires Inv(s, clock)
    requires forall t | t in pending :: t in s.receipts && t in s.tasks
    ensures Inv(ReceiptFold(s, pending, env, now), clock)
    decreases pending
  {
    hide Inv;
    if pending == [] {
    } else {
      ReceiptStepKeeps(s, pending[0], env, now, clock);
      hide ReceiptStep;
      assert forall t | t in pending[1..] :: t in pending;
      ReceiptFoldKeeps(ReceiptStep(s, pending[0], env, now), pending[1..], env, now, clock);
    }
  }

  // ---- queued work that is dropped ----

  lemma {:induction false} SuppressFoldKeeps(s: State, ts: seq<int>, env: Env, clock: int)
    requires Inv(s, clock)
    requires forall t | t in ts :: Claimant(s, t) && QueuedClaim(s, t)
    requires forall x, y | 0 <= x < y < |ts| :: ts[x] != ts[y]
    ensures Inv(SuppressFold(s, ts, env), clock)
    decreases ts
  {
    if ts == [] {
    } else {
      TailOf(ts);
      SuppressStepLeaves(s, ts[0], env);
      SuppressStepRows(s, ts[0], env);
      hide Inv;
      SuppressStepKeeps(s, ts[0], env, clock);
      hide SuppressStep, QueuedClaim, Claimant;
      SuppressFoldKeeps(SuppressStep(s, ts[0], env), ts[1..], env, clock);
    }
  }

  lemma SuppressKeeps(s: State, env: Env, clock: int)
    requires Inv(s, clock)
    ensures Inv(SuppressFold(s, QueuedClaims(s), env), clock)
  {
    hide Inv;
    SuppressFoldKeeps(s, QueuedClaims(s), env, clock);
  }

  lemma {:induction false} SkipFoldKeeps(s: State, sleepers: seq<int>, clock: int)
    requires Inv(s, clock)
    requires forall i | i in sleepers :: i in s.db.invocations && QueuedInvocation(s.db, i)
    requires forall x, y | 0 <= x < y < |sleepers| :: sleepers[x] != sleepers[y]
    ensures Inv(SkipFold(s, sleepers), clock)
    decreases sleepers
  {
    hide Inv;
    if sleepers == [] {
    } else {
      TailOf(sleepers);
      DropKeeps(s, sleepers[0], SkippedBudget, SkippedBudget, Handled, clock);
      SkipFoldKeeps(DropQueued(s, sleepers[0], SkippedBudget, SkippedBudget, Handled), sleepers[1..], clock);
    }
  }

  lemma SkipSleepersKeeps(s: State, clock: int)
    requires Inv(s, clock)
    ensures Inv(SkipFold(s, Sleepers(s)), clock)
  {
    hide Inv, ExemptFromSleep;
    SkipFoldKeeps(s, Sleepers(s), clock);
  }

  // ---- startup catch-up ----

  lemma CatchUpInSteps(s: State, c: Conversation, startedAt: int, now: int)
    ensures var r := AddBucket(s.db, Bucket(c, Closed(SkippedBudget), startedAt, now));
            AddInvocation(AddBucket(s.db, Bucket(c, BucketState.Queued, startedAt, now)), s.db.nextBucket)
            == Enqueue(r, s.db.nextBucket)
  {
    var r := AddBucket(s.db, Bucket(c, Closed(SkippedBudget), startedAt, now));
    var x := Bucket(c, BucketState.Queued, startedAt, now);
    assert SetBucket(r, s.db.nextBucket, BucketState.Queued).buckets == AddBucket(s.db, x).buckets;
    assert SetBucket(r, s.db.nextBucket, BucketState.Queued) == AddBucket(s.db, x);
  }

  lemma CatchUpOneKeeps(s: State, c: Conversation, gated: bool, env: Env, startedAt: int, now: int, clock: int)
    requires Inv(s, clock)
    ensures Inv(CatchUpOne(s, c, gated, env, startedAt, now), clock)
  {
    var row := Bucket(c, Closed(SkippedBudget), startedAt, now);
    var r := s.(db := AddBucket(s.db, row));
    CatchUpInSteps(s, c, startedAt, now);
    AddBucketKeeps(s, row, clock);
    assert s.db.nextBucket in r.db.buckets;
    hide Inv, AddBucket, Loose, AddInvocation, Enqueue;
    LooseUnawaited(r, s.db.nextBucket, clock);
    EnqueueKeeps(r, s.db.nextBucket, clock);
  }

  lemma {:induction false} CatchUpKeeps(
    s: State, cs: seq<Conversation>, gated: set<Conversation>, env: Env, startedAt: int, now: int, clock: int)
    requires Inv(s, clock)
    ensures Inv(CatchUp(s, cs, gated, env, startedAt, now), clock)
    decreases cs
  {
    hide Inv, CatchUpOne;
    if cs != [] {
      CatchUpOneKeeps(s, cs[0], cs[0] in gated, env, startedAt, now, clock);
      CatchUpKeeps(CatchUpOne(s, cs[0], cs[0] in gated, env, startedAt, now), cs[1..], gated, env, startedAt, now, clock);
    }
  }
}
