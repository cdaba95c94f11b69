/** Work changing hands: a queued invocation starts, a receipt is claimed, an unread batch is released. */
module LifecycleHandover {
  import opened Options
  import opened Ordering
  import opened LifecycleTables
  import opened LifecycleSteps
  import opened LifecycleInvariant
  import opened LifecycleKeeps
  import opened LifecycleRounds
  import opened LifecycleDrops

  // ---- launch ----

  ghost predicate Startable(db: Tables, i: int) {
    && QueuedInvocation(db, i) && db.invocations[i].bucket in db.buckets
    && !ChatRunning(db, db.invocations[i].conv.chat)
  }

  lemma StartSimple(s: State, i: int, now: int)
    requires Rows(s.db) && OneCollecting(s.db) && OpensOnce(s.db) && QueueMatches(s.db) && Startable(s.db, i)
    ensures Rows(Start(s, i, now).db) && OneCollecting(Start(s, i, now).db) && OpensOnce(Start(s, i, now).db)
  {
    hide ChatRunning;
    assert Opens(s.db, i, s.db.invocations[i].bucket);
  }

  lemma StartQueue(s: State, i: int, now: int)
    requires QueueMatches(s.db) && OpensOnce(s.db) && Startable(s.db, i)
    ensures QueueMatches(Start(s, i, now).db)
  {
    hide ChatRunning;
    var db, r := s.db, Start(s, i, now).db;
    assert Opens(db, i, db.invocations[i].bucket);
    forall b | b in r.buckets && r.buckets[b].state.Queued? ensures exists j :: Opens(r, j, b) {
      var j :| Opens(db, j, b);
      assert Opens(r, j, b);
    }
    forall j, b | Opens(r, j, b) ensures b in r.buckets && r.buckets[b].state.Queued? {
      assert Opens(db, j, b);
    }
  }

  lemma StartRuns(s: State, i: int, now: int)
    requires Rows(s.db) && QueueMatches(s.db) && RunsMatch(s.db) && AttachedOpensNothing(s.db) && Startable(s.db, i)
    ensures RunsMatch(Start(s, i, now).db) && AttachedOpensNothing(Start(s, i, now).db)
  {
    var db, r, o := s.db, Start(s, i, now).db, s.db.invocations[i].bucket;
    assert Opens(db, i, o);
    assert forall j | RunningInvocation(db, j) :: db.invocations[j].conv.chat != db.invocations[i].conv.chat;
    hide ChatRunning;
    forall b | b in r.buckets && r.buckets[b].state.Running? ensures exists j :: Holds(r, j, b) {
      if b == o { assert Holds(r, i, b); }
      else { var j :| Holds(db, j, b); assert Holds(r, j, b); }
    }
    forall x, a, j | Holds(r, x, a) && r.invocations[x].bucket != a && a in r.buckets && r.buckets[a].state.Running?
                     && j in r.invocations ensures r.invocations[j].bucket != a
    {
      assert x != i && Holds(db, x, a);
      assert a != o;
    }
  }

  lemma StartTables(s: State, i: int, now: int)
    requires TablesMatch(s.db) && Startable(s.db, i)
    ensures TablesMatch(Start(s, i, now).db)
  {
    hide Rows, OneCollecting, OpensOnce, QueueMatches, RunsMatch, AttachedOpensNothing, Start, Startable;
    StartSimple(s, i, now);
    StartQueue(s, i, now);
    StartRuns(s, i, now);
  }

  /** The conversation of a startable invocation has no run, so its memory is idle. */
  lemma StartIdle(s: State, i: int)
    requires MemoryMatches(s.memory, s.db) && Startable(s.db, i)
    ensures Mem(s, s.db.invocations[i].conv) == IDLE
  {
    var c := s.db.invocations[i].conv;
    assert forall j :: !RunsFor(s.db, c, j);
    hide RunsFor, ChatRunning;
    if c in s.memory { assert Faithful(s.memory[c], c, s.db); }
  }

  lemma StartDelivers(s: State, i: int, now: int)
    requires QueueMatches(s.db) && Rows(s.db) && Startable(s.db, i)
    ensures Delivers(Start(s, i, now).db, s.db.invocations[i].conv, i, s.db.invocations[i].bucket)
    ensures forall d, j, b | Delivers(s.db, d, j, b) :: Delivers(Start(s, i, now).db, d, j, b)
    ensures forall d, j | RunsFor(s.db, d, j) :: RunsFor(Start(s, i, now).db, d, j)
  {
    hide ChatRunning;
  }

  lemma OpeningFaithful(db: Tables, c: Conversation, i: int, o: int)
    requires Delivers(db, c, i, o)
    ensures Faithful(Memory([], [Batch(o)], false, true, false), c, db)
  {
    var n := Memory([], [Batch(o)], false, true, false);
    assert TagBuckets(n.tags) == [o] + TagBuckets([]);
    assert Waits(n) == multiset{o};
    assert RunsFor(db, c, i);
    hide Waits, Delivers, RunsFor;
  }

  lemma StartMemory(s: State, i: int, now: int)
    requires TablesMatch(s.db) && MemoryMatches(s.memory, s.db) && Startable(s.db, i)
    ensures MemoryMatches(Start(s, i, now).memory, Start(s, i, now).db)
  {
    var c, o, t := s.db.invocations[i].conv, s.db.invocations[i].bucket, Start(s, i, now);
    StartIdle(s, i);
    StartDelivers(s, i, now);
    var n := Memory([], [Batch(o)], false, true, false);
    assert IDLE.tags + [Batch(o)] == [Batch(o)];
    assert t.memory == s.memory[c := n];
    OpeningFaithful(t.db, c, i, o);
    hide Waits, Start, Delivers, RunsFor, Startable, TablesMatch, Faithful;
    forall d | d in t.memory ensures Faithful(t.memory[d], d, t.db) {
      if d != c { FaithfulTransfers(t.memory[d], d, s.db, t.db); }
    }
  }

  lemma StartInjected(s: State, i: int, now: int)
    requires QueueMatches(s.db) && Injected(s.injections, s.db) && Startable(s.db, i)
    ensures Injected(s.injections, Start(s, i, now).db)
  {
    hide ChatRunning;
    var r, o := Start(s, i, now).db, s.db.invocations[i].bucket;
    assert Opens(s.db, i, o);
    forall j, b | Holds(r, j, b) && !r.invocations[j].batches[b] ensures b !in s.injections {
      if j != i { assert Holds(s.db, j, b); }
    }
  }

  lemma StartRest(s: State, i: int, now: int, clock: int)
    requires ClaimsLive(s.receipts, s.db) && Windows(s.window, s.freeAt, s.db)
    requires Rounds(s.memory, s.freeAt, s.db, clock) && clock <= now && Startable(s.db, i)
    ensures ClaimsLive(s.receipts, Start(s, i, now).db) && Windows(s.window, s.freeAt, Start(s, i, now).db)
    ensures Rounds(Start(s, i, now).memory, s.freeAt, Start(s, i, now).db, now)
  {
    hide ChatRunning;
    var t := Start(s, i, now);
    forall u | u in s.receipts && s.receipts[u].state.Claimed? ensures ClaimLive(s.receipts[u], t.db) {
      assert ClaimLive(s.receipts[u], s.db);
    }
    forall j | RunningInvocation(t.db, j) ensures j == i || RunningInvocation(s.db, j) {
    }
  }

  lemma StartKeeps(s: State, i: int, now: int, clock: int)
    requires Inv(s, clock) && Startable(s.db, i) && clock <= now
    ensures Inv(Start(s, i, now), now)
  {
    StartTables(s, i, now);
    assert QueueMatches(s.db);
    hide TablesMatch, QueueMatches, MemoryMatches, Injected, ClaimsLive, ReceiptsMatch, Windows, Rounds, Startable;
    StartMemory(s, i, now);
    StartInjected(s, i, now);
    StartRest(s, i, now, clock);
  }

  lemma LaunchKeeps(s: State, now: int, maxConcurrency: nat, clock: int)
    requires Inv(s, clock) && clock <= now
    ensures Inv(Launch(s, now, maxConcurrency), now)
  {
    hide Inv, Start, RunningSet, ChatRunning;
    if |RunningSet(s.db)| < maxConcurrency && Launchable(s.db, now) != {} {
      StartKeeps(s, Least(Launchable(s.db, now), LaunchRank(s)), now, clock);
    } else {
      ClockAdvances(s, clock, now);
    }
  }

  // ---- receipts ----

  lemma ClaimKeeps(s: State, t: int, i: int, b: int, clock: int)
    requires Inv(s, clock) && t in s.receipts && s.receipts[t].state.Pending?
    requires Live(s.db, i) && b in s.db.invocations[i].batches && b < s.db.nextBucket
    requires forall u | u in s.receipts :: s.receipts[u].bucket != Some(b)
    ensures Inv(Claim(s, t, i, b), clock)
  {
    hide TablesMatch, MemoryMatches, Injected, Windows, Rounds;
    var r := Claim(s, t, i, b);
    ClaimReceipts(s, t, i, b);
    hide ReceiptsMatch;
    forall u | u in r.receipts && r.receipts[u].state.Claimed? ensures ClaimLive(r.receipts[u], s.db) {
      assert u != t ==> ClaimLive(s.receipts[u], s.db);
    }
  }

  lemma ClaimReceipts(s: State, t: int, i: int, b: int)
    requires ReceiptsMatch(s.tasks, s.receipts, s.claims) && t in s.receipts && s.receipts[t].state.Pending?
    requires forall u | u in s.receipts :: s.receipts[u].bucket != Some(b)
    ensures ReceiptsMatch(s.tasks, Claim(s, t, i, b).receipts, Claim(s, t, i, b).claims)
  {
  }

  /** The receipt's own batch is opened in its final state at once; it could as well be queued after. */
  lemma ClaimQueuedInSteps(s: State, t: int, c: Conversation, now: int)
    requires t in s.receipts
    ensures var b := s.db.nextBucket;
            var r := s.(db := AddBucket(s.db, Bucket(c, Closed(Completed), now, now)));
            ClaimQueued(s, t, c, now) == Claim(r.(db := Enqueue(r.db, b)), t, s.db.nextInvocation, b)
  {
    var b := s.db.nextBucket;
    var r := s.(db := AddBucket(s.db, Bucket(c, Closed(Completed), now, now)));
    var x := Bucket(c, BucketState.Queued, now, now);
    assert SetBucket(r.db, b, BucketState.Queued).buckets == AddBucket(s.db, x).buckets;
    assert SetBucket(r.db, b, BucketState.Queued) == AddBucket(s.db, x);
  }

  lemma ClaimQueuedKeeps(s: State, t: int, c: Conversation, now: int, clock: int)
    requires Inv(s, clock) && t in s.receipts && s.receipts[t].state.Pending?
    ensures Inv(ClaimQueued(s, t, c, now), clock)
  {
    var b := s.db.nextBucket;
    var row := Bucket(c, Closed(Completed), now, now);
    var r := s.(db := AddBucket(s.db, row));
    ClaimQueuedInSteps(s, t, c, now);
    AddBucketKeeps(s, row, clock);
    LooseUnawaited(r, b, clock);
    FreshBatch(s);
    hide Inv;
    EnqueueKeeps(r, b, clock);
    hide AddBucket, Enqueue;
    ClaimKeeps(r.(db := Enqueue(r.db, b)), t, s.db.nextInvocation, b, clock);
  }

  lemma FreshBatch(s: State)
    requires ClaimsLive(s.receipts, s.db)
    ensures forall u | u in s.receipts :: s.receipts[u].bucket != Some(s.db.nextBucket)
  {
  }

  lemma LooseUnawaited(s: State, b: int, clock: int)
    requires Inv(s, clock) && Loose(b, s.db, s.injections)
    ensures Unawaited(s.memory, b) && Queueable(b, s.db, s.injections)
  {
    assert Rows(s.db);
    hide TablesMatch, Injected, ClaimsLive, ReceiptsMatch, Windows, Rounds, MemoryMatches;
    LooseIsQueueable(b, s.db, s.injections);
    NotWaiting(s.memory, s.db, b);
  }

  lemma ClaimAttachedInSteps(s: State, t: int, c: Conversation, i: int, now: int)
    requires t in s.receipts && i in s.db.invocations
    ensures var b := s.db.nextBucket;
            var r := s.(db := AddBucket(s.db, Bucket(c, Closed(Completed), now, now)));
            ClaimAttached(s, t, c, i, now) == Claim(QueueInjection(r.(db := Attach(r.db, b, i)), c, b, Completion), t, i, b)
  {
    var b := s.db.nextBucket;
    var r := s.(db := AddBucket(s.db, Bucket(c, Closed(Completed), now, now)));
    var x := Bucket(c, BucketState.Running, now, now);
    assert SetBucket(r.db, b, BucketState.Running).buckets == AddBucket(s.db, x).buckets;
    assert SetBucket(r.db, b, BucketState.Running) == AddBucket(s.db, x);
  }

  lemma ClaimAttachedKeeps(s: State, t: int, c: Conversation, i: int, now: int, clock: int)
    requires Inv(s, clock) && t in s.receipts && s.receipts[t].state.Pending? && RunsFor(s.db, c, i)
    ensures Inv(ClaimAttached(s, t, c, i, now), clock)
  {
    var b := s.db.nextBucket;
    var row := Bucket(c, Closed(Completed), now, now);
    var r := s.(db := AddBucket(s.db, row));
    ClaimAttachedInSteps(s, t, c, i, now);
    AddBucketKeeps(s, row, clock);
    FreshBatch(s);
    hide Inv;
    AttachKeeps(r, b, i, Completion, clock);
    hide AddBucket, Attach;
    ClaimKeeps(QueueInjection(r.(db := Attach(r.db, b, i)), c, b, Completion), t, i, b, clock);
  }

  // ---- a batch the run never read ----

  ghost predicate Releasable(s: State, i: int, b: int) {
    && Holds(s.db, i, b) && !s.db.invocations[i].batches[b] && b != s.db.invocations[i].bucket
    && Unawaited(s.memory, b)
  }

  lemma RepointKeeps(s: State, i: int, n: int, b: int, clock: int)
    requires Inv(s, clock) && Live(s.db, n) && b in s.db.invocations[n].batches
    ensures Inv(s.(receipts := Repoint(s.receipts, i, b, n)), clock)
  {
    hide TablesMatch, MemoryMatches, Injected, Windows, Rounds;
    forall u | u in s.receipts && s.receipts[u].state.Claimed? ensures ClaimLive(s.receipts[u], s.db) {
    }
  }

  lemma DropCarriedKeeps(s: State, i: int, b: int, clock: int)
    requires Inv(s, clock)
    ensures Inv(s.(receipts := DropCarried(s.receipts, i, b)), clock)
  {
    hide TablesMatch, MemoryMatches, Injected, Windows, Rounds;
    forall u | u in s.receipts && s.receipts[u].state.Claimed? ensures ClaimLive(s.receipts[u], s.db) {
    }
  }

  lemma ReleasableIsQueueable(s: State, i: int, b: int, clock: int)
    requires Inv(s, clock) && Releasable(s, i, b) && b in s.db.buckets && s.db.buckets[b].state.Running?
    ensures Queueable(b, s.db, s.injections)
  {
    hide MemoryMatches, ClaimsLive, ReceiptsMatch, Windows, Rounds, Unawaited, Rows, OneCollecting, OpensOnce, QueueMatches, RunsMatch;
  }

  lemma ReleaseStepKeeps(s: State, i: int, b: int, clock: int)
    requires Inv(s, clock) && Releasable(s, i, b) && b in s.db.buckets
    ensures Inv(ReleaseStep(s, i, b), clock)
  {
    if s.db.buckets[b].state.Running? {
      ReleasableIsQueueable(s, i, b, clock);
      hide Inv;
      EnqueueKeeps(s, b, clock);
      hide Enqueue, Repoint;
      RepointKeeps(s.(db := Enqueue(s.db, b)), i, s.db.nextInvocation, b, clock);
    } else {
      hide Inv;
      DropCarriedKeeps(s, i, b, clock);
    }
  }

  lemma ReleaseStepLeaves(s: State, i: int, b: int, a: int)
    requires Rows(s.db) && Releasable(s, i, a) && b in s.db.buckets && a in s.db.buckets
    ensures Releasable(ReleaseStep(s, i, b), i, a)
  {
    hide Waits;
  }

  lemma {:induction false} ReleaseFoldKeeps(s: State, i: int, bs: seq<int>, clock: int)
    requires Inv(s, clock) && RunningInvocation(s.db, i)
    requires forall b | b in bs :: b in s.db.buckets && Releasable(s, i, b)
    ensures Inv(ReleaseFold(s, i, bs), clock) && RunningInvocation(ReleaseFold(s, i, bs).db, i)
    decreases bs
  {
    if bs == [] {
    } else {
      var t := ReleaseStep(s, i, bs[0]);
      forall b | b in bs[1..] ensures b in t.db.buckets && Releasable(t, i, b) {
        ReleaseStepLeaves(s, i, bs[0], b);
        ReleaseStepKeys(s, i, bs[0]);
      }
      ReleaseStepRuns(s, i, bs[0]);
      hide Inv, ReleaseStep;
      ReleaseStepKeeps(s, i, bs[0], clock);
      hide Releasable, RunningInvocation;
      ReleaseFoldKeeps(t, i, bs[1..], clock);
    }
  }

  lemma FinishReleasable(s: State, i: int, clock: int)
    requires Inv(s, clock) && RunningInvocation(s.db, i)
    ensures var t := ClearQueues(s, s.db.invocations[i].conv);
            forall b | b in Uninjected(s.db, i) :: b in t.db.buckets && Releasable(t, i, b)
  {
    var c := s.db.invocations[i].conv;
    var t := ClearQueues(s, c);
    ClearQueuesKeeps(s, c, clock);
    hide Injected, ClaimsLive, ReceiptsMatch, Windows, Rounds, OneCollecting, OpensOnce, QueueMatches, AttachedOpensNothing,
      RunsMatch, MemoryMatches, Waits, ClearQueues;
    forall b | b in Uninjected(s.db, i) ensures Unawaited(t.memory, b) {
      forall d | d in t.memory && b in Waits(t.memory[d]) ensures false {
        WaitsAtHome(t, b, d);
      }
    }
  }

  lemma FinishKeeps(s: State, i: int, final: Final, now: int, clock: int)
    requires Inv(s, clock) && RunningInvocation(s.db, i)
    ensures Inv(Finish(s, i, final, now), clock)
  {
    var c := s.db.invocations[i].conv;
    var t := ClearQueues(s, c);
    FinishReleasable(s, i, clock);
    hide Inv, Releasable, Seal, Uninjected;
    ClearQueuesKeeps(s, c, clock);
    hide ClearQueues;
    ReleaseFoldKeeps(t, i, Ordered(Uninjected(s.db, i), ById), clock);
    SealKeeps(ReleaseFold(t, i, Ordered(Uninjected(s.db, i), ById)), i, final, now, clock);
  }

  lemma ReleaseStepRuns(s: State, i: int, b: int)
    requires Rows(s.db) && RunningInvocation(s.db, i) && b in s.db.buckets
    ensures RunningInvocation(ReleaseStep(s, i, b).db, i)
  {
  }
}
