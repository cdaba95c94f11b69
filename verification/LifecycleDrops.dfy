/** The steps that only end work: postponing, skipping, suppressing, expiring, sealing a run, restarting. */
module LifecycleDrops {
  import opened Options
  import opened LifecycleTables
  import opened LifecycleSteps
  import opened LifecycleInvariant
  import opened LifecycleSettling

  // ---- collecting batches ----

  lemma CollectingSettles(s: State, b: int, row: Bucket, clock: int)
    requires Inv(s, clock) && b in s.db.buckets && s.db.buckets[b].state.Collecting?
    requires BucketSettles(s.db.buckets[b], row)
    ensures Inv(s.(db := s.db.(buckets := s.db.buckets[b := row])), clock)
  {
    var t := s.(db := s.db.(buckets := s.db.buckets[b := row]));
    CollectingRowSettles(s.db, b, row);
    SameMemorySettles(s.memory, s.db, t.db);
    hide TablesMatch, MemoryMatches, Injected, Windows, Rounds, Settles;
    SettlingKeeps(s, t, clock);
  }

  lemma CollectingRowSettles(db: Tables, b: int, row: Bucket)
    requires TablesMatch(db) && b in db.buckets && db.buckets[b].state.Collecting?
    requires BucketSettles(db.buckets[b], row)
    ensures Settles(db, db.(buckets := db.buckets[b := row]))
  {
    hide OneCollecting, OpensOnce, RunsMatch, AttachedOpensNothing;
  }

  lemma SameMemorySettles(memory: map<Conversation, Memory>, db: Tables, r: Tables)
    requires forall i | RunningInvocation(db, i) :: RunningInvocation(r, i)
    ensures MemorySettles(memory, memory, db, r)
  {
  }

  lemma DeferKeeps(s: State, b: int, atLeast: int, clock: int)
    requires Inv(s, clock) && b in s.db.buckets
    ensures Inv(s.(db := Defer(s.db, b, atLeast)), clock)
  {
    hide Inv, TablesMatch;
    if s.db.buckets[b].state.Collecting? && s.db.buckets[b].deadline < atLeast {
      CollectingSettles(s, b, s.db.buckets[b].(deadline := atLeast), clock);
    } else {
      assert s.(db := Defer(s.db, b, atLeast)) == s;
    }
  }

  lemma SkipKeeps(s: State, b: int, final: Final, clock: int)
    requires Inv(s, clock) && b in s.db.buckets && s.db.buckets[b].state.Collecting?
    ensures Inv(s.(db := SetBucket(s.db, b, Closed(final))), clock)
  {
    hide Inv;
    CollectingSettles(s, b, s.db.buckets[b].(state := Closed(final)), clock);
  }

  // ---- pending receipts ----

  lemma SuppressPendingKeeps(s: State, t: int, clock: int)
    requires Inv(s, clock) && t in s.receipts && s.receipts[t].state.Pending?
    ensures Inv(SetReceipt(s, t, Suppressed), clock)
  {
    hide TablesMatch, MemoryMatches, Injected, Windows, Rounds;
    SameMemorySettles(s.memory, s.db, s.db);
    SettlesItself(s.db);
    var r := SetReceipt(s, t, Suppressed);
    forall u | u in s.receipts ensures ReceiptSettles(s.receipts[u], r.receipts[u], r.db) {
      if r.receipts[u].state.Claimed? { assert ClaimLive(s.receipts[u], s.db); }
    }
    SettlingKeeps(s, r, clock);
  }

  // ---- queued invocations ----

  lemma DropSettles(s: State, i: int, final: Final, bucketFinal: Final)
    requires TablesMatch(s.db) && QueuedInvocation(s.db, i)
    ensures Settles(s.db, DropQueued(s, i, final, bucketFinal, Handled).db)
  {
    hide OneCollecting, RunsMatch, AttachedOpensNothing;
    var db, r := s.db, DropQueued(s, i, final, bucketFinal, Handled).db;
    assert Opens(db, i, db.invocations[i].bucket);
    forall j, b | Opens(db, j, b) ensures QueuedInvocation(r, j) <==> (b in r.buckets && r.buckets[b].state.Queued?) {
      assert b in db.buckets && db.buckets[b].state.Queued?;
    }
  }

  lemma DropKeeps(s: State, i: int, final: Final, bucketFinal: Final, receipt: ReceiptState, clock: int)
    requires Inv(s, clock) && QueuedInvocation(s.db, i) && (receipt.Handled? || receipt.Suppressed?)
    ensures Inv(DropQueued(s, i, final, bucketFinal, receipt), clock)
    ensures forall j | QueuedInvocation(s.db, j) && j != i :: QueuedInvocation(DropQueued(s, i, final, bucketFinal, receipt).db, j)
  {
    var t := DropQueued(s, i, final, bucketFinal, receipt);
    DropSettles(s, i, final, bucketFinal);
    assert t.db == DropQueued(s, i, final, bucketFinal, Handled).db;
    SameMemorySettles(s.memory, s.db, t.db);
    DropReceiptsSettle(s, i, final, bucketFinal, receipt);
    hide TablesMatch, MemoryMatches, Injected, Windows, Rounds, ClaimsLive, ReceiptsMatch, Settles, ReceiptsSettle;
    SettlingKeeps(s, t, clock);
  }

  lemma DropReceiptsSettle(s: State, i: int, final: Final, bucketFinal: Final, receipt: ReceiptState)
    requires ClaimsLive(s.receipts, s.db) && QueuedInvocation(s.db, i) && (receipt.Handled? || receipt.Suppressed?)
    ensures ReceiptsSettle(s.receipts, DropQueued(s, i, final, bucketFinal, receipt).receipts,
                           DropQueued(s, i, final, bucketFinal, receipt).db)
  {
    var t := DropQueued(s, i, final, bucketFinal, receipt);
    forall u | u in s.receipts ensures ReceiptSettles(s.receipts[u], t.receipts[u], t.db) {
      if t.receipts[u].state.Claimed? { assert ClaimLive(s.receipts[u], s.db); }
    }
  }

  /** Within one conversation's queue every receipt has an invocation of its own. */
  lemma QueuedClaimsDiffer(s: State, t: int, u: int)
    requires QueueMatches(s.db) && ClaimsLive(s.receipts, s.db) && ReceiptsMatch(s.tasks, s.receipts, s.claims)
    requires QueuedClaim(s, t) && QueuedClaim(s, u) && s.receipts[t].invocation == s.receipts[u].invocation
    ensures t == u
  {
    assert ClaimLive(s.receipts[t], s.db) && ClaimLive(s.receipts[u], s.db);
  }

  /** Dropping the one receipt is dropping every receipt of its invocation. */
  lemma SuppressIsDrop(s: State, t: int)
    requires Claimant(s, t) && s.receipts[t].state.Claimed?
    requires forall u | QueuedClaim(s, u) && s.receipts[u].invocation == s.receipts[t].invocation :: u == t
    requires QueuedClaim(s, t)
    ensures var i := s.receipts[t].invocation.value;
            SetReceipt(s, t, Suppressed).(db := DropRows(s.db, i, Aborted, Aborted))
            == DropQueued(s, i, Aborted, Aborted, Suppressed)
  {
    var i := s.receipts[t].invocation.value;
    var x, y := SetReceipt(s, t, Suppressed).receipts, SettleReceipts(s.receipts, i, Suppressed);
    assert x.Keys == y.Keys;
    forall u | u in x ensures x[u] == y[u] {
      assert s.receipts[u].state.Claimed? && s.receipts[u].invocation == Some(i) ==> QueuedClaim(s, u);
    }
    assert x == y;
  }

  lemma OwnInvocation(s: State, t: int)
    requires QueueMatches(s.db) && ClaimsLive(s.receipts, s.db) && ReceiptsMatch(s.tasks, s.receipts, s.claims)
    requires QueuedClaim(s, t)
    ensures forall u | QueuedClaim(s, u) && s.receipts[u].invocation == s.receipts[t].invocation :: u == t
  {
    hide QueueMatches, ClaimsLive, ReceiptsMatch;
    forall u | QueuedClaim(s, u) && s.receipts[u].invocation == s.receipts[t].invocation ensures u == t {
      QueuedClaimsDiffer(s, t, u);
    }
  }

  lemma SuppressStepKeeps(s: State, t: int, env: Env, clock: int)
    requires Inv(s, clock) && Claimant(s, t) && QueuedClaim(s, t)
    ensures Inv(SuppressStep(s, t, env), clock)
  {
    OwnInvocation(s, t);
    if DeliveryBlocked(s, s.tasks[t].conv, env) {
      hide Inv, DeliveryBlocked, DropQueued, DropRows;
      SuppressIsDrop(s, t);
      DropKeeps(s, s.receipts[t].invocation.value, Aborted, Aborted, Suppressed, clock);
    }
  }

  lemma SuppressStepLeaves(s: State, t: int, env: Env)
    requires TablesMatch(s.db) && ClaimsLive(s.receipts, s.db) && ReceiptsMatch(s.tasks, s.receipts, s.claims)
    requires Claimant(s, t) && QueuedClaim(s, t)
    ensures forall u | QueuedClaim(s, u) && u != t :: QueuedClaim(SuppressStep(s, t, env), u)
  {
    forall u | QueuedClaim(s, u) && u != t ensures QueuedClaim(SuppressStep(s, t, env), u) {
      if s.receipts[u].invocation == s.receipts[t].invocation { QueuedClaimsDiffer(s, t, u); }
      hide TablesMatch, ClaimsLive, ReceiptsMatch, DeliveryBlocked;
    }
  }

  // ---- pause, cancel ----

  lemma ExpireSettles(s: State, scope: set<Conversation>)
    requires TablesMatch(s.db)
    ensures Settles(s.db, Expire(s, scope).db)
  {
    hide OneCollecting, OpensOnce, RunsMatch, AttachedOpensNothing, AttachedUninjected;
    var db, r := s.db, Expire(s, scope).db;
    forall i, b | Opens(db, i, b) ensures QueuedInvocation(r, i) <==> (b in r.buckets && r.buckets[b].state.Queued?) {
      assert b in db.invocations[i].batches;
    }
  }

  lemma ExpireReceiptsSettle(s: State, scope: set<Conversation>)
    requires ClaimsLive(s.receipts, s.db)
    ensures ReceiptsSettle(s.receipts, Expire(s, scope).receipts, Expire(s, scope).db)
  {
    hide AttachedUninjected;
    var t := Expire(s, scope);
    forall u | u in s.receipts ensures ReceiptSettles(s.receipts[u], t.receipts[u], t.db) {
      if t.receipts[u].state.Claimed? { assert ClaimLive(s.receipts[u], s.db); }
    }
  }

  lemma ExpireKeeps(s: State, scope: set<Conversation>, clock: int)
    requires Inv(s, clock)
    ensures Inv(Expire(s, scope), clock)
  {
    var t := Expire(s, scope);
    ExpireSettles(s, scope);
    ExpireReceiptsSettle(s, scope);
    SameMemorySettles(s.memory, s.db, t.db);
    hide TablesMatch, MemoryMatches, Injected, Windows, Rounds, ClaimsLive, ReceiptsMatch, Settles, ReceiptsSettle;
    SettlingKeeps(s, t, clock);
  }

  lemma PauseKeeps(s: State, chats: set<int>, clock: int)
    requires Inv(s, clock)
    ensures Inv(s.(paused := chats), clock)
  {
  }

  // ---- the end of a run ----

  lemma SealSettles(s: State, i: int, final: Final, now: int)
    requires TablesMatch(s.db) && RunningInvocation(s.db, i)
    ensures Settles(s.db, Seal(s, i, final, now).db)
  {
    SealRowsSettle(s, i, final, now);
    SealBalanced(s, i, final, now);
  }

  lemma SealRowsSettle(s: State, i: int, final: Final, now: int)
    requires RunningInvocation(s.db, i)
    ensures RowsSettle(s.db, Seal(s, i, final, now).db)
  {
    var r := Seal(s, i, final, now).db;
    assert r.buckets.Keys == s.db.buckets.Keys && r.invocations.Keys == s.db.invocations.Keys;
  }

  lemma SealBalanced(s: State, i: int, final: Final, now: int)
    requires QueueMatches(s.db) && RunningInvocation(s.db, i)
    ensures Balanced(s.db, Seal(s, i, final, now).db)
  {
    var db, r := s.db, Seal(s, i, final, now).db;
    forall j, b | Opens(db, j, b) ensures QueuedInvocation(r, j) <==> (b in r.buckets && r.buckets[b].state.Queued?) {
      assert b in db.buckets && db.buckets[b].state.Queued?;
    }
  }

  lemma SealReceiptsSettle(s: State, i: int, final: Final, now: int)
    requires ClaimsLive(s.receipts, s.db) && RunningInvocation(s.db, i)
    ensures ReceiptsSettle(s.receipts, Seal(s, i, final, now).receipts, Seal(s, i, final, now).db)
  {
    var t := Seal(s, i, final, now);
    forall u | u in s.receipts ensures ReceiptSettles(s.receipts[u], t.receipts[u], t.db) {
      if t.receipts[u].state.Claimed? { assert ClaimLive(s.receipts[u], s.db); }
    }
  }

  lemma SealMemorySettles(s: State, i: int, final: Final, now: int)
    requires RunsMatch(s.db) && RunningInvocation(s.db, i)
    ensures MemorySettles(s.memory, Seal(s, i, final, now).memory, s.db, Seal(s, i, final, now).db)
  {
  }

  lemma SealKeeps(s: State, i: int, final: Final, now: int, clock: int)
    requires Inv(s, clock) && RunningInvocation(s.db, i)
    ensures Inv(Seal(s, i, final, now), clock)
  {
    SealSettles(s, i, final, now);
    SealReceiptsSettle(s, i, final, now);
    SealMemorySettles(s, i, final, now);
    hide TablesMatch, MemoryMatches, Injected, Windows, Rounds, ClaimsLive, ReceiptsMatch, Settles, ReceiptsSettle,
      MemorySettles;
    SettlingKeeps(s, Seal(s, i, final, now), clock);
  }

  // ---- restart ----

  lemma RestartSettles(s: State)
    requires TablesMatch(s.db)
    ensures Settles(s.db, Restart(s).db)
  {
    RestartRowsSettle(s);
    RestartBalanced(s);
  }

  /** The tables once the running work is closed, before the claims are settled. */
  function Stopped(s: State): State { s.(db := RestartBuckets(RestartRuns(s.db)), memory := map[]) }

  lemma StoppedRows(db: Tables)
    ensures RowsSettle(db, RestartBuckets(RestartRuns(db)))
    ensures forall i | QueuedInvocation(db, i) :: QueuedInvocation(RestartBuckets(RestartRuns(db)), i)
    ensures forall b | b in db.buckets && db.buckets[b].state.Queued? ::
              b in RestartBuckets(RestartRuns(db)).buckets && RestartBuckets(RestartRuns(db)).buckets[b] == db.buckets[b]
    ensures forall b | b in RestartBuckets(RestartRuns(db)).buckets ::
              !RestartBuckets(RestartRuns(db)).buckets[b].state.Running?
  {
    hide EndedUnknown, Linkless;
    var r := RestartBuckets(RestartRuns(db));
    assert r.buckets.Keys == db.buckets.Keys && r.invocations.Keys == db.invocations.Keys;
  }

  lemma ClaimsEndRows(s: State)
    ensures RowsSettle(s.db, RestartReceipts(s).db)
  {
    hide ClaimedBy;
    var r := RestartReceipts(s).db;
    assert r.buckets.Keys == s.db.buckets.Keys && r.invocations.Keys == s.db.invocations.Keys;
  }

  lemma RowsSettleTwice(a: Tables, b: Tables, c: Tables)
    requires RowsSettle(a, b) && RowsSettle(b, c)
    ensures RowsSettle(a, c)
  {
    forall x | x in a.buckets ensures x in c.buckets && BucketSettles(a.buckets[x], c.buckets[x]) {
      assert BucketSettles(a.buckets[x], b.buckets[x]) && BucketSettles(b.buckets[x], c.buckets[x]);
    }
    forall x | x in a.invocations ensures x in c.invocations && InvocationSettles(a.invocations[x], c.invocations[x]) {
      assert InvocationSettles(a.invocations[x], b.invocations[x]) && InvocationSettles(b.invocations[x], c.invocations[x]);
    }
  }

  lemma RestartRowsSettle(s: State)
    ensures RowsSettle(s.db, Restart(s).db)
  {
    hide RowsSettle, RestartReceipts, RestartBuckets, RestartRuns;
    StoppedRows(s.db);
    ClaimsEndRows(Stopped(s));
    RowsSettleTwice(s.db, Stopped(s).db, Restart(s).db);
  }

  lemma RestartBalanced(s: State)
    requires QueueMatches(s.db) && OpensOnce(s.db)
    ensures Balanced(s.db, Restart(s).db)
  {
    StoppedRows(s.db);
    StoppedQueue(s);
    ClaimsEndRows(Stopped(s));
    hide RestartBuckets, RestartRuns, RestartReceipts, QueueMatches, OpensOnce;
    var r := Restart(s).db;
    forall j, b | Opens(s.db, j, b) ensures QueuedInvocation(r, j) <==> (b in r.buckets && r.buckets[b].state.Queued?) {
      assert InvocationSettles(s.db.invocations[j], Stopped(s).db.invocations[j]);
      RestartOpening(Stopped(s), j, b);
    }
    forall b | b in r.buckets ensures !r.buckets[b].state.Running? {
      assert b in Stopped(s).db.buckets.Keys && BucketSettles(Stopped(s).db.buckets[b], r.buckets[b]);
    }
  }

  lemma StoppedQueue(s: State)
    requires QueueMatches(s.db) && OpensOnce(s.db)
    ensures QueueMatches(Stopped(s).db) && OpensOnce(Stopped(s).db)
  {
    StoppedRows(s.db);
    hide RestartBuckets, RestartRuns;
    var db, r := s.db, Stopped(s).db;
    SettlingShrinks(db, r);
    forall b | b in r.buckets && r.buckets[b].state.Queued? ensures exists i :: Opens(r, i, b) {
      assert b in db.buckets.Keys && BucketSettles(db.buckets[b], r.buckets[b]);
      var i :| Opens(db, i, b);
      assert InvocationSettles(db.invocations[i], r.invocations[i]);
      assert Opens(r, i, b);
    }
    forall i | i in r.invocations
      ensures i in db.invocations && InvocationSettles(db.invocations[i], r.invocations[i])
      ensures QueuedInvocation(r, i) ==> QueuedInvocation(db, i)
    {
      assert i in db.invocations.Keys;
    }
    forall i, b | Opens(r, i, b) ensures b in r.buckets && r.buckets[b].state.Queued? {
      assert Opens(db, i, b);
    }
  }

  lemma RestartOpening(x: State, j: int, b: int)
    requires QueueMatches(x.db) && OpensOnce(x.db) && Opens(x.db, j, b)
    ensures QueuedInvocation(RestartReceipts(x).db, j)
            <==> (b in RestartReceipts(x).db.buckets && RestartReceipts(x).db.buckets[b].state.Queued?)
  {
  }

  lemma RestartKeeps(s: State, clock: int)
    requires Inv(s, clock)
    ensures Inv(Restart(s), clock) && Fresh(Restart(s))
  {
    RestartSettles(s);
    hide TablesMatch, MemoryMatches, Injected, Windows, Rounds, ClaimsLive, ReceiptsMatch, Settles;
    RestartEnds(s);
    SettlingKeeps(s, Restart(s), clock);
  }

  /** A process that has just started runs nothing, remembers nothing and has nothing claimed. */
  ghost predicate Fresh(s: State) {
    && s.memory == map[]
    && (forall i :: !RunningInvocation(s.db, i))
    && (forall b | b in s.db.buckets :: !s.db.buckets[b].state.Running?)
    && (forall t | t in s.receipts :: !s.receipts[t].state.Claimed?)
  }

  lemma RestartEnds(s: State)
    ensures Fresh(Restart(s))
    ensures Restart(s) == s.(db := Restart(s).db, receipts := Restart(s).receipts, memory := map[])
    ensures ReceiptsSettle(s.receipts, Restart(s).receipts, Restart(s).db)
    ensures MemorySettles(s.memory, Restart(s).memory, s.db, Restart(s).db)
  {
  }

  lemma ExpireStepSettles(db: Tables, b: int)
    requires TablesMatch(db) && b in db.buckets && (db.buckets[b].state.Collecting? || db.buckets[b].state.Queued?)
    ensures Settles(db, ExpireStep(db, b))
  {
    hide OneCollecting, RunsMatch, AttachedOpensNothing;
    var r := ExpireStep(db, b);
    forall j, a | Opens(db, j, a) ensures QueuedInvocation(r, j) <==> (a in r.buckets && r.buckets[a].state.Queued?) {
      assert a in db.buckets && db.buckets[a].state.Queued?;
    }
  }

  lemma ExpireStepFresh(s: State, b: int)
    requires Fresh(s) && b in s.db.buckets
    ensures Fresh(s.(db := ExpireStep(s.db, b)))
  {
    forall i ensures !RunningInvocation(ExpireStep(s.db, b), i) {
      assert !RunningInvocation(s.db, i);
    }
  }

  lemma ExpireStepKeeps(s: State, b: int, clock: int)
    requires Inv(s, clock) && Fresh(s) && b in s.db.buckets
    requires s.db.buckets[b].state.Collecting? || s.db.buckets[b].state.Queued?
    ensures Inv(s.(db := ExpireStep(s.db, b)), clock) && Fresh(s.(db := ExpireStep(s.db, b)))
  {
    var t := s.(db := ExpireStep(s.db, b));
    ExpireStepSettles(s.db, b);
    ExpireStepFresh(s, b);
    assert MemorySettles(s.memory, t.memory, s.db, t.db) && ReceiptsSettle(s.receipts, t.receipts, t.db);
    hide TablesMatch, MemoryMatches, Injected, Windows, Rounds, ClaimsLive, ReceiptsMatch, Settles, MemorySettles,
      ReceiptsSettle, Fresh;
    SettlingKeeps(s, t, clock);
  }

  lemma {:induction false} ExpireFoldKeeps(s: State, bs: seq<int>, clock: int)
    requires Inv(s, clock) && Fresh(s)
    requires forall b | b in bs :: b in s.db.buckets && (s.db.buckets[b].state.Collecting? || s.db.buckets[b].state.Queued?)
    requires forall x, y | 0 <= x < y < |bs| :: bs[x] != bs[y]
    ensures Inv(ExpireFold(s, bs), clock) && Fresh(ExpireFold(s, bs))
    decreases bs
  {
    hide Inv, Fresh;
    if bs == [] {
    } else {
      ExpireStepKeeps(s, bs[0], clock);
      forall b | b in bs[1..] ensures b in bs && b != bs[0] {
        var k :| 0 <= k < |bs| - 1 && bs[1..][k] == b;
        assert bs[k + 1] == b;
      }
      ExpireFoldKeeps(s.(db := ExpireStep(s.db, bs[0])), bs[1..], clock);
    }
  }

  lemma RecoverKeeps(s: State, now: int, clock: int)
    requires Inv(s, clock)
    ensures Inv(Recover(s, now), clock) && Fresh(Recover(s, now))
  {
    hide Inv, Fresh, Restart;
    RestartKeeps(s, clock);
    ExpireFoldKeeps(Restart(s), Expiring(Restart(s).db, now - RECOVERY_MAX_AGE), clock);
  }
}
