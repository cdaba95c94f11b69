/** What a restart makes of every row a dead process left behind. */
module LifecycleRestart {
  import opened Options
  import opened LifecycleTables
  import opened LifecycleSteps
  import opened LifecycleInvariant
  import opened LifecycleDrops

  // ---- the process is gone ----

  /** Whether the outcome of an invocation is unknown once the process is gone. */
  predicate Unknown(row: Invocation) {
    row.state == Ended(OutcomeUnknown) || (row.state.Running? && row.sideEffect)
  }

  /** A queued invocation that some receipt claimed. */
  predicate ClaimedQueued(s: State, i: int) {
    QueuedInvocation(s.db, i)
    && exists t | t in s.receipts :: s.receipts[t].state.Claimed? && s.receipts[t].invocation == Some(i)
  }

  lemma StoppedInvocation(db: Tables, i: int)
    requires i in db.invocations
    ensures var r := RestartBuckets(RestartRuns(db));
            && i in r.invocations
            && r.invocations[i] == (if db.invocations[i].state.Running?
                                    then db.invocations[i].(state := Ended(if db.invocations[i].sideEffect then OutcomeUnknown else Aborted))
                                    else db.invocations[i])
            && (EndedUnknown(RestartRuns(db), i) <==> Unknown(db.invocations[i]))
  {
  }

  /** A running batch follows the invocations it was attached to. */
  lemma StoppedBucket(db: Tables, b: int)
    requires RunsMatch(db) && b in db.buckets
    ensures var r := RestartBuckets(RestartRuns(db));
            && b in r.buckets
            && r.buckets[b] ==
               if !db.buckets[b].state.Running? then db.buckets[b]
               else db.buckets[b].(state := Closed(
                      if exists i | i in db.invocations :: b in db.invocations[i].batches && Unknown(db.invocations[i])
                      then OutcomeUnknown else Aborted))
  {
    if db.buckets[b].state.Running? {
      var k :| Holds(db, k, b);
      var stopped := RestartRuns(db);
      assert !Linkless(stopped, b) by { assert k in stopped.invocations && b in stopped.invocations[k].batches; }
      forall i | i in db.invocations
        ensures i in stopped.invocations && stopped.invocations[i].batches == db.invocations[i].batches
        ensures EndedUnknown(stopped, i) <==> Unknown(db.invocations[i])
      {
        StoppedInvocation(db, i);
      }
      hide RestartRuns, EndedUnknown, Linkless;
      assert stopped.invocations.Keys == db.invocations.Keys by { StoppedKeys(db); }
    }
  }

  lemma StoppedKeys(db: Tables)
    ensures RestartRuns(db).invocations.Keys == db.invocations.Keys && RestartRuns(db).buckets == db.buckets
  {
  }

  // ---- claims ----

  lemma StoppedClaims(s: State, i: int)
    ensures ClaimedBy(Stopped(s), i) <==> ClaimedQueued(s, i)
  {
    if i in s.db.invocations { StoppedInvocation(s.db, i); }
    StoppedKeys(s.db);
    hide RestartRuns;
  }

  /** Stopping leaves the links of every invocation alone. */
  lemma StoppedLinks(s: State)
    ensures var r := Stopped(s).db.invocations;
            && r.Keys == s.db.invocations.Keys
            && forall i | i in s.db.invocations ::
                 i in r && r[i].bucket == s.db.invocations[i].bucket && r[i].batches == s.db.invocations[i].batches
  {
    StoppedKeys(s.db);
    forall i | i in s.db.invocations
      ensures var r := Stopped(s).db.invocations;
              i in r && r[i].bucket == s.db.invocations[i].bucket && r[i].batches == s.db.invocations[i].batches
    {
      StoppedInvocation(s.db, i);
    }
  }

  /** A claimed queued invocation is linked to its opening batch and to no other. */
  lemma ClaimedOpens(s: State, i: int, b: int)
    requires TablesMatch(s.db) && ClaimedQueued(s, i)
    ensures s.db.invocations[i].bucket == b || b in s.db.invocations[i].batches <==> Opens(s.db, i, b)
  {
    hide OneCollecting, OpensOnce, RunsMatch, AttachedOpensNothing;
    assert s.db.invocations[i].bucket in s.db.invocations[i].batches;
  }

  /** A queued delivery that is linked to batch `b`. */
  predicate Delivery(x: State, b: int) {
    exists i | i in x.db.invocations ::
      ClaimedBy(x, i) && (x.db.invocations[i].bucket == b || b in x.db.invocations[i].batches)
  }

  ghost predicate ClaimedBatch(s: State, b: int) { exists i :: Opens(s.db, i, b) && ClaimedQueued(s, i) }

  lemma DeliveryIs(s: State, b: int)
    requires TablesMatch(s.db)
    ensures Delivery(Stopped(s), b) <==> ClaimedBatch(s, b)
  {
    StoppedLinks(s);
    forall i ensures ClaimedBy(Stopped(s), i) <==> ClaimedQueued(s, i) {
      StoppedClaims(s, i);
    }
    forall i | ClaimedQueued(s, i)
      ensures s.db.invocations[i].bucket == b || b in s.db.invocations[i].batches <==> Opens(s.db, i, b)
    {
      ClaimedOpens(s, i, b);
    }
    hide ClaimedBy, ClaimedQueued, TablesMatch, Stopped, Opens;
    var x := Stopped(s);
    if Delivery(x, b) {
      var i :| i in x.db.invocations && ClaimedBy(x, i) && (x.db.invocations[i].bucket == b || b in x.db.invocations[i].batches);
      assert ClaimedQueued(s, i) && Opens(s.db, i, b);
    }
    if ClaimedBatch(s, b) {
      var i :| Opens(s.db, i, b) && ClaimedQueued(s, i);
      assert ClaimedBy(x, i) && i in x.db.invocations.Keys by { QueuedRow(s, i); }
    }
  }

  lemma QueuedRow(s: State, i: int)
    requires ClaimedQueued(s, i)
    ensures i in s.db.invocations.Keys
  {
  }

  /** After the runs and the claims are settled: only a queued batch whose invocation is claimed has changed further. */
  lemma RestartBatch(s: State, b: int)
    requires TablesMatch(s.db) && b in s.db.buckets
    ensures b in Stopped(s).db.buckets && b in Restart(s).db.buckets
    ensures Restart(s).db.buckets[b]
            == if ClaimedBatch(s, b) then Stopped(s).db.buckets[b].(state := Closed(Aborted)) else Stopped(s).db.buckets[b]
  {
    StoppedBucket(s.db, b);
    DeliveryIs(s, b);
    hide ClaimedBy, ClaimedBatch, RestartBuckets, RestartRuns, TablesMatch;
    var x := Stopped(s);
    assert Restart(s) == RestartReceipts(x);
    assert RestartReceipts(x).db.buckets[b]
        == if Delivery(x, b) then x.db.buckets[b].(state := Closed(Aborted)) else x.db.buckets[b];
  }

  lemma RestartInvocation(s: State, i: int)
    requires i in s.db.invocations
    ensures i in Restart(s).db.invocations
    ensures var row := s.db.invocations[i];
            Restart(s).db.invocations[i]
            == row.(state := if row.state.Running? then Ended(if row.sideEffect then OutcomeUnknown else Aborted)
                             else if ClaimedQueued(s, i) then Ended(Aborted)
                             else row.state)
  {
    StoppedInvocation(s.db, i);
    StoppedClaims(s, i);
    StoppedLinks(s);
    hide ClaimedBy, ClaimedQueued, RestartBuckets, RestartRuns;
    assert Restart(s) == RestartReceipts(Stopped(s));
  }

  // ---- age ----

  /** The batches expired, and the queued invocations that open with one of them aborted. */
  ghost predicate ExpiredRows(db: Tables, r: Tables, bs: seq<int>) {
    && r == db.(buckets := r.buckets, invocations := r.invocations)
    && r.buckets.Keys == db.buckets.Keys && r.invocations.Keys == db.invocations.Keys
    && (forall b | b in db.buckets ::
          r.buckets[b] == if b in bs then db.buckets[b].(state := Closed(Expired)) else db.buckets[b])
    && (forall i | i in db.invocations ::
          r.invocations[i] == if db.invocations[i].state.Queued? && db.invocations[i].bucket in bs
                              then db.invocations[i].(state := Ended(Aborted)) else db.invocations[i])
  }

  lemma ExpireStepRows(db: Tables, b: int)
    requires b in db.buckets
    ensures ExpiredRows(db, ExpireStep(db, b), [b])
  {
    assert ExpireStep(db, b).buckets.Keys == db.buckets.Keys && ExpireStep(db, b).invocations.Keys == db.invocations.Keys;
  }

  lemma ExpiredTwice(db: Tables, t: Tables, r: Tables, bs: seq<int>)
    requires bs != [] && ExpiredRows(db, t, [bs[0]]) && ExpiredRows(t, r, bs[1..])
    ensures ExpiredRows(db, r, bs)
  {
    assert forall b :: b in bs <==> b == bs[0] || b in bs[1..];
  }

  lemma {:induction false} ExpireFoldRows(s: State, bs: seq<int>)
    requires forall b | b in bs :: b in s.db.buckets
    ensures var r := ExpireFold(s, bs); r == s.(db := r.db) && ExpiredRows(s.db, r.db, bs)
    decreases bs
  {
    hide ExpireStep;
    if bs != [] {
      var t := s.(db := ExpireStep(s.db, bs[0]));
      ExpireStepRows(s.db, bs[0]);
      ExpireFoldRows(t, bs[1..]);
      ExpiredTwice(s.db, t.db, ExpireFold(t, bs[1..]).db, bs);
    }
  }

  // ---- the whole restart ----

  /** More than five minutes old. */
  predicate Old(row: Bucket, now: int) { row.first < now - 300_000 }

  /**
   A collecting batch expires exactly when it is more than five minutes old. So does a queued one, unless its invocation
   carries a claim, and then it is aborted whatever its age. A running one follows the invocations it was attached to.
   */
  lemma BatchRestarts(s: State, now: int, clock: int, b: int)
    requires Inv(s, clock) && b in s.db.buckets
    ensures var row, r := s.db.buckets[b], Recover(s, now).db;
            b in r.buckets && r.buckets[b] == row.(state :=
              match row.state
              case Collecting => if Old(row, now) then Closed(Expired) else BucketState.Collecting
              case Queued => if ClaimedBatch(s, b) then Closed(Aborted) else if Old(row, now) then Closed(Expired)
                             else BucketState.Queued
              case Running =>
                Closed(if exists i | i in s.db.invocations :: b in s.db.invocations[i].batches && Unknown(s.db.invocations[i])
                       then OutcomeUnknown else Aborted)
              case Closed(final) => Closed(final))
  {
    hide MemoryMatches, Injected, ClaimsLive, ReceiptsMatch, Windows, Rounds, Restart, RestartBuckets, RestartRuns, Unknown,
      ClaimedQueued;
    ClaimedIsQueued(s, b);
    RestartBatch(s, b);
    StoppedBucket(s.db, b);
    var t := Restart(s);
    ExpireFoldRows(t, Expiring(t.db, now - RECOVERY_MAX_AGE));
    assert b in Expiring(t.db, now - RECOVERY_MAX_AGE)
           <==> (t.db.buckets[b].state.Collecting? || t.db.buckets[b].state.Queued?) && Old(t.db.buckets[b], now);
    hide TablesMatch;
  }

  lemma ClaimedIsQueued(s: State, b: int)
    requires TablesMatch(s.db) && b in s.db.buckets
    ensures ClaimedBatch(s, b) ==> s.db.buckets[b].state.Queued?
  {
    assert QueueMatches(s.db);
  }

  /** A running invocation ends by whether it may have sent something; a queued one ends when claimed, or with its batch. */
  lemma InvocationRestarts(s: State, now: int, clock: int, i: int)
    requires Inv(s, clock) && i in s.db.invocations
    ensures var row, r := s.db.invocations[i], Recover(s, now).db;
            && (row.state.Queued? ==> row.bucket in s.db.buckets)
            && i in r.invocations && r.invocations[i] == row.(state :=
                 match row.state
                 case Running => Ended(if row.sideEffect then OutcomeUnknown else Aborted)
                 case Queued => if ClaimedQueued(s, i) || Old(s.db.buckets[row.bucket], now) then Ended(Aborted)
                                else InvocationState.Queued
                 case Ended(final) => Ended(final))
  {
    hide MemoryMatches, Injected, ClaimsLive, ReceiptsMatch, Windows, Rounds, Restart, RestartBuckets, RestartRuns;
    var row, b := s.db.invocations[i], s.db.invocations[i].bucket;
    RestartInvocation(s, i);
    var t := Restart(s);
    ExpireFoldRows(t, Expiring(t.db, now - RECOVERY_MAX_AGE));
    if row.state.Queued? {
      assert Opens(s.db, i, b) && QueueMatches(s.db) && OpensOnce(s.db);
      assert ClaimedBatch(s, b) <==> ClaimedQueued(s, i);
      RestartBatch(s, b);
      StoppedBucket(s.db, b);
      assert !ClaimedQueued(s, i) ==> t.db.buckets[b] == s.db.buckets[b];
    }
    hide TablesMatch, ClaimedQueued, ClaimedBatch;
  }

  /** Every claimed receipt is handled, memory is empty, and nothing else changes or appears. */
  lemma RestRestarts(s: State, now: int)
    ensures var r := Recover(s, now);
            && r == s.(db := s.db.(buckets := r.db.buckets, invocations := r.db.invocations), receipts := r.receipts,
                       memory := map[])
            && r.db.buckets.Keys == s.db.buckets.Keys && r.db.invocations.Keys == s.db.invocations.Keys
            && r.receipts.Keys == s.receipts.Keys
            && (forall t | t in s.receipts ::
                  r.receipts[t] == if s.receipts[t].state.Claimed? then s.receipts[t].(state := Handled) else s.receipts[t])
  {
    var t := Restart(s);
    assert t.db.buckets.Keys == s.db.buckets.Keys && t.db.invocations.Keys == s.db.invocations.Keys;
    assert t.receipts.Keys == s.receipts.Keys;
    ExpireFoldRows(t, Expiring(t.db, now - RECOVERY_MAX_AGE));
    hide RestartRuns, RestartBuckets, ExpireFold, Expiring;
  }

  // ---- a batch that outlived an earlier run ----

  const TOPIC := Conversation(0, 0)

  /** A run ended unknown before it read batch 2, which since opened a run of its own. */
  const RELEASED := State(
    0,
    Tables(map[1 := Bucket(TOPIC, Closed(OutcomeUnknown), 0, 0), 2 := Bucket(TOPIC, BucketState.Running, 0, 0)],
           map[1 := Invocation(1, TOPIC, Ended(OutcomeUnknown), 0, true, map[1 := true, 2 := false]),
               2 := Invocation(2, TOPIC, InvocationState.Running, 0, false, map[2 := false])], 3, 3),
    map[], map[], {}, map[TOPIC := IDLE.(round := true)], [], multiset{}, map[])

  lemma ReleasedTables()
    ensures TablesMatch(RELEASED.db)
  {
    var db := RELEASED.db;
    assert Holds(db, 2, 2);
  }

  lemma ReleasedMemory()
    ensures MemoryMatches(RELEASED.memory, RELEASED.db)
  {
    assert RunsFor(RELEASED.db, TOPIC, 2);
    assert Waits(IDLE.(round := true)) == multiset{};
  }

  lemma ReleasedIsGood()
    ensures Inv(RELEASED, 0)
  {
    hide TablesMatch, MemoryMatches;
    ReleasedTables();
    ReleasedMemory();
  }

  /** A restart aborts that run, which sent nothing, and closes its batch as unknown, after the earlier one. */
  lemma EarlierRunDecides(now: int)
    ensures var r := Recover(RELEASED, now).db;
            && 2 in r.invocations && r.invocations[2].state == Ended(Aborted)
            && 2 in r.buckets && r.buckets[2].state == Closed(OutcomeUnknown)
  {
    ReleasedIsGood();
    BatchRestarts(RELEASED, now, 0, 2);
    InvocationRestarts(RELEASED, now, 0, 2);
    assert Unknown(RELEASED.db.invocations[1]) && 2 in RELEASED.db.invocations[1].batches;
    hide Inv, Recover;
  }
}
