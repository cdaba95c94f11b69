/** The launch loop, the hooks of a live run, and the end of a run, over the shared store. */
module Scheduler {
  import opened Options
  import opened Ordering
  import opened LifecycleTables
  import opened LifecycleSteps
  import opened LifecycleInvariant
  import opened LifecycleRounds
  import opened LifecycleHandover
  import opened LifecycleQueries
  import opened LifecycleArrivals
  import opened LifecycleEnds
  import opened LifecycleResults
  import opened InvocationQueue
  import opened Sets

  // ---- launching ----

  /** What the loop does before it looks for a candidate. */
  function Prepared(s: State, env: Env): State {
    var t := SuppressFold(s, QueuedClaims(s), env);
    if env.sleeping then SkipFold(t, Sleepers(t)) else t
  }

  /** The claims invocation `i` is to deliver. */
  function ClaimsOf(s: State, i: int): set<int> {
    set t | t in s.receipts && t in s.tasks && s.receipts[t].state.Claimed? && s.receipts[t].invocation == Some(i)
  }

  /** None of its claims is for a conversation that is blocked, and under sleep one of them is exempt from the budget. */
  predicate MayStart(s: State, env: Env, i: int) {
    && QueuedInvocation(s.db, i) && (forall t | t in ClaimsOf(s, i) :: t in s.tasks && !Blocked(s, s.tasks[t].conv, env))
    && (env.sleeping ==> exists t | t in ClaimsOf(s, i) :: t in s.tasks && s.tasks[t].bypassBudget)
  }

  lemma RecheckedRows(s: State, env: Env, i: int)
    ensures var r := SuppressFold(s, QueuedClaims(s), env);
            && r.tasks == s.tasks && r.paused == s.paused
            && (QueuedInvocation(r.db, i)
                <==> QueuedInvocation(s.db, i) && forall t | t in ClaimsOf(s, i) :: !Blocked(s, s.tasks[t].conv, env))
            && (QueuedInvocation(r.db, i) ==> r.db.invocations[i] == s.db.invocations[i] && ClaimsOf(r, i) == ClaimsOf(s, i))
  {
    hide SuppressFold, QueuedClaims, RowsDropped, Silenced, Senders, Blocked, ClaimsOf, Claimant;
    SilencedTell(s, env);
    var r, quiet := SuppressFold(s, QueuedClaims(s), env), Silenced(s, env);
    RecheckSilences(s, env);
    DroppedRow(s, r, Senders(s, quiet), Aborted, i);
    if QueuedInvocation(s.db, i) {
      QuietSenders(s, env, i);
      if i !in Senders(s, quiet) { ClaimsStay(s, r, quiet, i); }
    }
  }

  lemma DroppedRow(s: State, r: State, gone: set<int>, final: Final, i: int)
    requires RowsDropped(s, r, gone, final)
    ensures r.tasks == s.tasks && r.paused == s.paused && r.receipts.Keys == s.receipts.Keys
    ensures i in r.db.invocations <==> i in s.db.invocations
    ensures i in s.db.invocations ==>
              r.db.invocations[i] == if i in gone then s.db.invocations[i].(state := Ended(final)) else s.db.invocations[i]
  {
  }

  lemma QuietSenders(s: State, env: Env, i: int)
    requires QueuedInvocation(s.db, i)
    ensures i in Senders(s, Silenced(s, env)) <==> exists t | t in ClaimsOf(s, i) :: Blocked(s, s.tasks[t].conv, env)
    ensures forall t | t in ClaimsOf(s, i) :: t in Silenced(s, env) <==> Blocked(s, s.tasks[t].conv, env)
    ensures (exists t | t in ClaimsOf(s, i) :: t in Silenced(s, env)) <==> i in Senders(s, Silenced(s, env))
  {
    forall t | t in ClaimsOf(s, i) ensures t in Silenced(s, env) <==> Blocked(s, s.tasks[t].conv, env) {
    }
    hide Blocked;
    forall t | t in Silenced(s, env) && s.receipts[t].invocation == Some(i) ensures t in ClaimsOf(s, i) {
    }
  }

  lemma ClaimsStay(s: State, r: State, quiet: set<int>, i: int)
    requires r.tasks == s.tasks && r.receipts.Keys == s.receipts.Keys && forall t | t in ClaimsOf(s, i) :: t !in quiet
    requires forall t | t in s.receipts ::
               r.receipts[t] == if t in quiet then s.receipts[t].(state := ReceiptState.Suppressed) else s.receipts[t]
    ensures ClaimsOf(r, i) == ClaimsOf(s, i)
  {
    forall t ensures t in ClaimsOf(r, i) <==> t in ClaimsOf(s, i) {
      assert t in r.receipts <==> t in s.receipts.Keys;
    }
  }

  lemma RestedRows(s: State, i: int)
    ensures var r := SkipFold(s, Sleepers(s));
            && (QueuedInvocation(r.db, i)
                <==> QueuedInvocation(s.db, i) && exists t | t in ClaimsOf(s, i) :: t in s.tasks && s.tasks[t].bypassBudget)
            && (QueuedInvocation(r.db, i) ==> r.db.invocations[i] == s.db.invocations[i])
  {
    hide SkipFold, Sleepers;
    SleepSkips(s);
    assert i in Skipped(s) <==>
      QueuedInvocation(s.db, i) && forall t | t in ClaimsOf(s, i) :: t in s.tasks && !s.tasks[t].bypassBudget;
  }

  /** What is left in the queue is exactly what may start, as it was. */
  lemma PreparedLeaves(s: State, env: Env, i: int)
    ensures QueuedInvocation(Prepared(s, env).db, i) <==> MayStart(s, env, i)
    ensures MayStart(s, env, i) ==> Prepared(s, env).db.invocations[i] == s.db.invocations[i]
  {
    hide SuppressFold, QueuedClaims, SkipFold, Sleepers, ClaimsOf, Blocked;
    SilencedTell(s, env);
    RecheckedRows(s, env, i);
    RestedRows(SuppressFold(s, QueuedClaims(s), env), i);
    ClaimsHaveTasks(s, i);
  }

  lemma ClaimsHaveTasks(s: State, i: int)
    ensures forall t | t in ClaimsOf(s, i) :: t in s.tasks
  {
  }

  /** What one turn of the loop reads: policy, the limit, the time it selects at and the time it starts at. */
  datatype Turn = Turn(env: Env, maxConcurrency: nat, selected: int, started: int)

  /** The turn at `k` finds nothing to start. */
  predicate Full(p: State, turn: Turn) {
    |RunningSet(p.db)| >= turn.maxConcurrency || Launchable(p.db, turn.selected) == {}
  }

  /** The loop starts exactly `ids`, each the first candidate of its turn, and stops in `t`. */
  ghost predicate Launches(s: State, turns: nat -> Turn, k: nat, ids: seq<int>, t: State)
    decreases |ids|
  {
    var p := Prepared(s, turns(k).env);
    if ids == [] then t == p && Full(p, turns(k))
    else !Full(p, turns(k)) && ids[0] == Least(Launchable(p.db, turns(k).selected), LaunchRank(p))
         && Launches(Start(p, ids[0], turns(k).started), turns, k + 1, ids[1..], t)
  }

  function QueuedSet(db: Tables): set<int> { set i | i in db.invocations && db.invocations[i].state.Queued? }

  lemma {:induction false} SuppressNeverQueues(s: State, ts: seq<int>, env: Env)
    requires forall t | t in ts :: Claimant(s, t)
    ensures QueuedSet(SuppressFold(s, ts, env).db) <= QueuedSet(s.db)
    decreases ts
  {
    if ts == [] {
    } else {
      SuppressStepRows(s, ts[0], env);
      var t := SuppressStep(s, ts[0], env);
      assert QueuedSet(t.db) <= QueuedSet(s.db);
      hide SuppressStep, QueuedSet;
      SuppressNeverQueues(t, ts[1..], env);
    }
  }

  lemma {:induction false} SkipNeverQueues(s: State, sleepers: seq<int>)
    requires forall i | i in sleepers :: i in s.db.invocations
    ensures QueuedSet(SkipFold(s, sleepers).db) <= QueuedSet(s.db)
    decreases sleepers
  {
    if sleepers == [] {
    } else {
      var t := DropQueued(s, sleepers[0], SkippedBudget, SkippedBudget, Handled);
      assert QueuedSet(t.db) <= QueuedSet(s.db) && t.db.invocations.Keys == s.db.invocations.Keys;
      hide DropQueued, QueuedSet;
      SkipNeverQueues(t, sleepers[1..]);
    }
  }

  lemma PreparedNeverQueues(s: State, env: Env)
    ensures QueuedSet(Prepared(s, env).db) <= QueuedSet(s.db)
  {
    hide QueuedSet;
    SuppressNeverQueues(s, QueuedClaims(s), env);
    var t := SuppressFold(s, QueuedClaims(s), env);
    SkipNeverQueues(t, Sleepers(t));
  }

  lemma Shrinks(a: set<int>, b: set<int>, i: int)
    requires b <= a && i in a && i !in b
    ensures |b| < |a|
  {
    var rest := a - {i};
    assert b <= rest && |rest| == |a| - 1;
    SubsetSize(b, rest);
  }

  lemma PreparedKeeps(s: State, env: Env, clock: int)
    requires Inv(s, clock)
    ensures Inv(Prepared(s, env), clock)
  {
    hide Inv;
    SuppressKeeps(s, env, clock);
    SkipSleepersKeeps(SuppressFold(s, QueuedClaims(s), env), clock);
  }

  lemma FirstStartable(p: State, turn: Turn, i: int)
    requires !Full(p, turn) && i == Least(Launchable(p.db, turn.selected), LaunchRank(p))
    ensures Startable(p.db, i)
  {
    hide ChatRunning, RunningSet, LaunchRank;
    assert i in Launchable(p.db, turn.selected);
  }

  /** Whatever each turn of the loop reads, the invariant holds after it. */
  lemma {:induction false} LaunchesKeep(s: State, turns: nat -> Turn, k: nat, ids: seq<int>, t: State, clock: int)
    requires Inv(s, clock) && clock <= turns(k).started && (forall n: nat :: turns(n).started <= turns(n + 1).started)
    requires Launches(s, turns, k, ids, t)
    ensures Inv(t, turns(k + |ids|).started)
    decreases |ids|
  {
    hide Inv, Start, Full, Prepared, LaunchRank, Launchable;
    var turn := turns(k);
    var p := Prepared(s, turn.env);
    PreparedKeeps(s, turn.env, clock);
    ClockAdvances(p, clock, turn.started);
    if ids != [] {
      FirstStartable(p, turn, ids[0]);
      StartKeeps(p, ids[0], turn.started, turn.started);
      LaunchesKeep(Start(p, ids[0], turn.started), turns, k + 1, ids[1..], t, turn.started);
      assert k + 1 + |ids[1..]| == k + |ids|;
    }
  }

  /** Whatever the loop does from `v` on completes what it did since `s`. */
  ghost predicate Continues(s: State, turns: nat -> Turn, done: seq<int>, v: State) {
    forall rest, t :: Launches(v, turns, |done|, rest, t) ==> Launches(s, turns, 0, done + rest, t)
  }

  lemma ContinuesStart(s: State, turns: nat -> Turn)
    ensures Continues(s, turns, [], s)
  {
    assert forall rest: seq<int> :: [] + rest == rest;
    hide Launches;
  }

  lemma ContinuesEnd(s: State, turns: nat -> Turn, done: seq<int>, v: State)
    requires Continues(s, turns, done, v) && Full(Prepared(v, turns(|done|).env), turns(|done|))
    ensures Launches(s, turns, 0, done, Prepared(v, turns(|done|).env))
  {
    hide Prepared, Full;
    assert Launches(v, turns, |done|, [], Prepared(v, turns(|done|).env));
    assert done + [] == done;
  }

  lemma ContinuesStep(s: State, turns: nat -> Turn, done: seq<int>, v: State, i: int)
    requires Continues(s, turns, done, v)
    requires var turn := turns(|done|);
             var p := Prepared(v, turn.env);
             !Full(p, turn) && i == Least(Launchable(p.db, turn.selected), LaunchRank(p))
    ensures Continues(s, turns, done + [i], Start(Prepared(v, turns(|done|).env), i, turns(|done|).started))
  {
    hide Prepared, RunningSet, Start, LaunchRank, ChatRunning;
    var turn := turns(|done|);
    forall rest, t | Launches(Start(Prepared(v, turn.env), i, turn.started), turns, |done| + 1, rest, t)
      ensures Launches(s, turns, 0, done + [i] + rest, t)
    {
      assert ([i] + rest)[1..] == rest;
      assert Launches(v, turns, |done|, [i] + rest, t);
      assert done + ([i] + rest) == done + [i] + rest;
    }
  }

  class BucketScheduler {
    const queue: InvocationQueueService

    constructor (queue: InvocationQueueService)
      ensures this.queue == queue
    {
      this.queue := queue;
    }

    /** The invocation to start next: receipts before messages, then in queue order. */
    method Candidate(now: int) returns (candidate: Option<int>)
      ensures candidate == if Launchable(queue.store.db, now) == {} then None
                           else Some(Least(Launchable(queue.store.db, now), LaunchRank(queue.store.View())))
    {
      var db, receipts := queue.store.db, queue.store.receipts;
      var rows := set i | i in db.invocations && db.invocations[i].state.Queued? && db.invocations[i].bucket in db.buckets
                          && db.buckets[db.invocations[i].bucket].deadline <= now
                          && !ChatRunning(db, db.invocations[i].conv.chat);
      assert rows == Launchable(db, now);
      if rows == {} {
        return None;
      }
      var delivering := set t | t in receipts && receipts[t].state.Claimed? && receipts[t].invocation.Some? ::
        receipts[t].invocation.value;
      ghost var s := queue.store.View();
      forall i ensures i in delivering <==> DeliversReceipt(s, i) {
        if DeliversReceipt(s, i) {
          var t :| t in receipts && receipts[t].state.Claimed? && receipts[t].invocation == Some(i);
          assert receipts[t].invocation.value in delivering;
        }
      }
      hide DeliversReceipt, ChatRunning, Launchable;
      var rank := (i: int) => if i in delivering then 0 else 1;
      SameLeast(rows, rank, LaunchRank(s));
      return Some(Least(rows, rank));
    }

    method StartInvocation(i: int, now: int)
      requires i in queue.store.db.invocations && queue.store.db.invocations[i].bucket in queue.store.db.buckets
      modifies queue.store`db, queue.store`memory
      ensures queue.store.View() == Start(old(queue.store.View()), i, now)
    {
      var row := queue.store.db.invocations[i];
      queue.store.db := queue.store.db.(invocations := queue.store.db.invocations[i := row.(state := InvocationState.Running, startedAt := now)]);
      queue.store.db := queue.store.db.(buckets := queue.store.db.buckets[row.bucket := queue.store.db.buckets[row.bucket].(state := BucketState.Running)]);
      var m := queue.store.Mem(row.conv);
      queue.store.memory := queue.store.memory[row.conv := m.(tags := m.tags + [Batch(row.bucket)], round := true)];
    }

    method Prepare(env: Env)
      modifies queue.store`db, queue.store`receipts
      ensures queue.store.View() == Prepared(old(queue.store.View()), env)
    {
      hide SuppressFold, SkipFold, QueuedClaims, Sleepers;
      queue.SuppressInvalidQueuedReceipts(env);
      if env.sleeping {
        queue.SkipQueuedInvocations();
      }
    }

    /** Starts queued work until the concurrency limit is reached or no chat can take more. */
    method LaunchQueued(turns: nat -> Turn) returns (launched: seq<int>)
      modifies queue.store`db, queue.store`receipts, queue.store`memory
      ensures Launches(old(queue.store.View()), turns, 0, launched, queue.store.View())
    {
      hide Prepared, Start, RunningSet, Launchable, QueuedSet, LaunchRank, Continues, Launches;
      launched := [];
      ghost var s := queue.store.View();
      ContinuesStart(s, turns);
      while true
        invariant Continues(s, turns, launched, queue.store.View())
        decreases |QueuedSet(queue.store.db)|
      {
        var turn := turns(|launched|);
        ghost var before := queue.store.View();
        PreparedNeverQueues(before, turn.env);
        Prepare(turn.env);
        if |RunningSet(queue.store.db)| >= turn.maxConcurrency {
          ContinuesEnd(s, turns, launched, before);
          return;
        }
        var candidate := Candidate(turn.selected);
        if candidate.None? {
          ContinuesEnd(s, turns, launched, before);
          return;
        }
        CandidateQueued(queue.store.View(), candidate.value, turn.selected, turn.started, before);
        ContinuesStep(s, turns, launched, before, candidate.value);
        StartInvocation(candidate.value, turn.started);
        launched := launched + [candidate.value];
      }
    }

    /**
     The end of a run: the agent's teardown drops its queue and flags, then one transaction ends the
     invocation, releases what it never read, and closes the rest.
     */
    method EndRun(i: int, final: Final, now: int)
      requires i in queue.store.db.invocations && IdsBelow(queue.store.db)
      requires queue.store.db.invocations[i].state.Running?
      modifies queue.store`db, queue.store`receipts, queue.store`memory
      ensures queue.store.View() == Finish(old(queue.store.View()), i, final, now)
    {
      ghost var s := queue.store.View();
      var row := queue.store.db.invocations[i];
      queue.store.memory := queue.store.memory - {row.conv};
      queue.store.db := queue.store.db.(
        invocations := queue.store.db.invocations[i := row.(state := Ended(final))]);
      assert queue.store.View() == Ending(ClearQueues(s, row.conv), i, final);
      ReleaseCommutes(ClearQueues(s, row.conv), i, UnreadBatches(s, i), final);
      assert Uninjected(queue.store.db, i) == Uninjected(s.db, i);
      hide ReleaseFold, Uninjected;
      queue.ReleaseUninjectedBuckets(i);
      ghost var u := Releasing(s, i);
      FinishIsSeal(s, i, final, now);
      assert queue.store.View() == Ending(u, i, final);
      assert u.db.invocations[i] == row by { ReleasingLeavesRun(s, i); }
      CloseAll(i, final, now);
      SealEnding(u, i, final, now);
    }

    method CloseAll(i: int, final: Final, now: int)
      requires i in queue.store.db.invocations
      modifies queue.store`db, queue.store`receipts
      ensures queue.store.View() == Sealed(old(queue.store.View()), i, final, now)
    {
      var run := queue.store.db.invocations[i];
      queue.store.db := CloseHeld(queue.store.db, i, final);
      hide CloseHeld, PushDeadlines, InChat, SettleReceipts;
      var next := if now >= run.startedAt + queue.store.window then now else run.startedAt + queue.store.window;
      queue.store.db := PushDeadlines(queue.store.db, InChat(queue.store.db, run.conv.chat), next);
      queue.store.receipts := SettleReceipts(queue.store.receipts, i, Handled);
    }
  }

  /** The rest of the terminal transaction, after the release. */
  function Sealed(s: State, i: int, final: Final, now: int): State
    requires i in s.db.invocations
  {
    var row := s.db.invocations[i];
    var db := CloseHeld(s.db, i, final);
    s.(db := PushDeadlines(db, InChat(db, row.conv.chat), Max(now, row.startedAt + s.window)),
       receipts := SettleReceipts(s.receipts, i, Handled))
  }

  /** The state with run `i` already ended and its memory gone. */
  function Ending(s: State, i: int, final: Final): State
    requires i in s.db.invocations
  {
    var row := s.db.invocations[i];
    s.(memory := s.memory - {row.conv},
       db := s.db.(invocations := s.db.invocations[i := row.(state := Ended(final))]))
  }

  lemma UpdatesCommute(m: map<int, Invocation>, i: int, x: Invocation, n: int, y: Invocation)
    requires i != n
    ensures m[i := x][n := y] == m[n := y][i := x]
  {
  }

  lemma ReleaseStepCommutes(s: State, i: int, b: int, final: Final)
    requires i in s.db.invocations && IdsBelow(s.db) && b in s.db.buckets
    ensures i in ReleaseStep(s, i, b).db.invocations && IdsBelow(ReleaseStep(s, i, b).db)
    ensures ReleaseStep(Ending(s, i, final), i, b) == Ending(ReleaseStep(s, i, b), i, final)
  {
    hide Repoint, DropCarried;
    var n := s.db.nextInvocation;
    var row := Invocation(b, s.db.buckets[b].conv, InvocationState.Queued, 0, false, map[b := false]);
    UpdatesCommute(s.db.invocations, i, s.db.invocations[i].(state := Ended(final)), n, row);
    if s.db.buckets[b].state.Running? {
      assert ReleaseStep(s, i, b).db.invocations == s.db.invocations[n := row];
      assert ReleaseStep(Ending(s, i, final), i, b).db.invocations
             == s.db.invocations[i := s.db.invocations[i].(state := Ended(final))][n := row];
    }
  }

  /** Ending the invocation first, as the transaction does, releases the same batches to the same rows. */
  lemma {:induction false} ReleaseCommutes(s: State, i: int, bs: seq<int>, final: Final)
    requires i in s.db.invocations && IdsBelow(s.db) && forall b | b in bs :: b in s.db.buckets
    ensures i in ReleaseFold(s, i, bs).db.invocations
    ensures ReleaseFold(Ending(s, i, final), i, bs) == Ending(ReleaseFold(s, i, bs), i, final)
    decreases bs
  {
    if bs == [] {
    } else {
      ReleaseStepCommutes(s, i, bs[0], final);
      ReleaseStepKeys(s, i, bs[0]);
      assert forall b | b in bs[1..] :: b in bs;
      hide ReleaseStep, IdsBelow;
      ReleaseCommutes(ReleaseStep(s, i, bs[0]), i, bs[1..], final);
    }
  }

  lemma ReleasingLeavesRun(s: State, i: int)
    requires i in s.db.invocations && IdsBelow(s.db)
    ensures i in Releasing(s, i).db.invocations && Releasing(s, i).db.invocations[i] == s.db.invocations[i]
  {
    hide Releasing;
    FinishReleases(s, i);
  }

  lemma SealEnding(u: State, i: int, final: Final, now: int)
    requires i in u.db.invocations && u.db.invocations[i].state.Running?
    ensures Sealed(Ending(u, i, final), i, final, now) == Seal(u, i, final, now)
  {
  }

  lemma CandidateQueued(p: State, i: int, now: int, started: int, before: State)
    requires Launchable(p.db, now) != {} && i == Least(Launchable(p.db, now), LaunchRank(p))
    requires QueuedSet(p.db) <= QueuedSet(before.db)
    ensures i in p.db.invocations && p.db.invocations[i].bucket in p.db.buckets
    ensures |QueuedSet(Start(p, i, started).db)| < |QueuedSet(before.db)|
  {
    assert i in Launchable(p.db, now);
    hide ChatRunning;
    Shrinks(QueuedSet(before.db), QueuedSet(Start(p, i, started).db), i);
  }

  lemma SameLeast(ids: set<int>, f: int -> int, g: int -> int)
    requires ids != {} && forall x :: f(x) == g(x)
    ensures Least(ids, f) == Least(ids, g)
  {
  }
}
