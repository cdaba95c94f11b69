/** What the invariant means for batches, receipts and pacing. */
module LifecycleResults {
  import opened Ordering
  import opened LifecycleTables
  import opened LifecycleSteps
  import opened LifecycleInvariant
  import opened LifecycleDrops
  import opened LifecycleRounds
  import opened LifecycleHandover
  import opened LifecycleQueries
  import opened LifecycleRuns
  import opened LifecycleForward

  // ---- the end of a run ----

  predicate Unread(db: Tables, i: int, b: int)
    requires i in db.invocations
  {
    b in db.invocations[i].batches && !db.invocations[i].batches[b] && b != db.invocations[i].bucket
  }

  /** What the end of run `i` makes of batch `b`. */
  function EndState(db: Tables, i: int, b: int, final: Final): BucketState
    requires i in db.invocations && b in db.buckets
  {
    if b !in db.invocations[i].batches || !db.buckets[b].state.Running? then db.buckets[b].state
    else if Unread(db, i, b) then BucketState.Queued
    else Closed(final)
  }

  /** Releasing leaves every old invocation alone, and queues exactly the running batches of the list. */
  ghost predicate Released(s: State, t: State, bs: seq<int>) {
    && s.db.nextInvocation <= t.db.nextInvocation && t.db.buckets.Keys == s.db.buckets.Keys
    && (forall j | j in s.db.invocations :: j in t.db.invocations && t.db.invocations[j] == s.db.invocations[j])
    && (forall b | b in s.db.buckets :: b in t.db.buckets
          && t.db.buckets[b] == (if b in bs && s.db.buckets[b].state.Running?
                                 then s.db.buckets[b].(state := BucketState.Queued) else s.db.buckets[b]))
    && (forall b | b in bs && b in s.db.buckets && s.db.buckets[b].state.Running? ::
          exists j :: OpensNew(s.db, t.db, j, b))
  }

  ghost predicate OpensNew(db: Tables, r: Tables, j: int, b: int) {
    Opens(r, j, b) && j !in db.invocations && j >= db.nextInvocation
  }

  ghost predicate IdsBelow(db: Tables) { forall j | j in db.invocations :: j < db.nextInvocation }

  lemma ReleaseStepEffect(s: State, i: int, b: int)
    requires IdsBelow(s.db) && b in s.db.buckets
    ensures IdsBelow(ReleaseStep(s, i, b).db) && Released(s, ReleaseStep(s, i, b), [b])
  {
    if s.db.buckets[b].state.Running? {
      assert OpensNew(s.db, ReleaseStep(s, i, b).db, s.db.nextInvocation, b);
    }
  }

  lemma ReleasedTwice(s: State, t: State, u: State, b: int, rest: seq<int>)
    requires Released(s, t, [b]) && Released(t, u, rest) && b !in rest && IdsBelow(s.db)
    ensures Released(s, u, [b] + rest)
  {
    hide IdsBelow;
    forall a | a in [b] + rest && a in s.db.buckets && s.db.buckets[a].state.Running?
      ensures exists j :: OpensNew(s.db, u.db, j, a)
    {
      if a == b {
        var j :| OpensNew(s.db, t.db, j, a);
        assert OpensNew(s.db, u.db, j, a);
      } else {
        assert t.db.buckets[a] == s.db.buckets[a];
        var j :| OpensNew(t.db, u.db, j, a);
        assert OpensNew(s.db, u.db, j, a);
      }
    }
  }

  lemma {:induction false} ReleaseFoldEffect(s: State, i: int, bs: seq<int>)
    requires IdsBelow(s.db)
    requires forall b | b in bs :: b in s.db.buckets
    requires forall x, y | 0 <= x < y < |bs| :: bs[x] != bs[y]
    ensures Released(s, ReleaseFold(s, i, bs), bs)
    decreases bs
  {
    if bs == [] {
    } else {
      TailOf(bs);
      var t := ReleaseStep(s, i, bs[0]);
      ReleaseStepEffect(s, i, bs[0]);
      ReleaseStepKeys(s, i, bs[0]);
      hide ReleaseStep, IdsBelow, Released;
      ReleaseFoldEffect(t, i, bs[1..]);
      ReleasedTwice(s, t, ReleaseFold(t, i, bs[1..]), bs[0], bs[1..]);
      assert [bs[0]] + bs[1..] == bs;
    }
  }

  lemma SealEffect(s: State, i: int, final: Final, now: int)
    requires i in s.db.invocations
    ensures var t := Seal(s, i, final, now);
            && t.db.buckets.Keys == s.db.buckets.Keys && t.db.invocations.Keys == s.db.invocations.Keys
            && (forall b | b in s.db.buckets :: b in t.db.buckets && t.db.buckets[b].state ==
                  (if s.db.buckets[b].state.Running? && b in s.db.invocations[i].batches then Closed(final)
                   else s.db.buckets[b].state))
            && (forall j | j in s.db.invocations && j != i :: t.db.invocations[j] == s.db.invocations[j])
  {
    assert Seal(s, i, final, now).db.buckets.Keys == s.db.buckets.Keys;
  }

  function UnreadBatches(s: State, i: int): seq<int> { Ordered(Uninjected(s.db, i), ById) }

  /** The state between the release of unread batches and the closing of the rest. */
  function Releasing(s: State, i: int): State
    requires i in s.db.invocations
  {
    ReleaseFold(ClearQueues(s, s.db.invocations[i].conv), i, UnreadBatches(s, i))
  }

  lemma FinishReleases(s: State, i: int)
    requires IdsBelow(s.db) && i in s.db.invocations
    ensures Released(s, Releasing(s, i), UnreadBatches(s, i))
  {
    var m := ClearQueues(s, s.db.invocations[i].conv);
    hide IdsBelow, ReleaseFold;
    ReleaseFoldEffect(m, i, UnreadBatches(s, i));
    var u := Releasing(s, i);
    forall b | b in UnreadBatches(s, i) && b in s.db.buckets && s.db.buckets[b].state.Running?
      ensures exists j :: OpensNew(s.db, u.db, j, b)
    {
      var j :| OpensNew(m.db, u.db, j, b);
      assert OpensNew(s.db, u.db, j, b);
    }
  }

  lemma FinishStates(s: State, i: int, final: Final, now: int)
    requires RunningOnlyHolds(s.db, i) && Released(s, Releasing(s, i), UnreadBatches(s, i))
    ensures var t := Finish(s, i, final, now);
            && t.db.buckets.Keys == s.db.buckets.Keys
            && (forall b | b in s.db.buckets :: b in t.db.buckets && t.db.buckets[b].state == EndState(s.db, i, b, final))
  {
    assert forall b | b in s.db.buckets :: b in UnreadBatches(s, i) <==> Unread(s.db, i, b);
    hide Releasing, Seal, UnreadBatches, OpensNew;
    assert Finish(s, i, final, now) == Seal(Releasing(s, i), i, final, now) by { FinishIsSeal(s, i, final, now); }
    SealEffect(Releasing(s, i), i, final, now);
  }

  lemma FinishIsSeal(s: State, i: int, final: Final, now: int)
    requires i in s.db.invocations
    ensures i in Releasing(s, i).db.invocations
    ensures Finish(s, i, final, now) == Seal(Releasing(s, i), i, final, now)
  {
    hide Seal, ReleaseFold;
  }

  lemma FinishRequeues(s: State, i: int, final: Final, now: int, b: int)
    requires RunningInvocation(s.db, i) && Released(s, Releasing(s, i), UnreadBatches(s, i))
    requires OpensOnce(Finish(s, i, final, now).db)
    requires b in s.db.buckets && s.db.buckets[b].state.Running? && Unread(s.db, i, b)
    ensures var t := Finish(s, i, final, now);
            exists j :: OpensNew(s.db, t.db, j, b) && forall k :: Opens(t.db, k, b) ==> k == j
  {
    assert b in UnreadBatches(s, i);
    var u, t := Releasing(s, i), Finish(s, i, final, now);
    hide Releasing, Seal, UnreadBatches, Finish;
    var j :| OpensNew(s.db, u.db, j, b);
    FinishIsSeal(s, i, final, now);
    SealEffect(u, i, final, now);
    assert OpensNew(s.db, t.db, j, b);
  }

  /**
   When a run ends, every batch it read closes with it, every batch it never read goes back to the
   queue under one new invocation, a batch cancelled meanwhile stays as it is, and no other batch changes.
   */
  lemma FinishConserves(s: State, i: int, final: Final, now: int, clock: int)
    requires Inv(s, clock) && RunningInvocation(s.db, i)
    ensures var t := Finish(s, i, final, now);
            && t.db.buckets.Keys == s.db.buckets.Keys
            && (forall b | b in s.db.buckets :: b in t.db.buckets && t.db.buckets[b].state == EndState(s.db, i, b, final))
            && (forall b | b in s.db.buckets && s.db.buckets[b].state.Running? && Unread(s.db, i, b) ::
                  exists j :: OpensNew(s.db, t.db, j, b) && forall k :: Opens(t.db, k, b) ==> k == j)
  {
    hide Inv, Finish, Releasing, UnreadBatches, Released, OpensOnce, IdsBelow;
    FinishKeeps(s, i, final, now, clock);
    FinishParts(s, Finish(s, i, final, now), i, clock);
    FinishReleases(s, i);
    FinishStates(s, i, final, now);
    forall b | b in s.db.buckets && s.db.buckets[b].state.Running? && Unread(s.db, i, b)
      ensures exists j :: OpensNew(s.db, Finish(s, i, final, now).db, j, b)
                          && forall k :: Opens(Finish(s, i, final, now).db, k, b) ==> k == j
    {
      FinishRequeues(s, i, final, now, b);
    }
  }

  ghost predicate RunningOnlyHolds(db: Tables, i: int) {
    i in db.invocations && forall b | b in db.invocations[i].batches :: b in db.buckets
  }

  lemma FinishParts(s: State, t: State, i: int, clock: int)
    requires Inv(s, clock) && Inv(t, clock) && RunningInvocation(s.db, i)
    ensures IdsBelow(s.db) && OpensOnce(t.db) && RunningOnlyHolds(s.db, i)
  {
    hide MemoryMatches, Injected, ClaimsLive, ReceiptsMatch, Windows, Rounds, OneCollecting, QueueMatches, RunsMatch,
      AttachedOpensNothing;
  }

  /** A batch that was released once is an opening batch from then on, and no later run releases it. */
  lemma ReleasedOnce(t: State, i: int, final: Final, b: int, steps: seq<Step>, before: int, clock: int, k: int)
    requires Inv(t, before) && before <= clock && RunningInvocation(t.db, i)
    requires b in t.db.buckets && t.db.buckets[b].state.Running? && Unread(t.db, i, b)
    requires Legal(Finish(t, i, final, clock), steps, clock)
    requires RunningInvocation(After(Finish(t, i, final, clock), steps, clock).db, k)
    ensures var u := After(Finish(t, i, final, clock), steps, clock);
            b in u.db.buckets && (u.db.buckets[b].state.Running? ==> !Unread(u.db, k, b))
  {
    hide Inv, Legal, After, Forward, OpensOnce, ReleaseFold, Seal, ClearQueues;
    var r := Finish(t, i, final, clock);
    var u := After(r, steps, clock);
    FinishConserves(t, i, final, clock, before);
    var j :| OpensNew(t.db, r.db, j, b);
    FinishKeeps(t, i, final, clock, before);
    ClockAdvances(r, before, clock);
    RunKeeps(r, steps, clock);
    RunForward(r, steps, clock);
    OpenedStays(r, u, j, b, k, Clock(steps, clock));
  }

  lemma OpenedStays(r: State, u: State, j: int, b: int, k: int, clock: int)
    requires Forward(r, u) && Inv(u, clock) && j in r.db.invocations && r.db.invocations[j].bucket == b
    requires b in r.db.buckets && RunningInvocation(u.db, k)
    ensures b in u.db.buckets && (u.db.buckets[b].state.Running? ==> !Unread(u.db, k, b))
  {
    hide Rows, OneCollecting, OpensOnce, QueueMatches, RunsMatch, MemoryMatches, Injected, ClaimsLive, ReceiptsMatch,
      Windows, Rounds, ReceiptsForward, TasksForward;
    assert InvocationForward(r.db.invocations[j], u.db.invocations[j]);
    assert Unread(u.db, k, b) ==> Holds(u.db, k, b);
  }

  /** Over any run a batch is written into a transcript at most once. */
  lemma InjectedOnce(window: nat, steps: seq<Step>, clock: int)
    requires Legal(Empty(window), steps, clock)
    ensures var s := After(Empty(window), steps, clock);
            forall x, y | 0 <= x < y < |s.injections| :: s.injections[x] != s.injections[y]
  {
    hide TablesMatch, MemoryMatches, ClaimsLive, ReceiptsMatch, Windows, Rounds, Legal, After;
    ReachableStates(window, steps, clock);
  }

  /** Over any run: receipts exist exactly for ended tasks, are claimed at most once, and claims point to live work. */
  lemma ReceiptsOverRuns(window: nat, steps: seq<Step>, clock: int, t: int)
    requires Legal(Empty(window), steps, clock)
    ensures var s := After(Empty(window), steps, clock);
            && (t in s.tasks ==> (s.tasks[t].state.Waiting? <==> t !in s.receipts))
            && (t in s.receipts ==> t in s.tasks)
            && s.claims[t] <= 1
            && (t in s.receipts && s.receipts[t].state.Claimed? ==>
                  s.receipts[t].invocation.Some? && Live(s.db, s.receipts[t].invocation.value))
  {
    hide TablesMatch, MemoryMatches, Injected, Windows, Rounds, Legal, After;
    ReachableStates(window, steps, clock);
    var s := After(Empty(window), steps, clock);
    assert t in s.receipts && s.receipts[t].state.Claimed? ==> ClaimLive(s.receipts[t], s.db);
  }

  /**
   * Between two moments of a run, receipts only move forward, a handled or suppressed one stays what
   * it is, and a restart leaves none claimed.
   */
  lemma ReceiptsAdvance(s: State, steps: seq<Step>, clock: int, t: int, now: int)
    requires Inv(s, clock) && Legal(s, steps, clock) && t in s.receipts && Clock(steps, clock) <= now
    ensures var u := After(s, steps, clock);
            && t in u.receipts && Progress(s.receipts[t].state) <= Progress(u.receipts[t].state)
            && (Progress(s.receipts[t].state) == 2 ==> u.receipts[t].state == s.receipts[t].state)
            && (forall r | r in Recover(u, now).receipts :: !Recover(u, now).receipts[r].state.Claimed?)
  {
    hide Inv, Legal, After, TablesForward, TasksForward, Recover;
    RunForward(s, steps, clock);
    RunKeeps(s, steps, clock);
    RecoverKeeps(After(s, steps, clock), now, Clock(steps, clock));
    assert ReceiptForward(s.receipts[t], After(s, steps, clock).receipts[t]);
  }

  // ---- pacing ----

  /** What becomes of a due batch's row. */
  function DueRow(row: Bucket, action: DueAction, window: nat, now: int): Bucket {
    match action
    case Postpone => row.(deadline := Max(row.deadline, now + Max(window, MINIMUM_DEFER)))
    case Leave => row
    case Skip => row.(state := Closed(SkippedBudget))
    case Hand(_) => row.(state := BucketState.Running)
    case Open => row.(state := BucketState.Queued)
  }

  lemma DueApplyRow(s: State, b: int, action: DueAction, now: int)
    requires b in s.db.buckets && s.db.buckets[b].state.Collecting?
    requires action.Hand? ==> action.invocation in s.db.invocations
    ensures DueApply(s, b, action, now).db.buckets[b] == DueRow(s.db.buckets[b], action, s.window, now)
  {
  }

  /** Running invocations, pauses and the flags of live runs: all a decision about a due batch reads. */
  ghost predicate Steady(s: State, t: State) {
    && t.paused == s.paused && t.window == s.window
    && (forall c, i :: RunsFor(t.db, c, i) <==> RunsFor(s.db, c, i))
    && (forall c :: Mem(t, c).round == Mem(s, c).round && Mem(t, c).closing == Mem(s, c).closing)
  }

  lemma SteadyDecides(s: State, t: State, c: Conversation, env: Env)
    requires Steady(s, t)
    ensures DueDecision(t, c, env) == DueDecision(s, c, env)
  {
    var x, y := RunningOf(s.db, c), RunningOf(t.db, c);
    assert x.Some? ==> RunsFor(t.db, c, x.value);
    assert y.Some? ==> RunsFor(s.db, c, y.value);
    hide RunsFor, RunningOf;
  }

  lemma DueApplySteady(s: State, b: int, action: DueAction, now: int)
    requires IdsBelow(s.db) && b in s.db.buckets
    requires action.Hand? ==> action.invocation in s.db.invocations
    ensures Steady(s, DueApply(s, b, action, now)) && IdsBelow(DueApply(s, b, action, now).db)
  {
    match action case _ =>
  }

  lemma {:induction false} DueFoldRows(s: State, due: seq<int>, env: Env, now: int, b: int)
    requires IdsBelow(s.db) && AllCollecting(s.db, due) && b in s.db.buckets
    requires forall x, y | 0 <= x < y < |due| :: due[x] != due[y]
    ensures b in DueFold(s, due, env, now).db.buckets
    ensures DueFold(s, due, env, now).db.buckets[b]
            == if b in due then DueRow(s.db.buckets[b], DueDecision(s, s.db.buckets[b].conv, env), s.window, now)
               else s.db.buckets[b]
    decreases due
  {
    if due == [] {
    } else {
      TailOf(due);
      var a := due[0];
      var t := DueStep(s, a, env, now);
      var action := DueDecision(s, s.db.buckets[a].conv, env);
      DueStepElsewhere(s, a, env, now);
      hide DueApply, DueDecision, IdsBelow, DueRow, Steady;
      DueApplySteady(s, a, action, now);
      DueApplyRow(s, a, action, now);
      assert t.window == s.window by { SteadyWindow(s, t); }
      DueFoldRows(t, due[1..], env, now, b);
      SteadyDecides(s, t, s.db.buckets[b].conv, env);
    }
  }

  lemma SteadyWindow(s: State, t: State)
    requires Steady(s, t)
    ensures t.window == s.window
  {
  }

  lemma ProcessDueRows(s: State, env: Env, now: int, b: int, clock: int)
    requires Inv(s, clock) && b in s.db.buckets
    ensures b in ProcessDue(s, env, now).db.buckets
    ensures ProcessDue(s, env, now).db.buckets[b]
            == if b in DueSet(s, now) then DueRow(s.db.buckets[b], DueDecision(s, s.db.buckets[b].conv, env), s.window, now)
               else s.db.buckets[b]
  {
    InvParts(s, clock);
    assert IdsBelow(s.db);
    hide Inv, Rows, IdsBelow, ChatTaken;
    DueFoldRows(s, Due(s, now), env, now, b);
  }

  /**
   A due batch goes on collecting exactly when its chat is paused, other work owns the chat, or its
   conversation's run is mid-round or closing.
   */
  lemma StaysCollecting(s: State, env: Env, now: int, b: int, clock: int)
    requires Inv(s, clock) && b in s.db.buckets && s.db.buckets[b].state.Collecting? && s.db.buckets[b].deadline <= now
    ensures b in ProcessDue(s, env, now).db.buckets
    ensures var c := s.db.buckets[b].conv;
            ProcessDue(s, env, now).db.buckets[b].state.Collecting?
            <==> c.chat in s.paused || ChatTaken(s.db, c)
                 || (RunningOf(s.db, c).Some? && (Mem(s, c).round || Mem(s, c).closing))
  {
    hide Inv, ChatTaken, RunningOf, ProcessDue;
    ProcessDueRows(s, env, now, b, clock);
  }

  /**
   Only a batch that collected a full window is queued or handed over, and one handed to a live run
   comes at least a window after that run was last free.
   */
  lemma FullWindow(s: State, env: Env, now: int, b: int, clock: int)
    requires Inv(s, clock) && clock <= now && b in s.db.buckets && s.db.buckets[b].state.Collecting?
    requires b in ProcessDue(s, env, now).db.buckets
    ensures var x, y := s.db.buckets[b], ProcessDue(s, env, now).db.buckets[b];
            && (y.state.Queued? || y.state.Running? ==> x.first + s.window <= now)
            && (y.state.Running? ==>
                  var i := RunningOf(s.db, x.conv);
                  && i.Some? && x.conv in s.freeAt && s.freeAt[x.conv] >= s.db.invocations[i.value].startedAt
                  && s.freeAt[x.conv] + s.window <= now)
  {
    ProcessDueRows(s, env, now, b, clock);
    hide TablesMatch, MemoryMatches, Injected, ClaimsLive, ReceiptsMatch, ChatTaken, ProcessDue;
    var c := s.db.buckets[b].conv;
    assert RunningOf(s.db, c).Some? ==> RunsFor(s.db, c, RunningOf(s.db, c).value);
    hide RunningOf;
  }
}
