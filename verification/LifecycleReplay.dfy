/** From a state in which memory holds a batch that was queued again, the scheduler can always have it written twice. */
module LifecycleReplay {
  import opened Ordering
  import opened LifecycleTables
  import opened LifecycleSteps
  import opened LifecycleInvariant
  import opened LifecycleRounds
  import opened LifecycleHandover
  import opened LifecycleRuns
  import opened LifecycleTeardown

  ghost predicate Twice(injections: seq<int>, b: int) {
    exists x, y | 0 <= x < y < |injections| :: injections[x] == b && injections[y] == b
  }

  /** Some legal run from here ends with `b` written twice. */
  ghost predicate CanRepeat(t: State, b: int, now: int) {
    exists steps :: Legal(t, steps, now) && Twice(After(t, steps, now).injections, b)
  }

  lemma RepeatNow(t: State, b: int, now: int)
    requires Twice(t.injections, b)
    ensures CanRepeat(t, b, now)
  {
    assert Legal(t, [], now) && After(t, [], now) == t;
  }

  lemma RepeatNext(t: State, e: Event, b: int, now: int)
    requires Enabled(t, e) && CanRepeat(Next(t, Step(e, now)), b, now)
    ensures CanRepeat(t, b, now)
  {
    hide Twice, Enabled, Next;
    var rest :| Legal(Next(t, Step(e, now)), rest, now) && Twice(After(Next(t, Step(e, now)), rest, now).injections, b);
    var steps := [Step(e, now)] + rest;
    assert steps[0] == Step(e, now) && steps[1..] == rest;
    assert Legal(t, steps, now) && After(t, steps, now) == After(Next(t, steps[0]), rest, now);
  }

  // ---- two states that differ in what is stale ----

  /** The same tables; only the memory of `c` and the transcripts differ. */
  ghost predicate Shadows(t: State, q: State, c: Conversation) {
    && t == q.(memory := t.memory, injections := t.injections)
    && (forall d | d != c :: Mem(t, d) == Mem(q, d))
  }

  /**
   `q` is a good state. In `t`, queued invocation `j` of `c` opens with `b`, while memory has `b` as the first batch to be
   taken, or a transcript has it already.
   */
  ghost predicate Stale(t: State, q: State, c: Conversation, j: int, b: int, now: int) {
    && Inv(q, now) && Shadows(t, q, c) && Mem(q, c) == IDLE && Mem(t, c) == IDLE.(pending := Mem(t, c).pending)
    && (if Mem(t, c).pending == [] then b in t.injections
        else Taken(Mem(t, c), true) != [] && Taken(Mem(t, c), true)[0].bucket == b)
    && Opens(t.db, j, b) && t.db.invocations[j].conv == c && b in t.db.buckets && t.db.buckets[b].deadline <= now
    && !ChatRunning(t.db, c.chat)
  }

  function Queue(db: Tables): set<int> { set i | i in db.invocations && db.invocations[i].state.Queued? }

  lemma LaunchableStarts(t: State, k: int, now: int)
    requires k in Launchable(t.db, now)
    ensures Startable(t.db, k) && k in Queue(t.db) && t.db.invocations[k].bucket in t.db.buckets
    ensures Queue(Start(t, k, now).db) == Queue(t.db) - {k}
  {
  }

  /** A launch starts the one that comes first. */
  lemma LaunchIs(t: State, k: int, now: int)
    requires Launchable(t.db, now) != {} && k == Least(Launchable(t.db, now), LaunchRank(t))
    ensures t.db.invocations[k].bucket in t.db.buckets
    ensures Next(t, Step(LaunchTick(|RunningSet(t.db)| + 1), now)) == Start(t, k, now)
  {
    hide RunningSet, Start, LaunchRank;
  }

  // ---- a launch in another chat ----

  lemma StartMem(t: State, k: int, now: int, d: Conversation)
    requires k in t.db.invocations && t.db.invocations[k].bucket in t.db.buckets
    ensures var row := t.db.invocations[k];
            Mem(Start(t, k, now), d)
            == if d == row.conv then Mem(t, d).(tags := Mem(t, d).tags + [Batch(row.bucket)], round := true) else Mem(t, d)
  {
  }

  lemma StartShadows(t: State, q: State, c: Conversation, k: int, now: int)
    requires Shadows(t, q, c) && k in t.db.invocations && t.db.invocations[k].bucket in t.db.buckets
    ensures Shadows(Start(t, k, now), Start(q, k, now), c)
    ensures t.db.invocations[k].conv != c ==> Mem(Start(t, k, now), c) == Mem(t, c)
    ensures t.db.invocations[k].conv != c ==> Mem(Start(q, k, now), c) == Mem(q, c)
  {
    forall d ensures d != c ==> Mem(Start(t, k, now), d) == Mem(Start(q, k, now), d) {
      StartMem(t, k, now, d);
      StartMem(q, k, now, d);
    }
    assert Start(t, k, now) == Start(q, k, now).(memory := Start(t, k, now).memory, injections := t.injections);
    hide Start;
  }

  lemma StartLeaves(t: State, q: State, c: Conversation, j: int, b: int, k: int, now: int)
    requires Stale(t, q, c, j, b, now) && k in Launchable(t.db, now) && k != j
    ensures var r := Start(t, k, now);
            && Opens(r.db, j, b) && r.db.invocations[j] == t.db.invocations[j]
            && b in r.db.buckets && r.db.buckets[b] == t.db.buckets[b]
            && (t.db.invocations[k].conv.chat != c.chat ==> !ChatRunning(r.db, c.chat))
            && t.db.invocations[k].bucket != b
  {
    assert OpensOnce(q.db);
    hide Inv;
    var r := Start(t, k, now);
    forall i | i in r.db.invocations && RunningInvocation(r.db, i) && t.db.invocations[k].conv.chat != c.chat
      ensures r.db.invocations[i].conv.chat != c.chat
    {
      if i != k { assert RunningInvocation(t.db, i); }
    }
  }

  lemma ElsewhereStale(t: State, q: State, c: Conversation, j: int, b: int, k: int, now: int)
    requires Stale(t, q, c, j, b, now) && k in Launchable(t.db, now) && t.db.invocations[k].conv.chat != c.chat
    ensures t.db.invocations[k].bucket in t.db.buckets && Stale(Start(t, k, now), Start(q, k, now), c, j, b, now)
  {
    hide Inv;
    LaunchableStarts(t, k, now);
    StartLeaves(t, q, c, j, b, k, now);
    StartShadows(t, q, c, k, now);
    hide Start;
    StartKeeps(q, k, now, now);
  }

  // ---- a launch in the same chat ----

  /** A run that read its opening and holds nothing else ends without queueing anything. */
  lemma EndedEffect(t: State, k: int, now: int)
    requires RunningInvocation(t.db, k) && t.db.invocations[k].batches.Keys == {t.db.invocations[k].bucket}
    ensures Finish(t, k, Aborted, now) == Seal(ClearQueues(t, t.db.invocations[k].conv), k, Aborted, now)
  {
    assert Uninjected(t.db, k) == {};
    hide Seal, ClearQueues;
  }

  lemma SealedRows(t: State, k: int, now: int, j: int)
    requires RunningInvocation(t.db, k) && j in t.db.invocations && j != k
    ensures var r := Seal(ClearQueues(t, t.db.invocations[k].conv), k, Aborted, now);
            && Queue(r.db) == Queue(t.db) && j in r.db.invocations && r.db.invocations[j] == t.db.invocations[j]
            && (forall b | b in t.db.buckets && t.db.buckets[b].state.Queued? ::
                  b in r.db.buckets && r.db.buckets[b] == t.db.buckets[b])
            && (forall i | RunningInvocation(r.db, i) :: RunningInvocation(t.db, i) && i != k
                                                         && r.db.invocations[i].conv == t.db.invocations[i].conv)
  {
  }

  lemma SealedMem(t: State, k: int, now: int, d: Conversation)
    requires k in t.db.invocations
    ensures Mem(Seal(ClearQueues(t, t.db.invocations[k].conv), k, Aborted, now), d)
            == if d == t.db.invocations[k].conv then IDLE else Mem(t, d)
  {
  }

  lemma SealedShadows(t: State, q: State, c: Conversation, k: int, now: int)
    requires Shadows(t, q, c) && k in t.db.invocations
    ensures var d := t.db.invocations[k].conv;
            Shadows(Seal(ClearQueues(t, d), k, Aborted, now), Seal(ClearQueues(q, d), k, Aborted, now), c)
  {
    var d := t.db.invocations[k].conv;
    forall e ensures e != c ==> Mem(Seal(ClearQueues(t, d), k, Aborted, now), e) == Mem(Seal(ClearQueues(q, d), k, Aborted, now), e) {
      SealedMem(t, k, now, e);
      SealedMem(q, k, now, e);
    }
    hide CloseHeld, PushDeadlines, SettleReceipts;
  }

  /** What is left to hold once a run in the chat of `c` has ended: its memory, and that `j` still waits. */
  lemma EndedStale(t: State, q: State, c: Conversation, j: int, b: int, k: int, now: int)
    requires Inv(q, now) && Shadows(t, q, c) && RunningInvocation(t.db, k) && k != j
    requires t.db.invocations[k].batches.Keys == {t.db.invocations[k].bucket} && t.db.invocations[k].conv.chat == c.chat
    requires Opens(t.db, j, b) && t.db.invocations[j].conv == c && b in t.db.buckets && t.db.buckets[b].deadline <= now
    requires if t.db.invocations[k].conv == c then b in t.injections
             else && Mem(q, c) == IDLE && Mem(t, c) == IDLE.(pending := Mem(t, c).pending)
                  && (if Mem(t, c).pending == [] then b in t.injections
                      else Taken(Mem(t, c), true) != [] && Taken(Mem(t, c), true)[0].bucket == b)
    ensures Stale(Finish(t, k, Aborted, now), Finish(q, k, Aborted, now), c, j, b, now)
    ensures Queue(Finish(t, k, Aborted, now).db) == Queue(t.db)
  {
    assert RunsMatch(q.db) && QueueMatches(q.db);
    hide Inv, Taken, Finish;
    EndedEffect(t, k, now);
    EndedEffect(q, k, now);
    SealedRows(t, k, now, j);
    SealedMem(t, k, now, c);
    SealedMem(q, k, now, c);
    SealedShadows(t, q, c, k, now);
    FinishKeeps(q, k, Aborted, now, now);
    assert Opens(q.db, j, b) && t.db.buckets[b].state.Queued?;
    hide Seal, ClearQueues;
    var r := Finish(t, k, Aborted, now);
    forall i | i in r.db.invocations && RunningInvocation(r.db, i) ensures r.db.invocations[i].conv.chat != c.chat {
      assert RunningInvocation(t.db, i) && i != k;
    }
  }

  lemma QueuedHoldsOne(q: State, k: int, now: int)
    requires Inv(q, now) && QueuedInvocation(q.db, k)
    ensures q.db.invocations[k].batches.Keys == {q.db.invocations[k].bucket}
  {
    assert Rows(q.db) && QueueMatches(q.db);
    hide Inv;
    var row := q.db.invocations[k];
    assert forall b | b in row.batches :: b == row.bucket;
  }

  /** Another invocation of the chat goes first and ends at once. */
  lemma MateStale(t: State, q: State, c: Conversation, j: int, b: int, k: int, now: int)
    requires Stale(t, q, c, j, b, now) && k in Launchable(t.db, now) && k != j
    requires t.db.invocations[k].conv.chat == c.chat && (t.db.invocations[k].conv == c ==> Mem(t, c).pending == [])
    ensures t.db.invocations[k].bucket in t.db.buckets && RunningInvocation(Start(t, k, now).db, k)
    ensures RunningInvocation(Start(q, k, now).db, k)
    ensures var r := Finish(Start(t, k, now), k, Aborted, now);
            Stale(r, Finish(Start(q, k, now), k, Aborted, now), c, j, b, now) && Queue(r.db) == Queue(t.db) - {k}
  {
    hide Inv, Taken, Finish, ChatRunning;
    LaunchableStarts(t, k, now);
    StartLeaves(t, q, c, j, b, k, now);
    StartShadows(t, q, c, k, now);
    QueuedHoldsOne(q, k, now);
    StartKeeps(q, k, now, now);
    EndedStale(Start(t, k, now), Start(q, k, now), c, j, b, k, now);
  }

  lemma AcknowledgedShadows(t: State, q: State, c: Conversation)
    requires Shadows(t, q, c) && Mem(t, c).tags == Mem(q, c).tags
    ensures Shadows(UserMessageEnd(t, c), UserMessageEnd(q, c), c)
  {
    hide RunningOf;
    forall d ensures d != c ==> Mem(UserMessageEnd(t, c), d) == Mem(UserMessageEnd(q, c), d) {
      AcknowledgedMem(t, c, d);
      AcknowledgedMem(q, c, d);
    }
    hide Mem, Join;
  }

  lemma AcknowledgedMem(t: State, c: Conversation, d: Conversation)
    ensures d != c ==> Mem(UserMessageEnd(t, c), d) == Mem(t, d)
  {
    hide RunningOf, Join;
  }

  /** What the run of another invocation of `c` has read before it ends: its opening, and `b` from memory. */
  function Served(t: State, c: Conversation, k: int, now: int): State
    requires k in t.db.invocations && t.db.invocations[k].bucket in t.db.buckets
  {
    UserMessageEnd(InjectPending(UserMessageEnd(Start(t, k, now), c), c, true), c)
  }

  lemma ServedRows(t: State, q: State, c: Conversation, j: int, b: int, k: int, now: int)
    requires Stale(t, q, c, j, b, now) && k in Launchable(t.db, now) && k != j
    requires t.db.invocations[k].conv == c && Mem(t, c).pending != []
    ensures t.db.invocations[k].bucket in t.db.buckets
    ensures var r := Served(t, c, k, now);
            && Shadows(r, UserMessageEnd(Start(q, k, now), c), c) && b in r.injections
            && RunningInvocation(r.db, k) && r.db.invocations[k].conv == c
            && r.db.invocations[k].bucket == t.db.invocations[k].bucket
            && r.db.invocations[k].batches.Keys == {t.db.invocations[k].bucket}
            && Opens(r.db, j, b) && r.db.invocations[j].conv == c && b in r.db.buckets && r.db.buckets[b].deadline <= now
            && Queue(r.db) == Queue(t.db) - {k}
  {
    hide Inv, Taken, InjectPending, ChatRunning;
    LaunchableStarts(t, k, now);
    StartLeaves(t, q, c, j, b, k, now);
    StartShadows(t, q, c, k, now);
    QueuedHoldsOne(q, k, now);
    var s1, q1 := UserMessageEnd(Start(t, k, now), c), UserMessageEnd(Start(q, k, now), c);
    NobodyRuns(t, c);
    StaleEntryIsRead(t, c, k, now);
    StartMem(t, k, now, c);
    StartMem(q, k, now, c);
    AcknowledgedShadows(Start(t, k, now), Start(q, k, now), c);
    AcknowledgedRows(t, c, k, now);
    hide Start, UserMessageEnd;
  }

  lemma NobodyRuns(t: State, c: Conversation)
    requires !ChatRunning(t.db, c.chat)
    ensures forall i :: !RunsFor(t.db, c, i)
  {
  }

  /** Reading the opening acknowledges it and changes no other row. */
  lemma AcknowledgedRows(t: State, c: Conversation, k: int, now: int)
    requires QueuedInvocation(t.db, k) && t.db.invocations[k].conv == c && t.db.invocations[k].bucket in t.db.buckets
    requires t.db.invocations[k].batches.Keys == {t.db.invocations[k].bucket}
    requires (forall i :: !RunsFor(t.db, c, i)) && Mem(t, c).tags == []
    ensures var s0 := Start(t, k, now);
            var s1 := UserMessageEnd(s0, c);
            && s1.db.buckets == s0.db.buckets && RunningInvocation(s1.db, k) && s1.db.invocations[k].conv == c
            && s1.db.invocations[k].bucket == t.db.invocations[k].bucket
            && s1.db.invocations[k].batches.Keys == {t.db.invocations[k].bucket}
            && (forall i | i in s0.db.invocations && i != k ::
                  i in s1.db.invocations && s1.db.invocations[i] == s0.db.invocations[i])
            && Queue(s1.db) == Queue(s0.db)
  {
    var s0 := Start(t, k, now);
    assert RunsFor(s0.db, c, k);
    forall i | RunsFor(s0.db, c, i) ensures i == k {
      assert !RunsFor(t.db, c, i);
    }
    assert RunningOf(s0.db, c).value == k;
    var o := t.db.invocations[k].bucket;
    assert Mem(s0, c).tags == [] + [Batch(o)];
    hide Start, RunningOf;
    assert UserMessageEnd(s0, c).db == Join(s0.db, k, o, true);
  }

  /** Another invocation of `c` goes first: its run reads `b` from memory and ends. */
  lemma OwnStale(t: State, q: State, c: Conversation, j: int, b: int, k: int, now: int)
    requires Stale(t, q, c, j, b, now) && k in Launchable(t.db, now) && k != j
    requires t.db.invocations[k].conv == c && Mem(t, c).pending != []
    ensures t.db.invocations[k].bucket in t.db.buckets && RunningInvocation(Served(t, c, k, now).db, k)
    ensures var r := Finish(Served(t, c, k, now), k, Aborted, now);
            && RunningInvocation(UserMessageEnd(Start(q, k, now), c).db, k)
            && Stale(r, Finish(UserMessageEnd(Start(q, k, now), c), k, Aborted, now), c, j, b, now)
            && Queue(r.db) == Queue(t.db) - {k}
  {
    hide Inv, Taken, Finish, ChatRunning, Served, Start, UserMessageEnd;
    LaunchableStarts(t, k, now);
    ServedRows(t, q, c, j, b, k, now);
    StartKeeps(q, k, now, now);
    UserMessageEndKeeps(Start(q, k, now), c, now);
    EndedStale(Served(t, c, k, now), UserMessageEnd(Start(q, k, now), c), c, j, b, k, now);
  }

  // ---- the run that writes it twice ----

  /** The launch, what the run reads, and its end, as steps of the scheduler. */
  lemma ServedRepeats(t: State, c: Conversation, k: int, b: int, now: int)
    requires Launchable(t.db, now) != {} && k == Least(Launchable(t.db, now), LaunchRank(t))
    requires t.db.invocations[k].bucket in t.db.buckets
    requires || CanRepeat(Served(t, c, k, now), b, now)
             || (RunningInvocation(Served(t, c, k, now).db, k)
                 && CanRepeat(Finish(Served(t, c, k, now), k, Aborted, now), b, now))
    ensures CanRepeat(t, b, now)
  {
    hide CanRepeat, Start, UserMessageEnd, InjectPending, Finish;
    LaunchIs(t, k, now);
    var s0 := Start(t, k, now);
    var s1 := UserMessageEnd(s0, c);
    var s2 := InjectPending(s1, c, true);
    var s3 := UserMessageEnd(s2, c);
    if RunningInvocation(s3.db, k) && CanRepeat(Finish(s3, k, Aborted, now), b, now) {
      RepeatNext(s3, RunEnds(k, Aborted), b, now);
    }
    RepeatNext(s2, UserMessageRead(c), b, now);
    RepeatNext(s1, TurnBoundary(c, true), b, now);
    RepeatNext(s0, UserMessageRead(c), b, now);
    RepeatNext(t, LaunchTick(|RunningSet(t.db)| + 1), b, now);
  }

  /** The invocation that opens with `b` starts: one reading from memory or an earlier run, one as its opening. */
  lemma OpeningRepeats(t: State, q: State, c: Conversation, j: int, b: int, now: int)
    requires Stale(t, q, c, j, b, now)
    requires Launchable(t.db, now) != {} && j == Least(Launchable(t.db, now), LaunchRank(t))
    ensures CanRepeat(t, b, now)
  {
    hide Inv, Taken, CanRepeat, Start, UserMessageEnd, InjectPending, ChatRunning, LaunchRank, RunningSet;
    LaunchableStarts(t, j, now);
    QueuedHoldsOne(q, j, now);
    NobodyRuns(t, c);
    if Mem(t, c).pending != [] {
      StaleEntryInjectsTwice(t, c, j, now);
      TwiceLast(t.injections, b, Served(t, c, j, now).injections);
      RepeatNow(Served(t, c, j, now), b, now);
      ServedRepeats(t, c, j, b, now);
    } else {
      StartedReads(t, c, j, now);
      var s1 := UserMessageEnd(Start(t, j, now), c);
      TwiceOnce(t.injections, b);
      RepeatNow(s1, b, now);
      LaunchIs(t, j, now);
      RepeatNext(Start(t, j, now), UserMessageRead(c), b, now);
      RepeatNext(t, LaunchTick(|RunningSet(t.db)| + 1), b, now);
    }
  }

  lemma TwiceLast(was: seq<int>, b: int, injections: seq<int>)
    requires injections == was + [b, b]
    ensures Twice(injections, b)
  {
    assert injections[|was|] == b && injections[|was| + 1] == b;
  }

  lemma TwiceOnce(was: seq<int>, b: int)
    requires b in was
    ensures Twice(was + [b], b)
  {
    var x :| 0 <= x < |was| && was[x] == b;
    assert (was + [b])[x] == b && (was + [b])[|was|] == b;
  }

  lemma StaleStarts(t: State, q: State, c: Conversation, j: int, b: int, now: int)
    requires Stale(t, q, c, j, b, now)
    ensures j in Launchable(t.db, now) && t.db.invocations.Keys == q.db.invocations.Keys && t.db == q.db
  {
    hide Inv, Taken, ChatRunning;
  }

  /** However the queue stands, the scheduler comes to it. */
  lemma {:induction false} Repeats(t: State, q: State, c: Conversation, j: int, b: int, now: int)
    requires Stale(t, q, c, j, b, now)
    ensures CanRepeat(t, b, now)
    decreases |Queue(t.db)|
  {
    hide Inv, Taken, CanRepeat, Start, Served, Finish, LaunchRank, RunningSet, UserMessageEnd, Stale, Launchable, Startable;
    StaleStarts(t, q, c, j, b, now);
    var k := Least(Launchable(t.db, now), LaunchRank(t));
    LaunchableStarts(t, k, now);
    if k == j {
      OpeningRepeats(t, q, c, j, b, now);
    } else if t.db.invocations[k].conv.chat != c.chat {
      ElsewhereStale(t, q, c, j, b, k, now);
      Repeats(Start(t, k, now), Start(q, k, now), c, j, b, now);
      LaunchIs(t, k, now);
      RepeatNext(t, LaunchTick(|RunningSet(t.db)| + 1), b, now);
    } else if t.db.invocations[k].conv == c && Mem(t, c).pending != [] {
      OwnStale(t, q, c, j, b, k, now);
      Repeats(Finish(Served(t, c, k, now), k, Aborted, now),
              Finish(UserMessageEnd(Start(q, k, now), c), k, Aborted, now), c, j, b, now);
      ServedRepeats(t, c, k, b, now);
    } else {
      MateStale(t, q, c, j, b, k, now);
      Repeats(Finish(Start(t, k, now), k, Aborted, now), Finish(Start(q, k, now), k, Aborted, now), c, j, b, now);
      LaunchIs(t, k, now);
      RepeatNext(Start(t, k, now), RunEnds(k, Aborted), b, now);
      RepeatNext(t, LaunchTick(|RunningSet(t.db)| + 1), b, now);
    }
  }
}
