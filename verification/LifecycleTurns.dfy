/** What ticks, launches and turn boundaries make of the batches that wait, row by row. */
module LifecycleTurns {
  import opened Options
  import opened Ordering
  import opened LifecycleTables
  import opened LifecycleSteps
  import opened LifecycleInvariant
  import opened LifecycleQueries
  import opened LifecycleResults

  // ---- due batches ----

  /** A due batch that nothing holds back: its chat is not paused, and no other work of the chat waits or runs. */
  predicate Ready(s: State, b: int, now: int)
    requires b in s.db.buckets
  {
    && s.db.buckets[b].state.Collecting? && s.db.buckets[b].deadline <= now && s.db.buckets[b].conv.chat !in s.paused
    && (forall i | i in s.db.invocations && s.db.invocations[i].conv.chat == s.db.buckets[b].conv.chat ::
          s.db.invocations[i].state.Ended? || (s.db.invocations[i].state.Running? && s.db.invocations[i].conv == s.db.buckets[b].conv))
  }

  lemma ReadyIsDue(s: State, b: int, now: int)
    requires b in s.db.buckets
    ensures Ready(s, b, now) <==> b in DueSet(s, now)
  {
  }

  /**
   What a tick makes of a batch, read from the state before it. One of a conversation whose run is mid-round is put off by a
   window, at least a quarter of a second; one of a closing run waits; others are skipped where the chat is not configured or
   asleep, handed to the run where there is one, and queued where there is none.
   */
  lemma DueFates(s: State, env: Env, now: int, b: int, clock: int)
    requires Inv(s, clock) && b in s.db.buckets
    ensures b in ProcessDue(s, env, now).db.buckets
    ensures var row := s.db.buckets[b];
            var c := row.conv;
            var runs := exists i | i in s.db.invocations :: RunsFor(s.db, c, i);
            var off := c.chat !in env.configured || env.sleeping;
            ProcessDue(s, env, now).db.buckets[b]
            == if !Ready(s, b, now) then row
               else if runs && Mem(s, c).round then row.(deadline := Max(row.deadline, now + Max(s.window, 250)))
               else if runs && Mem(s, c).closing then row
               else if off then row.(state := Closed(SkippedBudget))
               else if runs then row.(state := BucketState.Running)
               else row.(state := BucketState.Queued)
    ensures var r := ProcessDue(s, env, now); r == s.(db := r.db, memory := r.memory)
  {
    DueTouches(s, env, now);
    hide Inv, ProcessDue, DueSet, ChatTaken, Ready;
    ProcessDueRows(s, env, now, b, clock);
    ReadyIsDue(s, b, now);
    ReadyNotPaused(s, b, now);
    RunsKnown(s, s.db.buckets[b].conv);
    hide RunningOf, RunsFor;
  }

  lemma DueTouches(s: State, env: Env, now: int)
    ensures var r := ProcessDue(s, env, now); r == s.(db := r.db, memory := r.memory)
  {
    hide DueFold;
    FoldTouches(s, Due(s, now), env, now);
  }

  lemma ReadyNotPaused(s: State, b: int, now: int)
    requires b in s.db.buckets
    ensures Ready(s, b, now) ==> s.db.buckets[b].conv.chat !in s.paused
  {
  }

  lemma RunsKnown(s: State, c: Conversation)
    ensures RunningOf(s.db, c).Some? <==> exists i | i in s.db.invocations :: RunsFor(s.db, c, i)
  {
  }

  lemma StepRemembers(s: State, b: int, env: Env, now: int, c: Conversation, e: Entry)
    requires b in s.db.buckets && e in Mem(s, c).pending
    ensures e in Mem(DueStep(s, b, env, now), c).pending
  {
    hide DueDecision;
  }

  lemma {:induction false} FoldRemembers(s: State, due: seq<int>, env: Env, now: int, c: Conversation, e: Entry)
    requires (forall b | b in due :: b in s.db.buckets) && e in Mem(s, c).pending
    ensures e in Mem(DueFold(s, due, env, now), c).pending
    decreases due
  {
    if due != [] {
      StepRemembers(s, due[0], env, now, c, e);
      hide DueStep;
      FoldRemembers(DueStep(s, due[0], env, now), due[1..], env, now, c, e);
    }
  }

  lemma {:induction false} FoldHands(s: State, due: seq<int>, env: Env, now: int, b: int)
    requires IdsBelow(s.db) && AllCollecting(s.db, due) && b in due
    requires forall x, y | 0 <= x < y < |due| :: due[x] != due[y]
    requires DueDecision(s, s.db.buckets[b].conv, env).Hand?
    ensures Entry(b, Messages) in Mem(DueFold(s, due, env, now), s.db.buckets[b].conv).pending
    decreases due
  {
    TailOf(due);
    var a := due[0];
    var t := DueStep(s, a, env, now);
    DueStepElsewhere(s, a, env, now);
    DueApplySteady(s, a, DueDecision(s, s.db.buckets[a].conv, env), now);
    if a == b {
      HandRemembers(s, b, DueDecision(s, s.db.buckets[b].conv, env), now);
      hide DueDecision, DueApply, IdsBelow, Steady;
      FoldRemembers(t, due[1..], env, now, s.db.buckets[b].conv, Entry(b, Messages));
    } else {
      hide DueDecision, DueApply, IdsBelow, Steady;
      SteadyDecides(s, t, s.db.buckets[b].conv, env);
      FoldHands(t, due[1..], env, now, b);
    }
  }

  lemma HandRemembers(s: State, b: int, action: DueAction, now: int)
    requires b in s.db.buckets && action.Hand? && action.invocation in s.db.invocations
    ensures Entry(b, Messages) in Mem(DueApply(s, b, action, now), s.db.buckets[b].conv).pending
  {
  }

  /** A batch handed to a run waits in its memory, as messages. */
  lemma DueRemembered(s: State, env: Env, now: int, b: int, clock: int)
    requires Inv(s, clock) && b in s.db.buckets && s.db.buckets[b].state.Collecting?
    requires b in ProcessDue(s, env, now).db.buckets && ProcessDue(s, env, now).db.buckets[b].state.Running?
    ensures Entry(b, Messages) in Mem(ProcessDue(s, env, now), s.db.buckets[b].conv).pending
  {
    ProcessDueRows(s, env, now, b, clock);
    RowsBelowAll(s, clock);
    hide Inv, DueFold, DueDecision, IdsBelow;
    FoldHands(s, Due(s, now), env, now, b);
  }

  lemma RowsBelowAll(s: State, clock: int)
    requires Inv(s, clock)
    ensures IdsBelow(s.db)
  {
    assert Rows(s.db);
    hide Inv;
  }

  lemma {:induction false} FoldTouches(s: State, due: seq<int>, env: Env, now: int)
    requires forall b | b in due :: b in s.db.buckets
    ensures var r := DueFold(s, due, env, now); r == s.(db := r.db, memory := r.memory)
    decreases due
  {
    if due != [] {
      StepTouches(s, due[0], env, now);
      hide DueStep;
      FoldTouches(DueStep(s, due[0], env, now), due[1..], env, now);
    }
  }

  lemma StepTouches(s: State, b: int, env: Env, now: int)
    requires b in s.db.buckets
    ensures var r := DueStep(s, b, env, now); r == s.(db := r.db, memory := r.memory)
  {
    hide DueDecision, Attach, Enqueue, Defer, SetBucket;
  }

  // ---- launches ----

  /** A queued invocation whose batch is due and whose chat is free. */
  predicate CanStart(s: State, i: int, now: int) {
    && i in s.db.invocations && s.db.invocations[i].state.Queued? && s.db.invocations[i].bucket in s.db.buckets
    && s.db.buckets[s.db.invocations[i].bucket].deadline <= now
    && (forall j | j in s.db.invocations && s.db.invocations[j].state.Running? ::
          s.db.invocations[j].conv.chat != s.db.invocations[i].conv.chat)
  }

  predicate HasClaim(s: State, i: int) {
    exists t | t in s.receipts :: s.receipts[t].state.Claimed? && s.receipts[t].invocation == Some(i)
  }

  /** Exactly this invocation starts, with its batch, and the batch is handed to the agent as the opening of a round. */
  ghost predicate Starts(s: State, r: State, i: int, now: int)
    requires CanStart(s, i, now)
  {
    var row, c := s.db.invocations[i], s.db.invocations[i].conv;
    && r == s.(db := r.db, memory := r.memory)
    && r.db == s.db.(buckets := r.db.buckets, invocations := r.db.invocations)
    && r.db.buckets == s.db.buckets[row.bucket := s.db.buckets[row.bucket].(state := BucketState.Running)]
    && r.db.invocations == s.db.invocations[i := row.(state := InvocationState.Running, startedAt := now)]
    && (forall d :: Mem(r, d) == if d == c then Mem(s, c).(tags := Mem(s, c).tags + [Batch(row.bucket)], round := true)
                                 else Mem(s, d))
  }

  /** While there is room, the next to start is a receipt's delivery before any other work, and otherwise the oldest. */
  lemma LaunchStarts(s: State, now: int, max: nat)
    ensures var room := |set i | i in s.db.invocations && s.db.invocations[i].state.Running?| < max;
            var r := Launch(s, now, max);
            if !room || (forall i :: !CanStart(s, i, now)) then r == s
            else exists k :: CanStart(s, k, now) && Starts(s, r, k, now)
                   && forall j | CanStart(s, j, now) && j != k ::
                        (HasClaim(s, k) && !HasClaim(s, j)) || ((HasClaim(s, k) <==> HasClaim(s, j)) && k < j)
  {
    CanStartIs(s, now);
    assert RunningSet(s.db) == set i | i in s.db.invocations && s.db.invocations[i].state.Running?;
    hide Launchable, CanStart, Start;
    if |RunningSet(s.db)| < max && Launchable(s.db, now) != {} {
      var k := Least(Launchable(s.db, now), LaunchRank(s));
      StartStarts(s, k, now);
      forall j | CanStart(s, j, now) && j != k
        ensures (HasClaim(s, k) && !HasClaim(s, j)) || ((HasClaim(s, k) <==> HasClaim(s, j)) && k < j)
      {
        assert j in Launchable(s.db, now) && Before(LaunchRank(s), k, j);
        assert DeliversReceipt(s, j) == HasClaim(s, j) && DeliversReceipt(s, k) == HasClaim(s, k);
      }
    } else if Launchable(s.db, now) == {} {
      assert forall i :: i !in Launchable(s.db, now);
    }
  }

  lemma CanStartIs(s: State, now: int)
    ensures forall i :: i in Launchable(s.db, now) <==> CanStart(s, i, now)
  {
  }

  lemma StartStarts(s: State, k: int, now: int)
    requires CanStart(s, k, now)
    ensures Starts(s, Start(s, k, now), k, now)
  {
  }

  // ---- turn boundaries ----

  /** How many of the first `p` entries are of the kind. */
  function KindBefore(entries: seq<Entry>, kind: Kind, p: nat): nat
    requires p <= |entries|
  {
    if p == 0 then 0 else KindBefore(entries, kind, p - 1) + if entries[p - 1].kind == kind then 1 else 0
  }

  /** `picked` are the entries of the kind, all of them, each at its place among them. */
  ghost predicate Picks(entries: seq<Entry>, kind: Kind, picked: seq<Entry>) {
    && |picked| == KindBefore(entries, kind, |entries|)
    && forall p: nat | p < |entries| && entries[p].kind == kind ::
         KindBefore(entries, kind, p) < |picked| && picked[KindBefore(entries, kind, p)] == entries[p]
  }

  lemma {:induction false} KindBeforeTail(entries: seq<Entry>, kind: Kind, p: nat)
    requires 0 < p <= |entries|
    ensures KindBefore(entries, kind, p) == (if entries[0].kind == kind then 1 else 0) + KindBefore(entries[1..], kind, p - 1)
    decreases p
  {
    if p > 1 { KindBeforeTail(entries, kind, p - 1); }
  }

  lemma {:induction false} OfKindNone(entries: seq<Entry>, kind: Kind)
    ensures OfKind(entries, kind) == [] <==> forall e | e in entries :: e.kind != kind
    decreases entries
  {
    if entries != [] {
      OfKindNone(entries[1..], kind);
      assert entries == [entries[0]] + entries[1..];
    }
  }

  lemma PicksMore(entries: seq<Entry>, kind: Kind, rest: seq<Entry>)
    requires entries != [] && Picks(entries[1..], kind, rest)
    ensures Picks(entries, kind, (if entries[0].kind == kind then [entries[0]] else []) + rest)
  {
    var picked := (if entries[0].kind == kind then [entries[0]] else []) + rest;
    var tail := entries[1..];
    KindBeforeTail(entries, kind, |entries|);
    forall p: nat | p < |entries| && entries[p].kind == kind
      ensures KindBefore(entries, kind, p) < |picked| && picked[KindBefore(entries, kind, p)] == entries[p]
    {
      if p > 0 {
        KindBeforeTail(entries, kind, p);
        assert tail[p - 1] == entries[p];
        assert rest[KindBefore(tail, kind, p - 1)] == entries[p];
      }
    }
  }

  lemma {:induction false} OfKindPicks(entries: seq<Entry>, kind: Kind)
    ensures Picks(entries, kind, OfKind(entries, kind))
    decreases entries
  {
    if entries == [] {
      assert Picks([], kind, []);
    } else {
      OfKindPicks(entries[1..], kind);
      PicksMore(entries, kind, OfKind(entries[1..], kind));
      hide Picks;
    }
  }

  /**
   A turn boundary takes every waiting user batch, in order, and leaves the receipts in theirs; with none waiting it takes
   the oldest receipt, where it may take one at all.
   */
  lemma BoundaryTakes(m: Memory, includeCompletion: bool)
    ensures var taken, left := Taken(m, includeCompletion), Left(m, includeCompletion);
            if exists e | e in m.pending :: e.kind.Messages?
            then Picks(m.pending, Messages, taken) && Picks(m.pending, Completion, left)
            else if includeCompletion && m.pending != [] then taken == [m.pending[0]] && left == m.pending[1..]
            else taken == [] && left == m.pending
  {
    OfKindPicks(m.pending, Messages);
    OfKindPicks(m.pending, Completion);
    OfKindNone(m.pending, Messages);
    hide OfKind, Picks;
  }

  /** What was taken is steered in order, one message each, and opens a round; the rest goes on waiting. */
  lemma BoundarySteers(s: State, c: Conversation, includeCompletion: bool)
    ensures var r, m := InjectPending(s, c, includeCompletion), Mem(s, c);
            var taken := Taken(m, includeCompletion);
            && (taken == [] ==> r == s)
            && (taken != [] ==>
                  && r == s.(memory := r.memory)
                  && (forall d | d != c :: Mem(r, d) == Mem(s, d))
                  && Mem(r, c) == m.(pending := Left(m, includeCompletion), tags := Mem(r, c).tags, round := true)
                  && |Mem(r, c).tags| == |m.tags| + |taken| && Mem(r, c).tags[..|m.tags|] == m.tags
                  && (forall k: nat | k < |taken| :: Mem(r, c).tags[|m.tags| + k] == Batch(taken[k].bucket)))
  {
    hide Taken, Left, Batches, Buckets;
    var m := Mem(s, c);
    var taken := Taken(m, includeCompletion);
    TagsAdded(m.tags, taken);
    if taken != [] {
      var r := InjectPending(s, c, includeCompletion);
      assert Mem(r, c) == m.(pending := Left(m, includeCompletion), tags := m.tags + Batches(Buckets(taken)), round := true);
    }
  }

  lemma TagsAdded(tags: seq<Tag>, taken: seq<Entry>)
    ensures var all := tags + Batches(Buckets(taken));
            && |all| == |tags| + |taken| && all[..|tags|] == tags
            && forall k: nat | k < |taken| :: all[|tags| + k] == Batch(taken[k].bucket)
  {
    hide Batches, Buckets;
    BatchesOf(taken);
  }

  lemma {:induction false} BatchesOf(entries: seq<Entry>)
    ensures |Batches(Buckets(entries))| == |entries|
    ensures forall k: nat | k < |entries| :: Batches(Buckets(entries))[k] == Batch(entries[k].bucket)
    decreases entries
  {
    if entries != [] {
      BatchesOf(entries[1..]);
      assert Buckets(entries)[1..] == Buckets(entries[1..]);
      forall k: nat | k < |entries| ensures Batches(Buckets(entries))[k] == Batch(entries[k].bucket) {
        if k > 0 { assert entries[1..][k - 1] == entries[k]; }
      }
    }
  }

  /** A message that ends is the one steered longest ago: its batch is written, and acknowledged where the run holds it. */
  lemma MessageRead(s: State, c: Conversation)
    ensures var r, m := UserMessageEnd(s, c), Mem(s, c);
            if m.tags == [] || (forall i :: !RunsFor(s.db, c, i)) then r == s
            else
              && r == s.(db := r.db, memory := r.memory, injections := r.injections)
              && Mem(r, c) == m.(tags := m.tags[1..]) && (forall d | d != c :: Mem(r, d) == Mem(s, d))
              && r.injections == s.injections + (if m.tags[0].Batch? then [m.tags[0].bucket] else [])
              && r.db == s.db.(invocations := r.db.invocations) && r.db.invocations.Keys == s.db.invocations.Keys
              && exists k :: RunsFor(s.db, c, k)
                   && forall i | i in s.db.invocations ::
                        r.db.invocations[i]
                        == if i == k && m.tags[0].Batch? && m.tags[0].bucket in s.db.invocations[i].batches
                           then s.db.invocations[i].(batches := s.db.invocations[i].batches[m.tags[0].bucket := true])
                           else s.db.invocations[i]
  {
    hide RunningOf, Join;
    RunsAny(s, c);
    var m, running := Mem(s, c), RunningOf(s.db, c);
    if m.tags != [] && running.Some? {
      assert RunsFor(s.db, c, running.value);
      if m.tags[0].Batch? { JoinedRow(s.db, running.value, m.tags[0].bucket); }
    }
  }

  lemma JoinedRow(db: Tables, k: int, b: int)
    requires k in db.invocations
    ensures var r := Join(db, k, b, true);
            && r == db.(invocations := r.invocations) && r.invocations.Keys == db.invocations.Keys
            && forall i | i in db.invocations ::
                 r.invocations[i] == if i == k then db.invocations[i].(batches := db.invocations[i].batches[b := true])
                                     else db.invocations[i]
  {
  }

  // ---- the barrier, and a free agent ----

  /** A batch of `c` that is still collecting. */
  predicate Collects(s: State, c: Conversation, b: int) {
    b in s.db.buckets && s.db.buckets[b].conv == c && s.db.buckets[b].state.Collecting?
  }

  /** The first reply of a round is to be held back for messages that are still coming in. */
  ghost predicate MustHold(s: State, c: Conversation, completing: bool) {
    && (exists i :: RunsFor(s.db, c, i)) && !Mem(s, c).closing && !completing && !Mem(s, c).barrierSpent
    && (forall e | e in Mem(s, c).pending :: !e.kind.Messages?) && (exists b :: Collects(s, c, b))
  }

  /** Then that batch is handed to the run at once, and the barrier is spent; otherwise nothing happens. */
  lemma BarrierHolds(s: State, c: Conversation, completing: bool)
    ensures var r := Barrier(s, c, completing);
            if !MustHold(s, c, completing) then r == s
            else exists b, k :: Collects(s, c, b) && RunsFor(s.db, c, k)
                   && r == s.(db := r.db, memory := r.memory)
                   && r.db == s.db.(buckets := s.db.buckets[b := s.db.buckets[b].(state := BucketState.Running)],
                                    invocations := s.db.invocations[k := s.db.invocations[k].(
                                      batches := s.db.invocations[k].batches[b := false])])
                   && (forall d | d != c :: Mem(r, d) == Mem(s, d))
                   && Mem(r, c) == Mem(s, c).(pending := Mem(s, c).pending + [Entry(b, Messages)], barrierSpent := true)
  {
    OfKindNone(Mem(s, c).pending, Messages);
    CollectingIs(s, c);
    RunsAny(s, c);
    hide OfKind, Picks, CollectingOf, RunningOf, Mem;
    if MustHold(s, c, completing) {
      var b, k := Least(CollectingOf(s.db, c), ById), RunningOf(s.db, c).value;
      BarrierIs(s, c, completing, b, k);
    }
  }

  lemma CollectingIs(s: State, c: Conversation)
    ensures forall b :: b in CollectingOf(s.db, c) <==> Collects(s, c, b)
    ensures CollectingOf(s.db, c) != {} <==> exists b :: Collects(s, c, b)
  {
    if CollectingOf(s.db, c) != {} { NonEmpty(CollectingOf(s.db, c)); }
  }

  lemma RunsAny(s: State, c: Conversation)
    ensures RunningOf(s.db, c).Some? <==> exists i :: RunsFor(s.db, c, i)
  {
  }

  lemma BarrierIs(s: State, c: Conversation, completing: bool, b: int, k: int)
    requires RunningOf(s.db, c) == Some(k) && k in s.db.invocations && b in CollectingOf(s.db, c) && b in s.db.buckets
    requires b == Least(CollectingOf(s.db, c), ById)
    requires var m := Mem(s, c);
             !m.closing && !completing && OfKind(m.pending, Messages) == [] && !m.barrierSpent
    ensures var r := Barrier(s, c, completing);
            && r == s.(db := r.db, memory := r.memory)
            && r.db == s.db.(buckets := s.db.buckets[b := s.db.buckets[b].(state := BucketState.Running)],
                             invocations := s.db.invocations[k := s.db.invocations[k].(
                               batches := s.db.invocations[k].batches[b := false])])
            && (forall d | d != c :: Mem(r, d) == Mem(s, d))
            && Mem(r, c) == Mem(s, c).(pending := Mem(s, c).pending + [Entry(b, Messages)], barrierSpent := true)
  {
    hide OfKind, RunningOf, CollectingOf;
  }

  /** A round that ends clears its flags, and every batch of the conversation that collects gets a full window from then on. */
  lemma AgentFreed(s: State, c: Conversation, now: int)
    ensures var r := FreeAgent(s, c, now);
            && r == s.(db := s.db.(buckets := r.db.buckets), memory := r.memory, freeAt := s.freeAt[c := now])
            && Mem(r, c) == Mem(s, c).(round := false, barrierSpent := false) && (forall d | d != c :: Mem(r, d) == Mem(s, d))
            && r.db.buckets.Keys == s.db.buckets.Keys
            && (forall b | b in s.db.buckets ::
                  r.db.buckets[b] == if Collects(s, c, b)
                                     then s.db.buckets[b].(deadline := Max(s.db.buckets[b].deadline, now + s.window))
                                     else s.db.buckets[b])
  {
    CollectingIs(s, c);
    hide CollectingOf;
  }

  /** The other hooks of a run: a nudge is one more message to be read, closing is remembered, a side effect is recorded. */
  lemma HooksRecord(s: State, c: Conversation)
    ensures Mem(Nudge(s, c), c) == Mem(s, c).(tags := Mem(s, c).tags + [Harness]) && Nudge(s, c).db == s.db
    ensures Mem(BeginClosing(s, c), c) == Mem(s, c).(closing := true) && BeginClosing(s, c).db == s.db
    ensures forall i | i in s.db.invocations ::
              i in StartSideEffect(s, c).db.invocations
              && StartSideEffect(s, c).db.invocations[i]
                 == if RunningOf(s.db, c) == Some(i) then s.db.invocations[i].(sideEffect := true) else s.db.invocations[i]
  {
    hide RunningOf;
  }
}
