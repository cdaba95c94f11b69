/** A tick of the scheduler between the two halves of a run's end: exactly when it breaks at-most-once injection. */
module LifecycleSplit {
  import opened Options
  import opened Ordering
  import opened LifecycleTables
  import opened LifecycleSteps
  import opened LifecycleInvariant
  import opened LifecycleKeeps
  import opened LifecycleDrops
  import opened LifecycleRounds
  import opened LifecycleHandover
  import opened LifecycleQueries
  import opened LifecycleRuns
  import opened LifecycleResults
  import opened LifecycleTeardown
  import opened LifecycleReplay

  /** What a tick does before it launches: due timers, pending receipts, due batches. */
  function Tick(s: State, env: Env, now: int): State {
    var t := TimersDone(s, now);
    ProcessDue(ReceiptFold(t, PendingReceipts(t), env, now), env, now)
  }

  lemma {:induction false} ReceiptsKeepRuns(s: State, ts: seq<int>, env: Env, now: int)
    requires forall t | t in ts :: t in s.receipts && t in s.tasks
    ensures s.db.invocations.Keys <= ReceiptFold(s, ts, env, now).db.invocations.Keys
    decreases ts
  {
    if ts != [] { ReceiptsKeepRuns(ReceiptStep(s, ts[0], env, now), ts[1..], env, now); }
  }

  lemma {:induction false} DueKeepsRuns(s: State, due: seq<int>, env: Env, now: int)
    requires forall b | b in due :: b in s.db.buckets
    ensures s.db.invocations.Keys <= DueFold(s, due, env, now).db.invocations.Keys
    decreases due
  {
    hide DueStep;
    if due != [] { DueKeepsRuns(DueStep(s, due[0], env, now), due[1..], env, now); }
  }

  lemma {:induction false} TimersOnly(s: State, ts: seq<int>, now: int)
    ensures var r := TasksDueFold(s, ts, now); r == s.(tasks := r.tasks, receipts := r.receipts)
    decreases ts
  {
    if ts != [] { TimersOnly(EndTask(s, ts[0], Finished, Pending, now), ts[1..], now); }
  }

  lemma TickKeepsRuns(s: State, env: Env, now: int)
    ensures s.db.invocations.Keys <= Tick(s, env, now).db.invocations.Keys
  {
    hide TasksDueFold, ReceiptFold, DueFold;
    var t := TimersDone(s, now);
    TimersOnly(s, Ordered(TasksDueSet(s, now), Schedule(s)), now);
    var r := ReceiptFold(t, PendingReceipts(t), env, now);
    ReceiptsKeepRuns(t, PendingReceipts(t), env, now);
    DueKeepsRuns(r, Due(r, now), env, now);
  }

  /** The end of run `i` with a tick between the teardown of its memory and its terminal transaction. */
  function SplitEnd(s: State, i: int, env: Env, now: int, final: Final, end: int): State
    requires i in s.db.invocations
  {
    TickKeepsRuns(Torn(s, s.db.invocations[i].conv), env, now);
    Terminal(Tick(Torn(s, s.db.invocations[i].conv), env, now), i, final, end)
  }

  // ---- the condition ----

  /** A due batch of `c` that would be handed to a run between rounds. */
  predicate BatchDue(s: State, c: Conversation, env: Env, now: int, b: int) {
    b in DueSet(s, now) && s.db.buckets[b].conv == c && c.chat in env.configured && !env.sleeping
  }

  /** Nothing keeps a receipt of task `t` from a run of `c` that is not closing. */
  predicate Deliverable(s: State, c: Conversation, env: Env, t: int) {
    && t in s.tasks && s.tasks[t].conv == c && !DeliveryBlocked(s, c, env)
    && (!env.sleeping || s.tasks[t].bypassBudget)
  }

  /** The receipt of `t` is pending, or its timer is due and writes one. */
  predicate Arrives(s: State, t: int, now: int) {
    (t in s.receipts && t in s.tasks && s.receipts[t].state.Pending?) || t in TasksDueSet(s, now)
  }

  /** A tick at `now` would hand something to the run of `c` while that run tears down. */
  predicate HandsOver(s: State, c: Conversation, env: Env, now: int) {
    || (exists b | b in s.db.buckets :: BatchDue(s, c, env, now, b))
    || (exists t | t in s.tasks :: Deliverable(s, c, env, t) && Arrives(s, t, now))
  }

  // ---- a run whose memory was torn down ----

  /**
   The same state with its conversation marked mid-round: an aborted run can be torn down before its agent was ever
   free, which the invariant excludes only for a run between rounds.
   */
  function Busy(s: State, c: Conversation): State { SetMemory(s, c, Mem(s, c).(round := true)) }

  ghost predicate Handed(db: Tables, i: int, b: int, clock: int) {
    && i in db.invocations && b in db.buckets && db.buckets[b].state.Running? && b != db.invocations[i].bucket
    && db.buckets[b].deadline <= clock
  }

  /** Run `i` of `c` still counts as running; memory holds nothing but what was handed over since the teardown. */
  ghost predicate Emptied(s: State, c: Conversation, i: int, clock: int) {
    && Inv(Busy(s, c), clock) && RunsFor(s.db, c, i)
    && Mem(s, c) == IDLE.(pending := Mem(s, c).pending)
    && (forall e | e in Mem(s, c).pending :: Handed(s.db, i, e.bucket, clock))
  }

  lemma OneRun(s: State, c: Conversation, i: int, clock: int)
    requires Emptied(s, c, i, clock)
    ensures RunningOf(s.db, c) == Some(i) && RunsMatch(s.db) && Rows(s.db) && IdsBelow(s.db)
  {
    hide MemoryMatches, Injected, ClaimsLive, ReceiptsMatch, Windows, Rounds, OneCollecting, OpensOnce, QueueMatches,
      AttachedOpensNothing;
    assert RunsFor(s.db, c, i);
  }

  lemma TornEmptied(s: State, i: int, clock: int)
    requires Inv(s, clock) && RunningInvocation(s.db, i)
    ensures var c := s.db.invocations[i].conv; Emptied(Torn(s, c), c, i, clock)
  {
    hide Inv;
    var c := s.db.invocations[i].conv;
    assert RunsFor(s.db, c, i);
    ClearQueuesKeeps(s, c, clock);
    var t := ClearQueues(s, c);
    var n := IDLE.(round := true);
    RearrangeKeeps(t, c, n, clock) by { assert Waits(n) == multiset{}; }
    assert SetMemory(t, c, n) == Busy(Torn(s, c), c);
  }

  /** What decides about the due batches of `c`. */
  ghost predicate SameDue(s: State, r: State, c: Conversation) {
    && r.paused == s.paused && r.injections == s.injections
    && (forall b: int :: b in CollectingOf(r.db, c) <==> b in CollectingOf(s.db, c))
    && (forall b | b in CollectingOf(s.db, c) :: b in r.db.buckets && r.db.buckets[b] == s.db.buckets[b])
    && (ChatTaken(r.db, c) <==> ChatTaken(s.db, c))
  }

  // ---- timers ----

  lemma {:induction false} TimersEmptied(s: State, ts: seq<int>, now: int, c: Conversation, i: int, clock: int)
    requires Emptied(s, c, i, clock)
    ensures Emptied(TasksDueFold(s, ts, now), c, i, clock)
    ensures TasksDueFold(s, ts, now) == s.(tasks := TasksDueFold(s, ts, now).tasks, receipts := TasksDueFold(s, ts, now).receipts)
    decreases ts
  {
    hide Inv;
    if ts != [] {
      var r := EndTask(s, ts[0], Finished, Pending, now);
      EndTaskKeeps(Busy(s, c), ts[0], Finished, Pending, now, clock);
      assert Busy(r, c) == EndTask(Busy(s, c), ts[0], Finished, Pending, now);
      assert Emptied(r, c, i, clock);
      hide Emptied;
      TimersEmptied(r, ts[1..], now, c, i, clock);
    }
  }

  lemma {:induction false} TimersReceipts(s: State, ts: seq<int>, now: int, t: int)
    requires ReceiptsMatch(s.tasks, s.receipts, s.claims)
    ensures var r := TasksDueFold(s, ts, now);
            && r.tasks.Keys == s.tasks.Keys
            && (t in s.tasks ==> r.tasks[t].conv == s.tasks[t].conv && r.tasks[t].bypassBudget == s.tasks[t].bypassBudget)
            && ((t in r.receipts && r.receipts[t].state.Pending?)
                <==> (t in s.receipts && s.receipts[t].state.Pending?)
                     || (t in ts && t in s.tasks && s.tasks[t].state.Waiting?))
    decreases ts
  {
    if ts != [] {
      EndTaskReceipts(s, ts[0], Finished, Pending, now);
      TimersReceipts(EndTask(s, ts[0], Finished, Pending, now), ts[1..], now, t);
      assert t in ts <==> t == ts[0] || t in ts[1..];
    }
  }

  /** The receipts that are pending once the due timers ended. */
  lemma TimersPending(s: State, now: int, t: int)
    requires ReceiptsMatch(s.tasks, s.receipts, s.claims)
    ensures t in PendingSet(TimersDone(s, now)) <==> Arrives(s, t, now)
  {
    TimersReceipts(s, Ordered(TasksDueSet(s, now), Schedule(s)), now, t);
  }

  // ---- receipts ----

  /** One receipt was handled: a delivery adds one entry, and nothing that decides about due batches of `c` changed. */
  ghost predicate Delivered(s: State, r: State, c: Conversation, t: int, env: Env) {
    && r.tasks == s.tasks && SameDue(s, r, c)
    && (forall u | u in s.receipts && u != t :: u in r.receipts && r.receipts[u] == s.receipts[u])
    && Mem(r, c).pending
       == Mem(s, c).pending + (if Deliverable(s, c, env, t) then [Entry(s.db.nextBucket, Completion)] else [])
  }

  lemma DropEmptied(s: State, t: int, c: Conversation, i: int, clock: int)
    requires Emptied(s, c, i, clock) && t in s.receipts && s.receipts[t].state.Pending?
    ensures var r := SetReceipt(s, t, Suppressed); Emptied(r, c, i, clock) && SameDue(s, r, c)
  {
    hide Inv, CollectingOf, ChatTaken;
    SuppressPendingKeeps(Busy(s, c), t, clock);
    assert Busy(SetReceipt(s, t, Suppressed), c) == SetReceipt(Busy(s, c), t, Suppressed);
    CollectingStands(s.db, c);
  }

  lemma CollectingStands(db: Tables, c: Conversation)
    ensures forall b | b in CollectingOf(db, c) :: b in db.buckets && db.buckets[b].state.Collecting? && db.buckets[b].conv == c
  {
  }

  /** `d` takes one more entry; every other conversation keeps its memory, and `c` stays marked. */
  lemma BusyPush(s: State, r: State, c: Conversation, d: Conversation, b: int, kind: Kind)
    requires r.memory == QueueInjection(s, d, b, kind).memory
    ensures Mem(r, c) == if d == c then Mem(s, c).(pending := Mem(s, c).pending + [Entry(b, kind)]) else Mem(s, c)
    ensures Busy(r, c).memory == QueueInjection(Busy(s, c), d, b, kind).memory
  {
  }

  lemma DeliverEmptied(s: State, t: int, now: int, c: Conversation, i: int, d: Conversation, k: int, clock: int)
    requires Emptied(s, c, i, clock) && t in s.receipts && s.receipts[t].state.Pending? && RunsFor(s.db, d, k)
    requires (d == c ==> k == i) && now <= clock
    ensures var r := ClaimAttached(s, t, d, k, now);
            && Emptied(r, c, i, clock) && SameDue(s, r, c)
            && Mem(r, c).pending == Mem(s, c).pending + (if d == c then [Entry(s.db.nextBucket, Completion)] else [])
  {
    hide Inv, RunsMatch, IdsBelow, Rows, CollectingOf, ChatTaken, RunningOf, Handed, Mem, Attach, AddBucket;
    OneRun(s, c, i, clock);
    var r := ClaimAttached(s, t, d, k, now);
    ClaimAttachedKeeps(Busy(s, c), t, d, k, now, clock);
    AttachedSameTaken(s, t, now, c, d, k);
    AttachedHanded(s, t, now, d, k, i, Mem(s, c).pending, clock);
    AttachedBusy(s, t, now, c, d, k);
  }

  lemma AttachedBusy(s: State, t: int, now: int, c: Conversation, d: Conversation, k: int)
    requires t in s.receipts && k in s.db.invocations
    ensures var r := ClaimAttached(s, t, d, k, now);
            && Busy(r, c) == ClaimAttached(Busy(s, c), t, d, k, now)
            && r.paused == s.paused && r.injections == s.injections
            && Mem(r, c) == if d == c then Mem(s, c).(pending := Mem(s, c).pending + [Entry(s.db.nextBucket, Completion)])
                            else Mem(s, c)
  {
    hide Join, AddBucket;
    var r := ClaimAttached(s, t, d, k, now);
    BusyPush(s, r, c, d, s.db.nextBucket, Completion);
  }

  lemma AttachedHanded(s: State, t: int, now: int, d: Conversation, k: int, i: int, entries: seq<Entry>, clock: int)
    requires now <= clock
    requires Rows(s.db) && t in s.receipts && RunsFor(s.db, d, k) && i in s.db.invocations
    requires forall e | e in entries :: Handed(s.db, i, e.bucket, clock)
    ensures var r := ClaimAttached(s, t, d, k, now);
            && (forall e | e in entries + [Entry(s.db.nextBucket, Completion)] :: Handed(r.db, i, e.bucket, clock))
            && (forall j, e | RunsFor(s.db, e, j) :: RunsFor(r.db, e, j))
  {
    var r := ClaimAttached(s, t, d, k, now);
    assert s.db.invocations[i].bucket in s.db.invocations[i].batches;
    assert s.db.invocations[i].bucket in s.db.buckets && s.db.invocations[i].bucket < s.db.nextBucket;
    assert r.db.invocations[i].bucket == s.db.invocations[i].bucket;
    assert Handed(r.db, i, s.db.nextBucket, clock);
    forall e | e in entries ensures Handed(r.db, i, e.bucket, clock) {
      assert Handed(s.db, i, e.bucket, clock) && e.bucket < s.db.nextBucket;
    }
  }

  lemma AttachedSameTaken(s: State, t: int, now: int, c: Conversation, d: Conversation, k: int)
    requires Rows(s.db) && t in s.receipts && RunsFor(s.db, d, k)
    ensures var r := ClaimAttached(s, t, d, k, now);
            && (ChatTaken(r.db, c) <==> ChatTaken(s.db, c))
            && (forall b: int :: b in CollectingOf(r.db, c) <==> b in CollectingOf(s.db, c))
            && (forall b | b in CollectingOf(s.db, c) :: b in r.db.buckets && r.db.buckets[b] == s.db.buckets[b])
  {
    var r := ClaimAttached(s, t, d, k, now);
    assert r.db.invocations.Keys == s.db.invocations.Keys;
    assert forall j | j in s.db.invocations ::
        r.db.invocations[j].conv == s.db.invocations[j].conv && r.db.invocations[j].state == s.db.invocations[j].state;
  }

  lemma OpenElsewhereEmptied(s: State, t: int, now: int, c: Conversation, i: int, d: Conversation, clock: int)
    requires Emptied(s, c, i, clock) && t in s.receipts && s.receipts[t].state.Pending? && d.chat != c.chat
    ensures var r := ClaimQueued(s, t, d, now);
            Emptied(r, c, i, clock) && SameDue(s, r, c) && Mem(r, c) == Mem(s, c)
  {
    hide Inv, RunsMatch, IdsBelow, Rows, CollectingOf, ChatTaken, RunningOf, Handed, ClaimQueued;
    OneRun(s, c, i, clock);
    ClaimQueuedKeeps(Busy(s, c), t, d, now, clock);
    OpenedSame(s, t, now, c, d, i, Mem(s, c).pending, clock);
  }

  lemma OpenedSame(s: State, t: int, now: int, c: Conversation, d: Conversation, i: int, entries: seq<Entry>, clock: int)
    requires Rows(s.db) && t in s.receipts && d.chat != c.chat && RunsFor(s.db, c, i)
    requires forall e | e in entries :: Handed(s.db, i, e.bucket, clock)
    ensures var r := ClaimQueued(s, t, d, now);
            && SameDue(s, r, c) && RunsFor(r.db, c, i) && r.memory == s.memory
            && (forall e | e in entries :: Handed(r.db, i, e.bucket, clock))
            && Busy(r, c) == ClaimQueued(Busy(s, c), t, d, now)
  {
    var r := ClaimQueued(s, t, d, now);
    assert r.db.invocations.Keys == s.db.invocations.Keys + {s.db.nextInvocation};
    assert forall j | j in s.db.invocations :: r.db.invocations[j] == s.db.invocations[j];
  }

  /** What a tick decides about a receipt of `c`, and of any other conversation, while run `i` of `c` tears down. */
  lemma ReceiptDecided(s: State, t: int, env: Env, c: Conversation, i: int, clock: int)
    requires Emptied(s, c, i, clock) && t in s.receipts && t in s.tasks && s.receipts[t].state.Pending?
    ensures var action, d := ReceiptDecision(s, t, env), s.tasks[t].conv;
            && (d == c ==> (action.Deliver? <==> Deliverable(s, c, env, t)) && !action.OpenFor?)
            && (d == c && action.Deliver? ==> action.invocation == i)
            && (action.Deliver? ==> RunsFor(s.db, d, action.invocation))
            && (action.OpenFor? ==> d.chat != c.chat)
  {
    hide Inv, RunsMatch, IdsBelow, Rows, Handed, Busy;
    OneRun(s, c, i, clock);
  }

  lemma ReceiptStepEmptied(s: State, t: int, env: Env, now: int, c: Conversation, i: int, clock: int)
    requires now <= clock
    requires Emptied(s, c, i, clock) && t in s.receipts && t in s.tasks && s.receipts[t].state.Pending?
    ensures var r := ReceiptStep(s, t, env, now); Emptied(r, c, i, clock) && Delivered(s, r, c, t, env)
  {
    hide Emptied, Delivered, ReceiptDecision, Deliverable, ReceiptApply;
    ReceiptDecided(s, t, env, c, i, clock);
    DecidedEmptied(s, t, env, now, c, i, ReceiptDecision(s, t, env), clock);
  }

  lemma DecidedEmptied(s: State, t: int, env: Env, now: int, c: Conversation, i: int, action: ReceiptAction, clock: int)
    requires now <= clock
    requires Emptied(s, c, i, clock) && t in s.receipts && t in s.tasks && s.receipts[t].state.Pending?
    requires s.tasks[t].conv == c ==> (action.Deliver? <==> Deliverable(s, c, env, t)) && !action.OpenFor?
    requires s.tasks[t].conv == c && action.Deliver? ==> action.invocation == i
    requires action.Deliver? ==> RunsFor(s.db, s.tasks[t].conv, action.invocation)
    requires action.OpenFor? ==> s.tasks[t].conv.chat != c.chat
    ensures var r := ReceiptApply(s, t, action, now); Emptied(r, c, i, clock) && Delivered(s, r, c, t, env)
  {
    hide Emptied, ClaimAttached, ClaimQueued, ChatTaken, CollectingOf, SameDue, Deliverable;
    var d := s.tasks[t].conv;
    ClaimTouches(s, t, d, now);
    DueSame(s, c);
    OfConversation(s, c, env, t);
    match action
    case Drop => DropEmptied(s, t, c, i, clock);
    case Wait =>
    case Deliver(k) => DeliverEmptied(s, t, now, c, i, d, k, clock);
    case OpenFor => OpenElsewhereEmptied(s, t, now, c, i, d, clock);
  }

  lemma OfConversation(s: State, c: Conversation, env: Env, t: int)
    ensures Deliverable(s, c, env, t) ==> t in s.tasks && s.tasks[t].conv == c
  {
  }

  lemma DueSame(s: State, c: Conversation)
    ensures SameDue(s, s, c)
  {
  }

  lemma DueSameTwice(s: State, r: State, q: State, c: Conversation)
    requires SameDue(s, r, c) && SameDue(r, q, c)
    ensures SameDue(s, q, c)
  {
    hide CollectingOf, ChatTaken;
  }

  /** A claim touches no task and no other receipt. */
  lemma ClaimTouches(s: State, t: int, d: Conversation, now: int)
    requires t in s.receipts
    ensures var r := ClaimQueued(s, t, d, now);
            r.tasks == s.tasks && forall u | u in s.receipts && u != t :: u in r.receipts && r.receipts[u] == s.receipts[u]
    ensures forall k | k in s.db.invocations ::
              var r := ClaimAttached(s, t, d, k, now);
              r.tasks == s.tasks && forall u | u in s.receipts && u != t :: u in r.receipts && r.receipts[u] == s.receipts[u]
  {
  }

  lemma SameDeliverable(s: State, r: State, c: Conversation, env: Env)
    requires r.tasks == s.tasks && SameDue(s, r, c)
    ensures forall t: int :: Deliverable(r, c, env, t) <==> Deliverable(s, c, env, t)
  {
  }

  lemma {:induction false} ReceiptsEmptied(s: State, ts: seq<int>, env: Env, now: int, c: Conversation, i: int, clock: int)
    requires now <= clock
    requires Emptied(s, c, i, clock)
    requires forall t | t in ts :: t in s.receipts && t in s.tasks && s.receipts[t].state.Pending?
    requires forall x, y | 0 <= x < y < |ts| :: ts[x] != ts[y]
    ensures var r := ReceiptFold(s, ts, env, now);
            && Emptied(r, c, i, clock) && SameDue(s, r, c)
            && (Mem(r, c).pending != [] <==> Mem(s, c).pending != [] || exists t | t in ts :: Deliverable(s, c, env, t))
    decreases ts
  {
    hide Emptied, SameDue, Deliverable, ReceiptStep;
    DueSame(s, c);
    if ts != [] {
      TailOf(ts);
      var r := ReceiptStep(s, ts[0], env, now);
      ReceiptStepEmptied(s, ts[0], env, now, c, i, clock);
      assert forall t | t in ts[1..] :: t in ts && t != ts[0];
      ReceiptsEmptied(r, ts[1..], env, now, c, i, clock);
      DueSameTwice(s, r, ReceiptFold(r, ts[1..], env, now), c);
      SameDeliverable(s, r, c, env);
      assert forall t :: t in ts <==> t == ts[0] || t in ts[1..];
    }
  }

  // ---- due batches ----

  lemma SkipEmptied(s: State, b: int, c: Conversation, i: int, clock: int)
    requires Emptied(s, c, i, clock) && b in s.db.buckets && s.db.buckets[b].state.Collecting?
    ensures var r := s.(db := SetBucket(s.db, b, Closed(SkippedBudget))); Emptied(r, c, i, clock) && Mem(r, c) == Mem(s, c)
  {
    hide Inv;
    var r := s.(db := SetBucket(s.db, b, Closed(SkippedBudget)));
    SkipKeeps(Busy(s, c), b, SkippedBudget, clock);
    assert Busy(r, c) == Busy(s, c).(db := SetBucket(s.db, b, Closed(SkippedBudget)));
  }

  lemma HandEmptied(s: State, b: int, c: Conversation, i: int, clock: int)
    requires Emptied(s, c, i, clock) && b in s.db.buckets && s.db.buckets[b].state.Collecting? && s.db.buckets[b].conv == c
    requires s.db.buckets[b].deadline <= clock
    ensures var r := QueueInjection(s.(db := Attach(s.db, b, i)), c, b, Messages);
            Emptied(r, c, i, clock) && Mem(r, c).pending == Mem(s, c).pending + [Entry(b, Messages)]
  {
    hide Inv, RunsMatch, IdsBelow, Rows, Loose, Queueable, Unawaited, Attach, RunningOf, Handed, QueueInjection;
    OneRun(s, c, i, clock);
    var r := QueueInjection(s.(db := Attach(s.db, b, i)), c, b, Messages);
    CollectingAttachable(Busy(s, c), b, clock);
    AttachKeeps(Busy(s, c), b, i, Messages, clock);
    HandedMore(s, b, c, i, clock);
    HandBusy(s, b, c, i);
  }

  lemma HandBusy(s: State, b: int, c: Conversation, i: int)
    requires b in s.db.buckets && i in s.db.invocations
    ensures var r := QueueInjection(s.(db := Attach(s.db, b, i)), c, b, Messages);
            && r.db == Attach(s.db, b, i)
            && Busy(r, c) == QueueInjection(Busy(s, c).(db := Attach(s.db, b, i)), c, b, Messages)
            && Mem(r, c) == Mem(s, c).(pending := Mem(s, c).pending + [Entry(b, Messages)])
  {
    hide Attach;
    var r := QueueInjection(s.(db := Attach(s.db, b, i)), c, b, Messages);
    BusyPush(s, r, c, c, b, Messages);
  }

  lemma HandedMore(s: State, b: int, c: Conversation, i: int, clock: int)
    requires b in s.db.buckets && s.db.buckets[b].deadline <= clock
    requires Rows(s.db) && RunsFor(s.db, c, i) && b in s.db.buckets && s.db.buckets[b].state.Collecting?
    ensures RunsFor(Attach(s.db, b, i), c, i) && Handed(Attach(s.db, b, i), i, b, clock)
    ensures forall a: int :: Handed(s.db, i, a, clock) ==> Handed(Attach(s.db, b, i), i, a, clock)
  {
    assert s.db.invocations[i].bucket in s.db.invocations[i].batches;
  }

  /** A due batch of another conversation goes its own way. */
  lemma ElsewhereEmptied(s: State, b: int, env: Env, now: int, c: Conversation, i: int, clock: int)
    requires Emptied(s, c, i, clock) && b in s.db.buckets && s.db.buckets[b].state.Collecting? && s.db.buckets[b].conv != c
    ensures var r := DueStep(s, b, env, now); Emptied(r, c, i, clock) && Mem(r, c) == Mem(s, c)
  {
    hide Inv, RunsMatch, IdsBelow, Rows, RunningOf, Handed, DueStep, Mem;
    OneRun(s, c, i, clock);
    DueStepKeeps(Busy(s, c), b, env, now, clock);
    ElsewhereBusy(s, b, env, now, c, i, clock);
  }

  lemma ElsewhereBusy(s: State, b: int, env: Env, now: int, c: Conversation, i: int, clock: int)
    requires Rows(s.db) && RunsFor(s.db, c, i)
    requires b in s.db.buckets && s.db.buckets[b].state.Collecting? && s.db.buckets[b].conv != c
    ensures var r := DueStep(s, b, env, now);
            && Busy(r, c) == DueStep(Busy(s, c), b, env, now) && Mem(r, c) == Mem(s, c) && RunsFor(r.db, c, i)
            && (forall a: int :: Handed(s.db, i, a, clock) ==> Handed(r.db, i, a, clock))
  {
    var q, d := Busy(s, c), s.db.buckets[b].conv;
    var action := DueDecision(s, d, env);
    assert Mem(q, d) == Mem(s, d);
    assert action.Hand? ==> RunsFor(s.db, d, action.invocation);
    AppliedBusy(s, b, action, now, c, i, clock);
  }

  lemma AppliedBusy(s: State, b: int, action: DueAction, now: int, c: Conversation, i: int, clock: int)
    requires Rows(s.db) && RunsFor(s.db, c, i)
    requires b in s.db.buckets && s.db.buckets[b].state.Collecting? && s.db.buckets[b].conv != c
    requires action.Hand? ==> RunsFor(s.db, s.db.buckets[b].conv, action.invocation)
    ensures var r := DueApply(s, b, action, now);
            && Busy(r, c) == DueApply(Busy(s, c), b, action, now) && Mem(r, c) == Mem(s, c) && RunsFor(r.db, c, i)
            && (forall a: int :: Handed(s.db, i, a, clock) ==> Handed(r.db, i, a, clock))
  {
    hide Mem, Busy;
    var r := DueApply(s, b, action, now);
    AppliedHanded(s, b, action, now, c, i, clock);
    AppliedMemory(s, b, action, now, c);
  }

  lemma AppliedMemory(s: State, b: int, action: DueAction, now: int, c: Conversation)
    requires b in s.db.buckets && s.db.buckets[b].conv != c && (action.Hand? ==> action.invocation in s.db.invocations)
    ensures var r := DueApply(s, b, action, now);
            Busy(r, c) == DueApply(Busy(s, c), b, action, now) && Mem(r, c) == Mem(s, c)
  {
    hide Attach, Enqueue, Defer, SetBucket;
    var r := DueApply(s, b, action, now);
    if action.Hand? { BusyPush(s, r, c, s.db.buckets[b].conv, b, Messages); }
  }

  lemma AppliedHanded(s: State, b: int, action: DueAction, now: int, c: Conversation, i: int, clock: int)
    requires Rows(s.db) && RunsFor(s.db, c, i)
    requires b in s.db.buckets && s.db.buckets[b].state.Collecting?
    requires action.Hand? ==> action.invocation in s.db.invocations
    ensures var r := DueApply(s, b, action, now);
            RunsFor(r.db, c, i) && (forall a: int :: Handed(s.db, i, a, clock) ==> Handed(r.db, i, a, clock))
  {
    assert i < s.db.nextInvocation && s.db.invocations[i].bucket in s.db.invocations[i].batches;
    assert b != s.db.invocations[i].bucket;
  }

  lemma DueStepEmptied(s: State, b: int, env: Env, now: int, c: Conversation, i: int, clock: int)
    requires Emptied(s, c, i, clock) && b in s.db.buckets && s.db.buckets[b].state.Collecting?
    requires s.db.buckets[b].deadline <= clock
    ensures var r := DueStep(s, b, env, now);
            && Emptied(r, c, i, clock) && r.injections == s.injections
            && Mem(r, c).pending
               == Mem(s, c).pending
                  + (if s.db.buckets[b].conv == c && c.chat in env.configured && !env.sleeping then [Entry(b, Messages)] else [])
  {
    hide Emptied, DueDecision, SetBucket, Attach, QueueInjection, Enqueue, Defer;
    DueTells(s, b, env, now);
    if s.db.buckets[b].conv != c {
      ElsewhereEmptied(s, b, env, now, c, i, clock);
    } else {
      DueDecided(s, env, c, i, clock);
      if c.chat !in env.configured || env.sleeping { SkipEmptied(s, b, c, i, clock); } else { HandEmptied(s, b, c, i, clock); }
    }
  }

  lemma DueDecided(s: State, env: Env, c: Conversation, i: int, clock: int)
    requires Emptied(s, c, i, clock)
    ensures DueDecision(s, c, env) == if c.chat !in env.configured || env.sleeping then Skip else Hand(i)
  {
    hide Inv, RunsMatch, IdsBelow, Rows, Handed, Busy;
    OneRun(s, c, i, clock);
  }

  lemma DueTells(s: State, b: int, env: Env, now: int)
    requires b in s.db.buckets
    ensures DueStep(s, b, env, now).injections == s.injections
  {
  }

  lemma {:induction false} DueEmptied(s: State, due: seq<int>, env: Env, now: int, c: Conversation, i: int, clock: int)
    requires Emptied(s, c, i, clock) && AllCollecting(s.db, due)
    requires forall b | b in due :: s.db.buckets[b].deadline <= clock
    requires forall x, y | 0 <= x < y < |due| :: due[x] != due[y]
    ensures var r := DueFold(s, due, env, now);
            && Emptied(r, c, i, clock) && r.injections == s.injections
            && (Mem(r, c).pending != []
                <==> Mem(s, c).pending != []
                     || (c.chat in env.configured && !env.sleeping && exists b | b in due :: s.db.buckets[b].conv == c))
    decreases due
  {
    hide Emptied;
    if due != [] {
      TailOf(due);
      var r := DueStep(s, due[0], env, now);
      DueStepEmptied(s, due[0], env, now, c, i, clock);
      DueStepElsewhere(s, due[0], env, now);
      hide DueStep;
      DueEmptied(r, due[1..], env, now, c, i, clock);
      assert forall b :: b in due <==> b == due[0] || b in due[1..];
      assert forall b | b in due[1..] :: r.db.buckets[b] == s.db.buckets[b];
    }
  }

  // ---- the tick ----

  lemma TickEmptied(s: State, i: int, env: Env, now: int, clock: int)
    requires Inv(s, clock) && clock <= now && RunningInvocation(s.db, i)
    ensures var c := s.db.invocations[i].conv;
            var u := Tick(Torn(s, c), env, now);
            && Emptied(u, c, i, now) && u.injections == s.injections
            && (Mem(u, c).pending != [] <==> HandsOver(s, c, env, now))
  {
    hide Inv, Emptied, TasksDueFold, ReceiptFold, DueFold, Deliverable, CollectingOf, ChatTaken;
    var c := s.db.invocations[i].conv;
    var torn := Torn(s, c);
    ClockAdvances(s, clock, now);
    TornEmptied(s, i, now);
    var timed := TimersDone(torn, now);
    TimersEmptied(torn, Ordered(TasksDueSet(torn, now), Schedule(torn)), now, c, i, now);
    var received := ReceiptFold(timed, PendingReceipts(timed), env, now);
    ReceiptsEmptied(timed, PendingReceipts(timed), env, now, c, i, now);
    DueEmptied(received, Due(received, now), env, now, c, i, now);
    ReceiptsArrive(s, c, env, now, now);
    DueStays(s, received, c, now);
  }

  lemma ReceiptsArrive(s: State, c: Conversation, env: Env, now: int, clock: int)
    requires Inv(s, clock)
    ensures var timed := TimersDone(Torn(s, c), now);
            (exists t | t in PendingReceipts(timed) :: Deliverable(timed, c, env, t))
            <==> exists t | t in s.tasks :: Deliverable(s, c, env, t) && Arrives(s, t, now)
  {
    var torn := Torn(s, c);
    var timed := TimersDone(torn, now);
    assert ReceiptsMatch(torn.tasks, torn.receipts, torn.claims);
    hide Inv, ReceiptsMatch, TimersDone;
    forall t: int
      ensures t in PendingReceipts(timed) <==> Arrives(s, t, now)
      ensures Deliverable(timed, c, env, t) <==> Deliverable(s, c, env, t)
    {
      TimersPending(torn, now, t);
      TimersDeliver(torn, now, c, env, t);
      assert Arrives(torn, t, now) <==> Arrives(s, t, now);
      assert Deliverable(torn, c, env, t) <==> Deliverable(s, c, env, t);
    }
    hide Deliverable, Arrives, PendingReceipts;
    assert forall t :: Deliverable(s, c, env, t) ==> t in s.tasks by { forall t: int { OfConversation(s, c, env, t); } }
  }

  lemma TimersDeliver(s: State, now: int, c: Conversation, env: Env, t: int)
    requires ReceiptsMatch(s.tasks, s.receipts, s.claims)
    ensures Deliverable(TimersDone(s, now), c, env, t) <==> Deliverable(s, c, env, t)
  {
    var ts := Ordered(TasksDueSet(s, now), Schedule(s));
    TimersReceipts(s, ts, now, t);
    TimersOnly(s, ts, now);
    hide TasksDueFold, ReceiptsMatch;
  }

  /** Handling the receipts leaves the due batches of `c` what they were. */
  lemma DueStays(s: State, r: State, c: Conversation, now: int)
    requires SameDue(Torn(s, c), r, c)
    ensures (exists b | b in Due(r, now) :: r.db.buckets[b].conv == c)
            <==> exists b | b in s.db.buckets :: b in DueSet(s, now) && s.db.buckets[b].conv == c
  {
    forall b: int
      ensures b in DueSet(r, now) && r.db.buckets[b].conv == c <==> b in DueSet(s, now) && s.db.buckets[b].conv == c
    {
      assert b in CollectingOf(r.db, c) <==> b in CollectingOf(s.db, c);
    }
  }

  // ---- the terminal transaction ----

  /** Up to the memory of `c`, the transaction ends a run with an emptied memory like any other. */
  lemma TerminalFinishes(u: State, c: Conversation, i: int, final: Final, end: int, clock: int)
    requires Emptied(u, c, i, clock)
    ensures Finish(Busy(u, c), i, final, end) == Terminal(u, i, final, end).(memory := u.memory - {c})
  {
    hide Inv, Terminal, Finish, RunsMatch, Rows, IdsBelow, Handed;
    OneRun(u, c, i, clock);
    var q := Busy(u, c);
    HalvesMakeWhole(q, i, final, end);
    TerminalForgets(u, Torn(q, c).memory, i, final, end);
    assert Torn(q, c) == u.(memory := Torn(q, c).memory);
    assert q.memory - {c} == u.memory - {c};
  }

  lemma TerminalKeepsMemory(u: State, i: int, final: Final, end: int)
    requires i in u.db.invocations
    ensures Terminal(u, i, final, end).memory == u.memory
  {
  }

  lemma TerminalStops(u: State, c: Conversation, i: int, final: Final, end: int, clock: int)
    requires Emptied(u, c, i, clock)
    ensures !ChatRunning(Terminal(u, i, final, end).db, c.chat)
  {
    hide Inv, ReleaseFold, Seal, IdsBelow, UnreadBatches, Rows, Handed, Busy;
    OneRun(u, c, i, clock);
    var bs := UnreadBatches(u, i);
    UnreadFacts(u, i);
    ReleaseFoldEffect(u, i, bs);
    var r := ReleaseFold(u, i, bs);
    SealEffect(r, i, final, end);
    SealEnds(r, i, final, end);
    var t := Terminal(u, i, final, end);
    forall k | k in t.db.invocations && RunningInvocation(t.db, k) ensures t.db.invocations[k].conv.chat != c.chat {
      ReleaseStartsNothing(u, i, bs, k);
    }
  }

  lemma TerminalEnds(u: State, c: Conversation, i: int, final: Final, end: int, clock: int)
    requires Emptied(u, c, i, clock) && clock <= end
    ensures var t := Terminal(u, i, final, end);
            Inv(t.(memory := u.memory - {c}), end) && t.memory == u.memory && !ChatRunning(t.db, c.chat)
  {
    hide Inv, Terminal, Finish, Handed;
    TerminalFinishes(u, c, i, final, end, clock);
    FinishKeeps(Busy(u, c), i, final, end, clock);
    ClockAdvances(Finish(Busy(u, c), i, final, end), clock, end);
    TerminalKeepsMemory(u, i, final, end);
    TerminalStops(u, c, i, final, end, clock);
  }

  /** The invariant survives exactly when memory holds nothing. */
  lemma InvWithoutRun(t: State, c: Conversation, clock: int)
    requires Inv(t.(memory := t.memory - {c}), clock) && !ChatRunning(t.db, c.chat)
    requires Mem(t, c) == IDLE.(pending := Mem(t, c).pending)
    ensures Inv(t, clock) <==> Mem(t, c).pending == []
  {
    hide TablesMatch, Injected, ClaimsLive, ReceiptsMatch, Windows, Rounds, RunsFor, Waits, Delivers;
    var q := t.(memory := t.memory - {c});
    NoRun(t.db, c);
    RoundsWithout(t, c, clock);
    if Mem(t, c).pending == [] {
      IdleFaithful(c, t.db);
      assert forall d | d in t.memory :: d == c || (d in q.memory && q.memory[d] == t.memory[d]);
    } else {
      assert Mem(t, c) != IDLE && c in t.memory;
      assert !Faithful(t.memory[c], c, t.db);
    }
  }

  lemma NoRun(db: Tables, c: Conversation)
    requires !ChatRunning(db, c.chat)
    ensures forall k :: !RunsFor(db, c, k)
  {
  }

  lemma RoundsWithout(t: State, c: Conversation, clock: int)
    requires (forall k :: !RunsFor(t.db, c, k)) && Rounds(t.memory - {c}, t.freeAt, t.db, clock)
    ensures Rounds(t.memory, t.freeAt, t.db, clock)
  {
    forall i | RunningInvocation(t.db, i) ensures t.db.invocations[i].conv != c {
      assert !RunsFor(t.db, c, i);
    }
  }

  // ---- what is left behind ----

  lemma SealLeaves(r: State, i: int, final: Final, end: int, b: int)
    requires i in r.db.invocations && b in r.db.buckets && r.db.buckets[b].state.Queued?
    ensures b in Seal(r, i, final, end).db.buckets && Seal(r, i, final, end).db.buckets[b] == r.db.buckets[b]
  {
  }

  /** A batch handed over since the teardown is the opening batch of a new invocation, which can start at once. */
  lemma LeftBehind(u: State, c: Conversation, i: int, final: Final, end: int, clock: int, b: int)
    requires Emptied(u, c, i, clock) && clock <= end && Handed(u.db, i, b, clock) && Unread(u.db, i, b)
    ensures var t := Terminal(u, i, final, end);
            && b in u.db.buckets && b in t.db.buckets && t.db.buckets[b] == u.db.buckets[b].(state := BucketState.Queued)
            && exists j :: OpensNew(u.db, t.db, j, b)
                        && (t.db.invocations[j].conv == c ==> j in Launchable(t.db, end))
  {
    hide Inv, ReleaseFold, Seal, IdsBelow, UnreadBatches, Rows, Busy, ChatRunning, RunsMatch;
    OneRun(u, c, i, clock);
    var bs := UnreadBatches(u, i);
    UnreadFacts(u, i);
    UnreadListed(u, i, b);
    ReleaseFoldEffect(u, i, bs);
    var r := ReleaseFold(u, i, bs);
    var j :| OpensNew(u.db, r.db, j, b);
    SealEffect(r, i, final, end);
    SealLeaves(r, i, final, end, b);
    TerminalStops(u, c, i, final, end, clock);
    var t := Terminal(u, i, final, end);
    assert t.db.buckets[b] == u.db.buckets[b].(state := BucketState.Queued);
    assert OpensNew(u.db, t.db, j, b);
  }

  lemma PendingUnread(u: State, c: Conversation, i: int, clock: int, b: int)
    requires Emptied(u, c, i, clock) && b in Buckets(Mem(u, c).pending)
    ensures Unread(u.db, i, b) && Handed(u.db, i, b, clock)
  {
    hide TablesMatch, Injected, ClaimsLive, ReceiptsMatch, Windows, Rounds, Delivers, RunsFor, Handed;
    OneRun(u, c, i, clock);
    EntryOf(Mem(u, c).pending, b);
    var m := Mem(Busy(u, c), c);
    assert b in Waits(m) by { assert m.pending == Mem(u, c).pending; }
    assert Faithful(m, c, u.db);
    var k :| Delivers(u.db, c, k, b);
    DeliversUnread(u, c, i, k, b, clock);
  }

  lemma {:induction false} EntryOf(entries: seq<Entry>, b: int)
    requires b in Buckets(entries)
    ensures exists e :: e in entries && e.bucket == b
    decreases entries
  {
    assert entries[0] in entries;
    if entries[0].bucket != b {
      EntryOf(entries[1..], b);
      var e :| e in entries[1..] && e.bucket == b;
      assert e in entries;
    }
  }

  lemma DeliversUnread(u: State, c: Conversation, i: int, k: int, b: int, clock: int)
    requires RunsMatch(u.db) && RunsFor(u.db, c, i) && Delivers(u.db, c, k, b) && Handed(u.db, i, b, clock)
    ensures Unread(u.db, i, b)
  {
  }

  /** The batch a turn boundary would take first. */
  lemma FirstTaken(m: Memory)
    requires m.pending != []
    ensures Taken(m, true) != [] && Taken(m, true)[0] in m.pending && Taken(m, true)[0].bucket in Buckets(m.pending)
  {
    KindsPartition(m.pending);
    var first := Taken(m, true)[0];
    FirstOfKind(m.pending);
    InBuckets(m.pending, first);
  }

  lemma {:induction false} FirstOfKind(entries: seq<Entry>)
    ensures forall e | e in OfKind(entries, Messages) :: e in entries
    decreases entries
  {
    if entries != [] {
      FirstOfKind(entries[1..]);
      assert entries == [entries[0]] + entries[1..];
    }
  }

  lemma {:induction false} InBuckets(entries: seq<Entry>, e: Entry)
    requires e in entries
    ensures e.bucket in Buckets(entries)
    decreases entries
  {
    if entries[0] != e {
      assert entries == [entries[0]] + entries[1..];
      InBuckets(entries[1..], e);
    }
  }

  // ---- the two directions ----

  /**
   A tick between the two halves is harmless exactly when it hands nothing to the dying run: no due batch of the
   conversation is free to go, and no receipt of it is pending and deliverable.
   */
  lemma SplitEndKeeps(s: State, i: int, env: Env, now: int, final: Final, end: int, clock: int)
    requires Inv(s, clock) && clock <= now <= end && RunningInvocation(s.db, i)
    ensures var c := s.db.invocations[i].conv;
            Inv(SplitEnd(s, i, env, now, final, end), end) <==> !HandsOver(s, c, env, now)
  {
    hide Inv, Tick, Terminal, HandsOver, Handed, ChatRunning, Busy;
    var c := s.db.invocations[i].conv;
    var u := Tick(Torn(s, c), env, now);
    TickKeepsRuns(Torn(s, c), env, now);
    TickEmptied(s, i, env, now, clock);
    TerminalEnds(u, c, i, final, end, now);
    SameMemory(u, Terminal(u, i, final, end), c);
    InvWithoutRun(Terminal(u, i, final, end), c, end);
  }

  lemma SameMemory(u: State, t: State, c: Conversation)
    requires t.memory == u.memory
    ensures Mem(t, c) == Mem(u, c)
  {
  }

  /** Harmless means that no run from there on writes a batch twice. */
  lemma SplitEndHarmless(s: State, i: int, env: Env, now: int, final: Final, end: int, clock: int, steps: seq<Step>)
    requires Inv(s, clock) && clock <= now <= end && RunningInvocation(s.db, i)
    requires !HandsOver(s, s.db.invocations[i].conv, env, now)
    requires Legal(SplitEnd(s, i, env, now, final, end), steps, end)
    ensures var t := After(SplitEnd(s, i, env, now, final, end), steps, end);
            forall b: int :: !Twice(t.injections, b)
  {
    hide SplitEnd, HandsOver, Legal, After, TablesMatch, MemoryMatches, ClaimsLive, ReceiptsMatch, Windows, Rounds;
    SplitEndKeeps(s, i, env, now, final, end, clock);
    RunKeeps(SplitEnd(s, i, env, now, final, end), steps, end);
  }

  /** A run that ends with something in memory leaves a batch that some legal run writes twice. */
  lemma EndedTwice(u: State, c: Conversation, i: int, final: Final, end: int, clock: int)
    requires Emptied(u, c, i, clock) && clock <= end && Mem(u, c).pending != []
    ensures exists b: int :: CanRepeat(Terminal(u, i, final, end), b, end)
  {
    hide Inv, Terminal, Handed, ChatRunning, Busy, Taken, Launchable, CanRepeat;
    var t := Terminal(u, i, final, end);
    TerminalEnds(u, c, i, final, end, clock);
    SameMemory(u, t, c);
    FirstTaken(Mem(u, c));
    var b := Taken(Mem(u, c), true)[0].bucket;
    PendingUnread(u, c, i, clock, b);
    LeftBehind(u, c, i, final, end, clock, b);
    var j :| OpensNew(u.db, t.db, j, b) && (t.db.invocations[j].conv == c ==> j in Launchable(t.db, end));
    ReopenedHere(u, t, c, i, j, b, end, clock);
    LaunchableDue(t.db, j, end);
    var q := t.(memory := u.memory - {c});
    assert Shadows(t, q, c);
    Repeats(t, q, c, j, b, end);
  }

  lemma LaunchableDue(db: Tables, j: int, now: int)
    requires j in Launchable(db, now)
    ensures db.invocations[j].bucket in db.buckets && db.buckets[db.invocations[j].bucket].deadline <= now
  {
  }

  /**
   Otherwise memory still holds a batch the transaction re-queued, and from there a legal run, of launches, readings and
   ends, writes a batch twice.
   */
  lemma SplitEndInjectsTwice(s: State, i: int, env: Env, now: int, final: Final, end: int, clock: int)
    requires Inv(s, clock) && clock <= now <= end && RunningInvocation(s.db, i)
    requires HandsOver(s, s.db.invocations[i].conv, env, now)
    ensures exists b: int :: CanRepeat(SplitEnd(s, i, env, now, final, end), b, end)
  {
    hide Inv, Tick, Terminal, HandsOver, Emptied, CanRepeat;
    var c := s.db.invocations[i].conv;
    TickKeepsRuns(Torn(s, c), env, now);
    TickEmptied(s, i, env, now, clock);
    EndedTwice(Tick(Torn(s, c), env, now), c, i, final, end, now);
    var b: int :| CanRepeat(Terminal(Tick(Torn(s, c), env, now), i, final, end), b, end);
    assert SplitEnd(s, i, env, now, final, end) == Terminal(Tick(Torn(s, c), env, now), i, final, end);
  }

  /** The new invocation belongs to the batch's own conversation, and holds the batch. */
  lemma ReopenedHere(u: State, t: State, c: Conversation, i: int, j: int, b: int, end: int, clock: int)
    requires Inv(t.(memory := u.memory - {c}), end) && Opens(t.db, j, b)
    requires Emptied(u, c, i, clock) && Unread(u.db, i, b)
    requires b in u.db.buckets && b in t.db.buckets && t.db.buckets[b].conv == u.db.buckets[b].conv
    ensures b in t.db.buckets && b in t.db.invocations[j].batches && t.db.invocations[j].conv == c
  {
    OneRun(u, c, i, clock);
    assert b in u.db.buckets && u.db.buckets[b].conv == c;
    assert Rows(t.db);
  }
}
