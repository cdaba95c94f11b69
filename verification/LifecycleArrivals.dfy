/** What new work leaves in the tables: messages, tasks, timers, receipts and startup catch-up, row by row. */
module LifecycleArrivals {
  import opened Options
  import opened Ordering
  import opened LifecycleTables
  import opened LifecycleSteps
  import opened LifecycleInvariant
  import opened LifecycleQueries

  // ---- messages ----

  /**
   A message opens a batch exactly when an eligible human wrote it, no gate holds it back, its chat is not paused and its
   conversation is not collecting; the batch then collects for one window.
   */
  lemma MessageOpens(s: State, c: Conversation, eligible: bool, allowed: bool, now: int)
    ensures var opens := eligible && allowed && c.chat !in s.paused
                         && forall b | b in s.db.buckets && s.db.buckets[b].conv == c :: !s.db.buckets[b].state.Collecting?;
            var row := Bucket(c, BucketState.Collecting, now, now + s.window);
            Ingest(s, c, eligible, allowed, now)
            == if opens then s.(db := s.db.(buckets := s.db.buckets[s.db.nextBucket := row], nextBucket := s.db.nextBucket + 1))
               else s
  {
    if CollectingOf(s.db, c) != {} {
      NonEmpty(CollectingOf(s.db, c));
    } else {
      forall b | b in s.db.buckets && s.db.buckets[b].conv == c ensures !s.db.buckets[b].state.Collecting? {
        assert b !in CollectingOf(s.db, c);
      }
    }
  }

  // ---- tasks ----

  /** A task is created once, waiting. */
  lemma TaskStarts(s: State, t: int, c: Conversation, due: Option<int>, bypass: bool)
    ensures CreateTask(s, t, c, due, bypass) == if t in s.tasks then s else s.(tasks := s.tasks[t := Task(c, Waiting, due, bypass)])
  {
  }

  /** A waiting task that ends leaves one receipt: pending where its user is to hear of it, suppressed otherwise. */
  lemma TaskEnds(s: State, t: int, state: TaskState, notify: bool, now: int)
    ensures var waiting := t in s.tasks && s.tasks[t].state.Waiting?;
            var r := FinishTask(s, t, state, notify, now);
            && (!waiting ==> r == s)
            && (waiting ==>
                  && r == s.(tasks := s.tasks[t := s.tasks[t].(state := state)], receipts := r.receipts)
                  && t in r.receipts && r.receipts == s.receipts[t := r.receipts[t]]
                  && (r.receipts[t].state.Pending? <==> notify) && (r.receipts[t].state.Suppressed? <==> !notify)
                  && r.receipts[t].created == now && r.receipts[t].invocation.None? && r.receipts[t].bucket.None?)
  {
  }

  /** Cancelling ends a waiting task quietly, or silences a receipt nobody has claimed; it touches nothing else. */
  lemma TaskCancels(s: State, t: int, now: int)
    ensures var r := CancelTask(s, t, now);
            && r == s.(tasks := r.tasks, receipts := r.receipts)
            && (t in s.tasks && s.tasks[t].state.Waiting? ==>
                  r.tasks == s.tasks[t := s.tasks[t].(state := Cancelled)] && t in r.receipts && r.receipts[t].state.Suppressed?)
            && (!(t in s.tasks && s.tasks[t].state.Waiting?) ==> r.tasks == s.tasks)
            && (t in s.receipts && s.receipts[t].state.Pending? ==> t in r.receipts && r.receipts[t].state.Suppressed?)
            && (forall u | u in s.receipts && !s.receipts[u].state.Pending? && !(t in s.tasks && s.tasks[t].state.Waiting?) ::
                  u in r.receipts && r.receipts[u] == s.receipts[u])
            && (forall u | u in s.receipts && u != t :: u in r.receipts && r.receipts[u] == s.receipts[u])
  {
  }

  lemma {:induction false} TimerRows(s: State, ts: seq<int>, now: int, t: int)
    ensures var r := TasksDueFold(s, ts, now);
            var rings := t in ts && t in s.tasks && s.tasks[t].state.Waiting?;
            && r == s.(tasks := r.tasks, receipts := r.receipts)
            && (t in r.tasks <==> t in s.tasks)
            && (t in s.tasks ==> r.tasks[t] == if rings then s.tasks[t].(state := Finished) else s.tasks[t])
            && (t in r.receipts <==> t in s.receipts || rings)
            && (t in r.receipts ==>
                  r.receipts[t] == if rings then Receipt(Pending, None, None, now) else s.receipts[t])
    decreases ts
  {
    if ts != [] {
      TimerRows(EndTask(s, ts[0], Finished, Pending, now), ts[1..], now, t);
      assert t in ts <==> t == ts[0] || t in ts[1..];
    }
  }

  /** A tick ends exactly the waiting tasks whose time has come, each with a pending receipt. */
  lemma TimersRing(s: State, now: int, t: int)
    ensures var r := TimersDone(s, now);
            var rings := t in s.tasks && s.tasks[t].state.Waiting? && s.tasks[t].due.Some? && s.tasks[t].due.value <= now;
            && r == s.(tasks := r.tasks, receipts := r.receipts)
            && (t in r.tasks <==> t in s.tasks)
            && (t in s.tasks ==> r.tasks[t] == if rings then s.tasks[t].(state := Finished) else s.tasks[t])
            && (t in r.receipts <==> t in s.receipts || rings)
            && (t in r.receipts ==> r.receipts[t] == if rings then Receipt(Pending, None, None, now) else s.receipts[t])
  {
    TimerRows(s, Ordered(TasksDueSet(s, now), Schedule(s)), now, t);
    hide TasksDueFold;
  }

  // ---- receipts ----

  /** Nothing may be delivered to the conversation: its chat is not configured or paused, or its topic is not allowed. */
  predicate Blocked(s: State, c: Conversation, env: Env) {
    c.chat !in env.configured || c.chat in s.paused || (c.chat in env.topics && c.thread !in env.topics[c.chat])
  }

  /** What a tick makes of a pending receipt, read from the state before the tick. */
  datatype Fate = Dropped | Waits | ToRun | ToQueue

  function FateOf(s: State, t: int, env: Env): Fate
    requires t in s.tasks
  {
    var c := s.tasks[t].conv;
    if Blocked(s, c, env) then Dropped
    else if env.sleeping && !s.tasks[t].bypassBudget then Waits
    else if exists i | i in s.db.invocations :: RunsFor(s.db, c, i) then if Mem(s, c).closing then Waits else ToRun
    else if exists i | i in s.db.invocations :: RunningInvocation(s.db, i) && s.db.invocations[i].conv.chat == c.chat then Waits
    else ToQueue
  }

  /** The receipt is claimed through a new batch that the live run of `c` has still to read. */
  ghost predicate HandedToRun(s: State, r: State, c: Conversation, t: int, now: int) {
    t in r.receipts && r.receipts[t].state.Claimed? && r.receipts[t].invocation.Some? && r.receipts[t].bucket.Some?
    && var i, b := r.receipts[t].invocation.value, r.receipts[t].bucket.value;
       && b !in s.db.buckets && RunsFor(r.db, c, i) && b in r.db.invocations[i].batches && !r.db.invocations[i].batches[b]
       && b in r.db.buckets && r.db.buckets[b] == Bucket(c, BucketState.Running, now, now)
       && Entry(b, Completion) in Mem(r, c).pending
  }

  /** The receipt is claimed by a new queued invocation of `c` with a batch of its own. */
  ghost predicate GivenInvocation(s: State, r: State, c: Conversation, t: int, now: int) {
    t in r.receipts && r.receipts[t].state.Claimed? && r.receipts[t].invocation.Some? && r.receipts[t].bucket.Some?
    && var i, b := r.receipts[t].invocation.value, r.receipts[t].bucket.value;
       && b !in s.db.buckets && i !in s.db.invocations && Opens(r.db, i, b) && r.db.invocations[i].conv == c
       && b in r.db.buckets && r.db.buckets[b] == Bucket(c, BucketState.Queued, now, now)
  }

  ghost predicate Met(s: State, r: State, t: int, fate: Fate, now: int)
    requires t in s.tasks && t in s.receipts
  {
    match fate
    case Dropped => t in r.receipts && r.receipts[t] == s.receipts[t].(state := Suppressed)
    case Waits => t in r.receipts && r.receipts[t] == s.receipts[t]
    case ToRun => HandedToRun(s, r, s.tasks[t].conv, t, now)
    case ToQueue => GivenInvocation(s, r, s.tasks[t].conv, t, now)
  }

  /** Handling a receipt leaves what decides about the others, and what was handed out before. */
  ghost predicate Onward(s: State, r: State) {
    && r.tasks == s.tasks && r.paused == s.paused && r.db.nextBucket >= s.db.nextBucket
    && (forall b | b in s.db.buckets :: b in r.db.buckets && r.db.buckets[b] == s.db.buckets[b])
    && (forall i | i in s.db.invocations :: i in r.db.invocations
          && r.db.invocations[i] == s.db.invocations[i].(batches := r.db.invocations[i].batches)
          && (forall b | b in s.db.invocations[i].batches :: b in r.db.invocations[i].batches
                && r.db.invocations[i].batches[b] == s.db.invocations[i].batches[b]))
    && (forall i | RunningInvocation(r.db, i) :: i in s.db.invocations)
    && (forall c :: Mem(r, c).closing == Mem(s, c).closing)
    && (forall c, e | e in Mem(s, c).pending :: e in Mem(r, c).pending)
  }

  ghost predicate Numbered(db: Tables) {
    && (forall b | b in db.buckets :: b < db.nextBucket) && (forall i | i in db.invocations :: i < db.nextInvocation)
    && (forall i, b | i in db.invocations && b in db.invocations[i].batches :: b in db.buckets)
  }

  lemma OnwardTwice(s: State, r: State, u: State)
    requires Onward(s, r) && Onward(r, u)
    ensures Onward(s, u)
  {
  }

  lemma OnwardFate(s: State, r: State, t: int, env: Env)
    requires Onward(s, r) && t in s.tasks
    ensures FateOf(r, t, env) == FateOf(s, t, env)
  {
    var c := s.tasks[t].conv;
    assert forall i :: RunsFor(r.db, c, i) <==> RunsFor(s.db, c, i);
    assert forall i :: RunningInvocation(r.db, i) <==> RunningInvocation(s.db, i);
  }

  lemma ClaimAttachedOnward(s: State, t: int, c: Conversation, i: int, now: int)
    requires Numbered(s.db) && t in s.receipts && RunsFor(s.db, c, i)
    ensures var r := ClaimAttached(s, t, c, i, now); Onward(s, r) && Numbered(r.db) && HandedToRun(s, r, c, t, now)
  {
    assert s.db.nextBucket !in s.db.buckets;
    assert s.db.nextBucket !in s.db.invocations[i].batches;
    ClaimAttachedHands(s, t, c, i, now);
    hide HandedToRun;
  }

  lemma ClaimAttachedHands(s: State, t: int, c: Conversation, i: int, now: int)
    requires Numbered(s.db) && t in s.receipts && RunsFor(s.db, c, i)
    ensures HandedToRun(s, ClaimAttached(s, t, c, i, now), c, t, now)
  {
    var r := ClaimAttached(s, t, c, i, now);
    assert Mem(r, c).pending == Mem(s, c).pending + [Entry(s.db.nextBucket, Completion)];
  }

  lemma ClaimQueuedOnward(s: State, t: int, c: Conversation, now: int)
    requires Numbered(s.db) && t in s.receipts
    ensures var r := ClaimQueued(s, t, c, now); Onward(s, r) && Numbered(r.db) && GivenInvocation(s, r, c, t, now)
  {
  }

  lemma StepMeets(s: State, t: int, env: Env, now: int)
    requires Numbered(s.db) && t in s.receipts && t in s.tasks && s.receipts[t].state.Pending?
    ensures var r := ReceiptStep(s, t, env, now);
            && Onward(s, r) && Numbered(r.db) && Met(s, r, t, FateOf(s, t, env), now)
            && (forall u | u in s.receipts && u != t :: u in r.receipts && r.receipts[u] == s.receipts[u])
  {
    hide ClaimAttached, ClaimQueued, HandedToRun, GivenInvocation, Numbered;
    var c := s.tasks[t].conv;
    var action := ReceiptDecision(s, t, env);
    DecisionIsFate(s, t, env);
    ClaimsOne(s, t, c, now);
    match action
    case Drop =>
    case Wait =>
    case Deliver(i) => ClaimAttachedOnward(s, t, c, i, now);
    case OpenFor => ClaimQueuedOnward(s, t, c, now);
  }

  lemma ClaimsOne(s: State, t: int, c: Conversation, now: int)
    requires t in s.receipts
    ensures forall i, u | i in s.db.invocations && u in s.receipts && u != t ::
              u in ClaimAttached(s, t, c, i, now).receipts && ClaimAttached(s, t, c, i, now).receipts[u] == s.receipts[u]
    ensures forall u | u in s.receipts && u != t ::
              u in ClaimQueued(s, t, c, now).receipts && ClaimQueued(s, t, c, now).receipts[u] == s.receipts[u]
  {
  }

  lemma DecisionIsFate(s: State, t: int, env: Env)
    requires t in s.receipts && t in s.tasks && s.receipts[t].state.Pending?
    ensures var action, fate := ReceiptDecision(s, t, env), FateOf(s, t, env);
            && (action.Drop? <==> fate.Dropped?) && (action.Wait? <==> fate.Waits?) && (action.Deliver? <==> fate.ToRun?)
            && (action.OpenFor? <==> fate.ToQueue?)
            && (action.Deliver? ==> RunsFor(s.db, s.tasks[t].conv, action.invocation))
  {
  }

  /** What was handed out stays handed out. */
  lemma MetStays(s: State, r: State, u: State, t: int, fate: Fate, now: int)
    requires t in s.tasks && t in s.receipts && Met(s, r, t, fate, now) && Onward(r, u)
    requires t in r.receipts ==> t in u.receipts && u.receipts[t] == r.receipts[t]
    ensures Met(s, u, t, fate, now)
  {
  }

  lemma MetEarlier(s: State, r: State, u: State, t: int, fate: Fate, now: int)
    requires t in s.tasks && t in s.receipts && Onward(s, r) && t in r.receipts && r.receipts[t] == s.receipts[t]
    requires Met(r, u, t, fate, now)
    ensures Met(s, u, t, fate, now)
  {
  }

  lemma {:induction false} FoldMeets(s: State, ts: seq<int>, env: Env, now: int)
    requires Numbered(s.db)
    requires forall t | t in ts :: t in s.receipts && t in s.tasks && s.receipts[t].state.Pending?
    requires forall x, y | 0 <= x < y < |ts| :: ts[x] != ts[y]
    ensures var r := ReceiptFold(s, ts, env, now);
            && Onward(s, r)
            && (forall t | t in ts :: Met(s, r, t, FateOf(s, t, env), now))
            && (forall u | u in s.receipts && u !in ts :: u in r.receipts && r.receipts[u] == s.receipts[u])
    decreases ts
  {
    hide Onward, Met, Numbered, FateOf, ReceiptStep;
    OnwardSelf(s);
    if ts != [] {
      TailOf(ts);
      var r := ReceiptStep(s, ts[0], env, now);
      StepMeets(s, ts[0], env, now);
      StepTasks(s, ts[0], env, now);
      assert forall t :: t in ts <==> t == ts[0] || t in ts[1..];
      FoldMeets(r, ts[1..], env, now);
      var u := ReceiptFold(r, ts[1..], env, now);
      OnwardTwice(s, r, u);
      MetStays(s, r, u, ts[0], FateOf(s, ts[0], env), now);
      forall t | t in ts[1..] ensures Met(s, u, t, FateOf(s, t, env), now) {
        OnwardFate(s, r, t, env);
        MetEarlier(s, r, u, t, FateOf(s, t, env), now);
      }
    }
  }

  lemma StepTasks(s: State, t: int, env: Env, now: int)
    requires t in s.receipts && t in s.tasks
    ensures ReceiptStep(s, t, env, now).tasks == s.tasks
  {
  }

  lemma OnwardSelf(s: State)
    ensures Onward(s, s)
  {
  }

  /**
   A tick drops every pending receipt whose conversation is blocked, claims the others for the live run of their
   conversation or for an invocation of their own, and leaves those that have to wait: for sleep, for a run that is
   closing, or for another run in their chat. What the other receipts are makes no difference.
   */
  lemma ReceiptsMeet(s: State, env: Env, now: int, clock: int)
    requires Inv(s, clock)
    ensures var r := ReceiptFold(s, PendingReceipts(s), env, now);
            && (forall t | t in s.receipts && s.receipts[t].state.Pending? && t in s.tasks :: Met(s, r, t, FateOf(s, t, env), now))
            && (forall t | t in s.receipts && !s.receipts[t].state.Pending? :: t in r.receipts && r.receipts[t] == s.receipts[t])
            && r == s.(db := r.db, receipts := r.receipts, memory := r.memory, claims := r.claims)
  {
    FoldTouches(s, PendingReceipts(s), env, now);
    RowsNumbered(s, clock);
    hide Inv, Met, Onward, FateOf, Numbered;
    FoldMeets(s, PendingReceipts(s), env, now);
  }

  lemma RowsNumbered(s: State, clock: int)
    requires Inv(s, clock)
    ensures Numbered(s.db)
  {
    assert Rows(s.db);
    hide Inv;
  }

  lemma {:induction false} FoldTouches(s: State, ts: seq<int>, env: Env, now: int)
    requires forall t | t in ts :: t in s.receipts && t in s.tasks
    ensures var r := ReceiptFold(s, ts, env, now);
            r == s.(db := r.db, receipts := r.receipts, memory := r.memory, claims := r.claims)
    decreases ts
  {
    if ts != [] {
      StepTouches(s, ts[0], env, now);
      hide ReceiptStep;
      FoldTouches(ReceiptStep(s, ts[0], env, now), ts[1..], env, now);
    }
  }

  lemma StepTouches(s: State, t: int, env: Env, now: int)
    requires t in s.receipts && t in s.tasks
    ensures var r := ReceiptStep(s, t, env, now);
            r == s.(db := r.db, receipts := r.receipts, memory := r.memory, claims := r.claims)
  {
    hide ReceiptDecision, AddInvocation, AddBucket, Join;
  }

  // ---- startup catch-up ----

  /** Nothing keeps the conversation from being caught up. */
  predicate Open(s: State, c: Conversation, gated: set<Conversation>, env: Env) {
    c.chat in env.configured && c.chat !in s.paused && !env.sleeping && c !in gated
  }

  /** The batch of one conversation, and its invocation where it is open. */
  ghost predicate CaughtUp(r: State, b: int, c: Conversation, open: bool, startedAt: int, now: int) {
    && b in r.db.buckets && r.db.buckets[b] == Bucket(c, if open then BucketState.Queued else Closed(SkippedBudget), startedAt, now)
    && (open ==> exists i :: Opens(r.db, i, b) && r.db.invocations[i].conv == c && r.db.invocations[i].batches == map[b := false])
    && (!open ==> forall i | i in r.db.invocations :: r.db.invocations[i].bucket != b)
  }

  /** Old rows stay as they are, and new ones are numbered on. */
  ghost predicate Adds(s: State, r: State, n: nat) {
    && r.db.nextBucket == s.db.nextBucket + n && r.db.nextInvocation >= s.db.nextInvocation
    && (forall b | b in s.db.buckets :: b in r.db.buckets && r.db.buckets[b] == s.db.buckets[b])
    && (forall i | i in s.db.invocations :: i in r.db.invocations && r.db.invocations[i] == s.db.invocations[i])
    && (forall i | i in r.db.invocations && i !in s.db.invocations :: r.db.invocations[i].bucket >= s.db.nextBucket)
    && r.paused == s.paused && r == s.(db := r.db)
  }

  ghost predicate Referring(db: Tables) {
    Numbered(db) && forall i | i in db.invocations :: db.invocations[i].bucket < db.nextBucket
  }

  lemma CatchUpOneRow(s: State, c: Conversation, gated: set<Conversation>, env: Env, startedAt: int, now: int)
    requires Referring(s.db)
    ensures var r := CatchUpOne(s, c, c in gated, env, startedAt, now);
            Adds(s, r, 1) && Referring(r.db) && CaughtUp(r, s.db.nextBucket, c, Open(s, c, gated, env), startedAt, now)
  {
    var r := CatchUpOne(s, c, c in gated, env, startedAt, now);
    if Open(s, c, gated, env) { assert Opens(r.db, s.db.nextInvocation, s.db.nextBucket); }
  }

  lemma CaughtUpStays(r: State, u: State, n: nat, b: int, c: Conversation, open: bool, startedAt: int, now: int)
    requires CaughtUp(r, b, c, open, startedAt, now) && Adds(r, u, n) && b < r.db.nextBucket
    ensures CaughtUp(u, b, c, open, startedAt, now)
  {
    if open {
      var i :| Opens(r.db, i, b) && r.db.invocations[i].conv == c && r.db.invocations[i].batches == map[b := false];
      assert Opens(u.db, i, b);
    }
  }

  lemma AddsTwice(s: State, r: State, u: State, m: nat, n: nat)
    requires Adds(s, r, m) && Adds(r, u, n)
    ensures Adds(s, u, m + n)
  {
  }

  lemma OpenSame(s: State, r: State, n: nat, c: Conversation, gated: set<Conversation>, env: Env)
    requires Adds(s, r, n)
    ensures Open(r, c, gated, env) <==> Open(s, c, gated, env)
  {
  }

  lemma {:induction false} CatchUpFoldRows(
    s: State, cs: seq<Conversation>, gated: set<Conversation>, env: Env, startedAt: int, now: int)
    requires Referring(s.db)
    ensures var r := CatchUp(s, cs, gated, env, startedAt, now);
            && Adds(s, r, |cs|)
            && (forall k: nat | k < |cs| ::
                  CaughtUp(r, s.db.nextBucket + k, cs[k], Open(s, cs[k], gated, env), startedAt, now))
    decreases cs
  {
    hide CatchUpOne, CaughtUp, Open, Referring;
    if cs != [] {
      var one := CatchUpOne(s, cs[0], cs[0] in gated, env, startedAt, now);
      CatchUpOneRow(s, cs[0], gated, env, startedAt, now);
      CatchUpFoldRows(one, cs[1..], gated, env, startedAt, now);
      var r := CatchUp(one, cs[1..], gated, env, startedAt, now);
      AddsTwice(s, one, r, 1, |cs| - 1);
      NextIs(s, one);
      forall k: nat | k < |cs|
        ensures CaughtUp(r, s.db.nextBucket + k, cs[k], Open(s, cs[k], gated, env), startedAt, now)
      {
        if k == 0 {
          CaughtUpStays(one, r, |cs| - 1, s.db.nextBucket, cs[0], Open(s, cs[0], gated, env), startedAt, now);
        } else {
          OpenSame(s, one, 1, cs[k], gated, env);
          assert cs[1..][k - 1] == cs[k];
        }
      }
      hide Adds;
    }
  }

  lemma NextIs(s: State, r: State)
    requires Adds(s, r, 1)
    ensures r.db.nextBucket == s.db.nextBucket + 1
  {
  }

  /**
   Startup catch-up gives every conversation one batch, as old as the process, and queues it exactly where the chat is
   configured, awake, not paused and not gated; the others are skipped.
   */
  lemma CatchUpRows(s: State, cs: seq<Conversation>, gated: set<Conversation>, env: Env, startedAt: int, now: int, clock: int)
    requires Inv(s, clock)
    ensures var r := CatchUp(s, cs, gated, env, startedAt, now);
            && Adds(s, r, |cs|)
            && (forall k: nat | k < |cs| ::
                  CaughtUp(r, s.db.nextBucket + k, cs[k], Open(s, cs[k], gated, env), startedAt, now))
  {
    RowsRefer(s, clock);
    hide Inv, Adds, CaughtUp, Open;
    CatchUpFoldRows(s, cs, gated, env, startedAt, now);
  }

  lemma RowsRefer(s: State, clock: int)
    requires Inv(s, clock)
    ensures Referring(s.db)
  {
    RowsNumbered(s, clock);
    assert Rows(s.db);
    hide Inv, Numbered;
    forall i | i in s.db.invocations ensures s.db.invocations[i].bucket < s.db.nextBucket {
      assert s.db.invocations[i].bucket in s.db.invocations[i].batches;
      assert s.db.invocations[i].bucket in s.db.buckets;
    }
  }
}
