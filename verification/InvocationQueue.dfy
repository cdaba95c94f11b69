/**
 The services that drive the lifecycle, in the source's own form: rows and flags updated in place,
 one loop per query.  Each method is tied to the step it performs.
 */
module InvocationQueue {
  import opened Options
  import opened Ordering
  import opened LifecycleTables
  import opened LifecycleSteps
  import opened LifecycleQueries

  /** The SQLite rows and the per-conversation memory the services share. */
  class Store {
    const window: nat
    var db: Tables
    var tasks: map<int, Task>
    var receipts: map<int, Receipt>
    var paused: set<int>
    var memory: map<Conversation, Memory>
    ghost var injections: seq<int>
    ghost var claims: multiset<int>
    ghost var freeAt: map<Conversation, int>

    ghost function View(): State
      reads this
    {
      State(window, db, tasks, receipts, paused, memory, injections, claims, freeAt)
    }

    constructor (window: nat)
      ensures View() == State(window, Tables(map[], map[], 1, 1), map[], map[], {}, map[], [], multiset{}, map[])
    {
      this.window := window;
      db := Tables(map[], map[], 1, 1);
      tasks, receipts, paused, memory := map[], map[], {}, map[];
      injections, claims, freeAt := [], multiset{}, map[];
    }

    function Mem(c: Conversation): Memory
      reads this
    {
      if c in memory then memory[c] else IDLE
    }

    method QueueInjection(c: Conversation, b: int, kind: Kind)
      modifies this`memory
      ensures View() == LifecycleSteps.QueueInjection(old(View()), c, b, kind)
    {
      var m := Mem(c);
      memory := memory[c := m.(pending := m.pending + [Entry(b, kind)])];
    }
  }

  class InvocationQueueService {
    const store: Store

    constructor (store: Store)
      ensures this.store == store
    {
      this.store := store;
    }

    // ---- due batches ----

    /** Moves one collecting batch into a running invocation. */
    method AttachBucketToInvocation(i: int, b: int)
      requires b in store.db.buckets && i in store.db.invocations && store.db.buckets[b].state.Collecting?
      modifies store`db
      ensures store.View() == old(store.View()).(db := Attach(old(store.db), b, i))
    {
      var row := store.db.buckets[b];
      store.db := store.db.(buckets := store.db.buckets[b := row.(state := BucketState.Running)]);
      var run := store.db.invocations[i];
      store.db := store.db.(invocations := store.db.invocations[i := run.(batches := run.batches[b := false])]);
    }

    method MarkBucketSkipped(b: int)
      requires b in store.db.buckets
      modifies store`db
      ensures store.View() == old(store.View()).(db := SetBucket(old(store.db), b, Closed(SkippedBudget)))
    {
      store.db := store.db.(buckets := store.db.buckets[b := store.db.buckets[b].(state := Closed(SkippedBudget))]);
    }

    method InsertInvocation(b: int) returns (i: int)
      requires b in store.db.buckets
      modifies store`db
      ensures i == old(store.db.nextInvocation)
      ensures store.View() == old(store.View()).(db := AddInvocation(old(store.db), b))
    {
      i := store.db.nextInvocation;
      var row := Invocation(b, store.db.buckets[b].conv, InvocationState.Queued, 0, false, map[]);
      store.db := store.db.(invocations := store.db.invocations[i := row], nextInvocation := i + 1);
      store.db := store.db.(invocations := store.db.invocations[i := row.(batches := row.batches[b := false])]);
    }

    method DeferBucket(b: int, now: int)
      requires b in store.db.buckets
      modifies store`db
      ensures store.View() == old(store.View()).(db := Defer(old(store.db), b, now + Max(store.window, MINIMUM_DEFER)))
    {
      var atLeast := now + (if store.window >= MINIMUM_DEFER then store.window else MINIMUM_DEFER);
      var row := store.db.buckets[b];
      if row.state.Collecting? && row.deadline < atLeast {
        store.db := store.db.(buckets := store.db.buckets[b := row.(deadline := atLeast)]);
      }
    }

    /** False when the run cannot take the batch. */
    method AttachBucket(b: int, i: int, env: Env) returns (taken: bool)
      requires b in store.db.buckets && i in store.db.invocations && store.db.buckets[b].state.Collecting?
      modifies store`db, store`memory
      ensures taken == !old(Mem(store.View(), store.db.buckets[b].conv).closing)
      ensures var s, c := old(store.View()), old(store.db.buckets[b].conv);
              store.View() == DueApply(s, b, if !taken then Leave
                                             else if c.chat !in env.configured || env.sleeping then Skip else Hand(i), 0)
    {
      var c := store.db.buckets[b].conv;
      if store.Mem(c).closing {
        return false;
      }
      if c.chat !in env.configured {
        MarkBucketSkipped(b);
        return true;
      }
      if env.sleeping {
        MarkBucketSkipped(b);
        return true;
      }
      AttachBucketToInvocation(i, b);
      store.QueueInjection(c, b, Messages);
      return true;
    }

    method QueueBucket(b: int, env: Env) returns (created: Option<int>)
      requires b in store.db.buckets && store.db.buckets[b].state.Collecting?
      modifies store`db
      ensures var s, c := old(store.View()), old(store.db.buckets[b].conv);
              var skipped := c.chat in s.paused || c.chat !in env.configured || env.sleeping;
              && created == (if skipped then None else Some(s.db.nextInvocation))
              && store.View() == DueApply(s, b, if skipped then Skip else Open, 0)
    {
      var c := store.db.buckets[b].conv;
      if c.chat in store.paused {
        MarkBucketSkipped(b);
        return None;
      }
      if c.chat !in env.configured {
        MarkBucketSkipped(b);
        return None;
      }
      if env.sleeping {
        MarkBucketSkipped(b);
        return None;
      }
      store.db := store.db.(buckets := store.db.buckets[b := store.db.buckets[b].(state := BucketState.Queued)]);
      var i := InsertInvocation(b);
      return Some(i);
    }

    /** The body of the loop below. */
    method HandleDue(b: int, env: Env, now: int) returns (created: Option<int>)
      requires b in store.db.buckets && store.db.buckets[b].state.Collecting?
      modifies store`db, store`memory
      ensures store.View() == DueStep(old(store.View()), b, env, now)
      ensures created.Some? ==> QueuedInvocation(store.db, created.value) && store.db.invocations[created.value].bucket == b
    {
      var c := store.db.buckets[b].conv;
      var running := RunningOf(store.db, c);
      if running.Some? {
        if store.Mem(c).round {
          DeferBucket(b, now);
          return None;
        }
        var taken := AttachBucket(b, running.value, env);
        return None;
      }
      created := QueueBucket(b, env);
    }

    /** Hands every due batch to its conversation's run, or opens an invocation with it. */
    method ProcessDue(env: Env, now: int) returns (created: seq<int>)
      modifies store`db, store`memory
      ensures store.View() == LifecycleSteps.ProcessDue(old(store.View()), env, now)
    {
      ghost var s := store.View();
      var rows := set b | b in store.db.buckets && store.db.buckets[b].state.Collecting?
                          && store.db.buckets[b].deadline <= now && store.db.buckets[b].conv.chat !in store.paused
                          && !ChatTaken(store.db, store.db.buckets[b].conv);
      assert rows == DueSet(s, now);
      var due := Ordered(rows, Deadline(store.db));
      created := [];
      hide ChatTaken, DueStep, DueFold, RunningOf, Ordered;
      for k := 0 to |due|
        invariant AllCollecting(store.db, due[k..])
        invariant DueFold(store.View(), due[k..], env, now) == LifecycleSteps.ProcessDue(s, env, now)
      {
        DueFoldStep(store.View(), due, k, env, now);
        var i := HandleDue(due[k], env, now);
        if i.Some? { created := created + [i.value]; }
      }
      DueFoldEnd(store.View(), env, now);
    }

    // ---- receipts ----

    /** Opens an invocation for one receipt, or hands it to the run of its conversation. */
    method InsertReceiptInvocation(t: int, now: int, running: Option<int>) returns (i: int)
      requires t in store.receipts && t in store.tasks
      requires running.Some? ==> running.value in store.db.invocations
      modifies store`db, store`receipts, store`memory, store`claims
      ensures var s := old(store.View());
              store.View() == ReceiptApply(s, t, if running.Some? then Deliver(running.value) else OpenFor, now)
    {
      var c := store.tasks[t].conv;
      var b := store.db.nextBucket;
      var row := Bucket(c, if running.None? then BucketState.Queued else BucketState.Running, now, now);
      store.db := store.db.(buckets := store.db.buckets[b := row], nextBucket := b + 1);
      if running.Some? {
        i := running.value;
        var run := store.db.invocations[i];
        store.db := store.db.(invocations := store.db.invocations[i := run.(batches := run.batches[b := false])]);
      } else {
        i := InsertInvocation(b);
      }
      store.receipts := store.receipts[t := store.receipts[t].(state := Claimed, invocation := Some(i), bucket := Some(b))];
      store.claims := store.claims + multiset{t};
      if running.Some? {
        store.QueueInjection(c, b, Completion);
      }
    }

    method HandleReceipt(t: int, env: Env, now: int)
      requires t in store.receipts && t in store.tasks
      modifies store`db, store`receipts, store`memory, store`claims
      ensures store.View() == ReceiptStep(old(store.View()), t, env, now)
    {
      hide ReceiptApply, RunningOf, ChatRunning;
      ReceiptCases(store.View(), t, env, now);
      if !store.receipts[t].state.Pending? {
        return;
      }
      var c := store.tasks[t].conv;
      if c.chat !in env.configured || c.chat in store.paused
         || (c.chat in env.topics && c.thread !in env.topics[c.chat])
      {
        store.receipts := store.receipts[t := store.receipts[t].(state := Suppressed)];
        return;
      }
      if env.sleeping && !store.tasks[t].bypassBudget {
        return;
      }
      var running := RunningOf(store.db, c);
      if running.Some? {
        if store.Mem(c).closing {
          return;
        }
      } else if ChatRunning(store.db, c.chat) {
        return;
      }
      var i := InsertReceiptInvocation(t, now, running);
    }

    /** Ends every due timer, then claims each receipt that can be delivered now. */
    method ProcessTasksDue(env: Env, now: int)
      modifies store`db, store`tasks, store`receipts, store`memory, store`claims
      ensures var s := TimersDone(old(store.View()), now);
              store.View() == ReceiptFold(s, PendingReceipts(s), env, now)
    {
      hide TimersDone, ReceiptFold, PendingReceipts;
      EndDueTimers(now);
      ClaimReceipts(env, now);
    }

    method PendingRows() returns (pending: seq<int>)
      ensures pending == PendingReceipts(store.View())
    {
      var receipts, tasks := store.receipts, store.tasks;
      var rows := set t | t in receipts && t in tasks && receipts[t].state.Pending?;
      var rank := (t: int) => if t in receipts then receipts[t].created else 0;
      assert rows == PendingSet(store.View());
      SameRank(rows, rank, Created(store.View()));
      pending := Ordered(rows, rank);
    }

    method ClaimReceipts(env: Env, now: int)
      modifies store`db, store`receipts, store`memory, store`claims
      ensures var s := old(store.View());
              store.View() == ReceiptFold(s, PendingReceipts(s), env, now)
    {
      ghost var s := store.View();
      var pending := PendingRows();
      hide ReceiptStep, Ordered, Created, RunningOf, ChatRunning;
      for k := 0 to |pending|
        invariant forall t | t in pending[k..] :: t in store.receipts && t in store.tasks
        invariant ReceiptFold(store.View(), pending[k..], env, now) == ReceiptFold(s, pending, env, now)
      {
        assert pending[k] in pending[k..] && forall t | t in pending[k + 1..] :: t in pending[k..];
        assert pending[k..][0] == pending[k] && pending[k..][1..] == pending[k + 1..];
        HandleReceipt(pending[k], env, now);
      }
    }

    /** `LongTaskService.processDue`: every due task finishes with a pending receipt. */
    method EndDueTimers(now: int)
      modifies store`tasks, store`receipts
      ensures store.View() == TimersDone(old(store.View()), now)
    {
      ghost var s := store.View();
      var tasks := store.tasks;
      var rows := set t | t in tasks && tasks[t].state.Waiting? && tasks[t].due.Some? && tasks[t].due.value <= now;
      assert rows == TasksDueSet(s, now);
      var due := Ordered(rows, (t: int) => if t in tasks && tasks[t].due.Some? then tasks[t].due.value else 0);
      SameRank(rows, (t: int) => if t in tasks && tasks[t].due.Some? then tasks[t].due.value else 0, Schedule(s));
      hide Ordered;
      for k := 0 to |due|
        invariant TasksDueFold(store.View(), due[k..], now) == TasksDueFold(s, due, now)
      {
        assert due[k..][0] == due[k] && due[k..][1..] == due[k + 1..];
        EndTask(due[k], Finished, Pending, now);
      }
    }

    method EndTask(t: int, state: TaskState, receipt: ReceiptState, now: int)
      modifies store`tasks, store`receipts
      ensures store.View() == LifecycleSteps.EndTask(old(store.View()), t, state, receipt, now)
    {
      if t in store.tasks && store.tasks[t].state.Waiting? {
        store.tasks := store.tasks[t := store.tasks[t].(state := state)];
        store.receipts := store.receipts[t := Receipt(receipt, None, None, now)];
      }
    }

    // ---- queued work that is dropped ----

    /** `UPDATE buckets` for the opening batch of `i` and every batch joined to it. */
    method CloseBatches(i: int, final: Final)
      requires i in store.db.invocations
      modifies store`db
      ensures store.db == old(store.db).(buckets := map b | b in old(store.db.buckets) ::
                if b == old(store.db).invocations[i].bucket || b in old(store.db).invocations[i].batches
                then old(store.db).buckets[b].(state := Closed(final)) else old(store.db).buckets[b])
    {
      var db := store.db;
      store.db := db.(buckets := map b | b in db.buckets ::
        if b == db.invocations[i].bucket || b in db.invocations[i].batches
        then db.buckets[b].(state := Closed(final)) else db.buckets[b]);
    }

    /** Looks at every queued delivery again right before launch. */
    method SuppressInvalidQueuedReceipts(env: Env)
      modifies store`db, store`receipts
      ensures store.View() == SuppressFold(old(store.View()), QueuedClaims(old(store.View())), env)
    {
      ghost var s := store.View();
      var receipts, tasks, db := store.receipts, store.tasks, store.db;
      var rows := set t | t in receipts && t in tasks && receipts[t].state.Claimed? && receipts[t].invocation.Some?
                          && QueuedInvocation(db, receipts[t].invocation.value);
      var claims := Ordered(rows, ById);
      assert claims == QueuedClaims(s) by {
        assert rows == set t | t in s.receipts && t in s.tasks && QueuedClaim(s, t);
      }
      hide Ordered;
      for k := 0 to |claims|
        invariant forall t | t in claims[k..] :: Claimant(store.View(), t)
        invariant SuppressFold(store.View(), claims[k..], env) == SuppressFold(s, claims, env)
      {
        assert claims[k] in claims[k..];
        assert claims[k..][0] == claims[k] && claims[k..][1..] == claims[k + 1..];
        SuppressStepRows(store.View(), claims[k], env);
        SuppressOne(claims[k], env);
      }
    }

    method SuppressOne(t: int, env: Env)
      requires Claimant(store.View(), t)
      modifies store`db, store`receipts
      ensures store.View() == SuppressStep(old(store.View()), t, env)
    {
      var c, i := store.tasks[t].conv, store.receipts[t].invocation.value;
      if c.chat !in env.configured || c.chat in store.paused
         || (c.chat in env.topics && c.thread !in env.topics[c.chat])
      {
        store.receipts := store.receipts[t := store.receipts[t].(state := Suppressed)];
        store.db := store.db.(invocations := store.db.invocations[i := store.db.invocations[i].(state := Ended(Aborted))]);
        CloseBatches(i, Aborted);
      }
    }

    method SleeperRows() returns (sleepers: seq<int>)
      ensures sleepers == Sleepers(store.View())
    {
      var receipts, tasks, db := store.receipts, store.tasks, store.db;
      var exempt := set t | t in receipts && t in tasks && receipts[t].state.Claimed? && receipts[t].invocation.Some?
                            && tasks[t].bypassBudget :: receipts[t].invocation.value;
      ghost var s := store.View();
      forall i ensures i in exempt <==> ExemptFromSleep(s, i) {
        if ExemptFromSleep(s, i) {
          var t :| t in receipts && t in tasks && receipts[t].state.Claimed? && receipts[t].invocation == Some(i)
                   && tasks[t].bypassBudget;
          assert receipts[t].invocation.value in exempt;
        }
      }
      var rows := set i | i in db.invocations && QueuedInvocation(db, i) && i !in exempt;
      hide ExemptFromSleep;
      assert rows == set i | i in s.db.invocations && QueuedInvocation(s.db, i) && !ExemptFromSleep(s, i);
      sleepers := Ordered(rows, ById);
    }

    /** Ends the queued invocations that sleep does not exempt. */
    method SkipQueuedInvocations()
      modifies store`db, store`receipts
      ensures store.View() == SkipFold(old(store.View()), Sleepers(old(store.View())))
    {
      ghost var s := store.View();
      hide Ordered, ExemptFromSleep, DropQueued;
      var sleepers := SleeperRows();
      for k := 0 to |sleepers|
        invariant forall i | i in sleepers[k..] :: i in store.db.invocations && QueuedInvocation(store.db, i)
        invariant SkipFold(store.View(), sleepers[k..]) == SkipFold(s, sleepers)
      {
        SkipFoldStep(store.View(), sleepers, k);
        SkipOne(sleepers[k]);
      }
    }

    method SkipOne(i: int)
      requires i in store.db.invocations && QueuedInvocation(store.db, i)
      modifies store`db, store`receipts
      ensures store.View() == DropQueued(old(store.View()), i, SkippedBudget, SkippedBudget, Handled)
    {
      if store.db.invocations[i].state.Queued? {
        store.db := store.db.(invocations :=
          store.db.invocations[i := store.db.invocations[i].(state := Ended(SkippedBudget))]);
      }
      CloseBatches(i, SkippedBudget);
      store.receipts := SettleReceipts(store.receipts, i, Handled);
    }

    // ---- the end of a run ----

    /** Puts every batch the run never read back into the queue. */
    method ReleaseUninjectedBuckets(i: int)
      requires i in store.db.invocations
      modifies store`db, store`receipts
      ensures store.View() == ReleaseFold(old(store.View()), i, Ordered(Uninjected(old(store.db), i), ById))
    {
      ghost var s := store.View();
      var db := store.db;
      var rows := set b | b in db.buckets && b in db.invocations[i].batches && !db.invocations[i].batches[b]
                          && b != db.invocations[i].bucket;
      assert rows == Uninjected(s.db, i);
      var unread := Ordered(rows, ById);
      hide Ordered;
      for k := 0 to |unread|
        invariant forall b | b in unread[k..] :: b in store.db.buckets
        invariant ReleaseFold(store.View(), i, unread[k..]) == ReleaseFold(s, i, unread)
      {
        assert unread[k] in unread[k..];
        assert unread[k..][0] == unread[k] && unread[k..][1..] == unread[k + 1..];
        ReleaseStepKeys(store.View(), i, unread[k]);
        ReleaseOne(i, unread[k]);
      }
    }

    method ReleaseOne(i: int, b: int)
      requires b in store.db.buckets
      modifies store`db, store`receipts
      ensures store.View() == ReleaseStep(old(store.View()), i, b)
    {
      var released := store.db.buckets[b].state.Running?;
      if released {
        store.db := store.db.(buckets := store.db.buckets[b := store.db.buckets[b].(state := BucketState.Queued)]);
      }
      if !released {
        store.receipts := DropCarried(store.receipts, i, b);
        return;
      }
      var next := InsertInvocation(b);
      store.receipts := Repoint(store.receipts, i, b, next);
    }

    // ---- restart ----

    /** Ends what the dead process left running, settles its claims, and expires stale work. */
    method Recover(now: int)
      modifies store`db, store`receipts, store`memory
      ensures store.View() == LifecycleSteps.Recover(old(store.View()), now)
    {
      ghost var s := store.View();
      store.memory := map[];
      store.db := RestartRuns(store.db);
      store.db := RestartBuckets(store.db);
      SettleClaims();
      assert store.View() == Restart(s);
      var db, staleBefore := store.db, now - RECOVERY_MAX_AGE;
      var rows := set b | b in db.buckets && (db.buckets[b].state.Collecting? || db.buckets[b].state.Queued?)
                          && db.buckets[b].first < staleBefore;
      var expiring := Ordered(rows, ById);
      assert expiring == Expiring(db, staleBefore);
      ghost var t := store.View();
      hide Ordered, Restart;
      for k := 0 to |expiring|
        invariant forall b | b in expiring[k..] :: b in store.db.buckets
        invariant ExpireFold(store.View(), expiring[k..]) == ExpireFold(t, expiring)
      {
        assert expiring[k] in expiring[k..];
        assert expiring[k..][0] == expiring[k] && expiring[k..][1..] == expiring[k + 1..];
        ExpireOne(expiring[k]);
      }
    }

    method SettleClaims()
      modifies store`db, store`receipts
      ensures store.View() == RestartReceipts(old(store.View()))
    {
      var db, receipts := store.db, store.receipts;
      ghost var s := store.View();
      var delivered := set t | t in receipts && receipts[t].state.Claimed? && receipts[t].invocation.Some? ::
        receipts[t].invocation.value;
      forall i ensures i in delivered <==> DeliversReceipt(s, i) {
        if DeliversReceipt(s, i) {
          var t :| t in receipts && receipts[t].state.Claimed? && receipts[t].invocation == Some(i);
          assert receipts[t].invocation.value in delivered;
        }
      }
      var claimed := set i | i in db.invocations && QueuedInvocation(db, i) && i in delivered;
      hide DeliversReceipt;
      assert forall i :: i in claimed <==> ClaimedBy(s, i);
      hide ClaimedBy;
      store.db := store.db.(buckets := map b | b in db.buckets ::
        if exists i | i in db.invocations :: i in claimed && (db.invocations[i].bucket == b || b in db.invocations[i].batches)
        then db.buckets[b].(state := Closed(Aborted)) else db.buckets[b]);
      store.db := store.db.(invocations := map i | i in db.invocations ::
        if i in claimed then db.invocations[i].(state := Ended(Aborted)) else db.invocations[i]);
      store.receipts := map t | t in receipts ::
        if receipts[t].state.Claimed? then receipts[t].(state := Handled) else receipts[t];
    }

    method ExpireOne(b: int)
      requires b in store.db.buckets
      modifies store`db
      ensures store.View() == old(store.View()).(db := ExpireStep(old(store.db), b))
    {
      store.db := store.db.(buckets := store.db.buckets[b := store.db.buckets[b].(state := Closed(Expired))]);
      var db := store.db;
      store.db := db.(invocations := map i | i in db.invocations ::
        if db.invocations[i].bucket == b && db.invocations[i].state.Queued?
        then db.invocations[i].(state := Ended(Aborted)) else db.invocations[i]);
    }
  }

  lemma SkipFoldStep(s: State, sleepers: seq<int>, k: nat)
    requires k < |sleepers| && forall x, y | 0 <= x < y < |sleepers| :: sleepers[x] != sleepers[y]
    requires forall i | i in sleepers[k..] :: i in s.db.invocations && QueuedInvocation(s.db, i)
    ensures sleepers[k] in s.db.invocations && QueuedInvocation(s.db, sleepers[k])
    ensures var t := DropQueued(s, sleepers[k], SkippedBudget, SkippedBudget, Handled);
            && (forall i | i in sleepers[k + 1..] :: i in t.db.invocations && QueuedInvocation(t.db, i))
            && SkipFold(s, sleepers[k..]) == SkipFold(t, sleepers[k + 1..])
  {
    assert sleepers[k] in sleepers[k..];
    assert sleepers[k..][0] == sleepers[k] && sleepers[k..][1..] == sleepers[k + 1..];
    TailOf(sleepers[k..]);
  }

  /** The order of a query depends only on the rank of its rows. */
  lemma {:induction false} SameRank(ids: set<int>, f: int -> int, g: int -> int)
    requires forall x :: f(x) == g(x)
    ensures Ordered(ids, f) == Ordered(ids, g)
  {
    if ids == {} {
    } else {
      var m, n := Least(ids, f), Least(ids, g);
      assert m == n;
      SameRank(ids - {m}, f, g);
    }
  }

  lemma ReceiptCases(s: State, t: int, env: Env, now: int)
    requires t in s.receipts && t in s.tasks
    ensures ReceiptApply(s, t, Wait, now) == s && ReceiptApply(s, t, Drop, now) == SetReceipt(s, t, Suppressed)
  {
  }

  lemma DueFoldStep(s: State, due: seq<int>, k: nat, env: Env, now: int)
    requires k < |due| && AllCollecting(s.db, due[k..])
    requires forall x, y | 0 <= x < y < |due| :: due[x] != due[y]
    ensures due[k] in s.db.buckets && s.db.buckets[due[k]].state.Collecting?
    ensures AllCollecting(DueStep(s, due[k], env, now).db, due[k + 1..])
    ensures DueFold(s, due[k..], env, now) == DueFold(DueStep(s, due[k], env, now), due[k + 1..], env, now)
  {
    assert due[k..][0] == due[k] && due[k..][1..] == due[k + 1..];
    TailOf(due[k..]);
    DueStepElsewhere(s, due[k], env, now);
    hide DueStep;
  }

  lemma DueFoldEnd(s: State, env: Env, now: int)
    ensures DueFold(s, [], env, now) == s
  {
  }
}
