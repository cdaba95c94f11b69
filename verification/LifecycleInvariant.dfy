/** What every step keeps. */
module LifecycleInvariant {
  import opened LifecycleTables
  import opened LifecycleSteps

  ghost predicate Opens(db: Tables, i: int, b: int) {
    QueuedInvocation(db, i) && db.invocations[i].bucket == b
  }

  ghost predicate Holds(db: Tables, i: int, b: int) {
    RunningInvocation(db, i) && b in db.invocations[i].batches
  }

  /** Ids are fresh; an invocation is joined to its opening batch, and a collecting batch to nothing. */
  ghost predicate Rows(db: Tables) {
    && (forall b | b in db.buckets :: b < db.nextBucket)
    && (forall i | i in db.invocations :: i < db.nextInvocation && db.invocations[i].bucket in db.invocations[i].batches)
    && (forall i, b | i in db.invocations && b in db.invocations[i].batches ::
          b in db.buckets && db.buckets[b].conv == db.invocations[i].conv && !db.buckets[b].state.Collecting?)
  }

  ghost predicate OneCollecting(db: Tables) {
    forall a, b | a in db.buckets && b in db.buckets && db.buckets[a].state.Collecting? && db.buckets[b].state.Collecting?
                  && db.buckets[a].conv == db.buckets[b].conv :: a == b
  }

  /** No batch ever opens two invocations. */
  ghost predicate OpensOnce(db: Tables) {
    forall i, j | i in db.invocations && j in db.invocations && db.invocations[i].bucket == db.invocations[j].bucket ::
      i == j
  }

  /** A batch is queued exactly when a queued invocation opens with it, and that one holds nothing else. */
  ghost predicate QueueMatches(db: Tables) {
    && (forall i, b | Opens(db, i, b) :: b in db.buckets && db.buckets[b].state.Queued?)
    && (forall b | b in db.buckets && db.buckets[b].state.Queued? :: exists i :: Opens(db, i, b))
    && (forall i, b | QueuedInvocation(db, i) && b in db.invocations[i].batches ::
          b == db.invocations[i].bucket && !db.invocations[i].batches[b])
  }

  /** A running batch belongs to a running invocation, and a chat runs at most one. */
  ghost predicate RunsMatch(db: Tables) {
    && (forall b | b in db.buckets && db.buckets[b].state.Running? :: exists i :: Holds(db, i, b))
    && (forall i, j | RunningInvocation(db, i) && RunningInvocation(db, j)
                      && db.invocations[i].conv.chat == db.invocations[j].conv.chat :: i == j)
  }

  /** A batch attached to a live run and not yet released has never opened an invocation. */
  ghost predicate AttachedOpensNothing(db: Tables) {
    forall i, b, j | Holds(db, i, b) && db.invocations[i].bucket != b && b in db.buckets && db.buckets[b].state.Running?
                     && j in db.invocations :: db.invocations[j].bucket != b
  }

  ghost predicate TablesMatch(db: Tables) {
    Rows(db) && OneCollecting(db) && OpensOnce(db) && QueueMatches(db) && RunsMatch(db) && AttachedOpensNothing(db)
  }

  function TagBuckets(tags: seq<Tag>): seq<int> {
    if tags == [] then []
    else (match tags[0] case Harness => [] case Batch(b) => [b]) + TagBuckets(tags[1..])
  }

  /** The batches a conversation's run still has to read. */
  function Waits(m: Memory): multiset<int> {
    multiset(TagBuckets(m.tags)) + multiset(Buckets(m.pending))
  }

  ghost predicate Delivers(db: Tables, c: Conversation, i: int, b: int) {
    && RunsFor(db, c, i) && b in db.invocations[i].batches && !db.invocations[i].batches[b]
    && b in db.buckets && !db.buckets[b].state.Queued?
  }

  /** A batch waiting in memory belongs to the live run, was not read before, and waits once. */
  ghost predicate Faithful(m: Memory, c: Conversation, db: Tables) {
    && (forall b | b in Waits(m) :: exists i :: Delivers(db, c, i, b))
    && (forall b: int :: Waits(m)[b] <= 1)
    && (m != IDLE ==> exists i :: RunsFor(db, c, i))
  }

  ghost predicate MemoryMatches(memory: map<Conversation, Memory>, db: Tables) {
    forall c | c in memory :: Faithful(memory[c], c, db)
  }

  /** No batch is written twice, and one that a live run has yet to read was never written. */
  ghost predicate Injected(injections: seq<int>, db: Tables) {
    && (forall x, y | 0 <= x < y < |injections| :: injections[x] != injections[y])
    && (forall b | b in injections :: b in db.buckets && !db.buckets[b].state.Collecting? && !db.buckets[b].state.Queued?)
    && (forall i, b | Holds(db, i, b) && !db.invocations[i].batches[b] :: b !in injections)
  }

  ghost predicate Live(db: Tables, i: int) {
    QueuedInvocation(db, i) || RunningInvocation(db, i)
  }

  ghost predicate ClaimLive(r: Receipt, db: Tables) {
    && r.invocation.Some? && r.bucket.Some? && Live(db, r.invocation.value)
    && r.bucket.value in db.invocations[r.invocation.value].batches
  }

  ghost predicate ClaimsLive(receipts: map<int, Receipt>, db: Tables) {
    && (forall t | t in receipts && receipts[t].state.Claimed? :: ClaimLive(receipts[t], db))
    && (forall t | t in receipts && receipts[t].bucket.Some? :: receipts[t].bucket.value < db.nextBucket)
  }

  /** A task waits exactly while it has no receipt; a receipt has a batch of its own, claimed at most once. */
  ghost predicate ReceiptsMatch(tasks: map<int, Task>, receipts: map<int, Receipt>, claims: multiset<int>) {
    && (forall t | t in tasks :: tasks[t].state.Waiting? <==> t !in receipts)
    && (forall t | t in receipts :: t in tasks)
    && (forall t, u | t in receipts && u in receipts && receipts[t].bucket.Some?
                      && receipts[t].bucket == receipts[u].bucket :: t == u)
    && (forall t: int :: claims[t] <= if t in receipts && !receipts[t].state.Pending? then 1 else 0)
  }

  /** Collection windows: measured from the first message and from the last time the agent was free. */
  ghost predicate Windows(window: nat, freeAt: map<Conversation, int>, db: Tables) {
    forall b | b in db.buckets && db.buckets[b].state.Collecting? ::
      && db.buckets[b].deadline >= db.buckets[b].first + window
      && (db.buckets[b].conv in freeAt ==> db.buckets[b].deadline >= freeAt[db.buckets[b].conv] + window)
  }

  /** Between rounds a run has been free since it started. */
  ghost predicate Rounds(memory: map<Conversation, Memory>, freeAt: map<Conversation, int>, db: Tables, clock: int) {
    && (forall c | c in freeAt :: freeAt[c] <= clock)
    && (forall i | RunningInvocation(db, i) ::
          && db.invocations[i].startedAt <= clock
          && ((db.invocations[i].conv in memory && memory[db.invocations[i].conv].round)
              || (db.invocations[i].conv in freeAt && freeAt[db.invocations[i].conv] >= db.invocations[i].startedAt)))
  }

  ghost predicate Inv(s: State, clock: int) {
    && TablesMatch(s.db)
    && MemoryMatches(s.memory, s.db)
    && Injected(s.injections, s.db)
    && ClaimsLive(s.receipts, s.db)
    && ReceiptsMatch(s.tasks, s.receipts, s.claims)
    && Windows(s.window, s.freeAt, s.db)
    && Rounds(s.memory, s.freeAt, s.db, clock)
  }
}
