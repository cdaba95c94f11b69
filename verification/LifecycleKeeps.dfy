/** Each kind of row change keeps the tables, and what the rest of the state says about them. */
module LifecycleKeeps {
  import opened LifecycleTables
  import opened LifecycleSteps
  import opened LifecycleInvariant

  // ---- rows are only added ----

  /** Old invocations and what they hold stay as they are, and no new one runs. */
  ghost predicate Grows(db: Tables, r: Tables) {
    && db.nextBucket <= r.nextBucket
    && (forall i | i in db.invocations :: i in r.invocations && Extends(db.invocations[i], r.invocations[i]))
    && (forall i | RunningInvocation(r, i) :: i in db.invocations)
  }

  ghost predicate Extends(x: Invocation, y: Invocation) {
    && x.state == y.state && x.conv == y.conv && x.startedAt == y.startedAt && x.bucket == y.bucket
    && (forall b | b in x.batches :: b in y.batches && x.batches[b] == y.batches[b])
  }

  /** No waiting batch enters the queue. */
  ghost predicate WaitersStay(memory: map<Conversation, Memory>, db: Tables, r: Tables) {
    forall c, i, b | c in memory && b in Waits(memory[c]) && Delivers(db, c, i, b) ::
      b in r.buckets && !r.buckets[b].state.Queued?
  }

  ghost predicate Unawaited(memory: map<Conversation, Memory>, b: int) {
    forall d | d in memory :: b !in Waits(memory[d])
  }

  lemma FaithfulTransfers(m: Memory, c: Conversation, db: Tables, r: Tables)
    requires Faithful(m, c, db)
    requires forall i | RunsFor(db, c, i) :: RunsFor(r, c, i)
    requires forall i, b | Delivers(db, c, i, b) && b in Waits(m) :: Delivers(r, c, i, b)
    ensures Faithful(m, c, r)
  {
    hide Delivers, RunsFor, Waits;
    forall b | b in Waits(m) ensures exists i :: Delivers(r, c, i, b) {
      var i :| Delivers(db, c, i, b);
      assert Delivers(r, c, i, b);
    }
  }

  lemma GrowthKeepsMemory(memory: map<Conversation, Memory>, db: Tables, r: Tables)
    requires MemoryMatches(memory, db) && Grows(db, r) && WaitersStay(memory, db, r)
    ensures MemoryMatches(memory, r)
  {
    hide Waits, Faithful;
    forall c | c in memory ensures Faithful(memory[c], c, r) {
      FaithfulTransfers(memory[c], c, db, r);
    }
  }

  lemma GrowthKeepsClaims(receipts: map<int, Receipt>, db: Tables, r: Tables)
    requires ClaimsLive(receipts, db) && Grows(db, r)
    ensures ClaimsLive(receipts, r)
  {
    forall t | t in receipts && receipts[t].state.Claimed? ensures ClaimLive(receipts[t], r) {
      assert ClaimLive(receipts[t], db);
    }
  }

  lemma GrowthKeepsRounds(
      memory: map<Conversation, Memory>, freeAt: map<Conversation, int>, db: Tables, r: Tables, clock: int)
    requires Rounds(memory, freeAt, db, clock) && Grows(db, r)
    ensures Rounds(memory, freeAt, r, clock)
  {
    forall i | RunningInvocation(r, i) ensures RunningInvocation(db, i) && Extends(db.invocations[i], r.invocations[i]) {
    }
  }

  /** The three together. */
  lemma GrowthKeeps(s: State, r: Tables, clock: int)
    requires Inv(s, clock) && Grows(s.db, r) && WaitersStay(s.memory, s.db, r)
    ensures MemoryMatches(s.memory, r) && ClaimsLive(s.receipts, r) && Rounds(s.memory, s.freeAt, r, clock)
  {
    hide Grows, WaitersStay, TablesMatch, MemoryMatches, Injected, ClaimsLive, ReceiptsMatch, Windows, Rounds;
    GrowthKeepsMemory(s.memory, s.db, r);
    GrowthKeepsClaims(s.receipts, s.db, r);
    GrowthKeepsRounds(s.memory, s.freeAt, s.db, r, clock);
  }

  // ---- a new batch ----

  ghost predicate Addable(db: Tables, row: Bucket) {
    row.state.Closed? || (row.state.Collecting? && CollectingOf(db, row.conv) == {})
  }

  lemma AddBucketKeeps(s: State, row: Bucket, clock: int)
    requires Inv(s, clock) && Addable(s.db, row)
    requires row.state.Collecting? ==> row.first == clock && row.deadline >= clock + s.window
    ensures Inv(s.(db := AddBucket(s.db, row)), clock)
    ensures Loose(s.db.nextBucket, AddBucket(s.db, row), s.injections)
  {
    hide Addable, Grows, WaitersStay, TablesMatch, MemoryMatches, Injected, ClaimsLive, ReceiptsMatch, Windows, Rounds, AddBucket, Loose;
    AddBucketRows(s.db, row);
    AddBucketGrows(s.memory, s.db, row);
    AddBucketLoose(s.db, row, s.injections);
    AddBucketWindows(s, row, clock);
    GrowthKeeps(s, AddBucket(s.db, row), clock);
  }

  lemma AddBucketGrows(memory: map<Conversation, Memory>, db: Tables, row: Bucket)
    requires TablesMatch(db)
    ensures Grows(db, AddBucket(db, row)) && WaitersStay(memory, db, AddBucket(db, row))
  {
    hide OneCollecting, OpensOnce, QueueMatches, RunsMatch, AttachedOpensNothing, Waits;
  }

  lemma AddBucketRows(db: Tables, row: Bucket)
    requires TablesMatch(db) && Addable(db, row)
    ensures TablesMatch(AddBucket(db, row))
  {
    AddBucketSimple(db, row);
    AddBucketQueue(db, row);
    AddBucketRuns(db, row);
  }

  lemma AddBucketSimple(db: Tables, row: Bucket)
    requires Rows(db) && OneCollecting(db) && OpensOnce(db) && Addable(db, row)
    ensures Rows(AddBucket(db, row)) && OneCollecting(AddBucket(db, row)) && OpensOnce(AddBucket(db, row))
  {
    forall b | b in db.buckets && db.buckets[b].state.Collecting? && row.state.Collecting?
      ensures db.buckets[b].conv != row.conv
    {
      assert db.buckets[b].conv == row.conv ==> b in CollectingOf(db, row.conv);
    }
  }

  lemma AddBucketQueue(db: Tables, row: Bucket)
    requires Rows(db) && QueueMatches(db) && Addable(db, row)
    ensures QueueMatches(AddBucket(db, row))
  {
    var r := AddBucket(db, row);
    forall b | b in r.buckets && r.buckets[b].state.Queued? ensures exists i :: Opens(r, i, b) {
      var i :| Opens(db, i, b);
      assert Opens(r, i, b);
    }
    forall i, b | Opens(r, i, b) ensures b in r.buckets && r.buckets[b].state.Queued? {
      assert Opens(db, i, b);
    }
  }

  lemma AddBucketRuns(db: Tables, row: Bucket)
    requires Rows(db) && RunsMatch(db) && AttachedOpensNothing(db) && Addable(db, row)
    ensures RunsMatch(AddBucket(db, row)) && AttachedOpensNothing(AddBucket(db, row))
  {
    var r := AddBucket(db, row);
    forall b | b in r.buckets && r.buckets[b].state.Running? ensures exists i :: Holds(r, i, b) {
      var i :| Holds(db, i, b);
      assert Holds(r, i, b);
    }
  }

  lemma AddBucketLoose(db: Tables, row: Bucket, injections: seq<int>)
    requires TablesMatch(db) && Injected(injections, db) && Addable(db, row)
    ensures Injected(injections, AddBucket(db, row)) && Loose(db.nextBucket, AddBucket(db, row), injections)
  {
    hide OneCollecting, OpensOnce, QueueMatches, RunsMatch, AttachedOpensNothing, CollectingOf;
    var r := AddBucket(db, row);
    forall i, b | Holds(r, i, b) && !r.invocations[i].batches[b] ensures b !in injections {
      assert Holds(db, i, b);
    }
  }

  lemma AddBucketWindows(s: State, row: Bucket, clock: int)
    requires Windows(s.window, s.freeAt, s.db) && Rounds(s.memory, s.freeAt, s.db, clock)
    requires row.state.Collecting? ==> row.first == clock && row.deadline >= clock + s.window
    ensures Windows(s.window, s.freeAt, AddBucket(s.db, row))
  {
  }

  // ---- a batch enters the queue ----

  /** `b` can be queued: nothing opened with it and no transcript has it. */
  ghost predicate Queueable(b: int, db: Tables, injections: seq<int>) {
    && b in db.buckets && !db.buckets[b].state.Queued? && b !in injections
    && (forall j | j in db.invocations :: db.invocations[j].bucket != b)
  }

  lemma EnqueueKeeps(s: State, b: int, clock: int)
    requires Inv(s, clock) && Queueable(b, s.db, s.injections) && Unawaited(s.memory, b)
    ensures Inv(s.(db := Enqueue(s.db, b)), clock)
    ensures Opens(Enqueue(s.db, b), s.db.nextInvocation, b)
    ensures b in Enqueue(s.db, b).invocations[s.db.nextInvocation].batches
  {
    hide Unawaited, Grows, WaitersStay, TablesMatch, MemoryMatches, Injected, ClaimsLive, ReceiptsMatch, Windows, Rounds;
    EnqueueTables(s.db, b, s.injections);
    EnqueueGrows(s.memory, s.db, b);
    EnqueueInjected(s.db, b, s.injections);
    EnqueueWindows(s.window, s.freeAt, s.db, b);
    GrowthKeeps(s, Enqueue(s.db, b), clock);
  }

  lemma EnqueueTables(db: Tables, b: int, injections: seq<int>)
    requires TablesMatch(db) && Queueable(b, db, injections)
    ensures TablesMatch(Enqueue(db, b))
  {
    hide Rows, OneCollecting, OpensOnce, QueueMatches, RunsMatch, AttachedOpensNothing, Enqueue;
    EnqueueRows(db, b, injections);
    EnqueueQueue(db, b, injections);
    EnqueueRuns(db, b, injections);
  }

  lemma EnqueueRows(db: Tables, b: int, injections: seq<int>)
    requires Rows(db) && OneCollecting(db) && OpensOnce(db) && Queueable(b, db, injections)
    ensures Rows(Enqueue(db, b)) && OneCollecting(Enqueue(db, b)) && OpensOnce(Enqueue(db, b))
  {
  }

  lemma EnqueueQueue(db: Tables, b: int, injections: seq<int>)
    requires Rows(db) && QueueMatches(db) && Queueable(b, db, injections)
    ensures QueueMatches(Enqueue(db, b))
  {
    var r, n := Enqueue(db, b), db.nextInvocation;
    assert Opens(r, n, b);
    forall a | a in r.buckets && r.buckets[a].state.Queued? ensures exists i :: Opens(r, i, a) {
      if a != b { var i :| Opens(db, i, a); assert Opens(r, i, a); }
    }
    forall i, a | Opens(r, i, a) ensures a in r.buckets && r.buckets[a].state.Queued? {
      if i != n { assert Opens(db, i, a); }
    }
  }

  lemma EnqueueRuns(db: Tables, b: int, injections: seq<int>)
    requires Rows(db) && RunsMatch(db) && AttachedOpensNothing(db) && Queueable(b, db, injections)
    ensures RunsMatch(Enqueue(db, b)) && AttachedOpensNothing(Enqueue(db, b))
  {
    var r := Enqueue(db, b);
    forall a | a in r.buckets && r.buckets[a].state.Running? ensures exists i :: Holds(r, i, a) {
      var i :| Holds(db, i, a);
      assert Holds(r, i, a);
    }
    forall i, a, j | Holds(r, i, a) && r.invocations[i].bucket != a && a in r.buckets && r.buckets[a].state.Running?
                     && j in r.invocations ensures r.invocations[j].bucket != a
    {
      assert Holds(db, i, a);
    }
  }

  lemma EnqueueGrows(memory: map<Conversation, Memory>, db: Tables, b: int)
    requires TablesMatch(db) && b in db.buckets && Unawaited(memory, b)
    ensures Grows(db, Enqueue(db, b)) && WaitersStay(memory, db, Enqueue(db, b))
  {
    hide OneCollecting, OpensOnce, QueueMatches, RunsMatch, AttachedOpensNothing, Waits;
  }

  lemma EnqueueInjected(db: Tables, b: int, injections: seq<int>)
    requires Injected(injections, db) && Queueable(b, db, injections)
    ensures Injected(injections, Enqueue(db, b))
  {
    var r := Enqueue(db, b);
    forall i, a | Holds(r, i, a) && !r.invocations[i].batches[a] ensures a !in injections {
      assert Holds(db, i, a);
    }
  }

  lemma EnqueueWindows(window: nat, freeAt: map<Conversation, int>, db: Tables, b: int)
    requires Windows(window, freeAt, db) && b in db.buckets
    ensures Windows(window, freeAt, Enqueue(db, b))
  {
  }

  // ---- a batch joins a run ----

  /** `b` belongs to nothing yet. */
  ghost predicate Loose(b: int, db: Tables, injections: seq<int>) {
    && b in db.buckets && (db.buckets[b].state.Collecting? || db.buckets[b].state.Closed?) && b !in injections
    && (forall j | j in db.invocations :: b !in db.invocations[j].batches)
  }

  lemma CollectingIsLoose(db: Tables, b: int, injections: seq<int>)
    requires Rows(db) && Injected(injections, db) && b in db.buckets && db.buckets[b].state.Collecting?
    ensures Loose(b, db, injections)
  {
  }

  lemma LooseIsQueueable(b: int, db: Tables, injections: seq<int>)
    requires Rows(db) && Loose(b, db, injections)
    ensures Queueable(b, db, injections)
  {
  }

  lemma AttachKeeps(s: State, b: int, i: int, kind: Kind, clock: int)
    requires Inv(s, clock) && Loose(b, s.db, s.injections) && RunsFor(s.db, s.db.buckets[b].conv, i)
    ensures Inv(QueueInjection(s.(db := Attach(s.db, b, i)), s.db.buckets[b].conv, b, kind), clock)
    ensures Live(Attach(s.db, b, i), i) && b in Attach(s.db, b, i).invocations[i].batches
  {
    AttachTables(s.db, b, i, s.injections);
    AttachGrows(s.db, b, i, s.injections);
    AttachMemory(s, b, i, kind);
    AttachInjected(s.db, b, i, s.injections);
    AttachWindows(s.window, s.freeAt, s.db, b, i);
    GrowthKeepsClaims(s.receipts, s.db, Attach(s.db, b, i));
    AttachRounds(s, b, i, kind, clock);
    hide Grows, WaitersStay, TablesMatch, MemoryMatches, Injected, ClaimsLive, ReceiptsMatch, Windows, Rounds, Loose;
  }

  lemma AttachTables(db: Tables, b: int, i: int, injections: seq<int>)
    requires TablesMatch(db) && Loose(b, db, injections) && RunsFor(db, db.buckets[b].conv, i)
    ensures TablesMatch(Attach(db, b, i))
  {
    hide Rows, OneCollecting, OpensOnce, QueueMatches, RunsMatch, AttachedOpensNothing, Attach;
    AttachRows(db, b, i, injections);
    AttachQueue(db, b, i, injections);
    AttachRuns(db, b, i, injections);
  }

  lemma AttachRows(db: Tables, b: int, i: int, injections: seq<int>)
    requires Rows(db) && OneCollecting(db) && OpensOnce(db)
    requires Loose(b, db, injections) && RunsFor(db, db.buckets[b].conv, i)
    ensures Rows(Attach(db, b, i)) && OneCollecting(Attach(db, b, i)) && OpensOnce(Attach(db, b, i))
  {
  }

  lemma AttachQueue(db: Tables, b: int, i: int, injections: seq<int>)
    requires Rows(db) && QueueMatches(db) && Loose(b, db, injections) && RunsFor(db, db.buckets[b].conv, i)
    ensures QueueMatches(Attach(db, b, i))
  {
    var r := Attach(db, b, i);
    forall a | a in r.buckets && r.buckets[a].state.Queued? ensures exists j :: Opens(r, j, a) {
      var j :| Opens(db, j, a);
      assert Opens(r, j, a);
    }
    forall j, a | Opens(r, j, a) ensures a in r.buckets && r.buckets[a].state.Queued? {
      assert Opens(db, j, a);
    }
  }

  lemma AttachRuns(db: Tables, b: int, i: int, injections: seq<int>)
    requires Rows(db) && RunsMatch(db) && AttachedOpensNothing(db)
    requires Loose(b, db, injections) && RunsFor(db, db.buckets[b].conv, i)
    ensures RunsMatch(Attach(db, b, i)) && AttachedOpensNothing(Attach(db, b, i))
  {
    var r := Attach(db, b, i);
    forall a | a in r.buckets && r.buckets[a].state.Running? ensures exists j :: Holds(r, j, a) {
      if a == b { assert Holds(r, i, b); }
      else { var j :| Holds(db, j, a); assert Holds(r, j, a); }
    }
    forall x, a, j | Holds(r, x, a) && r.invocations[x].bucket != a && a in r.buckets && r.buckets[a].state.Running?
                     && j in r.invocations ensures r.invocations[j].bucket != a
    {
      assert db.invocations[j].bucket in db.invocations[j].batches;
      if a != b { assert Holds(db, x, a); }
    }
  }

  lemma AttachGrows(db: Tables, b: int, i: int, injections: seq<int>)
    requires Loose(b, db, injections) && RunsFor(db, db.buckets[b].conv, i)
    ensures Grows(db, Attach(db, b, i))
    ensures forall memory :: WaitersStay(memory, db, Attach(db, b, i))
  {
    hide Waits;
  }

  lemma AttachInjected(db: Tables, b: int, i: int, injections: seq<int>)
    requires Injected(injections, db) && Loose(b, db, injections) && RunsFor(db, db.buckets[b].conv, i)
    ensures Injected(injections, Attach(db, b, i))
  {
    var r := Attach(db, b, i);
    forall j, a | Holds(r, j, a) && !r.invocations[j].batches[a] ensures a !in injections {
      if a != b { assert Holds(db, j, a); }
    }
  }

  lemma AttachWindows(window: nat, freeAt: map<Conversation, int>, db: Tables, b: int, i: int)
    requires Windows(window, freeAt, db) && b in db.buckets && i in db.invocations
    ensures Windows(window, freeAt, Attach(db, b, i))
  {
  }

  lemma AttachRounds(s: State, b: int, i: int, kind: Kind, clock: int)
    requires Rounds(s.memory, s.freeAt, s.db, clock) && b in s.db.buckets && i in s.db.invocations
    ensures Rounds(QueueInjection(s, s.db.buckets[b].conv, b, kind).memory, s.freeAt, Attach(s.db, b, i), clock)
  {
    var r := Attach(s.db, b, i);
    forall j | RunningInvocation(r, j) ensures RunningInvocation(s.db, j) {
    }
  }

  lemma BucketsAppend(xs: seq<Entry>, ys: seq<Entry>)
    ensures Buckets(xs + ys) == Buckets(xs) + Buckets(ys)
  {
    if xs == [] { assert xs + ys == ys; }
    else { assert (xs + ys)[1..] == xs[1..] + ys; BucketsAppend(xs[1..], ys); }
  }

  lemma WaitsAppend(m: Memory, e: Entry)
    ensures Waits(m.(pending := m.pending + [e])) == Waits(m) + multiset{e.bucket}
  {
    BucketsAppend(m.pending, [e]);
    assert Buckets([e]) == [e.bucket] + Buckets([]);
  }

  lemma AttachMemory(s: State, b: int, i: int, kind: Kind)
    requires MemoryMatches(s.memory, s.db) && Loose(b, s.db, s.injections) && RunsFor(s.db, s.db.buckets[b].conv, i)
    ensures MemoryMatches(QueueInjection(s, s.db.buckets[b].conv, b, kind).memory, Attach(s.db, b, i))
  {
    var c, r := s.db.buckets[b].conv, Attach(s.db, b, i);
    AttachGrows(s.db, b, i, s.injections);
    GrowthKeepsMemory(s.memory, s.db, r);
    NotWaiting(s.memory, s.db, b);
    assert RunsFor(r, c, i) && Delivers(r, c, i, b);
    hide Attach, RunsFor, Delivers, Loose;
    PushKeeps(s.memory, r, c, i, Entry(b, kind));
  }

  lemma FaithfulPush(m: Memory, c: Conversation, r: Tables, i: int, e: Entry)
    requires Faithful(m, c, r) && Delivers(r, c, i, e.bucket) && e.bucket !in Waits(m)
    ensures Faithful(m.(pending := m.pending + [e]), c, r)
  {
    WaitsAppend(m, e);
    assert RunsFor(r, c, i);
    hide Waits, RunsFor, Delivers;
    assert forall b: int | b != e.bucket :: Waits(m.(pending := m.pending + [e]))[b] == Waits(m)[b];
  }

  lemma IdleFaithful(c: Conversation, r: Tables)
    ensures Faithful(IDLE, c, r) && Waits(IDLE) == multiset{}
  {
    assert Waits(IDLE) == multiset{};
  }

  /** One more batch waits in memory. */
  lemma PushKeeps(memory: map<Conversation, Memory>, r: Tables, c: Conversation, i: int, e: Entry)
    requires MemoryMatches(memory, r) && Delivers(r, c, i, e.bucket) && Unawaited(memory, e.bucket)
    ensures var m := if c in memory then memory[c] else IDLE;
            MemoryMatches(memory[c := m.(pending := m.pending + [e])], r)
  {
    hide Faithful, Waits, Delivers;
    IdleFaithful(c, r);
    FaithfulPush(if c in memory then memory[c] else IDLE, c, r, i, e);
  }

  lemma NotWaiting(memory: map<Conversation, Memory>, db: Tables, b: int)
    requires MemoryMatches(memory, db)
    requires forall j | j in db.invocations :: b !in db.invocations[j].batches
    ensures Unawaited(memory, b)
  {
    assert forall d, j :: !Delivers(db, d, j, b);
  }
}
