/** Work that ends: rows only leave the open states, and collection windows only grow. */
module LifecycleSettling {
  import opened LifecycleTables
  import opened LifecycleInvariant
  import opened LifecycleKeeps

  ghost predicate BucketSettles(x: Bucket, y: Bucket) {
    && y.conv == x.conv && y.first == x.first && y.deadline >= x.deadline
    && (y.state == x.state || y.state.Closed?)
  }

  ghost predicate InvocationSettles(x: Invocation, y: Invocation) {
    && y.bucket == x.bucket && y.conv == x.conv && y.startedAt == x.startedAt && y.batches == x.batches
    && (y.state == x.state || y.state.Ended?)
  }

  ghost predicate RowsSettle(db: Tables, r: Tables) {
    && r.nextBucket == db.nextBucket && r.nextInvocation == db.nextInvocation
    && r.buckets.Keys == db.buckets.Keys && r.invocations.Keys == db.invocations.Keys
    && (forall b | b in db.buckets :: b in r.buckets && BucketSettles(db.buckets[b], r.buckets[b]))
    && (forall i | i in db.invocations :: i in r.invocations && InvocationSettles(db.invocations[i], r.invocations[i]))
  }

  /** An opening batch and its queued invocation leave together, and a run outlives the batches it holds. */
  ghost predicate Balanced(db: Tables, r: Tables) {
    && (forall i, b | Opens(db, i, b) ::
          QueuedInvocation(r, i) <==> (b in r.buckets && r.buckets[b].state.Queued?))
    && (forall i, b | Holds(db, i, b) && b in r.buckets && r.buckets[b].state.Running? :: RunningInvocation(r, i))
  }

  ghost predicate Settles(db: Tables, r: Tables) { RowsSettle(db, r) && Balanced(db, r) }

  lemma SettlesItself(db: Tables)
    requires TablesMatch(db)
    ensures Settles(db, db)
  {
    hide Rows, OneCollecting, OpensOnce, RunsMatch, AttachedOpensNothing;
  }

  lemma SettlingKeepsRows(db: Tables, r: Tables)
    requires Rows(db) && OneCollecting(db) && OpensOnce(db) && RowsSettle(db, r)
    ensures Rows(r) && OneCollecting(r) && OpensOnce(r)
  {
  }

  lemma SettlingKeepsQueue(db: Tables, r: Tables)
    requires QueueMatches(db) && Settles(db, r)
    ensures QueueMatches(r)
  {
    forall b | b in r.buckets && r.buckets[b].state.Queued? ensures exists i :: Opens(r, i, b) {
      assert BucketSettles(db.buckets[b], r.buckets[b]);
      var i :| Opens(db, i, b);
      assert InvocationSettles(db.invocations[i], r.invocations[i]);
      assert Opens(r, i, b);
    }
    forall i, b | Opens(r, i, b) ensures b in r.buckets && r.buckets[b].state.Queued? {
      assert InvocationSettles(db.invocations[i], r.invocations[i]);
      assert Opens(db, i, b);
    }
    forall i | QueuedInvocation(r, i) ensures QueuedInvocation(db, i) {
      assert InvocationSettles(db.invocations[i], r.invocations[i]);
    }
  }

  lemma SettlingShrinks(db: Tables, r: Tables)
    requires RowsSettle(db, r)
    ensures forall i | RunningInvocation(r, i) ::
              RunningInvocation(db, i) && InvocationSettles(db.invocations[i], r.invocations[i])
    ensures forall i, b | Holds(r, i, b) :: Holds(db, i, b)
    ensures forall b | b in r.buckets && r.buckets[b].state.Running? :: b in db.buckets && db.buckets[b].state.Running?
    ensures forall b | b in r.buckets && r.buckets[b].state.Collecting? ::
              b in db.buckets && db.buckets[b].state.Collecting? && BucketSettles(db.buckets[b], r.buckets[b])
  {
    forall i | RunningInvocation(r, i)
      ensures RunningInvocation(db, i) && InvocationSettles(db.invocations[i], r.invocations[i])
    {
      assert i in db.invocations.Keys;
    }
    forall b | b in r.buckets ensures b in db.buckets && BucketSettles(db.buckets[b], r.buckets[b]) {
      assert b in db.buckets.Keys;
    }
  }

  lemma SettlingKeepsRuns(db: Tables, r: Tables)
    requires RunsMatch(db) && AttachedOpensNothing(db) && Settles(db, r)
    ensures RunsMatch(r) && AttachedOpensNothing(r)
  {
    SettlingShrinks(db, r);
    forall b | b in r.buckets && r.buckets[b].state.Running? ensures exists i :: Holds(r, i, b) {
      var i :| Holds(db, i, b);
      assert InvocationSettles(db.invocations[i], r.invocations[i]);
      assert Holds(r, i, b);
    }
    forall i, j | RunningInvocation(r, i) && RunningInvocation(r, j)
                  && r.invocations[i].conv.chat == r.invocations[j].conv.chat ensures i == j
    {
      assert RunningInvocation(db, i) && RunningInvocation(db, j);
    }
    forall i, b, j | Holds(r, i, b) && r.invocations[i].bucket != b && b in r.buckets && r.buckets[b].state.Running?
                     && j in r.invocations ensures r.invocations[j].bucket != b
    {
      assert InvocationSettles(db.invocations[i], r.invocations[i]);
      assert j in db.invocations.Keys && InvocationSettles(db.invocations[j], r.invocations[j]);
    }
  }

  lemma SettlingKeepsTables(db: Tables, r: Tables)
    requires TablesMatch(db) && Settles(db, r)
    ensures TablesMatch(r)
  {
    assert RowsSettle(db, r);
    hide Rows, OneCollecting, OpensOnce, QueueMatches, RunsMatch, AttachedOpensNothing, RowsSettle, Balanced, Settles;
    SettlingKeepsRows(db, r);
    SettlingKeepsQueue(db, r);
    SettlingKeepsRuns(db, r);
  }

  lemma SettlingKeepsInjected(injections: seq<int>, db: Tables, r: Tables)
    requires Injected(injections, db) && Settles(db, r)
    ensures Injected(injections, r)
  {
    SettlingShrinks(db, r);
    forall b | b in injections ensures b in r.buckets && !r.buckets[b].state.Collecting? && !r.buckets[b].state.Queued? {
      assert BucketSettles(db.buckets[b], r.buckets[b]);
    }
    forall i, b | Holds(r, i, b) && !r.invocations[i].batches[b] ensures b !in injections {
      assert InvocationSettles(db.invocations[i], r.invocations[i]) && Holds(db, i, b);
    }
  }

  lemma SettlingKeepsWindows(window: nat, freeAt: map<Conversation, int>, db: Tables, r: Tables)
    requires Windows(window, freeAt, db) && Settles(db, r)
    ensures Windows(window, freeAt, r)
  {
    SettlingShrinks(db, r);
  }

  /** Memory is kept as it was for every conversation whose run goes on; the rest may be dropped. */
  ghost predicate MemorySettles(memory: map<Conversation, Memory>, kept: map<Conversation, Memory>, db: Tables, r: Tables) {
    && (forall c | c in kept :: c in memory && kept[c] == memory[c])
    && (forall i | RunningInvocation(r, i) && i in db.invocations && db.invocations[i].conv in memory ::
          db.invocations[i].conv in kept)
    && (forall c, i | c in kept && RunsFor(db, c, i) :: RunningInvocation(r, i))
  }

  lemma SettlingKeepsMemory(memory: map<Conversation, Memory>, kept: map<Conversation, Memory>, db: Tables, r: Tables)
    requires MemoryMatches(memory, db) && Settles(db, r) && MemorySettles(memory, kept, db, r)
    ensures MemoryMatches(kept, r)
  {
    hide Waits, Faithful;
    forall c | c in kept ensures Faithful(kept[c], c, r) {
      forall i | RunsFor(db, c, i) ensures RunsFor(r, c, i) {
        assert InvocationSettles(db.invocations[i], r.invocations[i]);
      }
      forall i, b | Delivers(db, c, i, b) && b in Waits(memory[c]) ensures Delivers(r, c, i, b) {
        assert RunsFor(r, c, i) && InvocationSettles(db.invocations[i], r.invocations[i]);
        assert BucketSettles(db.buckets[b], r.buckets[b]);
      }
      FaithfulTransfers(memory[c], c, db, r);
    }
  }

  lemma SettlingKeepsRounds(memory: map<Conversation, Memory>, kept: map<Conversation, Memory>,
                            freeAt: map<Conversation, int>, db: Tables, r: Tables, clock: int)
    requires Rounds(memory, freeAt, db, clock) && Settles(db, r) && MemorySettles(memory, kept, db, r)
    ensures Rounds(kept, freeAt, r, clock)
  {
    SettlingShrinks(db, r);
  }

  /** Receipts leave the claimed state or keep their claim on live work. */
  ghost predicate ReceiptSettles(x: Receipt, y: Receipt, r: Tables) {
    && y.bucket == x.bucket
    && (y.state.Pending? ==> x.state.Pending?)
    && (y.state.Claimed? ==> x.state.Claimed? && y == x && (y.invocation.Some? ==> Live(r, y.invocation.value)))
  }

  ghost predicate ReceiptsSettle(receipts: map<int, Receipt>, kept: map<int, Receipt>, r: Tables) {
    && kept.Keys == receipts.Keys
    && (forall t | t in receipts :: t in kept && ReceiptSettles(receipts[t], kept[t], r))
  }

  lemma SettlingKeepsClaims(receipts: map<int, Receipt>, kept: map<int, Receipt>, db: Tables, r: Tables)
    requires ClaimsLive(receipts, db) && Settles(db, r) && ReceiptsSettle(receipts, kept, r)
    ensures ClaimsLive(kept, r)
  {
    forall t | t in kept && kept[t].state.Claimed? ensures ClaimLive(kept[t], r) {
      assert t in receipts.Keys && ReceiptSettles(receipts[t], kept[t], r);
      assert ClaimLive(receipts[t], db);
      assert InvocationSettles(db.invocations[kept[t].invocation.value], r.invocations[kept[t].invocation.value]);
    }
    forall t | t in kept && kept[t].bucket.Some? ensures kept[t].bucket.value < r.nextBucket {
      assert t in receipts.Keys && ReceiptSettles(receipts[t], kept[t], r);
    }
  }

  lemma SettlingKeepsReceipts(tasks: map<int, Task>, receipts: map<int, Receipt>, kept: map<int, Receipt>,
                              claims: multiset<int>, r: Tables)
    requires ReceiptsMatch(tasks, receipts, claims) && ReceiptsSettle(receipts, kept, r)
    ensures ReceiptsMatch(tasks, kept, claims)
  {
    forall t | t in kept ensures t in receipts && ReceiptSettles(receipts[t], kept[t], r) {
      assert t in receipts.Keys;
    }
    forall t: int ensures claims[t] <= if t in kept && !kept[t].state.Pending? then 1 else 0 {
      if t in receipts { assert ReceiptSettles(receipts[t], kept[t], r); }
    }
  }

  ghost predicate StateSettles(s: State, t: State) {
    && t == s.(db := t.db, receipts := t.receipts, memory := t.memory, paused := t.paused)
    && Settles(s.db, t.db)
    && MemorySettles(s.memory, t.memory, s.db, t.db)
    && ReceiptsSettle(s.receipts, t.receipts, t.db)
  }

  lemma SettlingKeeps(s: State, t: State, clock: int)
    requires Inv(s, clock) && StateSettles(s, t)
    ensures Inv(t, clock)
  {
    hide TablesMatch, MemoryMatches, Injected, ClaimsLive, ReceiptsMatch, Windows, Rounds;
    hide Settles, MemorySettles, ReceiptsSettle;
    SettlingKeepsTables(s.db, t.db);
    SettlingKeepsMemory(s.memory, t.memory, s.db, t.db);
    SettlingKeepsInjected(s.injections, s.db, t.db);
    SettlingKeepsClaims(s.receipts, t.receipts, s.db, t.db);
    SettlingKeepsReceipts(s.tasks, s.receipts, t.receipts, s.claims, t.db);
    SettlingKeepsWindows(s.window, s.freeAt, s.db, t.db);
    SettlingKeepsRounds(s.memory, t.memory, s.freeAt, s.db, t.db, clock);
  }
}
