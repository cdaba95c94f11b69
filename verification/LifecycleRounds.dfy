/** The steps of a live run: launch, turn boundaries, acknowledged batches, and the time it is free. */
module LifecycleRounds {
  import opened LifecycleTables
  import opened LifecycleSteps
  import opened LifecycleInvariant
  import opened LifecycleKeeps
  import opened LifecycleSettling

  // ---- memory is rearranged ----

  lemma MemFaithful(s: State, c: Conversation)
    requires MemoryMatches(s.memory, s.db)
    ensures Faithful(Mem(s, c), c, s.db)
  {
    hide Faithful;
    IdleFaithful(c, s.db);
  }

  lemma RearrangeFaithful(m: Memory, n: Memory, c: Conversation, db: Tables)
    requires Faithful(m, c, db) && Waits(n) <= Waits(m)
    requires n != IDLE ==> exists i :: RunsFor(db, c, i)
    ensures Faithful(n, c, db)
  {
    hide Waits, Delivers, RunsFor;
    forall b | b in Waits(n) ensures exists i :: Delivers(db, c, i, b) {
      assert b in Waits(m);
    }
    forall b: int ensures Waits(n)[b] <= 1 {
      assert Waits(n)[b] <= Waits(m)[b];
    }
  }

  lemma RearrangeMemory(s: State, c: Conversation, n: Memory)
    requires MemoryMatches(s.memory, s.db) && Waits(n) <= Waits(Mem(s, c))
    requires n != IDLE ==> exists i :: RunsFor(s.db, c, i)
    ensures MemoryMatches(SetMemory(s, c, n).memory, s.db)
  {
    MemFaithful(s, c);
    RearrangeFaithful(Mem(s, c), n, c, s.db);
    hide Waits, Faithful, RunsFor;
  }

  lemma RearrangeRounds(s: State, c: Conversation, n: Memory, clock: int)
    requires Rounds(s.memory, s.freeAt, s.db, clock) && (Mem(s, c).round ==> n.round)
    ensures Rounds(SetMemory(s, c, n).memory, s.freeAt, s.db, clock)
  {
  }

  lemma RearrangeKeeps(s: State, c: Conversation, n: Memory, clock: int)
    requires Inv(s, clock) && Waits(n) <= Waits(Mem(s, c))
    requires n != IDLE ==> exists i :: RunsFor(s.db, c, i)
    requires Mem(s, c).round ==> n.round
    ensures Inv(SetMemory(s, c, n), clock)
  {
    hide TablesMatch, MemoryMatches, Rounds, Injected, ClaimsLive, ReceiptsMatch, Windows, Waits, Faithful, RunsFor;
    RearrangeMemory(s, c, n);
    RearrangeRounds(s, c, n, clock);
  }

  lemma TagsAppend(xs: seq<Tag>, ys: seq<Tag>)
    ensures TagBuckets(xs + ys) == TagBuckets(xs) + TagBuckets(ys)
  {
    if xs == [] { assert xs + ys == ys; }
    else { assert (xs + ys)[1..] == xs[1..] + ys; TagsAppend(xs[1..], ys); }
  }

  lemma BatchTags(bs: seq<int>)
    ensures TagBuckets(Batches(bs)) == bs
  {
  }

  lemma BucketsCons(e: Entry, rest: seq<Entry>)
    ensures multiset(Buckets([e] + rest)) == multiset{e.bucket} + multiset(Buckets(rest))
  {
    assert ([e] + rest)[1..] == rest;
    assert Buckets([e] + rest) == [e.bucket] + Buckets(rest);
  }

  lemma OfKindCons(e: Entry, rest: seq<Entry>, kind: Kind)
    ensures OfKind([e] + rest, kind) == (if e.kind == kind then [e] + OfKind(rest, kind) else OfKind(rest, kind))
  {
    assert ([e] + rest)[1..] == rest;
  }

  lemma {:induction false} KindsPartition(entries: seq<Entry>)
    ensures multiset(Buckets(entries))
            == multiset(Buckets(OfKind(entries, Messages))) + multiset(Buckets(OfKind(entries, Completion)))
  {
    if entries == [] {
    } else {
      var e, rest := entries[0], entries[1..];
      assert entries == [e] + rest;
      KindsPartition(rest);
      OfKindCons(e, rest, Messages);
      OfKindCons(e, rest, Completion);
      BucketsCons(e, rest);
      BucketsCons(e, OfKind(rest, e.kind));
      hide Buckets, OfKind;
    }
  }

  /** What a turn boundary takes and what it leaves are everything that was waiting. */
  lemma TakenAndLeft(m: Memory, includeCompletion: bool)
    ensures multiset(Buckets(m.pending))
            == multiset(Buckets(Taken(m, includeCompletion))) + multiset(Buckets(Left(m, includeCompletion)))
  {
    if OfKind(m.pending, Messages) != [] {
      KindsPartition(m.pending);
    } else if includeCompletion && m.pending != [] {
      assert m.pending == [m.pending[0]] + m.pending[1..];
      BucketsAppend([m.pending[0]], m.pending[1..]);
    }
  }

  lemma InjectPendingWaits(m: Memory, includeCompletion: bool)
    ensures Waits(m.(pending := Left(m, includeCompletion),
                     tags := m.tags + Batches(Buckets(Taken(m, includeCompletion))), round := true)) == Waits(m)
  {
    TakenAndLeft(m, includeCompletion);
    BatchTags(Buckets(Taken(m, includeCompletion)));
    TagsAppend(m.tags, Batches(Buckets(Taken(m, includeCompletion))));
  }

  lemma InjectPendingKeeps(s: State, c: Conversation, includeCompletion: bool, clock: int)
    requires Inv(s, clock)
    ensures Inv(InjectPending(s, c, includeCompletion), clock)
  {
    var m := Mem(s, c);
    if Taken(m, includeCompletion) != [] {
      MemFaithful(s, c);
      assert m.pending == [] ==> OfKind(m.pending, Messages) == [];
      hide Inv, Waits, Left, Taken;
      InjectPendingWaits(m, includeCompletion);
      RearrangeKeeps(s, c, m.(pending := Left(m, includeCompletion),
                              tags := m.tags + Batches(Buckets(Taken(m, includeCompletion))), round := true), clock);
    }
  }

  /** A nudge, the closing flag and the barrier's mark leave what waits as it is. */
  lemma FlagsKeep(s: State, c: Conversation, n: Memory, clock: int)
    requires Inv(s, clock) && RunningOf(s.db, c).Some?
    requires n.pending == Mem(s, c).pending && n.round == Mem(s, c).round
    requires n.tags == Mem(s, c).tags || n.tags == Mem(s, c).tags + [Harness]
    ensures Inv(SetMemory(s, c, n), clock)
  {
    hide Inv;
    TagsAppend(Mem(s, c).tags, [Harness]);
    assert TagBuckets([Harness]) == [] + TagBuckets([]);
    RearrangeKeeps(s, c, n, clock);
  }

  lemma ClearQueuesKeeps(s: State, c: Conversation, clock: int)
    requires Inv(s, clock)
    ensures Inv(ClearQueues(s, c), clock) && Waits(Mem(ClearQueues(s, c), c)) == multiset{}
  {
    var n := Mem(s, c).(pending := [], tags := []);
    assert Waits(n) == multiset{};
    MemFaithful(s, c);
    hide Inv, Waits;
    RearrangeKeeps(s, c, n, clock);
  }

  // ---- the agent reads a batch ----

  lemma PopWaits(m: Memory)
    requires m.tags != []
    ensures Waits(m) == Waits(m.(tags := m.tags[1..])) + (if m.tags[0].Batch? then multiset{m.tags[0].bucket} else multiset{})
  {
    assert m.tags == [m.tags[0]] + m.tags[1..];
    TagsAppend([m.tags[0]], m.tags[1..]);
    assert TagBuckets([m.tags[0]]) == (if m.tags[0].Batch? then [m.tags[0].bucket] else []) + TagBuckets([]);
  }

  /** A batch waits only in the memory of its own conversation. */
  lemma WaitsAtHome(s: State, b: int, d: Conversation)
    requires Rows(s.db) && MemoryMatches(s.memory, s.db) && d in s.memory && b in Waits(s.memory[d])
    ensures b in s.db.buckets && s.db.buckets[b].conv == d
  {
    assert Faithful(s.memory[d], d, s.db);
    var i :| Delivers(s.db, d, i, b);
  }

  ghost predicate Readable(s: State, c: Conversation, i: int, b: int) {
    Delivers(s.db, c, i, b) && Unawaited(s.memory, b) && b !in s.injections
  }

  lemma ReadKeeps(s: State, c: Conversation, i: int, b: int, clock: int)
    requires Inv(s, clock) && Readable(s, c, i, b)
    ensures Inv(s.(db := Join(s.db, i, b, true), injections := s.injections + [b]), clock)
  {
    hide Inv;
    ReadTables(s, c, i, b, clock);
    ReadMemory(s, c, i, b, clock);
    ReadInjected(s, c, i, b, clock);
    ReadRest(s, c, i, b, clock);
    ReadAll(s, c, i, b, clock);
  }

  lemma ReadAll(s: State, c: Conversation, i: int, b: int, clock: int)
    requires Inv(s, clock) && i in s.db.invocations
    requires TablesMatch(Join(s.db, i, b, true)) && MemoryMatches(s.memory, Join(s.db, i, b, true))
    requires Injected(s.injections + [b], Join(s.db, i, b, true))
    requires ClaimsLive(s.receipts, Join(s.db, i, b, true)) && Windows(s.window, s.freeAt, Join(s.db, i, b, true))
    requires Rounds(s.memory, s.freeAt, Join(s.db, i, b, true), clock)
    ensures Inv(s.(db := Join(s.db, i, b, true), injections := s.injections + [b]), clock)
  {
    hide TablesMatch, MemoryMatches, Injected, ClaimsLive, ReceiptsMatch, Windows, Rounds, Join;
  }

  lemma ReadTables(s: State, c: Conversation, i: int, b: int, clock: int)
    requires Inv(s, clock) && Readable(s, c, i, b)
    ensures TablesMatch(Join(s.db, i, b, true))
  {
    hide MemoryMatches, Injected, ClaimsLive, ReceiptsMatch, Windows, Rounds, Unawaited;
    ReadSimple(s.db, c, i, b);
    ReadQueue(s.db, c, i, b);
    ReadRuns(s.db, c, i, b);
  }

  lemma ReadSimple(db: Tables, c: Conversation, i: int, b: int)
    requires Rows(db) && OneCollecting(db) && OpensOnce(db) && Delivers(db, c, i, b)
    ensures Rows(Join(db, i, b, true)) && OneCollecting(Join(db, i, b, true)) && OpensOnce(Join(db, i, b, true))
  {
  }

  lemma ReadQueue(db: Tables, c: Conversation, i: int, b: int)
    requires QueueMatches(db) && Delivers(db, c, i, b)
    ensures QueueMatches(Join(db, i, b, true))
  {
    var r := Join(db, i, b, true);
    forall a | a in r.buckets && r.buckets[a].state.Queued? ensures exists j :: Opens(r, j, a) {
      var j :| Opens(db, j, a);
      assert Opens(r, j, a);
    }
    forall j, a | Opens(r, j, a) ensures a in r.buckets && r.buckets[a].state.Queued? {
      assert Opens(db, j, a);
    }
  }

  lemma ReadRuns(db: Tables, c: Conversation, i: int, b: int)
    requires RunsMatch(db) && AttachedOpensNothing(db) && Delivers(db, c, i, b)
    ensures RunsMatch(Join(db, i, b, true)) && AttachedOpensNothing(Join(db, i, b, true))
  {
    var r := Join(db, i, b, true);
    forall a | a in r.buckets && r.buckets[a].state.Running? ensures exists j :: Holds(r, j, a) {
      var j :| Holds(db, j, a);
      assert Holds(r, j, a);
    }
    forall j, a | Holds(r, j, a) ensures Holds(db, j, a) {
    }
  }

  lemma ReadMemory(s: State, c: Conversation, i: int, b: int, clock: int)
    requires Inv(s, clock) && Readable(s, c, i, b)
    ensures MemoryMatches(s.memory, Join(s.db, i, b, true))
  {
    hide TablesMatch, Injected, ClaimsLive, ReceiptsMatch, Windows, Rounds, Faithful, Waits;
    var r := Join(s.db, i, b, true);
    forall d | d in s.memory ensures Faithful(s.memory[d], d, r) {
      FaithfulTransfers(s.memory[d], d, s.db, r);
    }
  }

  lemma ReadInjected(s: State, c: Conversation, i: int, b: int, clock: int)
    requires Inv(s, clock) && Readable(s, c, i, b)
    ensures Injected(s.injections + [b], Join(s.db, i, b, true))
  {
    hide MemoryMatches, ClaimsLive, ReceiptsMatch, Windows, Rounds, Waits, Unawaited;
    hide OneCollecting, OpensOnce, QueueMatches, AttachedOpensNothing;
    var r := Join(s.db, i, b, true);
    forall j, a | Holds(r, j, a) && !r.invocations[j].batches[a] ensures a !in s.injections + [b] {
      assert Holds(s.db, j, a) && !s.db.invocations[j].batches[a];
    }
  }

  lemma ReadRest(s: State, c: Conversation, i: int, b: int, clock: int)
    requires Inv(s, clock) && Readable(s, c, i, b)
    ensures ClaimsLive(s.receipts, Join(s.db, i, b, true)) && Windows(s.window, s.freeAt, Join(s.db, i, b, true))
    ensures Rounds(s.memory, s.freeAt, Join(s.db, i, b, true), clock)
  {
    hide TablesMatch, MemoryMatches, Injected, ReceiptsMatch, Waits, Unawaited;
    var r := Join(s.db, i, b, true);
    forall t | t in s.receipts && s.receipts[t].state.Claimed? ensures ClaimLive(s.receipts[t], r) {
      assert ClaimLive(s.receipts[t], s.db);
    }
    forall j | RunningInvocation(r, j) ensures RunningInvocation(s.db, j) {
    }
  }

  lemma UserMessageEndKeeps(s: State, c: Conversation, clock: int)
    requires Inv(s, clock)
    ensures Inv(UserMessageEnd(s, c), clock)
  {
    var m := Mem(s, c);
    var running := RunningOf(s.db, c);
    if m.tags != [] && running.Some? {
      var n := m.(tags := m.tags[1..]);
      var t := SetMemory(s, c, n);
      PopWaits(m);
      RearrangeKeeps(s, c, n, clock);
      if m.tags[0].Batch? {
        PoppedIsReadable(s, c, m.tags[0].bucket, running.value, clock);
        hide Inv, Readable;
        ReadKeeps(t, c, running.value, m.tags[0].bucket, clock);
      }
    }
  }

  lemma PoppedIsReadable(s: State, c: Conversation, b: int, i: int, clock: int)
    requires Inv(s, clock) && Mem(s, c).tags != [] && Mem(s, c).tags[0] == Batch(b) && RunsFor(s.db, c, i)
    ensures Readable(SetMemory(s, c, Mem(s, c).(tags := Mem(s, c).tags[1..])), c, i, b)
  {
    hide ClaimsLive, ReceiptsMatch, Windows, Rounds, OneCollecting, OpensOnce, QueueMatches, AttachedOpensNothing;
    var m := Mem(s, c);
    var n := m.(tags := m.tags[1..]);
    PopWaits(m);
    MemFaithful(s, c);
    hide Waits, TagBuckets, Buckets;
    assert b in Waits(m) && b !in Waits(n);
    var j :| Delivers(s.db, c, j, b);
    assert j == i;
    assert Holds(s.db, i, b);
    forall d | d in s.memory && b in Waits(s.memory[d]) ensures d == c {
      WaitsAtHome(s, b, d);
      WaitsAtHome(s, b, c);
    }
  }

  // ---- the agent becomes free ----

  lemma PushSettles(db: Tables, scope: set<int>, atLeast: int)
    requires QueueMatches(db)
    ensures Settles(db, PushDeadlines(db, scope, atLeast))
  {
    assert PushDeadlines(db, scope, atLeast).buckets.Keys == db.buckets.Keys;
  }

  lemma PushKeepsTables(injections: seq<int>, db: Tables, scope: set<int>, atLeast: int)
    requires TablesMatch(db) && Injected(injections, db)
    ensures TablesMatch(PushDeadlines(db, scope, atLeast)) && Injected(injections, PushDeadlines(db, scope, atLeast))
  {
    PushSettles(db, scope, atLeast);
    hide TablesMatch, Injected, Settles, PushDeadlines;
    SettlingKeepsTables(db, PushDeadlines(db, scope, atLeast));
    SettlingKeepsInjected(injections, db, PushDeadlines(db, scope, atLeast));
  }

  lemma FreeAgentKeeps(s: State, c: Conversation, now: int, clock: int)
    requires Inv(s, clock) && clock <= now
    ensures Inv(FreeAgent(s, c, now), now)
  {
    hide TablesMatch, MemoryMatches, Injected, ClaimsLive, ReceiptsMatch, Windows, Rounds, PushDeadlines, CollectingOf;
    FreeAgentMemory(s, c, now);
    FreeAgentWindows(s, c, now);
    FreeAgentRounds(s, c, now, clock);
    FreeAgentReceipts(s, c, now);
    PushKeepsTables(s.injections, s.db, CollectingOf(s.db, c), now + s.window);
  }

  lemma PushRuns(db: Tables, scope: set<int>, atLeast: int)
    ensures forall d, i | RunsFor(db, d, i) :: RunsFor(PushDeadlines(db, scope, atLeast), d, i)
    ensures forall d, i, b | Delivers(db, d, i, b) :: Delivers(PushDeadlines(db, scope, atLeast), d, i, b)
  {
  }

  lemma FreeAgentMemory(s: State, c: Conversation, now: int)
    requires MemoryMatches(s.memory, s.db)
    ensures MemoryMatches(FreeAgent(s, c, now).memory, FreeAgent(s, c, now).db)
  {
    hide CollectingOf, PushDeadlines, RunsFor, Delivers;
    var t := FreeAgent(s, c, now);
    MemFaithful(s, c);
    assert Waits(t.memory[c]) == Waits(Mem(s, c));
    RearrangeFaithful(Mem(s, c), t.memory[c], c, s.db);
    PushRuns(s.db, CollectingOf(s.db, c), now + s.window);
    hide Waits, Faithful;
    forall d | d in t.memory ensures Faithful(t.memory[d], d, t.db) {
      FaithfulTransfers(t.memory[d], d, s.db, t.db);
    }
  }

  lemma FreeAgentWindows(s: State, c: Conversation, now: int)
    requires Windows(s.window, s.freeAt, s.db)
    ensures Windows(s.window, FreeAgent(s, c, now).freeAt, FreeAgent(s, c, now).db)
  {
  }

  lemma FreeAgentRounds(s: State, c: Conversation, now: int, clock: int)
    requires Rounds(s.memory, s.freeAt, s.db, clock) && clock <= now
    ensures Rounds(FreeAgent(s, c, now).memory, FreeAgent(s, c, now).freeAt, FreeAgent(s, c, now).db, now)
  {
  }

  lemma FreeAgentReceipts(s: State, c: Conversation, now: int)
    requires ClaimsLive(s.receipts, s.db)
    ensures ClaimsLive(s.receipts, FreeAgent(s, c, now).db)
  {
    forall t | t in s.receipts && s.receipts[t].state.Claimed? ensures ClaimLive(s.receipts[t], FreeAgent(s, c, now).db) {
      assert ClaimLive(s.receipts[t], s.db);
    }
  }

  lemma ClockAdvances(s: State, clock: int, now: int)
    requires Inv(s, clock) && clock <= now
    ensures Inv(s, now)
  {
    hide TablesMatch, MemoryMatches, Injected, ClaimsLive, ReceiptsMatch, Windows;
  }

  lemma SideEffectKeeps(s: State, c: Conversation, clock: int)
    requires Inv(s, clock)
    ensures Inv(StartSideEffect(s, c), clock)
  {
    var t := StartSideEffect(s, c);
    SideEffectBalances(s, c);
    SideEffectReceipts(s, c);
    SameRuns(s, c);
    hide TablesMatch, MemoryMatches, Injected, ClaimsLive, ReceiptsMatch, Windows, Rounds, Settles, StartSideEffect,
      ReceiptsSettle, MemorySettles;
    SettlingKeeps(s, t, clock);
  }

  lemma MarkSettles(db: Tables, i: int)
    requires QueueMatches(db) && i in db.invocations
    ensures Settles(db, db.(invocations := db.invocations[i := db.invocations[i].(sideEffect := true)]))
  {
    var r := db.(invocations := db.invocations[i := db.invocations[i].(sideEffect := true)]);
    assert RowsSettle(db, r);
    forall j, b | Opens(db, j, b) ensures QueuedInvocation(r, j) <==> (b in r.buckets && r.buckets[b].state.Queued?) {
    }
  }

  lemma SideEffectBalances(s: State, c: Conversation)
    requires TablesMatch(s.db)
    ensures Settles(s.db, StartSideEffect(s, c).db)
  {
    hide Settles, Rows, OneCollecting, OpensOnce, QueueMatches, RunsMatch, AttachedOpensNothing;
    if RunningOf(s.db, c).Some? { MarkSettles(s.db, RunningOf(s.db, c).value); }
    else { SettlesItself(s.db); }
  }

  lemma SideEffectReceipts(s: State, c: Conversation)
    requires ClaimsLive(s.receipts, s.db)
    ensures ReceiptsSettle(s.receipts, s.receipts, StartSideEffect(s, c).db)
  {
    forall t | t in s.receipts && s.receipts[t].state.Claimed? ensures Live(StartSideEffect(s, c).db, s.receipts[t].invocation.value) {
      assert ClaimLive(s.receipts[t], s.db);
    }
  }

  lemma SameRuns(s: State, c: Conversation)
    ensures MemorySettles(s.memory, s.memory, s.db, StartSideEffect(s, c).db)
    ensures StartSideEffect(s, c) == s.(db := StartSideEffect(s, c).db)
  {
  }
}
