/** The end of a run in two halves: the teardown of its memory, and the terminal transaction. */
module LifecycleTeardown {
  import opened LifecycleTables
  import opened LifecycleSteps
  import opened LifecycleResults

  /** The agent's teardown alone: queue and flags of the conversation are gone. */
  function Torn(s: State, c: Conversation): State { SetMemory(s, c, IDLE) }

  /** The terminal transaction alone. */
  function Terminal(s: State, i: int, final: Final, now: int): State
    requires i in s.db.invocations
  {
    Seal(ReleaseFold(s, i, UnreadBatches(s, i)), i, final, now).(memory := s.memory)
  }

  lemma {:induction false} ReleaseForgets(s: State, m: map<Conversation, Memory>, i: int, bs: seq<int>)
    requires forall b | b in bs :: b in s.db.buckets
    ensures ReleaseFold(s.(memory := m), i, bs) == ReleaseFold(s, i, bs).(memory := m)
    decreases bs
  {
    if bs != [] {
      var t := ReleaseStep(s, i, bs[0]);
      ReleaseStepKeys(s, i, bs[0]);
      assert ReleaseStep(s.(memory := m), i, bs[0]) == t.(memory := m);
      hide ReleaseStep;
      ReleaseForgets(t, m, i, bs[1..]);
    }
  }

  lemma SealForgets(r: State, m: map<Conversation, Memory>, i: int, final: Final, now: int)
    requires i in r.db.invocations
    ensures var sealed := Seal(r, i, final, now);
            Seal(r.(memory := m), i, final, now) == sealed.(memory := m - {r.db.invocations[i].conv})
  {
  }

  /** With nothing in between, the two halves are the whole. */
  lemma HalvesMakeWhole(s: State, i: int, final: Final, now: int)
    requires i in s.db.invocations && IdsBelow(s.db)
    ensures var c := s.db.invocations[i].conv;
            Finish(s, i, final, now) == Terminal(Torn(s, c), i, final, now).(memory := s.memory - {c})
  {
    hide ReleaseFold, Seal, UnreadBatches, Released, IdsBelow;
    var c := s.db.invocations[i].conv;
    var bs := UnreadBatches(s, i);
    SameUnread(s, Torn(s, c), i);
    UnreadFacts(s, i);
    var r := ReleaseFold(s, i, bs);
    var cleared, torn := ClearQueues(s, c).memory, Torn(s, c).memory;
    ReleaseForgets(s, cleared, i, bs);
    ReleaseForgets(s, torn, i, bs);
    SealForgets(r, cleared, i, final, now);
    SealForgets(r, torn, i, final, now);
    ReleaseLeaves(s, i);
    FinishIsSeal(s, i, final, now);
    assert cleared - {c} == s.memory - {c} && torn - {c} == s.memory - {c};
  }

  lemma UnreadFacts(s: State, i: int)
    ensures forall b | b in UnreadBatches(s, i) :: b in s.db.buckets
    ensures var bs := UnreadBatches(s, i); forall x, y | 0 <= x < y < |bs| :: bs[x] != bs[y]
  {
  }

  lemma SameUnread(s: State, t: State, i: int)
    requires t.db == s.db
    ensures UnreadBatches(t, i) == UnreadBatches(s, i)
  {
  }

  lemma ReleaseLeaves(s: State, i: int)
    requires i in s.db.invocations && IdsBelow(s.db)
    ensures ReleaseFold(s, i, UnreadBatches(s, i)).db.invocations[i] == s.db.invocations[i]
  {
    hide ReleaseFold, IdsBelow;
    ReleaseFoldEffect(s, i, UnreadBatches(s, i));
  }

  lemma {:induction false} ReleaseStartsNothing(s: State, i: int, bs: seq<int>, k: int)
    requires forall b | b in bs :: b in s.db.buckets
    requires IdsBelow(s.db)
    ensures RunningInvocation(ReleaseFold(s, i, bs).db, k)
            ==> RunningInvocation(s.db, k) && ReleaseFold(s, i, bs).db.invocations[k].conv == s.db.invocations[k].conv
    decreases bs
  {
    if bs != [] {
      ReleaseStepKeys(s, i, bs[0]);
      ReleaseStartsNothing(ReleaseStep(s, i, bs[0]), i, bs[1..], k);
    }
  }

  lemma UnreadListed(u: State, i: int, b: int)
    requires i in u.db.invocations && b in u.db.buckets && Unread(u.db, i, b)
    ensures b in UnreadBatches(u, i)
  {
  }

  lemma SealEnds(r: State, i: int, final: Final, now: int)
    requires i in r.db.invocations
    ensures !RunningInvocation(Seal(r, i, final, now).db, i)
  {
  }

  lemma TerminalForgets(s: State, m: map<Conversation, Memory>, i: int, final: Final, now: int)
    requires i in s.db.invocations && IdsBelow(s.db)
    ensures Terminal(s.(memory := m), i, final, now) == Terminal(s, i, final, now).(memory := m)
  {
    hide ReleaseFold, Seal, UnreadBatches, IdsBelow;
    var bs := UnreadBatches(s, i);
    SameUnread(s, s.(memory := m), i);
    UnreadFacts(s, i);
    ReleaseForgets(s, m, i, bs);
    SealForgets(ReleaseFold(s, i, bs), m, i, final, now);
  }

  // ---- what a stale entry does ----

  /** The run that starts reads its opening, and from memory the first entry a turn boundary takes. */
  lemma StaleEntryIsRead(t: State, c: Conversation, j: int, now: int)
    requires Mem(t, c) == IDLE.(pending := Mem(t, c).pending) && Taken(Mem(t, c), true) != []
    requires QueuedInvocation(t.db, j) && t.db.invocations[j].conv == c
    requires t.db.invocations[j].bucket in t.db.buckets && t.db.invocations[j].bucket in t.db.invocations[j].batches
    requires forall k :: !RunsFor(t.db, c, k)
    ensures var s1 := UserMessageEnd(Start(t, j, now), c);
            var s3 := UserMessageEnd(InjectPending(s1, c, true), c);
            var b := Taken(Mem(t, c), true)[0].bucket;
            && s3.injections == t.injections + [t.db.invocations[j].bucket, b]
            && RunsFor(s1.db, c, j) && (b !in s1.db.invocations[j].batches ==> s3.db == s1.db)
            && s3 == s1.(db := s3.db, memory := s3.memory, injections := s3.injections)
            && (forall d | d != c :: Mem(s3, d) == Mem(t, d))
  {
    StartedReads(t, c, j, now);
    hide Start, Taken, Left;
    var s1 := UserMessageEnd(Start(t, j, now), c);
    var taken := Taken(Mem(s1, c), true);
    var b := taken[0].bucket;
    assert Taken(Mem(s1, c), true) == Taken(Mem(t, c), true) by { TakenOfPending(Mem(s1, c), Mem(t, c)); }
    var s2 := InjectPending(s1, c, true);
    assert Buckets(taken) == [b] + Buckets(taken[1..]);
    assert Batches(Buckets(taken))[0] == Batch(b);
    assert Mem(s2, c).tags == [] + Batches(Buckets(taken));
    assert s2 == s1.(memory := s2.memory) && forall d | d != c :: Mem(s2, d) == Mem(s1, d);
    hide InjectPending;
    assert RunsFor(s2.db, c, j) && RunningOf(s2.db, c).Some? && RunningOf(s2.db, c).value == j;
    assert t.injections + [t.db.invocations[j].bucket] + [b] == t.injections + [t.db.invocations[j].bucket, b];
  }

  /**
   So memory that still holds a batch another invocation opens with has that batch written twice by the run of that
   invocation.
   */
  lemma StaleEntryInjectsTwice(t: State, c: Conversation, j: int, now: int)
    requires Mem(t, c) == IDLE.(pending := Mem(t, c).pending) && Taken(Mem(t, c), true) != []
    requires QueuedInvocation(t.db, j) && t.db.invocations[j].conv == c
    requires t.db.invocations[j].bucket == Taken(Mem(t, c), true)[0].bucket
    requires t.db.invocations[j].bucket in t.db.buckets && t.db.invocations[j].bucket in t.db.invocations[j].batches
    requires forall k :: !RunsFor(t.db, c, k)
    ensures var b := t.db.invocations[j].bucket;
            UserMessageEnd(InjectPending(UserMessageEnd(Start(t, j, now), c), c, true), c).injections == t.injections + [b, b]
  {
    hide Start, Taken, UserMessageEnd, InjectPending;
    StaleEntryIsRead(t, c, j, now);
  }

  lemma TakenOfPending(m: Memory, n: Memory)
    requires m.pending == n.pending
    ensures Taken(m, true) == Taken(n, true)
  {
  }

  lemma StartedReads(t: State, c: Conversation, j: int, now: int)
    requires Mem(t, c) == IDLE.(pending := Mem(t, c).pending)
    requires QueuedInvocation(t.db, j) && t.db.invocations[j].conv == c
    requires t.db.invocations[j].bucket in t.db.buckets && t.db.invocations[j].bucket in t.db.invocations[j].batches
    requires forall k :: !RunsFor(t.db, c, k)
    ensures var b, s1 := t.db.invocations[j].bucket, UserMessageEnd(Start(t, j, now), c);
            && s1.injections == t.injections + [b] && RunsFor(s1.db, c, j)
            && Mem(s1, c).pending == Mem(t, c).pending && Mem(s1, c).tags == []
            && (forall k | RunsFor(s1.db, c, k) :: k == j) && (forall d | d != c :: Mem(s1, d) == Mem(t, d))
  {
    var s0 := Start(t, j, now);
    assert RunsFor(s0.db, c, j);
    forall k | RunsFor(s0.db, c, k) ensures k == j {
      assert !RunsFor(t.db, c, k);
    }
    assert Mem(s0, c).tags == [Batch(t.db.invocations[j].bucket)] && Mem(s0, c).tags[1..] == [];
    assert RunningOf(s0.db, c).Some? && RunningOf(s0.db, c).value == j;
    forall k | RunsFor(UserMessageEnd(s0, c).db, c, k) ensures k == j {
      assert RunsFor(s0.db, c, k);
    }
  }
}
