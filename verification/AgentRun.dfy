/** The hooks of one live run, in the source's own form: its queue of batches, its flags, its deadline writes. */
module AgentRun {
  import opened Options
  import opened Ordering
  import opened LifecycleTables
  import opened LifecycleSteps
  import opened InvocationQueue

  lemma OfKindSnoc(entries: seq<Entry>, e: Entry, kind: Kind)
    ensures OfKind(entries + [e], kind) == OfKind(entries, kind) + (if e.kind == kind then [e] else [])
  {
    if entries == [] {
      assert entries + [e] == [e];
    } else {
      assert (entries + [e])[1..] == entries[1..] + [e];
      OfKindSnoc(entries[1..], e, kind);
    }
  }

  lemma BucketsAt(entries: seq<Entry>)
    ensures |Buckets(entries)| == |entries|
    ensures forall k | 0 <= k < |entries| :: Buckets(entries)[k] == entries[k].bucket
  {
  }

  lemma BatchesSnoc(bs: seq<int>, b: int)
    ensures Batches(bs + [b]) == Batches(bs) + [Batch(b)]
  {
    if bs == [] {
      assert bs + [b] == [b];
    } else {
      assert (bs + [b])[1..] == bs[1..] + [b];
      BatchesSnoc(bs[1..], b);
    }
  }

  class Run {
    const store: Store
    const conv: Conversation

    constructor (store: Store, conv: Conversation)
      ensures this.store == store && this.conv == conv
    {
      this.store := store;
      this.conv := conv;
    }

    method Filter(entries: seq<Entry>, kind: Kind) returns (kept: seq<Entry>)
      ensures kept == OfKind(entries, kind)
    {
      kept := [];
      for k := 0 to |entries|
        invariant kept == OfKind(entries[..k], kind)
      {
        OfKindSnoc(entries[..k], entries[k], kind);
        assert entries[..k + 1] == entries[..k] + [entries[k]];
        if entries[k].kind == kind { kept := kept + [entries[k]]; }
      }
      assert entries[..|entries|] == entries;
    }

    /** Every waiting user batch, or else, between rounds, one receipt. */
    method TakeNextInjections(includeCompletion: bool) returns (taken: seq<Entry>)
      modifies store`memory
      ensures var m := old(store.Mem(conv));
              && taken == Taken(m, includeCompletion)
              && (taken == [] ==> store.memory == old(store.memory))
              && (taken != [] ==> store.memory == old(store.memory)[conv := m.(pending := Left(m, includeCompletion))])
    {
      var m := store.Mem(conv);
      var messages := Filter(m.pending, Messages);
      if messages != [] {
        var rest := Filter(m.pending, Completion);
        store.memory := store.memory[conv := m.(pending := rest)];
        return messages;
      }
      if !includeCompletion || m.pending == [] {
        return [];
      }
      store.memory := store.memory[conv := m.(pending := m.pending[1..])];
      return [m.pending[0]];
    }

    /** Steers each batch into the agent as one user message of the round that begins. */
    method Steer(taken: seq<Entry>)
      requires conv in store.memory && taken != []
      modifies store`memory
      ensures var m := old(store.memory[conv]);
              store.memory == old(store.memory)[conv := m.(tags := m.tags + Batches(Buckets(taken)), round := true)]
    {
      ghost var before, m := store.memory, store.memory[conv];
      ghost var ids := Buckets(taken);
      BucketsAt(taken);
      assert Batches(ids[..0]) == [] && m.tags + [] == m.tags;
      for k := 0 to |taken|
        invariant conv in store.memory && store.memory == before[conv := store.memory[conv]]
        invariant store.memory[conv] == m.(tags := m.tags + Batches(ids[..k]), round := k > 0 || m.round)
      {
        BatchesSnoc(ids[..k], ids[k]);
        assert ids[..k + 1] == ids[..k] + [ids[k]];
        assert m.tags + Batches(ids[..k]) + [Batch(ids[k])] == m.tags + Batches(ids[..k + 1]);
        var now := store.memory[conv];
        store.memory := store.memory[conv := now.(tags := now.tags + [Batch(taken[k].bucket)], round := true)];
        assert store.memory == before[conv := store.memory[conv]];
      }
      assert ids[..|ids|] == ids;
    }

    /** Hands the agent what a turn boundary takes. */
    method InjectPending(includeCompletion: bool) returns (injected: bool)
      modifies store`memory
      ensures injected == (Taken(old(store.Mem(conv)), includeCompletion) != [])
      ensures store.View() == LifecycleSteps.InjectPending(old(store.View()), conv, includeCompletion)
    {
      var taken := TakeNextInjections(includeCompletion);
      if taken == [] {
        return false;
      }
      hide Taken, Left, Batches, Buckets;
      Steer(taken);
      return true;
    }

    /** The send barrier: true when the reply has to wait for a batch that is still collecting. */
    method HoldForNewMessages(completing: bool, i: int) returns (hold: bool)
      requires RunningOf(store.db, conv) == Some(i)
      modifies store`db, store`memory
      ensures store.View() == Barrier(old(store.View()), conv, completing)
      ensures var m := old(store.Mem(conv));
              hold <==> !m.closing && !completing
                        && (OfKind(m.pending, Messages) != []
                            || (!m.barrierSpent && CollectingOf(old(store.db), conv) != {}))
    {
      var m := store.Mem(conv);
      if m.closing || completing {
        return false;
      }
      var waiting := Filter(m.pending, Messages);
      if waiting != [] {
        return true;
      }
      if m.barrierSpent {
        return false;
      }
      var collecting := CollectingOf(store.db, conv);
      if collecting == {} {
        return false;
      }
      var b := Least(collecting, ById);
      var queue := new InvocationQueueService(store);
      queue.AttachBucketToInvocation(i, b);
      store.QueueInjection(conv, b, Messages);
      store.memory := store.memory[conv := store.Mem(conv).(barrierSpent := true)];
      return true;
    }

    /** The round is over: its flags clear, and the collecting batch gets a full window from now. */
    method FreeAgent(now: int)
      modifies store`db, store`memory, store`freeAt
      ensures store.View() == LifecycleSteps.FreeAgent(old(store.View()), conv, now)
    {
      var m := store.Mem(conv);
      store.memory := store.memory[conv := m.(round := false, barrierSpent := false)];
      store.db := PushDeadlines(store.db, CollectingOf(store.db, conv), now + store.window);
      store.freeAt := store.freeAt[conv := now];
    }

    /** A user message ended: the oldest tag names it, and its batch is acknowledged. */
    method UserMessageEnd(i: int)
      requires RunningOf(store.db, conv) == Some(i)
      modifies store`db, store`memory, store`injections
      ensures store.View() == LifecycleSteps.UserMessageEnd(old(store.View()), conv)
    {
      var m := store.Mem(conv);
      if m.tags == [] {
        return;
      }
      var tag := m.tags[0];
      store.memory := store.memory[conv := m.(tags := m.tags[1..])];
      if tag.Batch? {
        var run := store.db.invocations[i];
        if tag.bucket in run.batches {
          store.db := store.db.(invocations :=
            store.db.invocations[i := run.(batches := run.batches[tag.bucket := true])]);
        }
        store.injections := store.injections + [tag.bucket];
      }
    }
  }
}
