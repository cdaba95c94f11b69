/** The bound on cached agents: least recently used first, never the one just stored. */
module AgentCache {
  import opened Options

  /** One per-conversation state, in the order the states were created; `None` is a state without an agent. */
  datatype Slot = Slot(conversation: int, lastUsed: Option<int>)

  predicate Distinct(slots: seq<Slot>) {
    forall i, j | 0 <= i < j < |slots| :: slots[i].conversation != slots[j].conversation
  }

  function Count(slots: seq<Slot>): nat {
    if slots == [] then 0 else Count(slots[..|slots| - 1]) + if slots[|slots| - 1].lastUsed.Some? then 1 else 0
  }

  predicate Cached(slots: seq<Slot>, k: nat) { k < |slots| && slots[k].lastUsed.Some? }

  /** `after` keeps or drops each agent of `before`, and drops only agents no newer than any it keeps. */
  ghost predicate Trims(before: seq<Slot>, after: seq<Slot>, spared: int) {
    && |after| == |before|
    && (forall k | 0 <= k < |before| :: after[k] == before[k] || after[k] == before[k].(lastUsed := None))
    && (forall k | 0 <= k < |before| && before[k].conversation == spared :: after[k] == before[k])
    && (forall d: nat, k: nat | Cached(before, d) && !Cached(after, d) && Cached(after, k) && after[k].conversation != spared ::
          before[d].lastUsed.value <= before[k].lastUsed.value)
  }

  /** The agent of one conversation is stored, in its old place or in a new state at the end; every other stays. */
  ghost predicate Stores(before: seq<Slot>, after: seq<Slot>, conversation: int, now: int) {
    && |before| <= |after| <= |before| + 1
    && (forall k | 0 <= k < |before| ::
          after[k] == if before[k].conversation == conversation then Slot(conversation, Some(now)) else before[k])
    && (|after| > |before| ==> after[|before|] == Slot(conversation, Some(now)))
    && (|after| > |before| <==> forall k | 0 <= k < |before| :: before[k].conversation != conversation)
  }

  lemma {:induction false} CountDrops(a: seq<Slot>, k: nat)
    requires Cached(a, k)
    ensures Count(a[k := a[k].(lastUsed := None)]) == Count(a) - 1
    decreases |a|
  {
    var b := a[k := a[k].(lastUsed := None)];
    if k == |a| - 1 {
      assert b[..|b| - 1] == a[..|a| - 1];
    } else {
      CountDrops(a[..|a| - 1], k);
      assert b[..|b| - 1] == a[..|a| - 1][k := a[k].(lastUsed := None)];
    }
  }

  lemma TrimsMore(before: seq<Slot>, slots: seq<Slot>, v: nat, spared: int)
    requires Trims(before, slots, spared) && Cached(slots, v) && slots[v].conversation != spared
    requires forall k: nat | Cached(slots, k) && slots[k].conversation != spared ::
               slots[v].lastUsed.value <= slots[k].lastUsed.value
    ensures Trims(before, slots[v := slots[v].(lastUsed := None)], spared)
  {
    var after := slots[v := slots[v].(lastUsed := None)];
    forall d: nat, k: nat | Cached(before, d) && !Cached(after, d) && Cached(after, k) && after[k].conversation != spared
      ensures before[d].lastUsed.value <= before[k].lastUsed.value
    {
      assert Cached(slots, k) && slots[k] == before[k];
      if d == v { assert slots[d] == before[d]; } else { assert !Cached(slots, d); }
    }
  }

  class ConversationRuntime {
    const cacheSize: nat
    var slots: seq<Slot>
    var evicted: nat

    constructor (cacheSize: nat)
      ensures this.cacheSize == cacheSize && slots == [] && evicted == 0
    {
      this.cacheSize := cacheSize;
      slots, evicted := [], 0;
    }

    method CachedAgentCount() returns (count: nat)
      ensures count == Count(slots)
    {
      count := 0;
      for k := 0 to |slots|
        invariant count == Count(slots[..k])
      {
        assert slots[..k + 1][..k] == slots[..k];
        if slots[k].lastUsed.Some? { count := count + 1; }
      }
      assert slots[..|slots|] == slots;
    }

    /** The least recently used agent other than the spared one. */
    method Victim(spared: int) returns (victim: Option<nat>)
      ensures victim.Some? ==> Cached(slots, victim.value) && slots[victim.value].conversation != spared
                               && forall k: nat | Cached(slots, k) && slots[k].conversation != spared ::
                                    slots[victim.value].lastUsed.value <= slots[k].lastUsed.value
      ensures victim.None? ==> forall k: nat | Cached(slots, k) :: slots[k].conversation == spared
    {
      victim := None;
      for k := 0 to |slots|
        invariant victim.Some? ==> Cached(slots, victim.value) && slots[victim.value].conversation != spared
        invariant victim.Some? ==> forall j: nat | j < k && Cached(slots, j) && slots[j].conversation != spared ::
                                     slots[victim.value].lastUsed.value <= slots[j].lastUsed.value
        invariant victim.None? ==> forall j: nat | j < k && Cached(slots, j) :: slots[j].conversation == spared
      {
        if slots[k].lastUsed.Some? && slots[k].conversation != spared {
          if victim.None? || slots[k].lastUsed.value < slots[victim.value].lastUsed.value {
            victim := Some(k);
          }
        }
      }
    }

    /** Drops agents until the bound holds or only the spared one is left. */
    method EvictOverflow(spared: int)
      modifies this`slots, this`evicted
      ensures Trims(old(slots), slots, spared)
      ensures Count(slots) <= cacheSize || forall k: nat | Cached(slots, k) :: slots[k].conversation == spared
      ensures slots == old(slots) || Count(slots) >= cacheSize
      ensures evicted - old(evicted) == Count(old(slots)) - Count(slots)
    {
      ghost var before := slots;
      var count := CachedAgentCount();
      while count > cacheSize
        invariant Trims(before, slots, spared) && count == Count(slots)
        invariant slots == before || count >= cacheSize
        invariant evicted - old(evicted) == Count(before) - count
        decreases count
      {
        var victim := Victim(spared);
        if victim.None? {
          return;
        }
        CountDrops(slots, victim.value);
        TrimsMore(before, slots, victim.value, spared);
        hide Trims;
        slots := slots[victim.value := slots[victim.value].(lastUsed := None)];
        evicted := evicted + 1;
        count := CachedAgentCount();
      }
    }

    /** Stores the agent of a conversation and enforces the bound. */
    method Remember(conversation: int, now: int)
      requires Distinct(slots)
      modifies this`slots, this`evicted
      ensures Distinct(slots)
      ensures exists k: nat :: k < |slots| && slots[k] == Slot(conversation, Some(now))
      ensures exists stored :: Stores(old(slots), stored, conversation, now) && Trims(stored, slots, conversation)
                               && (slots == stored || Count(slots) >= cacheSize)
      ensures Count(slots) <= cacheSize || forall k: nat | Cached(slots, k) :: slots[k].conversation == conversation
    {
      var k := 0;
      while k < |slots| && slots[k].conversation != conversation
        invariant k <= |slots| && forall j | 0 <= j < k :: slots[j].conversation != conversation
      {
        k := k + 1;
      }
      if k == |slots| {
        slots := slots + [Slot(conversation, None)];
      }
      slots := slots[k := Slot(conversation, Some(now))];
      ghost var stored := slots;
      assert Stores(old(slots), stored, conversation, now);
      EvictOverflow(conversation);
      assert slots[k] == stored[k];
    }
  }
}
