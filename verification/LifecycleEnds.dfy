/** What the end of work leaves in the tables, row by row: a run that ends, a pause, a cancellation, work dropped in the queue. */
module LifecycleEnds {
  import opened Options
  import opened LifecycleTables
  import opened LifecycleSteps
  import opened LifecycleInvariant
  import opened LifecycleQueries
  import opened LifecycleResults
  import opened LifecycleTeardown

  // ---- the end of a run ----

  /** The receipt is claimed for invocation `i`, through a batch of the list. */
  predicate Carries(r: Receipt, i: int, bs: seq<int>) {
    r.state.Claimed? && r.invocation == Some(i) && r.bucket.Some? && r.bucket.value in bs
  }

  /** Where a claim goes when its batch is released: with a running batch to the invocation that opens with it. */
  ghost predicate Moves(db: Tables, r: Tables, x: Receipt, y: Receipt) {
    x.bucket.Some? && x.bucket.value in db.buckets &&
    if db.buckets[x.bucket.value].state.Running?
    then y.invocation.Some? && OpensNew(db, r, y.invocation.value, x.bucket.value) && y == x.(invocation := y.invocation)
    else y == x.(state := Suppressed)
  }

  ghost predicate ReceiptsMoved(s: State, r: State, i: int, bs: seq<int>) {
    && r.receipts.Keys == s.receipts.Keys
    && forall t | t in s.receipts ::
         if Carries(s.receipts[t], i, bs) then Moves(s.db, r.db, s.receipts[t], r.receipts[t])
         else r.receipts[t] == s.receipts[t]
  }

  lemma ReleaseStepMoves(s: State, i: int, b: int)
    requires IdsBelow(s.db) && b in s.db.buckets
    ensures ReceiptsMoved(s, ReleaseStep(s, i, b), i, [b])
  {
    if s.db.buckets[b].state.Running? { assert OpensNew(s.db, ReleaseStep(s, i, b).db, s.db.nextInvocation, b); }
  }

  lemma MovesTwice(s: State, t: State, u: State, i: int, b: int, rest: seq<int>)
    requires i in s.db.invocations && IdsBelow(s.db) && b in s.db.buckets && forall a | a in rest :: a in s.db.buckets
    requires Released(s, t, [b]) && Released(t, u, rest) && b !in rest
    requires ReceiptsMoved(s, t, i, [b]) && ReceiptsMoved(t, u, i, rest)
    ensures ReceiptsMoved(s, u, i, [b] + rest)
  {
    forall x | x in s.receipts
      ensures if Carries(s.receipts[x], i, [b] + rest) then Moves(s.db, u.db, s.receipts[x], u.receipts[x])
              else u.receipts[x] == s.receipts[x]
    {
      var r := s.receipts[x];
      if Carries(r, i, [b]) {
        assert Moves(s.db, t.db, r, t.receipts[x]);
        assert !Carries(t.receipts[x], i, rest);
      } else if Carries(r, i, rest) {
        assert r.bucket.value in rest && r.bucket.value in s.db.buckets && r.bucket.value != b;
        assert r.bucket.value !in [b];
        assert t.receipts[x] == r && Moves(t.db, u.db, r, u.receipts[x]);
        assert t.db.buckets[r.bucket.value] == s.db.buckets[r.bucket.value];
      }
    }
  }

  lemma {:induction false} ReleaseMoves(s: State, i: int, bs: seq<int>)
    requires i in s.db.invocations && IdsBelow(s.db)
    requires forall b | b in bs :: b in s.db.buckets
    requires forall x, y | 0 <= x < y < |bs| :: bs[x] != bs[y]
    ensures ReceiptsMoved(s, ReleaseFold(s, i, bs), i, bs)
    decreases bs
  {
    if bs != [] {
      TailOf(bs);
      var t := ReleaseStep(s, i, bs[0]);
      ReleaseStepEffect(s, i, bs[0]);
      ReleaseStepKeys(s, i, bs[0]);
      ReleaseStepMoves(s, i, bs[0]);
      hide ReleaseStep, IdsBelow, Released, ReceiptsMoved;
      ReleaseMoves(t, i, bs[1..]);
      ReleaseFoldEffect(t, i, bs[1..]);
      MovesTwice(s, t, ReleaseFold(t, i, bs[1..]), i, bs[0], bs[1..]);
      assert [bs[0]] + bs[1..] == bs;
    }
  }

  /** A claim that ends with its run is handled, unless the run never read its batch: then it moves, or is suppressed. */
  lemma ReceiptsEnd(s: State, i: int, final: Final, now: int, clock: int, t: int)
    requires Inv(s, clock) && RunningInvocation(s.db, i) && t in s.receipts
    ensures var x, r := s.receipts[t], Finish(s, i, final, now);
            && r.receipts.Keys == s.receipts.Keys
            && (x.state.Claimed? && x.invocation == Some(i) ==> x.bucket.Some? && x.bucket.value in s.db.buckets)
            && (if !(x.state.Claimed? && x.invocation == Some(i)) then r.receipts[t] == x
                else if Unread(s.db, i, x.bucket.value) then Moves(s.db, r.db, x, r.receipts[t])
                else r.receipts[t] == x.(state := Handled))
  {
    var m := ClearQueues(s, s.db.invocations[i].conv);
    var u := Releasing(s, i);
    EndFacts(s, i, clock);
    if s.receipts[t].state.Claimed? { assert ClaimLive(s.receipts[t], s.db); }
    hide Inv, Rows, TablesMatch, ClaimsLive, ClaimLive, IdsBelow, ReleaseFold, Seal;
    ReleaseMoves(m, i, UnreadBatches(s, i));
    FinishReleases(s, i);
    FinishIsSeal(s, i, final, now);
    SealEffect(u, i, final, now);
    SealReceipts(u, i, final, now);
    assert forall b | b in s.db.buckets :: b in UnreadBatches(s, i) <==> Unread(s.db, i, b);
    hide UnreadBatches, Releasing;
    var x := s.receipts[t];
    if x.state.Claimed? && x.invocation == Some(i) && Unread(s.db, i, x.bucket.value) {
      MovedEnds(s, u, Finish(s, i, final, now), i, x, u.receipts[t]);
    }
  }

  lemma EndFacts(s: State, i: int, clock: int)
    requires Inv(s, clock) && RunningInvocation(s.db, i)
    ensures IdsBelow(s.db) && ClaimsLive(s.receipts, s.db)
    ensures forall b | b in s.db.invocations[i].batches :: b in s.db.buckets
    ensures forall b | b in UnreadBatches(s, i) :: b in s.db.buckets
    ensures var bs := UnreadBatches(s, i); forall x, y | 0 <= x < y < |bs| :: bs[x] != bs[y]
  {
    hide OneCollecting, OpensOnce, QueueMatches, RunsMatch, AttachedOpensNothing, MemoryMatches, Injected, ClaimsLive,
      ReceiptsMatch, Windows, Rounds, UnreadBatches;
    UnreadFacts(s, i);
    RowsBelow(s.db, i);
  }

  lemma RowsBelow(db: Tables, i: int)
    requires Rows(db) && i in db.invocations
    ensures IdsBelow(db) && forall b | b in db.invocations[i].batches :: b in db.buckets
  {
  }

  lemma SealReceipts(u: State, i: int, final: Final, now: int)
    requires i in u.db.invocations
    ensures var r := Seal(u, i, final, now);
            && r.receipts.Keys == u.receipts.Keys
            && forall t | t in u.receipts ::
                 r.receipts[t] == if u.receipts[t].state.Claimed? && u.receipts[t].invocation == Some(i)
                                  then u.receipts[t].(state := Handled) else u.receipts[t]
  {
    hide PushDeadlines, CloseHeld;
  }

  lemma MovedEnds(s: State, u: State, r: State, i: int, x: Receipt, y: Receipt)
    requires x.bucket.Some? && x.bucket.value in s.db.buckets && i in s.db.invocations
    requires Moves(s.db, u.db, x, y)
    requires forall j | j in u.db.invocations && j != i :: j in r.db.invocations && r.db.invocations[j] == u.db.invocations[j]
    ensures Moves(s.db, r.db, x, y) && !(y.state.Claimed? && y.invocation == Some(i) && x.state.Claimed?)
  {
  }

  /** The invocation ends as reported, and no other old one changes. */
  lemma InvocationEnds(s: State, i: int, final: Final, now: int, clock: int, j: int)
    requires Inv(s, clock) && RunningInvocation(s.db, i) && j in s.db.invocations
    ensures var r := Finish(s, i, final, now).db;
            j in r.invocations
            && r.invocations[j] == if j == i then s.db.invocations[i].(state := Ended(final)) else s.db.invocations[j]
  {
    EndFacts(s, i, clock);
    hide Inv, TablesMatch, IdsBelow, ReleaseFold, Seal, ClaimsLive;
    FinishReleases(s, i);
    FinishIsSeal(s, i, final, now);
    SealEffect(Releasing(s, i), i, final, now);
    SealedRow(Releasing(s, i), i, final, now);
    hide UnreadBatches, Releasing;
  }

  lemma SealedRow(u: State, i: int, final: Final, now: int)
    requires RunningInvocation(u.db, i)
    ensures i in Seal(u, i, final, now).db.invocations
    ensures Seal(u, i, final, now).db.invocations[i] == u.db.invocations[i].(state := Ended(final))
  {
  }

  /** Batches of the chat that still collect have to wait out a window from the start of the run that ends, and its end. */
  lemma DeadlinesEnd(s: State, i: int, final: Final, now: int, clock: int, b: int)
    requires Inv(s, clock) && RunningInvocation(s.db, i) && b in s.db.buckets
    ensures var row, r := s.db.buckets[b], Finish(s, i, final, now).db;
            var least := Max(now, s.db.invocations[i].startedAt + s.window);
            && b in r.buckets && r.buckets[b].conv == row.conv && r.buckets[b].first == row.first
            && r.buckets[b].deadline
               == if row.state.Collecting? && row.conv.chat == s.db.invocations[i].conv.chat then Max(row.deadline, least)
                  else row.deadline
  {
    hide Inv, IdsBelow, Seal, UnreadBatches, Releasing, Finish, Released, Max;
    IdsFresh(s, clock);
    FinishReleases(s, i);
    FinishIsSeal(s, i, final, now);
    ReleasedTimes(s, Releasing(s, i), UnreadBatches(s, i), i, b);
    SealedDeadline(Releasing(s, i), i, final, now, b);
    ReleaseWindow(s, i);
  }

  lemma IdsFresh(s: State, clock: int)
    requires Inv(s, clock)
    ensures IdsBelow(s.db)
  {
    hide OneCollecting, OpensOnce, QueueMatches, RunsMatch, AttachedOpensNothing, MemoryMatches, Injected, ClaimsLive,
      ReceiptsMatch, Windows, Rounds;
  }

  lemma ReleasedTimes(s: State, u: State, bs: seq<int>, i: int, b: int)
    requires Released(s, u, bs) && i in s.db.invocations && b in s.db.buckets
    ensures i in u.db.invocations && u.db.invocations[i] == s.db.invocations[i]
    ensures b in u.db.buckets && u.db.buckets[b] == s.db.buckets[b].(state := u.db.buckets[b].state)
    ensures u.db.buckets[b].state.Collecting? <==> s.db.buckets[b].state.Collecting?
  {
    hide OpensNew;
  }

  lemma SealedDeadline(u: State, i: int, final: Final, now: int, b: int)
    requires i in u.db.invocations && b in u.db.buckets
    ensures var row, r := u.db.buckets[b], Seal(u, i, final, now).db;
            var least := Max(now, u.db.invocations[i].startedAt + u.window);
            && b in r.buckets && r.buckets[b].conv == row.conv && r.buckets[b].first == row.first
            && r.buckets[b].deadline
               == if row.state.Collecting? && row.conv.chat == u.db.invocations[i].conv.chat then Max(row.deadline, least)
                  else row.deadline
  {
  }

  lemma {:induction false} FoldWindow(s: State, i: int, bs: seq<int>)
    requires forall b | b in bs :: b in s.db.buckets
    ensures var r := ReleaseFold(s, i, bs); r == s.(db := r.db, receipts := r.receipts)
    decreases bs
  {
    if bs != [] {
      ReleaseStepKeys(s, i, bs[0]);
      FoldWindow(ReleaseStep(s, i, bs[0]), i, bs[1..]);
      hide Repoint, DropCarried, Enqueue;
    }
  }

  lemma ReleaseWindow(s: State, i: int)
    requires i in s.db.invocations
    ensures Releasing(s, i).window == s.window
  {
    hide ReleaseFold;
    FoldWindow(ClearQueues(s, s.db.invocations[i].conv), i, UnreadBatches(s, i));
  }

  /** Every new invocation opens with one of the batches, which was running, and holds nothing else. */
  ghost predicate OpensOnly(db: Tables, r: Tables, bs: seq<int>) {
    forall j | j in r.invocations && j !in db.invocations ::
      && r.invocations[j].state.Queued? && r.invocations[j].bucket in bs && r.invocations[j].bucket in db.buckets
      && db.buckets[r.invocations[j].bucket].state.Running?
      && r.invocations[j].batches == map[r.invocations[j].bucket := false] && !r.invocations[j].sideEffect
  }

  lemma StepOpens(s: State, i: int, b: int)
    requires b in s.db.buckets
    ensures OpensOnly(s.db, ReleaseStep(s, i, b).db, [b])
  {
  }

  lemma OpensTwice(s: State, t: State, u: State, b: int, rest: seq<int>)
    requires Released(s, t, [b]) && Released(t, u, rest) && b !in rest
    requires OpensOnly(s.db, t.db, [b]) && OpensOnly(t.db, u.db, rest)
    ensures OpensOnly(s.db, u.db, [b] + rest)
  {
    hide OpensNew;
    forall j | j in u.db.invocations && j !in s.db.invocations
      ensures u.db.invocations[j].bucket in s.db.buckets && s.db.buckets[u.db.invocations[j].bucket].state.Running?
      ensures u.db.invocations[j].bucket in [b] + rest
    {
      if j in t.db.invocations {
        assert u.db.invocations[j] == t.db.invocations[j];
      } else {
        assert u.db.invocations[j].bucket in t.db.buckets.Keys && u.db.invocations[j].bucket !in [b];
      }
    }
  }

  lemma {:induction false} ReleaseOpens(s: State, i: int, bs: seq<int>)
    requires IdsBelow(s.db) && forall b | b in bs :: b in s.db.buckets
    requires forall x, y | 0 <= x < y < |bs| :: bs[x] != bs[y]
    ensures OpensOnly(s.db, ReleaseFold(s, i, bs).db, bs)
    decreases bs
  {
    if bs != [] {
      TailOf(bs);
      var t := ReleaseStep(s, i, bs[0]);
      ReleaseStepEffect(s, i, bs[0]);
      ReleaseStepKeys(s, i, bs[0]);
      StepOpens(s, i, bs[0]);
      hide ReleaseStep, IdsBelow, Released, OpensOnly;
      ReleaseOpens(t, i, bs[1..]);
      ReleaseFoldEffect(t, i, bs[1..]);
      OpensTwice(s, t, ReleaseFold(t, i, bs[1..]), bs[0], bs[1..]);
      assert [bs[0]] + bs[1..] == bs;
    }
  }

  /** The end of a run touches tables, receipts and its own memory, and opens invocations only for batches it never read. */
  lemma EndTouches(s: State, i: int, final: Final, now: int, clock: int)
    requires Inv(s, clock) && RunningInvocation(s.db, i)
    ensures var r := Finish(s, i, final, now);
            && r == s.(db := r.db, receipts := r.receipts, memory := s.memory - {s.db.invocations[i].conv})
            && forall j | j in r.db.invocations && j !in s.db.invocations ::
                 && r.db.invocations[j].state.Queued? && r.db.invocations[j].bucket in s.db.buckets
                 && s.db.buckets[r.db.invocations[j].bucket].state.Running? && Unread(s.db, i, r.db.invocations[j].bucket)
                 && r.db.invocations[j].batches == map[r.db.invocations[j].bucket := false]
  {
    hide Inv, IdsBelow, ReleaseFold, Seal, UnreadBatches, Finish, Released;
    IdsFresh(s, clock);
    UnreadFacts(s, i);
    var m := ClearQueues(s, s.db.invocations[i].conv);
    FinishIsSeal(s, i, final, now);
    FoldWindow(m, i, UnreadBatches(s, i));
    ReleaseOpens(m, i, UnreadBatches(s, i));
    UnreadAre(s, i);
    FinishReleases(s, i);
    ReleasedRow(s, Releasing(s, i), UnreadBatches(s, i), i);
    SealTouches(Releasing(s, i), i, final, now);
    var c := s.db.invocations[i].conv;
    assert m.memory - {c} == s.memory - {c};
  }

  lemma ReleasedRow(s: State, u: State, bs: seq<int>, i: int)
    requires Released(s, u, bs) && i in s.db.invocations
    ensures i in u.db.invocations && u.db.invocations[i] == s.db.invocations[i]
  {
    hide OpensNew;
  }

  lemma UnreadAre(s: State, i: int)
    requires i in s.db.invocations
    ensures forall b | b in UnreadBatches(s, i) :: Unread(s.db, i, b)
  {
  }

  lemma SealTouches(u: State, i: int, final: Final, now: int)
    requires i in u.db.invocations
    ensures var r := Seal(u, i, final, now);
            && r == u.(db := r.db, receipts := r.receipts, memory := u.memory - {u.db.invocations[i].conv})
            && r.db.invocations.Keys == u.db.invocations.Keys
            && forall j | j in u.db.invocations && j != i :: r.db.invocations[j] == u.db.invocations[j]
  {
  }

  // ---- pause and cancellation ----

  /** Still to be done: it collects, it is queued, or it was handed to a run that has not read it. */
  predicate Undone(db: Tables, b: int)
    requires b in db.buckets
  {
    db.buckets[b].state.Collecting? || db.buckets[b].state.Queued?
    || (db.buckets[b].state.Running?
        && exists i | i in db.invocations ::
             db.invocations[i].state.Running? && b in db.invocations[i].batches && !db.invocations[i].batches[b]
             && b != db.invocations[i].bucket)
  }

  /** The undone work of the chats in question, or of all, is cancelled; nothing else changes. */
  ghost predicate Cancelled(s: State, r: State, concerned: int -> bool) {
    && r == s.(db := s.db.(buckets := r.db.buckets, invocations := r.db.invocations), receipts := r.receipts, paused := r.paused)
    && r.db.buckets.Keys == s.db.buckets.Keys && r.db.invocations.Keys == s.db.invocations.Keys
    && r.receipts.Keys == s.receipts.Keys
    && (forall b | b in s.db.buckets ::
          r.db.buckets[b] == if concerned(s.db.buckets[b].conv.chat) && Undone(s.db, b)
                             then s.db.buckets[b].(state := Closed(Expired)) else s.db.buckets[b])
    && (forall i | i in s.db.invocations ::
          r.db.invocations[i] == if concerned(s.db.invocations[i].conv.chat) && s.db.invocations[i].state.Queued?
                                 then s.db.invocations[i].(state := Ended(Aborted)) else s.db.invocations[i])
    && (forall t | t in s.receipts ::
          var x := s.receipts[t];
          r.receipts[t] == if x.state.Claimed? && x.invocation.Some? && QueuedInvocation(s.db, x.invocation.value)
                              && concerned(s.db.invocations[x.invocation.value].conv.chat)
                           then x.(state := ReceiptState.Suppressed) else x)
  }

  lemma ConversationsOf(db: Tables)
    ensures forall b | b in db.buckets :: db.buckets[b].conv in Conversations(db)
    ensures forall i | i in db.invocations :: db.invocations[i].conv in Conversations(db)
  {
  }

  lemma ExpireBatches(s: State, scope: set<Conversation>, b: int)
    requires b in s.db.buckets
    ensures b in Expire(s, scope).db.buckets
    ensures Expire(s, scope).db.buckets[b]
            == if s.db.buckets[b].conv in scope && Undone(s.db, b) then s.db.buckets[b].(state := Closed(Expired))
               else s.db.buckets[b]
  {
  }

  lemma ExpireKeys(s: State, scope: set<Conversation>)
    ensures var r := Expire(s, scope);
            && r.db.buckets.Keys == s.db.buckets.Keys && r.db.invocations.Keys == s.db.invocations.Keys
            && r.receipts.Keys == s.receipts.Keys
  {
  }

  lemma ExpireCancels(s: State, scope: set<Conversation>, concerned: int -> bool)
    requires forall c | c in Conversations(s.db) :: c in scope <==> concerned(c.chat)
    ensures Cancelled(s, Expire(s, scope), concerned)
  {
    ConversationsOf(s.db);
    ExpireKeys(s, scope);
    hide Conversations, Undone, AttachedUninjected;
    forall b | b in s.db.buckets ensures b in Expire(s, scope).db.buckets && Expire(s, scope).db.buckets[b]
      == if s.db.buckets[b].conv in scope && Undone(s.db, b) then s.db.buckets[b].(state := Closed(Expired)) else s.db.buckets[b]
    {
      ExpireBatches(s, scope, b);
    }
  }

  /** Pausing a chat cancels the undone work of that chat, and only of that chat. */
  lemma PauseCancels(s: State, chat: int)
    ensures Cancelled(s, Pause(s, chat), c => c == chat) && Pause(s, chat).paused == s.paused + {chat}
  {
    hide Expire, Conversations;
    ExpireCancels(s, (set c | c in Conversations(s.db) && c.chat == chat), c => c == chat);
  }

  /** Resuming lifts the pause of that chat and changes nothing else. */
  lemma ResumeLifts(s: State, chat: int)
    ensures Resume(s, chat) == s.(paused := Resume(s, chat).paused)
    ensures forall other :: other in Resume(s, chat).paused <==> other in s.paused && other != chat
  {
  }

  /** Cancelling cancels the undone work of every chat. */
  lemma CancelCancels(s: State)
    ensures Cancelled(s, CancelOngoing(s), c => true) && CancelOngoing(s).paused == s.paused
  {
    hide Expire, Conversations;
    ExpireCancels(s, Conversations(s.db), c => true);
    ExpirePaused(s, Conversations(s.db));
  }

  lemma ExpirePaused(s: State, scope: set<Conversation>)
    ensures Expire(s, scope).paused == s.paused
  {
  }

  // ---- work dropped from the queue ----

  /** The dropped invocations end with their batches; nothing else in the tables changes. */
  ghost predicate RowsDropped(s: State, r: State, gone: set<int>, final: Final) {
    && r == s.(db := s.db.(buckets := r.db.buckets, invocations := r.db.invocations), receipts := r.receipts)
    && r.db.buckets.Keys == s.db.buckets.Keys && r.db.invocations.Keys == s.db.invocations.Keys
    && r.receipts.Keys == s.receipts.Keys
    && (forall i | i in s.db.invocations ::
          r.db.invocations[i] == if i in gone then s.db.invocations[i].(state := Ended(final)) else s.db.invocations[i])
    && (forall b | b in s.db.buckets ::
          r.db.buckets[b] == if exists i | i in gone && i in s.db.invocations ::
                                  s.db.invocations[i].bucket == b || b in s.db.invocations[i].batches
                             then s.db.buckets[b].(state := Closed(final)) else s.db.buckets[b])
  }

  lemma DropRowsDropped(s: State, i: int, final: Final, receipts: map<int, Receipt>)
    requires i in s.db.invocations && receipts.Keys == s.receipts.Keys
    ensures RowsDropped(s, s.(db := DropRows(s.db, i, final, final), receipts := receipts), {i}, final)
  {
    var r := DropRows(s.db, i, final, final);
    assert r.buckets.Keys == s.db.buckets.Keys && r.invocations.Keys == s.db.invocations.Keys;
  }

  lemma NothingDropped(s: State, final: Final)
    ensures RowsDropped(s, s, {}, final)
  {
  }

  lemma DroppedTwice(s: State, t: State, r: State, a: set<int>, b: set<int>, final: Final)
    requires RowsDropped(s, t, a, final) && RowsDropped(t, r, b, final) && a <= s.db.invocations.Keys
    ensures RowsDropped(s, r, a + b, final)
  {
    forall x | x in s.db.buckets
      ensures r.db.buckets[x] == if exists i | i in a + b && i in s.db.invocations ::
                                      s.db.invocations[i].bucket == x || x in s.db.invocations[i].batches
                                 then s.db.buckets[x].(state := Closed(final)) else s.db.buckets[x]
    {
      assert forall i | i in s.db.invocations :: t.db.invocations[i].bucket == s.db.invocations[i].bucket
                                                 && t.db.invocations[i].batches == s.db.invocations[i].batches;
    }
  }

  lemma {:induction false} SkipDrops(s: State, ks: seq<int>)
    requires forall k | k in ks :: k in s.db.invocations
    ensures var r, gone := SkipFold(s, ks), set k | k in ks;
            && RowsDropped(s, r, gone, SkippedBudget)
            && (forall t | t in s.receipts ::
                  r.receipts[t] == if s.receipts[t].state.Claimed? && s.receipts[t].invocation.Some?
                                      && s.receipts[t].invocation.value in gone
                                   then s.receipts[t].(state := Handled) else s.receipts[t])
    decreases ks
  {
    hide RowsDropped, DropRows;
    if ks == [] {
      NothingDropped(s, SkippedBudget);
      assert (set k | k in ks) == {};
    } else {
      var t := DropQueued(s, ks[0], SkippedBudget, SkippedBudget, Handled);
      DropRowsDropped(s, ks[0], SkippedBudget, t.receipts);
      DroppedKeys(s, t, {ks[0]}, SkippedBudget);
      SkipDrops(t, ks[1..]);
      var rest := set k | k in ks[1..];
      DroppedKeys(t, SkipFold(t, ks[1..]), rest, SkippedBudget);
      DroppedTwice(s, t, SkipFold(t, ks[1..]), {ks[0]}, rest, SkippedBudget);
      assert (set k | k in ks) == {ks[0]} + rest;
    }
  }

  lemma DroppedKeys(s: State, r: State, gone: set<int>, final: Final)
    requires RowsDropped(s, r, gone, final)
    ensures r.db.invocations.Keys == s.db.invocations.Keys && r.receipts.Keys == s.receipts.Keys
  {
  }

  /** The queued invocations that carry no claim exempt from the budget. */
  function Skipped(s: State): set<int> {
    set i | i in s.db.invocations && s.db.invocations[i].state.Queued?
            && forall t | t in s.receipts && t in s.tasks && s.receipts[t].state.Claimed? && s.receipts[t].invocation == Some(i) ::
                 !s.tasks[t].bypassBudget
  }

  lemma SkippedAre(s: State)
    ensures Skipped(s) == set k | k in Sleepers(s)
  {
    forall i ensures i in Skipped(s) <==> i in Sleepers(s) {
    }
    hide Sleepers, ExemptFromSleep;
  }

  /** Sleep skips exactly those, with their batches; their claims count as handled. */
  lemma SleepSkips(s: State)
    ensures var r := SkipFold(s, Sleepers(s));
            && RowsDropped(s, r, Skipped(s), SkippedBudget)
            && (forall t | t in s.receipts ::
                  r.receipts[t] == if s.receipts[t].state.Claimed? && s.receipts[t].invocation.Some?
                                      && s.receipts[t].invocation.value in Skipped(s)
                                   then s.receipts[t].(state := Handled) else s.receipts[t])
  {
    hide Sleepers, SkipFold, RowsDropped, Skipped;
    SkippedAre(s);
    SleepersQueued(s);
    SkipDrops(s, Sleepers(s));
    DroppedKeys(s, SkipFold(s, Sleepers(s)), Skipped(s), SkippedBudget);
  }

  lemma SleepersQueued(s: State)
    ensures forall i | i in Sleepers(s) :: i in s.db.invocations
  {
    hide ExemptFromSleep;
  }

  // ---- deliveries that are no longer allowed ----

  /** The invocations that deliver the receipts of `ts` that are in `quiet`. */
  function Delivering(receipts: map<int, Receipt>, ts: seq<int>, quiet: set<int>): set<int> {
    set t | t in ts && t in quiet && t in receipts && receipts[t].invocation.Some? :: receipts[t].invocation.value
  }

  /** `quiet` says which of the receipts may not be delivered. */
  predicate Tells(s: State, ts: seq<int>, env: Env, quiet: set<int>) {
    forall t | t in ts :: t in s.tasks && (t in quiet <==> DeliveryBlocked(s, s.tasks[t].conv, env))
  }

  lemma SuppressOne(s: State, t: int, env: Env)
    requires Claimant(s, t)
    ensures var r := SuppressStep(s, t, env);
            var blocked := DeliveryBlocked(s, s.tasks[t].conv, env);
            && RowsDropped(s, r, if blocked then {s.receipts[t].invocation.value} else {}, Aborted)
            && r.tasks == s.tasks && r.paused == s.paused
            && r.receipts == if blocked then s.receipts[t := s.receipts[t].(state := ReceiptState.Suppressed)] else s.receipts
  {
    hide DropRows, RowsDropped, DeliveryBlocked;
    var r := SuppressStep(s, t, env);
    NothingDropped(s, Aborted);
    DropRowsDropped(s, s.receipts[t].invocation.value, Aborted, r.receipts);
    hide SetReceipt;
  }

  lemma TellsOn(s: State, r: State, ts: seq<int>, env: Env, quiet: set<int>)
    requires Tells(s, ts, env, quiet) && r.tasks == s.tasks && r.paused == s.paused && ts != []
    ensures Tells(r, ts[1..], env, quiet)
  {
  }

  lemma DeliveringSplit(s: State, r: State, ts: seq<int>, quiet: set<int>)
    requires ts != [] && Claimant(s, ts[0]) && r.receipts.Keys == s.receipts.Keys
    requires forall t | t in s.receipts :: r.receipts[t].invocation == s.receipts[t].invocation
    ensures Delivering(s.receipts, ts, quiet)
            == (if ts[0] in quiet then {s.receipts[ts[0]].invocation.value} else {}) + Delivering(r.receipts, ts[1..], quiet)
  {
    assert forall t :: t in ts <==> t == ts[0] || t in ts[1..];
  }

  lemma {:induction false} SuppressDrops(s: State, ts: seq<int>, env: Env, quiet: set<int>)
    requires Tells(s, ts, env, quiet) && forall t | t in ts :: Claimant(s, t)
    ensures var r := SuppressFold(s, ts, env);
            && RowsDropped(s, r, Delivering(s.receipts, ts, quiet), Aborted)
            && (forall t | t in s.receipts ::
                  r.receipts[t] == if t in ts && t in quiet then s.receipts[t].(state := ReceiptState.Suppressed)
                                   else s.receipts[t])
    decreases ts
  {
    hide RowsDropped, SuppressStep, Delivering, DeliveryBlocked;
    if ts == [] {
      NothingDropped(s, Aborted);
      DeliveringNone(s.receipts, quiet);
    } else {
      var x := ts[0];
      assert x in ts && Claimant(s, x);
      SuppressStepRows(s, x, env);
      SuppressOne(s, x, env);
      var t := SuppressStep(s, x, env);
      var a := if x in quiet then {s.receipts[x].invocation.value} else {};
      TellsOn(s, t, ts, env, quiet);
      SuppressDrops(t, ts[1..], env, quiet);
      DeliveringSplit(s, t, ts, quiet);
      DroppedKeys(s, t, a, Aborted);
      var r := SuppressFold(t, ts[1..], env);
      DroppedTwice(s, t, r, a, Delivering(t.receipts, ts[1..], quiet), Aborted);
      assert forall y :: y in ts <==> y == x || y in ts[1..];
    }
  }

  lemma DeliveringNone(receipts: map<int, Receipt>, quiet: set<int>)
    ensures Delivering(receipts, [], quiet) == {}
  {
  }

  /** The queued deliveries to conversations that are blocked now. */
  function Silenced(s: State, env: Env): set<int> {
    set t | t in s.receipts && t in s.tasks && QueuedClaim(s, t)
            && var c := s.tasks[t].conv;
               c.chat !in env.configured || c.chat in s.paused || (c.chat in env.topics && c.thread !in env.topics[c.chat])
  }

  /** The invocations that were to make them. */
  function Senders(s: State, quiet: set<int>): set<int> {
    set t | t in quiet && t in s.receipts && s.receipts[t].invocation.Some? :: s.receipts[t].invocation.value
  }

  lemma SilencedTell(s: State, env: Env)
    ensures Tells(s, QueuedClaims(s), env, Silenced(s, env))
    ensures forall t | t in Silenced(s, env) :: t in QueuedClaims(s)
    ensures forall t | t in QueuedClaims(s) :: Claimant(s, t)
  {
  }

  /** A recheck silences exactly those, and drops the invocations that were to make them. */
  lemma RecheckSilences(s: State, env: Env)
    ensures var r, quiet := SuppressFold(s, QueuedClaims(s), env), Silenced(s, env);
            && RowsDropped(s, r, Senders(s, quiet), Aborted)
            && (forall t | t in s.receipts ::
                  r.receipts[t] == if t in quiet then s.receipts[t].(state := ReceiptState.Suppressed) else s.receipts[t])
  {
    hide QueuedClaims, SuppressFold, RowsDropped, Silenced, Tells;
    var ts, quiet := QueuedClaims(s), Silenced(s, env);
    SilencedTell(s, env);
    SuppressDrops(s, ts, env, quiet);
    assert Delivering(s.receipts, ts, quiet) == Senders(s, quiet);
    DroppedKeys(s, SuppressFold(s, ts, env), Senders(s, quiet), Aborted);
  }
}
