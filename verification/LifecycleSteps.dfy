/** What each transaction, and each turn boundary of a run, does to the tables and to memory. */
module LifecycleSteps {
  import opened Options
  import opened Ordering
  import opened LifecycleTables

  function Max(a: int, b: int): int { if a >= b then a else b }

  // ---- rows ----

  function SetBucket(db: Tables, b: int, state: BucketState): (r: Tables)
    requires b in db.buckets
    ensures r.buckets.Keys == db.buckets.Keys && db.invocations.Keys <= r.invocations.Keys
  {
    db.(buckets := db.buckets[b := db.buckets[b].(state := state)])
  }

  function AddBucket(db: Tables, row: Bucket): Tables {
    db.(buckets := db.buckets[db.nextBucket := row], nextBucket := db.nextBucket + 1)
  }

  /** Inserts the queued invocation that `b` opens, joined to it like every attached batch. */
  function AddInvocation(db: Tables, b: int): Tables
    requires b in db.buckets
  {
    var row := Invocation(b, db.buckets[b].conv, InvocationState.Queued, 0, false, map[b := false]);
    db.(invocations := db.invocations[db.nextInvocation := row], nextInvocation := db.nextInvocation + 1)
  }

  function Join(db: Tables, i: int, b: int, injected: bool): (r: Tables)
    requires i in db.invocations
    ensures r.buckets.Keys == db.buckets.Keys && db.invocations.Keys <= r.invocations.Keys
  {
    var row := db.invocations[i];
    db.(invocations := db.invocations[i := row.(batches := row.batches[b := injected])])
  }

  function Enqueue(db: Tables, b: int): (r: Tables)
    requires b in db.buckets
    ensures r.buckets.Keys == db.buckets.Keys && db.invocations.Keys <= r.invocations.Keys
  {
    AddInvocation(SetBucket(db, b, BucketState.Queued), b)
  }

  function Attach(db: Tables, b: int, i: int): (r: Tables)
    requires b in db.buckets && i in db.invocations
    ensures r.buckets.Keys == db.buckets.Keys && db.invocations.Keys <= r.invocations.Keys
  {
    Join(SetBucket(db, b, BucketState.Running), i, b, false)
  }

  function SetMemory(s: State, c: Conversation, m: Memory): State {
    s.(memory := s.memory[c := m])
  }

  function QueueInjection(s: State, c: Conversation, b: int, kind: Kind): State {
    var m := Mem(s, c);
    SetMemory(s, c, m.(pending := m.pending + [Entry(b, kind)]))
  }

  // ---- ingestion ----

  function CollectingOf(db: Tables, c: Conversation): set<int> {
    set b | b in db.buckets && db.buckets[b].conv == c && db.buckets[b].state.Collecting?
  }

  /**
   One stored message of `c`.  Only an eligible human whose chat is not gated opens a batch; a batch
   already collecting takes any message without changing its window.
   */
  function Ingest(s: State, c: Conversation, eligible: bool, allowed: bool, now: int): State {
    if c.chat in s.paused || CollectingOf(s.db, c) != {} || !eligible || !allowed then s
    else s.(db := AddBucket(s.db, Bucket(c, BucketState.Collecting, now, now + s.window)))
  }

  // ---- due batches ----

  function DueSet(s: State, now: int): set<int> {
    set b | b in s.db.buckets && s.db.buckets[b].state.Collecting? && s.db.buckets[b].deadline <= now
            && s.db.buckets[b].conv.chat !in s.paused && !ChatTaken(s.db, s.db.buckets[b].conv)
  }

  function Deadline(db: Tables): int -> int {
    (b: int) => if b in db.buckets then db.buckets[b].deadline else 0
  }

  function Due(s: State, now: int): seq<int> {
    Ordered(DueSet(s, now), Deadline(s.db))
  }

  function Defer(db: Tables, b: int, atLeast: int): (r: Tables)
    requires b in db.buckets
    ensures r.buckets.Keys == db.buckets.Keys && db.invocations.Keys <= r.invocations.Keys
  {
    if db.buckets[b].state.Collecting? && db.buckets[b].deadline < atLeast then
      db.(buckets := db.buckets[b := db.buckets[b].(deadline := atLeast)])
    else db
  }

  /** What becomes of a due batch. */
  datatype DueAction = Postpone | Leave | Skip | Hand(invocation: int) | Open

  function DueDecision(s: State, c: Conversation, env: Env): DueAction {
    var running := RunningOf(s.db, c);
    if running.Some? then
      if Mem(s, c).round then Postpone
      else if Mem(s, c).closing then Leave
      else if c.chat !in env.configured || env.sleeping then Skip
      else Hand(running.value)
    else if c.chat in s.paused || c.chat !in env.configured || env.sleeping then Skip
    else Open
  }

  function DueApply(s: State, b: int, action: DueAction, now: int): (r: State)
    requires b in s.db.buckets
    requires action.Hand? ==> action.invocation in s.db.invocations
    ensures r.db.buckets.Keys == s.db.buckets.Keys && s.db.invocations.Keys <= r.db.invocations.Keys
  {
    match action
    case Postpone => s.(db := Defer(s.db, b, now + Max(s.window, MINIMUM_DEFER)))
    case Leave => s
    case Skip => s.(db := SetBucket(s.db, b, Closed(SkippedBudget)))
    case Hand(i) => QueueInjection(s.(db := Attach(s.db, b, i)), s.db.buckets[b].conv, b, Messages)
    case Open => s.(db := Enqueue(s.db, b))
  }

  function DueStep(s: State, b: int, env: Env, now: int): (r: State)
    requires b in s.db.buckets
    ensures r.db.buckets.Keys == s.db.buckets.Keys && s.db.invocations.Keys <= r.db.invocations.Keys
  {
    DueApply(s, b, DueDecision(s, s.db.buckets[b].conv, env), now)
  }

  function DueFold(s: State, due: seq<int>, env: Env, now: int): State
    requires forall b | b in due :: b in s.db.buckets
    decreases due
  {
    if due == [] then s
    else DueFold(DueStep(s, due[0], env, now), due[1..], env, now)
  }

  function ProcessDue(s: State, env: Env, now: int): State {
    DueFold(s, Due(s, now), env, now)
  }

  // ---- long tasks and receipts ----

  function CreateTask(s: State, t: int, c: Conversation, due: Option<int>, bypass: bool): State {
    if t in s.tasks then s else s.(tasks := s.tasks[t := Task(c, Waiting, due, bypass)])
  }

  /** Ends a waiting task and writes its one receipt. */
  function EndTask(s: State, t: int, state: TaskState, receipt: ReceiptState, now: int): State {
    if t in s.tasks && s.tasks[t].state.Waiting? then
      s.(tasks := s.tasks[t := s.tasks[t].(state := state)],
         receipts := s.receipts[t := Receipt(receipt, None, None, now)])
    else s
  }

  function FinishTask(s: State, t: int, state: TaskState, notify: bool, now: int): State {
    EndTask(s, t, state, if notify then Pending else Suppressed, now)
  }

  function SetReceipt(s: State, t: int, state: ReceiptState): State
    requires t in s.receipts
  {
    s.(receipts := s.receipts[t := s.receipts[t].(state := state)])
  }

  function CancelTask(s: State, t: int, now: int): State {
    if t in s.tasks && s.tasks[t].state.Waiting? then EndTask(s, t, Cancelled, Suppressed, now)
    else if t in s.receipts && s.receipts[t].state.Pending? then SetReceipt(s, t, Suppressed)
    else s
  }

  function TasksDueSet(s: State, now: int): set<int> {
    set t | t in s.tasks && s.tasks[t].state.Waiting? && s.tasks[t].due.Some? && s.tasks[t].due.value <= now
  }

  function Schedule(s: State): int -> int {
    (t: int) => if t in s.tasks && s.tasks[t].due.Some? then s.tasks[t].due.value else 0
  }

  function TasksDueFold(s: State, due: seq<int>, now: int): State
    decreases due
  {
    if due == [] then s else TasksDueFold(EndTask(s, due[0], Finished, Pending, now), due[1..], now)
  }

  function TimersDone(s: State, now: int): State {
    TasksDueFold(s, Ordered(TasksDueSet(s, now), Schedule(s)), now)
  }

  function PendingSet(s: State): set<int> {
    set t | t in s.receipts && t in s.tasks && s.receipts[t].state.Pending?
  }

  function Created(s: State): int -> int {
    (t: int) => if t in s.receipts then s.receipts[t].created else 0
  }

  function PendingReceipts(s: State): seq<int> {
    Ordered(PendingSet(s), Created(s))
  }

  function Claim(s: State, t: int, i: int, b: int): State
    requires t in s.receipts
  {
    s.(receipts := s.receipts[t := s.receipts[t].(state := Claimed, invocation := Some(i), bucket := Some(b))],
       claims := s.claims + multiset{t})
  }

  /** Opens a queued invocation for one receipt. */
  function ClaimQueued(s: State, t: int, c: Conversation, now: int): State
    requires t in s.receipts
  {
    var b, i := s.db.nextBucket, s.db.nextInvocation;
    Claim(s.(db := AddInvocation(AddBucket(s.db, Bucket(c, BucketState.Queued, now, now)), b)), t, i, b)
  }

  /** Hands one receipt to the invocation already running in its conversation. */
  function ClaimAttached(s: State, t: int, c: Conversation, i: int, now: int): State
    requires t in s.receipts && i in s.db.invocations
  {
    var b := s.db.nextBucket;
    var db := Join(AddBucket(s.db, Bucket(c, BucketState.Running, now, now)), i, b, false);
    QueueInjection(Claim(s.(db := db), t, i, b), c, b, Completion)
  }

  /** What becomes of a pending receipt. */
  datatype ReceiptAction = Drop | Wait | Deliver(invocation: int) | OpenFor

  function ReceiptDecision(s: State, t: int, env: Env): ReceiptAction
    requires t in s.receipts && t in s.tasks
  {
    var c := s.tasks[t].conv;
    if !s.receipts[t].state.Pending? then Wait
    else if DeliveryBlocked(s, c, env) then Drop
    else if env.sleeping && !s.tasks[t].bypassBudget then Wait
    else
      var running := RunningOf(s.db, c);
      if running.Some? then if Mem(s, c).closing then Wait else Deliver(running.value)
      else if ChatRunning(s.db, c.chat) then Wait
      else OpenFor
  }

  function ReceiptApply(s: State, t: int, action: ReceiptAction, now: int): (r: State)
    requires t in s.receipts && t in s.tasks
    requires action.Deliver? ==> action.invocation in s.db.invocations
    ensures r.tasks == s.tasks && r.receipts.Keys == s.receipts.Keys
  {
    match action
    case Drop => SetReceipt(s, t, Suppressed)
    case Wait => s
    case Deliver(i) => ClaimAttached(s, t, s.tasks[t].conv, i, now)
    case OpenFor => ClaimQueued(s, t, s.tasks[t].conv, now)
  }

  function ReceiptStep(s: State, t: int, env: Env, now: int): (r: State)
    requires t in s.receipts && t in s.tasks
    ensures r.tasks == s.tasks && r.receipts.Keys == s.receipts.Keys
  {
    ReceiptApply(s, t, ReceiptDecision(s, t, env), now)
  }

  function ReceiptFold(s: State, pending: seq<int>, env: Env, now: int): State
    requires forall t | t in pending :: t in s.receipts && t in s.tasks
    decreases pending
  {
    if pending == [] then s
    else ReceiptFold(ReceiptStep(s, pending[0], env, now), pending[1..], env, now)
  }

  // ---- queued work that is dropped before it starts ----

  /** Ends queued invocation `i` and the batches joined to it. */
  function DropRows(db: Tables, i: int, final: Final, bucketFinal: Final): Tables
    requires i in db.invocations
  {
    var row := db.invocations[i];
    db.(invocations := db.invocations[i := row.(state := Ended(final))],
        buckets := map b | b in db.buckets ::
          if b == row.bucket || b in row.batches then db.buckets[b].(state := Closed(bucketFinal)) else db.buckets[b])
  }

  /** The claimed receipts that invocation `i` delivers leave the claimed state. */
  function SettleReceipts(receipts: map<int, Receipt>, i: int, state: ReceiptState): map<int, Receipt> {
    map t | t in receipts ::
      if receipts[t].state.Claimed? && receipts[t].invocation == Some(i) then receipts[t].(state := state) else receipts[t]
  }

  function DropQueued(s: State, i: int, final: Final, bucketFinal: Final, receipt: ReceiptState): State
    requires i in s.db.invocations
  {
    s.(db := DropRows(s.db, i, final, bucketFinal), receipts := SettleReceipts(s.receipts, i, receipt))
  }

  predicate QueuedClaim(s: State, t: int) {
    && t in s.receipts && s.receipts[t].state.Claimed? && s.receipts[t].invocation.Some?
    && QueuedInvocation(s.db, s.receipts[t].invocation.value)
  }

  /** A row of the query below names its invocation. */
  predicate Claimant(s: State, t: int) {
    && t in s.tasks && t in s.receipts
    && s.receipts[t].invocation.Some? && s.receipts[t].invocation.value in s.db.invocations
  }

  function SuppressStep(s: State, t: int, env: Env): State
    requires Claimant(s, t)
  {
    if DeliveryBlocked(s, s.tasks[t].conv, env) then
      SetReceipt(s, t, Suppressed).(db := DropRows(s.db, s.receipts[t].invocation.value, Aborted, Aborted))
    else s
  }

  lemma SuppressStepRows(s: State, t: int, env: Env)
    requires Claimant(s, t)
    ensures forall u | Claimant(s, u) :: Claimant(SuppressStep(s, t, env), u)
  {
  }

  function SuppressFold(s: State, ts: seq<int>, env: Env): State
    requires forall t | t in ts :: Claimant(s, t)
    decreases ts
  {
    if ts == [] then s
    else
      SuppressStepRows(s, ts[0], env);
      SuppressFold(SuppressStep(s, ts[0], env), ts[1..], env)
  }

  function QueuedClaims(s: State): seq<int> {
    Ordered((set t | t in s.receipts && t in s.tasks && QueuedClaim(s, t)), ById)
  }

  /** A receipt exempt from the daily budget keeps its queued invocation through sleep. */
  predicate ExemptFromSleep(s: State, i: int) {
    exists t | t in s.receipts :: t in s.tasks && s.receipts[t].state.Claimed? && s.receipts[t].invocation == Some(i)
                                  && s.tasks[t].bypassBudget
  }

  function Sleepers(s: State): seq<int> {
    Ordered((set i | i in s.db.invocations && QueuedInvocation(s.db, i) && !ExemptFromSleep(s, i)), ById)
  }

  function SkipFold(s: State, sleepers: seq<int>): State
    requires forall i | i in sleepers :: i in s.db.invocations
    decreases sleepers
  {
    if sleepers == [] then s
    else SkipFold(DropQueued(s, sleepers[0], SkippedBudget, SkippedBudget, Handled), sleepers[1..])
  }

  // ---- launch ----

  function RunningSet(db: Tables): set<int> {
    set i | i in db.invocations && db.invocations[i].state.Running?
  }

  function Launchable(db: Tables, now: int): set<int> {
    set i | i in db.invocations && db.invocations[i].state.Queued?
            && db.invocations[i].bucket in db.buckets && db.buckets[db.invocations[i].bucket].deadline <= now
            && !ChatRunning(db, db.invocations[i].conv.chat)
  }

  predicate DeliversReceipt(s: State, i: int) {
    exists t | t in s.receipts :: s.receipts[t].state.Claimed? && s.receipts[t].invocation == Some(i)
  }

  /** Receipts first, then the order the invocations were queued in. */
  function LaunchRank(s: State): int -> int {
    (i: int) => if DeliversReceipt(s, i) then 0 else 1
  }

  /** The invocation and its batch start, and the batch is handed to the agent as the opening round. */
  function Start(s: State, i: int, now: int): State
    requires i in s.db.invocations && s.db.invocations[i].bucket in s.db.buckets
  {
    var row := s.db.invocations[i];
    var db := SetBucket(s.db, row.bucket, BucketState.Running);
    var m := Mem(s, row.conv);
    SetMemory(
      s.(db := db.(invocations := db.invocations[i := row.(state := InvocationState.Running, startedAt := now)])),
      row.conv, m.(tags := m.tags + [Batch(row.bucket)], round := true))
  }

  function Launch(s: State, now: int, maxConcurrency: nat): State {
    if |RunningSet(s.db)| >= maxConcurrency || Launchable(s.db, now) == {} then s
    else Start(s, Least(Launchable(s.db, now), LaunchRank(s)), now)
  }

  // ---- a run ----

  function Buckets(entries: seq<Entry>): seq<int> {
    if entries == [] then [] else [entries[0].bucket] + Buckets(entries[1..])
  }

  function OfKind(entries: seq<Entry>, kind: Kind): seq<Entry> {
    if entries == [] then []
    else (if entries[0].kind == kind then [entries[0]] else []) + OfKind(entries[1..], kind)
  }

  function Batches(bs: seq<int>): seq<Tag> {
    if bs == [] then [] else [Batch(bs[0])] + Batches(bs[1..])
  }

  /** What a turn boundary takes: every waiting user batch, or else one receipt between rounds. */
  function Taken(m: Memory, includeCompletion: bool): seq<Entry> {
    var messages := OfKind(m.pending, Messages);
    if messages != [] then messages
    else if includeCompletion && m.pending != [] then [m.pending[0]] else []
  }

  function Left(m: Memory, includeCompletion: bool): seq<Entry> {
    if OfKind(m.pending, Messages) != [] then OfKind(m.pending, Completion)
    else if includeCompletion && m.pending != [] then m.pending[1..] else m.pending
  }

  /** Steers the taken batches into the agent; they wait in `tags` until the agent has read them. */
  function InjectPending(s: State, c: Conversation, includeCompletion: bool): State {
    var m := Mem(s, c);
    var taken := Taken(m, includeCompletion);
    if taken == [] then s
    else SetMemory(s, c, m.(pending := Left(m, includeCompletion),
                            tags := m.tags + Batches(Buckets(taken)), round := true))
  }

  function Nudge(s: State, c: Conversation): State {
    var m := Mem(s, c);
    SetMemory(s, c, m.(tags := m.tags + [Harness]))
  }

  /** A user message reached the transcript: the oldest tag names it, and its batch is acknowledged. */
  function UserMessageEnd(s: State, c: Conversation): State {
    var m := Mem(s, c);
    var running := RunningOf(s.db, c);
    if m.tags == [] || running.None? then s
    else
      var t := SetMemory(s, c, m.(tags := m.tags[1..]));
      match m.tags[0]
      case Harness => t
      case Batch(b) =>
        t.(db := if b in t.db.invocations[running.value].batches then Join(t.db, running.value, b, true) else t.db,
           injections := t.injections + [b])
  }

  /** The barrier holds back the first reply of a round for a batch that is still collecting. */
  function Barrier(s: State, c: Conversation, completing: bool): State {
    var m := Mem(s, c);
    var running := RunningOf(s.db, c);
    if running.None? || m.closing || completing || OfKind(m.pending, Messages) != [] || m.barrierSpent
       || CollectingOf(s.db, c) == {} then s
    else
      var b := Least(CollectingOf(s.db, c), ById);
      var t := QueueInjection(s.(db := Attach(s.db, b, running.value)), c, b, Messages);
      SetMemory(t, c, Mem(t, c).(barrierSpent := true))
  }

  /** Moves the deadline of every collecting batch in `scope` to `atLeast`, never earlier. */
  function PushDeadlines(db: Tables, scope: set<int>, atLeast: int): Tables {
    db.(buckets := map b | b in db.buckets ::
      if b in scope && db.buckets[b].state.Collecting? && db.buckets[b].deadline < atLeast
      then db.buckets[b].(deadline := atLeast) else db.buckets[b])
  }

  function FreeAgent(s: State, c: Conversation, now: int): State {
    SetMemory(s, c, Mem(s, c).(round := false, barrierSpent := false))
    .(db := PushDeadlines(s.db, CollectingOf(s.db, c), now + s.window), freeAt := s.freeAt[c := now])
  }

  function BeginClosing(s: State, c: Conversation): State {
    SetMemory(s, c, Mem(s, c).(closing := true))
  }

  function StartSideEffect(s: State, c: Conversation): State {
    var running := RunningOf(s.db, c);
    if running.None? then s
    else
      var row := s.db.invocations[running.value];
      s.(db := s.db.(invocations := s.db.invocations[running.value := row.(sideEffect := true)]))
  }

  // ---- the end of a run ----

  function Uninjected(db: Tables, i: int): set<int> {
    set b | b in db.buckets && i in db.invocations && b in db.invocations[i].batches && !db.invocations[i].batches[b]
            && b != db.invocations[i].bucket
  }

  /** The claim that batch `b` carries for invocation `i`. */
  predicate CarriedClaim(r: Receipt, i: int, b: int) {
    r.bucket == Some(b) && r.invocation == Some(i) && r.state.Claimed?
  }

  function Repoint(receipts: map<int, Receipt>, i: int, b: int, n: int): map<int, Receipt> {
    map r | r in receipts :: if CarriedClaim(receipts[r], i, b) then receipts[r].(invocation := Some(n)) else receipts[r]
  }

  function DropCarried(receipts: map<int, Receipt>, i: int, b: int): map<int, Receipt> {
    map r | r in receipts :: if CarriedClaim(receipts[r], i, b) then receipts[r].(state := Suppressed) else receipts[r]
  }

  /** A batch the run never read goes back to the queue, unless it was cancelled meanwhile. */
  function ReleaseStep(s: State, i: int, b: int): State
    requires b in s.db.buckets
  {
    if s.db.buckets[b].state.Running? then
      s.(db := Enqueue(s.db, b),
         receipts := Repoint(s.receipts, i, b, s.db.nextInvocation))
    else s.(receipts := DropCarried(s.receipts, i, b))
  }

  lemma ReleaseStepKeys(s: State, i: int, b: int)
    requires b in s.db.buckets
    ensures ReleaseStep(s, i, b).db.buckets.Keys == s.db.buckets.Keys
    ensures s.db.invocations.Keys <= ReleaseStep(s, i, b).db.invocations.Keys
  {
  }

  function ReleaseFold(s: State, i: int, bs: seq<int>): (r: State)
    requires forall b | b in bs :: b in s.db.buckets
    ensures s.db.invocations.Keys <= r.db.invocations.Keys
    decreases bs
  {
    if bs == [] then s
    else
      ReleaseStepKeys(s, i, bs[0]);
      ReleaseFold(ReleaseStep(s, i, bs[0]), i, bs[1..])
  }

  function InChat(db: Tables, chat: int): set<int> {
    set b | b in db.buckets && db.buckets[b].conv.chat == chat
  }

  /** The running batches that run `i` still holds close with it. */
  function CloseHeld(db: Tables, i: int, final: Final): Tables
    requires i in db.invocations
  {
    db.(buckets := map b | b in db.buckets ::
      if db.buckets[b].state.Running? && b in db.invocations[i].batches then db.buckets[b].(state := Closed(final))
      else db.buckets[b])
  }

  /** Everything the ending run still holds closes with it, and its memory is dropped. */
  function Seal(s: State, i: int, final: Final, now: int): State
    requires i in s.db.invocations
  {
    var row := s.db.invocations[i];
    var ended := s.db.invocations[i := row.(state := if row.state.Running? then Ended(final) else row.state)];
    var db := CloseHeld(s.db.(invocations := ended), i, final);
    s.(db := PushDeadlines(db, InChat(db, row.conv.chat), Max(now, row.startedAt + s.window)),
       receipts := SettleReceipts(s.receipts, i, Handled),
       memory := s.memory - {row.conv})
  }

  /** The ending run hands nothing more to its agent. */
  function ClearQueues(s: State, c: Conversation): State {
    SetMemory(s, c, Mem(s, c).(pending := [], tags := []))
  }

  /** The end of a run: teardown of its memory together with the terminal transaction. */
  function Finish(s: State, i: int, final: Final, now: int): State
    requires i in s.db.invocations
  {
    Seal(ReleaseFold(ClearQueues(s, s.db.invocations[i].conv), i, Ordered(Uninjected(s.db, i), ById)), i, final, now)
  }

  // ---- administration ----

  /** Expires the open batches of `scope` and drops the invocations queued there. */
  function Expire(s: State, scope: set<Conversation>): State {
    s.(db := s.db.(
         buckets := map b | b in s.db.buckets ::
           if s.db.buckets[b].conv in scope
              && (s.db.buckets[b].state.Collecting? || s.db.buckets[b].state.Queued?
                  || (s.db.buckets[b].state.Running? && AttachedUninjected(s.db, b)))
           then s.db.buckets[b].(state := Closed(Expired)) else s.db.buckets[b],
         invocations := map i | i in s.db.invocations ::
           if s.db.invocations[i].state.Queued? && s.db.invocations[i].conv in scope
           then s.db.invocations[i].(state := Ended(Aborted)) else s.db.invocations[i]),
       receipts := map t | t in s.receipts ::
         if QueuedClaim(s, t) && s.db.invocations[s.receipts[t].invocation.value].conv in scope
         then s.receipts[t].(state := Suppressed) else s.receipts[t])
  }

  function Conversations(db: Tables): set<Conversation> {
    (set b | b in db.buckets :: db.buckets[b].conv) + (set i | i in db.invocations :: db.invocations[i].conv)
  }

  function Pause(s: State, chat: int): State {
    Expire(s, set c | c in Conversations(s.db) && c.chat == chat).(paused := s.paused + {chat})
  }

  function Resume(s: State, chat: int): State { s.(paused := s.paused - {chat}) }

  function CancelOngoing(s: State): State { Expire(s, Conversations(s.db)) }

  // ---- restart ----

  predicate EndedUnknown(db: Tables, i: int) {
    i in db.invocations && db.invocations[i].state == Ended(OutcomeUnknown)
  }

  predicate Linkless(db: Tables, b: int) {
    forall i | i in db.invocations :: b !in db.invocations[i].batches
  }

  /** The process is gone, so every run is over; what it may have sent decides the outcome. */
  function RestartRuns(db: Tables): Tables {
    db.(invocations := map i | i in db.invocations ::
      if db.invocations[i].state.Running?
      then db.invocations[i].(state := Ended(if db.invocations[i].sideEffect then OutcomeUnknown else Aborted))
      else db.invocations[i])
  }

  function RestartBuckets(db: Tables): Tables {
    db.(buckets := map b | b in db.buckets ::
      if db.buckets[b].state.Running? then
        db.buckets[b].(state := Closed(
          if exists i | i in db.invocations ::
               EndedUnknown(db, i)
               && (b in db.invocations[i].batches || (Linkless(db, b) && db.invocations[i].bucket == b))
          then OutcomeUnknown else Aborted))
      else db.buckets[b])
  }

  predicate ClaimedBy(s: State, i: int) {
    QueuedInvocation(s.db, i) && DeliversReceipt(s, i)
  }

  /** A claim is never replayed: queued deliveries end, and every claimed receipt is settled. */
  function RestartReceipts(s: State): State {
    s.(db := s.db.(
         buckets := map b | b in s.db.buckets ::
           if exists i | i in s.db.invocations ::
                ClaimedBy(s, i) && (s.db.invocations[i].bucket == b || b in s.db.invocations[i].batches)
           then s.db.buckets[b].(state := Closed(Aborted)) else s.db.buckets[b],
         invocations := map i | i in s.db.invocations ::
           if ClaimedBy(s, i) then s.db.invocations[i].(state := Ended(Aborted)) else s.db.invocations[i]),
       receipts := map t | t in s.receipts ::
         if s.receipts[t].state.Claimed? then s.receipts[t].(state := Handled) else s.receipts[t])
  }

  /** Every run ended, every claim settled; memory is that of a new process. */
  function Restart(s: State): State {
    RestartReceipts(s.(db := RestartBuckets(RestartRuns(s.db)), memory := map[]))
  }

  function Expiring(db: Tables, staleBefore: int): seq<int> {
    Ordered((set b | b in db.buckets && (db.buckets[b].state.Collecting? || db.buckets[b].state.Queued?)
                     && db.buckets[b].first < staleBefore), ById)
  }

  function ExpireStep(db: Tables, b: int): Tables
    requires b in db.buckets
  {
    SetBucket(db, b, Closed(Expired)).(invocations := map i | i in db.invocations ::
      if db.invocations[i].bucket == b && db.invocations[i].state.Queued?
      then db.invocations[i].(state := Ended(Aborted)) else db.invocations[i])
  }

  function ExpireFold(s: State, bs: seq<int>): State
    requires forall b | b in bs :: b in s.db.buckets
    decreases bs
  {
    if bs == [] then s else ExpireFold(s.(db := ExpireStep(s.db, bs[0])), bs[1..])
  }

  function Recover(s: State, now: int): State {
    var t := Restart(s);
    ExpireFold(t, Expiring(t.db, now - RECOVERY_MAX_AGE))
  }

  /** Startup catch-up opens one batch for a conversation, queued unless a gate skips it. */
  function CatchUpOne(s: State, c: Conversation, gated: bool, env: Env, startedAt: int, now: int): State {
    if c.chat !in env.configured || c.chat in s.paused || env.sleeping || gated then
      s.(db := AddBucket(s.db, Bucket(c, Closed(SkippedBudget), startedAt, now)))
    else
      s.(db := AddInvocation(AddBucket(s.db, Bucket(c, BucketState.Queued, startedAt, now)), s.db.nextBucket))
  }

  /** It does so for every conversation `cs` that spoke while the process was down, in one transaction. */
  function CatchUp(s: State, cs: seq<Conversation>, gated: set<Conversation>, env: Env, startedAt: int, now: int): State
    decreases cs
  {
    if cs == [] then s
    else CatchUp(CatchUpOne(s, cs[0], cs[0] in gated, env, startedAt, now), cs[1..], gated, env, startedAt, now)
  }
}
