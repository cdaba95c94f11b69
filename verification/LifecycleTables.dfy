/**
 The rows and the in-memory queues that one message batch (a "bucket") passes through, and the
 queries the scheduler asks of them.  SQLite tables are maps keyed by row id; timestamps are
 integers in milliseconds.
 */
module LifecycleTables {
  import opened Options
  import opened Ordering

  /** A conversation is one topic of one chat: `conversations` is unique on that pair. */
  datatype Conversation = Conversation(chat: int, thread: int)

  datatype Final = Completed | Failed | Aborted | OutcomeUnknown | Expired | SkippedBudget
  datatype BucketState = Collecting | Queued | Running | Closed(final: Final)
  datatype InvocationState = Queued | Running | Ended(final: Final)
  datatype ReceiptState = Pending | Claimed | Handled | Suppressed
  datatype TaskState = Waiting | Finished | Broken | Cancelled

  datatype Bucket = Bucket(conv: Conversation, state: BucketState, first: int, deadline: int)
  /** `batches` holds the invocation's `invocation_buckets` rows: which batch, and whether it was injected. */
  datatype Invocation =
    Invocation(bucket: int, conv: Conversation, state: InvocationState, startedAt: int, sideEffect: bool,
               batches: map<int, bool>)
  datatype Task = Task(conv: Conversation, state: TaskState, due: Option<int>, bypassBudget: bool)
  datatype Receipt = Receipt(state: ReceiptState, invocation: Option<int>, bucket: Option<int>, created: int)

  datatype Kind = Messages | Completion
  datatype Entry = Entry(bucket: int, kind: Kind)
  /** One user message handed to the agent and not yet in its transcript. */
  datatype Tag = Batch(bucket: int) | Harness

  /** What the process keeps in memory for one conversation while a run is live. */
  datatype Memory =
    Memory(pending: seq<Entry>, tags: seq<Tag>, closing: bool, round: bool, barrierSpent: bool)

  const IDLE := Memory([], [], false, false, false)

  /** Minimum delay before a due batch of a busy conversation is looked at again. */
  const MINIMUM_DEFER := 250
  const RECOVERY_MAX_AGE := 300_000

  /** The bucket and invocation tables, with their next row ids. */
  datatype Tables = Tables(
    buckets: map<int, Bucket>, invocations: map<int, Invocation>, nextBucket: int, nextInvocation: int)

  /**
   The last three fields only record history: the batches written into a transcript, in order; the
   receipts claimed; and when each conversation's agent last became free.
   */
  datatype State = State(
    window: nat,
    db: Tables,
    tasks: map<int, Task>,
    receipts: map<int, Receipt>,
    paused: set<int>,
    memory: map<Conversation, Memory>,
    injections: seq<int>,
    claims: multiset<int>,
    freeAt: map<Conversation, int>
  )

  /** What a step reads from configuration and clock-driven policy. */
  datatype Env = Env(configured: set<int>, topics: map<int, set<int>>, sleeping: bool)

  function Mem(s: State, c: Conversation): Memory {
    if c in s.memory then s.memory[c] else IDLE
  }

  predicate QueuedInvocation(db: Tables, i: int) {
    i in db.invocations && db.invocations[i].state.Queued?
  }

  predicate RunningInvocation(db: Tables, i: int) {
    i in db.invocations && db.invocations[i].state.Running?
  }

  predicate RunsFor(db: Tables, c: Conversation, i: int) {
    RunningInvocation(db, i) && db.invocations[i].conv == c
  }

  /** The newest running invocation of a conversation. */
  function RunningOf(db: Tables, c: Conversation): (r: Option<int>)
    ensures r.None? ==> forall i :: !RunsFor(db, c, i)
    ensures r.Some? ==> RunsFor(db, c, r.value)
    ensures r.Some? ==> forall i | RunsFor(db, c, i) :: i <= r.value
  {
    var ids := set i | i in db.invocations && RunsFor(db, c, i);
    assert forall i | RunsFor(db, c, i) :: i in ids;
    if ids == {} then None else Some(Least(ids, NewestFirst))
  }

  function NewestFirst(id: int): int { -id }

  predicate ChatRunning(db: Tables, chat: int) {
    exists i | i in db.invocations :: RunningInvocation(db, i) && db.invocations[i].conv.chat == chat
  }

  /** Another piece of work owns the chat, so a due batch of `c` has to wait. */
  predicate ChatTaken(db: Tables, c: Conversation) {
    exists i | i in db.invocations ::
      db.invocations[i].conv.chat == c.chat
      && (db.invocations[i].state.Queued? || (db.invocations[i].state.Running? && db.invocations[i].conv != c))
  }

  /** Attached to a running invocation it did not open, and not yet injected there. */
  predicate AttachedUninjected(db: Tables, b: int) {
    exists i | i in db.invocations ::
      RunningInvocation(db, i) && b in db.invocations[i].batches && !db.invocations[i].batches[b]
      && b != db.invocations[i].bucket
  }

  predicate DeliveryBlocked(s: State, c: Conversation, env: Env) {
    || c.chat !in env.configured
    || c.chat in s.paused
    || (c.chat in env.topics && c.thread !in env.topics[c.chat])
  }
}
