/** Every run of the whole system, from an empty database. */
module LifecycleRuns {
  import opened Options
  import opened Ordering
  import opened LifecycleTables
  import opened LifecycleSteps
  import opened LifecycleInvariant
  import opened LifecycleDrops
  import opened LifecycleRounds
  import opened LifecycleHandover
  import opened LifecycleQueries

  /** One transaction, one turn boundary of a live run, or a restart of the process. */
  datatype Event =
    | Message(conv: Conversation, eligible: bool, allowed: bool)
    | DueTick(env: Env)
    | TimerTick
    | ReceiptTick(env: Env)
    | TaskCreated(task: int, conv: Conversation, due: Option<int>, bypass: bool)
    | TaskFinished(task: int, state: TaskState, notify: bool)
    | TaskCancelled(task: int)
    | SuppressTick(env: Env)
    | SleepTick
    | LaunchTick(maxConcurrency: nat)
    | TurnBoundary(conv: Conversation, includeCompletion: bool)
    | Nudged(conv: Conversation)
    | UserMessageRead(conv: Conversation)
    | SendAttempt(conv: Conversation, completing: bool)
    | AgentFree(conv: Conversation)
    | Closing(conv: Conversation)
    | SideEffectStarts(conv: Conversation)
    | RunEnds(invocation: int, final: Final)
    | PauseCommand(chat: int)
    | ResumeCommand(chat: int)
    | CancelCommand
    | ProcessRestart
    | StartupCatchUp(convs: seq<Conversation>, gated: set<Conversation>, env: Env, startedAt: int)

  datatype Step = Step(event: Event, at: int)

  /** What the code itself guarantees at the call: a run's own hooks fire only while it runs. */
  predicate Enabled(s: State, e: Event) {
    match e
    case Nudged(c) => RunningOf(s.db, c).Some?
    case Closing(c) => RunningOf(s.db, c).Some?
    case RunEnds(i, _) => RunningInvocation(s.db, i)
    case TaskFinished(_, state, _) => !state.Waiting?
    case _ => true
  }

  function Next(s: State, step: Step): State
    requires Enabled(s, step.event)
  {
    var now := step.at;
    match step.event
    case Message(c, eligible, allowed) => Ingest(s, c, eligible, allowed, now)
    case DueTick(env) => ProcessDue(s, env, now)
    case TimerTick => TimersDone(s, now)
    case ReceiptTick(env) => ReceiptFold(s, PendingReceipts(s), env, now)
    case TaskCreated(t, c, due, bypass) => CreateTask(s, t, c, due, bypass)
    case TaskFinished(t, state, notify) => FinishTask(s, t, state, notify, now)
    case TaskCancelled(t) => CancelTask(s, t, now)
    case SuppressTick(env) => SuppressFold(s, QueuedClaims(s), env)
    case SleepTick => SkipFold(s, Sleepers(s))
    case LaunchTick(max) => Launch(s, now, max)
    case TurnBoundary(c, includeCompletion) => InjectPending(s, c, includeCompletion)
    case Nudged(c) => Nudge(s, c)
    case UserMessageRead(c) => UserMessageEnd(s, c)
    case SendAttempt(c, completing) => Barrier(s, c, completing)
    case AgentFree(c) => FreeAgent(s, c, now)
    case Closing(c) => BeginClosing(s, c)
    case SideEffectStarts(c) => StartSideEffect(s, c)
    case RunEnds(i, final) => Finish(s, i, final, now)
    case PauseCommand(chat) => Pause(s, chat)
    case ResumeCommand(chat) => Resume(s, chat)
    case CancelCommand => CancelOngoing(s)
    case ProcessRestart => Recover(s, now)
    case StartupCatchUp(cs, gated, env, startedAt) => CatchUp(s, cs, gated, env, startedAt, now)
  }

  lemma NextKeeps(s: State, step: Step, clock: int)
    requires Inv(s, clock) && clock <= step.at && Enabled(s, step.event)
    ensures Inv(Next(s, step), step.at)
  {
    hide Inv, RunningOf, Ingest, ProcessDue, ReceiptFold, Ordered, Launch, InjectPending, UserMessageEnd, Barrier,
      FreeAgent, Finish, Recover, CatchUp, CreateTask, EndTask, CancelTask, Expire;
    var now := step.at;
    ClockAdvances(s, clock, now);
    match step.event
    case Message(c, eligible, allowed) => IngestKeeps(s, c, eligible, allowed, now, clock);
    case DueTick(env) => ProcessDueKeeps(s, env, now, clock);
    case TimerTick => TasksDueFoldKeeps(s, Ordered(TasksDueSet(s, now), Schedule(s)), now, now);
    case ReceiptTick(env) => ReceiptFoldKeeps(s, PendingReceipts(s), env, now, now);
    case TaskCreated(t, c, due, bypass) => CreateTaskKeeps(s, t, c, due, bypass, now);
    case TaskFinished(t, state, notify) => EndTaskKeeps(s, t, state, if notify then Pending else Suppressed, now, now);
    case TaskCancelled(t) => CancelTaskKeeps(s, t, now, now);
    case SuppressTick(env) => SuppressKeeps(s, env, now);
    case SleepTick => SkipSleepersKeeps(s, now);
    case LaunchTick(max) => LaunchKeeps(s, now, max, clock);
    case TurnBoundary(c, includeCompletion) => InjectPendingKeeps(s, c, includeCompletion, now);
    case Nudged(c) => FlagsKeep(s, c, Mem(s, c).(tags := Mem(s, c).tags + [Harness]), now);
    case UserMessageRead(c) => UserMessageEndKeeps(s, c, now);
    case SendAttempt(c, completing) => BarrierKeeps(s, c, completing, now);
    case AgentFree(c) => FreeAgentKeeps(s, c, now, clock);
    case Closing(c) => FlagsKeep(s, c, Mem(s, c).(closing := true), now);
    case SideEffectStarts(c) => SideEffectKeeps(s, c, now);
    case RunEnds(i, final) => FinishKeeps(s, i, final, now, now);
    case PauseCommand(chat) =>
      var scope := set c | c in Conversations(s.db) && c.chat == chat;
      ExpireKeeps(s, scope, now);
      PauseKeeps(Expire(s, scope), s.paused + {chat}, now);
    case ResumeCommand(chat) => PauseKeeps(s, s.paused - {chat}, now);
    case CancelCommand => ExpireKeeps(s, Conversations(s.db), now);
    case ProcessRestart => RecoverKeeps(s, now, now);
    case StartupCatchUp(cs, gated, env, startedAt) => CatchUpKeeps(s, cs, gated, env, startedAt, now, now);
  }

  // ---- runs ----

  function Empty(window: nat): State {
    State(window, Tables(map[], map[], 1, 1), map[], map[], {}, map[], [], multiset{}, map[])
  }

  lemma EmptyHolds(window: nat, clock: int)
    ensures Inv(Empty(window), clock)
  {
  }

  /** Steps that can follow one another, with a clock that never goes back. */
  ghost predicate Legal(s: State, steps: seq<Step>, clock: int)
    decreases steps
  {
    steps == [] ||
    (clock <= steps[0].at && Enabled(s, steps[0].event) && Legal(Next(s, steps[0]), steps[1..], steps[0].at))
  }

  ghost function After(s: State, steps: seq<Step>, clock: int): State
    requires Legal(s, steps, clock)
    decreases steps
  {
    if steps == [] then s else After(Next(s, steps[0]), steps[1..], steps[0].at)
  }

  function Clock(steps: seq<Step>, clock: int): int {
    if steps == [] then clock else steps[|steps| - 1].at
  }

  lemma {:induction false} RunKeeps(s: State, steps: seq<Step>, clock: int)
    requires Inv(s, clock) && Legal(s, steps, clock)
    ensures Inv(After(s, steps, clock), Clock(steps, clock))
    decreases steps
  {
    hide Inv, Enabled, Next;
    if steps == [] {
    } else {
      NextKeeps(s, steps[0], clock);
      RunKeeps(Next(s, steps[0]), steps[1..], steps[0].at);
    }
  }

  /** The invariant holds in every state any run can reach. */
  lemma ReachableStates(window: nat, steps: seq<Step>, clock: int)
    requires Legal(Empty(window), steps, clock)
    ensures Inv(After(Empty(window), steps, clock), Clock(steps, clock))
  {
    EmptyHolds(window, clock);
    hide Inv;
    RunKeeps(Empty(window), steps, clock);
  }
}
