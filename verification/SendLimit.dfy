/** The sliding-window limit on Telegram sends per chat. */
module SendLimit {
  import opened Sets

  /** A conversation is a chat and a thread in it. */
  datatype Conversation = Conversation(chat: int, thread: int)

  /** At most `sends` per chat in `window` milliseconds; a reload may change both between two sends. */
  datatype Limit = Limit(sends: nat, window: nat)

  /**
   A row of `telegram_sends`: where it went and when it was admitted. The limit it was admitted under is no column; it is
   kept here to speak of it.
   */
  datatype Send = Send(conversation: Conversation, created: int, limit: Limit)

  /** Every send ever admitted, numbered in order; the rows still in the table; and the last clock reading. */
  datatype State = State(history: seq<Send>, live: set<nat>, clock: int)

  /** A day: the longest window and the shortest retention the configuration allows. */
  const DAY: nat := 86_400_000

  /** An admission reads the clock twice, for its row and for the count, and the limit then in force. */
  datatype Event =
    | Admit(conversation: Conversation, created: int, counted: int, limit: Limit)
    | Purge(now: int, retention: nat, gone: set<nat>)

  ghost predicate Valid(s: State) { forall id | id in s.live :: id < |s.history| }

  /** The live rows of a chat created at `since` or later. */
  function Recent(s: State, chat: int, since: int): set<nat> {
    set id | id in s.live && id < |s.history| && s.history[id].conversation.chat == chat && s.history[id].created >= since
  }

  /** The sends of a chat admitted in a closed interval, whether their rows are still there or not. */
  function Within(history: seq<Send>, chat: int, low: int, high: int): set<nat> {
    set id: nat | id < |history| && history[id].conversation.chat == chat && low <= history[id].created <= high
  }

  predicate Admitted(s: State, limit: Limit, chat: int, counted: int) {
    |Recent(s, chat, counted - limit.window)| < limit.sends
  }

  /** The clock does not run back, the purge takes rows older than the retention, and both numbers are configured ones. */
  predicate Enabled(drift: nat, s: State, e: Event) {
    match e
    case Admit(_, created, counted, limit) => s.clock <= created <= counted <= created + drift && limit.window <= DAY
    case Purge(now, retention, gone) =>
      && s.clock <= now && gone <= s.live && DAY <= retention
      && forall id | id in gone :: id < |s.history| && s.history[id].created < now - retention
  }

  function Next(s: State, e: Event): State {
    match e
    case Admit(conversation, created, counted, limit) =>
      if Admitted(s, limit, conversation.chat, counted)
      then State(s.history + [Send(conversation, created, limit)], s.live + {|s.history|}, counted)
      else s.(clock := counted)
    case Purge(now, _, gone) => s.(live := s.live - gone, clock := now)
  }

  const START := State([], {}, 0)

  function After(events: seq<Event>): State {
    if events == [] then START else Next(After(events[..|events| - 1]), events[|events| - 1])
  }

  predicate Legal(drift: nat, events: seq<Event>) {
    events == [] ||
    (var before := events[..|events| - 1];
     Legal(drift, before) && Enabled(drift, After(before), events[|events| - 1]))
  }

  /** Rows that are gone are older than any later count looks back. */
  ghost predicate Kept(s: State) {
    && Valid(s)
    && forall id: nat | id < |s.history| && id !in s.live :: s.history[id].created < s.clock - DAY
  }

  lemma NextKept(drift: nat, s: State, e: Event)
    requires Kept(s) && Enabled(drift, s, e)
    ensures Kept(Next(s, e))
  {
    hide Admitted;
    var t := Next(s, e);
    forall id: nat | id < |t.history| && id !in t.live ensures t.history[id].created < t.clock - DAY {
      assert id < |s.history|;
    }
  }

  lemma {:induction false} RunKeeps(drift: nat, events: seq<Event>)
    requires Legal(drift, events)
    ensures Kept(After(events))
    decreases |events|
  {
    if events != [] {
      hide Next, Enabled, Kept;
      var before := events[..|events| - 1];
      RunKeeps(drift, before);
      NextKept(drift, After(before), events[|events| - 1]);
    }
  }

  /** The purge never changes an admission: it is as if every send were still on record. */
  lemma CountsAll(drift: nat, events: seq<Event>, limit: Limit, chat: int, counted: int)
    requires Legal(drift, events) && limit.window <= DAY
    requires After(events).clock <= counted
    ensures var s := After(events);
            Recent(s, chat, counted - limit.window)
            == set id: nat | id < |s.history| && s.history[id].conversation.chat == chat
                             && s.history[id].created >= counted - limit.window
  {
    RunKeeps(drift, events);
  }

  lemma WithinRecent(s: State, limit: Limit, chat: int, low: int, high: int, counted: int)
    requires Kept(s) && limit.window <= DAY && s.clock <= counted && counted - limit.window <= low
    ensures Within(s.history, chat, low, high) <= Recent(s, chat, counted - limit.window)
  {
  }

  lemma WithinMore(history: seq<Send>, send: Send, chat: int, low: int, high: int)
    ensures Within(history + [send], chat, low, high)
            == Within(history, chat, low, high)
               + (if send.conversation.chat == chat && low <= send.created <= high then {|history|} else {})
    ensures forall id | id in Within(history, chat, low, high) :: id < |history|
  {
  }

  /** Sends of a chat in an interval never outnumber the limit of the last of them, if its window spans the interval. */
  ghost predicate Bounded(drift: nat, history: seq<Send>, chat: int, low: int, high: int) {
    forall last: nat | last < |history| && last in Within(history, chat, low, high)
                       && (forall id | id in Within(history, chat, low, high) :: id <= last)
                       && high - low + drift <= history[last].limit.window ::
      |Within(history, chat, low, high)| <= history[last].limit.sends
  }

  /** An admission in the interval finds fewer sends there than its limit allows. */
  lemma AdmittedBounded(drift: nat, s: State, e: Event, chat: int, low: int, high: int)
    requires Kept(s) && Enabled(drift, s, e) && e.Admit? && Admitted(s, e.limit, e.conversation.chat, e.counted)
    requires e.conversation.chat == chat && low <= e.created <= high && high - low + drift <= e.limit.window
    ensures |Within(s.history, chat, low, high)| < e.limit.sends
  {
    WithinRecent(s, e.limit, chat, low, high, e.counted);
    SubsetSize(Within(s.history, chat, low, high), Recent(s, chat, e.counted - e.limit.window));
  }

  lemma NextBounded(drift: nat, s: State, e: Event, chat: int, low: int, high: int)
    requires Kept(s) && Enabled(drift, s, e) && Bounded(drift, s.history, chat, low, high)
    ensures Bounded(drift, Next(s, e).history, chat, low, high)
  {
    hide Within, Recent, Kept, Enabled, Admitted;
    if e.Admit? && Admitted(s, e.limit, e.conversation.chat, e.counted) {
      var send := Send(e.conversation, e.created, e.limit);
      WithinMore(s.history, send, chat, low, high);
      if e.conversation.chat == chat && low <= e.created <= high {
        if high - low + drift <= e.limit.window { AdmittedBounded(drift, s, e, chat, low, high); }
        assert |s.history| in Within(s.history + [send], chat, low, high);
      }
    }
  }

  /**
   In every run, over any interleaving of conversations, purges and reloads: a closed interval holds at most as many
   sends of a chat as the limit allowed when the last of them was admitted, if the interval is no longer than the window
   of that limit less the drift between the two clock readings.
   */
  lemma {:induction false} WindowHolds(drift: nat, events: seq<Event>, chat: int, low: int, high: int)
    requires Legal(drift, events)
    ensures Bounded(drift, After(events).history, chat, low, high)
    decreases |events|
  {
    hide Next, Enabled, Kept;
    if events == [] {
      assert Within([], chat, low, high) == {};
    } else {
      hide Bounded;
      var before := events[..|events| - 1];
      WindowHolds(drift, before, chat, low, high);
      RunKeeps(drift, before);
      NextBounded(drift, After(before), events[|events| - 1], chat, low, high);
    }
  }

  lemma {:induction false} Newest(ids: set<nat>) returns (last: nat)
    requires ids != {}
    ensures last in ids && forall id | id in ids :: id <= last
    decreases |ids|
  {
    last :| last in ids;
    assert ids == {last} + (ids - {last});
    if ids - {last} != {} {
      var other := Newest(ids - {last});
      last := if other < last then last else other;
    }
  }

  /** So no interval holds more than the largest limit in force in it, if no window in force in it is shorter. */
  lemma LargestLimit(drift: nat, events: seq<Event>, chat: int, low: int, high: int, sends: nat)
    requires Legal(drift, events)
    requires var history := After(events).history;
             forall id | id in Within(history, chat, low, high) ::
               high - low + drift <= history[id].limit.window && history[id].limit.sends <= sends
    ensures |Within(After(events).history, chat, low, high)| <= sends
  {
    WindowHolds(drift, events, chat, low, high);
    hide After, Legal;
    var within := Within(After(events).history, chat, low, high);
    if within != {} {
      var last := Newest(within);
      assert last < |After(events).history|;
    }
  }

  // ---- the two clock readings ----

  function Burst(conversation: Conversation, limit: Limit, n: nat): seq<Event> {
    seq(n, _ => Admit(conversation, 0, 0, limit))
  }

  function UpTo(n: nat): (ids: set<nat>)
    ensures |ids| == n && forall id: nat :: id in ids <==> id < n
  {
    if n == 0 then {} else UpTo(n - 1) + {n - 1}
  }

  function Burnt(conversation: Conversation, limit: Limit, n: nat): State {
    State(seq(n, _ => Send(conversation, 0, limit)), UpTo(n), 0)
  }

  lemma BurntNext(limit: Limit, conversation: Conversation, n: nat)
    requires n < limit.sends
    ensures Next(Burnt(conversation, limit, n), Admit(conversation, 0, 0, limit)) == Burnt(conversation, limit, n + 1)
  {
    hide Recent, UpTo;
    BurntRecent(limit, conversation, n);
    var before, full := Burnt(conversation, limit, n), Burnt(conversation, limit, n + 1);
    assert before.history + [Send(conversation, 0, limit)] == full.history;
    assert before.live + {n} == full.live;
  }

  lemma BurntRecent(limit: Limit, conversation: Conversation, n: nat)
    ensures Recent(Burnt(conversation, limit, n), conversation.chat, 0 - limit.window) == UpTo(n)
  {
  }

  /** A chat may use up its limit at once. */
  lemma {:induction false} BurstFills(limit: Limit, conversation: Conversation, n: nat)
    requires n <= limit.sends && limit.window <= DAY
    ensures Legal(0, Burst(conversation, limit, n))
    ensures After(Burst(conversation, limit, n)) == Burnt(conversation, limit, n)
  {
    if n > 0 {
      BurstFills(limit, conversation, n - 1);
      BurntNext(limit, conversation, n - 1);
      assert Burst(conversation, limit, n)[..n - 1] == Burst(conversation, limit, n - 1);
      hide Next, Burst;
    }
  }

  lemma {:induction false} DriftGrows(drift: nat, events: seq<Event>)
    requires Legal(0, events)
    ensures Legal(drift, events)
    decreases |events|
  {
    if events != [] { DriftGrows(drift, events[..|events| - 1]); }
  }

  /** The limit is the same for a whole run. */
  ghost predicate Fixed(limit: Limit, events: seq<Event>) {
    forall k | 0 <= k < |events| && events[k].Admit? :: events[k].limit == limit
  }

  /** Counted a millisecond after its own time, the late send sees none of the burst. */
  lemma LateFits(limit: Limit, conversation: Conversation)
    requires limit.sends > 0
    ensures var late := Admit(conversation, limit.window, limit.window + 1, limit);
            var after := Next(Burnt(conversation, limit, limit.sends), late);
            |Within(after.history, conversation.chat, 0, limit.window)| == limit.sends + 1
  {
    var n := limit.sends;
    var full := Burnt(conversation, limit, n);
    assert Recent(full, conversation.chat, 1) == {};
    var after := full.history + [Send(conversation, limit.window, limit)];
    WithinMore(full.history, Send(conversation, limit.window, limit), conversation.chat, 0, limit.window);
    assert Within(full.history, conversation.chat, 0, limit.window) == UpTo(n);
    hide Recent, Within, UpTo;
  }

  lemma LateLegal(limit: Limit, drift: nat, conversation: Conversation, burst: seq<Event>)
    requires Legal(drift, burst) && After(burst) == Burnt(conversation, limit, limit.sends)
    requires drift > 0 && limit.window <= DAY
    ensures Legal(drift, burst + [Admit(conversation, limit.window, limit.window + 1, limit)])
  {
    var events := burst + [Admit(conversation, limit.window, limit.window + 1, limit)];
    assert events[..|events| - 1] == burst;
  }

  /** A send admitted at the end of the window, but counted a millisecond later, is one too many. */
  lemma OneTooMany(limit: Limit, drift: nat, conversation: Conversation)
    requires drift > 0 && limit.sends > 0 && limit.window <= DAY
    ensures var late := Admit(conversation, limit.window, limit.window + 1, limit);
            var events := Burst(conversation, limit, limit.sends) + [late];
            && Legal(drift, events) && Fixed(limit, events)
            && |Within(After(events).history, conversation.chat, 0, limit.window)| == limit.sends + 1
  {
    var n := limit.sends;
    var late := Admit(conversation, limit.window, limit.window + 1, limit);
    var events := Burst(conversation, limit, n) + [late];
    assert events[..n] == Burst(conversation, limit, n);
    BurstFills(limit, conversation, n);
    DriftGrows(drift, Burst(conversation, limit, n));
    LateFits(limit, conversation);
    hide Next, Burst, Burnt, Within, Legal;
    assert After(events) == Next(Burnt(conversation, limit, n), late);
    assert Legal(drift, events) by { LateLegal(limit, drift, conversation, Burst(conversation, limit, n)); }
  }

  /** The sends of a chat in the window that starts at `low`, over a whole run. */
  function InWindow(limit: Limit, events: seq<Event>, chat: int, low: int): nat {
    |Within(After(events).history, chat, low, low + limit.window)|
  }

  lemma {:induction false} FixedHistory(limit: Limit, events: seq<Event>)
    requires Fixed(limit, events)
    ensures forall id: nat | id < |After(events).history| :: After(events).history[id].limit == limit
    decreases |events|
  {
    hide Admitted;
    if events != [] { FixedHistory(limit, events[..|events| - 1]); }
  }

  lemma FixedHolds(limit: Limit, events: seq<Event>, chat: int, low: int)
    requires Legal(0, events) && Fixed(limit, events)
    ensures InWindow(limit, events, chat, low) <= limit.sends
  {
    hide Legal, After, Fixed;
    FixedHistory(limit, events);
    LargestLimit(0, events, chat, low, low + limit.window, limit.sends);
  }

  /** Under one limit, every interval as long as the window keeps it exactly when the two readings are one. */
  lemma WindowExact(limit: Limit, drift: nat)
    requires limit.window <= DAY && limit.sends > 0
    ensures (forall events: seq<Event>, chat: int, low: int ::
               Legal(drift, events) && Fixed(limit, events) ==> InWindow(limit, events, chat, low) <= limit.sends)
            <==> drift == 0
  {
    hide Legal, After, Within, Burst, Fixed;
    if drift == 0 {
      forall events: seq<Event>, chat: int, low: int
        ensures Legal(drift, events) && Fixed(limit, events) ==> InWindow(limit, events, chat, low) <= limit.sends
      {
        if Legal(drift, events) && Fixed(limit, events) { FixedHolds(limit, events, chat, low); }
      }
    } else {
      OneTooMany(limit, drift, Conversation(0, 0));
      var late := Admit(Conversation(0, 0), limit.window, limit.window + 1, limit);
      var events := Burst(Conversation(0, 0), limit, limit.sends) + [late];
      assert InWindow(limit, events, 0, 0) > limit.sends;
    }
  }
}
