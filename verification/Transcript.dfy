/** The cached transcript of a conversation, which must always say what the canonical history says. */
module Transcript {
  import opened Options
  import opened ContextCodec
  import opened ContextGc
  import opened ContextStore

  /** What the runtime caches: the agent's messages, and for each the row it was written to. */
  datatype Entry = Entry(handle: Handle, seqs: seq<Option<int>>, messages: seq<Message>)

  function Written(seqs: seq<Option<int>>): seq<int> {
    if seqs == [] then [] else (if seqs[0].Some? then [seqs[0].value] else []) + Written(seqs[1..])
  }

  /** The written messages, as storage returns them. */
  function Projected(seqs: seq<Option<int>>, messages: seq<Message>): seq<Message>
    requires |seqs| == |messages|
  {
    if seqs == [] then []
    else (if seqs[0].Some? && Encode(messages[0]).Some? then [Decode(Encode(messages[0]).value)] else [])
         + Projected(seqs[1..], messages[1..])
  }

  /** A row holds what a message was encoded to, and encoding it again changes nothing. */
  ghost predicate WellEncoded(c: Context) {
    forall s | s in c.rows :: Encode(Decode(c.rows[s].payload)) == Some(c.rows[s].payload)
  }

  ghost predicate Dense(c: Context) {
    c.head >= 1 && forall s :: s in c.rows <==> 1 <= s < c.next
  }

  ghost predicate Paired(c: Context, seqs: seq<Option<int>>, messages: seq<Message>) {
    && |seqs| == |messages|
    && forall k | 0 <= k < |seqs| ::
         match seqs[k]
         case None => Encode(messages[k]).None?
         case Some(s) => s in c.rows && Encode(messages[k]) == Some(c.rows[s].payload)
  }

  /** The cache and the history agree: same window, and entry by entry the same content. */
  ghost predicate Agrees(e: Entry, c: Context) {
    && Dense(c) && WellEncoded(c) && e.handle == HandleOf(c)
    && Paired(c, e.seqs, e.messages)
    && Written(e.seqs) == Seqs(c, e.handle)
  }

  lemma {:induction false} ProjectedIsMessages(c: Context, seqs: seq<Option<int>>, messages: seq<Message>)
    requires Paired(c, seqs, messages)
    ensures forall s | s in Written(seqs) :: s in c.rows
    ensures Projected(seqs, messages) == Messages(c.rows, Written(seqs))
    decreases seqs
  {
    if seqs != [] {
      assert Paired(c, seqs[1..], messages[1..]) by {
        forall k | 0 <= k < |seqs| - 1 ensures seqs[1..][k] == seqs[k + 1] && messages[1..][k] == messages[k + 1] {}
      }
      ProjectedIsMessages(c, seqs[1..], messages[1..]);
      var rest := Written(seqs[1..]);
      if seqs[0].Some? {
        assert Written(seqs) == [seqs[0].value] + rest && ([seqs[0].value] + rest)[1..] == rest;
      } else {
        assert Written(seqs) == [] + rest == rest;
      }
    }
  }

  /** A transcript seeded again from the history is the cached one without its unwritten entries. */
  lemma Reseeded(e: Entry, c: Context)
    requires Agrees(e, c)
    ensures |e.seqs| == |e.messages|
    ensures Retained(c, e.handle) == Projected(e.seqs, e.messages)
    ensures forall i, j | 0 <= i < j < |Written(e.seqs)| :: Written(e.seqs)[i] < Written(e.seqs)[j]
  {
    ProjectedIsMessages(c, e.seqs, e.messages);
    SeqsAscend(c, e.handle);
  }

  // ---- one more message ----

  lemma {:induction false} WrittenAppend(a: seq<Option<int>>, b: seq<Option<int>>)
    ensures Written(a + b) == Written(a) + Written(b)
    decreases a
  {
    if a == [] {
      assert a + b == b;
    } else {
      assert (a + b)[1..] == a[1..] + b;
      WrittenAppend(a[1..], b);
    }
  }

  lemma AppendedSeqs(c: Context, input: Input)
    requires Dense(c) && c.head <= c.next
    ensures Append(c, HandleOf(c), input).Some?
    ensures var r := Append(c, HandleOf(c), input).value; Seqs(r, HandleOf(r)) == Seqs(c, HandleOf(c)) + [c.next]
  {
    var r := Append(c, HandleOf(c), input).value;
    var xs, ys := Seqs(c, HandleOf(c)) + [c.next], Seqs(r, HandleOf(r));
    SeqsAscend(c, HandleOf(c));
    SeqsAscend(r, HandleOf(r));
    assert forall s | s in Seqs(c, HandleOf(c)) :: s < c.next;
    forall i, j | 0 <= i < j < |xs| ensures xs[i] < xs[j] {
      if j == |xs| - 1 { var s := xs[i]; assert s == Seqs(c, HandleOf(c))[i]; assert s in Seqs(c, HandleOf(c)); }
    }
    forall s ensures s in xs <==> s in ys {
      assert s in xs <==> s in Seqs(c, HandleOf(c)) || s == c.next;
    }
    SortedUnique(ys, xs);
  }

  /** The agent finished one message: it is written unless it must not be, and paired with its row. */
  function Persist(e: Entry, c: Context, m: Message, checkpoint: bool, tokens: nat, countedSend: bool): (Entry, Context) {
    var payload := Encode(m);
    if payload.None? then (e.(seqs := e.seqs + [None], messages := e.messages + [m]), c)
    else
      var input := Input(payload.value, checkpoint, tokens, countedSend);
      var r := Append(c, e.handle, input);
      if r.None? then (e.(messages := e.messages + [m]), c)
      else (Entry(AfterAppend(e.handle, input), e.seqs + [Some(e.handle.next)], e.messages + [m]), r.value)
  }

  lemma PersistKeeps(e: Entry, c: Context, m: Message, checkpoint: bool, tokens: nat, countedSend: bool)
    requires Agrees(e, c) && c.head <= c.next
    ensures var (f, d) := Persist(e, c, m, checkpoint, tokens, countedSend); Agrees(f, d) && d.head <= d.next
  {
    var (f, d) := Persist(e, c, m, checkpoint, tokens, countedSend);
    var payload := Encode(m);
    if payload.None? {
      WrittenAppend(e.seqs, [None]);
    } else {
      var input := Input(payload.value, checkpoint, tokens, countedSend);
      RoundTrip(m);
      AppendedSeqs(c, input);
      WrittenAppend(e.seqs, [Some(c.next)]);
      assert Written([Some(c.next)]) == [c.next] + Written([]);
      AppendPairs(c, e, m, input);
    }
  }

  lemma AppendPairs(c: Context, e: Entry, m: Message, input: Input)
    requires Agrees(e, c) && Encode(m) == Some(input.payload) && c.next !in c.rows
    ensures var d := Append(c, HandleOf(c), input).value;
            Paired(d, e.seqs + [Some(c.next)], e.messages + [m])
  {
  }

  // ---- collection ----

  lemma {:induction false} WrittenFrom(seqs: seq<Option<int>>, index: nat, target: int)
    requires index < |seqs| && seqs[index] == Some(target)
    requires forall i, j | 0 <= i < j < |Written(seqs)| :: Written(seqs)[i] < Written(seqs)[j]
    ensures Written(seqs[index..]) == SeqsFrom(Written(seqs), target)
  {
    assert seqs == seqs[..index] + seqs[index..];
    WrittenAppend(seqs[..index], seqs[index..]);
    var a, b := Written(seqs[..index]), Written(seqs[index..]);
    assert b[0] == target;
    assert Written(seqs) == a + b;
    forall i | 0 <= i < |a| ensures a[i] < target {
      assert (a + b)[i] == a[i] && (a + b)[|a|] == target;
    }
    forall i | 0 <= i < |b| ensures b[i] >= target {
      assert (a + b)[|a| + i] == b[i] && (a + b)[|a|] == target;
    }
    SeqsFromSplit(a, b, target);
  }

  lemma {:induction false} SeqsFromSplit(a: seq<int>, b: seq<int>, t: int)
    requires forall i | 0 <= i < |a| :: a[i] < t
    requires forall i | 0 <= i < |b| :: b[i] >= t
    ensures SeqsFrom(a + b, t) == b
    decreases |a| + |b|
  {
    if a != [] {
      assert (a + b)[1..] == a[1..] + b;
      SeqsFromSplit(a[1..], b, t);
    } else if b != [] {
      assert a + b == b && [] + b[1..] == b[1..];
      SeqsFromSplit([], b[1..], t);
    }
  }

  /** Moves the head to `target`; the cache drops everything before the message written there. */
  function Collect(e: Entry, c: Context, target: int, index: nat): (Entry, Context)
    requires index <= |e.seqs| && index <= |e.messages|
  {
    var r := AdvanceHead(c, e.handle, target);
    if r.None? then (e, c)
    else (Entry(e.handle.(head := target), e.seqs[index..], e.messages[index..]), r.value)
  }

  lemma CollectKeeps(e: Entry, c: Context, target: int, index: nat)
    requires Agrees(e, c) && index < |e.seqs| && e.seqs[index] == Some(target) && c.head < target < c.next
    ensures var (f, d) := Collect(e, c, target, index);
            && Agrees(f, d) && d.head <= d.next && f.handle.head == target
            && f.messages == e.messages[index..]
  {
    var (f, d) := Collect(e, c, target, index);
    Reseeded(e, c);
    WrittenFrom(e.seqs, index, target);
    AdvancedWindow(c, e.handle, target);
  }

  /** What `#maybeCollect` hands to the planner. */
  ghost predicate PlansFor(o: GcInput, e: Entry, c: Context) {
    o.head == e.handle.head && o.seqs == e.seqs && o.messages == e.messages && o.rows == Window(c, e.handle)
  }

  /** A plan's target is a written message above the head, so the store accepts it. */
  lemma PlanIsApplicable(o: GcInput, e: Entry, c: Context)
    requires Agrees(e, c) && PlansFor(o, e, c) && Collects(o)
    ensures var target := o.rows[Target(o).value].seqNo;
            var index := IndexOf(o.seqs, target);
            0 < index < |e.seqs| && e.seqs[index] == Some(target) && c.head < target < c.next
            && Renderable(e.messages[index..])
  {
    var target := o.rows[Target(o).value].seqNo;
    SeqsAscend(c, e.handle);
    TargetMeans(o);
    RowsOfSeqs(c.rows, Seqs(c, e.handle));
    var s := Seqs(c, e.handle)[Target(o).value];
    assert s in Seqs(c, e.handle) && s == target;
  }

  // ---- what a seeded transcript looks like ----

  /** A message that is not stored is no more than a gap. */
  function Stored(m: Message): Message { if Encode(m).Some? then m else Other("") }

  function WithGaps(messages: seq<Message>): (r: seq<Message>)
    ensures |r| == |messages| && forall k | 0 <= k < |r| :: r[k] == Stored(messages[k])
  {
    seq(|messages|, k requires 0 <= k < |messages| => Stored(messages[k]))
  }

  ghost predicate StoredWhenWritten(seqs: seq<Option<int>>, messages: seq<Message>) {
    |seqs| == |messages| && forall k | 0 <= k < |seqs| :: seqs[k].Some? <==> Encode(messages[k]).Some?
  }

  lemma {:induction false} ProjectedAccepts(seqs: seq<Option<int>>, messages: seq<Message>, pending: set<string>)
    requires StoredWhenWritten(seqs, messages)
    ensures Accepts(pending, Projected(seqs, messages)) <==> Accepts(pending, WithGaps(messages))
    decreases seqs
  {
    if seqs != [] {
      var m := messages[0];
      var rest := Projected(seqs[1..], messages[1..]);
      assert WithGaps(messages)[1..] == WithGaps(messages[1..]);
      if Encode(m).Some? {
        ShapeKept(m);
        var d := Decode(Encode(m).value);
        assert Projected(seqs, messages) == [d] + rest && ([d] + rest)[1..] == rest;
        if m.ToolResult? { ProjectedAccepts(seqs[1..], messages[1..], pending - {m.callId}); }
        else { ProjectedAccepts(seqs[1..], messages[1..], pending + CallIds(m)); }
      } else {
        NotStored(m);
        assert Projected(seqs, messages) == rest && pending + {} == pending;
        ProjectedAccepts(seqs[1..], messages[1..], pending);
      }
    }
  }

  /** The first written message, if there is one, is a user's. */
  ghost predicate StartsWithUser(seqs: seq<Option<int>>, messages: seq<Message>)
    requires |seqs| == |messages|
  {
    exists k: nat :: k < |seqs| && seqs[k].Some? && messages[k].User? && forall i | 0 <= i < k :: seqs[i].None?
  }

  lemma {:induction false} ProjectedStart(seqs: seq<Option<int>>, messages: seq<Message>)
    requires StoredWhenWritten(seqs, messages)
    ensures (Projected(seqs, messages) != [] && Projected(seqs, messages)[0].User?) <==> StartsWithUser(seqs, messages)
    decreases seqs
  {
    if seqs != [] {
      ProjectedStart(seqs[1..], messages[1..]);
      if seqs[0].Some? {
        ShapeKept(messages[0]);
      } else {
        if StartsWithUser(seqs, messages) {
          var k: nat :| k < |seqs| && seqs[k].Some? && messages[k].User? && forall i | 0 <= i < k :: seqs[i].None?;
          assert seqs[1..][k - 1] == seqs[k] && messages[1..][k - 1] == messages[k];
        }
        if StartsWithUser(seqs[1..], messages[1..]) {
          var k: nat :| k < |seqs| - 1 && seqs[1..][k].Some? && messages[1..][k].User?
                        && forall i | 0 <= i < k :: seqs[1..][i].None?;
          assert forall i | 0 < i < k + 1 :: seqs[i] == seqs[1..][i - 1];
          assert seqs[k + 1].Some? && messages[k + 1].User?;
        }
      }
    }
  }

  /** Every tool result answers a call that was written, not answered in between. */
  ghost predicate AnsweredByWritten(seqs: seq<Option<int>>, messages: seq<Message>)
    requires |seqs| == |messages|
  {
    forall k: nat | k < |messages| && messages[k].ToolResult? ::
      exists j: nat :: j < |seqs| && seqs[j].Some? && OpenSince(messages, j, k, messages[k].callId)
  }

  lemma GapsAnswered(seqs: seq<Option<int>>, messages: seq<Message>)
    requires StoredWhenWritten(seqs, messages)
    ensures Answered(WithGaps(messages)) <==> AnsweredByWritten(seqs, messages)
  {
    var gaps := WithGaps(messages);
    forall k | 0 <= k < |messages| ensures gaps[k].ToolResult? <==> messages[k].ToolResult? { NotStored(messages[k]); }
    forall j: nat, k: nat, id: string | k <= |messages|
      ensures OpenSince(gaps, j, k, id) <==> j < |seqs| && seqs[j].Some? && OpenSince(messages, j, k, id)
    {
      if j < |seqs| && seqs[j].Some? { assert gaps[j] == messages[j]; }
      assert forall i | 0 <= i < |messages| :: Answers(gaps[i], id) <==> Answers(messages[i], id);
    }
    hide OpenSince;
    if Answered(gaps) {
      forall k: nat | k < |messages| && messages[k].ToolResult?
        ensures exists j: nat :: j < |seqs| && seqs[j].Some? && OpenSince(messages, j, k, messages[k].callId)
      {
        var j: nat :| OpenSince(gaps, j, k, gaps[k].callId);
      }
    }
    if AnsweredByWritten(seqs, messages) {
      forall k: nat | k < |gaps| && gaps[k].ToolResult? ensures Open(gaps, k, gaps[k].callId) {
        var j: nat :| j < |seqs| && seqs[j].Some? && OpenSince(messages, j, k, messages[k].callId);
        assert OpenSince(gaps, j, k, gaps[k].callId);
      }
    }
  }

  /**
   The window a store keeps has the protocol shape exactly when the first written message is a user's and every
   tool result answers a written call.
   */
  lemma WindowRenderable(e: Entry, c: Context)
    requires Agrees(e, c)
    ensures Renderable(Retained(c, e.handle))
            <==> StartsWithUser(e.seqs, e.messages) && AnsweredByWritten(e.seqs, e.messages)
  {
    Reseeded(e, c);
    AnsweredMeans(WithGaps(e.messages));
    AnsweredMeans(Projected(e.seqs, e.messages));
    ProjectedAccepts(e.seqs, e.messages, {});
    ProjectedStart(e.seqs, e.messages);
    GapsAnswered(e.seqs, e.messages);
  }

  // ---- seeding ----

  function FirstUser(ms: seq<Message>): (r: Option<nat>)
    ensures r.Some? ==> r.value < |ms| && ms[r.value].User? && forall i | 0 <= i < r.value :: !ms[i].User?
    ensures r.None? ==> forall i | 0 <= i < |ms| :: !ms[i].User?
  {
    if ms == [] then None
    else if ms[0].User? then Some(0)
    else var r := FirstUser(ms[1..]); if r.None? then None else Some(r.value + 1)
  }

  /** The history as it stands after the window was repaired to start on a turn boundary. */
  ghost function Aligned(c: Context): (r: Context)
    ensures r.id == c.id && r.hash == c.hash
  {
    var h := HandleOf(c);
    var ms := Retained(c, h);
    RowsOfSeqs(c.rows, Seqs(c, h));
    if ms == [] || Renderable(ms) then c
    else
      var first := FirstUser(ms);
      var cut := if first.Some? && Seqs(c, h)[first.value] > c.head then AdvanceHead(c, h, Seqs(c, h)[first.value]) else None;
      if cut.Some? && Renderable(Retained(cut.value, HandleOf(cut.value))) then cut.value
      else if cut.Some? then Clear(cut.value, HandleOf(cut.value)) else Clear(c, h)
  }

  ghost predicate History(c: Context) { Dense(c) && WellEncoded(c) && c.head <= c.next }

  lemma ClearHistory(c: Context)
    requires History(c)
    ensures var r := Clear(c, HandleOf(c)); History(r) && r.next == c.next && r.head >= c.head && Retained(r, HandleOf(r)) == []
  {
    var r := Clear(c, HandleOf(c));
    assert Live(r, HandleOf(r)) == {};
    RowsOfSeqs(r.rows, Seqs(r, HandleOf(r)));
  }

  lemma CutHistory(c: Context, target: int)
    requires History(c) && c.head < target < c.next
    ensures var r := AdvanceHead(c, HandleOf(c), target).value; History(r) && r.next == c.next && r.head >= c.head
  {
  }

  /** What is seeded is empty or renderable, the store agrees with it, and the head never moves back. */
  lemma AlignedKeeps(c: Context)
    requires History(c)
    ensures var r := Aligned(c);
            && History(r) && r.head >= c.head && r.next == c.next
            && (Retained(r, HandleOf(r)) == [] || Renderable(Retained(r, HandleOf(r))))
  {
    hide History, Renderable, Clear, AdvanceHead, Retained, Seqs;
    var h := HandleOf(c);
    var ms := Retained(c, h);
    if ms != [] && !Renderable(ms) {
      RetainedLength(c);
      var first := FirstUser(ms);
      if first.Some? && Seqs(c, h)[first.value] > c.head {
        var target := Seqs(c, h)[first.value];
        SeqInWindow(c, first.value);
        CutAccepted(c, target);
        CutHistory(c, target);
        ClearHistory(AdvanceHead(c, h, target).value);
      } else {
        ClearHistory(c);
      }
    }
  }

  lemma RetainedLength(c: Context)
    ensures |Retained(c, HandleOf(c))| == |Seqs(c, HandleOf(c))|
  {
    RowsOfSeqs(c.rows, Seqs(c, HandleOf(c)));
  }

  lemma SeqInWindow(c: Context, k: nat)
    requires History(c) && k < |Seqs(c, HandleOf(c))|
    ensures Seqs(c, HandleOf(c))[k] < c.next
  {
    var s := Seqs(c, HandleOf(c))[k];
    assert s in Seqs(c, HandleOf(c));
  }

  lemma CutAccepted(c: Context, target: int)
    requires c.head < target < c.next
    ensures AdvanceHead(c, HandleOf(c), target).Some?
  {
  }

  ghost function Created(c: Context): Entry {
    var r := Aligned(c);
    var h := HandleOf(r);
    Entry(h, seq(|Seqs(r, h)|, i requires 0 <= i < |Seqs(r, h)| => Some(Seqs(r, h)[i])), Retained(r, h))
  }

  lemma {:induction false} WrittenSome(xs: seq<int>, seqs: seq<Option<int>>)
    requires |seqs| == |xs| && forall k | 0 <= k < |xs| :: seqs[k] == Some(xs[k])
    ensures Written(seqs) == xs
    decreases xs
  {
    if xs != [] {
      forall k | 0 <= k < |xs| - 1 ensures seqs[1..][k] == seqs[k + 1] && xs[1..][k] == xs[k + 1] {}
      WrittenSome(xs[1..], seqs[1..]);
    }
  }

  lemma CreatedAgrees(c: Context)
    requires History(c)
    ensures Agrees(Created(c), Aligned(c))
    ensures Created(c).messages == [] || Renderable(Created(c).messages)
  {
    AlignedKeeps(c);
    var r, e := Aligned(c), Created(c);
    RowsOfSeqs(r.rows, Seqs(r, HandleOf(r)));
    WrittenSome(Seqs(r, HandleOf(r)), e.seqs);
    hide Renderable, Aligned;
    forall k | 0 <= k < |e.seqs| ensures e.seqs[k].Some? && e.seqs[k].value in r.rows {
      var s := Seqs(r, HandleOf(r))[k];
      assert s in Seqs(r, HandleOf(r));
    }
  }

  // ---- every run over one conversation ----

  /** The entry the runtime holds; while a run is live the run writes through it, held or not. */
  datatype Cache = Idle(held: Option<Entry>) | Running(entry: Entry, shared: bool)
  datatype System = System(context: Context, cache: Cache)

  /** What a run hands out a reference to. */
  datatype Reference =
    | ToMedia(media: int, now: int, ttl: int, uuid: int)
    | ToSticker(file: string, now: int, ttl: int, uuid: int)
    | ToReply(message: int, conversation: int, thread: int, now: int, ttl: int)

  /** The rows a batch is about to become carry its media and reply references; a sticker hangs on the newest row. */
  function Referred(c: Context, h: Handle, to: Reference): Context {
    match to
    case ToMedia(media, now, ttl, uuid) => MediaRef(c, media, h.next, now, ttl, uuid).0
    case ToSticker(file, now, ttl, uuid) => StickerRef(c, h, file, now, ttl, uuid).0
    case ToReply(message, conversation, thread, now, ttl) => ReplyRef(c, message, conversation, thread, h.next, now, ttl).0
  }

  datatype Event =
    | RunOpens(hash: string)
    | MessageEnds(m: Message, checkpoint: bool, tokens: nat, countedSend: bool)
    | Collection(input: GcInput)
    | Refers(to: Reference)
    | CutTopic
    | CacheEvicts
    | RunEnds(failed: bool)

  ghost predicate Enabled(s: System, e: Event) {
    match e
    case RunOpens(_) => s.cache.Idle?
    case MessageEnds(_, _, _, _) => s.cache.Running?
    case Collection(o) =>
      s.cache.Running? && PlansFor(o, s.cache.entry, s.context)
      && |o.seqs| == |o.messages|
    case Refers(_) => s.cache.Running?
    case RunEnds(_) => s.cache.Running?
    case _ => true
  }

  ghost function Next(s: System, e: Event): System
    requires Enabled(s, e)
  {
    match e
    case RunOpens(hash) =>
      if s.context.hash != hash then
        var c := Fresh(s.context.id, hash);
        System(Aligned(c), Running(Created(c), true))
      else if s.cache.held.Some? then
        System(s.context, Running(s.cache.held.value.(handle := HandleOf(s.context)), true))
      else System(Aligned(s.context), Running(Created(s.context), true))
    case MessageEnds(m, checkpoint, tokens, countedSend) =>
      var (f, d) := Persist(s.cache.entry, s.context, m, checkpoint, tokens, countedSend);
      System(d, Running(f, s.cache.shared))
    case Collection(o) =>
      if !Collects(o) then s
      else
        var target := o.rows[Target(o).value].seqNo;
        var (f, d) := Collect(s.cache.entry, s.context, target, IndexOf(o.seqs, target));
        System(d, Running(f, s.cache.shared))
    case Refers(to) => s.(context := Referred(s.context, s.cache.entry.handle, to))
    case CutTopic =>
      System(Clear(s.context, HandleOf(s.context)),
             if s.cache.Idle? then Idle(None) else Running(s.cache.entry, false))
    case CacheEvicts => s.(cache := if s.cache.Idle? then Idle(None) else Running(s.cache.entry, false))
    case RunEnds(failed) =>
      s.(cache := Idle(if s.cache.shared && !failed then Some(s.cache.entry) else None))
  }

  /** Whatever entry the runtime holds agrees with the history; a run it no longer holds still appends at its end. */
  ghost predicate Valid(s: System) {
    && History(s.context)
    && match s.cache
       case Idle(held) => held.Some? ==> Agrees(held.value, s.context)
       case Running(entry, shared) => entry.handle.next == s.context.next && (shared ==> Agrees(entry, s.context))
  }

  lemma DetachedPersist(e: Entry, c: Context, m: Message, checkpoint: bool, tokens: nat, countedSend: bool)
    requires History(c) && e.handle.next == c.next
    ensures var (f, d) := Persist(e, c, m, checkpoint, tokens, countedSend); History(d) && f.handle.next == d.next
  {
    if Encode(m).Some? { RoundTrip(m); }
  }

  lemma DetachedCollect(e: Entry, c: Context, target: int, index: nat)
    requires History(c) && e.handle.next == c.next && index <= |e.seqs| && index <= |e.messages|
    requires target > 0
    ensures var (f, d) := Collect(e, c, target, index); History(d) && f.handle.next == d.next
  {
  }

  lemma NextValid(s: System, e: Event)
    requires Valid(s) && Enabled(s, e)
    ensures Valid(Next(s, e))
  {
    hide Renderable, Agrees, Aligned, Created;
    match e
    case RunOpens(hash) =>
      var c := if s.context.hash != hash then Fresh(s.context.id, hash) else s.context;
      AlignedKeeps(c);
      CreatedAgrees(c);
      OpenedHandle(c);
      if s.context.hash == hash && s.cache.held.Some? { Rebound(s.cache.held.value, s.context); }
    case MessageEnds(m, checkpoint, tokens, countedSend) =>
      DetachedPersist(s.cache.entry, s.context, m, checkpoint, tokens, countedSend);
      if s.cache.shared { PersistKeeps(s.cache.entry, s.context, m, checkpoint, tokens, countedSend); }
    case Collection(o) =>
      if Collects(o) {
        var target := o.rows[Target(o).value].seqNo;
        RowsOfSeqs(s.context.rows, Seqs(s.context, s.cache.entry.handle));
        TargetInRows(s.context, s.cache.entry.handle, Target(o).value);
        DetachedCollect(s.cache.entry, s.context, target, IndexOf(o.seqs, target));
        if s.cache.shared {
          PlanIsApplicable(o, s.cache.entry, s.context);
          CollectKeeps(s.cache.entry, s.context, target, IndexOf(o.seqs, target));
        }
      }
    case Refers(to) => ReferredAgrees(s.context, s.cache.entry, to);
    case CutTopic => ClearHistory(s.context);
    case CacheEvicts => HeldNext(s);
    case RunEnds(failed) =>
  }

  /** References are beside the history, not in it. */
  lemma ReferredAgrees(c: Context, e: Entry, to: Reference)
    ensures var r := Referred(c, e.handle, to);
            && r == c.(refs := r.refs) && (History(c) ==> History(r)) && (Agrees(e, c) ==> Agrees(e, r))
  {
    var r := Referred(c, e.handle, to);
    assert Live(r, e.handle) == Live(c, e.handle);
  }

  lemma HeldNext(s: System)
    requires Valid(s)
    ensures s.cache.Running? ==> s.cache.entry.handle.next == s.context.next
  {
  }

  lemma TargetInRows(c: Context, h: Handle, k: nat)
    requires Dense(c) && k < |Window(c, h)|
    ensures Window(c, h)[k].seqNo > 0
  {
    RowsOfSeqs(c.rows, Seqs(c, h));
    var s := Seqs(c, h)[k];
    assert s in Seqs(c, h);
  }

  lemma OpenedHandle(c: Context)
    ensures Created(c).handle.next == Aligned(c).next
  {
  }

  lemma Rebound(e: Entry, c: Context)
    requires Agrees(e, c)
    ensures Agrees(e.(handle := HandleOf(c)), c)
  {
  }

  ghost predicate Legal(s: System, events: seq<Event>)
    decreases events
  {
    events == [] || (Enabled(s, events[0]) && Legal(Next(s, events[0]), events[1..]))
  }

  ghost function After(s: System, events: seq<Event>): System
    requires Legal(s, events)
    decreases events
  {
    if events == [] then s else After(Next(s, events[0]), events[1..])
  }

  /** Over every run: an entry the runtime holds is a faithful cache of the canonical history. */
  lemma {:induction false} CacheFaithful(s: System, events: seq<Event>)
    requires Valid(s) && Legal(s, events)
    ensures var t := After(s, events);
            && Valid(t)
            && (t.cache.Idle? && t.cache.held.Some? ==>
                  var e := t.cache.held.value;
                  |e.seqs| == |e.messages| && Written(e.seqs) == Seqs(t.context, e.handle)
                  && Retained(t.context, e.handle) == Projected(e.seqs, e.messages))
            && (t.cache.Running? && t.cache.shared ==>
                  var e := t.cache.entry;
                  |e.seqs| == |e.messages| && Written(e.seqs) == Seqs(t.context, e.handle)
                  && Retained(t.context, e.handle) == Projected(e.seqs, e.messages))
    decreases events
  {
    hide Next, Enabled, Aligned, Created;
    if events == [] {
      if s.cache.Idle? && s.cache.held.Some? { Reseeded(s.cache.held.value, s.context); }
      if s.cache.Running? && s.cache.shared { Reseeded(s.cache.entry, s.context); }
    } else {
      hide Valid;
      NextValid(s, events[0]);
      CacheFaithful(Next(s, events[0]), events[1..]);
    }
  }

  lemma NewConversation(id: int, hash: string)
    ensures Valid(System(Fresh(id, hash), Idle(None)))
  {
  }
}
