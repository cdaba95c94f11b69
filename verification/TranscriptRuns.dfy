/** What holds of the stored history over every run, whether the runtime still holds the transcript or not. */
module TranscriptRuns {
  import opened Options
  import opened ContextCodec
  import opened ContextGc
  import opened ContextStore
  import opened Transcript

  // ---- the rows stay sound and the head moves forward ----

  /** A live run writes at the end of the history; only its head can be behind. */
  ghost predicate InStep(s: System) {
    && Valid(s) && SoundRows(s.context)
    && (s.cache.Running? ==>
          var h := s.cache.entry.handle;
          h.next == s.context.next && h.sends == s.context.sends && h.head <= s.context.head)
  }

  predicate Rebuilds(s: System, e: Event) { e.RunOpens? && e.hash != s.context.hash }

  lemma AppendRows(c: Context, h: Handle, input: Input)
    requires SoundRows(c) && h.next == c.next && h.sends == c.sends
    ensures Append(c, h, input).Some?
    ensures var r := Append(c, h, input).value;
            && SoundRows(r) && r.head == c.head && r.refs == c.refs && r.next == AfterAppend(h, input).next
            && r.sends == AfterAppend(h, input).sends
  {
    var r := Append(c, h, input).value;
    forall s | s < c.next ensures SendCount(r.rows, s) == SendCount(c.rows, s) {
      SendCountSame(r.rows, c.rows, s);
    }
  }

  lemma AdvanceRows(c: Context, h: Handle, target: int)
    requires SoundRows(c) && h.head < target < h.next && c.head <= target < c.next
    ensures var r := AdvanceHead(c, h, target).value;
            && SoundRows(r) && r.head == target && r.next == c.next && r.sends == c.sends
            && (RefsInRange(c) ==> RefsInRange(r))
  {
    var r := AdvanceHead(c, h, target).value;
    forall s ensures SendCount(r.rows, s) == SendCount(c.rows, s) {
      SendCountSame(r.rows, c.rows, s);
    }
  }

  lemma ClearRows(c: Context)
    requires SoundRows(c)
    ensures var r := Clear(c, HandleOf(c));
            SoundRows(r) && c.head <= r.head == c.next && r.next == c.next && r.sends == c.sends && RefsInRange(r)
  {
    var r := Clear(c, HandleOf(c));
    forall s ensures SendCount(r.rows, s) == SendCount(c.rows, s) {
      SendCountSame(r.rows, c.rows, s);
    }
  }

  lemma AlignedRows(c: Context)
    requires SoundRows(c) && History(c)
    ensures var r := Aligned(c);
            && SoundRows(r) && r.head >= c.head && r.next == c.next && r.sends == c.sends
            && (RefsInRange(c) ==> RefsInRange(r))
  {
    hide SoundRows, RefsInRange, Renderable, Retained, Seqs, History, AdvanceHead, Clear;
    AlignedKeeps(c);
    var h := HandleOf(c);
    ClearRows(c);
    RetainedLength(c);
    var ms := Retained(c, h);
    var first := FirstUser(ms);
    if ms != [] && !Renderable(ms) && first.Some? && Seqs(c, h)[first.value] > c.head {
      var target := Seqs(c, h)[first.value];
      SeqInWindow(c, first.value);
      CutAccepted(c, target);
      AdvanceRows(c, h, target);
      ClearRows(AdvanceHead(c, h, target).value);
    }
  }

  lemma TargetAboveHead(c: Context, h: Handle, k: nat)
    requires SoundRows(c) && k < |Window(c, h)|
    ensures c.head <= Window(c, h)[k].seqNo < c.next
  {
    RowsOfSeqs(c.rows, Seqs(c, h));
    var s := Seqs(c, h)[k];
    assert s in Seqs(c, h);
  }

  /** Every step keeps the rows sound; only a rebuild takes the head back. */
  lemma NextInStep(s: System, e: Event)
    requires InStep(s) && Enabled(s, e)
    ensures InStep(Next(s, e))
    ensures !Rebuilds(s, e) ==> Next(s, e).context.head >= s.context.head && Next(s, e).context.next >= s.context.next
    ensures RefsInRange(s.context) && !e.Refers? ==> RefsInRange(Next(s, e).context)
  {
    hide Valid, SoundRows, RefsInRange, Aligned, Agrees, Renderable, Append, AdvanceHead, Clear;
    NextValid(s, e);
    match e
    case RunOpens(hash) => OpenInStep(s, hash);
    case MessageEnds(m, checkpoint, tokens, countedSend) => MessageInStep(s, m, checkpoint, tokens, countedSend);
    case Collection(o) => CollectionInStep(s, o);
    case Refers(to) => ReferredRows(s.context, s.cache.entry.handle, to);
    case CutTopic => ClearRows(s.context);
    case CacheEvicts =>
    case RunEnds(_) =>
  }

  lemma OpenInStep(s: System, hash: string)
    requires InStep(s) && s.cache.Idle?
    ensures var t := Next(s, RunOpens(hash));
            && SoundRows(t.context) && t.cache.Running? && t.cache.entry.handle == HandleOf(t.context)
            && (hash == s.context.hash ==> t.context.head >= s.context.head && t.context.next >= s.context.next)
            && (RefsInRange(s.context) ==> RefsInRange(t.context))
  {
    var c := if s.context.hash != hash then Fresh(s.context.id, hash) else s.context;
    hide Agrees, Renderable, Retained, Aligned;
    AlignedRows(c);
  }

  lemma MessageInStep(s: System, m: Message, checkpoint: bool, tokens: nat, countedSend: bool)
    requires InStep(s) && s.cache.Running?
    ensures var (f, d) := Persist(s.cache.entry, s.context, m, checkpoint, tokens, countedSend);
            && SoundRows(d) && d.head == s.context.head && d.next >= s.context.next && f.handle.head == s.cache.entry.handle.head
            && f.handle.next == d.next && f.handle.sends == d.sends && (RefsInRange(s.context) ==> RefsInRange(d))
  {
    hide Valid, SoundRows, Append;
    var payload := Encode(m);
    if payload.Some? {
      AppendRows(s.context, s.cache.entry.handle, Input(payload.value, checkpoint, tokens, countedSend));
      AppendedNext(s.context, s.cache.entry.handle, Input(payload.value, checkpoint, tokens, countedSend));
    }
  }

  lemma AppendedNext(c: Context, h: Handle, input: Input)
    requires Append(c, h, input).Some? && h.next == c.next
    ensures Append(c, h, input).value.next == c.next + 1
  {
  }

  lemma CollectionInStep(s: System, o: GcInput)
    requires InStep(s) && Enabled(s, Collection(o))
    ensures var t := Next(s, Collection(o));
            && SoundRows(t.context) && t.context.head >= s.context.head && t.context.next == s.context.next
            && t.cache.Running? && t.cache.entry.handle.head <= t.context.head
            && t.cache.entry.handle.next == t.context.next && t.cache.entry.handle.sends == t.context.sends
            && (RefsInRange(s.context) ==> RefsInRange(t.context))
  {
    hide Valid, SoundRows, RefsInRange, AdvanceHead, Target;
    if Collects(o) {
      var h := s.cache.entry.handle;
      var k := Target(o).value;
      TargetAboveHead(s.context, h, k);
      var target := o.rows[k].seqNo;
      AdvanceAccepted(s.context, h, target);
      if h.head < target { AdvanceRows(s.context, h, target); }
    }
  }

  lemma AdvanceAccepted(c: Context, h: Handle, target: int)
    ensures AdvanceHead(c, h, target).Some? <==> h.head < target < h.next
  {
  }

  lemma ReferredRows(c: Context, h: Handle, to: Reference)
    requires SoundRows(c)
    ensures var r := Referred(c, h, to); SoundRows(r) && r == c.(refs := r.refs)
  {
  }

  /** The reference a run hands out is in range: a run that lost its topic needs a row since then to hang a sticker on. */
  predicate Hung(s: System, e: Event) {
    e.Refers? && e.to.ToSticker? && s.cache.Running?
    ==> s.cache.entry.handle.head == s.context.head || s.context.head < s.context.next
  }

  /** References stay in range exactly under that condition. */
  lemma ReferenceInRange(s: System, to: Reference)
    requires InStep(s) && s.cache.Running? && RefsInRange(s.context)
    ensures RefsInRange(Next(s, Refers(to)).context) <==> Hung(s, Refers(to))
  {
    hide Valid;
    var c, h := s.context, s.cache.entry.handle;
    var r := Referred(c, h, to);
    assert SoundRows(c) && r.head == c.head && r.next == c.next;
    assert NewestRow(h) >= c.head <==> (h.head == c.head || c.head < c.next);
    match to
    case ToSticker(file, now, ttl, uuid) =>
      assert r.refs[Minted(Sticker, uuid)].sourceSeq == NewestRow(h);
    case _ =>
  }

  ghost predicate AllHung(s: System, events: seq<Event>)
    requires Legal(s, events)
    decreases events
  {
    events == [] || (Hung(s, events[0]) && AllHung(Next(s, events[0]), events[1..]))
  }

  ghost predicate SameContext(s: System, events: seq<Event>)
    requires Legal(s, events)
    decreases events
  {
    events == [] || (!Rebuilds(s, events[0]) && SameContext(Next(s, events[0]), events[1..]))
  }

  /** Over every run, topic cuts and runs that lost their entry included: sound rows, and a head that never moves back. */
  lemma {:induction false} HeadForward(s: System, events: seq<Event>)
    requires InStep(s) && Legal(s, events)
    ensures InStep(After(s, events))
    ensures SameContext(s, events) ==> After(s, events).context.head >= s.context.head
    decreases events
  {
    hide InStep, Enabled, Next, Rebuilds;
    if events != [] {
      NextInStep(s, events[0]);
      HeadForward(Next(s, events[0]), events[1..]);
    }
  }

  /** And a sound history throughout, as long as every sticker hangs on a row of the window. */
  lemma {:induction false} SoundOverRuns(s: System, events: seq<Event>)
    requires InStep(s) && RefsInRange(s.context) && Legal(s, events) && AllHung(s, events)
    ensures Sound(After(s, events).context)
    decreases events
  {
    if events == [] {
    } else {
      NextInStep(s, events[0]);
      if events[0].Refers? { ReferenceInRange(s, events[0].to); }
      hide InStep, Enabled, Next, Hung, RefsInRange;
      SoundOverRuns(Next(s, events[0]), events[1..]);
    }
  }

  // ---- the shape of the stored window ----

  /** Every message a run ended since the context was created, with the number it was written at, if it was. */
  datatype Log = Log(seqs: seq<Option<int>>, messages: seq<Message>)

  ghost function Logged(s: System, log: Log, e: Event): Log
    requires Enabled(s, e)
  {
    match e
    case RunOpens(hash) => if hash != s.context.hash then Log([], []) else log
    case MessageEnds(m, _, _, _) =>
      Log(log.seqs + [if Encode(m).Some? then Some(s.context.next) else None], log.messages + [m])
    case _ => log
  }

  ghost function LogAfter(s: System, log: Log, events: seq<Event>): Log
    requires Legal(s, events)
    decreases events
  {
    if events == [] then log else LogAfter(Next(s, events[0]), Logged(s, log, events[0]), events[1..])
  }

  /** The log names every row, in order, and says what each holds. */
  ghost predicate Records(log: Log, c: Context) {
    && Paired(c, log.seqs, log.messages)
    && (forall n :: n in Written(log.seqs) <==> 1 <= n < c.next)
    && (forall i, j | 0 <= i < j < |Written(log.seqs)| :: Written(log.seqs)[i] < Written(log.seqs)[j])
  }

  /** The part of the log from the first message written at `head` or later. */
  function Since(log: Log, head: int): Log
    requires |log.seqs| == |log.messages|
    decreases |log.seqs|
  {
    if log.seqs == [] then log
    else if log.seqs[0].Some? && log.seqs[0].value >= head then log
    else Since(Log(log.seqs[1..], log.messages[1..]), head)
  }

  lemma MessageRecorded(s: System, log: Log, m: Message, checkpoint: bool, tokens: nat, countedSend: bool)
    requires InStep(s) && s.cache.Running? && Records(log, s.context)
    ensures Records(Logged(s, log, MessageEnds(m, checkpoint, tokens, countedSend)),
                    Next(s, MessageEnds(m, checkpoint, tokens, countedSend)).context)
  {
    var c := s.context;
    var l := Logged(s, log, MessageEnds(m, checkpoint, tokens, countedSend));
    WrittenAppend(log.seqs, [l.seqs[|log.seqs|]]);
    if Encode(m).Some? {
      assert Written([Some(c.next)]) == [c.next] + Written([]);
      AppendRows(c, s.cache.entry.handle, Input(Encode(m).value, checkpoint, tokens, countedSend));
      RecordsMore(log, c, s.cache.entry.handle, m, checkpoint, tokens, countedSend);
    } else {
      assert Written([None]) == [] + Written([]);
    }
  }

  lemma RecordsMore(log: Log, c: Context, h: Handle, m: Message, checkpoint: bool, tokens: nat, countedSend: bool)
    requires Records(log, c) && Encode(m).Some? && h.next == c.next && h.sends == c.sends && SoundRows(c)
    requires Written(log.seqs + [Some(c.next)]) == Written(log.seqs) + [c.next]
    ensures var input := Input(Encode(m).value, checkpoint, tokens, countedSend);
            Append(c, h, input).Some? && Records(Log(log.seqs + [Some(c.next)], log.messages + [m]), Append(c, h, input).value)
  {
    hide Written, SoundRows;
    var input := Input(Encode(m).value, checkpoint, tokens, countedSend);
    AppendRows(c, h, input);
    AppendedRows(c, h, input);
    LastWritten(Written(log.seqs), c.next);
    PairedMore(log, c, Append(c, h, input).value, m);
  }

  lemma AppendedRows(c: Context, h: Handle, input: Input)
    requires Append(c, h, input).Some? && h.next == c.next
    ensures var r := Append(c, h, input).value;
            && r.next == c.next + 1 && r.rows.Keys == c.rows.Keys + {c.next} && c.next !in c.rows
            && r.rows[c.next].payload == input.payload && forall s | s in c.rows :: r.rows[s] == c.rows[s]
  {
  }

  lemma LastWritten(xs: seq<int>, next: int)
    requires forall n :: n in xs <==> 1 <= n < next
    requires forall i, j | 0 <= i < j < |xs| :: xs[i] < xs[j]
    requires next >= 1
    ensures forall n :: n in xs + [next] <==> 1 <= n < next + 1
    ensures forall i, j | 0 <= i < j < |xs + [next]| :: (xs + [next])[i] < (xs + [next])[j]
  {
    assert forall i | 0 <= i < |xs| :: xs[i] in xs;
  }

  lemma PairedMore(log: Log, c: Context, r: Context, m: Message)
    requires Paired(c, log.seqs, log.messages) && c.next in r.rows && Encode(m) == Some(r.rows[c.next].payload)
    requires forall s | s in c.rows :: s in r.rows && r.rows[s] == c.rows[s]
    ensures Paired(r, log.seqs + [Some(c.next)], log.messages + [m])
  {
  }

  ghost predicate SamePayloads(c: Context, r: Context) {
    r.next == c.next && r.rows.Keys == c.rows.Keys && forall s | s in c.rows :: r.rows[s].payload == c.rows[s].payload
  }

  lemma OperationsKeepPayloads(c: Context, h: Handle, target: int, to: Reference)
    requires h.next == c.next
    ensures SamePayloads(c, Clear(c, h)) && SamePayloads(c, Referred(c, h, to))
    ensures AdvanceHead(c, h, target).Some? ==> SamePayloads(c, AdvanceHead(c, h, target).value)
  {
  }

  lemma AlignedKeepsPayloads(c: Context)
    requires History(c)
    ensures SamePayloads(c, Aligned(c))
  {
    hide Renderable, Retained, Seqs, History, AdvanceHead, Clear;
    RetainedLength(c);
    var h := HandleOf(c);
    var first := FirstUser(Retained(c, h));
    var none := ToReply(0, 0, 0, 0, 0);
    OperationsKeepPayloads(c, h, 0, none);
    if first.Some? && first.value < |Seqs(c, h)| {
      var target := Seqs(c, h)[first.value];
      OperationsKeepPayloads(c, h, target, none);
      if AdvanceHead(c, h, target).Some? {
        var cut := AdvanceHead(c, h, target).value;
        OperationsKeepPayloads(cut, HandleOf(cut), 0, none);
      }
    }
  }

  lemma PayloadsRecorded(log: Log, c: Context, r: Context)
    requires Records(log, c) && SamePayloads(c, r)
    ensures Records(log, r)
  {
    hide Written;
  }

  lemma FreshRecorded(id: int, hash: string)
    ensures Records(Log([], []), Fresh(id, hash)) && Aligned(Fresh(id, hash)) == Fresh(id, hash)
  {
    assert Live(Fresh(id, hash), HandleOf(Fresh(id, hash))) == {};
  }

  lemma NextRecorded(s: System, log: Log, e: Event)
    requires InStep(s) && Enabled(s, e) && Records(log, s.context)
    ensures Records(Logged(s, log, e), Next(s, e).context)
  {
    hide Records, SamePayloads, Aligned, Created, AdvanceHead, Clear, Referred;
    match e
    case MessageEnds(m, checkpoint, tokens, countedSend) => MessageRecorded(s, log, m, checkpoint, tokens, countedSend);
    case RunOpens(hash) =>
      FreshRecorded(s.context.id, hash);
      AlignedKeepsPayloads(s.context);
      PayloadsAligned(log, s.context);
    case Collection(o) =>
      if Collects(o) {
        var target := o.rows[Target(o).value].seqNo;
        OperationsRecorded(log, s.context, s.cache.entry.handle, target, ToReply(0, 0, 0, 0, 0));
      }
    case Refers(to) => OperationsRecorded(log, s.context, s.cache.entry.handle, 0, to);
    case CutTopic => OperationsRecorded(log, s.context, HandleOf(s.context), 0, ToReply(0, 0, 0, 0, 0));
    case CacheEvicts =>
    case RunEnds(_) =>
  }

  lemma PayloadsAligned(log: Log, c: Context)
    requires Records(log, c) && History(c)
    ensures Records(log, Aligned(c))
  {
    hide Records, SamePayloads, Aligned;
    AlignedKeepsPayloads(c);
    PayloadsRecorded(log, c, Aligned(c));
  }

  lemma OperationsRecorded(log: Log, c: Context, h: Handle, target: int, to: Reference)
    requires Records(log, c) && h.next == c.next
    ensures Records(log, Clear(c, h)) && Records(log, Referred(c, h, to))
    ensures AdvanceHead(c, h, target).Some? ==> Records(log, AdvanceHead(c, h, target).value)
  {
    hide Records, SamePayloads, AdvanceHead, Clear, Referred;
    OperationsKeepPayloads(c, h, target, to);
    PayloadsRecorded(log, c, Clear(c, h));
    PayloadsRecorded(log, c, Referred(c, h, to));
    if AdvanceHead(c, h, target).Some? { PayloadsRecorded(log, c, AdvanceHead(c, h, target).value); }
  }

  // ---- from the log to the window ----

  lemma {:induction false} SinceSuffix(log: Log, head: int) returns (k: nat)
    requires |log.seqs| == |log.messages|
    ensures k <= |log.seqs| && Since(log, head) == Log(log.seqs[k..], log.messages[k..])
    ensures k < |log.seqs| ==> log.seqs[k].Some?
    decreases |log.seqs|
  {
    if log.seqs == [] || (log.seqs[0].Some? && log.seqs[0].value >= head) {
      k := 0;
      assert log.seqs[0..] == log.seqs && log.messages[0..] == log.messages;
    } else {
      k := SinceSuffix(Log(log.seqs[1..], log.messages[1..]), head);
      assert log.seqs[1..][k..] == log.seqs[k + 1..] && log.messages[1..][k..] == log.messages[k + 1..];
      k := k + 1;
    }
  }

  lemma FirstWritten(first: int, ys: seq<int>, head: int)
    requires forall i, j | 0 <= i < j < |[first] + ys| :: ([first] + ys)[i] < ([first] + ys)[j]
    ensures forall i, j | 0 <= i < j < |ys| :: ys[i] < ys[j]
    ensures SeqsFrom([first] + ys, head) == if first >= head then [first] + ys else SeqsFrom(ys, head)
  {
    var xs := [first] + ys;
    assert forall i | 0 <= i < |ys| :: ys[i] == xs[i + 1];
    assert xs[1..] == ys;
    if first >= head {
      assert forall i | 0 <= i < |xs| :: xs[i] >= head;
      SeqsFromSplit([], xs, head);
      assert [] + xs == xs;
    }
  }

  lemma {:induction false} SinceWritten(log: Log, head: int)
    requires |log.seqs| == |log.messages|
    requires forall i, j | 0 <= i < j < |Written(log.seqs)| :: Written(log.seqs)[i] < Written(log.seqs)[j]
    ensures Written(Since(log, head).seqs) == SeqsFrom(Written(log.seqs), head)
    decreases |log.seqs|
  {
    hide SeqsFrom;
    if log.seqs == [] {
      SeqsFromSplit([], Written(log.seqs), head);
      assert [] + Written(log.seqs) == Written(log.seqs);
    } else {
      var rest := Log(log.seqs[1..], log.messages[1..]);
      if log.seqs[0].Some? {
        assert Written(log.seqs) == [log.seqs[0].value] + Written(rest.seqs);
        FirstWritten(log.seqs[0].value, Written(rest.seqs), head);
        if log.seqs[0].value < head { SinceWritten(rest, head); }
      } else {
        assert Written(log.seqs) == Written(rest.seqs);
        SinceWritten(rest, head);
      }
    }
  }

  /** The stored window is the log from the head on, as storage returns it. */
  lemma WindowIsLog(log: Log, c: Context)
    requires Records(log, c) && SoundRows(c)
    ensures var w := Since(log, c.head);
            && StoredWhenWritten(w.seqs, w.messages) && (w.seqs != [] ==> w.seqs[0].Some?)
            && Retained(c, HandleOf(c)) == Projected(w.seqs, w.messages)
  {
    hide Written, SoundRows, Since, SeqsFrom, Projected, Messages, Seqs;
    var k := SinceSuffix(log, c.head);
    SinceWritten(log, c.head);
    var w := Since(log, c.head);
    PairedSince(log, c, k);
    ProjectedIsMessages(c, w.seqs, w.messages);
    WindowNumbers(c, Written(log.seqs));
  }

  lemma PairedSince(log: Log, c: Context, k: nat)
    requires Paired(c, log.seqs, log.messages) && k <= |log.seqs| == |log.messages|
    ensures Paired(c, log.seqs[k..], log.messages[k..]) && StoredWhenWritten(log.seqs[k..], log.messages[k..])
  {
  }

  lemma WindowNumbers(c: Context, xs: seq<int>)
    requires SoundRows(c) && (forall n :: n in xs <==> 1 <= n < c.next)
    requires forall i, j | 0 <= i < j < |xs| :: xs[i] < xs[j]
    ensures Seqs(c, HandleOf(c)) == SeqsFrom(xs, c.head)
  {
    SeqsFromKeeps(xs, c.head);
    SeqsAscend(c, HandleOf(c));
    hide SeqsFrom;
    SortedUnique(Seqs(c, HandleOf(c)), SeqsFrom(xs, c.head));
  }

  ghost predicate Shaped(messages: seq<Message>) { messages == [] || Renderable(messages) }

  /** What a run has to have written since the head. */
  ghost predicate WellWritten(w: Log)
    requires |w.seqs| == |w.messages|
  {
    w.messages == [] || (w.messages[0].User? && AnsweredByWritten(w.seqs, w.messages))
  }

  lemma ShapeOfLog(log: Log, c: Context)
    requires Records(log, c) && SoundRows(c)
    ensures |Since(log, c.head).seqs| == |Since(log, c.head).messages|
    ensures Shaped(Retained(c, HandleOf(c))) <==> WellWritten(Since(log, c.head))
  {
    hide SoundRows, Written, Renderable, AnsweredByWritten, Answered, Since, Retained;
    WindowIsLog(log, c);
    var w := Since(log, c.head);
    var kept := Projected(w.seqs, w.messages);
    WindowShape(w);
  }

  lemma WindowShape(w: Log)
    requires StoredWhenWritten(w.seqs, w.messages) && (w.seqs != [] ==> w.seqs[0].Some?)
    ensures Shaped(Projected(w.seqs, w.messages)) <==> WellWritten(w)
  {
    hide AnsweredByWritten, Answered, OpenSince;
    AnsweredMeans(WithGaps(w.messages));
    AnsweredMeans(Projected(w.seqs, w.messages));
    ProjectedAccepts(w.seqs, w.messages, {});
    ProjectedStart(w.seqs, w.messages);
    GapsAnswered(w.seqs, w.messages);
    hide Accepts;
    assert w.seqs != [] ==> (StartsWithUser(w.seqs, w.messages) <==> w.messages[0].User?);
  }

  /**
   Over every run, with detached runs, collections and repairs: the stored window is empty or renderable exactly when
   the messages ended since its head are well written: the first is a user's, and every tool result answers a call that
   was itself written since then.
   */
  lemma {:induction false} WindowOverRuns(s: System, log: Log, events: seq<Event>)
    requires InStep(s) && Records(log, s.context) && Legal(s, events)
    ensures var c, l := After(s, events).context, LogAfter(s, log, events);
            && |l.seqs| == |l.messages| && |Since(l, c.head).seqs| == |Since(l, c.head).messages|
            && (Shaped(Retained(c, HandleOf(c))) <==> WellWritten(Since(l, c.head)))
    decreases events
  {
    if events == [] {
      ShapeOfLog(log, s.context);
    } else {
      NextInStep(s, events[0]);
      NextRecorded(s, log, events[0]);
      hide InStep, Records, Enabled, Next, Logged, Since, Shaped, WellWritten, Retained;
      WindowOverRuns(Next(s, events[0]), Logged(s, log, events[0]), events[1..]);
    }
  }

  // ---- what breaks the shape ----

  lemma AppendShape(ms: seq<Message>, m: Message)
    requires Shaped(ms)
    ensures Shaped(ms + [m]) <==> if ms == [] then m.User? else (m.ToolResult? ==> Open(ms, |ms|, m.callId))
  {
    var all := ms + [m];
    assert all[|ms|] == m && forall k | 0 <= k < |ms| :: all[k] == ms[k];
    forall j: nat, k: nat, id: string | k <= |ms| ensures OpenSince(all, j, k, id) <==> OpenSince(ms, j, k, id) {
    }
    hide OpenSince;
    forall k: nat, id: string | k <= |ms| ensures Open(all, k, id) <==> Open(ms, k, id) {
      if Open(all, k, id) { var j: nat :| OpenSince(all, j, k, id); assert OpenSince(ms, j, k, id); }
      if Open(ms, k, id) { var j: nat :| OpenSince(ms, j, k, id); assert OpenSince(all, j, k, id); }
    }
    hide Open;
    if ms == [] && m.User? { assert Answered(all); }
    if ms != [] { assert Answered(ms); }
  }

  lemma AppendedMessages(c: Context, input: Input)
    requires Dense(c) && c.head <= c.next && Append(c, HandleOf(c), input).Some?
    ensures var r := Append(c, HandleOf(c), input).value;
            Retained(r, HandleOf(r)) == Retained(c, HandleOf(c)) + [Decode(input.payload)]
  {
    hide Seqs, Messages, SendCount;
    AppendedSeqs(c, input);
    AppendedRows(c, HandleOf(c), input);
    var r := Append(c, HandleOf(c), input).value;
    InRows(c);
    InRows(r);
    MessagesMore(c.rows, r.rows, Seqs(c, HandleOf(c)), c.next);
  }

  lemma InRows(c: Context)
    ensures forall s | s in Seqs(c, HandleOf(c)) :: s in c.rows
  {
  }

  lemma MessagesMore(a: map<int, Stored>, b: map<int, Stored>, xs: seq<int>, n: int)
    requires (forall s | s in xs :: s in a) && (forall s | s in xs + [n] :: s in b) && n in b
    requires forall s | s in a :: s in b && b[s] == a[s]
    ensures Messages(b, xs + [n]) == Messages(a, xs) + [Decode(b[n].payload)]
  {
    RowsOfSeqs(a, xs);
    RowsOfSeqs(b, xs + [n]);
    hide Messages;
    assert forall k | 0 <= k < |xs| :: (xs + [n])[k] == xs[k] && xs[k] in xs;
  }

  lemma MessageAppends(s: System, m: Message, checkpoint: bool, tokens: nat, countedSend: bool)
    requires InStep(s) && s.cache.Running?
    ensures var t := Next(s, MessageEnds(m, checkpoint, tokens, countedSend));
            Retained(t.context, HandleOf(t.context))
            == Retained(s.context, HandleOf(s.context)) + (if Encode(m).Some? then [Decode(Encode(m).value)] else [])
  {
    hide SoundRows, Agrees, Append, Retained;
    var c, h := s.context, s.cache.entry.handle;
    if Encode(m).Some? {
      var input := Input(Encode(m).value, checkpoint, tokens, countedSend);
      AppendRows(c, h, input);
      SameAppend(c, h, input);
      AppendedMessages(c, input);
    }
  }

  lemma SameAppend(c: Context, h: Handle, input: Input)
    requires h.next == c.next && h.sends == c.sends
    ensures Append(c, h, input) == Append(c, HandleOf(c), input)
  {
  }

  /**
   A stored window with the shape loses it to the next message exactly when that message is stored and is a tool result
   no call of the window waits for, or the window is empty and it is not a user's.
   */
  lemma MessageBreaksWindow(s: System, m: Message, checkpoint: bool, tokens: nat, countedSend: bool)
    requires InStep(s) && s.cache.Running? && Shaped(Retained(s.context, HandleOf(s.context)))
    ensures var t := Next(s, MessageEnds(m, checkpoint, tokens, countedSend));
            var ms := Retained(s.context, HandleOf(s.context));
            Shaped(Retained(t.context, HandleOf(t.context)))
            <==> Encode(m).None? || (if ms == [] then m.User? else (m.ToolResult? ==> Open(ms, |ms|, m.callId)))
  {
    hide InStep, Next, Retained, Shaped;
    MessageAppends(s, m, checkpoint, tokens, countedSend);
    var ms := Retained(s.context, HandleOf(s.context));
    assert ms + [] == ms;
    if Encode(m).Some? {
      ShapeKept(m);
      AppendShape(ms, Decode(Encode(m).value));
    }
  }

  /**
   A topic cut during a run: whatever the run had written, a tool result still in flight lands alone above the new head,
   and the window it leaves behind is not renderable until the next run repairs it.
   */
  lemma CutLeavesResult(s: System, id: string, name: string, result: seq<Block>, details: Option<string>, isError: bool,
                        at: int, tokens: nat, countedSend: bool)
    requires InStep(s) && s.cache.Running? && s.cache.shared
    ensures var m := ToolResult(id, name, result, details, isError, at);
            var events := [CutTopic, MessageEnds(m, false, tokens, countedSend), RunEnds(false)];
            && Legal(s, events)
            && var t := After(s, events);
               && Retained(t.context, HandleOf(t.context)) != [] && !Renderable(Retained(t.context, HandleOf(t.context)))
               && t.cache == Idle(None)
               && Retained(Next(t, RunOpens(t.context.hash)).context, HandleOf(Next(t, RunOpens(t.context.hash)).context)) == []
  {
    hide InStep, Valid, Renderable, Retained, Aligned, Created, Clear, Persist, Encode, Decode;
    var m := ToolResult(id, name, result, details, isError, at);
    CutAlone(s, m, tokens, countedSend);
    var cut := Next(s, CutTopic);
    var wrote := Next(cut, MessageEnds(m, false, tokens, countedSend));
    var ended := Next(wrote, RunEnds(false));
    assert Legal(ended, []) && Legal(wrote, [RunEnds(false)]) by { assert [RunEnds(false)][1..] == []; }
    var last := [MessageEnds(m, false, tokens, countedSend), RunEnds(false)];
    assert last[1..] == [RunEnds(false)] && Legal(cut, last);
    var events := [CutTopic, MessageEnds(m, false, tokens, countedSend), RunEnds(false)];
    assert events[1..] == last && Legal(s, events);
    assert After(ended, []) == ended && After(wrote, [RunEnds(false)]) == ended by { assert [RunEnds(false)][1..] == []; }
    assert After(cut, last) == ended && After(s, events) == ended;
    OrphanCleared(wrote.context);
    OpensRepaired(ended);
  }

  lemma CutAlone(s: System, m: Message, tokens: nat, countedSend: bool)
    requires InStep(s) && s.cache.Running? && m.ToolResult?
    ensures var cut := Next(s, CutTopic);
            var wrote := Next(cut, MessageEnds(m, false, tokens, countedSend));
            && cut.cache.Running? && wrote.cache.Running? && !wrote.cache.shared && History(wrote.context)
            && |Retained(wrote.context, HandleOf(wrote.context))| == 1
            && Retained(wrote.context, HandleOf(wrote.context))[0].ToolResult?
  {
    hide InStep, Retained, SoundRows, Agrees, Persist, Aligned, Created;
    var cut := Next(s, CutTopic);
    NextInStep(s, CutTopic);
    NextInStep(cut, MessageEnds(m, false, tokens, countedSend));
    ValidHistory(s);
    ValidHistory(Next(cut, MessageEnds(m, false, tokens, countedSend)));
    NotStored(m);
    ShapeKept(m);
    ClearHistory(s.context);
    MessageAppends(cut, m, false, tokens, countedSend);
  }

  lemma ValidHistory(s: System)
    requires InStep(s)
    ensures History(s.context)
  {
  }

  /** A window without any user message cannot be repaired, so it goes. */
  lemma OrphanCleared(c: Context)
    requires History(c) && |Retained(c, HandleOf(c))| == 1 && Retained(c, HandleOf(c))[0].ToolResult?
    ensures !Renderable(Retained(c, HandleOf(c))) && Retained(Aligned(c), HandleOf(Aligned(c))) == []
  {
    hide Retained, History, Clear, Answered;
    assert FirstUser(Retained(c, HandleOf(c))).None?;
    ClearHistory(c);
  }

  lemma OpensRepaired(s: System)
    requires s.cache == Idle(None)
    ensures Next(s, RunOpens(s.context.hash)).context == Aligned(s.context)
  {
  }

  /**
   A failed turn is not stored, so a tool result that answers only a call of that turn is stored without it, and the
   window loses its shape, although the transcript the agent holds keeps it.
   */
  lemma UnwrittenCallBreaksWindow(s: System, failed: Message, m: Message, tokens: nat, countedSend: bool)
    requires InStep(s) && s.cache.Running? && Shaped(Retained(s.context, HandleOf(s.context)))
    requires Retained(s.context, HandleOf(s.context)) != []
    requires failed.Assistant? && (failed.stop.Error? || failed.stop.AbortedByUser?)
    requires m.ToolResult? && m.callId in CallIds(failed)
    requires Shaped(s.cache.entry.messages) && s.cache.entry.messages != []
    requires var ms := Retained(s.context, HandleOf(s.context)); !Open(ms, |ms|, m.callId)
    ensures var turn := Next(s, MessageEnds(failed, false, tokens, false));
            var t := Next(turn, MessageEnds(m, false, tokens, countedSend));
            && !Shaped(Retained(t.context, HandleOf(t.context)))
            && Renderable(s.cache.entry.messages + [failed] + [m])
  {
    hide InStep, Next, Retained, Shaped, Open;
    var turn := Next(s, MessageEnds(failed, false, tokens, false));
    NotStored(failed);
    NotStored(m);
    MessageBreaksWindow(s, failed, false, tokens, false);
    MessageAppends(s, failed, false, tokens, false);
    StillRuns(s, failed, tokens);
    assert Retained(turn.context, HandleOf(turn.context)) == Retained(s.context, HandleOf(s.context));
    MessageBreaksWindow(turn, m, false, tokens, countedSend);
    AnswersLast(s.cache.entry.messages, failed, m);
  }

  lemma StillRuns(s: System, m: Message, tokens: nat)
    requires InStep(s) && s.cache.Running?
    ensures var t := Next(s, MessageEnds(m, false, tokens, false)); InStep(t) && t.cache.Running?
  {
    hide InStep;
    NextInStep(s, MessageEnds(m, false, tokens, false));
  }

  lemma AnswersLast(ms: seq<Message>, failed: Message, m: Message)
    requires Shaped(ms) && ms != [] && failed.Assistant? && m.ToolResult? && m.callId in CallIds(failed)
    ensures Renderable(ms + [failed] + [m])
  {
    AppendShape(ms, failed);
    var turn := ms + [failed];
    assert turn[|ms|] == failed && OpenSince(turn, |ms|, |turn|, m.callId);
    AppendShape(turn, m);
  }

  // ---- from the first message on ----

  function Started(id: int, hash: string): System { System(Fresh(id, hash), Idle(None)) }

  /** Where every conversation starts. */
  lemma NewInStep(id: int, hash: string)
    ensures InStep(Started(id, hash)) && RefsInRange(Fresh(id, hash)) && Records(Log([], []), Fresh(id, hash))
  {
    NewConversation(id, hash);
    FreshRecorded(id, hash);
  }

  /** In every state a conversation can reach the history is sound, as long as every sticker hangs on a row of the window. */
  lemma SoundFromStart(id: int, hash: string, events: seq<Event>)
    requires Legal(Started(id, hash), events) && AllHung(Started(id, hash), events)
    ensures Sound(After(Started(id, hash), events).context)
  {
    NewInStep(id, hash);
    hide InStep, RefsInRange, Legal, AllHung, Sound;
    SoundOverRuns(Started(id, hash), events);
  }

  /** And its window has the shape exactly when what was written since the head is well written. */
  lemma WindowFromStart(id: int, hash: string, events: seq<Event>)
    requires Legal(Started(id, hash), events)
    ensures var c, l := After(Started(id, hash), events).context, LogAfter(Started(id, hash), Log([], []), events);
            && |l.seqs| == |l.messages| && |Since(l, c.head).seqs| == |Since(l, c.head).messages|
            && (Shaped(Retained(c, HandleOf(c))) <==> WellWritten(Since(l, c.head)))
  {
    NewInStep(id, hash);
    hide InStep, Legal, Records, Shaped, WellWritten, Since;
    WindowOverRuns(Started(id, hash), Log([], []), events);
  }
}
