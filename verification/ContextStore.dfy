/** The canonical history of one conversation: a windowed log, its eviction marks and its references. */
module ContextStore {
  import opened Options
  import opened Ordering
  import opened ContextCodec
  import opened ContextGc

  datatype Stored = Stored(payload: Payload, checkpoint: bool, sendSeq: Option<int>, tokens: nat, evicted: bool)

  datatype Kind = Media | Sticker | Reply
  /** `Minted` tokens are ordered as their text is; a reply token is derived from the message id. */
  datatype Token = Minted(kind: Kind, order: int) | ReplyTo(messageId: int)
  datatype Subject = MediaOf(media: int) | StickerOf(file: string) | TargetOf(conversation: int, thread: int)
  datatype Ref = Ref(kind: Kind, sourceSeq: int, subject: Subject, expires: int)

  /** One `conversation_contexts` row with the message and reference rows that belong to it. */
  datatype Context = Context(
    id: int, head: int, next: int, sends: int, hash: string, rows: map<int, Stored>, refs: map<Token, Ref>)

  /** What a live header believes. */
  datatype Handle = Handle(head: int, next: int, sends: int)

  datatype Input = Input(payload: Payload, checkpoint: bool, tokens: nat, countedSend: bool)

  function HandleOf(c: Context): Handle { Handle(c.head, c.next, c.sends) }

  function Fresh(id: int, hash: string): Context { Context(id, 1, 1, 0, hash, map[], map[]) }

  // ---- operations ----

  /** The primary key refuses a sequence number that is already taken. */
  function Append(c: Context, h: Handle, input: Input): Option<Context> {
    if h.next in c.rows then None
    else
      var sendSeq := if input.countedSend then Some(h.sends + 1) else None;
      Some(c.(rows := c.rows[h.next := Stored(input.payload, input.checkpoint, sendSeq, input.tokens, false)],
              next := h.next + 1, sends := if input.countedSend then h.sends + 1 else c.sends))
  }

  function AfterAppend(h: Handle, input: Input): Handle {
    Handle(h.head, h.next + 1, if input.countedSend then h.sends + 1 else h.sends)
  }

  function EvictBelow(rows: map<int, Stored>, target: int): map<int, Stored> {
    map s | s in rows :: if s < target then rows[s].(evicted := true) else rows[s]
  }

  function EvictFrom(rows: map<int, Stored>, head: int): map<int, Stored> {
    map s | s in rows :: if s >= head then rows[s].(evicted := true) else rows[s]
  }

  function AdvanceHead(c: Context, h: Handle, target: int): Option<Context> {
    if target <= h.head || target >= h.next then None
    else Some(c.(rows := EvictBelow(c.rows, target), head := target,
                 refs := map t | t in c.refs && c.refs[t].sourceSeq >= target :: c.refs[t]))
  }

  function Clear(c: Context, h: Handle): Context {
    c.(rows := EvictFrom(c.rows, h.head), refs := map[], head := h.next)
  }

  // ---- what a handle reads ----

  function Live(c: Context, h: Handle): set<int> {
    set s | s in c.rows && s >= h.head && !c.rows[s].evicted
  }

  function Seqs(c: Context, h: Handle): seq<int> { Ordered(Live(c, h), ById) }

  function RowsOf(rows: map<int, Stored>, seqs: seq<int>): seq<Row>
    requires forall s | s in seqs :: s in rows
  {
    if seqs == [] then []
    else
      var first := seqs[0];
      assert first in seqs;
      var row := rows[first];
      [Row(first, row.checkpoint, row.sendSeq, row.tokens)] + RowsOf(rows, seqs[1..])
  }

  function Window(c: Context, h: Handle): seq<Row> { RowsOf(c.rows, Seqs(c, h)) }

  function Messages(rows: map<int, Stored>, seqs: seq<int>): seq<Message>
    requires forall s | s in seqs :: s in rows
  {
    if seqs == [] then []
    else
      var first := seqs[0];
      assert first in seqs;
      [Decode(rows[first].payload)] + Messages(rows, seqs[1..])
  }

  /** The messages a new agent is seeded with; `Seqs` are their numbers. */
  function Retained(c: Context, h: Handle): seq<Message> { Messages(c.rows, Seqs(c, h)) }

  datatype Stats = Stats(head: int, next: int, messages: nat, sends: nat, tokens: nat)

  function StatsOf(c: Context, h: Handle): Stats {
    Stats(h.head, h.next, |Window(c, h)|, Sends(Window(c, h)), Tokens(Window(c, h)))
  }

  // ---- eviction is for good ----

  datatype Op = Write(h: Handle, input: Input) | Advance(h: Handle, target: int) | Cut(h: Handle)
    | Refer(token: Token, ref: Ref)

  /** Any writer, through any handle however stale; a refused operation changes nothing. */
  function Apply(c: Context, op: Op): Context {
    match op
    case Write(h, input) => var r := Append(c, h, input); if r.Some? then r.value else c
    case Advance(h, target) => var r := AdvanceHead(c, h, target); if r.Some? then r.value else c
    case Cut(h) => Clear(c, h)
    case Refer(token, ref) => c.(refs := c.refs[token := ref])
  }

  function ApplyAll(c: Context, ops: seq<Op>): Context
    decreases ops
  {
    if ops == [] then c else ApplyAll(Apply(c, ops[0]), ops[1..])
  }

  predicate Evicted(c: Context, s: int) { s in c.rows && c.rows[s].evicted }

  lemma {:induction false} EvictedStays(c: Context, ops: seq<Op>, s: int)
    requires Evicted(c, s)
    ensures Evicted(ApplyAll(c, ops), s)
    decreases ops
  {
    if ops != [] {
      assert Evicted(Apply(c, ops[0]), s);
      EvictedStays(Apply(c, ops[0]), ops[1..], s);
    }
  }

  lemma {:induction false} RowsOfSeqs(rows: map<int, Stored>, seqs: seq<int>)
    requires forall s | s in seqs :: s in rows
    ensures |RowsOf(rows, seqs)| == |seqs| && |Messages(rows, seqs)| == |seqs|
    ensures forall k | 0 <= k < |seqs| :: RowsOf(rows, seqs)[k]
              == Row(seqs[k], rows[seqs[k]].checkpoint, rows[seqs[k]].sendSeq, rows[seqs[k]].tokens)
    ensures forall k | 0 <= k < |seqs| :: Messages(rows, seqs)[k] == Decode(rows[seqs[k]].payload)
    decreases seqs
  {
    if seqs != [] { RowsOfSeqs(rows, seqs[1..]); }
  }

  /** Once evicted, a row never comes back: not through `window`, `retained` or `stats`, whatever handle asks. */
  lemma NeverReadAgain(c: Context, ops: seq<Op>, h: Handle, s: int)
    requires Evicted(c, s)
    ensures var r := ApplyAll(c, ops);
            && s !in Seqs(r, h)
            && (forall row | row in Window(r, h) :: row.seqNo != s)
            && |Retained(r, h)| == |Seqs(r, h)|
            && StatsOf(r, h).messages == |Seqs(r, h)|
  {
    EvictedStays(c, ops, s);
    var r := ApplyAll(c, ops);
    RowsOfSeqs(r.rows, Seqs(r, h));
  }

  // ---- one live handle ----

  function SendCount(rows: map<int, Stored>, n: int): nat
    decreases n
  {
    if n <= 0 then 0 else SendCount(rows, n - 1) + if n in rows && rows[n].sendSeq.Some? then 1 else 0
  }

  /** Sequence numbers are dense, the window is what is not evicted, sends are counted. */
  ghost predicate SoundRows(c: Context) {
    && 1 <= c.head <= c.next
    && (forall s :: s in c.rows <==> 1 <= s < c.next)
    && (forall s | s in c.rows :: c.rows[s].evicted <==> s < c.head)
    && c.sends == SendCount(c.rows, c.next - 1)
    && (forall s | s in c.rows && c.rows[s].sendSeq.Some? :: c.rows[s].sendSeq.value == SendCount(c.rows, s))
  }

  /** Every reference hangs on a row of the window, or on the next one. */
  ghost predicate RefsInRange(c: Context) { forall t | t in c.refs :: c.head <= c.refs[t].sourceSeq <= c.next }

  ghost predicate Sound(c: Context) { SoundRows(c) && RefsInRange(c) }

  lemma {:induction false} SendCountSame(a: map<int, Stored>, b: map<int, Stored>, n: int)
    requires forall s | 1 <= s <= n :: (s in a && a[s].sendSeq.Some?) <==> (s in b && b[s].sendSeq.Some?)
    ensures SendCount(a, n) == SendCount(b, n)
    decreases n
  {
    if n > 0 { SendCountSame(a, b, n - 1); }
  }

  lemma AppendKeeps(c: Context, input: Input)
    requires Sound(c)
    ensures Append(c, HandleOf(c), input).Some?
    ensures var r := Append(c, HandleOf(c), input).value; Sound(r) && HandleOf(r) == AfterAppend(HandleOf(c), input)
  {
    var r := Append(c, HandleOf(c), input).value;
    forall s | s < c.next ensures SendCount(r.rows, s) == SendCount(c.rows, s) {
      SendCountSame(r.rows, c.rows, s);
    }
  }

  lemma AdvanceKeeps(c: Context, target: int)
    requires Sound(c) && c.head < target < c.next
    ensures AdvanceHead(c, HandleOf(c), target).Some? && Sound(AdvanceHead(c, HandleOf(c), target).value)
  {
    var r := AdvanceHead(c, HandleOf(c), target).value;
    forall s ensures SendCount(r.rows, s) == SendCount(c.rows, s) {
      SendCountSame(r.rows, c.rows, s);
    }
  }

  lemma ClearKeeps(c: Context)
    requires Sound(c)
    ensures Sound(Clear(c, HandleOf(c))) && Window(Clear(c, HandleOf(c)), HandleOf(Clear(c, HandleOf(c)))) == []
  {
    var r := Clear(c, HandleOf(c));
    forall s ensures SendCount(r.rows, s) == SendCount(c.rows, s) {
      SendCountSame(r.rows, c.rows, s);
    }
    assert Live(r, HandleOf(r)) == {};
  }

  /** Send numbers run from one to the total, in the order of the rows. */
  lemma SendsInOrder(c: Context, a: int, b: int)
    requires Sound(c) && a in c.rows && b in c.rows && c.rows[a].sendSeq.Some? && c.rows[b].sendSeq.Some? && a < b
    ensures 1 <= c.rows[a].sendSeq.value < c.rows[b].sendSeq.value <= c.sends
  {
    SendCountGrows(c.rows, a, b - 1);
    SendCountGrows(c.rows, b, c.next - 1);
  }

  lemma {:induction false} SendCountGrows(rows: map<int, Stored>, a: int, b: int)
    requires a <= b
    ensures SendCount(rows, a) <= SendCount(rows, b)
    decreases b - a
  {
    if a < b { SendCountGrows(rows, a, b - 1); }
  }

  // ---- references ----

  /** The sequence number `registerStickerRef` hangs a sticker on: the newest written row. */
  function NewestRow(h: Handle): int { if h.next > h.head then h.next - 1 else h.head }

  function Reusable(c: Context, media: int, now: int): set<int> {
    set t | t in c.refs && t.Minted? && c.refs[t].kind.Media? && c.refs[t].subject == MediaOf(media)
            && c.refs[t].expires > now && t.kind.Media? :: t.order
  }

  function MediaRef(c: Context, media: int, sourceSeq: int, now: int, ttl: int, uuid: int): (Context, Token) {
    if Reusable(c, media, now) != {} then (c, Minted(Media, Least(Reusable(c, media, now), ById)))
    else
      var token := Minted(Media, uuid);
      (c.(refs := c.refs[token := if token in c.refs then c.refs[token].(sourceSeq := sourceSeq, expires := now + ttl)
                                  else Ref(Media, sourceSeq, MediaOf(media), now + ttl)]), token)
  }

  function StickerRef(c: Context, h: Handle, file: string, now: int, ttl: int, uuid: int): (Context, Token) {
    var token := Minted(Sticker, uuid);
    (c.(refs := c.refs[token := if token in c.refs then c.refs[token].(sourceSeq := NewestRow(h), expires := now + ttl)
                                else Ref(Sticker, NewestRow(h), StickerOf(file), now + ttl)]), token)
  }

  function ReplyRef(c: Context, message: int, conversation: int, thread: int, sourceSeq: int, now: int, ttl: int)
      : (Context, Token)
  {
    var token := ReplyTo(message);
    (c.(refs := c.refs[token := Ref(Reply, sourceSeq, TargetOf(conversation, thread), now + ttl)]), token)
  }

  function Resolve(c: Context, h: Handle, token: Token, kind: Kind, now: int): Option<Subject> {
    if token !in c.refs || c.refs[token].kind != kind || c.refs[token].sourceSeq < h.head || c.refs[token].expires <= now
    then None else Some(c.refs[token].subject)
  }

  /** A reference hung between the head and the next row keeps the history sound. */
  lemma RefKeeps(c: Context, token: Token, ref: Ref)
    requires Sound(c) && c.head <= ref.sourceSeq <= c.next
    ensures Sound(c.(refs := c.refs[token := ref]))
  {
  }

  lemma RefsKeep(c: Context, media: int, file: string, message: int, conversation: int, thread: int, now: int, ttl: int,
                 uuid: int)
    requires Sound(c)
    ensures Sound(MediaRef(c, media, c.next, now, ttl, uuid).0)
    ensures Sound(StickerRef(c, HandleOf(c), file, now, ttl, uuid).0)
    ensures Sound(ReplyRef(c, message, conversation, thread, c.next, now, ttl).0)
  {
    assert c.head <= NewestRow(HandleOf(c)) <= c.next && c.head <= c.next;
    hide Sound, Reusable;
    var m, r, p := MediaRef(c, media, c.next, now, ttl, uuid), StickerRef(c, HandleOf(c), file, now, ttl, uuid),
      ReplyRef(c, message, conversation, thread, c.next, now, ttl);
    if m.0 != c { RefKeeps(c, m.1, m.0.refs[m.1]); }
    RefKeeps(c, r.1, r.0.refs[r.1]);
    RefKeeps(c, p.1, p.0.refs[p.1]);
  }

  /** Deleting on advance and checking in `resolve` agree: with one live handle the check never fires. */
  lemma ResolveAgrees(c: Context, token: Token, kind: Kind, now: int)
    requires Sound(c)
    ensures Resolve(c, HandleOf(c), token, kind, now).Some?
            <==> token in c.refs && c.refs[token].kind == kind && c.refs[token].expires > now
  {
  }

  /** A reference resolves only while the row it hangs on is in the window, or still to be written. */
  lemma ResolvesInWindow(c: Context, token: Token, kind: Kind, now: int)
    requires Sound(c) && Resolve(c, HandleOf(c), token, kind, now).Some?
    ensures var s := c.refs[token].sourceSeq; s == c.next || s in Live(c, HandleOf(c))
  {
  }

  /** A media reference just handed out resolves to its media, whether it was minted or reused. */
  lemma MediaRefResolves(c: Context, media: int, now: int, ttl: int, uuid: int)
    requires Sound(c) && ttl > 0 && Minted(Media, uuid) !in c.refs
    ensures var r := MediaRef(c, media, c.next, now, ttl, uuid);
            Resolve(r.0, HandleOf(r.0), r.1, Media, now) == Some(MediaOf(media))
  {
    if Reusable(c, media, now) != {} {
      var n := Least(Reusable(c, media, now), ById);
      assert n in Reusable(c, media, now);
    }
  }

  // ---- collecting ----

  lemma HasElement(xs: seq<int>)
    requires xs != []
    ensures exists x :: x in xs
  {
    var x := xs[0];
    assert x in xs;
  }

  lemma {:induction false} SortedUnique(xs: seq<int>, ys: seq<int>)
    requires forall i, j | 0 <= i < j < |xs| :: xs[i] < xs[j]
    requires forall i, j | 0 <= i < j < |ys| :: ys[i] < ys[j]
    requires forall x :: x in xs <==> x in ys
    ensures xs == ys
    decreases xs
  {
    if xs == [] {
      if ys != [] {
        HasElement(ys);
        assert false;
      }
    } else {
      assert xs[0] in ys && ys != [];
      assert ys[0] in xs;
      assert xs[0] == ys[0];
      forall x ensures x in xs[1..] <==> x in ys[1..] {
        assert xs == [xs[0]] + xs[1..] && ys == [ys[0]] + ys[1..];
        if x in xs[1..] { assert x in xs; assert x != xs[0]; }
        if x in ys[1..] { assert x in ys; assert x != ys[0]; }
      }
      SortedUnique(xs[1..], ys[1..]);
    }
  }

  function SeqsFrom(xs: seq<int>, t: int): seq<int> {
    if xs == [] then [] else if xs[0] >= t then [xs[0]] + SeqsFrom(xs[1..], t) else SeqsFrom(xs[1..], t)
  }

  lemma {:induction false} SeqsFromKeeps(xs: seq<int>, t: int)
    requires forall i, j | 0 <= i < j < |xs| :: xs[i] < xs[j]
    ensures forall x :: x in SeqsFrom(xs, t) <==> x in xs && x >= t
    ensures forall i, j | 0 <= i < j < |SeqsFrom(xs, t)| :: SeqsFrom(xs, t)[i] < SeqsFrom(xs, t)[j]
    decreases xs
  {
    if xs != [] {
      SeqsFromKeeps(xs[1..], t);
      assert xs == [xs[0]] + xs[1..];
      forall x | x in xs[1..] ensures xs[0] < x {
        var k :| 0 <= k < |xs| - 1 && xs[1..][k] == x;
        assert xs[k + 1] == x;
      }
      var rest := SeqsFrom(xs[1..], t);
      forall i, j | 0 <= i < j < |SeqsFrom(xs, t)| ensures SeqsFrom(xs, t)[i] < SeqsFrom(xs, t)[j] {
        assert rest != [] ==> forall k | 0 <= k < |rest| :: rest[k] in rest;
      }
    }
  }

  lemma {:induction false} FromOfSeqs(a: map<int, Stored>, b: map<int, Stored>, xs: seq<int>, t: int)
    requires forall s | s in xs :: s in a
    requires forall s | s in a && s >= t :: s in b && b[s].(evicted := a[s].evicted) == a[s]
    requires forall s | s in SeqsFrom(xs, t) :: s in b
    ensures From(RowsOf(a, xs), t) == RowsOf(b, SeqsFrom(xs, t))
    decreases xs
  {
    if xs != [] {
      assert forall s | s in xs[1..] :: s in xs;
      var rest := SeqsFrom(xs[1..], t);
      assert forall s | s in rest :: s in SeqsFrom(xs, t);
      FromOfSeqs(a, b, xs[1..], t);
      assert RowsOf(a, xs)[1..] == RowsOf(a, xs[1..]);
      if xs[0] >= t { assert xs[0] in SeqsFrom(xs, t) && SeqsFrom(xs, t)[1..] == rest; }
    }
  }

  lemma SeqsAscend(c: Context, h: Handle)
    ensures forall i, j | 0 <= i < j < |Seqs(c, h)| :: Seqs(c, h)[i] < Seqs(c, h)[j]
    ensures Ascending(Window(c, h))
  {
    RowsOfSeqs(c.rows, Seqs(c, h));
  }

  /** After an advance the window is exactly the old one from the target on, through any handle. */
  lemma AdvancedWindow(c: Context, h: Handle, target: int)
    requires h.head < target < h.next
    ensures var r := AdvanceHead(c, h, target).value;
            && Seqs(r, h.(head := target)) == SeqsFrom(Seqs(c, h), target)
            && Window(r, h.(head := target)) == From(Window(c, h), target)
  {
    var r := AdvanceHead(c, h, target).value;
    var xs := Seqs(c, h);
    SeqsAscend(c, h);
    SeqsAscend(r, h.(head := target));
    SeqsFromKeeps(xs, target);
    SortedUnique(Seqs(r, h.(head := target)), SeqsFrom(xs, target));
    FromOfSeqs(c.rows, r.rows, xs, target);
  }

  /** The counts a plan predicts are the ones `stats` reports once the head has moved. */
  lemma PlanPredicts(c: Context, h: Handle, target: int)
    requires h.head < target < h.next
    ensures var stats := StatsOf(AdvanceHead(c, h, target).value, h.(head := target));
            && stats.messages == |From(Window(c, h), target)|
            && stats.sends == Sends(From(Window(c, h), target))
            && stats.tokens == Tokens(From(Window(c, h), target))
  {
    AdvancedWindow(c, h, target);
  }
}
