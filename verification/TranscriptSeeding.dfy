/** What an agent is seeded with: the whole window where it can be, otherwise its part from the first user message on. */
module TranscriptSeeding {
  import opened ContextCodec
  import opened ContextGc
  import opened ContextStore
  import opened Transcript
  import opened TranscriptRuns

  /** The numbers and messages of the window, as storage has them. */
  function Kept(c: Context): (seq<int>, seq<Message>) { (Seqs(c, HandleOf(c)), Retained(c, HandleOf(c))) }

  /** A window that is empty or renderable is used as it is. */
  lemma WholeWindow(c: Context)
    requires Shaped(Kept(c).1)
    ensures Aligned(c) == c
    ensures Created(c).messages == Kept(c).1 && Written(Created(c).seqs) == Kept(c).0 && Created(c).handle == HandleOf(c)
  {
    hide Renderable;
    RowsOfSeqs(c.rows, Seqs(c, HandleOf(c)));
    WrittenSome(Seqs(c, HandleOf(c)), Created(c).seqs);
  }

  /** Position `k` is the first user message of a window that cannot be used whole. */
  ghost predicate Boundary(c: Context, k: nat) {
    && !Shaped(Kept(c).1) && k < |Kept(c).1| && Kept(c).1[k].User? && (forall i | 0 <= i < k :: !Kept(c).1[i].User?)
    && k < |Kept(c).0| && Kept(c).0[k] > c.head
  }

  lemma {:induction false} MessagesFrom(a: map<int, Stored>, b: map<int, Stored>, xs: seq<int>, t: int)
    requires forall s | s in xs :: s in a
    requires forall s | s in a && s >= t :: s in b && b[s].payload == a[s].payload
    requires forall s | s in SeqsFrom(xs, t) :: s in b
    requires forall i, j | 0 <= i < j < |xs| :: xs[i] < xs[j]
    ensures |Messages(a, xs)| == |xs|
    ensures forall k: nat :: k < |xs| && xs[k] == t ==>
              SeqsFrom(xs, t) == xs[k..] && Messages(b, SeqsFrom(xs, t)) == Messages(a, xs)[k..]
    decreases xs
  {
    RowsOfSeqs(a, xs);
    RowsOfSeqs(b, SeqsFrom(xs, t));
    forall k: nat | k < |xs| && xs[k] == t
      ensures SeqsFrom(xs, t) == xs[k..] && Messages(b, SeqsFrom(xs, t)) == Messages(a, xs)[k..]
    {
      SeqsFromSplit(xs[..k], xs[k..], t);
      assert xs[..k] + xs[k..] == xs;
      forall i | 0 <= i < |xs| - k ensures Messages(b, SeqsFrom(xs, t))[i] == Messages(a, xs)[k..][i] {
        assert xs[k..][i] == xs[k + i] && xs[k + i] in xs;
      }
    }
  }

  /** What stands after a cut at position `k` of the window: that part of it and nothing else. */
  lemma CutKeepsSuffix(c: Context, k: nat)
    requires History(c) && k < |Kept(c).0| && Kept(c).0[k] > c.head
    ensures |Kept(c).0| == |Kept(c).1| && AdvanceHead(c, HandleOf(c), Kept(c).0[k]).Some?
    ensures var d := AdvanceHead(c, HandleOf(c), Kept(c).0[k]).value;
            && d.head == Kept(c).0[k] && Kept(d) == (Kept(c).0[k..], Kept(c).1[k..]) && History(d) && d.next == c.next
  {
    var h, xs := HandleOf(c), Seqs(c, HandleOf(c));
    var t := xs[k];
    RowsOfSeqs(c.rows, xs);
    SeqInWindow(c, k);
    CutAccepted(c, t);
    CutHistory(c, t);
    SeqsAscend(c, h);
    AdvancedWindow(c, h, t);
    var d := AdvanceHead(c, h, t).value;
    assert HandleOf(d) == h.(head := t);
    MessagesFrom(c.rows, d.rows, xs, t);
  }

  /** A window cut to a renderable part starts at its first user message, with exactly what follows. */
  lemma FromFirstUser(c: Context, k: nat)
    requires History(c) && Boundary(c, k) && Renderable(Kept(c).1[k..])
    ensures var d := Aligned(c);
            && d.head == Kept(c).0[k] && d.next == c.next && Kept(d) == (Kept(c).0[k..], Kept(c).1[k..])
            && Created(c).messages == Kept(c).1[k..]
  {
    hide Renderable, AdvanceHead, Retained, Seqs, History;
    RetainedLength(c);
    CutKeepsSuffix(c, k);
    assert FirstUser(Kept(c).1).Some? && FirstUser(Kept(c).1).value == k;
  }

  /** Everything else is dropped: there is no user message above the head, or not even the part from it on is renderable. */
  lemma NothingUsable(c: Context)
    requires History(c) && !Shaped(Kept(c).1)
    requires forall k: nat :: Boundary(c, k) ==> !Renderable(Kept(c).1[k..])
    ensures Kept(Aligned(c)).1 == [] && Created(c).messages == [] && Aligned(c).head == c.next
  {
    hide Renderable, AdvanceHead, Retained, Seqs, History, Clear;
    RetainedLength(c);
    ClearHistory(c);
    ClearedHead(c);
    var ms := Kept(c).1;
    if FirstUser(ms).Some? && Kept(c).0[FirstUser(ms).value] > c.head {
      var k := FirstUser(ms).value;
      assert Boundary(c, k);
      CutKeepsSuffix(c, k);
      var d := AdvanceHead(c, HandleOf(c), Kept(c).0[k]).value;
      ClearHistory(d);
      ClearedHead(d);
    }
  }

  lemma ClearedHead(c: Context)
    ensures Clear(c, HandleOf(c)).head == c.next
  {
  }

  /** Reopening a conversation with an unchanged prompt, after any run: a usable window survives, in the store and in memory. */
  lemma ReopeningKeeps(s: System, events: seq<Event>)
    requires InStep(s) && Legal(s, events) && After(s, events).cache.Idle?
    requires Shaped(Kept(After(s, events).context).1)
    ensures var u := After(s, events);
            var t := Next(u, RunOpens(u.context.hash));
            && t.context == u.context && t.cache.Running?
            && |t.cache.entry.seqs| == |t.cache.entry.messages|
            && Projected(t.cache.entry.seqs, t.cache.entry.messages) == Kept(u.context).1
  {
    HeadForward(s, events);
    var u := After(s, events);
    var open := RunOpens(u.context.hash);
    hide InStep, Renderable, Retained, Aligned, Created, Shaped;
    OpensAsIs(u);
  }

  lemma OpensAsIs(u: System)
    requires InStep(u) && u.cache.Idle? && Shaped(Kept(u.context).1)
    ensures var t := Next(u, RunOpens(u.context.hash));
            && t.context == u.context && t.cache.Running?
            && |t.cache.entry.seqs| == |t.cache.entry.messages|
            && Projected(t.cache.entry.seqs, t.cache.entry.messages) == Kept(u.context).1
  {
    hide Renderable, Shaped, Retained, Aligned, Created, Seqs;
    WholeWindow(u.context);
    var t := Next(u, RunOpens(u.context.hash));
    OpenedAgrees(u);
    Reseeded(t.cache.entry, u.context);
    OpenedHandles(u);
  }

  lemma OpenedAgrees(u: System)
    requires InStep(u) && u.cache.Idle? && Aligned(u.context) == u.context
    ensures var t := Next(u, RunOpens(u.context.hash)); t.cache.Running? && Agrees(t.cache.entry, u.context)
  {
    hide Agrees, Aligned, Created, Renderable;
    if u.cache.held.Some? { Rebound(u.cache.held.value, u.context); } else { CreatedAgrees(u.context); }
  }

  lemma OpenedHandles(u: System)
    requires u.cache.Idle? && Aligned(u.context) == u.context
    ensures var t := Next(u, RunOpens(u.context.hash)); t.cache.entry.handle == HandleOf(u.context)
  {
    hide Aligned;
  }
}
