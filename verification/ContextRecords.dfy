/** What the operations of the canonical history record and hand out, as it is read back. */
module ContextRecords {
  import opened Options
  import opened Ordering
  import opened ContextCodec
  import opened ContextGc
  import opened ContextStore
  import opened Transcript

  // ---- rows ----

  /** An appended message is the last of the window, with the marks it was given, and is read back as it was stored. */
  lemma AppendedLast(c: Context, input: Input)
    requires SoundRows(c)
    ensures Append(c, HandleOf(c), input).Some?
    ensures var r := Append(c, HandleOf(c), input).value;
            var sendSeq := if input.countedSend then Some(c.sends + 1) else None;
            && Window(r, HandleOf(r)) == Window(c, HandleOf(c)) + [Row(c.next, input.checkpoint, sendSeq, input.tokens)]
            && Retained(r, HandleOf(r)) == Retained(c, HandleOf(c)) + [Decode(input.payload)]
            && r.refs == c.refs && r.head == c.head && r.hash == c.hash
            && r.sends == c.sends + (if input.countedSend then 1 else 0)
  {
    hide SoundRows, RowsOf, Messages, Seqs;
    SoundIsDense(c);
    AppendedSeqs(c, input);
    SeqsStored(c);
    var r := Append(c, HandleOf(c), input).value;
    SeqsStored(r);
    ReadMore(c.rows, r.rows, Seqs(c, HandleOf(c)), c.next);
  }

  lemma SoundIsDense(c: Context)
    requires SoundRows(c)
    ensures Dense(c) && c.head <= c.next && c.next !in c.rows
  {
    hide SendCount;
  }

  lemma SeqsStored(c: Context)
    ensures forall s | s in Seqs(c, HandleOf(c)) :: s in c.rows
  {
  }

  lemma ReadMore(a: map<int, Stored>, b: map<int, Stored>, xs: seq<int>, n: int)
    requires (forall s | s in xs :: s in a) && (forall s | s in xs + [n] :: s in b) && n in b
    requires forall s | s in a :: s in b && b[s] == a[s]
    ensures RowsOf(b, xs + [n]) == RowsOf(a, xs) + [Row(n, b[n].checkpoint, b[n].sendSeq, b[n].tokens)]
    ensures Messages(b, xs + [n]) == Messages(a, xs) + [Decode(b[n].payload)]
  {
    var ys := xs + [n];
    RowsOfSeqs(a, xs);
    RowsOfSeqs(b, ys);
    hide RowsOf, Messages;
    forall k | 0 <= k < |ys| ensures k < |xs| ==> ys[k] == xs[k] && xs[k] in xs && b[xs[k]] == a[xs[k]] {
    }
  }

  /** Moving the head drops exactly the rows and the references below it, and leaves what every row says. */
  lemma AdvanceDrops(c: Context, h: Handle, target: int)
    ensures var r := AdvanceHead(c, h, target);
            && (r.Some? <==> h.head < target < h.next)
            && (r.Some? ==>
                  && r.value == c.(rows := r.value.rows, refs := r.value.refs, head := target)
                  && r.value.rows.Keys == c.rows.Keys
                  && (forall s | s in c.rows ::
                        r.value.rows[s] == c.rows[s].(evicted := s < target || c.rows[s].evicted))
                  && (forall t :: t in r.value.refs <==> t in c.refs && c.refs[t].sourceSeq >= target)
                  && (forall t | t in r.value.refs :: t in c.refs && r.value.refs[t] == c.refs[t]))
  {
    assert EvictBelow(c.rows, target).Keys == c.rows.Keys;
  }

  /** Clearing drops everything a reader could see, and no row is forgotten. */
  lemma ClearDrops(c: Context, h: Handle)
    ensures var r := Clear(c, h);
            && r == c.(rows := r.rows, refs := map[], head := h.next) && r.rows.Keys == c.rows.Keys
            && (forall s | s in c.rows :: r.rows[s] == c.rows[s].(evicted := s >= h.head || c.rows[s].evicted))
  {
    assert EvictFrom(c.rows, h.head).Keys == c.rows.Keys;
  }

  // ---- references ----

  /** The token resolves to its subject until it expires, and every other reference is what it was. */
  ghost predicate HandedOut(c: Context, r: Context, token: Token, kind: Kind, subject: Subject, expires: int) {
    && r == c.(refs := r.refs) && token in r.refs
    && (forall at :: Resolve(r, HandleOf(r), token, kind, at) == if at < expires then Some(subject) else None)
    && (forall other: Kind, at | other != kind :: Resolve(r, HandleOf(r), token, other, at).None?)
    && (forall t | t != token :: (t in r.refs <==> t in c.refs) && (t in c.refs ==> r.refs[t] == c.refs[t]))
  }

  /** A sticker reference is new and resolves to its sticker. */
  lemma StickerRefResolves(c: Context, file: string, now: int, ttl: int, uuid: int)
    requires Sound(c) && Minted(Sticker, uuid) !in c.refs
    ensures var (r, token) := StickerRef(c, HandleOf(c), file, now, ttl, uuid);
            HandedOut(c, r, token, Sticker, StickerOf(file), now + ttl)
  {
    hide SoundRows;
    NewestAboveHead(c);
  }

  lemma NewestAboveHead(c: Context)
    requires Sound(c)
    ensures NewestRow(HandleOf(c)) >= c.head && c.next >= c.head
  {
  }

  /** A reply reference resolves to the conversation and thread of its message, whether it was there before or not. */
  lemma ReplyRefResolves(c: Context, message: int, conversation: int, thread: int, now: int, ttl: int)
    requires Sound(c)
    ensures var (r, token) := ReplyRef(c, message, conversation, thread, c.next, now, ttl);
            token == ReplyTo(message) && HandedOut(c, r, token, Reply, TargetOf(conversation, thread), now + ttl)
  {
    hide SoundRows;
    NewestAboveHead(c);
  }

  /** A media reference is minted only when no live one names the medium, and is handed out again otherwise. */
  lemma MediaRefReused(c: Context, media: int, now: int, ttl: int, uuid: int)
    requires Sound(c) && Minted(Media, uuid) !in c.refs
    ensures var (r, token) := MediaRef(c, media, c.next, now, ttl, uuid);
            var live := exists t | t in c.refs ::
                          t.Minted? && t.kind.Media? && c.refs[t].kind.Media? && c.refs[t].subject == MediaOf(media)
                          && c.refs[t].expires > now;
            if live then r == c && token in c.refs && c.refs[token].subject == MediaOf(media) && c.refs[token].expires > now
            else token == Minted(Media, uuid) && HandedOut(c, r, token, Media, MediaOf(media), now + ttl)
  {
    hide SoundRows;
    NewestAboveHead(c);
    if Reusable(c, media, now) != {} {
      NonEmpty(Reusable(c, media, now));
    } else {
      forall t | t in c.refs && t.Minted? && t.kind.Media? && c.refs[t].kind.Media? && c.refs[t].subject == MediaOf(media)
        ensures c.refs[t].expires <= now
      {
        assert t.order !in Reusable(c, media, now);
      }
    }
  }

  // ---- when the history is collected ----

  /** Sends in a window are its rows that carry a send number. */
  lemma {:induction false} SendsAreRows(rows: seq<Row>, from: int)
    ensures Sends(From(rows, from)) == |set i: nat | i < |rows| && rows[i].seqNo >= from && rows[i].sendSeq.Some?|
    decreases |rows|
  {
    var all := set i: nat | i < |rows| && rows[i].seqNo >= from && rows[i].sendSeq.Some?;
    if rows == [] {
      assert all == {};
    } else {
      var last := |rows| - 1;
      var before := rows[..last];
      SendsAreRows(before, from);
      var earlier := set i: nat | i < |before| && before[i].seqNo >= from && before[i].sendSeq.Some?;
      SendsSnoc(before, rows[last], from);
      assert rows == before + [rows[last]];
      assert all == earlier + (if rows[last].seqNo >= from && rows[last].sendSeq.Some? then {last} else {});
    }
  }

  lemma {:induction false} SendsSnoc(rows: seq<Row>, row: Row, from: int)
    ensures Sends(From(rows + [row], from))
            == Sends(From(rows, from)) + if row.seqNo >= from && row.sendSeq.Some? then 1 else 0
    decreases rows
  {
    var all := rows + [row];
    FromCons(all, from);
    if rows == [] {
      assert all[1..] == [];
    } else {
      assert all[1..] == rows[1..] + [row];
      SendsSnoc(rows[1..], row, from);
      FromCons(rows, from);
    }
  }

  /**
   A turn boundary collects only when more sends are visible than allowed, or the prompt and its answer reach the hard share
   of the context window; and then whenever a target exists that leaves a renderable transcript.
   */
  lemma CollectsWhen(o: GcInput)
    ensures var sends := |set i: nat | i < |o.rows| && o.rows[i].seqNo >= o.head && o.rows[i].sendSeq.Some?|;
            var due := sends > o.sendsMax || (o.estimated + o.maxOutput) as real >= o.contextWindow as real * o.hardRatio;
            && (Collects(o) ==> due && Target(o).Some?)
            && (due && Target(o).Some? ==>
                  var index := IndexOf(o.seqs, o.rows[Target(o).value].seqNo);
                  Collects(o) <==> 0 < index <= |o.messages| && Renderable(o.messages[index..]))
  {
    SendsAreRows(o.rows, o.head);
    hide Renderable, Target, From, Sends;
  }

  /** Under that pressure a target that keeps the wanted sends also fits four fifths of the hard share. */
  lemma TargetFits(o: GcInput)
    requires Target(o).Some? && Pressure(o)
    ensures var seqNo := o.rows[Target(o).value].seqNo;
            && seqNo > o.head && o.rows[Target(o).value].checkpoint
            && Tokens(From(o.rows, seqNo)) as real <= o.contextWindow as real * o.hardRatio * 0.8
  {
    hide From;
  }

  // ---- what a run persists ----

  /**
   A message the agent finished is kept in memory as it is; in the store it is the last row, with the marks it ended with,
   when it is stored at all.
   */
  lemma MessagePersisted(e: Entry, c: Context, m: Message, checkpoint: bool, tokens: nat, countedSend: bool)
    requires SoundRows(c) && e.handle.next == c.next && e.handle.sends == c.sends
    ensures var (f, d) := Persist(e, c, m, checkpoint, tokens, countedSend);
            && f.messages == e.messages + [m]
            && f.seqs == e.seqs + [if Encode(m).Some? then Some(c.next) else None]
            && (Encode(m).None? ==> d == c && f.handle == e.handle)
            && (Encode(m).Some? ==>
                  var sendSeq := if countedSend then Some(c.sends + 1) else None;
                  && f.handle.head == e.handle.head && f.handle.next == d.next && f.handle.sends == d.sends
                  && Window(d, HandleOf(d)) == Window(c, HandleOf(c)) + [Row(c.next, checkpoint, sendSeq, tokens)]
                  && Retained(d, HandleOf(d)) == Retained(c, HandleOf(c)) + [Decode(Encode(m).value)])
  {
    hide SoundRows, Window, Retained;
    if Encode(m).Some? {
      var input := Input(Encode(m).value, checkpoint, tokens, countedSend);
      AppendedLast(c, input);
      NextFree(c, e.handle);
      assert Append(c, e.handle, input) == Append(c, HandleOf(c), input);
    }
  }

  lemma NextFree(c: Context, h: Handle)
    requires SoundRows(c) && h.next == c.next
    ensures h.next !in c.rows
  {
    hide SendCount;
  }

  /** After a run its transcript is kept for the next one exactly when the run did not fail and did not lose its topic. */
  lemma RunKeepsTranscript(s: System, failed: bool)
    requires s.cache.Running?
    ensures var t := Next(s, RunEnds(failed));
            && t.context == s.context
            && t.cache == Idle(if s.cache.shared && !failed then Some(s.cache.entry) else None)
  {
  }
}
