/**
 The store and the runtime cache in the source's own form: a header every consumer shares, rows and
 references updated in place, and the agent's transcript pushed and sliced beside them.
 */
module ContextService {
  import opened Options
  import opened ContextCodec
  import opened ContextGc
  import opened ContextStore
  import opened Transcript

  /** The live handle of one Conversation Context. */
  class ContextHeader {
    const conversation: int
    var headSeq: int
    var nextSeq: int
    var sendCountTotal: int

    constructor (conversation: int, h: Handle)
      ensures this.conversation == conversation && View() == h
    {
      this.conversation := conversation;
      headSeq, nextSeq, sendCountTotal := h.head, h.next, h.sends;
    }

    function View(): Handle
      reads this
    {
      Handle(headSeq, nextSeq, sendCountTotal)
    }
  }

  class ConversationContextStore {
    var contexts: map<int, Context>
    var nextId: int

    constructor ()
      ensures contexts == map[]
    {
      contexts, nextId := map[], 1;
    }

    /** Creates the context on first use, and starts it over when the stable prompt changed. */
    method Open(conversation: int, hash: string) returns (header: ContextHeader, rebuilt: bool)
      modifies this
      ensures fresh(header) && header.conversation == conversation && conversation in contexts
      ensures rebuilt <==> conversation in old(contexts) && old(contexts)[conversation].hash != hash
      ensures contexts == old(contexts)[conversation :=
                if conversation !in old(contexts) then Fresh(old(nextId), hash)
                else if rebuilt then Fresh(old(contexts)[conversation].id, hash) else old(contexts)[conversation]]
      ensures header.View() == HandleOf(contexts[conversation])
    {
      rebuilt := false;
      if conversation !in contexts {
        contexts := contexts[conversation := Fresh(nextId, hash)];
        nextId := nextId + 1;
      } else if contexts[conversation].hash != hash {
        rebuilt := true;
        contexts := contexts[conversation :=
          contexts[conversation].(rows := map[], refs := map[], head := 1, next := 1, sends := 0, hash := hash)];
      }
      header := new ContextHeader(conversation, HandleOf(contexts[conversation]));
    }

    /** Writes one message at the handle's next number; the primary key refuses a number already taken. */
    method AppendMessage(header: ContextHeader, input: Input) returns (seqNo: Option<int>)
      requires header.conversation in contexts
      modifies this`contexts, header
      ensures var c, h := old(contexts)[header.conversation], old(header.View());
              var r := Append(c, h, input);
              && contexts == old(contexts)[header.conversation := if r.Some? then r.value else c]
              && seqNo == (if r.Some? then Some(h.next) else None)
              && header.View() == (if r.Some? then AfterAppend(h, input) else h)
    {
      var c := contexts[header.conversation];
      var n := header.nextSeq;
      if n in c.rows {
        return None;
      }
      var sendSeq := if input.countedSend then Some(header.sendCountTotal + 1) else None;
      c := c.(rows := c.rows[n := Stored(input.payload, input.checkpoint, sendSeq, input.tokens, false)]);
      c := c.(next := n + 1);
      if input.countedSend { c := c.(sends := header.sendCountTotal + 1); }
      contexts := contexts[header.conversation := c];
      header.nextSeq := n + 1;
      if input.countedSend { header.sendCountTotal := header.sendCountTotal + 1; }
      return Some(n);
    }

    /** Refuses a target outside the window; otherwise evicts below it and revokes what hung on those rows. */
    method AdvanceTo(header: ContextHeader, target: int) returns (done: bool)
      requires header.conversation in contexts
      modifies this`contexts, header
      ensures var c, h := old(contexts)[header.conversation], old(header.View());
              var r := AdvanceHead(c, h, target);
              && (done <==> h.head < target < h.next)
              && contexts == old(contexts)[header.conversation := if done then r.value else c]
              && header.View() == (if done then h.(head := target) else h)
    {
      if target <= header.headSeq || target >= header.nextSeq {
        return false;
      }
      var c := contexts[header.conversation];
      var rows, refs := c.rows, c.refs;
      c := c.(rows := map s | s in rows :: if s < target then rows[s].(evicted := true) else rows[s]);
      c := c.(refs := map t | t in refs && refs[t].sourceSeq >= target :: refs[t]);
      contexts := contexts[header.conversation := c.(head := target)];
      header.headSeq := target;
      return true;
    }

    /** Drops the whole window of the handle, and every reference. */
    method Drop(header: ContextHeader)
      requires header.conversation in contexts
      modifies this`contexts, header`headSeq
      ensures var c, h := old(contexts)[header.conversation], old(header.View());
              contexts == old(contexts)[header.conversation := Clear(c, h)] && header.View() == h.(head := h.next)
    {
      var c := contexts[header.conversation];
      var rows, head := c.rows, header.headSeq;
      c := c.(rows := map s | s in rows :: if s >= head then rows[s].(evicted := true) else rows[s]);
      contexts := contexts[header.conversation := c.(refs := map[], head := header.nextSeq)];
      header.headSeq := header.nextSeq;
    }
  }

  /** One cached agent: its transcript, and the row of each message. */
  class CachedAgent {
    var header: ContextHeader
    var seqs: seq<Option<int>>
    var messages: seq<Message>

    constructor (header: ContextHeader, seqs: seq<Option<int>>, messages: seq<Message>)
      ensures this.header == header && this.seqs == seqs && this.messages == messages
    {
      this.header, this.seqs, this.messages := header, seqs, messages;
    }

    function View(): Entry
      reads this, header
    {
      Entry(header.View(), seqs, messages)
    }
  }

  class AgentRuntime {
    const store: ConversationContextStore

    constructor (store: ConversationContextStore)
      ensures this.store == store
    {
      this.store := store;
    }

    /** The agent has just added `m` to its messages; it is written, and paired with its row. */
    method PersistMessage(entry: CachedAgent, m: Message, checkpoint: bool, tokens: nat, countedSend: bool)
        returns (diverged: bool)
      requires entry.header.conversation in store.contexts
      modifies store`contexts, entry, entry.header
      ensures entry.header == old(entry.header)
      ensures var c := old(store.contexts)[entry.header.conversation];
              var (f, d) := Persist(old(entry.View()), c, m, checkpoint, tokens, countedSend);
              entry.View() == f && store.contexts == old(store.contexts)[entry.header.conversation := d]
      ensures old(Agrees(entry.View(), store.contexts[entry.header.conversation])) ==> !diverged
    {
      entry.messages := entry.messages + [m];
      var payload := Encode(m);
      if payload.None? {
        entry.seqs := entry.seqs + [None];
        assert store.contexts == old(store.contexts)[entry.header.conversation := store.contexts[entry.header.conversation]];
        return false;
      }
      var seqNo := store.AppendMessage(entry.header, Input(payload.value, checkpoint, tokens, countedSend));
      if seqNo.None? {
        return true;
      }
      entry.seqs := entry.seqs + [seqNo];
      diverged := |entry.seqs| != |entry.messages|;
    }

    /** Collection at a turn boundary: head, rows, references and transcript move together. */
    method MaybeCollect(entry: CachedAgent, o: GcInput) returns (plan: Option<Plan>)
      requires entry.header.conversation in store.contexts
      requires PlansFor(o, entry.View(), store.contexts[entry.header.conversation])
      requires |entry.seqs| == |entry.messages|
      modifies store`contexts, entry, entry.header
      ensures entry.header == old(entry.header)
      ensures plan.Some? <==> Collects(o)
      ensures plan.Some? ==> plan.value.index <= |old(entry.seqs)| && plan.value.index <= |old(entry.messages)|
      ensures var c := old(store.contexts)[entry.header.conversation];
              if plan.None? then entry.View() == old(entry.View()) && store.contexts == old(store.contexts)
              else
                var (f, d) := Collect(old(entry.View()), c, plan.value.target, plan.value.index);
                entry.View() == f && store.contexts == old(store.contexts)[entry.header.conversation := d]
    {
      plan := PlanContextGc(o);
      if plan.None? {
        return;
      }
      ghost var e, c := entry.View(), store.contexts[entry.header.conversation];
      if Agrees(e, c) { PlanIsApplicable(o, e, c); }
      var index := plan.value.index;
      var done := store.AdvanceTo(entry.header, plan.value.target);
      if !done {
        return;
      }
      entry.seqs := entry.seqs[index..];
      entry.messages := entry.messages[index..];
    }

    /** The retained window, repaired so that it starts on a turn boundary. */
    method AlignedRetained(header: ContextHeader) returns (seqs: seq<int>, messages: seq<Message>)
      requires header.conversation in store.contexts && header.View() == HandleOf(store.contexts[header.conversation])
      requires History(store.contexts[header.conversation])
      modifies store`contexts, header
      ensures var d := Aligned(old(store.contexts)[header.conversation]);
              && store.contexts == old(store.contexts)[header.conversation := d] && header.View() == HandleOf(d)
              && seqs == Seqs(d, HandleOf(d)) && messages == Retained(d, HandleOf(d))
              && (messages == [] || Renderable(messages)) && header.headSeq >= old(header.headSeq)
    {
      hide Seqs, Retained, Renderable, History;
      ghost var c := store.contexts[header.conversation];
      AlignedKeeps(c);
      RetainedLength(c);
      seqs, messages := Seqs(store.contexts[header.conversation], header.View()),
        Retained(store.contexts[header.conversation], header.View());
      var ok := IsRenderable(messages);
      if messages == [] || ok {
        return;
      }
      var boundary := FirstUser(messages);
      if boundary.Some? && seqs[boundary.value] > header.headSeq {
        SeqInWindow(c, boundary.value);
        CutAccepted(c, seqs[boundary.value]);
        CutHistory(c, seqs[boundary.value]);
        ClearHistory(AdvanceHead(c, HandleOf(c), seqs[boundary.value]).value);
        var done := store.AdvanceTo(header, seqs[boundary.value]);
        seqs, messages := Seqs(store.contexts[header.conversation], header.View()),
          Retained(store.contexts[header.conversation], header.View());
        ok := IsRenderable(messages);
        if ok {
          return;
        }
      }
      ClearHistory(c);
      store.Drop(header);
      seqs, messages := [], [];
      RetainedLength(store.contexts[header.conversation]);
    }

    /** Seeds an agent from the canonical history. */
    method CreateCachedAgent(header: ContextHeader) returns (entry: CachedAgent)
      requires header.conversation in store.contexts && header.View() == HandleOf(store.contexts[header.conversation])
      requires History(store.contexts[header.conversation])
      modifies store`contexts, header
      ensures fresh(entry) && entry.header == header
      ensures entry.View() == Created(old(store.contexts)[header.conversation])
      ensures store.contexts == old(store.contexts)[header.conversation := Aligned(old(store.contexts)[header.conversation])]
    {
      hide Aligned, History;
      var seqs, messages := AlignedRetained(header);
      var numbers := seq(|seqs|, i requires 0 <= i < |seqs| => Some(seqs[i]));
      entry := new CachedAgent(header, numbers, messages);
    }
  }
}
