/** The shape a transcript must have, and where a collection may cut it. */
module ContextGc {
  import opened Options
  import opened ContextCodec

  // ---- the shape ----

  predicate Issues(m: Message, id: string) { id in CallIds(m) }

  predicate Answers(m: Message, id: string) { m.ToolResult? && m.callId == id }

  /** Message `j` issues call `id`, and nothing between it and `k` answers it. */
  ghost predicate OpenSince(ms: seq<Message>, j: nat, k: nat, id: string) {
    && j < k <= |ms| && Issues(ms[j], id)
    && (forall i | j < i < k :: !Answers(ms[i], id))
  }

  ghost predicate Open(ms: seq<Message>, k: nat, id: string) {
    exists j: nat :: OpenSince(ms, j, k, id)
  }

  /** Every tool result answers a call that came before it and was not answered yet. */
  ghost predicate Answered(ms: seq<Message>) {
    forall k: nat | k < |ms| && ms[k].ToolResult? :: Open(ms, k, ms[k].callId)
  }

  ghost predicate Renderable(ms: seq<Message>) {
    ms != [] && ms[0].User? && Answered(ms)
  }

  lemma OpenStep(ms: seq<Message>, k: nat, id: string)
    requires k < |ms|
    ensures Open(ms, k + 1, id) <==> Issues(ms[k], id) || (Open(ms, k, id) && !Answers(ms[k], id))
  {
    if Issues(ms[k], id) { assert OpenSince(ms, k, k + 1, id); }
    if Open(ms, k, id) && !Answers(ms[k], id) {
      var j: nat :| OpenSince(ms, j, k, id);
      assert OpenSince(ms, j, k + 1, id);
    }
    if Open(ms, k + 1, id) && !Issues(ms[k], id) {
      var j: nat :| OpenSince(ms, j, k + 1, id);
      assert OpenSince(ms, j, k, id);
    }
  }

  /** One pass with a set of calls that wait for their result. */
  method IsRenderable(messages: seq<Message>) returns (ok: bool)
    ensures ok <==> Renderable(messages)
  {
    if messages == [] || !messages[0].User? {
      return false;
    }
    var pending: set<string> := {};
    for k := 0 to |messages|
      invariant forall id :: id in pending <==> Open(messages, k, id)
      invariant forall i: nat | i < k && messages[i].ToolResult? :: Open(messages, i, messages[i].callId)
    {
      var m := messages[k];
      forall id ensures Open(messages, k + 1, id) <==> Issues(m, id) || (Open(messages, k, id) && !Answers(m, id)) {
        OpenStep(messages, k, id);
      }
      if m.Assistant? {
        var n := 0;
        var before := pending;
        while n < |m.parts|
          invariant 0 <= n <= |m.parts|
          invariant pending == before + set p | p in m.parts[..n] && p.Call? :: p.id
        {
          assert m.parts[..n + 1] == m.parts[..n] + [m.parts[n]];
          if m.parts[n].Call? { pending := pending + {m.parts[n].id}; }
          n := n + 1;
        }
        assert m.parts[..n] == m.parts;
        assert pending == before + CallIds(m);
      } else if m.ToolResult? {
        if m.callId !in pending {
          return false;
        }
        pending := pending - {m.callId};
      }
    }
    return true;
  }

  /** Cutting at a user message keeps the shape exactly when no later result answers an earlier call. */
  lemma CutKeeps(ms: seq<Message>, k: nat)
    requires Renderable(ms) && k < |ms|
    ensures Renderable(ms[k..]) <==>
            ms[k].User?
            && forall i: nat | k <= i < |ms| && ms[i].ToolResult? ::
                 exists j: nat :: k <= j && OpenSince(ms, j, i, ms[i].callId)
  {
    var cut := ms[k..];
    if Renderable(cut) {
      forall i: nat | k <= i < |ms| && ms[i].ToolResult?
        ensures exists j: nat :: k <= j && OpenSince(ms, j, i, ms[i].callId)
      {
        assert cut[i - k] == ms[i];
        var j: nat :| OpenSince(cut, j, i - k, ms[i].callId);
        assert OpenSince(ms, j + k, i, ms[i].callId) by {
          forall x: nat | j + k < x < i ensures !Answers(ms[x], ms[i].callId) {
            assert cut[x - k] == ms[x];
          }
        }
      }
    }
    if ms[k].User? && forall i: nat | k <= i < |ms| && ms[i].ToolResult? ::
         exists j: nat :: k <= j && OpenSince(ms, j, i, ms[i].callId)
    {
      forall i: nat | i < |cut| && cut[i].ToolResult? ensures Open(cut, i, cut[i].callId) {
        assert ms[i + k] == cut[i];
        var j: nat :| k <= j && OpenSince(ms, j, i + k, ms[i + k].callId);
        assert OpenSince(cut, j - k, i, cut[i].callId);
      }
    }
  }

  /** In particular: a cut at a user message with no call open there keeps the shape. */
  lemma CutAtRest(ms: seq<Message>, k: nat)
    requires Renderable(ms) && k < |ms| && ms[k].User? && forall id :: !Open(ms, k, id)
    ensures Renderable(ms[k..])
  {
    forall i: nat | k <= i < |ms| && ms[i].ToolResult?
      ensures exists j: nat :: k <= j && OpenSince(ms, j, i, ms[i].callId)
    {
      var j: nat :| OpenSince(ms, j, i, ms[i].callId);
      if j < k { assert OpenSince(ms, j, k, ms[i].callId); assert Open(ms, k, ms[i].callId); }
    }
    CutKeeps(ms, k);
  }

  /** The same shape read from the front, with the set of calls that wait for their result. */
  predicate Accepts(pending: set<string>, ms: seq<Message>)
    decreases |ms|
  {
    ms == [] ||
    (if ms[0].ToolResult? then ms[0].callId in pending && Accepts(pending - {ms[0].callId}, ms[1..])
     else Accepts(pending + CallIds(ms[0]), ms[1..]))
  }

  lemma {:induction false} AcceptsMeans(ms: seq<Message>, k: nat, pending: set<string>)
    requires k <= |ms| && forall id :: id in pending <==> Open(ms, k, id)
    ensures Accepts(pending, ms[k..]) <==> forall i: nat | k <= i < |ms| && ms[i].ToolResult? :: Open(ms, i, ms[i].callId)
    decreases |ms| - k
  {
    if k < |ms| {
      var m := ms[k];
      forall id ensures Open(ms, k + 1, id) <==> Issues(m, id) || (Open(ms, k, id) && !Answers(m, id)) {
        OpenStep(ms, k, id);
      }
      assert ms[k..][0] == m && ms[k..][1..] == ms[k + 1..];
      if !m.ToolResult? {
        AcceptsMeans(ms, k + 1, pending + CallIds(m));
      } else {
        AcceptsMeans(ms, k + 1, pending - {m.callId});
      }
    }
  }

  lemma AnsweredMeans(ms: seq<Message>)
    ensures Answered(ms) <==> Accepts({}, ms)
  {
    assert ms[0..] == ms;
    AcceptsMeans(ms, 0, {});
  }

  // ---- where to cut ----

  datatype Row = Row(seqNo: int, checkpoint: bool, sendSeq: Option<int>, tokens: nat)

  datatype GcInput = GcInput(
    sendsTarget: nat, sendsMax: nat, hardRatio: real, contextWindow: nat, maxOutput: nat, estimated: nat,
    head: int, seqs: seq<Option<int>>, rows: seq<Row>, messages: seq<Message>)

  datatype Plan = Plan(
    target: int, index: nat, beforeTokens: nat, afterTokens: nat, beforeSends: nat, afterSends: nat,
    beforeMessages: nat, afterMessages: nat)

  ghost predicate Ascending(rows: seq<Row>) {
    forall i, j | 0 <= i < j < |rows| :: rows[i].seqNo < rows[j].seqNo
  }

  function From(rows: seq<Row>, from: int): seq<Row> {
    if rows == [] then [] else (if rows[0].seqNo >= from then [rows[0]] else []) + From(rows[1..], from)
  }

  function Sends(rows: seq<Row>): nat {
    if rows == [] then 0 else (if rows[0].sendSeq.Some? then 1 else 0) + Sends(rows[1..])
  }

  function Tokens(rows: seq<Row>): nat {
    if rows == [] then 0 else rows[0].tokens + Tokens(rows[1..])
  }

  function Pressure(o: GcInput): bool {
    (o.estimated + o.maxOutput) as real >= o.contextWindow as real * o.hardRatio
  }

  predicate WithinBudget(o: GcInput, from: int) {
    Tokens(From(o.rows, from)) as real <= o.contextWindow as real * o.hardRatio * 0.8
  }

  predicate Checkpoint(o: GcInput, row: Row) { row.checkpoint && row.seqNo > o.head }

  /** Keeps enough sends, and under token pressure also fits the soft budget. */
  predicate Keeps(o: GcInput, row: Row) {
    && Checkpoint(o, row) && Sends(From(o.rows, row.seqNo)) >= o.sendsTarget
    && (!Pressure(o) || WithinBudget(o, row.seqNo))
  }

  /** Index of the last row for which `p` holds. */
  function Newest(rows: seq<Row>, p: Row -> bool): (r: Option<nat>)
    ensures r.Some? ==> r.value < |rows| && p(rows[r.value]) && forall i | r.value < i < |rows| :: !p(rows[i])
    ensures r.None? ==> forall row | row in rows :: !p(row)
  {
    if rows == [] then None
    else if p(rows[|rows| - 1]) then Some(|rows| - 1)
    else Newest(rows[..|rows| - 1], p)
  }

  function IndexOf(seqs: seq<Option<int>>, s: int): (r: int)
    ensures -1 <= r < |seqs|
    ensures r >= 0 ==> seqs[r] == Some(s) && forall i | 0 <= i < r :: seqs[i] != Some(s)
    ensures r == -1 ==> Some(s) !in seqs
  {
    if seqs == [] then -1
    else if seqs[0] == Some(s) then 0
    else var r := IndexOf(seqs[1..], s); if r < 0 then -1 else r + 1
  }

  /** The row the plan cuts to, before the transcript is consulted. */
  function Target(o: GcInput): (r: Option<nat>)
    ensures r.Some? ==> r.value < |o.rows|
  {
    var keeping := Newest(o.rows, (row: Row) => Keeps(o, row));
    if keeping.Some? then keeping else NewestFitting(o)
  }

  /** Everything that has to hold before anything is dropped. */
  ghost predicate Collects(o: GcInput) {
    && (Sends(From(o.rows, o.head)) > o.sendsMax || Pressure(o))
    && Target(o).Some?
    && var index := IndexOf(o.seqs, o.rows[Target(o).value].seqNo);
       0 < index <= |o.messages| && Renderable(o.messages[index..])
  }

  method PlanContextGc(o: GcInput) returns (plan: Option<Plan>)
    ensures plan.Some? <==> Collects(o)
    ensures plan.Some? ==>
              && plan.value.target == o.rows[Target(o).value].seqNo
              && plan.value.index == IndexOf(o.seqs, plan.value.target)
              && plan.value.beforeTokens == Tokens(o.rows) && plan.value.beforeMessages == |o.rows|
              && plan.value.beforeSends == Sends(From(o.rows, o.head))
              && plan.value.afterTokens == Tokens(From(o.rows, plan.value.target))
              && plan.value.afterSends == Sends(From(o.rows, plan.value.target))
              && plan.value.afterMessages == |From(o.rows, plan.value.target)|
  {
    if o.rows == [] {
      return None;
    }
    var beforeSends := Sends(From(o.rows, o.head));
    if beforeSends <= o.sendsMax && !Pressure(o) {
      return None;
    }
    var target := Target(o);
    if target.None? {
      return None;
    }
    var seqNo := o.rows[target.value].seqNo;
    var index := IndexOf(o.seqs, seqNo);
    if index <= 0 {
      return None;
    }
    var retained := if index <= |o.messages| then o.messages[index..] else [];
    var ok := IsRenderable(retained);
    if !ok {
      return None;
    }
    return Some(Plan(seqNo, index, Tokens(o.rows), Tokens(From(o.rows, seqNo)), beforeSends,
                     Sends(From(o.rows, seqNo)), |o.rows|, |From(o.rows, seqNo)|));
  }

  // ---- which checkpoint that is ----

  lemma {:induction false} FewerTokens(rows: seq<Row>, a: int, b: int)
    requires a <= b
    ensures Tokens(From(rows, b)) <= Tokens(From(rows, a))
    decreases rows
  {
    if rows == [] {
    } else {
      FewerTokens(rows[1..], a, b);
      FromCons(rows, a);
      FromCons(rows, b);
    }
  }

  lemma FromCons(rows: seq<Row>, a: int)
    requires rows != []
    ensures Tokens(From(rows, a)) == (if rows[0].seqNo >= a then rows[0].tokens else 0) + Tokens(From(rows[1..], a))
    ensures Sends(From(rows, a))
            == (if rows[0].seqNo >= a && rows[0].sendSeq.Some? then 1 else 0) + Sends(From(rows[1..], a))
  {
    var rest := From(rows[1..], a);
    if rows[0].seqNo >= a {
      assert From(rows, a) == [rows[0]] + rest;
      assert ([rows[0]] + rest)[1..] == rest;
    } else {
      assert From(rows, a) == [] + rest == rest;
    }
  }

  /** The last checkpoint above the head. */
  function LastCheckpoint(o: GcInput): (r: Option<nat>)
    ensures r.Some? ==> r.value < |o.rows|
  {
    Newest(o.rows, (row: Row) => Checkpoint(o, row))
  }

  /**
   The target is the newest checkpoint that keeps the wanted sends (within the soft budget under
   pressure); when there is none it is the last checkpoint, provided that one fits the budget.
   */
  lemma TargetMeans(o: GcInput)
    requires Ascending(o.rows)
    ensures Target(o).Some? ==> Checkpoint(o, o.rows[Target(o).value])
    ensures (exists row :: row in o.rows && Keeps(o, row)) ==>
              Target(o).Some? && Keeps(o, o.rows[Target(o).value])
              && forall i | Target(o).value < i < |o.rows| :: !Keeps(o, o.rows[i])
    ensures (forall row | row in o.rows :: !Keeps(o, row)) ==>
              var last := LastCheckpoint(o);
              Target(o) == if last.Some? && WithinBudget(o, o.rows[last.value].seqNo) then last else None
  {
    if forall row | row in o.rows :: !Keeps(o, row) {
      FallbackMeans(o);
    }
  }

  function NewestFitting(o: GcInput): (r: Option<nat>)
    ensures r.Some? ==> r.value < |o.rows|
  {
    Newest(o.rows, (row: Row) => Checkpoint(o, row) && WithinBudget(o, row.seqNo))
  }

  lemma FallbackMeans(o: GcInput)
    requires Ascending(o.rows)
    ensures var last := LastCheckpoint(o);
            NewestFitting(o) == if last.Some? && WithinBudget(o, o.rows[last.value].seqNo) then last else None
  {
    var last, fits := LastCheckpoint(o), NewestFitting(o);
    if fits.Some? {
      var row := o.rows[fits.value];
      assert row in o.rows && Checkpoint(o, row);
      assert last.Some? && fits.value <= last.value;
      FewerTokens(o.rows, row.seqNo, o.rows[last.value].seqNo);
      Cheaper(o, row.seqNo, o.rows[last.value].seqNo);
    } else if last.Some? {
      assert o.rows[last.value] in o.rows;
    }
  }

  lemma Cheaper(o: GcInput, a: int, b: int)
    requires Tokens(From(o.rows, b)) <= Tokens(From(o.rows, a)) && WithinBudget(o, a)
    ensures WithinBudget(o, b)
  {
    assert Tokens(From(o.rows, b)) as real <= Tokens(From(o.rows, a)) as real;
  }
}
