/** Admitting a Telegram send, and the attempts to deliver it. */
module SendTool {
  import opened Options
  import opened SendLimit

  datatype ErrorCode = RateLimited | Barrier | Telegram(code: int) | NetworkFailure | Aborted | Failed

  datatype Progress = Pending | Success(message: int) | Error(code: ErrorCode) | Unknown(code: ErrorCode)

  /** What one call to Telegram, or the wait after it, leads to. */
  datatype Attempt =
    | Accepted(message: int)
    | Refused(code: int)
    | TooMany(retryAfter: Option<int>, now: int, aborted: bool, held: bool)
    | Unreachable
    | Thrown(aborted: bool)

  /** A rate-limited attempt that is repeated: Telegram names a wait that ends before the deadline. */
  predicate Retried(a: Attempt, deadline: int) {
    a.TooMany? && a.retryAfter.Some? && a.now + a.retryAfter.value * 1000 < deadline && !a.aborted && !a.held
  }

  function Settled(a: Attempt, deadline: int): Progress {
    match a
    case Accepted(message) => Success(message)
    case Refused(code) => if code >= 500 then Unknown(Telegram(code)) else Error(Telegram(code))
    case TooMany(retryAfter, now, aborted, held) =>
      if retryAfter.None? || now + retryAfter.value * 1000 >= deadline then Error(Telegram(429))
      else if aborted then Error(Aborted)
      else Error(Barrier)
    case Unreachable => Unknown(NetworkFailure)
    case Thrown(aborted) => Error(if aborted then Aborted else Failed)
  }

  /**
   What is recorded of the last attempt: success exactly with the message Telegram returned; unknown exactly when the send may
   have arrived without an answer, after a server error or a broken connection; and an error, with its reason, otherwise.
   */
  lemma SettledMeans(a: Attempt, deadline: int)
    ensures Settled(a, deadline).Success? <==> a.Accepted?
    ensures a.Accepted? ==> Settled(a, deadline) == Success(a.message)
    ensures Settled(a, deadline).Unknown? <==> a.Unreachable? || (a.Refused? && a.code >= 500)
    ensures Settled(a, deadline) != Pending
    ensures a.Refused? ==> Settled(a, deadline).code == Telegram(a.code)
    ensures a.TooMany? && !Retried(a, deadline) ==>
              Settled(a, deadline) == Error(
                if a.retryAfter.None? || a.now + a.retryAfter.value * 1000 >= deadline then Telegram(429)
                else if a.aborted then Aborted else Barrier)
  {
  }

  /** An attempt is repeated only when Telegram asked to wait, the wait ends in time, and nothing stops it meanwhile. */
  lemma RetriedMeans(a: Attempt, deadline: int)
    ensures Retried(a, deadline) ==> a.TooMany? && a.retryAfter.Some?
    ensures Retried(a, deadline) ==> !a.aborted && !a.held && a.now + a.retryAfter.value * 1000 < deadline
    ensures a.TooMany? && a.retryAfter.Some? && !Retried(a, deadline) ==>
              a.aborted || a.held || a.now + a.retryAfter.value * 1000 >= deadline
  {
  }

  /** A row of `telegram_sends` and the tool call it was admitted for. */
  datatype Row = Row(send: Send, tool: nat, progress: Progress)

  function Used(sendsUsed: map<nat, nat>, invocation: nat): nat {
    if invocation in sendsUsed then sendsUsed[invocation] else 0
  }

  ghost predicate Consistent(rows: map<nat, Row>, history: seq<Send>, calls: set<nat>, rowOf: map<nat, nat>) {
    forall id | id in rows ::
      && id < |history| && rows[id].send == history[id]
      && rows[id].tool in calls && rows[id].tool in rowOf && rowOf[rows[id].tool] == id
  }

  lemma ConsistentAfter(rows: map<nat, Row>, history: seq<Send>, calls: set<nat>, rowOf: map<nat, nat>, row: Row)
    requires Consistent(rows, history, calls, rowOf) && row.tool !in calls
    ensures Consistent(rows, history, calls + {row.tool}, rowOf)
    ensures Consistent(rows[|history| := row], history + [row.send], calls + {row.tool}, rowOf[row.tool := |history|])
  {
  }

  class SendStore {
    var rows: map<nat, Row>
    var toolCalls: map<nat, Progress>
    var sendsUsed: map<nat, nat>
    var clock: int
    ghost var history: seq<Send>
    ghost var rowOf: map<nat, nat>

    /** The rows are those of the history that were not purged; each was admitted for its own tool call. */
    ghost predicate Valid()
      reads this
    {
      Consistent(rows, history, toolCalls.Keys, rowOf)
    }

    ghost function Abstract(): State
      reads this
    {
      State(history, rows.Keys, clock)
    }

    constructor ()
      ensures Valid() && Abstract() == START
      ensures rows == map[] && toolCalls == map[] && sendsUsed == map[]
    {
      rows, toolCalls, sendsUsed := map[], map[], map[];
      clock, history, rowOf := 0, [], map[];
    }

    /** The count over the table is that over the live rows of the history. */
    method RecentSendCount(chat: int, limit: Limit, now: int) returns (count: nat)
      requires Valid()
      ensures count == |Recent(Abstract(), chat, now - limit.window)|
    {
      var recent := set id | id in rows && rows[id].send.conversation.chat == chat
                             && rows[id].send.created >= now - limit.window;
      assert recent == Recent(Abstract(), chat, now - limit.window);
      count := |recent|;
    }

    /**
     The admission transaction. `tool` and `row` are the keys the tables give out: new ones; a row key is never given
     out twice.
     */
    method AdmitSend(tool: nat, row: nat, invocation: nat, conversation: Conversation, created: int, counted: int,
                     limit: Limit) returns (admitted: bool)
      requires Valid() && clock <= created <= counted
      requires tool !in toolCalls && row == |history|
      modifies this
      ensures Valid() && Abstract() == Next(old(Abstract()), Admit(conversation, created, counted, limit))
      ensures admitted <==> Admitted(old(Abstract()), limit, conversation.chat, counted)
      ensures admitted ==> toolCalls == old(toolCalls)[tool := Pending]
      ensures !admitted ==> toolCalls == old(toolCalls)[tool := Error(RateLimited)]
      ensures !admitted ==> rows == old(rows) && sendsUsed == old(sendsUsed)
      ensures admitted ==> rows == old(rows)[row := Row(Send(conversation, created, limit), tool, Pending)]
      ensures admitted ==> sendsUsed == old(sendsUsed)[invocation := 1 + Used(old(sendsUsed), invocation)]
    {
      hide Consistent, Recent;
      ConsistentAfter(rows, history, toolCalls.Keys, rowOf, Row(Send(conversation, created, limit), tool, Pending));
      toolCalls := toolCalls[tool := Pending];
      assert toolCalls.Keys == old(toolCalls.Keys) + {tool};
      var count := RecentSendCount(conversation.chat, limit, counted);
      clock := counted;
      if count >= limit.sends {
        toolCalls := toolCalls[tool := Error(RateLimited)];
        assert toolCalls.Keys == old(toolCalls.Keys) + {tool};
        admitted := false;
      } else {
        sendsUsed := sendsUsed[invocation := 1 + Used(sendsUsed, invocation)];
        rows := rows[row := Row(Send(conversation, created, limit), tool, Pending)];
        history := history + [Send(conversation, created, limit)];
        rowOf := rowOf[tool := row];
        admitted := true;
      }
    }

    /**
     The attempts to deliver one admitted send, and the record of the outcome. The list may end without one: the
     process stopped, and the rows stay pending.
     */
    method Deliver(row: nat, attempts: seq<Attempt>, deadline: int) returns (tries: nat)
      requires Valid() && row in rows && rows[row].progress == Pending && toolCalls[rows[row].tool] == Pending
      modifies this
      ensures Valid() && Abstract() == old(Abstract()) && sendsUsed == old(sendsUsed)
      ensures tries <= |attempts| && forall i | 0 <= i < tries - 1 :: Retried(attempts[i], deadline)
      ensures tries == 0 || Retried(attempts[tries - 1], deadline) ==>
                tries == |attempts| && rows == old(rows) && toolCalls == old(toolCalls)
      ensures tries > 0 && !Retried(attempts[tries - 1], deadline) ==>
                var outcome := Settled(attempts[tries - 1], deadline);
                && rows == old(rows)[row := old(rows[row]).(progress := outcome)]
                && toolCalls == old(toolCalls)[old(rows[row]).tool := outcome]
    {
      tries := 0;
      while tries < |attempts|
        invariant tries <= |attempts| && forall i | 0 <= i < tries :: Retried(attempts[i], deadline)
        invariant Valid() && Abstract() == old(Abstract()) && sendsUsed == old(sendsUsed)
        invariant rows == old(rows) && toolCalls == old(toolCalls)
      {
        var attempt := attempts[tries];
        tries := tries + 1;
        if !Retried(attempt, deadline) {
          var outcome := Settled(attempt, deadline);
          toolCalls := toolCalls[rows[row].tool := outcome];
          rows := rows[row := rows[row].(progress := outcome)];
          assert rows.Keys == old(rows.Keys);
          return;
        }
      }
    }

    /** The retention purge removes the rows of old finished invocations. */
    method PurgeSends(now: int, retention: nat, gone: set<nat>)
      requires Valid() && clock <= now && gone <= rows.Keys
      modifies this
      ensures Valid() && Abstract() == Next(old(Abstract()), Purge(now, retention, gone))
      ensures rows == old(rows) - gone && toolCalls == old(toolCalls) && sendsUsed == old(sendsUsed)
    {
      rows := rows - gone;
      clock := now;
    }
  }
}
