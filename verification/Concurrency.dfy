/** A counting semaphore with ordered waiters, and one semaphore per key that exists only while it is used. */
module Concurrency {
  import opened Sets

  /** `ticket` names the call that waits. */
  datatype Waiter = Waiter(ticket: int, priority: int, sequence: nat)

  datatype Outcome = Rejected | Granted | Queued

  predicate Before(a: Waiter, b: Waiter) {
    a.priority < b.priority || (a.priority == b.priority && a.sequence < b.sequence)
  }

  predicate Sorted(ws: seq<Waiter>) { forall i, j | 0 <= i < j < |ws| :: Before(ws[i], ws[j]) }

  predicate Distinct(ws: seq<Waiter>) { forall i, j | 0 <= i < j < |ws| :: ws[i].ticket != ws[j].ticket }

  function Tickets(ws: seq<Waiter>): set<int> { set w | w in ws :: w.ticket }

  /** Where a waiter goes in a sorted queue. */
  function Insert(ws: seq<Waiter>, w: Waiter): seq<Waiter> {
    if ws == [] then [w] else if Before(w, ws[0]) then [w] + ws else [ws[0]] + Insert(ws[1..], w)
  }

  lemma {:induction false} InsertKeeps(ws: seq<Waiter>, w: Waiter)
    requires Sorted(ws) && forall v | v in ws :: v.sequence < w.sequence
    ensures Sorted(Insert(ws, w)) && forall v :: v in Insert(ws, w) <==> v in ws || v == w
    ensures |Insert(ws, w)| == |ws| + 1
    decreases ws
  {
    if ws != [] && !Before(w, ws[0]) {
      assert ws == [ws[0]] + ws[1..];
      InsertKeeps(ws[1..], w);
      var rest := Insert(ws[1..], w);
      forall v | v in rest ensures Before(ws[0], v) {
        if v != w {
          var k :| 0 <= k < |ws| - 1 && ws[1..][k] == v;
          assert ws[k + 1] == v;
        }
      }
      forall i, j | 0 <= i < j < |rest| + 1 ensures Before(([ws[0]] + rest)[i], ([ws[0]] + rest)[j]) {
        if i == 0 { assert rest[j - 1] in rest; }
      }
    }
  }

  lemma {:induction false} InsertDistinct(ws: seq<Waiter>, w: Waiter)
    requires Distinct(ws) && w.ticket !in Tickets(ws)
    ensures Distinct(Insert(ws, w)) && Tickets(Insert(ws, w)) == Tickets(ws) + {w.ticket}
    decreases ws
  {
    if ws != [] && !Before(w, ws[0]) {
      assert ws == [ws[0]] + ws[1..];
      InsertDistinct(ws[1..], w);
      var rest := Insert(ws[1..], w);
      forall v | v in ws[1..] ensures v.ticket != ws[0].ticket {
        var k :| 0 <= k < |ws| - 1 && ws[1..][k] == v;
        assert ws[k + 1] == v;
      }
      forall v | v in rest ensures v.ticket != ws[0].ticket {
        assert v.ticket in Tickets(rest);
      }
    } else {
      assert forall v | v in ws :: v.ticket in Tickets(ws);
    }
  }

  /** The queue after the waiters in front whose calls were aborted are gone. */
  function Waiting(ws: seq<Waiter>, aborted: set<int>): seq<Waiter> {
    if ws != [] && ws[0].ticket in aborted then Waiting(ws[1..], aborted) else ws
  }

  lemma {:induction false} WaitingKeeps(ws: seq<Waiter>, aborted: set<int>)
    requires Sorted(ws) && Distinct(ws)
    ensures var r := Waiting(ws, aborted);
            && Sorted(r) && Distinct(r) && (forall w | w in r :: w in ws)
            && (forall w | w in ws && w.ticket !in aborted :: w in r)
            && (r != [] ==> r[0].ticket !in aborted
                            && forall w | w in ws && w.ticket !in aborted && w != r[0] :: Before(r[0], w))
    decreases ws
  {
    if ws != [] && ws[0].ticket in aborted {
      assert ws == [ws[0]] + ws[1..];
      WaitingKeeps(ws[1..], aborted);
    } else if ws != [] {
      forall w | w in ws && w != ws[0] ensures Before(ws[0], w) {
        var k :| 0 <= k < |ws| && ws[k] == w;
      }
    }
  }

  class AsyncSemaphore {
    const limit: nat
    var waiters: seq<Waiter>
    var active: nat
    var sequence: nat
    /** The calls that hold a permit, each until it releases. */
    ghost var holders: set<int>

    constructor (limit: nat)
      requires limit >= 1
      ensures this.limit == limit && Valid() && waiters == [] && holders == {}
    {
      this.limit := limit;
      waiters, active, sequence, holders := [], 0, 0, {};
    }

    /** Permits in use are exactly the holders; waiters exist only when all are in use, and stand in order. */
    ghost predicate Valid()
      reads this
    {
      && limit >= 1 && active == |holders| && active <= limit
      && (waiters != [] ==> active == limit)
      && Sorted(waiters) && Distinct(waiters) && (forall w | w in waiters :: w.sequence < sequence)
      && Tickets(waiters) !! holders
    }

    predicate Idle()
      reads this
    {
      active == 0 && waiters == []
    }

    method Acquire(ticket: int, aborted: bool, priority: int) returns (outcome: Outcome)
      requires Valid() && ticket !in holders && ticket !in Tickets(waiters)
      modifies this
      ensures Valid()
      ensures outcome == if aborted then Rejected else if old(active) < limit then Granted else Queued
      ensures holders == if outcome == Granted then old(holders) + {ticket} else old(holders)
      ensures waiters == if outcome == Queued then Insert(old(waiters), Waiter(ticket, priority, old(sequence))) else old(waiters)
    {
      if aborted {
        return Rejected;
      }
      if active < limit {
        active := active + 1;
        holders := holders + {ticket};
        return Granted;
      }
      var w := Waiter(ticket, priority, sequence);
      InsertKeeps(waiters, w);
      InsertDistinct(waiters, w);
      waiters := Insert(waiters, w);
      sequence := sequence + 1;
      return Queued;
    }

    /** The abort of a waiting call: it leaves the queue, and no permit moves. */
    method Abort(ticket: int) returns (idle: bool)
      requires Valid()
      modifies this`waiters
      ensures Valid() && idle == Idle()
      ensures Tickets(waiters) == Tickets(old(waiters)) - {ticket}
      ensures forall w :: w in waiters <==> w in old(waiters) && w.ticket != ticket
    {
      var k := 0;
      while k < |waiters| && waiters[k].ticket != ticket
        invariant k <= |waiters| && forall i | 0 <= i < k :: waiters[i].ticket != ticket
      {
        k := k + 1;
      }
      if k < |waiters| {
        ghost var before := waiters;
        RemoveAt(waiters, k);
        waiters := waiters[..k] + waiters[k + 1..];
      }
      idle := active == 0 && waiters == [];
    }

    /** Hands the permit to the first waiter that still waits, or gives it back. */
    method Release(ticket: int, aborted: set<int>) returns (idle: bool)
      requires Valid() && ticket in holders
      modifies this`waiters, this`active, this`holders
      ensures Valid()
      ensures var rest := Waiting(old(waiters), aborted);
              if rest == [] then holders == old(holders) - {ticket} && waiters == [] && idle == Idle()
              else holders == old(holders) - {ticket} + {rest[0].ticket} && waiters == rest[1..]
                   && active == old(active) && !idle
    {
      WaitingKeeps(waiters, aborted);
      ghost var before := waiters;
      while waiters != []
        invariant Waiting(waiters, aborted) == Waiting(before, aborted)
        invariant forall w | w in waiters :: w in before
        invariant holders == old(holders) && active == old(active)
        decreases |waiters|
      {
        var w := waiters[0];
        assert waiters == [w] + waiters[1..];
        waiters := waiters[1..];
        if w.ticket in aborted {
          continue;
        }
        ghost var rest := Waiting(before, aborted);
        assert rest == [w] + waiters;
        assert w.ticket in Tickets(before);
        HandOff(rest, before, holders, ticket);
        holders := holders - {ticket} + {w.ticket};
        return false;
      }
      active := active - 1;
      holders := holders - {ticket};
      idle := active == 0;
    }
  }

  lemma RemoveAt(ws: seq<Waiter>, k: nat)
    requires k < |ws| && Sorted(ws) && Distinct(ws)
    ensures var r := ws[..k] + ws[k + 1..];
            && Sorted(r) && Distinct(r)
            && (forall w :: w in r <==> w in ws && w.ticket != ws[k].ticket)
            && Tickets(r) == Tickets(ws) - {ws[k].ticket}
  {
    RemoveMembers(ws, k);
    var r := ws[..k] + ws[k + 1..];
    forall i, j | 0 <= i < j < |r| ensures Before(r[i], r[j]) && r[i].ticket != r[j].ticket {
      var x, y := if i < k then i else i + 1, if j < k then j else j + 1;
      assert ws[x] == r[i] && ws[y] == r[j];
      assert Before(ws[x], ws[y]);
    }
    hide Sorted, Distinct, Before;
  }

  lemma RemoveMembers(ws: seq<Waiter>, k: nat)
    requires k < |ws| && Distinct(ws)
    ensures forall w :: w in ws[..k] + ws[k + 1..] <==> w in ws && w.ticket != ws[k].ticket
  {
    var r := ws[..k] + ws[k + 1..];
    forall w ensures w in r <==> w in ws && w.ticket != ws[k].ticket {
      if w in ws && w.ticket != ws[k].ticket {
        var i :| 0 <= i < |ws| && ws[i] == w;
        assert if i < k then r[i] == w else r[i - 1] == w;
      }
      if w in r {
        var i :| 0 <= i < |r| && r[i] == w;
        assert w == if i < k then ws[i] else ws[i + 1];
      }
    }
  }

  lemma HandOff(rest: seq<Waiter>, before: seq<Waiter>, holders: set<int>, ticket: int)
    requires Sorted(rest) && Distinct(rest) && rest != [] && (forall w | w in rest :: w in before)
    requires Tickets(before) !! holders && ticket in holders
    ensures |holders - {ticket} + {rest[0].ticket}| == |holders|
    ensures Tickets(rest[1..]) !! holders - {ticket} + {rest[0].ticket}
    ensures Sorted(rest[1..]) && Distinct(rest[1..])
  {
    assert rest[0] in rest && rest[0].ticket in Tickets(before);
    forall w | w in rest[1..] ensures w in before && w.ticket != rest[0].ticket {
      var k :| 0 <= k < |rest| - 1 && rest[1..][k] == w;
      assert rest[k + 1] == w;
    }
  }

  /**
   The waiter a release hands the permit to comes before every other that still waits, by priority and
   then by arrival.
   */
  lemma GrantsInOrder(ws: seq<Waiter>, aborted: set<int>)
    requires Sorted(ws) && Distinct(ws) && Waiting(ws, aborted) != []
    ensures var w := Waiting(ws, aborted)[0];
            w in ws && w.ticket !in aborted && forall v | v in ws && v.ticket !in aborted && v != w :: Before(w, v)
  {
    WaitingKeeps(ws, aborted);
    assert Waiting(ws, aborted)[0] in Waiting(ws, aborted);
  }

  class KeyedSemaphore {
    var semaphores: map<string, AsyncSemaphore>
    /** Every semaphore ever made, with the key it was made for. */
    ghost var made: map<AsyncSemaphore, string>
    /** The keys whose semaphore was made for a call that came too late, and that no other call has used since. */
    ghost var refused: set<string>

    ghost predicate Valid()
      reads this, made.Keys
    {
      && (forall s | s in made :: s.Valid() && s.limit == 1)
      && (forall key | key in semaphores :: semaphores[key] in made && made[semaphores[key]] == key)
      && (forall s | s in made :: Current(s) || Idle(s))
      && refused <= semaphores.Keys && (forall key | key in semaphores :: key in refused <==> Idle(semaphores[key]))
    }

    ghost predicate Idle(s: AsyncSemaphore)
      reads s
    {
      s.holders == {} && s.waiters == []
    }

    /** The semaphore the map still has for its key. */
    ghost predicate Current(s: AsyncSemaphore)
      reads this
      requires s in made
    {
      made[s] in semaphores && semaphores[made[s]] == s
    }

    ghost predicate Holds(key: string, s: AsyncSemaphore, ticket: int)
      reads this, made.Keys
    {
      s in made && made[s] == key && ticket in s.holders
    }

    constructor ()
      ensures Valid() && semaphores == map[] && made == map[] && refused == {}
    {
      semaphores, made, refused := map[], map[], {};
    }

    /** At most one call holds a key, however often its semaphore was dropped and made again. */
    lemma OneHolder(key: string, s: AsyncSemaphore, a: int, t: AsyncSemaphore, b: int)
      requires Valid() && Holds(key, s, a) && Holds(key, t, b)
      ensures s == t && a == b
    {
      assert Current(s) && Current(t);
      assert |s.holders| <= 1;
      if a != b {
        assert |{a, b}| == 2;
        SubsetSize({a, b}, s.holders);
      }
    }

    /** A key keeps an idle semaphore exactly when every call since that was made came too late. */
    lemma IdleMeans(key: string)
      requires Valid()
      ensures key in semaphores && Idle(semaphores[key]) <==> key in refused
    {
    }

    /** The semaphore of a key, made when the map has none. */
    method SemaphoreOf(key: string) returns (s: AsyncSemaphore)
      requires Valid()
      modifies this
      ensures Valid() && s in made && made[s] == key && Current(s)
      ensures key in old(semaphores) ==>
                s in old(made) && s == old(semaphores)[key] && made == old(made) && refused == old(refused)
      ensures key !in old(semaphores) ==>
                fresh(s) && Idle(s) && made == old(made)[s := key] && refused == old(refused) + {key}
    {
      hide Sorted, Distinct, Tickets, AsyncSemaphore.Valid;
      if key in semaphores {
        return semaphores[key];
      }
      s := new AsyncSemaphore(1);
      Register(key, s);
    }

    method Register(key: string, s: AsyncSemaphore)
      requires Valid() && key !in semaphores && s !in made && s.Valid() && s.limit == 1 && Idle(s)
      modifies this
      ensures Valid() && made == old(made)[s := key] && refused == old(refused) + {key}
      ensures semaphores == old(semaphores)[key := s]
    {
      hide Sorted, Distinct, Tickets, AsyncSemaphore.Valid;
      semaphores := semaphores[key := s];
      made := made[s := key];
      refused := refused + {key};
    }

    method Acquire(key: string, ticket: int, aborted: bool) returns (s: AsyncSemaphore, outcome: Outcome)
      requires Valid()
      requires key in semaphores ==> ticket !in semaphores[key].holders && ticket !in Tickets(semaphores[key].waiters)
      modifies this, made.Keys
      ensures Valid() && s in made && made[s] == key && Current(s)
      ensures forall t | t in old(made) :: t in made && made[t] == old(made)[t]
      ensures key in old(semaphores) ==> s == old(semaphores)[key]
      ensures outcome == Rejected <==> aborted
      ensures outcome == Granted <==> !aborted && (key !in old(semaphores) || old(semaphores[key].holders) == {})
      ensures refused == if aborted && (key in old(semaphores) ==> key in old(refused)) then old(refused) + {key}
                         else old(refused) - {key}
      ensures outcome == Granted ==> s.holders == {ticket}
      ensures forall t | t in old(made) && t != s :: t.holders == old(t.holders) && t.waiters == old(t.waiters)
    {
      hide Sorted, Distinct, Tickets, Valid, AsyncSemaphore.Valid;
      NoTickets();
      s := SemaphoreOf(key);
      outcome := Take(s, ticket, aborted);
    }

    method Take(s: AsyncSemaphore, ticket: int, aborted: bool) returns (outcome: Outcome)
      requires Valid() && s in made && Current(s) && ticket !in s.holders && ticket !in Tickets(s.waiters)
      modifies s, this`refused
      ensures Valid() && Current(s)
      ensures outcome == Rejected <==> aborted
      ensures refused == if aborted then old(refused) else old(refused) - {made[s]}
      ensures outcome == Granted <==> !aborted && old(s.holders) == {}
      ensures outcome == Granted ==> s.holders == {ticket}
    {
      hide Sorted, Distinct, Tickets;
      Single(s.holders);
      outcome := s.Acquire(ticket, aborted, 0);
      if !aborted { refused := refused - {made[s]}; }
    }

    /** A release that leaves nothing behind drops the semaphore from the map, if the map still has it. */
    method Release(key: string, s: AsyncSemaphore, ticket: int, aborted: set<int>)
      requires Valid() && s in made && made[s] == key && ticket in s.holders
      modifies this`semaphores, this`refused, s
      ensures Valid() && made == old(made) && refused == old(refused)
      ensures ticket in s.holders ==> ticket in Tickets(old(s.waiters))
      ensures Idle(s) <==> key !in semaphores
      ensures forall k | k != key :: k in semaphores <==> k in old(semaphores)
    {
      assert Current(s);
      var idle := s.Release(ticket, aborted);
      WaitingTickets(old(s.waiters), aborted);
      Single(old(s.holders));
      Drop(key, s, idle);
    }

    /** The abort of a waiting call may leave the semaphore idle as well. */
    method Abort(key: string, s: AsyncSemaphore, ticket: int)
      requires Valid() && s in made && made[s] == key
      modifies this`semaphores, this`refused, s`waiters
      ensures Valid() && made == old(made) && s.holders == old(s.holders)
      ensures refused == if old(Current(s) && Idle(s)) then old(refused) - {key} else old(refused)
      ensures ticket !in Tickets(s.waiters)
    {
      var idle := s.Abort(ticket);
      Drop(key, s, idle);
    }

    /** The callback of an idle semaphore: it may have been replaced under its key since. */
    method Drop(key: string, s: AsyncSemaphore, idle: bool)
      requires s in made && made[s] == key && (forall t | t in made :: t.Valid() && t.limit == 1)
      requires forall k | k in semaphores :: semaphores[k] in made && made[semaphores[k]] == k
      requires forall t | t in made && t != s :: Current(t) || Idle(t)
      requires !idle ==> Current(s) || Idle(s)
      requires idle ==> Idle(s)
      requires refused <= semaphores.Keys
      requires forall k | k in semaphores && (semaphores[k] != s || !idle) :: k in refused <==> Idle(semaphores[k])
      modifies this`semaphores, this`refused
      ensures Valid() && made == old(made)
      ensures refused == if idle && old(Current(s)) then old(refused) - {key} else old(refused)
      ensures idle && old(Current(s)) ==> key !in semaphores
      ensures !idle ==> semaphores == old(semaphores)
      ensures forall k | k != key :: k in semaphores <==> k in old(semaphores)
    {
      hide AsyncSemaphore.Valid;
      if idle && key in semaphores && semaphores[key] == s {
        semaphores := semaphores - {key};
        refused := refused - {key};
      }
    }
  }

  lemma NoTickets()
    ensures Tickets([]) == {}
  {
  }

  lemma Single(s: set<int>)
    requires |s| <= 1
    ensures forall x | x in s :: s == {x}
  {
    forall x | x in s ensures s == {x} {
      assert |s - {x}| == 0;
    }
  }

  lemma {:induction false} WaitingTickets(ws: seq<Waiter>, aborted: set<int>)
    ensures Tickets(Waiting(ws, aborted)) <= Tickets(ws)
    decreases ws
  {
    if ws != [] && ws[0].ticket in aborted { WaitingTickets(ws[1..], aborted); }
  }
}
