/** The result order of a query that ends in `ORDER BY <rank>, id`. */
module Ordering {
  predicate Before(rank: int -> int, a: int, b: int) {
    rank(a) < rank(b) || (rank(a) == rank(b) && a < b)
  }

  predicate IsLeast(ids: set<int>, rank: int -> int, m: int) {
    m in ids && forall x | x in ids :: x == m || Before(rank, m, x)
  }

  lemma NonEmpty(ids: set<int>)
    requires ids != {}
    ensures exists x: int :: x in ids
  {
    assert (forall x: int :: x !in ids) ==> ids == {};
  }

  lemma LeastExists(ids: set<int>, rank: int -> int)
    requires ids != {}
    ensures exists m :: IsLeast(ids, rank, m)
  {
    assert |ids| != 0;
    NonEmpty(ids);
    var x: int :| x in ids;
    var rest := ids - {x};
    assert forall y | y in ids :: y == x || y in rest;
    if rest == {} {
      assert IsLeast(ids, rank, x);
    } else {
      LeastExists(rest, rank);
      var m :| IsLeast(rest, rank, m);
      if Before(rank, x, m) {
        assert IsLeast(ids, rank, x);
      } else {
        assert IsLeast(ids, rank, m);
      }
    }
  }

  function Least(ids: set<int>, rank: int -> int): (m: int)
    requires ids != {}
    ensures IsLeast(ids, rank, m)
  {
    LeastExists(ids, rank);
    var m :| IsLeast(ids, rank, m);
    m
  }

  /** The rank of a query that orders by id alone. */
  function ById(id: int): int { 0 }

  /** Every id once, by rank and then by id. */
  function Ordered(ids: set<int>, rank: int -> int): (r: seq<int>)
    ensures forall x :: x in r <==> x in ids
    ensures forall i, j :: 0 <= i < j < |r| ==> Before(rank, r[i], r[j])
  {
    if ids == {} then [] else var m := Least(ids, rank); [m] + Ordered(ids - {m}, rank)
  }
}
