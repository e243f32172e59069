/**
 * The catch-up queue kept in storage (`priesthood.catchUpQueue` and
 * `priesthood.catchUpMode`): filled when the user chooses Catch Up after a
 * gap, and consumed one saved reflection at a time by the path page and the
 * dashboard.
 */
module CatchUp {
  import opened Common

  /** Day numbers in non-decreasing order. */
  predicate Ascending(q: seq<int>)
  {
    forall i, j :: 0 <= i < j < |q| ==> q[i] <= q[j]
  }

  class CatchUpStore {
    var queue: seq<int>
    var mode: bool

    /** Nothing stored: an empty queue, catch-up mode off. */
    constructor ()
      ensures queue == [] && !mode
    {
      queue := [];
      mode := false;
    }

    /** Catch Up: the queue is replaced and catch-up mode is switched on. */
    method Start(q: seq<int>)
      modifies this
      ensures queue == q && mode
    {
      queue := q;
      mode := true;
    }

    /**
     * A reflection for `day` was saved: the day leaves the queue, catch-up
     * mode ends once the queue is empty (and is otherwise left alone), and
     * the day to open next, if any, is the head of what remains.
     */
    method Consume(day: int) returns (next: Option<int>)
      modifies this
      ensures queue == RemoveAll(old(queue), day)
      ensures mode == (old(mode) && queue != [])
      ensures next.None? <==> queue == []
      ensures next.Some? ==> next.value == queue[0] && next.value != day && next.value in old(queue)
    {
      queue := RemoveAll(queue, day);
      if queue == [] {
        mode := false;
        next := None;
      } else {
        assert queue[0] in queue;
        next := Some(queue[0]);
      }
    }
  }

  /** Consuming a queued day makes the queue strictly shorter, so a catch-up session ends. */
  lemma {:induction false} RemoveAllShrinks(q: seq<int>, d: int)
    requires d in q
    ensures |RemoveAll(q, d)| < |q|
  {
    if q[0] != d {
      assert d in q[1..];
      RemoveAllShrinks(q[1..], d);
    }
  }

  /** Removing a day keeps the queue in order, so the next day opened is the earliest one left. */
  lemma {:induction false} RemoveAllAscending(q: seq<int>, d: int)
    requires Ascending(q)
    ensures Ascending(RemoveAll(q, d))
    ensures RemoveAll(q, d) != [] ==> forall x :: x in RemoveAll(q, d) ==> RemoveAll(q, d)[0] <= x
  {
    if q != [] {
      RemoveAllAscending(q[1..], d);
      var rest := RemoveAll(q[1..], d);
      assert forall x :: x in rest ==> q[0] <= x by {
        forall x | x in rest ensures q[0] <= x {
          var k :| 0 <= k < |q[1..]| && q[1..][k] == x;
          assert q[k + 1] == x;
        }
      }
      var r := RemoveAll(q, d);
      assert r == (if q[0] == d then [] else [q[0]]) + rest;
      forall i, j | 0 <= i < j < |r| ensures r[i] <= r[j] {
        if q[0] != d && i == 0 {
          assert r[j] in rest;
        } else if q[0] != d {
          assert r[i] == rest[i - 1] && r[j] == rest[j - 1];
        }
      }
      forall x | x in r ensures r[0] <= x {
        var k :| 0 <= k < |r| && r[k] == x;
        if k > 0 {
          assert r[0] <= r[k];
        }
      }
    }
  }
}
