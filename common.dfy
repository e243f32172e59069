/** Value types and facts about sequences of day numbers shared by every module. */
module Common {

  /** A value that may be absent (`null`/`undefined` in the application). */
  datatype Option<T> = None | Some(value: T)

  function GetOr<T>(o: Option<T>, default: T): T
  {
    match o
    case Some(v) => v
    case None => default
  }

  function Min(a: int, b: int): int { if a <= b then a else b }
  function Max(a: int, b: int): int { if a >= b then a else b }

  /** No element occurs twice: a list used as a set. */
  ghost predicate NoDup<T>(s: seq<T>)
  {
    forall i, j :: 0 <= i < j < |s| ==> s[i] != s[j]
  }

  /** The whole numbers of `[lo, hi]`. */
  ghost function RangeSet(lo: int, hi: int): (r: set<int>)
    ensures forall x :: x in r <==> lo <= x <= hi
    decreases hi - lo
  {
    if lo > hi then {} else {lo} + RangeSet(lo + 1, hi)
  }

  /** The distinct elements of `s` that lie in `[lo, hi]`. */
  ghost function InRangeSet(s: seq<int>, lo: int, hi: int): set<int>
  {
    set x | x in s && lo <= x <= hi
  }

  lemma {:induction false} RangeSetSize(lo: int, hi: int)
    requires lo <= hi + 1
    ensures |RangeSet(lo, hi)| == hi - lo + 1
    decreases hi - lo
  {
    if lo <= hi {
      RangeSetSize(lo + 1, hi);
      assert lo !in RangeSet(lo + 1, hi);
    }
  }

  lemma SubsetSize(a: set<int>, b: set<int>)
    requires a <= b
    ensures |a| <= |b|
    ensures |a| == |b| ==> a == b
  {
    assert b == a + (b - a);
  }

  /**
   * How many entries of `s` lie in `[lo, hi]`, counted with repetition:
   * `s.filter(d => d >= lo && d <= hi).length`.
   */
  function CountInRange(s: seq<int>, lo: int, hi: int): (n: nat)
    ensures n <= |s|
    ensures n == 0 <==> forall k :: 0 <= k < |s| ==> !(lo <= s[k] <= hi)
  {
    if s == [] then 0
    else CountInRange(s[..|s| - 1], lo, hi) + (if lo <= s[|s| - 1] <= hi then 1 else 0)
  }

  lemma NoDupInit(s: seq<int>)
    requires NoDup(s) && s != []
    ensures NoDup(s[..|s| - 1]) && s[|s| - 1] !in s[..|s| - 1]
  {
    var init := s[..|s| - 1];
    assert forall i :: 0 <= i < |init| ==> init[i] == s[i];
  }

  /** Counting a list with no repeats counts the set of its in-range elements. */
  lemma {:induction false} CountIsSetSize(s: seq<int>, lo: int, hi: int)
    ensures CountInRange(s, lo, hi) >= |InRangeSet(s, lo, hi)|
    ensures NoDup(s) ==> CountInRange(s, lo, hi) == |InRangeSet(s, lo, hi)|
  {
    if s == [] {
      assert InRangeSet(s, lo, hi) == {};
    } else {
      var init, last := s[..|s| - 1], s[|s| - 1];
      assert s == init + [last];
      CountIsSetSize(init, lo, hi);
      if NoDup(s) {
        NoDupInit(s);
      }
      if lo <= last <= hi {
        assert InRangeSet(s, lo, hi) == InRangeSet(init, lo, hi) + {last};
      } else {
        assert InRangeSet(s, lo, hi) == InRangeSet(init, lo, hi);
      }
    }
  }

  /**
   * For a list with no repeats, the in-range count never exceeds the size of the
   * range, and reaches it exactly when every day of the range is in the list.
   */
  lemma CountCoversRange(s: seq<int>, lo: int, hi: int)
    requires NoDup(s)
    requires lo <= hi + 1
    ensures CountInRange(s, lo, hi) <= hi - lo + 1
    ensures CountInRange(s, lo, hi) == hi - lo + 1 <==> forall x :: lo <= x <= hi ==> x in s
  {
    CountIsSetSize(s, lo, hi);
    RangeSetSize(lo, hi);
    SubsetSize(InRangeSet(s, lo, hi), RangeSet(lo, hi));
    if forall x :: lo <= x <= hi ==> x in s {
      assert InRangeSet(s, lo, hi) == RangeSet(lo, hi);
    }
    if CountInRange(s, lo, hi) == hi - lo + 1 {
      forall x | lo <= x <= hi ensures x in s {
        assert x in RangeSet(lo, hi);
      }
    }
  }

  /** Appending one element adds one to the count exactly when it is in range. */
  lemma CountAppend(s: seq<int>, d: int, lo: int, hi: int)
    ensures CountInRange(s + [d], lo, hi) == CountInRange(s, lo, hi) + (if lo <= d <= hi then 1 else 0)
  {
    assert (s + [d])[..|s + [d]| - 1] == s;
  }

  /** `r` keeps some of the elements of `s`, in the same order. */
  ghost predicate Subsequence<T>(r: seq<T>, s: seq<T>)
    decreases |s|
  {
    r == [] || (s != [] && ((r[0] == s[0] && Subsequence(r[1..], s[1..])) || Subsequence(r, s[1..])))
  }

  /** `queue.filter(x => x !== d)`: every occurrence of `d` removed, order kept. */
  function RemoveAll(q: seq<int>, d: int): (r: seq<int>)
    ensures |r| <= |q|
    ensures forall x :: x in r <==> x in q && x != d
  {
    if q == [] then []
    else (if q[0] == d then [] else [q[0]]) + RemoveAll(q[1..], d)
  }

  /** Removing a value that is not queued leaves the queue as it was. */
  lemma {:induction false} RemoveAbsent(q: seq<int>, d: int)
    requires d !in q
    ensures RemoveAll(q, d) == q
  {
    if q != [] {
      assert d !in q[1..];
      RemoveAbsent(q[1..], d);
    }
  }
}
