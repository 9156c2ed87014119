/**
 * `Array.prototype.filter` over sequences: the kept elements, in their order.
 * The history deletes, the severity counts and the finding groups all use it.
 */
module Filters {

  /** The elements of `s` that satisfy `keep`, in their order in `s`. */
  function Filter<T(!new)>(s: seq<T>, keep: T -> bool): (r: seq<T>)
    ensures |r| <= |s|
    ensures forall x :: x in r <==> x in s && keep(x)
  {
    if |s| == 0 then []
    else
      var front := Filter(s[..|s| - 1], keep);
      var x := s[|s| - 1];
      assert s == s[..|s| - 1] + [x];
      if keep(x) then front + [x] else front
  }

  /** The number of elements of `s` that satisfy `keep`, counted one by one. */
  function Count<T>(s: seq<T>, keep: T -> bool): nat {
    if |s| == 0 then 0
    else (if keep(s[0]) then 1 else 0) + Count(s[1..], keep)
  }

  /** Filtering a concatenation filters each part: the kept elements keep their relative order. */
  lemma {:induction false} FilterConcat<T(!new)>(a: seq<T>, b: seq<T>, keep: T -> bool)
    ensures Filter(a + b, keep) == Filter(a, keep) + Filter(b, keep)
    decreases |b|
  {
    if |b| > 0 {
      var front := b[..|b| - 1];
      var x := b[|b| - 1];
      assert (a + b)[..|a + b| - 1] == a + front;
      assert (a + b)[|a + b| - 1] == x;
      FilterConcat(a, front, keep);
      if keep(x) {
        assert Filter(a + b, keep) == Filter(a, keep) + Filter(front, keep) + [x];
      }
    } else {
      assert a + b == a;
    }
  }

  /** Filtering one element keeps it exactly when it satisfies `keep`. */
  lemma FilterSingle<T(!new)>(x: T, keep: T -> bool)
    ensures Filter([x], keep) == if keep(x) then [x] else []
  {
    assert [x][..0] == [];
  }

  /** The filter keeps exactly as many elements as `Count` counts. */
  lemma {:induction false} FilterLength<T(!new)>(s: seq<T>, keep: T -> bool)
    ensures |Filter(s, keep)| == Count(s, keep)
    decreases |s|
  {
    if |s| > 0 {
      assert s == [s[0]] + s[1..];
      FilterConcat([s[0]], s[1..], keep);
      FilterSingle(s[0], keep);
      FilterLength(s[1..], keep);
    }
  }

  /** Filtering twice by the same test changes nothing the second time. */
  lemma {:induction false} FilterIdempotent<T(!new)>(s: seq<T>, keep: T -> bool)
    ensures Filter(Filter(s, keep), keep) == Filter(s, keep)
    decreases |s|
  {
    if |s| > 0 {
      var front := s[..|s| - 1];
      var x := s[|s| - 1];
      FilterIdempotent(front, keep);
      var f := Filter(front, keep);
      if keep(x) {
        assert (f + [x])[..|f + [x]| - 1] == f;
      }
    }
  }

  /** When every element passes, the filter returns its input. */
  lemma {:induction false} FilterAllKept<T(!new)>(s: seq<T>, keep: T -> bool)
    requires forall x :: x in s ==> keep(x)
    ensures Filter(s, keep) == s
    decreases |s|
  {
    if |s| > 0 {
      var front := s[..|s| - 1];
      assert forall x :: x in front ==> x in s;
      assert s[|s| - 1] in s;
      FilterAllKept(front, keep);
      assert s == front + [s[|s| - 1]];
    }
  }

  /** Dropping a rejected head from a list whose tail all passes leaves just the tail. */
  lemma DropHead<T(!new)>(s: seq<T>, keep: T -> bool)
    requires |s| > 0 && !keep(s[0])
    requires forall x :: x in s[1..] ==> keep(x)
    ensures Filter(s, keep) == s[1..]
  {
    assert s == [s[0]] + s[1..];
    FilterConcat([s[0]], s[1..], keep);
    FilterSingle(s[0], keep);
    FilterAllKept(s[1..], keep);
  }
}
