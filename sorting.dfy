/**
 * What `sort.Slice` guarantees, and one sort that meets it. `sort.Slice` is not stable, so
 * the model only promises that the result is ordered by the comparison and is a permutation
 * of the input; insertion sort is one function with that contract.
 */
module Sorting {

  /** `le` is total and transitive: the "not less" relation of a `sort.Slice` less function. */
  ghost predicate TotalPreorder<T(!new)>(le: (T, T) -> bool) {
    && (forall a, b :: le(a, b) || le(b, a))
    && (forall a, b, c :: le(a, b) && le(b, c) ==> le(a, c))
  }

  predicate SortedBy<T>(s: seq<T>, le: (T, T) -> bool) {
    forall i, j :: 0 <= i < j < |s| ==> le(s[i], s[j])
  }

  /** Every element of `s` comes at or after `p`. */
  predicate AllAfter<T>(p: T, s: seq<T>, le: (T, T) -> bool) {
    forall j :: 0 <= j < |s| ==> le(p, s[j])
  }

  /** `x` placed before the first element of `s` it comes at or before. */
  function Insert<T>(x: T, s: seq<T>, le: (T, T) -> bool): seq<T> {
    if s == [] then [x]
    else if le(x, s[0]) then [x] + s
    else [s[0]] + Insert(x, s[1..], le)
  }

  /**
   * Inserting into a sorted sequence keeps it sorted, and whatever came at or before `x` and all
   * of `s` comes at or before all of the result.
   */
  lemma {:induction false} InsertSorted<T(!new)>(x: T, s: seq<T>, le: (T, T) -> bool)
    requires TotalPreorder(le) && SortedBy(s, le)
    ensures SortedBy(Insert(x, s, le), le)
    ensures forall p :: le(p, x) && AllAfter(p, s, le) ==> AllAfter(p, Insert(x, s, le), le)
    decreases |s|
  {
    if s == [] {
    } else if le(x, s[0]) {
      SortedHead(x, s, le);
      ConsSorted(x, s, le);
      ConsAfter(x, s, le);
    } else {
      var tail := Insert(x, s[1..], le);
      SortedTail(s, le);
      InsertSorted(x, s[1..], le);
      assert le(s[0], x);
      ConsSorted(s[0], tail, le);
      HeadAfter(s, le);
      ConsAfter(s[0], tail, le);
    }
  }

  /** Inserting adds exactly `x` to the multiset. */
  lemma {:induction false} InsertPermutes<T>(x: T, s: seq<T>, le: (T, T) -> bool)
    ensures multiset(Insert(x, s, le)) == multiset(s) + multiset{x}
    decreases |s|
  {
    if s != [] {
      assert s == [s[0]] + s[1..];
      if !le(x, s[0]) {
        InsertPermutes(x, s[1..], le);
      }
    }
  }

  /** An element at or before the head of a sorted sequence comes at or before all of it. */
  lemma SortedHead<T(!new)>(x: T, s: seq<T>, le: (T, T) -> bool)
    requires TotalPreorder(le) && SortedBy(s, le) && s != [] && le(x, s[0])
    ensures AllAfter(x, s, le)
  {
    forall j | 0 <= j < |s|
      ensures le(x, s[j])
    {
      if j > 0 {
        assert le(s[0], s[j]);
      }
    }
  }

  /** The tail of a sorted sequence is sorted and comes after its head. */
  lemma SortedTail<T>(s: seq<T>, le: (T, T) -> bool)
    requires SortedBy(s, le) && s != []
    ensures SortedBy(s[1..], le) && AllAfter(s[0], s[1..], le)
  {
    forall j | 0 <= j < |s| - 1
      ensures le(s[0], s[1..][j])
    {
      assert s[1..][j] == s[j + 1];
    }
  }

  /** Putting an element in front of a sorted sequence that comes after it keeps it sorted. */
  lemma ConsSorted<T>(h: T, t: seq<T>, le: (T, T) -> bool)
    requires AllAfter(h, t, le) && SortedBy(t, le)
    ensures SortedBy([h] + t, le)
  {
    forall i, j | 0 <= i < j < |t| + 1
      ensures le(([h] + t)[i], ([h] + t)[j])
    {
      assert ([h] + t)[j] == t[j - 1];
      if i > 0 {
        assert ([h] + t)[i] == t[i - 1];
      }
    }
  }

  /** Whatever comes at or before `h` and all of `t` comes at or before all of `[h] + t`. */
  lemma ConsAfter<T>(h: T, t: seq<T>, le: (T, T) -> bool)
    ensures forall p :: le(p, h) && AllAfter(p, t, le) ==> AllAfter(p, [h] + t, le)
  {
    forall p | le(p, h) && AllAfter(p, t, le)
      ensures AllAfter(p, [h] + t, le)
    {
      forall j | 0 <= j < |t| + 1
        ensures le(p, ([h] + t)[j])
      {
        if j > 0 {
          assert ([h] + t)[j] == t[j - 1];
        }
      }
    }
  }

  /** Whatever comes at or before all of `s` comes at or before its head and all of its tail. */
  lemma HeadAfter<T>(s: seq<T>, le: (T, T) -> bool)
    requires s != []
    ensures forall p :: AllAfter(p, s, le) ==> le(p, s[0]) && AllAfter(p, s[1..], le)
  {
    forall p | AllAfter(p, s, le)
      ensures le(p, s[0]) && AllAfter(p, s[1..], le)
    {
      forall j | 0 <= j < |s| - 1
        ensures le(p, s[1..][j])
      {
        assert s[1..][j] == s[j + 1];
      }
    }
  }

  /** Sorted by `le` and a permutation of `s`. */
  function SortBy<T(!new)>(s: seq<T>, le: (T, T) -> bool): (r: seq<T>)
    requires TotalPreorder(le)
    ensures SortedBy(r, le)
    ensures multiset(r) == multiset(s)
    ensures |r| == |s|
  {
    if s == [] then []
    else
      assert s == [s[0]] + s[1..];
      var t := SortBy(s[1..], le);
      InsertSorted(s[0], t, le);
      InsertPermutes(s[0], t, le);
      var r := Insert(s[0], t, le);
      assert |r| == |multiset(r)|;
      r
  }

  /** Taking one element out of a sequence takes exactly that element out of its multiset. */
  lemma MultisetRemove<T>(s: seq<T>, j: nat)
    requires j < |s|
    ensures multiset(s) == multiset(s[..j] + s[j + 1..]) + multiset{s[j]}
  {
    assert s == s[..j] + [s[j]] + s[j + 1..];
  }

  /**
   * The last element of `a` is somewhere in a permutation `b` of it, and the rest of `a` is a
   * permutation of `b` without that element.
   */
  lemma PermutationStep<T>(a: seq<T>, b: seq<T>) returns (j: nat)
    requires |a| > 0 && multiset(a) == multiset(b)
    ensures j < |b| && b[j] == a[|a| - 1]
    ensures multiset(a[..|a| - 1]) == multiset(b[..j] + b[j + 1..])
  {
    var x, a' := a[|a| - 1], a[..|a| - 1];
    assert a == a' + [x];
    assert x in multiset(b);
    j :| 0 <= j < |b| && b[j] == x;
    MultisetRemove(b, j);
    assert multiset(a) == multiset(a') + multiset{x};
    assert multiset(a') == multiset(a) - multiset{x} == multiset(b) - multiset{x};
  }

  /** An element of `a` has a position in any permutation `b` of `a`. */
  lemma PositionIn<T>(a: seq<T>, b: seq<T>, x: T) returns (i: nat)
    requires multiset(a) == multiset(b) && x in a
    ensures i < |b| && b[i] == x
  {
    assert x in multiset(b);
    i :| 0 <= i < |b| && b[i] == x;
  }

  /** Cutting a sorted sequence after `n` elements: nothing is lost and every element of the head comes at or before every element of the tail. */
  lemma SortedSplit<T>(s: seq<T>, le: (T, T) -> bool, n: nat)
    requires SortedBy(s, le) && n <= |s|
    ensures multiset(s[..n]) + multiset(s[n..]) == multiset(s)
    ensures SortedBy(s[..n], le)
    ensures forall i, j :: 0 <= i < n && 0 <= j < |s| - n ==> le(s[..n][i], s[n..][j])
  {
    assert s == s[..n] + s[n..];
    forall i, j | 0 <= i < n && 0 <= j < |s| - n
      ensures le(s[..n][i], s[n..][j])
    {
      assert s[..n][i] == s[i] && s[n..][j] == s[n + j];
    }
  }
}
