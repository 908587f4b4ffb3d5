/**
 * The shape of the component-building loops: a result sequence grown one element per input,
 * the element built from the input and its position. Stated once over an abstract builder
 * `f`, so that what one row holds never has to be unfolded to extend the list.
 */
module Seqs {
  /** `out` holds f(0, xs[0]), …, f(n - 1, xs[n - 1]). */
  ghost predicate MapsPrefix<A, B>(out: seq<B>, xs: seq<A>, f: (int, A) -> B, n: nat) {
    n <= |xs| && |out| == n && forall k :: 0 <= k < n ==> out[k] == f(k, xs[k])
  }

  /** Appending the element built from the next input extends the prefix by one. */
  lemma MapsStep<A, B>(out: seq<B>, xs: seq<A>, f: (int, A) -> B, n: nat, y: B)
    requires MapsPrefix(out, xs, f, n) && n < |xs| && y == f(n, xs[n])
    ensures MapsPrefix(out + [y], xs, f, n + 1)
  {
    forall k | 0 <= k < n + 1
      ensures (out + [y])[k] == f(k, xs[k])
    {
      if k < n {
        assert (out + [y])[k] == out[k];
      }
    }
  }

  /** The prefix is exactly the mapped sequence of its first `n` inputs. */
  lemma MapsAll<A, B>(out: seq<B>, xs: seq<A>, f: (int, A) -> B, n: nat)
    requires MapsPrefix(out, xs, f, n)
    ensures out == seq(n, k requires 0 <= k < n => f(k, xs[k]))
  {
  }
}
