/** `torch.randperm(n)` applied as an index array: `x[shuffle]` gathers the
    rows of x in the order the permutation lists them. */
module Shuffle {
  import opened Tensors

  function Indices(n: nat): seq<nat>
  {
    seq(n, k => k)
  }

  /** p lists every index below n exactly once. */
  predicate IsPermutation(p: seq<nat>, n: nat)
  {
    multiset(p) == multiset(Indices(n))
  }

  predicate IndicesBelow(p: seq<nat>, n: nat)
  {
    forall k :: 0 <= k < |p| ==> p[k] < n
  }

  /** `s[p]`: row k of the result is row p[k] of s. */
  function Gather<T>(s: seq<T>, p: seq<nat>): (r: seq<T>)
    requires IndicesBelow(p, |s|)
    ensures |r| == |p|
  {
    seq(|p|, k requires 0 <= k < |p| => s[p[k]])
  }

  lemma PermutationShape(p: seq<nat>, n: nat)
    requires IsPermutation(p, n)
    ensures |p| == n && IndicesBelow(p, n)
  {
    assert |p| == |multiset(p)| == |multiset(Indices(n))| == n;
    forall k | 0 <= k < |p| ensures p[k] < n {
      assert p[k] in multiset(p);
      assert p[k] in multiset(Indices(n));
    }
  }

  lemma GatherAppend<T>(s: seq<T>, p: seq<nat>, q: seq<nat>)
    requires IndicesBelow(p, |s|) && IndicesBelow(q, |s|)
    ensures IndicesBelow(p + q, |s|)
    ensures Gather(s, p + q) == Gather(s, p) + Gather(s, q)
  {
  }

  /** Removing the same index from two equal multisets of indices. */
  lemma RemoveMatching(p: seq<nat>, q: seq<nat>, j: nat)
    requires multiset(p) == multiset(q)
    requires p != [] && j < |q| && q[j] == p[0]
    ensures multiset(p[1..]) == multiset(q[..j] + q[j + 1..])
  {
    var x, q1, q2 := p[0], q[..j], q[j + 1..];
    assert q == q1 + [x] + q2;
    assert p == [x] + p[1..];
    var a, b := multiset(p[1..]), multiset(q1 + q2);
    assert multiset(p) == multiset{x} + a;
    assert multiset(q) == multiset(q1) + multiset{x} + multiset(q2);
    assert b == multiset(q1) + multiset(q2);
    forall y ensures a[y] == b[y] {
      assert multiset(p)[y] == multiset(q)[y];
    }
    assert a == b;
  }

  lemma GatherCons<T>(s: seq<T>, p: seq<nat>)
    requires p != [] && IndicesBelow(p, |s|)
    ensures IndicesBelow(p[1..], |s|)
    ensures Gather(s, p) == [s[p[0]]] + Gather(s, p[1..])
  {
  }

  /** Gathering at q1 + [x] + q2 is gathering at x, then at q1 + q2, up to
      order. */
  lemma GatherMoveFront<T>(s: seq<T>, x: nat, q1: seq<nat>, q2: seq<nat>)
    requires x < |s| && IndicesBelow(q1, |s|) && IndicesBelow(q2, |s|)
    ensures IndicesBelow(q1 + [x] + q2, |s|) && IndicesBelow(q1 + q2, |s|)
    ensures multiset(Gather(s, q1 + [x] + q2)) == multiset([s[x]]) + multiset(Gather(s, q1 + q2))
  {
    GatherAppend(s, q1, q2);
    GatherAppend(s, q1, [x]);
    GatherAppend(s, q1 + [x], q2);
  }

  /** What `s[p]` holds depends only on which indices p lists, not on their
      order. */
  lemma {:induction false} GatherByMultiset<T>(s: seq<T>, p: seq<nat>, q: seq<nat>)
    requires IndicesBelow(p, |s|) && IndicesBelow(q, |s|)
    requires multiset(p) == multiset(q)
    ensures multiset(Gather(s, p)) == multiset(Gather(s, q))
  {
    if p != [] {
      var x := p[0];
      assert x in multiset(q);
      var j :| 0 <= j < |q| && q[j] == x;
      var q1, q2 := q[..j], q[j + 1..];
      assert q == q1 + [x] + q2;
      RemoveMatching(p, q, j);
      GatherByMultiset(s, p[1..], q1 + q2);
      GatherMoveFront(s, x, q1, q2);
      GatherCons(s, p);
      assert multiset(Gather(s, p)) == multiset([s[x]]) + multiset(Gather(s, p[1..]));
    }
  }

  /** Shuffling by a permutation keeps every row and only changes order. */
  lemma ShufflePreservesRows<T>(s: seq<T>, p: seq<nat>)
    requires IsPermutation(p, |s|)
    ensures IndicesBelow(p, |s|) && |Gather(s, p)| == |s|
    ensures multiset(Gather(s, p)) == multiset(s)
  {
    PermutationShape(p, |s|);
    GatherByMultiset(s, p, Indices(|s|));
    assert Gather(s, Indices(|s|)) == s;
  }

  /** One (example, noise, condition id) row of the distillation inputs. */
  datatype Sample = Sample(example: Example, noise: Noise, id: int)

  /** Reads three parallel tensors as one sequence of rows. */
  function Zip(examples: seq<Example>, noise: seq<Noise>, ids: seq<int>): (r: seq<Sample>)
    requires |examples| == |noise| == |ids|
    ensures |r| == |ids|
  {
    seq(|ids|, k requires 0 <= k < |ids| => Sample(examples[k], noise[k], ids[k]))
  }

  /** Indexing the three tensors with one permutation shuffles whole rows:
      every (example, noise, id) row survives intact, only order changes. */
  lemma ShuffleKeepsRowsTogether(examples: seq<Example>, noise: seq<Noise>, ids: seq<int>, p: seq<nat>)
    requires |examples| == |noise| == |ids|
    requires IsPermutation(p, |ids|)
    ensures IndicesBelow(p, |ids|)
    ensures Zip(Gather(examples, p), Gather(noise, p), Gather(ids, p)) == Gather(Zip(examples, noise, ids), p)
    ensures multiset(Zip(Gather(examples, p), Gather(noise, p), Gather(ids, p))) == multiset(Zip(examples, noise, ids))
  {
    PermutationShape(p, |ids|);
    ShufflePreservesRows(Zip(examples, noise, ids), p);
  }

  lemma ZipAppend(e1: seq<Example>, n1: seq<Noise>, i1: seq<int>, e2: seq<Example>, n2: seq<Noise>, i2: seq<int>)
    requires |e1| == |n1| == |i1| && |e2| == |n2| == |i2|
    ensures Zip(e1 + e2, n1 + n2, i1 + i2) == Zip(e1, n1, i1) + Zip(e2, n2, i2)
  {
  }
}
