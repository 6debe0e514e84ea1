/** The per-class histogram the local trainers fill during epoch 0:
    `torch.unique(labels, return_counts=True)` followed by a scatter-add of
    the counts into a zero-initialised vector of length `num_classes`. */
module ClassCounts {
  import opened Tensors

  /** `table[c]` is how many of the labels equal c, for every class c < n. */
  function Histogram(labels: seq<int>, n: nat): seq<int>
  {
    seq(n, c => multiset(labels)[c])
  }

  predicate LabelsInRange(labels: seq<int>, n: nat)
  {
    forall l :: l in labels ==> 0 <= l < n
  }

  predicate LoaderLabelsInRange(loader: seq<Batch>, n: nat)
  {
    forall i :: 0 <= i < |loader| ==> LabelsInRange(loader[i].labels, n)
  }

  /** `torch.unique(labels, return_counts=True)`: the sorted distinct labels
      and, position by position, how often each occurs. */
  function UniqueCounts(labels: seq<int>): (r: (seq<int>, seq<nat>))
    ensures r.0 == SortedDistinct(labels) && |r.1| == |r.0|
    ensures forall k :: 0 <= k < |r.0| ==> r.1[k] == multiset(labels)[r.0[k]] && r.1[k] > 0
    ensures forall l :: l in labels <==> l in r.0
  {
    var classes := SortedDistinct(labels);
    forall k | 0 <= k < |classes| ensures classes[k] in labels && classes[k] in multiset(labels) {
      assert classes[k] in classes;
    }
    (classes, seq(|classes|, k requires 0 <= k < |classes| => multiset(labels)[classes[k]]))
  }

  /** `table[classes] += counts`: adds one batch's label counts in place. */
  method AddBatchCounts(table: array<int>, labels: seq<int>, ghost seen: seq<int>)
    requires LabelsInRange(labels, table.Length)
    requires table[..] == Histogram(seen, table.Length)
    modifies table
    ensures table[..] == Histogram(seen + labels, table.Length)
  {
    var (classes, counts) := UniqueCounts(labels);
    var k := 0;
    while k < |classes|
      invariant 0 <= k <= |classes|
      invariant forall c :: 0 <= c < table.Length ==>
        table[c] == old(table[c]) + if c in classes[..k] then multiset(labels)[c] else 0
    {
      assert classes[k] in labels;
      assert classes[k] !in classes[..k];
      table[classes[k]] := table[classes[k]] + counts[k];
      assert classes[..k + 1] == classes[..k] + [classes[k]];
      k := k + 1;
    }
    assert classes[..k] == classes;
    forall c | 0 <= c < table.Length ensures table[c] == Histogram(seen + labels, table.Length)[c] {
      assert multiset(seen + labels) == multiset(seen) + multiset(labels);
      if c !in classes {
        assert c !in labels;
      }
    }
  }

  /** Loop step of the epoch-0 pass: counting one more batch extends the
      histogram of the batches seen so far. */
  lemma HistogramExtend(loader: seq<Batch>, i: nat)
    requires i < |loader|
    ensures AllLabels(loader[..i + 1]) == AllLabels(loader[..i]) + loader[i].labels
  {
    assert loader[..i + 1][..i] == loader[..i];
  }

  function Sum(s: seq<int>): int
  {
    if s == [] then 0 else Sum(s[..|s| - 1]) + s[|s| - 1]
  }

  lemma {:induction false} SumIncrement(s: seq<int>, x: nat)
    requires x < |s|
    ensures Sum(s[x := s[x] + 1]) == Sum(s) + 1
  {
    var t := s[x := s[x] + 1];
    assert t[..|t| - 1] == if x < |s| - 1 then s[..|s| - 1][x := s[x] + 1] else s[..|s| - 1];
    if x < |s| - 1 {
      SumIncrement(s[..|s| - 1], x);
    }
  }

  /** The counts of a task's histogram add up to the number of examples seen,
      provided every label names one of the n classes. */
  lemma {:induction false} HistogramTotal(labels: seq<int>, n: nat)
    requires LabelsInRange(labels, n)
    ensures Sum(Histogram(labels, n)) == |labels|
    ensures forall c :: 0 <= c < n ==> Histogram(labels, n)[c] >= 0
  {
    if labels == [] {
      assert Histogram(labels, n) == seq(n, _ => 0);
      ZeroSum(n);
    } else {
      var front, x := labels[..|labels| - 1], labels[|labels| - 1];
      assert labels == front + [x];
      assert x in labels;
      assert forall l :: l in front ==> l in labels;
      HistogramTotal(front, n);
      assert Histogram(labels, n) == Histogram(front, n)[x := Histogram(front, n)[x] + 1];
      SumIncrement(Histogram(front, n), x);
    }
  }

  lemma {:induction false} ZeroSum(n: nat)
    ensures Sum(seq(n, _ => 0)) == 0
  {
    if n > 0 {
      assert seq(n, _ => 0)[..n - 1] == seq(n - 1, _ => 0);
      ZeroSum(n - 1);
    }
  }
}
