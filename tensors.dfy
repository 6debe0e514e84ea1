/** Opaque tensor values and the few tensor operations whose discrete
    behaviour the training loops depend on: `torch.unique` (sorted distinct
    values), constant-filled id vectors, and concatenation of batches. */
module Tensors {

  datatype Option<T> = None | Some(value: T)

  /** One real training image; its pixels are never inspected. */
  datatype Image = Image(handle: nat)

  /** One latent vector (a row of a noise tensor). */
  datatype Noise = Noise(handle: nat)

  /** The frozen generator an example was produced by: the current task's
      local generator, or the previous global generator. */
  datatype Producer = LocalGenerator | PreviousGlobalGenerator

  /** One row of an example tensor: either a real image, or what a frozen
      generator produces from a latent vector and a condition id. */
  datatype Example = Real(image: Image) | Generated(z: Noise, id: int, producer: Producer)

  /** One (images, labels) pair yielded by a data loader. */
  datatype Batch = Batch(images: seq<Image>, labels: seq<int>)

  /** A data loader yields non-empty batches with one label per image. */
  predicate WellFormedBatch(b: Batch)
  {
    |b.images| == |b.labels| && |b.labels| > 0
  }

  predicate WellFormedLoader(loader: seq<Batch>)
  {
    forall i :: 0 <= i < |loader| ==> WellFormedBatch(loader[i])
  }

  /** `torch.zeros([n]) + x`: an id vector of n copies of x. */
  function Repeat(x: int, n: nat): seq<int>
  {
    seq(n, _ => x)
  }

  /** The ids `range(lo, lo + n)`. */
  function Range(lo: int, n: nat): seq<int>
  {
    seq(n, k => lo + k)
  }

  /** Every label of the loader, batch after batch (one pass over it). */
  function AllLabels(loader: seq<Batch>): seq<int>
  {
    if loader == [] then [] else AllLabels(loader[..|loader| - 1]) + loader[|loader| - 1].labels
  }

  lemma {:induction false} RepeatCount(x: int, n: nat, y: int)
    ensures multiset(Repeat(x, n))[y] == if y == x then n else 0
  {
    if n > 0 {
      RepeatCount(x, n - 1, y);
      assert Repeat(x, n) == Repeat(x, n - 1) + [x];
    }
  }

  predicate StrictlySorted(s: seq<int>)
  {
    forall i, j :: 0 <= i < j < |s| ==> s[i] < s[j]
  }

  /** Inserts x into a strictly increasing sequence, keeping it strictly
      increasing and without duplicates. */
  function Insert(x: int, r: seq<int>): (r': seq<int>)
    requires StrictlySorted(r)
    ensures StrictlySorted(r')
    ensures forall y :: y in r' <==> y == x || y in r
  {
    if r == [] then [x]
    else if x < r[0] then [x] + r
    else if x == r[0] then r
    else
      var rest := Insert(x, r[1..]);
      assert forall k :: 0 <= k < |rest| ==> rest[k] in rest;
      assert forall k :: 1 <= k < |r| ==> r[0] < r[k];
      assert forall y :: y in r[1..] ==> r[0] < y;
      [r[0]] + rest
  }

  /** `np.sort(torch.unique(s))`: the distinct values of s in increasing
      order. */
  function SortedDistinct(s: seq<int>): (r: seq<int>)
    ensures StrictlySorted(r)
    ensures forall y :: y in r <==> y in s
    ensures |r| <= |s|
    ensures |s| > 0 ==> |r| > 0
  {
    if s == [] then []
    else
      var r0 := SortedDistinct(s[..|s| - 1]);
      assert s == s[..|s| - 1] + [s[|s| - 1]];
      InsertLength(s[|s| - 1], r0);
      Insert(s[|s| - 1], r0)
  }

  lemma {:induction false} InsertLength(x: int, r: seq<int>)
    requires StrictlySorted(r)
    ensures |Insert(x, r)| <= |r| + 1
    ensures |Insert(x, r)| > 0
  {
    if r != [] && x > r[0] {
      InsertLength(x, r[1..]);
    }
  }

  /** A strictly increasing sequence is determined by its elements: so
      SortedDistinct is the only sorted, duplicate-free listing of the
      values of s. */
  lemma {:induction false} SortedByElements(a: seq<int>, b: seq<int>)
    requires StrictlySorted(a) && StrictlySorted(b)
    requires forall y :: y in a <==> y in b
    ensures a == b
  {
    assert a != [] ==> a[0] in a;
    assert b != [] ==> b[0] in b;
    if a != [] && b != [] {
      assert a[0] == b[0] by {
        assert a[0] in b && b[0] in a;
      }
      forall y ensures y in a[1..] <==> y in b[1..] {
        if y in a[1..] {
          assert y in b && y != b[0];
        }
        if y in b[1..] {
          assert y in a && y != a[0];
        }
      }
      SortedByElements(a[1..], b[1..]);
      assert a == [a[0]] + a[1..] && b == [b[0]] + b[1..];
    }
  }

  /** Hence any sorted duplicate-free listing of the values of s is
      SortedDistinct(s). */
  lemma SortedDistinctIsUnique(s: seq<int>, r: seq<int>)
    requires StrictlySorted(r)
    requires forall y :: y in r <==> y in s
    ensures r == SortedDistinct(s)
  {
    SortedByElements(r, SortedDistinct(s));
  }
}
