/** The condition-id vectors of the periodic sample grids. A grid always
    has `num_gen_images` rows (one per fixed noise vector), so when the
    classes do not divide that width evenly, the vector is padded with the
    first class rather than truncated. */
module Conditions {
  import opened Tensors

  /** One sample grid handed to the logger: after which epoch, for which
      task, and the condition id of each of its rows. */
  datatype Grid = Grid(epoch: nat, task: nat, ids: seq<int>)

  /** `torch.cat([torch.zeros([per]) + c for c in classes])`. */
  function Blocks(classes: seq<int>, per: nat): seq<int>
  {
    if classes == [] then [] else Repeat(classes[0], per) + Blocks(classes[1..], per)
  }

  lemma {:induction false} BlocksLength(classes: seq<int>, per: nat)
    ensures |Blocks(classes, per)| == |classes| * per
  {
    if classes != [] {
      BlocksLength(classes[1..], per);
    }
  }

  lemma {:induction false} BlocksMembers(classes: seq<int>, per: nat)
    ensures forall y :: y in Blocks(classes, per) ==> y in classes
  {
    if classes != [] {
      BlocksMembers(classes[1..], per);
      assert forall y :: y in classes[1..] ==> y in classes;
    }
  }

  lemma QuotientBound(width: nat, k: nat)
    requires k > 0
    ensures k * (width / k) <= width
    ensures width - k * (width / k) == width % k
  {
  }

  /** The blocks followed by `width % k` copies of the first class: always
      exactly `width` ids, each one of the given classes. */
  function PaddedConditions(classes: seq<int>, width: nat): (r: seq<int>)
    requires |classes| > 0
    ensures |r| == width
    ensures forall y :: y in r ==> y in classes
  {
    var body := Blocks(classes, width / |classes|);
    BlocksLength(classes, width / |classes|);
    QuotientBound(width, |classes|);
    BlocksMembers(classes, width / |classes|);
    assert classes[0] in classes;
    if |body| < width then body + Repeat(classes[0], width - |body|) else body
  }

  lemma {:induction false} BlocksAt(classes: seq<int>, per: nat, j: nat)
    requires per > 0 && j < |classes| * per
    ensures |Blocks(classes, per)| == |classes| * per
    ensures j / per < |classes| && Blocks(classes, per)[j] == classes[j / per]
  {
    BlocksLength(classes, per);
    if j >= per {
      BlocksLength(classes[1..], per);
      assert (j - per) / per == j / per - 1 by {
        DivShift(j, per);
      }
      BlocksAt(classes[1..], per, j - per);
    }
  }

  lemma DivShift(j: nat, per: nat)
    requires per > 0 && j >= per
    ensures (j - per) / per == j / per - 1
  {
    var q, r := (j - per) / per, (j - per) % per;
    assert j - per == per * q + r;
    assert j == per * (q + 1) + r;
    DivUnique(j, per, q + 1, r);
  }

  /** Division is determined by quotient and remainder. */
  lemma DivUnique(n: int, d: int, q: int, r: int)
    requires d > 0 && 0 <= r < d && n == d * q + r
    ensures n / d == q
  {
    var q', r' := n / d, n % d;
    assert n == d * q' + r' && 0 <= r' < d;
    assert d * (q - q') == r' - r;
    if q - q' >= 1 {
      MulAtLeast(d, q - q');
    } else if q - q' <= -1 {
      MulAtLeast(d, q' - q);
    }
  }

  lemma {:induction false} MulAtLeast(d: nat, x: nat)
    requires x >= 1
    ensures d * x >= d
  {
    if x > 1 {
      MulAtLeast(d, x - 1);
      assert d * x == d * (x - 1) + d;
    }
  }

  /** Rows j < |classes| * per hold class j / per: one contiguous block of
      `per` rows per class, in the order given. */
  predicate InBlocks(r: seq<int>, classes: seq<int>, per: nat)
  {
    per > 0 ==>
      |classes| * per <= |r| &&
      forall j :: 0 <= j < |classes| * per ==> j / per < |classes| && r[j] == classes[j / per]
  }

  lemma BlocksInOrder(classes: seq<int>, per: nat)
    ensures InBlocks(Blocks(classes, per), classes, per)
  {
    var b := Blocks(classes, per);
    BlocksLength(classes, per);
    if per > 0 {
      forall j | 0 <= j < |classes| * per
        ensures j / per < |classes| && b[j] == classes[j / per]
      {
        BlocksAt(classes, per, j);
      }
      assert |classes| * per <= |b|;
    }
  }

  lemma InBlocksExtend(body: seq<int>, tail: seq<int>, classes: seq<int>, per: nat)
    requires InBlocks(body, classes, per)
    ensures InBlocks(body + tail, classes, per)
  {
    if per > 0 {
      forall j | 0 <= j < |classes| * per ensures (body + tail)[j] == body[j] {
      }
    }
  }

  /** Shape of the grid condition vector: exactly `width` ids; the first
      `k * (width / k)` form one block of `width / k` rows per class, in the
      order given; the last `width % k` rows hold the first class. */
  lemma PaddedConditionsShape(classes: seq<int>, width: nat)
    requires |classes| > 0
    ensures var r, k := PaddedConditions(classes, width), |classes|;
      |r| == width && k * (width / k) <= width && InBlocks(r, classes, width / k) &&
      forall j :: k * (width / k) <= j < width ==> r[j] == classes[0]
  {
    var k, per := |classes|, width / |classes|;
    var r, body := PaddedConditions(classes, width), Blocks(classes, per);
    BlocksLength(classes, per);
    QuotientBound(width, k);
    var m := k * per;
    var tail := Repeat(classes[0], width - m);
    assert r == body + tail;
    forall j | m <= j < width ensures r[j] == classes[0] {
      assert r[j] == tail[j - m];
    }
    BlocksInOrder(classes, per);
    InBlocksExtend(body, tail, classes, per);
  }

  lemma {:induction false} BlocksCount(classes: seq<int>, per: nat, y: int)
    requires StrictlySorted(classes)
    ensures multiset(Blocks(classes, per))[y] == if y in classes then per else 0
  {
    if classes != [] {
      assert StrictlySorted(classes[1..]);
      BlocksCount(classes[1..], per, y);
      RepeatCount(classes[0], per, y);
      assert y in classes <==> y == classes[0] || y in classes[1..];
      assert classes[0] !in classes[1..];
    }
  }

  /** For sorted distinct classes, each class has `width / k` rows of the
      grid, the first class `width % k` more, and no other id appears. */
  lemma PaddedConditionsCounts(classes: seq<int>, width: nat)
    requires |classes| > 0 && StrictlySorted(classes)
    ensures var r, k := PaddedConditions(classes, width), |classes|;
      (forall m :: 0 <= m < k ==>
        multiset(r)[classes[m]] == width / k + if m == 0 then width % k else 0) &&
      (forall y :: y !in classes ==> multiset(r)[y] == 0)
  {
    var k, per := |classes|, width / |classes|;
    var r := PaddedConditions(classes, width);
    BlocksLength(classes, per);
    QuotientBound(width, k);
    var pad := width - k * per;
    assert r == Blocks(classes, per) + Repeat(classes[0], pad);
    forall y ensures multiset(r)[y] == (if y in classes then per else 0) + (if y == classes[0] then pad else 0) {
      BlocksCount(classes, per, y);
      RepeatCount(classes[0], pad, y);
    }
    forall m | 0 <= m < k ensures multiset(r)[classes[m]] == per + if m == 0 then width % k else 0 {
      assert classes[m] in classes;
      assert m > 0 ==> classes[m] != classes[0];
    }
  }
}
