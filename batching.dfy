/**
 * Batch partitioning of a document list (batchDocuments): contiguous slices of at
 * most maxDocumentBatchSize elements, taken in order.
 */
module Batching {
  import opened Wrappers

  /** The slices that the loop produces when it starts at offset i. */
  function PartitionFrom<T>(s: seq<T>, b: nat, i: nat): (r: seq<seq<T>>)
    requires b > 0
    decreases |s| - i
  {
    if i >= |s| then []
    else [s[i..if i + b < |s| then i + b else |s|]] + PartitionFrom(s, b, i + b)
  }

  /** The whole partition: slices starting at 0, b, 2b, ... */
  function Partition<T>(s: seq<T>, b: nat): seq<seq<T>>
    requires b > 0
  {
    PartitionFrom(s, b, 0)
  }

  /** Concatenation of a list of slices. */
  function Flatten<T>(ss: seq<seq<T>>): seq<T>
  {
    if |ss| == 0 then [] else ss[0] + Flatten(ss[1..])
  }

  /** The number of batches, rounded up: ceiling of n / b. */
  function BatchCount(n: nat, b: nat): nat
    requires b > 0
  {
    (n + b - 1) / b
  }

  lemma FlattenAppend<T>(a: seq<seq<T>>, b: seq<seq<T>>)
    ensures Flatten(a + b) == Flatten(a) + Flatten(b)
  {
    if |a| == 0 {
      assert a + b == b;
    } else {
      assert (a + b)[1..] == a[1..] + b;
      FlattenAppend(a[1..], b);
    }
  }

  lemma {:induction false} PartitionFromFlatten<T>(s: seq<T>, b: nat, i: nat)
    requires b > 0 && i <= |s|
    ensures Flatten(PartitionFrom(s, b, i)) == s[i..]
    decreases |s| - i
  {
    if i < |s| {
      var j := if i + b < |s| then i + b else |s|;
      var rest := PartitionFrom(s, b, i + b);
      assert PartitionFrom(s, b, i) == [s[i..j]] + rest;
      if i + b <= |s| {
        PartitionFromFlatten(s, b, i + b);
      } else {
        assert rest == [];
      }
      assert Flatten(rest) == s[j..];
      assert ([s[i..j]] + rest)[1..] == rest;
      assert s[i..] == s[i..j] + s[j..];
    }
  }

  /** Concatenating the batches gives back the input, in order. */
  lemma {:induction false} PartitionPreservesOrder<T>(s: seq<T>, b: nat)
    requires b > 0
    ensures Flatten(Partition(s, b)) == s
  {
    PartitionFromFlatten(s, b, 0);
  }

  lemma {:induction false} PartitionFromShape<T>(s: seq<T>, b: nat, i: nat)
    requires b > 0 && i <= |s|
    ensures |PartitionFrom(s, b, i)| == BatchCount(|s| - i, b)
    ensures forall k :: 0 <= k < |PartitionFrom(s, b, i)| ==> 0 < |PartitionFrom(s, b, i)[k]| <= b
    ensures forall k :: 0 <= k < |PartitionFrom(s, b, i)| - 1 ==> |PartitionFrom(s, b, i)[k]| == b
    decreases |s| - i
  {
    var r := PartitionFrom(s, b, i);
    if i < |s| {
      var rest := PartitionFrom(s, b, i + b);
      assert r == [r[0]] + rest;
      if i + b < |s| {
        PartitionFromShape(s, b, i + b);
        assert |r[0]| == b;
        DivStep(|s| - i - b + b - 1, b);
        assert |r| == 1 + |rest|;
      } else {
        assert rest == [];
        assert b <= |s| - i + b - 1 < 2 * b;
        DivOne(|s| - i + b - 1, b);
      }
    } else {
      assert |s| - i == 0;
      DivZero(b - 1, b);
    }
  }

  lemma DivStep(x: nat, b: nat)
    requires b > 0
    ensures (x + b) / b == x / b + 1
  {
    var q, m := x / b, x % b;
    assert x == q * b + m;
    assert x + b == (q + 1) * b + m;
    DivUnique(x + b, b, q + 1, m);
  }
  lemma DivUnique(y: int, b: int, q: int, m: int)
    requires b > 0 && 0 <= m < b && y == q * b + m
    ensures y / b == q
  {
    var q', m' := y / b, y % b;
    assert y == q' * b + m';
    assert (q - q') * b == m' - m;
    if q > q' {
      MulAtLeast(q - q', b);
    } else if q < q' {
      MulAtLeast(q' - q, b);
    }
  }
  lemma MulAtLeast(k: int, b: int)
    requires k >= 1 && b > 0
    ensures k * b >= b
  {
  }

  lemma DivOne(x: nat, b: nat)
    requires b > 0 && b <= x < 2 * b
    ensures x / b == 1
  {
  }

  lemma DivZero(x: nat, b: nat)
    requires x < b
    ensures x / b == 0
  {
  }

  /**
   * For b > 0 the batches number ceil(n / b); every batch is non-empty and at
   * most b long, and all but the last are exactly b long.
   */
  lemma {:induction false} PartitionShape<T>(s: seq<T>, b: nat)
    requires b > 0
    ensures |Partition(s, b)| == BatchCount(|s|, b)
    ensures forall k :: 0 <= k < |Partition(s, b)| ==> 0 < |Partition(s, b)[k]| <= b
    ensures forall k :: 0 <= k < |Partition(s, b)| - 1 ==> |Partition(s, b)[k]| == b
  {
    PartitionFromShape(s, b, 0);
  }

  /** The last batch holds the remainder n - (count - 1) * b, which is b when b divides n. */
  lemma {:induction false} PartitionLastBatch<T>(s: seq<T>, b: nat)
    requires b > 0 && |s| > 0
    ensures |Partition(s, b)| > 0
    ensures |Partition(s, b)[|Partition(s, b)| - 1]| == |s| - (|Partition(s, b)| - 1) * b
  {
    var r := Partition(s, b);
    PartitionShape(s, b);
    PartitionPreservesOrder(s, b);
    FlattenLength(r, b);
  }

  lemma {:induction false} FlattenLength<T>(r: seq<seq<T>>, b: nat)
    requires |r| > 0
    requires forall k :: 0 <= k < |r| - 1 ==> |r[k]| == b
    ensures |Flatten(r)| == (|r| - 1) * b + |r[|r| - 1]|
  {
    if |r| > 1 {
      assert forall k :: 0 <= k < |r[1..]| - 1 ==> |r[1..][k]| == |r[k + 1]|;
      FlattenLength(r[1..], b);
      assert r[1..][|r[1..]| - 1] == r[|r| - 1];
      assert |Flatten(r)| == b + |Flatten(r[1..])|;
      assert (|r| - 2) * b + b == (|r| - 1) * b;
    } else {
      assert r[1..] == [];
    }
  }

  /** The 9989-documents, batch-size-1000 case: nine batches of 1000, then one of 989. */
  lemma PartitionOf9989By1000<T>(s: seq<T>)
    requires |s| == 9989
    ensures |Partition(s, 1000)| == 10
    ensures forall k :: 0 <= k < 9 ==> |Partition(s, 1000)[k]| == 1000
    ensures |Partition(s, 1000)[9]| == 989
  {
    PartitionShape(s, 1000);
    PartitionLastBatch(s, 1000);
  }

  /**
   * The loop of batchDocuments: for (i = 0; i < n; i += b) add subList(i, min(i + b, n)).
   * A negative size makes the first subList call fail (its end lies before its start);
   * a size of zero never advances i, so that case is excluded.
   */
  method BatchDocuments<T>(documents: seq<T>, maxDocumentBatchSize: int) returns (batches: Option<seq<seq<T>>>)
    requires maxDocumentBatchSize != 0 || |documents| == 0
    ensures maxDocumentBatchSize > 0 ==> batches == Some(Partition(documents, maxDocumentBatchSize))
    ensures maxDocumentBatchSize <= 0 ==> batches == if |documents| == 0 then Some([]) else None
  {
    var acc: seq<seq<T>> := [];
    var i: int := 0;
    while i < |documents|
      invariant 0 <= i
      invariant maxDocumentBatchSize > 0 ==>
        acc + PartitionFrom(documents, maxDocumentBatchSize, i) == Partition(documents, maxDocumentBatchSize)
      invariant maxDocumentBatchSize <= 0 ==> i == 0 && acc == []
      decreases |documents| - i
    {
      var end := if i + maxDocumentBatchSize < |documents| then i + maxDocumentBatchSize else |documents|;
      if end < i {
        assert maxDocumentBatchSize < 0;
        return None;
      }
      assert PartitionFrom(documents, maxDocumentBatchSize, i)
          == [documents[i..end]] + PartitionFrom(documents, maxDocumentBatchSize, i + maxDocumentBatchSize);
      acc := acc + [documents[i..end]];
      i := i + maxDocumentBatchSize;
    }
    if maxDocumentBatchSize > 0 {
      assert PartitionFrom(documents, maxDocumentBatchSize, i) == [];
      assert acc + [] == acc;
    }
    batches := Some(acc);
  }
}
