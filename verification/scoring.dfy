/** Per-sample anomaly scores of one batch (test.py:124-141): the negated
    maximum softmax probability in confidence mode, and in cluster mode the
    negated largest "closeness" to a class centroid, where the closeness of
    centroid c and feature f is the Frobenius norm of the outer product c fᵀ
    that `torch.bmm` forms. */
module Scoring {
  import opened Reals
  import opened Batches

  /** `in_cluster is None` selects confidence mode; otherwise the C x D
      centroid table drives cluster mode. */
  datatype Mode = Confidence | Cluster(centroids: seq<seq<real>>)

  /** Cluster mode needs at least one centroid: with none, the reshape of
      the empty batched product at test.py:136 raises. */
  predicate ValidMode(mode: Mode)
  {
    mode.Cluster? ==> |mode.centroids| > 0
  }

  /** Every sample carries a non-empty softmax row to take the maximum of. */
  predicate HasProbs(rows: seq<Row>)
  {
    forall i :: 0 <= i < |rows| ==> |rows[i].probs| > 0
  }

  /** The vector f scaled by a. */
  function Scale(a: real, f: seq<real>): (r: seq<real>)
    ensures |r| == |f|
  {
    if |f| == 0 then [] else [a * f[0]] + Scale(a, f[1..])
  }

  /** `torch.bmm` of the (D,1) column c with the (1,D') row f, one row of the
      D x D' product per entry of c. */
  function Outer(c: seq<real>, f: seq<real>): (m: seq<seq<real>>)
    ensures |m| == |c|
  {
    if |c| == 0 then [] else [Scale(c[0], f)] + Outer(c[1..], f)
  }

  /** test.py:136-137: reshape the outer product to one row, square, sum, and
      take the square root. The sum of squares is ‖c‖² ‖f‖², so with a true
      square root the closeness is the product of the two Euclidean norms:
      the score does not depend on the angle between c and f. */
  function Closeness(sqrt: real -> real, c: seq<real>, f: seq<real>): (r: real)
    ensures r == Root(sqrt, SumSq(c) * SumSq(f))
    ensures IsSqrt(sqrt) ==> r == Root(sqrt, SumSq(c)) * Root(sqrt, SumSq(f))
  {
    OuterSumSq(c, f);
    NormProduct(sqrt, SumSq(Flatten(Outer(c, f))), SumSq(c), SumSq(f));
    Root(sqrt, SumSq(Flatten(Outer(c, f))))
  }

  /** `SqrtOfProduct` for a square root that may or may not be one; the
      product is passed as n so that the solver never rewrites it. */
  lemma NormProduct(sqrt: real -> real, n: real, x: real, y: real)
    requires 0.0 <= x && 0.0 <= y && n == x * y
    ensures IsSqrt(sqrt) ==> Root(sqrt, n) == Root(sqrt, x) * Root(sqrt, y)
  {
    if IsSqrt(sqrt) {
      SqrtOfProduct(sqrt, x, y);
    }
  }

  /** The closeness of `f` to every centroid, in table order. */
  function Closenesses(sqrt: real -> real, centroids: seq<seq<real>>, f: seq<real>): seq<real>
  {
    seq(|centroids|, k requires 0 <= k < |centroids| => Closeness(sqrt, centroids[k], f))
  }

  /** Cluster-mode score of one feature vector: the negation of its largest
      closeness over all centroids. */
  function ClusterScore(sqrt: real -> real, centroids: seq<seq<real>>, f: seq<real>): (r: real)
    requires |centroids| > 0
    ensures exists k :: 0 <= k < |centroids| && r == -Closeness(sqrt, centroids[k], f)
    ensures forall k :: 0 <= k < |centroids| ==> r <= -Closeness(sqrt, centroids[k], f)
  {
    var cs := Closenesses(sqrt, centroids, f);
    var m := Max(cs);
    assert forall k :: 0 <= k < |centroids| ==> cs[k] == Closeness(sqrt, centroids[k], f);
    -m
  }

  /** Confidence-mode score of one sample: the negation of its largest softmax
      probability. */
  function ConfidenceScore(row: Row): (r: real)
    requires |row.probs| > 0
    ensures exists i :: 0 <= i < |row.probs| && r == -row.probs[i]
    ensures forall i :: 0 <= i < |row.probs| ==> r <= -row.probs[i]
  {
    -Max(row.probs)
  }

  /** The score of a single sample, the reference that batching must agree with. */
  function ScoreRow(mode: Mode, sqrt: real -> real, row: Row): real
    requires ValidMode(mode)
    requires |row.probs| > 0
  {
    match mode
    case Confidence => ConfidenceScore(row)
    case Cluster(centroids) => ClusterScore(sqrt, centroids, row.feat)
  }

  /** Scoring the samples one at a time. */
  function ScoreRows(mode: Mode, sqrt: real -> real, rows: seq<Row>): seq<real>
    requires ValidMode(mode)
    requires HasProbs(rows)
  {
    seq(|rows|, i requires 0 <= i < |rows| => ScoreRow(mode, sqrt, rows[i]))
  }

  /** One batch scored the way the tensors do it. Confidence mode takes the
      row-wise max of the softmax matrix. Cluster mode collects one (C,1)
      closeness column per sample, concatenates them into a (C,N) matrix,
      permutes it to (N,C) and takes the negated row-wise max (test.py:130-141).
      The result is the samples' individual scores, in batch order. */
  function ScoreBatch(mode: Mode, sqrt: real -> real, batch: Batch): (r: seq<real>)
    requires ValidMode(mode)
    requires HasProbs(batch)
    ensures |r| == |batch|
    ensures forall i :: 0 <= i < |batch| ==> r[i] == ScoreRow(mode, sqrt, batch[i])
  {
    match mode
    case Confidence =>
      seq(|batch|, i requires 0 <= i < |batch| => -Max(batch[i].probs))
    case Cluster(centroids) =>
      var cn := seq(|centroids|, k requires 0 <= k < |centroids| =>
                  seq(|batch|, i requires 0 <= i < |batch| => Closeness(sqrt, centroids[k], batch[i].feat)));
      var nc := seq(|batch|, i requires 0 <= i < |batch| =>
                  seq(|centroids|, k requires 0 <= k < |centroids| => cn[k][i]));
      assert forall i :: 0 <= i < |batch| ==> nc[i] == Closenesses(sqrt, centroids, batch[i].feat);
      seq(|batch|, i requires 0 <= i < |batch| => -Max(nc[i]))
  }

  /** The per-batch score arrays the loop appends to `_score`: one array per
      batch, in loader order, holding that batch's per-sample scores. */
  function ScoreBatches(mode: Mode, sqrt: real -> real, batches: seq<Batch>): (r: seq<seq<real>>)
    requires ValidMode(mode)
    requires forall b :: 0 <= b < |batches| ==> HasProbs(batches[b])
    ensures |r| == |batches|
    ensures forall b :: 0 <= b < |batches| ==> r[b] == ScoreRows(mode, sqrt, batches[b])
  {
    if |batches| == 0 then []
    else
      assert ScoreBatch(mode, sqrt, batches[0]) == ScoreRows(mode, sqrt, batches[0]);
      [ScoreBatch(mode, sqrt, batches[0])] + ScoreBatches(mode, sqrt, batches[1..])
  }

  /** Scoring sample by sample distributes over concatenation. */
  lemma ScoreRowsAppend(mode: Mode, sqrt: real -> real, a: seq<Row>, b: seq<Row>)
    requires ValidMode(mode)
    requires HasProbs(a) && HasProbs(b)
    ensures HasProbs(a + b)
    ensures ScoreRows(mode, sqrt, a + b) == ScoreRows(mode, sqrt, a) + ScoreRows(mode, sqrt, b)
  {
    var whole, left, right := ScoreRows(mode, sqrt, a + b), ScoreRows(mode, sqrt, a), ScoreRows(mode, sqrt, b);
    assert |whole| == |left + right|;
    forall i | 0 <= i < |whole|
      ensures whole[i] == (left + right)[i]
    {
      if i < |a| {
        assert (a + b)[i] == a[i];
        assert whole[i] == left[i];
      } else {
        assert (a + b)[i] == b[i - |a|];
        assert whole[i] == right[i - |a|];
      }
    }
  }

  lemma {:induction false} HasProbsFlatten(batches: seq<Batch>)
    requires forall b :: 0 <= b < |batches| ==> HasProbs(batches[b])
    ensures HasProbs(Flatten(batches))
  {
    if |batches| > 0 {
      HasProbsFlatten(batches[1..]);
    }
  }

  /** Batching does not change the scores: concatenating the per-batch arrays
      gives exactly the sample-by-sample scores of the concatenated batches,
      one per sample and in order. */
  lemma {:induction false} BatchedScoresAreSampleScores(mode: Mode, sqrt: real -> real, batches: seq<Batch>)
    requires ValidMode(mode)
    requires forall b :: 0 <= b < |batches| ==> HasProbs(batches[b])
    ensures HasProbs(Flatten(batches))
    ensures Flatten(ScoreBatches(mode, sqrt, batches)) == ScoreRows(mode, sqrt, Flatten(batches))
  {
    HasProbsFlatten(batches);
    if |batches| > 0 {
      HasProbsFlatten(batches[1..]);
      BatchedScoresAreSampleScores(mode, sqrt, batches[1..]);
      ScoreRowsAppend(mode, sqrt, batches[0], Flatten(batches[1..]));
    }
  }

  /** Sum of squares distributes over concatenation. */
  lemma {:induction false} SumSqAppend(a: seq<real>, b: seq<real>)
    ensures SumSq(a + b) == SumSq(a) + SumSq(b)
  {
    if |a| == 0 {
      assert a + b == b;
    } else {
      assert (a + b)[1..] == a[1..] + b;
      SumSqAppend(a[1..], b);
    }
  }

  /** Entry j of `Scale(a, f)` is a * f[j]. */
  lemma {:induction false} ScaleEntries(a: real, f: seq<real>)
    ensures forall j :: 0 <= j < |f| ==> Scale(a, f)[j] == a * f[j]
  {
    if |f| > 0 {
      ScaleEntries(a, f[1..]);
    }
  }

  /** Entry (i, j) of the batched product is c[i] * f[j], which is what
      `torch.bmm` computes for a (D,1) by (1,D') pair. */
  lemma {:induction false} OuterEntries(c: seq<real>, f: seq<real>)
    ensures forall i :: 0 <= i < |c| ==> |Outer(c, f)[i]| == |f|
    ensures forall i, j :: 0 <= i < |c| && 0 <= j < |f| ==> Outer(c, f)[i][j] == c[i] * f[j]
  {
    if |c| > 0 {
      OuterEntries(c[1..], f);
      ScaleEntries(c[0], f);
      forall i | 0 <= i < |c|
        ensures |Outer(c, f)[i]| == |f|
        ensures forall j :: 0 <= j < |f| ==> Outer(c, f)[i][j] == c[i] * f[j]
      {
        if i == 0 {
          assert Outer(c, f)[0] == Scale(c[0], f);
        } else {
          assert Outer(c, f)[i] == Outer(c[1..], f)[i - 1];
          assert c[1..][i - 1] == c[i];
        }
      }
    }
  }

  /** One step of `SumSqScale`: (a x)² + a² rest = a² (x² + rest). */
  lemma ScaleSquareStep(a: real, sq: real, x: real, y: real, rest: real, total: real)
    requires sq == a * a && y == a * x && total == x * x + rest
    ensures y * y + sq * rest == sq * total
  {
  }

  /** Scaling a vector by a scales its sum of squares by a² (`sq`). */
  lemma {:induction false} SumSqScale(a: real, sq: real, f: seq<real>)
    requires sq == a * a
    ensures SumSq(Scale(a, f)) == sq * SumSq(f)
  {
    if |f| > 0 {
      var scaled := Scale(a, f);
      assert scaled[0] == a * f[0] && scaled[1..] == Scale(a, f[1..]);
      SumSqScale(a, sq, f[1..]);
      ScaleSquareStep(a, sq, f[0], scaled[0], SumSq(f[1..]), SumSq(f));
    }
  }

  /** The first row of c fᵀ is c[0] f, the rest is c[1..] fᵀ. */
  lemma FlattenOuterStep(c: seq<real>, f: seq<real>)
    requires |c| > 0
    ensures Flatten(Outer(c, f)) == Scale(c[0], f) + Flatten(Outer(c[1..], f))
  {
  }

  lemma DistributeSum(x: real, y: real, z: real, s: real)
    requires s == x + y
    ensures x * z + y * z == s * z
  {
  }

  /** The squared Frobenius norm of c fᵀ is ‖c‖² ‖f‖². */
  lemma {:induction false} OuterSumSq(c: seq<real>, f: seq<real>)
    ensures SumSq(Flatten(Outer(c, f))) == SumSq(c) * SumSq(f)
  {
    if |c| > 0 {
      var head, rest, norm := c[0] * c[0], SumSq(c[1..]), SumSq(f);
      var first, others := Scale(c[0], f), Flatten(Outer(c[1..], f));
      FlattenOuterStep(c, f);
      SumSqAppend(first, others);
      SumSqScale(c[0], head, f);
      OuterSumSq(c[1..], f);
      DistributeSum(head, rest, norm, SumSq(c));
    }
  }

  /** Every cluster-mode score is at most zero. */
  lemma ClusterScoreNonPositive(sqrt: real -> real, centroids: seq<seq<real>>, f: seq<real>)
    requires IsSqrt(sqrt)
    requires |centroids| > 0
    ensures ClusterScore(sqrt, centroids, f) <= 0.0
  {
    var k :| 0 <= k < |centroids| && ClusterScore(sqrt, centroids, f) == -Closeness(sqrt, centroids[k], f);
    assert RootAt(sqrt, SumSq(Flatten(Outer(centroids[k], f))));
  }

  /** The squared closenesses pick the same winner: the cluster-mode score is
      the negated root of the largest squared closeness. */
  lemma ClusterScoreFromSquares(sqrt: real -> real, centroids: seq<seq<real>>, f: seq<real>)
    requires IsSqrt(sqrt)
    requires |centroids| > 0
    ensures ClusterScore(sqrt, centroids, f)
         == -Root(sqrt, Max(seq(|centroids|, k requires 0 <= k < |centroids| => SumSq(Flatten(Outer(centroids[k], f))))))
  {
    var sq := seq(|centroids|, k requires 0 <= k < |centroids| => SumSq(Flatten(Outer(centroids[k], f))));
    MaxOfRoots(sqrt, sq);
    assert seq(|sq|, i requires 0 <= i < |sq| => Root(sqrt, sq[i])) == Closenesses(sqrt, centroids, f);
  }
}
