/** `get_ood_scores` (test.py:108-170): score the batches the quota admits,
    and in an in-distribution pass also split the samples into right and
    wrong and build the class-centroid table. */
module OodScores {
  import opened Wrappers
  import opened Failures
  import opened Reals
  import opened Batches
  import opened Scoring
  import opened Partition
  import opened Centroids

  /** What a call returns: the scores alone (test.py:167-170), or, for an
      in-distribution pass, the scores, the right and wrong scores and the
      centroid table (test.py:165-166). */
  datatype Scored =
    | Scores(scores: seq<real>)
    | InDistribution(scores: seq<real>, right: seq<real>, wrong: seq<real>, centroids: seq<seq<real>>)

  /** `ood_num_examples // args.test_bs`: the number of batches a call outside
      test mode may consume. */
  function Quota(oodNumExamples: nat, testBs: nat): (q: nat)
    requires testBs > 0
    ensures q * testBs <= oodNumExamples < (q + 1) * testBs
  {
    oodNumExamples / testBs
  }

  /** A well-formed sample satisfies what confidence scoring, the right/wrong
      split and the centroid builder each need. */
  lemma RowsOkShapes(rows: seq<Row>, w: nat)
    requires RowsOk(rows, w)
    ensures HasProbs(rows) && Classified(rows) && FeatsOk(rows, w)
  {
    forall i | 0 <= i < |rows|
      ensures |rows[i].probs| > 0 && |rows[i].probsIn| > 0 && |rows[i].feat| == w
    {
      assert RowOk(rows[i], w);
    }
  }

  /** The batches a call consumes: the whole loader in test mode, otherwise
      the first `Quota` of them. */
  function Consumed(loader: seq<Batch>, inTest: bool, oodNumExamples: nat, testBs: nat): (bs: seq<Batch>)
    requires testBs > 0
    requires WellFormed(loader)
    ensures inTest ==> bs == loader
    ensures !inTest ==> bs == loader[..Min(Quota(oodNumExamples, testBs), |loader|)]
    ensures forall b :: 0 <= b < |bs| ==> |bs[b]| > 0 && RowsOk(bs[b], FeatWidth(loader))
    ensures forall b :: 0 <= b < |bs| ==> HasProbs(bs[b]) && Classified(bs[b])
    ensures |bs| == 0 <==> |loader| == 0 || (!inTest && Quota(oodNumExamples, testBs) == 0)
  {
    var bs := Consume(loader, inTest, Quota(oodNumExamples, testBs));
    forall b | 0 <= b < |bs|
      ensures |bs[b]| > 0 && RowsOk(bs[b], FeatWidth(loader)) && HasProbs(bs[b]) && Classified(bs[b])
    {
      assert bs[b] == loader[b];
      RowsOkShapes(bs[b], FeatWidth(loader));
    }
    bs
  }

  /** The samples a call consumes, concatenated in loader order. */
  function Samples(loader: seq<Batch>, inTest: bool, oodNumExamples: nat, testBs: nat): (rows: seq<Row>)
    requires testBs > 0
    requires WellFormed(loader)
    ensures inTest ==> rows == Flatten(loader)
    ensures !inTest ==> rows == Flatten(loader[..Min(Quota(oodNumExamples, testBs), |loader|)])
    ensures RowsOk(rows, FeatWidth(loader))
    ensures HasProbs(rows) && Classified(rows) && FeatsOk(rows, FeatWidth(loader))
    ensures |rows| == 0 <==> |Consumed(loader, inTest, oodNumExamples, testBs)| == 0
  {
    var bs := Consumed(loader, inTest, oodNumExamples, testBs);
    FlattenRowsOk(bs, FeatWidth(loader));
    FlattenEmpty(bs);
    RowsOkShapes(Flatten(bs), FeatWidth(loader));
    Flatten(bs)
  }

  /** `get_ood_scores(loader, in_dist, in_cluster, in_test)`.

      Failures, in the order the code meets them: no batch consumed makes the
      final `np.concatenate` / `torch.cat` raise; a centroid table with no
      rows makes the first cluster-mode batch raise; and an in-distribution
      pass in cluster mode rebinds `_feat` to a tensor (test.py:134), so the
      `_feat.append` at test.py:150 raises.

      Otherwise the scores are those of the consumed samples; outside both
      in-distribution and test mode they are cut to the first
      `ood_num_examples`. */
  function GetOodScores(loader: seq<Batch>, mode: Mode, inDist: bool, inTest: bool,
                        oodNumExamples: nat, testBs: nat, sqrt: real -> real): (r: Result<Scored, Error>)
    requires testBs > 0
    requires WellFormed(loader)
    ensures r == Failure(EmptyConcatenation)
        <==> |loader| == 0 || (!inTest && Quota(oodNumExamples, testBs) == 0)
    ensures r == Failure(EmptyCluster)
        <==> |Consumed(loader, inTest, oodNumExamples, testBs)| > 0 && mode.Cluster? && |mode.centroids| == 0
    ensures r == Failure(FeatureListOverwritten)
        <==> |Consumed(loader, inTest, oodNumExamples, testBs)| > 0 && mode.Cluster? && |mode.centroids| > 0 && inDist
    ensures r.Failure? ==> r.error != ZeroDivision
    ensures r.Success? ==> ValidMode(mode) && |Samples(loader, inTest, oodNumExamples, testBs)| > 0
    ensures r.Success? ==> (r.value.InDistribution? <==> inDist)
    ensures r.Success? && inDist ==>
              var rows := Samples(loader, inTest, oodNumExamples, testBs);
              r.value.scores == ScoreRows(mode, sqrt, rows) &&
              r.value.right == Select(rows, true) &&
              r.value.wrong == Select(rows, false) &&
              r.value.centroids == BuildCentroids(rows, FeatWidth(loader))
    ensures r.Success? && !inDist && inTest ==>
              r.value.scores == ScoreRows(mode, sqrt, Samples(loader, inTest, oodNumExamples, testBs))
    ensures r.Success? && !inDist && !inTest ==>
              var all := ScoreRows(mode, sqrt, Samples(loader, inTest, oodNumExamples, testBs));
              r.value.scores == all[..Min(oodNumExamples, |all|)]
    ensures r.Success? && !inDist && !inTest ==> |r.value.scores| <= oodNumExamples
  {
    var batches := Consumed(loader, inTest, oodNumExamples, testBs);
    var rows := Samples(loader, inTest, oodNumExamples, testBs);
    if |batches| == 0 then Failure(EmptyConcatenation)
    else if mode.Cluster? && |mode.centroids| == 0 then Failure(EmptyCluster)
    else if inDist && mode.Cluster? then Failure(FeatureListOverwritten)
    else
      BatchedScoresAreSampleScores(mode, sqrt, batches);
      var scores := Flatten(ScoreBatches(mode, sqrt, batches));
      if inDist then
        BatchedSelect(batches, true);
        BatchedSelect(batches, false);
        Success(InDistribution(scores, Flatten(SelectBatches(batches, true)),
                               Flatten(SelectBatches(batches, false)),
                               BuildCentroids(rows, FeatWidth(loader))))
      else if inTest then Success(Scores(scores))
      else Success(Scores(scores[..Min(oodNumExamples, |scores|)]))
  }

  /** When no batch holds more than `test_bs` samples, the quota already
      keeps the consumed samples within `ood_num_examples`, so the final
      slice removes nothing. */
  lemma SliceKeepsAllScores(loader: seq<Batch>, mode: Mode, oodNumExamples: nat, testBs: nat, sqrt: real -> real)
    requires testBs > 0
    requires WellFormed(loader)
    requires forall b :: 0 <= b < |loader| ==> |loader[b]| <= testBs
    requires |loader| > 0 && Quota(oodNumExamples, testBs) > 0 && ValidMode(mode)
    ensures GetOodScores(loader, mode, false, false, oodNumExamples, testBs, sqrt).Success?
    ensures GetOodScores(loader, mode, false, false, oodNumExamples, testBs, sqrt).value.scores
         == ScoreRows(mode, sqrt, Samples(loader, false, oodNumExamples, testBs))
  {
    var batches := Consumed(loader, false, oodNumExamples, testBs);
    var q := Quota(oodNumExamples, testBs);
    FlattenLength(batches, testBs);
    assert |batches| <= q;
    assert |batches| * testBs <= q * testBs by {
      MulMono(|batches|, q, testBs);
    }
    var all := ScoreRows(mode, sqrt, Samples(loader, false, oodNumExamples, testBs));
    assert all[..Min(oodNumExamples, |all|)] == all;
  }

  lemma MulMono(a: nat, b: nat, c: nat)
    requires a <= b
    ensures a * c <= b * c
  {
  }

  /** Outside test mode the batches at or past the quota are never read: two
      loaders that agree on their first `Quota` batches give the same result. */
  lemma LaterBatchesIgnored(l1: seq<Batch>, l2: seq<Batch>, mode: Mode, inDist: bool,
                            oodNumExamples: nat, testBs: nat, sqrt: real -> real)
    requires testBs > 0
    requires WellFormed(l1) && WellFormed(l2)
    requires Quota(oodNumExamples, testBs) <= |l1| && Quota(oodNumExamples, testBs) <= |l2|
    requires l1[..Quota(oodNumExamples, testBs)] == l2[..Quota(oodNumExamples, testBs)]
    ensures GetOodScores(l1, mode, inDist, false, oodNumExamples, testBs, sqrt)
         == GetOodScores(l2, mode, inDist, false, oodNumExamples, testBs, sqrt)
  {
    var q := Quota(oodNumExamples, testBs);
    assert Consumed(l1, false, oodNumExamples, testBs) == Consumed(l2, false, oodNumExamples, testBs);
    if q > 0 {
      assert l1[0] == l1[..q][0] == l2[..q][0] == l2[0];
      assert FeatWidth(l1) == FeatWidth(l2);
    }
  }

  /** A successful in-distribution pass puts every consumed sample in exactly
      one of the right and wrong lists, so the top-1 error that follows it
      (test.py:183-185) never divides by zero and is the wrong fraction. */
  lemma InDistributionTop1(loader: seq<Batch>, inTest: bool, oodNumExamples: nat, testBs: nat, sqrt: real -> real)
    requires testBs > 0
    requires WellFormed(loader)
    requires |loader| > 0 && (inTest || Quota(oodNumExamples, testBs) > 0)
    ensures GetOodScores(loader, Confidence, true, inTest, oodNumExamples, testBs, sqrt).Success?
    ensures var s := GetOodScores(loader, Confidence, true, inTest, oodNumExamples, testBs, sqrt).value;
            |s.right| + |s.wrong| == |s.scores| > 0 &&
            Top1Err(|s.right|, |s.wrong|).Success? &&
            0.0 <= Top1Err(|s.right|, |s.wrong|).value <= 1.0 &&
            multiset(s.right) + multiset(s.wrong) == multiset(InScores(Samples(loader, inTest, oodNumExamples, testBs)))
  {
    var rows := Samples(loader, inTest, oodNumExamples, testBs);
    PartitionSizes(rows);
    PartitionContents(rows);
  }
}
