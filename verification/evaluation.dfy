/** The evaluation flow of `main` from the detection prelims on
    (test.py:102, 172-209, 224-272): build or load the centroid table, run
    the in-distribution passes over the test set, compute the top-1 error,
    average `num_to_avg` trials per out-of-distribution dataset, and average
    the datasets.

    What the model takes as parameters: `get_measures` (AUROC, AUPR and FPR
    of two score lists), the square root, the cached centroid table when the
    cache file exists, and one loader per trial for each dataset (the loaders
    shuffle, so every trial draws its own batch order). */
module Evaluation {
  import opened Wrappers
  import opened Failures
  import opened Reals
  import opened Batches
  import opened Scoring
  import opened Partition
  import opened Centroids
  import opened OodScores

  /** `get_measures(out_score, in_score)`: AUROC, AUPR, FPR at 95% TPR. */
  datatype Measures = Measures(auroc: real, aupr: real, fpr: real)

  /** One row of results: the three measures, each a numpy mean. */
  datatype Summary = Summary(auroc: Stat, aupr: Stat, fpr: Stat)

  /** What the passes over the test set yield: the top-1 error, the score
      list every dataset is compared against, and the right and wrong
      scores. */
  datatype TestResults = TestResults(top1: real, inScore: seq<real>, right: seq<real>, wrong: seq<real>)

  /** The outcome of a full run. */
  datatype Report = Report(centroids: seq<seq<real>>, test: TestResults, perDataset: seq<Summary>, mean: Summary)

  function Aurocs(ms: seq<Measures>): (xs: seq<real>)
    ensures |xs| == |ms| && forall t :: 0 <= t < |ms| ==> xs[t] == ms[t].auroc
  {
    seq(|ms|, t requires 0 <= t < |ms| => ms[t].auroc)
  }

  function Auprs(ms: seq<Measures>): (xs: seq<real>)
    ensures |xs| == |ms| && forall t :: 0 <= t < |ms| ==> xs[t] == ms[t].aupr
  {
    seq(|ms|, t requires 0 <= t < |ms| => ms[t].aupr)
  }

  function Fprs(ms: seq<Measures>): (xs: seq<real>)
    ensures |xs| == |ms| && forall t :: 0 <= t < |ms| ==> xs[t] == ms[t].fpr
  {
    seq(|ms|, t requires 0 <= t < |ms| => ms[t].fpr)
  }

  /** The cluster-mode out-of-distribution pass of every trial
      (test.py:204), in trial order. */
  function OutScores(draws: seq<seq<Batch>>, centroids: seq<seq<real>>, oodNumExamples: nat, testBs: nat,
                     sqrt: real -> real): (outs: seq<Result<Scored, Error>>)
    requires testBs > 0
    requires forall t :: 0 <= t < |draws| ==> WellFormed(draws[t])
    ensures |outs| == |draws|
    ensures forall t :: 0 <= t < |draws| ==>
              outs[t] == GetOodScores(draws[t], Cluster(centroids), false, false, oodNumExamples, testBs, sqrt)
  {
    seq(|draws|, t requires 0 <= t < |draws| =>
      GetOodScores(draws[t], Cluster(centroids), false, false, oodNumExamples, testBs, sqrt))
  }

  /** `get_measures(out_score, in_score)` of every trial (test.py:205), once
      every trial's pass has succeeded: one measurement per trial, in trial
      order, each taken on that trial's own scores. */
  function MeasureTrials(outs: seq<Result<Scored, Error>>, inScore: seq<real>,
                         getMeasures: (seq<real>, seq<real>) -> Measures): (ms: seq<Measures>)
    requires forall t :: 0 <= t < |outs| ==> outs[t].Success?
    ensures |ms| == |outs|
    ensures forall t :: 0 <= t < |outs| ==> ms[t] == getMeasures(outs[t].value.scores, inScore)
  {
    seq(|outs|, t requires 0 <= t < |outs| && outs[t].Success? => getMeasures(outs[t].value.scores, inScore))
  }

  /** test.py:208: `np.mean` of each measure over the trials. */
  function AverageTrials(ms: seq<Measures>): (s: Summary)
    ensures s.auroc.NaN? <==> |ms| == 0
    ensures s.aupr.NaN? <==> |ms| == 0
    ensures s.fpr.NaN? <==> |ms| == 0
    ensures s.auroc.Finite? ==> s.auroc.value * (|ms| as real) == Sum(Aurocs(ms))
    ensures s.aupr.Finite? ==> s.aupr.value * (|ms| as real) == Sum(Auprs(ms))
    ensures s.fpr.Finite? ==> s.fpr.value * (|ms| as real) == Sum(Fprs(ms))
  {
    Summary(Mean(Aurocs(ms)), Mean(Auprs(ms)), Mean(Fprs(ms)))
  }

  /** A single trial is its own average. */
  lemma AverageOfOneTrial(m: Measures)
    ensures AverageTrials([m]) == Summary(Finite(m.auroc), Finite(m.aupr), Finite(m.fpr))
  {
    assert Aurocs([m]) == [m.auroc];
    assert Auprs([m]) == [m.aupr];
    assert Fprs([m]) == [m.fpr];
    MeanOfOne(m.auroc);
    MeanOfOne(m.aupr);
    MeanOfOne(m.fpr);
  }

  /** Trials that all measure the same average to that measurement. */
  lemma AverageOfIdenticalTrials(ms: seq<Measures>, m: Measures)
    requires |ms| > 0
    requires forall t :: 0 <= t < |ms| ==> ms[t] == m
    ensures AverageTrials(ms) == Summary(Finite(m.auroc), Finite(m.aupr), Finite(m.fpr))
  {
    MeanOfCopies(Aurocs(ms), m.auroc);
    MeanOfCopies(Auprs(ms), m.aupr);
    MeanOfCopies(Fprs(ms), m.fpr);
  }

  /** The averaged AUROC lies within the range of the trials' AUROCs; in
      particular it stays within [0, 1] when every trial does. */
  lemma AverageAurocWithin(ms: seq<Measures>, lo: real, hi: real)
    requires |ms| > 0
    requires forall t :: 0 <= t < |ms| ==> lo <= ms[t].auroc <= hi
    ensures AverageTrials(ms).auroc.Finite?
    ensures lo <= AverageTrials(ms).auroc.value <= hi
  {
    MeanWithin(Aurocs(ms), lo, hi);
  }

  /** The trial loop of test.py:203-208 once the passes are known: the
      measures of every trial averaged, or the error of the first trial whose
      pass raises (Python stops there). `outs[t]` is the pass of trial t. */
  function AverageOutcomes(outs: seq<Result<Scored, Error>>, inScore: seq<real>,
                           getMeasures: (seq<real>, seq<real>) -> Measures): (r: Result<Summary, Error>)
    ensures r.Success? <==> forall t :: 0 <= t < |outs| ==> outs[t].Success?
    ensures r.Failure? ==> exists t :: 0 <= t < |outs| && outs[t] == Failure(r.error) &&
                                       forall u :: 0 <= u < t ==> outs[u].Success?
    ensures r.Success? ==> (r.value.auroc.NaN? <==> |outs| == 0)
    ensures r.Success? ==> (r.value.aupr.NaN? <==> |outs| == 0)
    ensures r.Success? ==> (r.value.fpr.NaN? <==> |outs| == 0)
    ensures r.Success? && r.value.auroc.Finite? ==>
              r.value.auroc.value * (|outs| as real) == Sum(Aurocs(MeasureTrials(outs, inScore, getMeasures)))
    ensures r.Success? && r.value.aupr.Finite? ==>
              r.value.aupr.value * (|outs| as real) == Sum(Auprs(MeasureTrials(outs, inScore, getMeasures)))
    ensures r.Success? && r.value.fpr.Finite? ==>
              r.value.fpr.value * (|outs| as real) == Sum(Fprs(MeasureTrials(outs, inScore, getMeasures)))
  {
    match Collect(outs)
    case Failure(e) => Failure(e)
    case Success(_) => Success(AverageTrials(MeasureTrials(outs, inScore, getMeasures)))
  }

  /** The measures of every trial of one dataset, once every trial's
      cluster-mode pass has succeeded: `get_measures` of trial t's scores
      against the in-distribution scores. */
  function TrialMeasures(draws: seq<seq<Batch>>, centroids: seq<seq<real>>, inScore: seq<real>,
                         oodNumExamples: nat, testBs: nat, sqrt: real -> real,
                         getMeasures: (seq<real>, seq<real>) -> Measures): (ms: seq<Measures>)
    requires testBs > 0
    requires forall t :: 0 <= t < |draws| ==> WellFormed(draws[t])
    requires forall t :: 0 <= t < |draws| ==>
               GetOodScores(draws[t], Cluster(centroids), false, false, oodNumExamples, testBs, sqrt).Success?
    ensures |ms| == |draws|
    ensures forall t :: 0 <= t < |draws| ==>
              ms[t] == getMeasures(
                GetOodScores(draws[t], Cluster(centroids), false, false, oodNumExamples, testBs, sqrt).value.scores,
                inScore)
  {
    MeasureTrials(OutScores(draws, centroids, oodNumExamples, testBs, sqrt), inScore, getMeasures)
  }

  /** `get_and_print_results(ood_loader, num_to_avg, in_cluster)`
      (test.py:200-215) without the printing. Every trial runs a cluster-mode
      out-of-distribution pass over its own draw; the first pass that raises
      ends the call. Otherwise each measure is the mean over the trials of
      `get_measures` of that trial's scores; with no trials the measures are
      NaN, and no pass runs that could raise. */
  function GetAndPrintResults(draws: seq<seq<Batch>>, centroids: seq<seq<real>>, inScore: seq<real>,
                              oodNumExamples: nat, testBs: nat, sqrt: real -> real,
                              getMeasures: (seq<real>, seq<real>) -> Measures): (r: Result<Summary, Error>)
    requires testBs > 0
    requires forall t :: 0 <= t < |draws| ==> WellFormed(draws[t])
    ensures r.Success? <==> forall t :: 0 <= t < |draws| ==>
              GetOodScores(draws[t], Cluster(centroids), false, false, oodNumExamples, testBs, sqrt).Success?
    ensures r.Failure? ==>
              exists t :: 0 <= t < |draws| &&
                GetOodScores(draws[t], Cluster(centroids), false, false, oodNumExamples, testBs, sqrt)
                  == Failure(r.error) &&
                forall u :: 0 <= u < t ==>
                  GetOodScores(draws[u], Cluster(centroids), false, false, oodNumExamples, testBs, sqrt).Success?
    ensures r.Success? ==> (r.value.auroc.NaN? <==> |draws| == 0)
    ensures r.Success? ==> r.value == AverageTrials(TrialMeasures(draws, centroids, inScore, oodNumExamples, testBs, sqrt, getMeasures))
  {
    AverageOutcomes(OutScores(draws, centroids, oodNumExamples, testBs, sqrt), inScore, getMeasures)
  }

  /** Repeating the same draw `num_to_avg` times gives the measures of that
      one draw: averaging adds nothing when the loader's order is fixed. */
  lemma RepeatedDrawAveragesToOneTrial(draws: seq<seq<Batch>>, draw: seq<Batch>, centroids: seq<seq<real>>,
                                       inScore: seq<real>, oodNumExamples: nat, testBs: nat, sqrt: real -> real,
                                       getMeasures: (seq<real>, seq<real>) -> Measures)
    requires testBs > 0
    requires WellFormed(draw)
    requires |draws| > 0 && forall t :: 0 <= t < |draws| ==> draws[t] == draw
    requires |draw| > 0 && Quota(oodNumExamples, testBs) > 0 && |centroids| > 0
    ensures var m := getMeasures(
              GetOodScores(draw, Cluster(centroids), false, false, oodNumExamples, testBs, sqrt).value.scores, inScore);
            GetAndPrintResults(draws, centroids, inScore, oodNumExamples, testBs, sqrt, getMeasures)
              == Success(Summary(Finite(m.auroc), Finite(m.aupr), Finite(m.fpr)))
  {
    var pass := GetOodScores(draw, Cluster(centroids), false, false, oodNumExamples, testBs, sqrt);
    var m := getMeasures(pass.value.scores, inScore);
    var outs := OutScores(draws, centroids, oodNumExamples, testBs, sqrt);
    AverageOfIdenticalTrials(MeasureTrials(outs, inScore, getMeasures), m);
    AverageOfOneTrial(m);
  }

  /** Every dataset's draws are well-formed loaders. */
  predicate DrawsOk(datasets: seq<seq<seq<Batch>>>)
  {
    forall d, t :: 0 <= d < |datasets| && 0 <= t < |datasets[d]| ==> WellFormed(datasets[d][t])
  }

  /** The dataset sections of test.py:216-263, in order; the first dataset
      whose evaluation raises ends the run. */
  function EvaluateDatasets(datasets: seq<seq<seq<Batch>>>, centroids: seq<seq<real>>, inScore: seq<real>,
                            oodNumExamples: nat, testBs: nat, sqrt: real -> real,
                            getMeasures: (seq<real>, seq<real>) -> Measures): (r: Result<seq<Summary>, Error>)
    requires testBs > 0
    requires DrawsOk(datasets)
    ensures r.Success? ==> |r.value| == |datasets|
    ensures r.Success? ==> forall d :: 0 <= d < |datasets| ==>
              GetAndPrintResults(datasets[d], centroids, inScore, oodNumExamples, testBs, sqrt, getMeasures)
                == Success(r.value[d])
    ensures r.Failure? ==>
              exists d :: 0 <= d < |datasets| &&
                GetAndPrintResults(datasets[d], centroids, inScore, oodNumExamples, testBs, sqrt, getMeasures)
                == Failure(r.error) &&
                forall e :: 0 <= e < d ==>
                  GetAndPrintResults(datasets[e], centroids, inScore, oodNumExamples, testBs, sqrt, getMeasures).Success?
  {
    var outs := seq(|datasets|, d requires 0 <= d < |datasets| && DrawsOk(datasets) =>
      GetAndPrintResults(datasets[d], centroids, inScore, oodNumExamples, testBs, sqrt, getMeasures));
    assert forall d :: 0 <= d < |datasets| ==>
      outs[d] == GetAndPrintResults(datasets[d], centroids, inScore, oodNumExamples, testBs, sqrt, getMeasures);
    Collect(outs)
  }

  function AurocColumn(ss: seq<Summary>): (xs: seq<Stat>)
    ensures |xs| == |ss| && forall d :: 0 <= d < |ss| ==> xs[d] == ss[d].auroc
  {
    seq(|ss|, d requires 0 <= d < |ss| => ss[d].auroc)
  }

  function AuprColumn(ss: seq<Summary>): (xs: seq<Stat>)
    ensures |xs| == |ss| && forall d :: 0 <= d < |ss| ==> xs[d] == ss[d].aupr
  {
    seq(|ss|, d requires 0 <= d < |ss| => ss[d].aupr)
  }

  function FprColumn(ss: seq<Summary>): (xs: seq<Stat>)
    ensures |xs| == |ss| && forall d :: 0 <= d < |ss| ==> xs[d] == ss[d].fpr
  {
    seq(|ss|, d requires 0 <= d < |ss| => ss[d].fpr)
  }

  /** `MeanOfStats` scaled by a count known to be the column's length. */
  lemma ScaledMean(st: Stat, xs: seq<Stat>, n: nat)
    requires st == MeanOfStats(xs) && n == |xs|
    ensures st.Finite? ==> st.value * (n as real) == Sum(Values(xs))
  {
  }

  /** The "Mean" row (test.py:268-272): `np.mean` over the datasets' rows. */
  function MeanRow(ss: seq<Summary>): (s: Summary)
    ensures s.auroc.Finite? <==> |ss| > 0 && forall d :: 0 <= d < |ss| ==> ss[d].auroc.Finite?
    ensures s.aupr.Finite? <==> |ss| > 0 && forall d :: 0 <= d < |ss| ==> ss[d].aupr.Finite?
    ensures s.fpr.Finite? <==> |ss| > 0 && forall d :: 0 <= d < |ss| ==> ss[d].fpr.Finite?
  {
    Summary(MeanOfStats(AurocColumn(ss)), MeanOfStats(AuprColumn(ss)), MeanOfStats(FprColumn(ss)))
  }

  /** The AUROC of the "Mean" row, when it is a number, is `np.mean` of the
      datasets' AUROCs: times the number of datasets, it is their sum. */
  lemma {:induction false} MeanRowAuroc(ss: seq<Summary>)
    ensures MeanRow(ss).auroc.Finite? ==>
              MeanRow(ss).auroc.value * (|ss| as real) == Sum(Values(AurocColumn(ss)))
  {
    ScaledMean(MeanRow(ss).auroc, AurocColumn(ss), |ss|);
  }

  /** The same for the AUPR. */
  lemma {:induction false} MeanRowAupr(ss: seq<Summary>)
    ensures MeanRow(ss).aupr.Finite? ==>
              MeanRow(ss).aupr.value * (|ss| as real) == Sum(Values(AuprColumn(ss)))
  {
    ScaledMean(MeanRow(ss).aupr, AuprColumn(ss), |ss|);
  }

  /** The same for the FPR at 95% TPR. */
  lemma {:induction false} MeanRowFpr(ss: seq<Summary>)
    ensures MeanRow(ss).fpr.Finite? ==>
              MeanRow(ss).fpr.value * (|ss| as real) == Sum(Values(FprColumn(ss)))
  {
    ScaledMean(MeanRow(ss).fpr, FprColumn(ss), |ss|);
  }

  /** `ood_num_examples = len(test_data) // 5` (test.py:102); the test loader
      holds the whole test set. */
  function OodNumExamples(test: seq<Batch>): (n: nat)
    ensures 5 * n <= |Flatten(test)| < 5 * (n + 1)
  {
    |Flatten(test)| / 5
  }

  /** The centroid table the run uses (test.py:172-179): the cached table when
      the cache file exists, otherwise the one an in-distribution pass over
      the training loader builds. */
  function CentroidTable(train: seq<Batch>, cached: Option<seq<seq<real>>>, oodNumExamples: nat, testBs: nat,
                         sqrt: real -> real): (r: Result<seq<seq<real>>, Error>)
    requires testBs > 0
    requires WellFormed(train)
    ensures cached.Some? ==> r == Success(cached.value)
    ensures cached.None? ==> (r.Success? <==> |train| > 0)
    ensures cached.None? && r.Failure? ==> r.error == EmptyConcatenation
    ensures cached.None? && r.Success? ==>
              var rows := Samples(train, true, oodNumExamples, testBs);
              rows == Flatten(train) && r.value == BuildCentroids(rows, FeatWidth(train)) && |r.value| > 0
  {
    match cached
    case Some(table) => Success(table)
    case None =>
      var pass := GetOodScores(train, Confidence, true, true, oodNumExamples, testBs, sqrt);
      if pass.Failure? then Failure(pass.error) else Success(pass.value.centroids)
  }

  /** The passes over the test set (test.py:180-185): an in-distribution
      confidence pass for the right/wrong split, then a cluster-mode pass
      whose scores replace `in_score`, then the top-1 error. */
  function TestPasses(test: seq<Batch>, table: seq<seq<real>>, oodNumExamples: nat, testBs: nat,
                      sqrt: real -> real): (r: Result<TestResults, Error>)
    requires testBs > 0
    requires WellFormed(test)
    ensures r.Success? <==> |test| > 0 && |table| > 0
    ensures r.Failure? ==> r.error == (if |test| == 0 then EmptyConcatenation else EmptyCluster)
    ensures r.Success? ==>
              var rows := Samples(test, true, oodNumExamples, testBs);
              rows == Flatten(test) &&
              r.value.right == Select(rows, true) && r.value.wrong == Select(rows, false) &&
              Top1Err(|Select(rows, true)|, |Select(rows, false)|) == Success(r.value.top1) &&
              0.0 <= r.value.top1 <= 1.0
    ensures r.Success? ==> r.value.inScore == ScoreRows(Cluster(table), sqrt, Flatten(test))
  {
    var inDist :- GetOodScores(test, Confidence, true, true, oodNumExamples, testBs, sqrt);
    var clustered :- GetOodScores(test, Cluster(table), false, true, oodNumExamples, testBs, sqrt);
    PartitionSizes(Samples(test, true, oodNumExamples, testBs));
    // A successful pass consumed at least one sample, so the division at
    // test.py:185 always has a non-zero denominator here.
    var top1 := Top1Err(|inDist.right|, |inDist.wrong|).value;
    Success(TestResults(top1, clustered.scores, inDist.right, inDist.wrong))
  }

  /** The evaluation run. `datasets[d]` holds the per-trial loaders of the
      d-th out-of-distribution dataset, `num_to_avg` of them each. */
  function Evaluate(train: seq<Batch>, test: seq<Batch>, cached: Option<seq<seq<real>>>,
                    datasets: seq<seq<seq<Batch>>>, testBs: nat, sqrt: real -> real,
                    getMeasures: (seq<real>, seq<real>) -> Measures): (r: Result<Report, Error>)
    requires testBs > 0
    requires WellFormed(train) && WellFormed(test)
    requires DrawsOk(datasets)
    ensures |test| == 0 ==> r == Failure(EmptyConcatenation)
    ensures var ood := OodNumExamples(test);
            var t := CentroidTable(train, cached, ood, testBs, sqrt);
            r.Success? <==>
              t.Success? && TestPasses(test, t.value, ood, testBs, sqrt).Success? &&
              EvaluateDatasets(datasets, t.value, TestPasses(test, t.value, ood, testBs, sqrt).value.inScore,
                               ood, testBs, sqrt, getMeasures).Success?
    ensures var ood := OodNumExamples(test);
            var t := CentroidTable(train, cached, ood, testBs, sqrt);
            r.Failure? ==>
              if t.Failure? then r.error == t.error
              else if TestPasses(test, t.value, ood, testBs, sqrt).Failure? then
                r.error == TestPasses(test, t.value, ood, testBs, sqrt).error
              else
                r.error == EvaluateDatasets(datasets, t.value, TestPasses(test, t.value, ood, testBs, sqrt).value.inScore,
                                            ood, testBs, sqrt, getMeasures).error
    ensures r.Success? ==>
              CentroidTable(train, cached, OodNumExamples(test), testBs, sqrt) == Success(r.value.centroids) &&
              TestPasses(test, r.value.centroids, OodNumExamples(test), testBs, sqrt) == Success(r.value.test)
    ensures r.Success? ==> |r.value.perDataset| == |datasets|
    ensures r.Success? ==> forall d :: 0 <= d < |datasets| ==>
              GetAndPrintResults(datasets[d], r.value.centroids, r.value.test.inScore, OodNumExamples(test),
                                 testBs, sqrt, getMeasures) == Success(r.value.perDataset[d])
    ensures r.Success? ==> r.value.mean == MeanRow(r.value.perDataset)
    ensures r.Success? ==>
              (r.value.mean.auroc.Finite? <==> |datasets| > 0 && forall d :: 0 <= d < |datasets| ==> |datasets[d]| > 0)
  {
    var ood := OodNumExamples(test);
    var table :- CentroidTable(train, cached, ood, testBs, sqrt);
    var passes :- TestPasses(test, table, ood, testBs, sqrt);
    var perDataset :- EvaluateDatasets(datasets, table, passes.inScore, ood, testBs, sqrt, getMeasures);
    MeanAurocDefined(datasets, perDataset, table, passes.inScore, ood, testBs, sqrt, getMeasures);
    Success(Report(table, passes, perDataset, MeanRow(perDataset)))
  }

  /** The mean AUROC is a number exactly when every dataset's AUROC is, that
      is, when there are datasets and each was given at least one trial. */
  lemma MeanAurocDefined(datasets: seq<seq<seq<Batch>>>, perDataset: seq<Summary>, centroids: seq<seq<real>>,
                         inScore: seq<real>, oodNumExamples: nat, testBs: nat, sqrt: real -> real,
                         getMeasures: (seq<real>, seq<real>) -> Measures)
    requires testBs > 0
    requires DrawsOk(datasets)
    requires |perDataset| == |datasets|
    requires forall d :: 0 <= d < |datasets| ==>
               GetAndPrintResults(datasets[d], centroids, inScore, oodNumExamples, testBs, sqrt, getMeasures)
                 == Success(perDataset[d])
    ensures MeanRow(perDataset).auroc.Finite? <==> |datasets| > 0 && forall d :: 0 <= d < |datasets| ==> |datasets[d]| > 0
  {
    forall d | 0 <= d < |datasets|
      ensures perDataset[d].auroc.Finite? <==> |datasets[d]| > 0
    {
      var r := GetAndPrintResults(datasets[d], centroids, inScore, oodNumExamples, testBs, sqrt, getMeasures);
      assert r.Success? && r.value == perDataset[d];
    }
  }
}
