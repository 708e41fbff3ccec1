# Out-of-distribution scoring and evaluation, modelled in Dafny

This project models the scoring and evaluation core of `test.py`, an
evaluation script for out-of-distribution (OOD) detection. The script scores
every sample of a data loader in one of two ways:

- in **confidence mode**, the score is the negated largest softmax
  probability;
- in **cluster mode**, the score is the negated largest "closeness" of the
  sample's feature vector to a table of class centroids. The closeness of
  centroid `c` and feature `f` is the Frobenius norm of the outer product
  `c fᵀ` that `torch.bmm` forms.

An in-distribution pass also does two more things. It splits the samples into
correctly and wrongly classified ones, and the top-1 error is computed from
that split. It also builds the centroid table: one mean feature vector per
distinct label, in ascending label order. The OOD datasets are then scored
`num_to_avg` times each. Each trial is measured against the in-distribution
scores, the measures are averaged per dataset, and a final "Mean" row
averages the datasets.

The modules follow the script's structure:

| module | file | what it holds |
|---|---|---|
| `Wrappers` | wrappers.dfy | `Result`/`Option`, and `Collect`, which runs steps until the first one raises |
| `Failures` | failures.dfy | the exceptions the modelled code can raise |
| `Reals` | reals.dfy | `Sum`, `Max`, `ArgMax` (first maximum, as numpy), `Mean` with NaN on an empty list, and the abstract square root |
| `Batches` | batches.dfy | samples, loaders, concatenation, and the batch quota loop |
| `Scoring` | scoring.dfy | confidence and cluster scores, per sample and per batch |
| `Partition` | partition.dfy | the right/wrong split and the top-1 error |
| `Centroids` | centroids.dfy | `unique` and the class-centroid table |
| `OodScores` | oodscores.dfy | `get_ood_scores` |
| `Evaluation` | evaluation.dfy | the main flow: centroid table, test passes, trials, datasets, mean row |

Each sample reaches the model after the forward pass. A `Row` carries:

- its softmax over all outputs (`probs`, used for the score);
- its softmax over the first `num_classes` outputs (`probsIn`, used for the
  right/wrong split);
- its feature vector;
- its label.

The exceptions the script can raise inside the modelled code are ordinary
`Failure` values:

- an empty `np.concatenate`/`torch.cat` when no batch is consumed;
- a cluster-mode pass against an empty centroid table, where
  `reshape(C, -1)` with C = 0 raises (test.py:136);
- the `AttributeError` of an in-distribution pass in cluster mode;
- a zero division in the top-1 error.

Where the script's behaviour is easy to misread, the model follows the code:

- The confidence score takes the softmax over **all** outputs (test.py:126-127).
  Only the right/wrong split restricts to the first `num_classes`
  (test.py:144).
- After the confidence pass over the test set, `in_score` is overwritten by
  the cluster-mode scores of the same set (test.py:181). Every dataset is
  therefore compared against cluster-mode in-distribution scores.
- The centroid table is a list in ascending label order (`Tensor.unique`
  sorts), not a map keyed by label.
- Averaging zero trials or zero datasets gives NaN (numpy's mean of an empty
  list) rather than a distinct error.

Inside `get_ood_scores`, cluster mode rebinds `_feat` to a tensor
(test.py:134). An in-distribution pass in cluster mode therefore fails at
`_feat.append` (test.py:150). The model keeps this as the
`FeatureListOverwritten` failure. The script never makes that call.

## Model

| member | source | states |
|---|---|---|
| Batches.ConsumeFrom | test.py:116-118 | from batch index i, the loop yields the rest of the loader in test mode; otherwise it yields the batches from i up to the quota, and none once i has reached it |
| Batches.Consume | test.py:116-118 | a call consumes the whole loader in test mode and otherwise exactly the first `min(quota, len)` batches; it consumes nothing exactly when the loader is empty or, outside test mode, the quota is zero |
| OodScores.Quota | test.py:117 | the quota `ood_num_examples // test_bs` is the largest q with q·test_bs ≤ ood_num_examples |
| OodScores.Consumed | test.py:116-118 | a call consumes the whole loader in test mode and otherwise exactly its first `min(ood_num_examples // test_bs, len)` batches; they are non-empty and well-shaped, and none are consumed exactly when the loader is empty or, outside test mode, the quota is zero |
| OodScores.Samples | test.py:116-165 | the samples are the concatenation of the consumed batches: the whole loader in test mode, otherwise its first `min(quota, len)` batches; they are empty exactly when no batch is consumed |
| OodScores.GetOodScores | test.py:108-170 | fails with an empty concatenation exactly when no batch is consumed, with an empty cluster exactly when batches are consumed against zero centroids, and with the overwritten feature list exactly when an in-distribution pass runs in cluster mode; otherwise it returns the per-sample scores of the consumed samples, plus the right/wrong scores and centroid table in an in-distribution pass; outside test and in-distribution mode the scores are cut to at most `ood_num_examples` |
| OodScores.SliceKeepsAllScores | test.py:117-170 | a non-test pass that consumes a batch succeeds, and when no batch exceeds `test_bs` its final `[:ood_num_examples]` slice removes nothing |
| OodScores.LaterBatchesIgnored | test.py:116-118 | outside test mode, batches at or past the quota never influence the result |
| OodScores.InDistributionTop1 | test.py:143-185 | a confidence-mode in-distribution pass that consumes a batch succeeds; its right and wrong lists together hold one score per sample (as a multiset, the in-distribution scores of all samples), so the top-1 error is defined and lies in [0, 1] |
| Scoring.ConfidenceScore | test.py:126-127 | the confidence score is the negation of some softmax entry, and no entry's negation lies below it |
| Scoring.ClusterScore | test.py:130-141 | the cluster score is the negated closeness to some centroid, and lies at or below the negated closeness to every centroid |
| Scoring.ScoreBatch | test.py:124-141 | scoring a batch with tensors (cluster mode through the (C,N) matrix, its permutation and row-wise max) gives each sample its individual score, in batch order |
| Scoring.ScoreBatches | test.py:116-141 | the loop appends one score array per consumed batch, in loader order, and array b holds the sample-by-sample scores of batch b |
| Scoring.BatchedScoresAreSampleScores | test.py:116-170 | concatenating the per-batch score arrays gives exactly the sample-by-sample scores of the concatenated samples |
| Scoring.OuterEntries | test.py:134-136 | entry (i, j) of the batched product of a centroid and a feature vector is c[i]·f[j] |
| Scoring.OuterSumSq | test.py:136-137 | the sum of squares over the reshaped product is ‖c‖²·‖f‖² |
| Scoring.Closeness | test.py:134-137 | the closeness is the square root of ‖c‖²·‖f‖²; with a true square root it is ‖c‖·‖f‖, so it does not depend on the angle between c and f |
| Scoring.ClusterScoreNonPositive | test.py:137-141 | every cluster-mode score is at most zero |
| Scoring.ClusterScoreFromSquares | test.py:137-140 | the maximum over roots is the root of the maximum squared closeness, so the square root does not change which centroid wins |
| Reals.ArgMax | test.py:145 | the argmax is a valid index holding a maximum, and every earlier index holds a strictly smaller value (numpy returns the first maximum) |
| Reals.Max | test.py:127 | the maximum is an element of the row that no element exceeds |
| Reals.SqrtOfProduct | test.py:137 | the square root of a product of non-negative reals is the product of the roots |
| Reals.MaxOfRoots | test.py:137-140 | the largest square root is the square root of the largest value |
| Reals.Mean | test.py:208 | `np.mean` is NaN exactly for an empty list, and otherwise its value times the length is the sum |
| Reals.MeanWithin | test.py:208 | the mean of values in [lo, hi] lies in [lo, hi] |
| Reals.MeanOfStats | test.py:270-272 | the mean of a list of numpy means is finite exactly when the list is non-empty and no entry is NaN, and its value times the length is the sum of the entries |
| Partition.Prediction | test.py:145 | the prediction indexes the first largest in-distribution probability |
| Partition.InScore | test.py:152-153 | a sample's right/wrong score is the negation of one of its in-distribution probabilities, and lies at or below the negation of every one of them |
| Partition.InScoreIsPredictedProbability | test.py:144-153 | a sample's right/wrong score is the negated probability of the class it is predicted to be |
| Partition.SelectMembers | test.py:147-153 | a score is in the right (wrong) list exactly when it is the in-distribution score of some sample classified right (wrong), and every such sample's score is there |
| Partition.SelectAppend | test.py:152-153 | the right (or wrong) selection distributes over concatenation of sample lists |
| Partition.BatchedSelect | test.py:143-165 | selecting batch by batch and concatenating equals selecting from the concatenated samples |
| Partition.PartitionSizes | test.py:147-148 | every sample is in exactly one of the right and wrong lists: their lengths add up to the number of samples |
| Partition.PartitionContents | test.py:147-153 | the right and wrong lists together are, as a multiset, the in-distribution scores of all samples |
| Partition.NoWrongIffAllRight | test.py:147-153 | the wrong list is empty exactly when every prediction matches its label |
| Partition.Top1Err | test.py:183-185 | the top-1 error raises a zero division exactly when both counts are zero; otherwise it lies in [0, 1], times the total it gives the wrong count, and it is zero exactly when nothing is wrong |
| Partition.Top1ErrOfPartition | test.py:183-185 | for a non-empty pass the top-1 error is the fraction of wrong samples, and it is zero exactly when every sample is classified right |
| Centroids.Insert | test.py:158 | inserting into an ascending duplicate-free list keeps it so and adds exactly the new value |
| Centroids.Unique | test.py:158 | `unique` returns an ascending duplicate-free list holding exactly the labels that occur |
| Centroids.UniqueIsCanonical | test.py:158 | any ascending duplicate-free list holding exactly those labels is the result of `unique` |
| Centroids.Members | test.py:161 | the mask `_target == c` selects exactly the samples labelled c |
| Centroids.MembersMultiplicity | test.py:161-162 | the mask keeps each sample labelled c as many times as it occurs and no other sample, so the class mean weighs every member as the tensor does |
| Centroids.ClassMean | test.py:162 | each coordinate of a class mean is `np.mean` of that coordinate over the class's samples |
| Centroids.BuildCentroids | test.py:155-163 | the table has one row per distinct label, in ascending label order; it is non-empty exactly when there are samples; every row has the feature width and is the coordinate-wise mean of its class's (non-empty) members |
| Centroids.CentroidPerLabel | test.py:158-163 | a label has a centroid exactly when some sample carries it |
| Centroids.CentroidInBoundingBox | test.py:162 | each centroid coordinate lies within the range of that coordinate over its class |
| Centroids.CentroidOfIdenticalFeatures | test.py:162 | a class whose samples share one feature vector has that vector as its centroid |
| Evaluation.OodNumExamples | test.py:102 | `ood_num_examples` is the largest n with 5n not exceeding the test set size |
| Evaluation.AverageTrials | test.py:208 | each averaged measure is NaN exactly when there are no trials, and otherwise its value times the trial count is the sum of that measure over the trials |
| Evaluation.AverageOfOneTrial | test.py:202-208 | a single trial averages to its own measures |
| Evaluation.AverageOfIdenticalTrials | test.py:202-208 | trials with identical measures average to those measures |
| Evaluation.AverageAurocWithin | test.py:208 | the averaged AUROC lies within the range of the trials' AUROCs |
| Evaluation.AverageOutcomes | test.py:202-208 | the trial loop succeeds exactly when every trial's pass succeeds; otherwise it raises the error of the first failing trial, after all earlier trials succeeded; on success each of AUROC, AUPR and FPR is NaN exactly when there are no trials, and otherwise its value times the trial count is the sum of that measure over the trials |
| Evaluation.GetAndPrintResults | test.py:200-215 | the call succeeds exactly when the cluster-mode pass of every trial succeeds, and otherwise raises the error of the first failing trial after all earlier ones succeeded; on success the AUROC is NaN exactly when there are no trials, and the summary is the trial average of the per-trial measures (each measure times the trial count is its sum over the trials) |
| Evaluation.RepeatedDrawAveragesToOneTrial | test.py:200-208 | repeating one fixed draw, with a batch to consume and a non-empty centroid table, succeeds with exactly the AUROC, AUPR and FPR that `get_measures` gives for that single draw |
| Evaluation.EvaluateDatasets | test.py:224-265 | on success there is one summary per dataset, each the result of `get_and_print_results` on that dataset; a failure is the failure of the first dataset whose evaluation fails, after every earlier dataset succeeded |
| Evaluation.MeanRow | test.py:270-272 | each mean-row entry is finite exactly when there are datasets and none of them has NaN there |
| Evaluation.MeanRowAuroc | test.py:270-272 | the mean row's AUROC, when finite, times the number of datasets is the sum of the datasets' AUROCs |
| Evaluation.MeanRowAupr | test.py:270-272 | the mean row's AUPR, when finite, times the number of datasets is the sum of the datasets' AUPRs |
| Evaluation.MeanRowFpr | test.py:270-272 | the mean row's FPR, when finite, times the number of datasets is the sum of the datasets' FPRs |
| Evaluation.MeanAurocDefined | test.py:270-272 | once every dataset has been evaluated, the mean AUROC is a number exactly when there are datasets and each was given at least one trial |
| Evaluation.CentroidTable | test.py:172-179 | a cached table is used as is; otherwise the table exists exactly when the training loader has batches, and it is the centroid table of the whole training set |
| Evaluation.TestPasses | test.py:180-185 | the test passes succeed exactly when the test loader and the centroid table are non-empty; the right/wrong lists are those of the whole test set, the top-1 error is their error and lies in [0, 1], and `in_score` is the cluster-mode scores of the test set |
| Evaluation.Evaluate | test.py:172-272 | the run succeeds exactly when the centroid table (cached or built from the training pass), both test passes and every dataset succeed, and otherwise raises the error of the first stage that fails, so an empty test loader fails with an empty concatenation; a successful run uses that table and those test passes, reports one summary per dataset computed against the test set's `in_score`, its mean row is the mean over those summaries, and its mean AUROC is finite exactly when there are datasets and each has at least one trial |
| Wrappers.Collect | test.py:203-206 | running steps in order yields all their values when each succeeds, and otherwise the error of the first failing step |

## Left out

- The network's forward pass, `cuda`, and the softmax (test.py:63-98, 120-126, 144) are left out. They are arithmetic on tensors the model does not see, so each sample arrives with its softmax rows and feature vector already computed.
- `get_measures`, `show_performance`, `print_measures` and `print_measures_with_std` (test.py:195, 205, 211-214, 270) are left out. They live in other files and compute or print ranking statistics, so `get_measures` is a function parameter and the printing is not modelled.
- Dataset construction, `DataLoader` and shuffling (test.py:52-61, 218-263) are left out. They are I/O, so each trial of each dataset is given as its own list of batches.
- Argument parsing, the logger and the CSV records (test.py:22-47, 82-87, 186, 226-273) are left out. They are I/O. Only the values written are modelled.
- The cache file `in_cluster.npy` (test.py:172-179) is left out. It is file I/O, so its contents are an `Option` parameter, `Some` when the file exists. Writing it back is not modelled.
- `torch.sqrt` is left out. It is a function parameter, characterised only by `IsSqrt` where a lemma needs it.
- Floating point is left out. Scores, means and the top-1 error are exact reals, with no rounding and no NaN from arithmetic. The only NaN modelled is numpy's mean of an empty list.
- Evaluation.TestPasses: it does not model the zero-division path of the top-1 error. That path cannot be reached after a successful in-distribution pass (`OodScores.InDistributionTop1`).
- Every operation requires `test_bs > 0`, which `DataLoader` enforces. It also requires well-formed loaders: no empty batch, non-empty softmax rows, and one feature width per loader. The network and `DataLoader` guarantee these, and the script does not check them.
