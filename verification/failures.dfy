/** The exceptions the scoring script can raise on its own (the network, the
    data loaders and the file system are outside the model). */
module Failures {

  datatype Error =
      /** `np.concatenate([])` or `torch.cat([])`: no batch was consumed. */
    | EmptyConcatenation
      /** A cluster-mode pass against a table with zero centroids: the batched
          product then has no elements, and `reshape(C, -1)` with C = 0 cannot
          infer the free dimension (test.py:136). */
    | EmptyCluster
      /** The cluster branch rebinds the feature list `_feat` to a tensor, so the
          in-distribution bookkeeping that appends to it fails. */
    | FeatureListOverwritten
      /** `num_wrong / (num_wrong + num_right)` with no sample at all. */
    | ZeroDivision
}
