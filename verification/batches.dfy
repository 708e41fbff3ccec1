/** What a data loader hands the scoring loop, and which of its batches the
    loop consumes (test.py:116-118). The network's forward pass and softmax
    are outside the model: each sample arrives with its softmax rows and its
    feature vector already computed. */
module Batches {

  /** One sample after the forward pass: `probs` is the softmax over all
      outputs, `probsIn` the softmax over the first `num_classes` outputs,
      `feat` the feature vector, `target` the label. */
  datatype Row = Row(probs: seq<real>, probsIn: seq<real>, feat: seq<real>, target: int)

  type Batch = seq<Row>

  function Min(a: int, b: int): int
  {
    if a <= b then a else b
  }

  /** The shape the network guarantees: non-empty softmax rows and a feature
      vector of the network's fixed width. */
  predicate RowOk(row: Row, width: nat)
  {
    |row.probs| > 0 && |row.probsIn| > 0 && |row.feat| == width
  }

  predicate RowsOk(rows: seq<Row>, width: nat)
  {
    forall i :: 0 <= i < |rows| ==> RowOk(rows[i], width)
  }

  /** The feature width of a loader, read off its first sample. */
  function FeatWidth(loader: seq<Batch>): nat
  {
    if |loader| > 0 && |loader[0]| > 0 then |loader[0][0].feat| else 0
  }

  /** A loader as `torch.utils.data.DataLoader` produces it: no empty batch, and
      every sample shaped by the same network. */
  predicate WellFormed(loader: seq<Batch>)
  {
    forall b :: 0 <= b < |loader| ==> |loader[b]| > 0 && RowsOk(loader[b], FeatWidth(loader))
  }

  /** Concatenation along the sample axis (`np.concatenate(x, axis=0)`,
      `torch.cat(x, dim=0)`), first batch first. */
  function Flatten<T>(xss: seq<seq<T>>): seq<T>
  {
    if |xss| == 0 then [] else xss[0] + Flatten(xss[1..])
  }

  lemma {:induction false} FlattenAppend<T>(a: seq<seq<T>>, b: seq<seq<T>>)
    ensures Flatten(a + b) == Flatten(a) + Flatten(b)
  {
    if |a| == 0 {
      assert a + b == b;
    } else {
      assert (a + b)[1..] == a[1..] + b;
      FlattenAppend(a[1..], b);
    }
  }

  /** Concatenation keeps every sample of every batch and nothing else. */
  lemma {:induction false} FlattenRowsOk(loader: seq<Batch>, width: nat)
    requires forall b :: 0 <= b < |loader| ==> RowsOk(loader[b], width)
    ensures RowsOk(Flatten(loader), width)
  {
    if |loader| > 0 {
      FlattenRowsOk(loader[1..], width);
    }
  }

  /** Concatenating non-empty batches gives no samples only when there are no
      batches. */
  lemma {:induction false} FlattenEmpty<T>(xss: seq<seq<T>>)
    requires forall b :: 0 <= b < |xss| ==> |xss[b]| > 0
    ensures |Flatten(xss)| == 0 <==> |xss| == 0
  {
    if |xss| > 0 {
      assert |xss[0]| > 0;
    }
  }

  /** With `n` batches of at most `bs` samples, at most `n * bs` samples. */
  lemma {:induction false} FlattenLength(loader: seq<Batch>, bs: nat)
    requires forall b :: 0 <= b < |loader| ==> |loader[b]| <= bs
    ensures |Flatten(loader)| <= |loader| * bs
  {
    if |loader| > 0 {
      FlattenLength(loader[1..], bs);
    }
  }

  /** The batch loop of test.py:116-118 from batch index `i` on: it stops at the
      first index that reaches `quota` unless `inTest` is set, and otherwise
      runs to the end of the loader. */
  function ConsumeFrom(loader: seq<Batch>, i: nat, inTest: bool, quota: nat): (r: seq<Batch>)
    requires i <= |loader|
    ensures inTest ==> r == loader[i..]
    ensures !inTest && i < quota ==> r == loader[i..Min(quota, |loader|)]
    ensures !inTest && quota <= i ==> r == []
    decreases |loader| - i
  {
    if i == |loader| then []
    else if i >= quota && !inTest then []
    else [loader[i]] + ConsumeFrom(loader, i + 1, inTest, quota)
  }

  /** The batches one call scores. In test mode every batch; otherwise exactly
      the batches whose index is below the quota, in loader order. */
  function Consume(loader: seq<Batch>, inTest: bool, quota: nat): (r: seq<Batch>)
    ensures inTest ==> r == loader
    ensures !inTest ==> r == loader[..Min(quota, |loader|)]
    ensures |r| == 0 <==> |loader| == 0 || (!inTest && quota == 0)
  {
    assert loader[0..] == loader;
    ConsumeFrom(loader, 0, inTest, quota)
  }
}
