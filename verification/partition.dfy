/** The right/wrong split of an in-distribution pass (test.py:143-153) and the
    top-1 error computed from it (test.py:183-185). A sample is "right" when
    numpy's argmax over its in-distribution softmax row equals its label; its
    in-distribution score is the negated largest entry of that row. */
module Partition {
  import opened Wrappers
  import opened Failures
  import opened Reals
  import opened Batches

  /** Every sample carries a non-empty in-distribution softmax row. */
  predicate Classified(rows: seq<Row>)
  {
    forall i :: 0 <= i < |rows| ==> |rows[i].probsIn| > 0
  }

  /** The predicted class (test.py:145): the first position of the largest
      in-distribution probability. */
  function Prediction(row: Row): (k: nat)
    requires |row.probsIn| > 0
    ensures k < |row.probsIn|
    ensures forall i :: 0 <= i < |row.probsIn| ==> row.probsIn[i] <= row.probsIn[k]
    ensures forall i :: 0 <= i < k ==> row.probsIn[i] < row.probsIn[k]
  {
    ArgMax(row.probsIn)
  }

  /** test.py:147: the prediction agrees with the label. */
  predicate IsRight(row: Row)
    requires |row.probsIn| > 0
  {
    Prediction(row) == row.target
  }

  /** The score kept in `_right_score` / `_wrong_score` for one sample
      (test.py:152-153): the negated largest in-distribution probability. */
  function InScore(row: Row): (r: real)
    requires |row.probsIn| > 0
    ensures exists i :: 0 <= i < |row.probsIn| && r == -row.probsIn[i]
    ensures forall i :: 0 <= i < |row.probsIn| ==> r <= -row.probsIn[i]
  {
    -Max(row.probsIn)
  }

  /** The score of a sample is the negated probability of the class it is
      predicted to be: the maximum and the argmax name the same entry. */
  lemma InScoreIsPredictedProbability(row: Row)
    requires |row.probsIn| > 0
    ensures InScore(row) == -row.probsIn[Prediction(row)]
  {
    var m := Max(row.probsIn);
    var k := Prediction(row);
    var j :| 0 <= j < |row.probsIn| && row.probsIn[j] == m;
    assert row.probsIn[j] <= row.probsIn[k];
  }

  /** The scores of the samples whose correctness is `right`, in sample order:
      `-np.max(smax_in[right_indices])` for `right`, and the same over the
      inverted mask otherwise. */
  function Select(rows: seq<Row>, right: bool): (r: seq<real>)
    requires Classified(rows)
    ensures |r| <= |rows|
  {
    if |rows| == 0 then []
    else (if IsRight(rows[0]) == right then [InScore(rows[0])] else []) + Select(rows[1..], right)
  }

  /** Every sample whose correctness is `right` has its score selected. */
  lemma {:induction false} SelectKeeps(rows: seq<Row>, right: bool, i: nat)
    requires Classified(rows)
    requires i < |rows| && IsRight(rows[i]) == right
    ensures InScore(rows[i]) in Select(rows, right)
  {
    if i > 0 {
      assert rows[i] == rows[1..][i - 1];
      SelectKeeps(rows[1..], right, i - 1);
    }
  }

  /** Every selected score belongs to a sample whose correctness is `right`. */
  lemma {:induction false} SelectOnly(rows: seq<Row>, right: bool, x: real)
    requires Classified(rows)
    requires x in Select(rows, right)
    ensures exists i :: 0 <= i < |rows| && IsRight(rows[i]) == right && x == InScore(rows[i])
  {
    var head := if IsRight(rows[0]) == right then [InScore(rows[0])] else [];
    if x !in head {
      SelectOnly(rows[1..], right, x);
      var j :| 0 <= j < |rows[1..]| && IsRight(rows[1..][j]) == right && x == InScore(rows[1..][j]);
      assert rows[j + 1] == rows[1..][j];
    }
  }

  /** A score is selected exactly when it is the score of some sample whose
      correctness is `right`. */
  lemma SelectMembers(rows: seq<Row>, right: bool)
    requires Classified(rows)
    ensures forall i :: 0 <= i < |rows| && IsRight(rows[i]) == right ==> InScore(rows[i]) in Select(rows, right)
    ensures forall x :: x in Select(rows, right) ==>
              exists i :: 0 <= i < |rows| && IsRight(rows[i]) == right && x == InScore(rows[i])
  {
    forall i | 0 <= i < |rows| && IsRight(rows[i]) == right
      ensures InScore(rows[i]) in Select(rows, right)
    {
      SelectKeeps(rows, right, i);
    }
    forall x | x in Select(rows, right)
      ensures exists i :: 0 <= i < |rows| && IsRight(rows[i]) == right && x == InScore(rows[i])
    {
      SelectOnly(rows, right, x);
    }
  }

  /** The in-distribution score of every sample, in sample order. */
  function InScores(rows: seq<Row>): (r: seq<real>)
    requires Classified(rows)
    ensures |r| == |rows|
    ensures forall i :: 0 <= i < |rows| ==> r[i] == InScore(rows[i])
  {
    if |rows| == 0 then []
    else
      var rest := InScores(rows[1..]);
      assert forall i :: 1 <= i < |rows| ==> rows[i] == rows[1..][i - 1];
      [InScore(rows[0])] + rest
  }

  /** Selection distributes over concatenation, so selecting batch by batch
      and concatenating (test.py:152-153 with `concat` at 165) equals
      selecting from the concatenated samples. */
  lemma {:induction false} SelectAppend(a: seq<Row>, b: seq<Row>, right: bool)
    requires Classified(a) && Classified(b)
    ensures Classified(a + b)
    ensures Select(a + b, right) == Select(a, right) + Select(b, right)
  {
    ClassifiedAppend(a, b);
    if |a| > 0 {
      var ab, rest := a + b, a[1..];
      assert ab[0] == a[0] && ab[1..] == rest + b;
      SelectAppend(rest, b, right);
      var head := if IsRight(a[0]) == right then [InScore(a[0])] else [];
      assert Select(ab, right) == head + (Select(rest, right) + Select(b, right));
      assert Select(a, right) == head + Select(rest, right);
    } else {
      assert a + b == b;
    }
  }

  lemma ClassifiedAppend(a: seq<Row>, b: seq<Row>)
    requires Classified(a) && Classified(b)
    ensures Classified(a + b)
  {
    forall i | 0 <= i < |a + b|
      ensures |(a + b)[i].probsIn| > 0
    {
      if i < |a| {
        assert (a + b)[i] == a[i];
      } else {
        assert (a + b)[i] == b[i - |a|];
      }
    }
  }

  /** The per-batch lists the loop appends to `_right_score` (`right`) or
      `_wrong_score` (not `right`). */
  function SelectBatches(batches: seq<Batch>, right: bool): (r: seq<seq<real>>)
    requires forall b :: 0 <= b < |batches| ==> Classified(batches[b])
    ensures |r| == |batches|
  {
    if |batches| == 0 then []
    else [Select(batches[0], right)] + SelectBatches(batches[1..], right)
  }

  /** Splitting batch by batch and concatenating the pieces gives the split of
      all samples at once. */
  lemma {:induction false} BatchedSelect(batches: seq<Batch>, right: bool)
    requires forall b :: 0 <= b < |batches| ==> Classified(batches[b])
    ensures Classified(Flatten(batches))
    ensures Flatten(SelectBatches(batches, right)) == Select(Flatten(batches), right)
  {
    if |batches| > 0 {
      BatchedSelect(batches[1..], right);
      SelectAppend(batches[0], Flatten(batches[1..]), right);
    }
  }

  /** Every sample lands in exactly one of the two lists: the sizes add up. */
  lemma {:induction false} PartitionSizes(rows: seq<Row>)
    requires Classified(rows)
    ensures |Select(rows, true)| + |Select(rows, false)| == |rows|
  {
    if |rows| > 0 {
      PartitionSizes(rows[1..]);
    }
  }

  /** The first sample goes to the list its correctness selects. */
  lemma SelectStep(rows: seq<Row>)
    requires Classified(rows) && |rows| > 0
    ensures IsRight(rows[0]) ==>
              Select(rows, true) == [InScore(rows[0])] + Select(rows[1..], true) &&
              Select(rows, false) == Select(rows[1..], false)
    ensures !IsRight(rows[0]) ==>
              Select(rows, true) == Select(rows[1..], true) &&
              Select(rows, false) == [InScore(rows[0])] + Select(rows[1..], false)
  {
  }

  /** Adding x to either side of a split adds it to the whole. */
  lemma AddToSplit(x: real, r: seq<real>, w: seq<real>, all: seq<real>)
    requires multiset(r) + multiset(w) == multiset(all)
    ensures multiset([x] + r) + multiset(w) == multiset([x] + all)
    ensures multiset(r) + multiset([x] + w) == multiset([x] + all)
  {
  }

  /** The two lists together hold exactly the in-distribution scores of all
      samples, each as often as it occurs. */
  lemma {:induction false} PartitionContents(rows: seq<Row>)
    requires Classified(rows)
    ensures multiset(Select(rows, true)) + multiset(Select(rows, false)) == multiset(InScores(rows))
  {
    if |rows| > 0 {
      PartitionContents(rows[1..]);
      SelectStep(rows);
      AddToSplit(InScore(rows[0]), Select(rows[1..], true), Select(rows[1..], false), InScores(rows[1..]));
    }
  }

  /** No sample is wrong exactly when every sample is right. */
  lemma {:induction false} NoWrongIffAllRight(rows: seq<Row>)
    requires Classified(rows)
    ensures |Select(rows, false)| == 0 <==> forall i :: 0 <= i < |rows| ==> IsRight(rows[i])
  {
    if |rows| > 0 {
      NoWrongIffAllRight(rows[1..]);
      assert forall i :: 1 <= i < |rows| ==> rows[i] == rows[1..][i - 1];
    }
  }

  /** `num_wrong / (num_wrong + num_right)` (test.py:183-185); Python raises
      ZeroDivisionError when both counts are zero. */
  function Top1Err(numRight: nat, numWrong: nat): (r: Result<real, Error>)
    ensures r.Failure? <==> numRight + numWrong == 0
    ensures r.Failure? ==> r.error == ZeroDivision
    ensures r.Success? ==> 0.0 <= r.value <= 1.0
    ensures r.Success? ==> r.value * ((numRight + numWrong) as real) == numWrong as real
    ensures r.Success? ==> (r.value == 0.0 <==> numWrong == 0)
  {
    var total := numRight + numWrong;
    if total == 0 then Failure(ZeroDivision) else Success(numWrong as real / total as real)
  }

  /** The top-1 error of a non-empty pass is the fraction of wrong samples,
      and it is zero exactly when every sample is classified right. */
  lemma Top1ErrOfPartition(rows: seq<Row>)
    requires Classified(rows)
    requires |rows| > 0
    ensures Top1Err(|Select(rows, true)|, |Select(rows, false)|).Success?
    ensures Top1Err(|Select(rows, true)|, |Select(rows, false)|).value == |Select(rows, false)| as real / |rows| as real
    ensures Top1Err(|Select(rows, true)|, |Select(rows, false)|).value == 0.0
        <==> forall i :: 0 <= i < |rows| ==> IsRight(rows[i])
  {
    PartitionSizes(rows);
    NoWrongIffAllRight(rows);
  }
}
