/** The class-centroid table an in-distribution pass builds (test.py:155-163):
    the distinct labels in ascending order (`Tensor.unique` sorts), and for
    each label the coordinate-wise mean of the feature vectors of the samples
    carrying it. */
module Centroids {
  import opened Reals
  import opened Batches

  predicate StrictlyIncreasing(s: seq<int>)
  {
    forall i, j :: 0 <= i < j < |s| ==> s[i] < s[j]
  }

  /** x placed into the sorted list s, unless it is already there. */
  function Insert(s: seq<int>, x: int): (r: seq<int>)
    requires StrictlyIncreasing(s)
    ensures StrictlyIncreasing(r)
    ensures forall y :: y in r <==> y in s || y == x
    ensures |r| <= |s| + 1
  {
    if |s| == 0 then [x]
    else if x < s[0] then [x] + s
    else if x == s[0] then s
    else
      var rest := Insert(s[1..], x);
      forall i | 0 <= i < |rest|
        ensures s[0] < rest[i]
      {
        assert rest[i] in rest;
        if rest[i] != x {
          var k :| 0 <= k < |s[1..]| && s[1..][k] == rest[i];
          assert s[k + 1] == rest[i];
        }
      }
      [s[0]] + rest
  }

  /** `Tensor.unique`: the distinct values of ts, in ascending order. */
  function Unique(ts: seq<int>): (r: seq<int>)
    ensures StrictlyIncreasing(r)
    ensures forall y :: y in r <==> y in ts
    ensures |r| <= |ts|
  {
    if |ts| == 0 then [] else Insert(Unique(ts[1..]), ts[0])
  }

  lemma HeadIsMember(t: seq<int>, y: int)
    requires |t| > 0 && y == t[0]
    ensures y in t
  {
  }

  /** A list with the same elements as the empty list is empty. */
  lemma NoElements(s: seq<int>, t: seq<int>)
    requires |s| == 0
    requires forall y :: y in s <==> y in t
    ensures |t| == 0
  {
    if |t| > 0 {
      HeadIsMember(t, t[0]);
    }
  }

  /** The head of a strictly increasing list is below every other element. */
  lemma HeadIsLeast(s: seq<int>, y: int)
    requires StrictlyIncreasing(s)
    requires y in s
    ensures s[0] <= y
  {
    var k :| 0 <= k < |s| && s[k] == y;
  }

  /** A strictly increasing list is determined by its elements. */
  lemma {:induction false} SortedByElements(s: seq<int>, t: seq<int>)
    requires StrictlyIncreasing(s) && StrictlyIncreasing(t)
    requires forall y :: y in s <==> y in t
    ensures s == t
  {
    if |s| == 0 {
      NoElements(s, t);
    } else if |t| == 0 {
      NoElements(t, s);
    } else {
      assert s[0] in s && t[0] in t;
      HeadIsLeast(s, t[0]);
      HeadIsLeast(t, s[0]);
      forall y
        ensures y in s[1..] <==> y in t[1..]
      {
        if y in s[1..] {
          HeadIsLeast(s[1..], y);
          assert y in t && y != t[0];
        }
        if y in t[1..] {
          HeadIsLeast(t[1..], y);
          assert y in s && y != s[0];
        }
      }
      SortedByElements(s[1..], t[1..]);
    }
  }

  /** `unique` returns the one ascending duplicate-free list of the labels:
      any such list is it, and a list that is already ascending and
      duplicate-free comes back unchanged. */
  lemma UniqueIsCanonical(ts: seq<int>, s: seq<int>)
    requires StrictlyIncreasing(s)
    requires forall y :: y in s <==> y in ts
    ensures Unique(ts) == s
  {
    SortedByElements(Unique(ts), s);
  }

  /** The labels of the samples, in sample order (`_target`). */
  function Targets(rows: seq<Row>): (ts: seq<int>)
    ensures |ts| == |rows|
    ensures forall i :: 0 <= i < |rows| ==> ts[i] == rows[i].target
  {
    seq(|rows|, i requires 0 <= i < |rows| => rows[i].target)
  }

  /** Every feature vector has width w. */
  predicate FeatsOk(rows: seq<Row>, w: nat)
  {
    forall i :: 0 <= i < |rows| ==> |rows[i].feat| == w
  }

  /** The samples selected by the mask `_target == c`, in sample order. */
  function Members(rows: seq<Row>, c: int): (m: seq<Row>)
    ensures |m| <= |rows|
    ensures forall x :: x in m <==> x in rows && x.target == c
  {
    if |rows| == 0 then []
    else (if rows[0].target == c then [rows[0]] else []) + Members(rows[1..], c)
  }

  /** The mask keeps every sample labelled c as often as it occurs, and no
      other sample: the class mean weighs each sample as the tensor does. */
  lemma {:induction false} MembersMultiplicity(rows: seq<Row>, c: int)
    ensures forall x :: multiset(Members(rows, c))[x] == if x.target == c then multiset(rows)[x] else 0
  {
    if |rows| > 0 {
      MembersMultiplicity(rows[1..], c);
      assert rows == [rows[0]] + rows[1..];
      assert multiset(rows) == multiset{rows[0]} + multiset(rows[1..]);
    }
  }

  /** Coordinate j of every sample in rows. */
  function Column(rows: seq<Row>, j: nat): (col: seq<real>)
    requires forall i :: 0 <= i < |rows| ==> j < |rows[i].feat|
    ensures |col| == |rows|
  {
    seq(|rows|, i requires 0 <= i < |rows| => rows[i].feat[j])
  }

  /** `_feat[c_inds, :].mean(dim=0)`: the coordinate-wise mean of the
      feature vectors of a non-empty class. */
  function ClassMean(members: seq<Row>, w: nat): (m: seq<real>)
    requires |members| > 0
    requires FeatsOk(members, w)
    ensures |m| == w
    ensures forall j :: 0 <= j < w ==> Mean(Column(members, j)) == Finite(m[j])
  {
    seq(w, j requires 0 <= j < w => Sum(Column(members, j)) / (|members| as real))
  }

  /** A label that occurs has at least one member. */
  lemma MembersOfLabel(rows: seq<Row>, c: int)
    requires c in Targets(rows)
    ensures |Members(rows, c)| > 0
  {
    var i :| 0 <= i < |rows| && Targets(rows)[i] == c;
    assert rows[i] in Members(rows, c);
  }

  /** Members of a well-shaped loader are well shaped. */
  lemma MembersFeatsOk(rows: seq<Row>, c: int, w: nat)
    requires FeatsOk(rows, w)
    ensures FeatsOk(Members(rows, c), w)
  {
    var m := Members(rows, c);
    forall i | 0 <= i < |m|
      ensures |m[i].feat| == w
    {
      assert m[i] in m;
    }
  }

  /** The centroid table (test.py:157-163): one row per distinct label in
      ascending label order, each row the mean feature vector of that class. */
  function BuildCentroids(rows: seq<Row>, w: nat): (r: seq<seq<real>>)
    requires FeatsOk(rows, w)
    ensures |r| == |Unique(Targets(rows))| <= |rows|
    ensures |r| > 0 <==> |rows| > 0
    ensures forall k :: 0 <= k < |r| ==> |Members(rows, Unique(Targets(rows))[k])| > 0
    ensures forall k :: 0 <= k < |r| ==> |r[k]| == w
    ensures forall k, j :: 0 <= k < |r| && 0 <= j < w ==>
              FeatsOk(Members(rows, Unique(Targets(rows))[k]), w) &&
              Mean(Column(Members(rows, Unique(Targets(rows))[k]), j)) == Finite(r[k][j])
  {
    var labels := Unique(Targets(rows));
    assert |rows| > 0 ==> rows[0].target in labels by {
      if |rows| > 0 {
        assert Targets(rows)[0] == rows[0].target;
      }
    }
    forall k | 0 <= k < |labels|
      ensures |Members(rows, labels[k])| > 0 && FeatsOk(Members(rows, labels[k]), w)
    {
      MembersOfLabel(rows, labels[k]);
      MembersFeatsOk(rows, labels[k], w);
    }
    seq(|labels|, k requires 0 <= k < |labels| => ClassMean(Members(rows, labels[k]), w))
  }

  /** Every sample's label has a centroid row, and only the samples' labels
      do. */
  lemma CentroidPerLabel(rows: seq<Row>, c: int)
    ensures c in Unique(Targets(rows)) <==> exists i :: 0 <= i < |rows| && rows[i].target == c
  {
    if exists i :: 0 <= i < |rows| && rows[i].target == c {
      var i :| 0 <= i < |rows| && rows[i].target == c;
      assert Targets(rows)[i] == c;
    }
  }

  /** Each centroid coordinate lies within the range of that coordinate over
      the class's samples. */
  lemma CentroidInBoundingBox(members: seq<Row>, w: nat, j: nat, lo: real, hi: real)
    requires |members| > 0
    requires FeatsOk(members, w)
    requires j < w
    requires forall i :: 0 <= i < |members| ==> lo <= members[i].feat[j] <= hi
    ensures lo <= ClassMean(members, w)[j] <= hi
  {
    MeanWithin(Column(members, j), lo, hi);
  }

  /** A class whose samples all share one feature vector has that vector as
      its centroid. */
  lemma CentroidOfIdenticalFeatures(members: seq<Row>, v: seq<real>)
    requires |members| > 0
    requires forall i :: 0 <= i < |members| ==> members[i].feat == v
    ensures ClassMean(members, |v|) == v
  {
    var m := ClassMean(members, |v|);
    forall j | 0 <= j < |v|
      ensures m[j] == v[j]
    {
      SumOfCopies(Column(members, j), v[j]);
    }
  }
}
