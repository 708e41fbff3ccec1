/** Real-valued reductions the evaluation script takes from numpy and torch:
    sums, `max`, `argmax`, `mean` (with its NaN on an empty list), and the
    square root, which the model leaves abstract and characterises by
    `IsSqrt`. */
module Reals {

  /** Sum of a sequence, first element first. */
  function Sum(xs: seq<real>): real
  {
    if |xs| == 0 then 0.0 else xs[0] + Sum(xs[1..])
  }

  lemma {:induction false} SumAppend(a: seq<real>, b: seq<real>)
    ensures Sum(a + b) == Sum(a) + Sum(b)
  {
    if |a| == 0 {
      assert a + b == b;
    } else {
      assert (a + b)[1..] == a[1..] + b;
      SumAppend(a[1..], b);
    }
  }

  /** A sum of n terms each in [lo, hi] lies in [n*lo, n*hi]. */
  lemma {:induction false} SumBounds(xs: seq<real>, lo: real, hi: real)
    requires forall i :: 0 <= i < |xs| ==> lo <= xs[i] <= hi
    ensures (|xs| as real) * lo <= Sum(xs) <= (|xs| as real) * hi
  {
    if |xs| > 0 {
      SumBounds(xs[1..], lo, hi);
    }
  }

  /** A sum of n copies of v is n * v. */
  lemma {:induction false} SumOfCopies(xs: seq<real>, v: real)
    requires forall i :: 0 <= i < |xs| ==> xs[i] == v
    ensures Sum(xs) == (|xs| as real) * v
  {
    if |xs| > 0 {
      SumOfCopies(xs[1..], v);
    }
  }

  /** Sum of squares, the squared Euclidean norm of a vector. */
  function SumSq(xs: seq<real>): (r: real)
    ensures r >= 0.0
  {
    if |xs| == 0 then 0.0 else xs[0] * xs[0] + SumSq(xs[1..])
  }

  /** `np.max` / `Tensor.max` over a non-empty row: an element of the row that
      no element exceeds. */
  function Max(xs: seq<real>): (m: real)
    requires |xs| > 0
    ensures m in xs
    ensures forall i :: 0 <= i < |xs| ==> xs[i] <= m
  {
    if |xs| == 1 then xs[0]
    else
      var rest := Max(xs[1..]);
      if xs[0] >= rest then xs[0] else rest
  }

  /** `np.argmax` over a non-empty row: the FIRST position holding the maximum. */
  function ArgMax(xs: seq<real>): (k: nat)
    requires |xs| > 0
    ensures k < |xs|
    ensures forall i :: 0 <= i < |xs| ==> xs[i] <= xs[k]
    ensures forall i :: 0 <= i < k ==> xs[i] < xs[k]
  {
    if |xs| == 1 then 0
    else
      var k := ArgMax(xs[..|xs| - 1]);
      if xs[|xs| - 1] > xs[k] then |xs| - 1 else k
  }

  /** A float64 produced by a numpy reduction: a finite value, or NaN. */
  datatype Stat = Finite(value: real) | NaN

  /** `np.mean` of a list of floats: NaN for the empty list, otherwise the
      arithmetic mean. */
  function Mean(xs: seq<real>): (r: Stat)
    ensures r.NaN? <==> |xs| == 0
    ensures r.Finite? ==> r.value * (|xs| as real) == Sum(xs)
  {
    if |xs| == 0 then NaN else Finite(Sum(xs) / (|xs| as real))
  }

  /** The mean of a single value is that value. */
  lemma MeanOfOne(x: real)
    ensures Mean([x]) == Finite(x)
  {
    assert Sum([x]) == x + Sum([]);
  }

  /** The mean of values in [lo, hi] lies in [lo, hi]. */
  lemma MeanWithin(xs: seq<real>, lo: real, hi: real)
    requires |xs| > 0
    requires forall i :: 0 <= i < |xs| ==> lo <= xs[i] <= hi
    ensures Mean(xs).Finite?
    ensures lo <= Mean(xs).value <= hi
  {
    SumBounds(xs, lo, hi);
    var n := |xs| as real;
    var m := Mean(xs).value;
    assert (m - lo) * n >= 0.0 && (hi - m) * n >= 0.0;
  }

  /** The mean of n >= 1 copies of v is v. */
  lemma MeanOfCopies(xs: seq<real>, v: real)
    requires |xs| > 0
    requires forall i :: 0 <= i < |xs| ==> xs[i] == v
    ensures Mean(xs) == Finite(v)
  {
    SumOfCopies(xs, v);
  }

  /** The values of a list of statistics none of which is NaN. */
  function Values(xs: seq<Stat>): (vs: seq<real>)
    requires forall i :: 0 <= i < |xs| ==> xs[i].Finite?
    ensures |vs| == |xs|
    ensures forall i :: 0 <= i < |xs| ==> xs[i] == Finite(vs[i])
  {
    seq(|xs|, i requires 0 <= i < |xs| && xs[i].Finite? => xs[i].value)
  }

  /** `np.mean` of a list that may hold NaN: NaN propagates, and the empty list
      is NaN too. */
  function MeanOfStats(xs: seq<Stat>): (r: Stat)
    ensures r.Finite? <==> |xs| > 0 && forall i :: 0 <= i < |xs| ==> xs[i].Finite?
    ensures r.Finite? ==> r.value * (|xs| as real) == Sum(Values(xs))
  {
    if exists i :: 0 <= i < |xs| && xs[i].NaN? then NaN else Mean(Values(xs))
  }

  /** `torch.sqrt` applied to x. The model keeps the square root abstract: it
      is a parameter, and `IsSqrt` is all that is known about it. */
  function Root(sqrt: real -> real, x: real): real
  {
    sqrt(x)
  }

  /** At x, `sqrt` gives the non-negative square root of a non-negative x. */
  ghost predicate RootAt(sqrt: real -> real, x: real)
  {
    0.0 <= x ==> 0.0 <= Root(sqrt, x) && Root(sqrt, x) * Root(sqrt, x) == x
  }

  /** `sqrt` is the non-negative square root on the non-negative reals. The
      facts are instantiated only where a proof names `RootAt`, which keeps
      the products of roots away from proofs that do not need them. */
  ghost predicate IsSqrt(sqrt: real -> real)
  {
    forall x {:trigger RootAt(sqrt, x)} :: RootAt(sqrt, x)
  }

  /** Squaring is strictly increasing on the non-negative reals. */
  lemma SquareStrictlyIncreasing(a: real, b: real)
    requires 0.0 <= a < b
    ensures a * a < b * b
  {
    calc {
      a * a;
    <= { assert a * (b - a) >= 0.0; }
      a * b;
    < { assert (b - a) * b > 0.0; }
      b * b;
    }
  }

  /** Two non-negative reals with the same square are equal. */
  lemma SquareInjective(a: real, b: real)
    requires 0.0 <= a && 0.0 <= b
    requires a * a == b * b
    ensures a == b
  {
    if a < b {
      SquareStrictlyIncreasing(a, b);
      assert false;
    } else if b < a {
      SquareStrictlyIncreasing(b, a);
      assert false;
    }
  }

  lemma SqrtMonotone(sqrt: real -> real, x: real, y: real)
    requires IsSqrt(sqrt)
    requires 0.0 <= x <= y
    ensures Root(sqrt, x) <= Root(sqrt, y)
  {
    assert RootAt(sqrt, x) && RootAt(sqrt, y);
    var a, b := Root(sqrt, x), Root(sqrt, y);
    if b < a {
      SquareStrictlyIncreasing(b, a);
      assert false;
    }
  }

  /** The root of a product of non-negative reals is the product of their
      roots. */
  lemma SqrtOfProduct(sqrt: real -> real, x: real, y: real)
    requires IsSqrt(sqrt)
    requires 0.0 <= x && 0.0 <= y
    ensures Root(sqrt, x * y) == Root(sqrt, x) * Root(sqrt, y)
  {
    assert RootAt(sqrt, x) && RootAt(sqrt, y) && RootAt(sqrt, x * y);
    var a, b := Root(sqrt, x), Root(sqrt, y);
    assert (a * b) * (a * b) == (a * a) * (b * b);
    SquareInjective(Root(sqrt, x * y), a * b);
  }

  /** The maximum commutes with the (monotone) square root: the largest root is
      the root of the largest value, so comparing squared values picks the same
      winner. */
  lemma MaxOfRoots(sqrt: real -> real, xs: seq<real>)
    requires IsSqrt(sqrt)
    requires |xs| > 0
    requires forall i :: 0 <= i < |xs| ==> 0.0 <= xs[i]
    ensures Max(seq(|xs|, i requires 0 <= i < |xs| => Root(sqrt, xs[i]))) == Root(sqrt, Max(xs))
  {
    var ys := seq(|xs|, i requires 0 <= i < |xs| => Root(sqrt, xs[i]));
    var m := Max(xs);
    var k :| 0 <= k < |xs| && xs[k] == m;
    var my := Max(ys);
    var j :| 0 <= j < |ys| && ys[j] == my;
    assert ys[k] == Root(sqrt, m) <= my;
    SqrtMonotone(sqrt, xs[j], m);
  }
}
