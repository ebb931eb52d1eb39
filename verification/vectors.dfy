/** Exact-arithmetic vocabulary for the layers: row-major addressing of a
    [num x channels] buffer and the reductions the Caffe helpers compute. */
module Vectors {

  /** Row-major address of element k of sample j when every sample holds c values
      (the `j*channels + k` addressing of all three layers). */
  function Index(j: nat, k: nat, c: nat): nat
  {
    j * c + k
  }

  /** An element of sample j < n lies inside sample j and inside the n*c buffer. */
  lemma {:induction false} IndexInBounds(j: nat, k: nat, c: nat, n: nat)
    requires j < n && k < c
    ensures j * c <= Index(j, k, c) < j * c + c <= n * c
  {
    RowInBounds(j, c, n);
  }

  lemma {:induction false} MulMonotone(a: nat, b: nat, c: nat)
    requires a <= b
    ensures a * c <= b * c
  {
    if a < b {
      MulMonotone(a, b - 1, c);
      assert (b - 1) * c + c == b * c;
    }
  }

  /** Every position of a buffer of n samples of c values is some element k of
      some sample j. */
  lemma {:induction false} RowOf(p: nat, c: nat, n: nat) returns (j: nat, k: nat)
    requires p < n * c
    ensures j < n && k < c && p == Index(j, k, c)
  {
    if c == 0 {
      assert false;
    }
    j, k := p / c, p % c;
    assert p == j * c + k;
    if n <= j {
      MulMonotone(n, j, c);
      assert false;
    }
  }

  /** A sample j < n ends inside a buffer of n samples of c values each. */
  lemma {:induction false} RowInBounds(j: nat, c: nat, n: nat)
    requires j < n
    ensures 0 <= j * c && j * c + c <= n * c
  {
    assert j * c + c == (j + 1) * c;
    MulMonotone(j + 1, n, c);
  }

  /** Sample j of a row-major buffer holding (at least) n samples of c values:
      the pointer `data + j*c` with length c. */
  function Row(s: seq<real>, n: nat, c: nat, j: nat): (r: seq<real>)
    requires n * c <= |s| && j < n
    ensures j * c + c <= |s|
    ensures |r| == c
    ensures forall k :: 0 <= k < c ==> r[k] == s[Index(j, k, c)]
  {
    RowInBounds(j, c, n);
    s[j * c .. j * c + c]
  }

  /** Buffers that agree on their first m samples have the same samples j < m. */
  lemma {:induction false} RowsAgree(s: seq<real>, t: seq<real>, n: nat, c: nat, m: nat)
    requires n * c <= |s| && n * c <= |t| && m <= n
    requires forall p :: 0 <= p < m * c ==> s[p] == t[p]
    ensures forall j :: 0 <= j < m ==> Row(s, n, c, j) == Row(t, n, c, j)
  {
    forall j | 0 <= j < m
      ensures Row(s, n, c, j) == Row(t, n, c, j)
    {
      forall k | 0 <= k < c
        ensures Row(s, n, c, j)[k] == Row(t, n, c, j)[k]
      {
        IndexInBounds(j, k, c, m);
      }
    }
  }

  /** A buffer that agrees with alpha * d on the values of sample j holds alpha
      times sample j of d as its own sample j. */
  lemma {:induction false} RowOfScaled(t: seq<real>, d: seq<real>, alpha: real, n: nat, c: nat, j: nat)
    requires n * c <= |t| && n * c <= |d| && j < n
    requires forall p :: j * c <= p < j * c + c && p < |t| && p < |d| ==> t[p] == Scaled(alpha, d)[p]
    ensures Row(t, n, c, j) == Scaled(alpha, Row(d, n, c, j))
  {
    forall k | 0 <= k < c
      ensures Row(t, n, c, j)[k] == Scaled(alpha, Row(d, n, c, j))[k]
    {
      IndexInBounds(j, k, c, n);
    }
  }

  /** The first m samples of b are the matching samples of d, each scaled by its
      own coefficient. */
  ghost predicate ScaledRows(b: seq<real>, d: seq<real>, coeff: seq<real>, n: nat, c: nat, m: nat)
    requires n * c <= |b| && n * c <= |d| && m <= n <= |coeff|
  {
    forall j :: 0 <= j < m ==> Row(b, n, c, j) == Scaled(coeff[j], Row(d, n, c, j))
  }

  /** Writing sample m (and nothing before it) extends ScaledRows by one sample. */
  lemma {:induction false} ScaledRowsExtend(before: seq<real>, after: seq<real>, d: seq<real>, coeff: seq<real>,
                                            n: nat, c: nat, m: nat)
    requires n * c <= |before| == |after| && n * c <= |d| && m < n <= |coeff|
    requires ScaledRows(before, d, coeff, n, c, m)
    requires forall p :: 0 <= p < m * c ==> after[p] == before[p]
    requires Row(after, n, c, m) == Scaled(coeff[m], Row(d, n, c, m))
    ensures ScaledRows(after, d, coeff, n, c, m + 1)
  {
    RowsAgree(after, before, n, c, m);
  }

  /** The first m samples of b are the given rows. */
  ghost predicate RowsAre(b: seq<real>, rows: seq<seq<real>>, n: nat, c: nat, m: nat)
    requires n * c <= |b| && m <= n <= |rows|
  {
    forall j :: 0 <= j < m ==> Row(b, n, c, j) == rows[j]
  }

  /** Writing sample m (and nothing before it) extends RowsAre by one sample. */
  lemma {:induction false} RowsAreExtend(before: seq<real>, after: seq<real>, rows: seq<seq<real>>,
                                         n: nat, c: nat, m: nat)
    requires n * c <= |before| == |after| && m < n <= |rows|
    requires RowsAre(before, rows, n, c, m)
    requires forall p :: 0 <= p < m * c ==> after[p] == before[p]
    requires Row(after, n, c, m) == rows[m]
    ensures RowsAre(after, rows, n, c, m + 1)
  {
    RowsAgree(after, before, n, c, m);
  }

  /** Sample j of a buffer of squares has asum equal to the squared norm of sample j. */
  lemma {:induction false} AsumOfSquaredRow(s: seq<real>, x: seq<real>, n: nat, c: nat, j: nat)
    requires n * c <= |x| && n * c <= |s| && j < n
    requires s[..n * c] == Squares(x[..n * c])
    ensures Asum(Row(s, n, c, j)) == Dot(Row(x, n, c, j), Row(x, n, c, j))
  {
    var rs, rx := Row(s, n, c, j), Row(x, n, c, j);
    forall k | 0 <= k < c
      ensures rs[k] == rx[k] * rx[k]
    {
      IndexInBounds(j, k, c, n);
      var p := Index(j, k, c);
      assert rs[k] == s[p] && rx[k] == x[p];
      assert s[..n * c][p] == Squares(x[..n * c])[p];
    }
    AsumOfSquares(rs, rx);
  }


  /** Two buffers scaled sample by sample from the same d with opposite
      coefficients are exact negations of each other. */
  lemma {:induction false} OppositeRows(b0: seq<real>, b1: seq<real>, d: seq<real>, c0: seq<real>, c1: seq<real>,
                                        n: nat, c: nat)
    requires n * c <= |b0| && n * c <= |b1| && n * c <= |d| && n <= |c0| && n <= |c1|
    requires ScaledRows(b0, d, c0, n, c, n) && ScaledRows(b1, d, c1, n, c, n)
    requires forall j :: 0 <= j < n ==> c1[j] == -c0[j]
    ensures forall p :: 0 <= p < n * c ==> b1[p] == -b0[p]
  {
    forall p | 0 <= p < n * c
      ensures b1[p] == -b0[p]
    {
      var j, k := RowOf(p, c, n);
      assert Row(b0, n, c, j)[k] == b0[p] && Row(b1, n, c, j)[k] == b1[p];
      assert Scaled(c0[j], Row(d, n, c, j))[k] == c0[j] * Row(d, n, c, j)[k];
      assert Scaled(c1[j], Row(d, n, c, j))[k] == -c0[j] * Row(d, n, c, j)[k];
    }
  }

  function Abs(x: real): real
  {
    if x < 0.0 then -x else x
  }

  /** Left-to-right sum, in the order an accumulating loop visits the elements. */
  function Sum(s: seq<real>): real
  {
    if |s| == 0 then 0.0 else Sum(s[..|s| - 1]) + s[|s| - 1]
  }

  /** Sum of absolute values (BLAS asum). */
  function Asum(s: seq<real>): real
  {
    if |s| == 0 then 0.0 else Asum(s[..|s| - 1]) + Abs(s[|s| - 1])
  }

  /** Inner product (BLAS dot). */
  function Dot(u: seq<real>, v: seq<real>): real
    requires |u| == |v|
  {
    if |u| == 0 then 0.0 else Dot(u[..|u| - 1], v[..|v| - 1]) + u[|u| - 1] * v[|v| - 1]
  }

  /** Reference definition of the squared Euclidean distance (no square root). */
  function SquaredDistance(u: seq<real>, v: seq<real>): real
    requires |u| == |v|
  {
    if |u| == 0 then 0.0
    else
      var d := u[|u| - 1] - v[|v| - 1];
      SquaredDistance(u[..|u| - 1], v[..|v| - 1]) + d * d
  }

  function Scaled(c: real, v: seq<real>): (r: seq<real>)
    ensures |r| == |v|
  {
    seq(|v|, k requires 0 <= k < |v| => c * v[k])
  }

  function Minus(u: seq<real>, v: seq<real>): (r: seq<real>)
    requires |u| == |v|
    ensures |r| == |u|
  {
    seq(|u|, k requires 0 <= k < |u| => u[k] - v[k])
  }

  function Plus(u: seq<real>, v: seq<real>): (r: seq<real>)
    requires |u| == |v|
    ensures |r| == |u|
  {
    seq(|u|, k requires 0 <= k < |u| => u[k] + v[k])
  }

  lemma {:induction false} PlusOfEntries(r: seq<real>, u: seq<real>, v: seq<real>)
    requires |r| == |u| == |v|
    requires forall k :: 0 <= k < |r| ==> r[k] == u[k] + v[k]
    ensures r == Plus(u, v)
  {
  }

  lemma {:induction false} PlusZero(z: seq<real>, d: seq<real>)
    requires |z| == |d|
    requires forall k :: 0 <= k < |z| ==> z[k] == 0.0
    ensures Plus(z, d) == d
  {
  }

  lemma {:induction false} MinusOfEntries(r: seq<real>, u: seq<real>, v: seq<real>)
    requires |r| == |u| == |v|
    requires forall k :: 0 <= k < |r| ==> r[k] == u[k] - v[k]
    ensures r == Minus(u, v)
  {
  }

  /** Every entry squared (caffe_sqr on values). */
  function Squares(v: seq<real>): (r: seq<real>)
    ensures |r| == |v|
  {
    seq(|v|, k requires 0 <= k < |v| => v[k] * v[k])
  }

  lemma {:induction false} SquaresOfEntries(r: seq<real>, v: seq<real>)
    requires |r| == |v|
    requires forall k :: 0 <= k < |r| ==> r[k] == v[k] * v[k]
    ensures r == Squares(v)
  {
    forall k | 0 <= k < |r|
      ensures r[k] == Squares(v)[k]
    {
    }
  }

  /** Entrywise product (caffe_mul on values). */
  function Products(u: seq<real>, v: seq<real>): (r: seq<real>)
    requires |u| == |v|
    ensures |r| == |u|
  {
    seq(|u|, k requires 0 <= k < |u| => u[k] * v[k])
  }

  lemma {:induction false} ProductsOfEntries(r: seq<real>, u: seq<real>, v: seq<real>)
    requires |r| == |u| == |v|
    requires forall k :: 0 <= k < |r| ==> r[k] == u[k] * v[k]
    ensures r == Products(u, v)
  {
    forall k | 0 <= k < |r|
      ensures r[k] == Products(u, v)[k]
    {
    }
  }

  /** Entrywise quotient (caffe_div on values); every divisor is non-zero. */
  function Quotients(u: seq<real>, v: seq<real>): (r: seq<real>)
    requires |u| == |v|
    requires forall k :: 0 <= k < |v| ==> v[k] != 0.0
    ensures |r| == |u|
  {
    seq(|u|, k requires 0 <= k < |u| => u[k] / v[k])
  }

  lemma {:induction false} QuotientsOfEntries(r: seq<real>, u: seq<real>, v: seq<real>)
    requires |r| == |u| == |v|
    requires forall k :: 0 <= k < |v| ==> v[k] != 0.0
    requires forall k :: 0 <= k < |r| ==> r[k] == u[k] / v[k]
    ensures r == Quotients(u, v)
  {
  }

  /** Every entry of v moved by the same amount a (caffe_add_scalar on values). */
  function Shifted(v: seq<real>, a: real): (r: seq<real>)
    ensures |r| == |v|
  {
    seq(|v|, k requires 0 <= k < |v| => v[k] + a)
  }

  lemma {:induction false} ShiftedOfEntries(r: seq<real>, v: seq<real>, a: real)
    requires |r| == |v|
    requires forall k :: 0 <= k < |r| ==> r[k] == v[k] + a
    ensures r == Shifted(v, a)
  {
  }

  // ---------------------------------------------------------------------------
  // Sums

  /** A non-empty sum of positive terms is positive. */
  lemma {:induction false} SumPositive(s: seq<real>)
    requires |s| > 0
    requires forall k :: 0 <= k < |s| ==> s[k] > 0.0
    ensures Sum(s) > 0.0
  {
    if |s| > 1 {
      SumPositive(s[..|s| - 1]);
    }
  }

  /** asum equals the plain sum when no term is negative. */
  lemma {:induction false} AsumOfNonnegative(s: seq<real>)
    requires forall k :: 0 <= k < |s| ==> s[k] >= 0.0
    ensures Asum(s) == Sum(s)
  {
    if |s| > 0 {
      AsumOfNonnegative(s[..|s| - 1]);
    }
  }

  /** A buffer of squares (caffe_sqr of x) has asum equal to x·x. */
  lemma {:induction false} AsumOfSquares(s: seq<real>, x: seq<real>)
    requires |s| == |x|
    requires forall k :: 0 <= k < |s| ==> s[k] == x[k] * x[k]
    ensures Asum(s) == Dot(x, x)
  {
    if |s| > 0 {
      var n := |s| - 1;
      AsumOfSquares(s[..n], x[..n]);
      assert s[n] >= 0.0 by { SquareNonnegative(x[n]); }
    }
  }

  /** Summing a buffer of squared differences gives the squared distance. */
  lemma {:induction false} SumOfSquaredDifferences(s: seq<real>, u: seq<real>, v: seq<real>)
    requires |s| == |u| == |v|
    requires forall k :: 0 <= k < |s| ==> s[k] == (u[k] - v[k]) * (u[k] - v[k])
    ensures Sum(s) == SquaredDistance(u, v)
  {
    if |s| > 0 {
      var n := |s| - 1;
      SumOfSquaredDifferences(s[..n], u[..n], v[..n]);
    }
  }

  /** Sample by sample, the sum of a buffer of squared differences of u and v is
      the squared distance between the corresponding samples of u and v. */
  lemma {:induction false} SampleDistances(s: seq<real>, u: seq<real>, v: seq<real>, n: nat, c: nat)
    requires n * c <= |s| && n * c <= |u| && n * c <= |v|
    requires forall p :: 0 <= p < n * c ==> s[p] == (u[p] - v[p]) * (u[p] - v[p])
    ensures forall j :: 0 <= j < n ==> Sum(Row(s, n, c, j)) == SquaredDistance(Row(u, n, c, j), Row(v, n, c, j))
    ensures RowSums(s, n, c) == Distances(u, v, n, c)
  {
    forall j | 0 <= j < n
      ensures Sum(Row(s, n, c, j)) == SquaredDistance(Row(u, n, c, j), Row(v, n, c, j))
    {
      var rs, ru, rv := Row(s, n, c, j), Row(u, n, c, j), Row(v, n, c, j);
      forall k | 0 <= k < c
        ensures rs[k] == (ru[k] - rv[k]) * (ru[k] - rv[k])
      {
        IndexInBounds(j, k, c, n);
        var p := Index(j, k, c);
        assert rs[k] == s[p] && ru[k] == u[p] && rv[k] == v[p];
      }
      SumOfSquaredDifferences(rs, ru, rv);
    }
  }

  /** The sum of every sample of s, sample by sample. */
  function RowSums(s: seq<real>, n: nat, c: nat): (r: seq<real>)
    requires n * c <= |s|
    ensures |r| == n
  {
    seq(n, j requires 0 <= j < n => Sum(Row(s, n, c, j)))
  }

  /** A buffer holding the squares of u - v sums, sample by sample, to the distances. */
  lemma {:induction false} RowSumsOfSquaredDifferences(s: seq<real>, u: seq<real>, v: seq<real>, n: nat, c: nat)
    requires n * c <= |s| && |u| == n * c && |v| == n * c
    requires s[..n * c] == Squares(Minus(u, v))
    ensures RowSums(s, n, c) == Distances(u, v, n, c)
  {
    forall p | 0 <= p < n * c
      ensures s[p] == (u[p] - v[p]) * (u[p] - v[p])
    {
      assert s[..n * c][p] == Squares(Minus(u, v))[p];
      assert Minus(u, v)[p] == u[p] - v[p];
    }
    SampleDistances(s, u, v, n, c);
  }

  lemma {:induction false} SquareNonnegative(x: real)
    ensures x * x >= 0.0
  {
    if x < 0.0 {
      assert x * x == (-x) * (-x);
    }
  }

  // ---------------------------------------------------------------------------
  // Squared distance

  lemma {:induction false} SquaredDistanceNonnegative(u: seq<real>, v: seq<real>)
    requires |u| == |v|
    ensures SquaredDistance(u, v) >= 0.0
  {
    if |u| > 0 {
      var n := |u| - 1;
      SquaredDistanceNonnegative(u[..n], v[..n]);
      SquareNonnegative(u[n] - v[n]);
    }
  }

  lemma {:induction false} SquaredDistanceSymmetric(u: seq<real>, v: seq<real>)
    requires |u| == |v|
    ensures SquaredDistance(u, v) == SquaredDistance(v, u)
  {
    if |u| > 0 {
      var n := |u| - 1;
      SquaredDistanceSymmetric(u[..n], v[..n]);
      assert (u[n] - v[n]) * (u[n] - v[n]) == (v[n] - u[n]) * (v[n] - u[n]);
    }
  }

  /** A vector is at squared distance zero from itself. */
  lemma {:induction false} SquaredDistanceSelf(u: seq<real>)
    ensures SquaredDistance(u, u) == 0.0
  {
    if |u| > 0 {
      SquaredDistanceSelf(u[..|u| - 1]);
    }
  }

  /** The squared Euclidean distance of every sample pair of two batches of n
      samples with c values each. */
  function Distances(u: seq<real>, v: seq<real>, n: nat, c: nat): (r: seq<real>)
    requires n * c <= |u| && n * c <= |v|
    ensures |r| == n
  {
    seq(n, i requires 0 <= i < n => SquaredDistance(Row(u, n, c, i), Row(v, n, c, i)))
  }

  /** Every reported distance is non-negative. */
  lemma {:induction false} DistancesNonnegative(u: seq<real>, v: seq<real>, n: nat, c: nat)
    requires n * c <= |u| && n * c <= |v|
    ensures forall i :: 0 <= i < n ==> Distances(u, v, n, c)[i] >= 0.0
  {
    forall i | 0 <= i < n
      ensures Distances(u, v, n, c)[i] >= 0.0
    {
      SquaredDistanceNonnegative(Row(u, n, c, i), Row(v, n, c, i));
    }
  }

  /** Swapping the two inputs leaves every distance as it is. */
  lemma {:induction false} DistancesSymmetric(u: seq<real>, v: seq<real>, n: nat, c: nat)
    requires n * c <= |u| && n * c <= |v|
    ensures Distances(u, v, n, c) == Distances(v, u, n, c)
  {
    forall i | 0 <= i < n
      ensures Distances(u, v, n, c)[i] == Distances(v, u, n, c)[i]
    {
      SquaredDistanceSymmetric(Row(u, n, c, i), Row(v, n, c, i));
    }
  }

  /** One sample a = [1, 0], b = [0, 0]: its squared distance is 1. */
  lemma {:induction false} UnitDistance()
    ensures Distances([1.0, 0.0], [0.0, 0.0], 1, 2) == [1.0]
  {
    var u, v := [1.0, 0.0], [0.0, 0.0];
    assert Row(u, 1, 2, 0) == u && Row(v, 1, 2, 0) == v;
    assert u[..1] == [1.0] && v[..1] == [0.0];
    assert [1.0][..0] == [] && [0.0][..0] == [];
    assert SquaredDistance([1.0], [0.0]) == 1.0;
  }

  /** Two identical inputs are at distance zero, sample by sample. */
  lemma {:induction false} DistancesOfIdentical(u: seq<real>, n: nat, c: nat)
    requires n * c <= |u|
    ensures forall i :: 0 <= i < n ==> Distances(u, u, n, c)[i] == 0.0
  {
    forall i | 0 <= i < n
      ensures Distances(u, u, n, c)[i] == 0.0
    {
      SquaredDistanceSelf(Row(u, n, c, i));
    }
  }

  // ---------------------------------------------------------------------------
  // Inner products

  lemma {:induction false} DotSymmetric(u: seq<real>, v: seq<real>)
    requires |u| == |v|
    ensures Dot(u, v) == Dot(v, u)
  {
    if |u| > 0 {
      DotSymmetric(u[..|u| - 1], v[..|v| - 1]);
    }
  }

  /** Scaling the left operand scales the inner product. */
  lemma {:induction false} DotScaledLeft(c: real, u: seq<real>, v: seq<real>)
    requires |u| == |v|
    ensures Dot(Scaled(c, u), v) == c * Dot(u, v)
  {
    if |u| > 0 {
      var n := |u| - 1;
      assert Scaled(c, u)[..n] == Scaled(c, u[..n]) by {
        forall k | 0 <= k < n ensures Scaled(c, u)[..n][k] == Scaled(c, u[..n])[k] { }
      }
      DotScaledLeft(c, u[..n], v[..n]);
      assert Dot(Scaled(c, u), v) == c * Dot(u[..n], v[..n]) + c * u[n] * v[n];
    }
  }

  lemma {:induction false} DotScaledRight(c: real, u: seq<real>, v: seq<real>)
    requires |u| == |v|
    ensures Dot(u, Scaled(c, v)) == c * Dot(u, v)
  {
    DotSymmetric(u, Scaled(c, v));
    DotScaledLeft(c, v, u);
    DotSymmetric(v, u);
  }

  /** The inner product distributes over a difference in its right operand. */
  lemma {:induction false} DotMinusRight(y: seq<real>, u: seq<real>, v: seq<real>)
    requires |y| == |u| == |v|
    ensures Dot(y, Minus(u, v)) == Dot(y, u) - Dot(y, v)
  {
    if |y| > 0 {
      var n := |y| - 1;
      assert Minus(u, v)[..n] == Minus(u[..n], v[..n]);
      DotMinusRight(y[..n], u[..n], v[..n]);
    }
  }

  // ---------------------------------------------------------------------------
  // Unit normalisation

  /** Scaling x by r with r*r*(x·x) == 1 gives a vector of unit squared norm. */
  lemma {:induction false} UnitAfterScaling(x: seq<real>, r: real)
    requires r * r * Dot(x, x) == 1.0
    ensures Dot(Scaled(r, x), Scaled(r, x)) == 1.0
  {
    DotScaledLeft(r, x, Scaled(r, x));
    DotScaledRight(r, x, x);
  }

  /** For a unit vector y, g - (y·g) y is orthogonal to y. */
  lemma {:induction false} ProjectionOrthogonal(y: seq<real>, g: seq<real>)
    requires |y| == |g|
    requires Dot(y, y) == 1.0
    ensures Dot(y, Minus(g, Scaled(Dot(y, g), y))) == 0.0
  {
    var a := Dot(y, g);
    DotMinusRight(y, g, Scaled(a, y));
    DotScaledRight(a, y, y);
  }

  function Cube(r: real): real
  {
    r * r * r
  }

  /** With y = r*x, the projected-and-scaled gradient r*(g - (y·g) y) is
      r*g - r^3 (x·g) x: the Jacobian-vector product of x -> x/|x| when r = 1/|x|. */
  lemma {:induction false} ProjectedGradientClosedForm(x: seq<real>, g: seq<real>, r: real)
    requires |x| == |g|
    ensures Scaled(r, Minus(g, Scaled(Dot(Scaled(r, x), g), Scaled(r, x))))
         == Minus(Scaled(r, g), Scaled(Cube(r), Scaled(Dot(x, g), x)))
  {
    DotScaledLeft(r, x, g);
    var lhs := Scaled(r, Minus(g, Scaled(Dot(Scaled(r, x), g), Scaled(r, x))));
    var rhs := Minus(Scaled(r, g), Scaled(Cube(r), Scaled(Dot(x, g), x)));
    forall k | 0 <= k < |x|
      ensures lhs[k] == rhs[k]
    {
      ProjectedEntry(x, g, r, Dot(x, g), Dot(Scaled(r, x), g), k);
    }
    assert lhs == rhs;
  }

  /** Entry k of the closed form, for any value d of x·g and a = r d. */
  lemma {:induction false} ProjectedEntry(x: seq<real>, g: seq<real>, r: real, d: real, a: real, k: nat)
    requires |x| == |g| && k < |x| && a == r * d
    ensures Scaled(r, Minus(g, Scaled(a, Scaled(r, x))))[k] == Minus(Scaled(r, g), Scaled(Cube(r), Scaled(d, x)))[k]
  {
    var xk, gk := x[k], g[k];
    var yk := Scaled(r, x)[k];
    assert yk == r * xk;
    var hk := Minus(g, Scaled(a, Scaled(r, x)))[k];
    assert hk == gk - a * yk;
    var sk := Scaled(d, x)[k];
    assert sk == d * xk;
    assert a * yk == (r * d) * (r * xk);
    assert r * ((r * d) * (r * xk)) == (r * r * r) * sk;
    assert r * hk == r * gk - (r * r * r) * sk;
  }
}
