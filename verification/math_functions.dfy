/** The CPU helpers of Caffe's math_functions that the three layers call.
    Their implementation (BLAS/MKL wrappers) is not part of this model; each is
    given the standard elementwise or reduction semantics as a loop over the
    n elements that start at an offset of a buffer (the pointer `data + offset`).
    An output may be the very same window as an input (exact aliasing, as in
    `caffe_exp(n, z, z)`); partial overlap never occurs in the layers and is excluded. */
module MathFunctions {
  import opened Vectors

  /** out[oo..oo+n] := f applied to x[xo..xo+n]; the rest of out is untouched. */
  method Map1(n: nat, f: real -> real, x: array<real>, xo: nat, out: array<real>, oo: nat)
    requires xo + n <= x.Length && oo + n <= out.Length
    requires x == out ==> xo == oo
    modifies out
    ensures forall p :: oo <= p < oo + n ==> out[p] == f(old(x[p - oo + xo]))
    ensures forall p :: 0 <= p < out.Length && !(oo <= p < oo + n) ==> out[p] == old(out[p])
  {
    var k := 0;
    while k < n
      invariant k <= n
      invariant forall p :: oo <= p < oo + k ==> out[p] == f(old(x[p - oo + xo]))
      invariant forall p :: 0 <= p < out.Length && !(oo <= p < oo + k) ==> out[p] == old(out[p])
      invariant forall p :: xo + k <= p < xo + n ==> x[p] == old(x[p])
    {
      out[oo + k] := f(x[xo + k]);
      k := k + 1;
    }
  }

  /** out[oo..oo+n] := f applied pairwise to x[xo..xo+n] and y[yo..yo+n]. */
  method Map2(n: nat, f: (real, real) -> real, x: array<real>, xo: nat, y: array<real>, yo: nat,
              out: array<real>, oo: nat)
    requires xo + n <= x.Length && yo + n <= y.Length && oo + n <= out.Length
    requires x == out ==> xo == oo
    requires y == out ==> yo == oo
    modifies out
    ensures forall p :: oo <= p < oo + n ==> out[p] == f(old(x[p - oo + xo]), old(y[p - oo + yo]))
    ensures forall p :: 0 <= p < out.Length && !(oo <= p < oo + n) ==> out[p] == old(out[p])
  {
    ghost var xs, ys := x[..], y[..];
    var k := 0;
    while k < n
      invariant k <= n
      invariant forall p :: oo <= p < oo + k ==> out[p] == f(xs[p - oo + xo], ys[p - oo + yo])
      invariant forall p :: 0 <= p < out.Length && !(oo <= p < oo + k) ==> out[p] == old(out[p])
      invariant x != out ==> x[..] == xs
      invariant y != out ==> y[..] == ys
    {
      var a, b := x[xo + k], y[yo + k];
      assert a == xs[xo + k] by {
        if x == out { assert out[oo + k] == old(out[oo + k]); }
      }
      assert b == ys[yo + k] by {
        if y == out { assert out[oo + k] == old(out[oo + k]); }
      }
      out[oo + k] := f(a, b);
      k := k + 1;
    }
  }

  /** caffe_sub: out = x - y. */
  method Sub(n: nat, x: array<real>, xo: nat, y: array<real>, yo: nat, out: array<real>, oo: nat)
    requires xo + n <= x.Length && yo + n <= y.Length && oo + n <= out.Length
    requires x == out ==> xo == oo
    requires y == out ==> yo == oo
    modifies out
    ensures forall p :: oo <= p < oo + n ==> out[p] == old(x[p - oo + xo]) - old(y[p - oo + yo])
    ensures forall p :: 0 <= p < out.Length && !(oo <= p < oo + n) ==> out[p] == old(out[p])
    ensures out[oo..oo + n] == Minus(old(x[xo..xo + n]), old(y[yo..yo + n]))
  {
    ghost var xs, ys := x[xo..xo + n], y[yo..yo + n];
    Map2(n, (a, b) => a - b, x, xo, y, yo, out, oo);
    forall k | 0 <= k < n
      ensures out[oo + k] == xs[k] - ys[k]
    {
      assert out[oo + k] == old(x[oo + k - oo + xo]) - old(y[oo + k - oo + yo]);
    }
    assert out[oo..oo + n] == Minus(xs, ys);
  }

  /** caffe_mul: out = x * y elementwise. */
  method Mul(n: nat, x: array<real>, y: array<real>, out: array<real>)
    requires n <= x.Length && n <= y.Length && n <= out.Length
    requires x != out && y != out
    modifies out
    ensures forall p :: 0 <= p < n ==> out[p] == x[p] * y[p]
    ensures forall p :: n <= p < out.Length ==> out[p] == old(out[p])
  {
    Map2(n, (a, b) => a * b, x, 0, y, 0, out, 0);
  }

  /** caffe_div: out = x / y elementwise (the divisor must be non-zero). */
  method Div(n: nat, x: array<real>, y: array<real>, out: array<real>)
    requires n <= x.Length && n <= y.Length && n <= out.Length
    requires x != out && y != out
    requires forall p :: 0 <= p < n ==> y[p] != 0.0
    modifies out
    ensures forall p :: 0 <= p < n ==> out[p] == x[p] / y[p]
    ensures forall p :: n <= p < out.Length ==> out[p] == old(out[p])
  {
    var k := 0;
    while k < n
      invariant k <= n
      invariant forall p :: 0 <= p < k ==> out[p] == x[p] / y[p]
      invariant forall p :: k <= p < out.Length ==> out[p] == old(out[p])
    {
      out[k] := x[k] / y[k];
      k := k + 1;
    }
  }

  /** caffe_sqr: out = x * x elementwise. */
  method Sqr(n: nat, x: array<real>, out: array<real>)
    requires n <= x.Length && n <= out.Length
    requires x != out
    modifies out
    ensures out[..n] == Squares(x[..n])
    ensures forall p :: n <= p < out.Length ==> out[p] == old(out[p])
  {
    Map1(n, a => a * a, x, 0, out, 0);
    SquaresOfEntries(out[..n], x[..n]);
  }

  /** caffe_set: y[0..n] := alpha. */
  method Set(n: nat, alpha: real, y: array<real>)
    requires n <= y.Length
    modifies y
    ensures forall p :: 0 <= p < n ==> y[p] == alpha
    ensures forall p :: n <= p < y.Length ==> y[p] == old(y[p])
  {
    Map1(n, _ => alpha, y, 0, y, 0);
  }

  /** caffe_add_scalar: y += alpha, in place. */
  method AddScalar(n: nat, alpha: real, y: array<real>)
    requires n <= y.Length
    modifies y
    ensures forall p :: 0 <= p < n ==> y[p] == old(y[p]) + alpha
    ensures forall p :: n <= p < y.Length ==> y[p] == old(y[p])
  {
    Map1(n, a => a + alpha, y, 0, y, 0);
  }

  /** caffe_exp: out = exp(x) elementwise; exp itself is a parameter. */
  method Exp(n: nat, exp: real -> real, x: array<real>, out: array<real>)
    requires n <= x.Length && n <= out.Length
    modifies out
    ensures forall p :: 0 <= p < n ==> out[p] == exp(old(x[p]))
    ensures forall p :: n <= p < out.Length ==> out[p] == old(out[p])
  {
    Map1(n, exp, x, 0, out, 0);
  }

  /** caffe_log: out = log(x) elementwise; log itself is a parameter. */
  method Log(n: nat, log: real -> real, x: array<real>, out: array<real>)
    requires n <= x.Length && n <= out.Length
    requires x != out
    modifies out
    ensures forall p :: 0 <= p < n ==> out[p] == log(x[p])
    ensures forall p :: n <= p < out.Length ==> out[p] == old(out[p])
  {
    Map1(n, log, x, 0, out, 0);
  }

  /** caffe_cpu_axpby: y = alpha * x + beta * y. */
  method CpuAxpby(n: nat, alpha: real, x: array<real>, xo: nat, beta: real, y: array<real>, yo: nat)
    requires xo + n <= x.Length && yo + n <= y.Length
    requires x != y
    modifies y
    ensures forall p :: yo <= p < yo + n ==> y[p] == alpha * x[p - yo + xo] + beta * old(y[p])
    ensures forall p :: 0 <= p < y.Length && !(yo <= p < yo + n) ==> y[p] == old(y[p])
  {
    Map2(n, (a, b) => alpha * a + beta * b, x, xo, y, yo, y, yo);
  }

  /** caffe_cpu_scale: out = alpha * x (x may be the output window itself). */
  method CpuScale(n: nat, alpha: real, x: array<real>, xo: nat, out: array<real>, oo: nat)
    requires xo + n <= x.Length && oo + n <= out.Length
    requires x == out ==> xo == oo
    modifies out
    ensures out[oo..oo + n] == Scaled(alpha, old(x[xo..xo + n]))
    ensures forall p :: 0 <= p < out.Length && !(oo <= p < oo + n) ==> out[p] == old(out[p])
  {
    ghost var xs := x[xo..xo + n];
    Map1(n, a => alpha * a, x, xo, out, oo);
    forall k | 0 <= k < n
      ensures out[oo..oo + n][k] == Scaled(alpha, xs)[k]
    {
      assert out[oo + k] == alpha * old(x[oo + k - oo + xo]);
    }
    assert out[oo..oo + n] == Scaled(alpha, xs);
  }

  /** caffe_cpu_asum: the sum of absolute values of x[xo..xo+n]. */
  method CpuAsum(n: nat, x: array<real>, xo: nat) returns (s: real)
    requires xo + n <= x.Length
    ensures s == Asum(x[xo..xo + n])
  {
    s := 0.0;
    var k := 0;
    while k < n
      invariant k <= n
      invariant s == Asum(x[xo..xo + k])
    {
      assert x[xo..xo + k + 1][..k] == x[xo..xo + k];
      s := s + Abs(x[xo + k]);
      k := k + 1;
    }
  }

  /** caffe_cpu_dot: the inner product of x[xo..xo+n] and y[yo..yo+n]. */
  method CpuDot(n: nat, x: array<real>, xo: nat, y: array<real>, yo: nat) returns (s: real)
    requires xo + n <= x.Length && yo + n <= y.Length
    ensures s == Dot(x[xo..xo + n], y[yo..yo + n])
  {
    s := 0.0;
    var k := 0;
    while k < n
      invariant k <= n
      invariant s == Dot(x[xo..xo + k], y[yo..yo + k])
    {
      assert x[xo..xo + k + 1][..k] == x[xo..xo + k];
      assert y[yo..yo + k + 1][..k] == y[yo..yo + k];
      s := s + x[xo + k] * y[yo + k];
      k := k + 1;
    }
  }
}
