/** L2NormalizationLayer: every sample x_i of the input (num samples of channels
    values, unit height and width) is scaled by invsqrt(x_i . x_i) to unit norm,
    and the gradient g_i on the output y_i becomes invsqrt(x_i . x_i) * (g_i - (y_i . g_i) y_i). */
module L2Normalization {
  import opened Vectors
  import opened MathFunctions
  import opened Blobs
  import opened Transcendental

  class L2NormalizationLayer {
    var num: nat       // bottom[0]->num() at LayerSetUp
    var channels: nat  // bottom[0]->channels(), which is count / num once height and width are 1
    var squaredData: array<real>  // squared_, data half: x^2

    ghost predicate Valid()
      reads this
    {
      num * channels <= squaredData.Length
    }

    /** The storage LayerSetUp gives squared_ once its CHECKs pass: (num, channels, 1, 1),
        fresh and zero-filled, since setup runs once on a blob without storage. */
    constructor (bottom: Shape)
      requires SetUpShape(bottom).Shaped?
      ensures Valid() && num == bottom.num && channels == bottom.channels
      ensures squaredData.Length == num * channels
      ensures fresh(squaredData)
    {
      var squared := NewBuffer(bottom.num * bottom.channels);
      num, channels := bottom.num, bottom.channels;
      squaredData := squared;
    }

    /** Forward_cpu: squared_ = x^2, then every sample of the top is its input sample
        scaled by invsqrt of the asum of the sample's squares, which is its squared norm. */
    method Forward(bottom: array<real>, top: array<real>, invsqrt: real -> real)
      requires Valid() && num > 0
      requires bottom.Length == num * channels && top.Length == num * channels
      requires bottom != top && bottom != squaredData && top != squaredData
      modifies squaredData, top
      ensures squaredData[..num * channels] == Squares(bottom[..])
      ensures RowsAre(top[..], NormalizedRows(bottom[..], num, channels, invsqrt), num, channels, num)
    {
      Sqr(num * channels, bottom, squaredData);
      assert bottom[..num * channels] == bottom[..];
      ghost var x, squared := bottom[..], squaredData[..];
      ghost var rows := NormalizedRows(x, num, channels, invsqrt);
      var i := 0;
      while i < num
        invariant i <= num
        invariant bottom[..] == x && squaredData[..] == squared
        invariant RowsAre(top[..], rows, num, channels, i)
      {
        ghost var before := top[..];
        ForwardRow(i, bottom, top, invsqrt);
        RowsAreExtend(before, top[..], rows, num, channels, i);
        i := i + 1;
      }
    }

    /** One pass of the loop of Forward_cpu: sample i of the top becomes sample i of
        the input scaled by invsqrt(asum of its squares); no other value changes. */
    method ForwardRow(i: nat, bottom: array<real>, top: array<real>, invsqrt: real -> real)
      requires Valid() && i < num
      requires bottom.Length == num * channels && top.Length == num * channels
      requires bottom != top && top != squaredData
      requires squaredData[..num * channels] == Squares(bottom[..])
      modifies top
      ensures Row(top[..], num, channels, i) == Normalized(Row(bottom[..], num, channels, i), invsqrt)
      ensures forall p :: 0 <= p < top.Length && !(i * channels <= p < i * channels + channels) ==>
                top[p] == old(top[p])
    {
      RowInBounds(i, channels, num);
      var start := i * channels;
      var normsqr := CpuAsum(channels, squaredData, start);
      assert bottom[..][..num * channels] == bottom[..];
      assert squaredData[..][..num * channels] == squaredData[..num * channels];
      AsumOfSquaredRow(squaredData[..], bottom[..], num, channels, i);
      assert Row(squaredData[..], num, channels, i) == squaredData[start..start + channels];
      ScaleRow(i, invsqrt(normsqr), bottom, top);
    }

    /** Backward_cpu: every sample of the input gradient becomes
        invsqrt(x_i . x_i) * (g_i - (y_i . g_i) y_i), computed in place in the input
        gradient, with the norm taken again from the input rather than from squared_. */
    method Backward(topData: array<real>, topDiff: array<real>, bottom: array<real>, bottomDiff: array<real>,
                    invsqrt: real -> real)
      requires num > 0
      requires topData.Length == num * channels && topDiff.Length == num * channels
      requires bottom.Length == num * channels && bottomDiff.Length == num * channels
      requires bottomDiff != topData && bottomDiff != topDiff && bottomDiff != bottom
      modifies bottomDiff
      ensures RowsAre(bottomDiff[..], ProjectedRows(bottom[..], topData[..], topDiff[..], num, channels, invsqrt),
                      num, channels, num)
    {
      ghost var rows := ProjectedRows(bottom[..], topData[..], topDiff[..], num, channels, invsqrt);
      var i := 0;
      while i < num
        invariant i <= num
        invariant RowsAre(bottomDiff[..], rows, num, channels, i)
      {
        ghost var before := bottomDiff[..];
        BackwardRow(i, topData, topDiff, bottom, bottomDiff, invsqrt);
        RowsAreExtend(before, bottomDiff[..], rows, num, channels, i);
        i := i + 1;
      }
    }

    /** One pass of the loop of Backward_cpu: the projection into sample i of the input
        gradient, then its scaling by invsqrt(x_i . x_i); no other value changes. */
    method BackwardRow(i: nat, topData: array<real>, topDiff: array<real>, bottom: array<real>,
                       bottomDiff: array<real>, invsqrt: real -> real)
      requires i < num
      requires topData.Length == num * channels && topDiff.Length == num * channels
      requires bottom.Length == num * channels && bottomDiff.Length == num * channels
      requires bottomDiff != topData && bottomDiff != topDiff && bottomDiff != bottom
      modifies bottomDiff
      ensures Row(bottomDiff[..], num, channels, i)
        == ProjectedGradient(Row(bottom[..], num, channels, i), Row(topData[..], num, channels, i),
                             Row(topDiff[..], num, channels, i), invsqrt)
      ensures forall p :: 0 <= p < bottomDiff.Length && !(i * channels <= p < i * channels + channels) ==>
                bottomDiff[p] == old(bottomDiff[p])
    {
      RowInBounds(i, channels, num);
      var start := i * channels;
      assert Row(bottom[..], num, channels, i) == bottom[start..start + channels];
      // Line 46 reads only the input, which lines 43-45 leave alone, so it is taken first.
      var a := CpuDot(channels, bottom, start, bottom, start);
      ProjectRow(i, topData, topDiff, bottomDiff);
      ScaleRow(i, invsqrt(a), bottomDiff, bottomDiff);
    }

    /** Lines 43-45 of Backward_cpu: a = y_i . g_i, sample i of the input gradient
        := a * y_i, then := g_i - that, in place; no other value changes. */
    method ProjectRow(i: nat, topData: array<real>, topDiff: array<real>, bottomDiff: array<real>)
      requires i < num
      requires topData.Length == num * channels && topDiff.Length == num * channels
      requires bottomDiff.Length == num * channels
      requires bottomDiff != topData && bottomDiff != topDiff
      modifies bottomDiff
      ensures Row(bottomDiff[..], num, channels, i)
        == Projected(Row(topData[..], num, channels, i), Row(topDiff[..], num, channels, i))
      ensures forall p :: 0 <= p < bottomDiff.Length && !(i * channels <= p < i * channels + channels) ==>
                bottomDiff[p] == old(bottomDiff[p])
    {
      RowInBounds(i, channels, num);
      var start := i * channels;
      assert Row(topData[..], num, channels, i) == topData[start..start + channels];
      assert Row(topDiff[..], num, channels, i) == topDiff[start..start + channels];
      var a := CpuDot(channels, topData, start, topDiff, start);
      ScaleRow(i, a, topData, bottomDiff);
      SubtractRow(i, topDiff, bottomDiff);
    }

    /** caffe_cpu_scale on one sample (line 29 of Forward_cpu, lines 44 and 47 of
        Backward_cpu): sample i of out
        := alpha times sample i of x, where x may be out itself; no other value changes. */
    method ScaleRow(i: nat, alpha: real, x: array<real>, out: array<real>)
      requires i < num && x.Length == num * channels && out.Length == num * channels
      modifies out
      ensures Row(out[..], num, channels, i) == Scaled(alpha, old(Row(x[..], num, channels, i)))
      ensures forall p :: 0 <= p < out.Length && !(i * channels <= p < i * channels + channels) ==>
                out[p] == old(out[p])
    {
      RowInBounds(i, channels, num);
      var start := i * channels;
      CpuScale(channels, alpha, x, start, out, start);
    }

    /** caffe_sub on one sample (line 45 of Backward_cpu): sample i of out := sample i
        of g minus sample i of out; no other value changes. */
    method SubtractRow(i: nat, g: array<real>, out: array<real>)
      requires i < num && g.Length == num * channels && out.Length == num * channels
      requires g != out
      modifies out
      ensures Row(out[..], num, channels, i) == Minus(Row(g[..], num, channels, i), old(Row(out[..], num, channels, i)))
      ensures forall p :: 0 <= p < out.Length && !(i * channels <= p < i * channels + channels) ==>
                out[p] == old(out[p])
    {
      RowInBounds(i, channels, num);
      var start := i * channels;
      Sub(channels, g, start, out, start, out, start);
    }
  }

  /** The CHECKs of LayerSetUp (lines 12-13): the input has unit height and width.
      When they pass, squared_ and the top take the input's (num, channels, 1, 1). */
  function SetUpShape(bottom: Shape): (r: SetupResult)
    ensures r.Shaped? <==> bottom.height == 1 && bottom.width == 1
    ensures r.Shaped? ==> r.top == Shape(bottom.num, bottom.channels, 1, 1) && r.top.Count() == bottom.Count()
  {
    if bottom.height != 1 || bottom.width != 1 then CheckFailed
    else Shaped(Shape(bottom.num, bottom.channels, 1, 1))
  }

  /** One sample scaled by invsqrt of its squared norm. */
  function Normalized(x: seq<real>, invsqrt: real -> real): (r: seq<real>)
    ensures |r| == |x|
  {
    Scaled(invsqrt(Dot(x, x)), x)
  }

  /** Every sample of x normalized on its own. */
  function NormalizedRows(x: seq<real>, n: nat, c: nat, invsqrt: real -> real): (r: seq<seq<real>>)
    requires n * c <= |x|
    ensures |r| == n
  {
    seq(n, i requires 0 <= i < n => Normalized(Row(x, n, c, i), invsqrt))
  }

  /** The part of g orthogonal to y when y has unit norm: g - (y . g) y. */
  function Projected(y: seq<real>, g: seq<real>): (r: seq<real>)
    requires |y| == |g|
    ensures |r| == |g|
  {
    Minus(g, Scaled(Dot(y, g), y))
  }

  /** The input gradient of one sample: the projected output gradient divided by the norm. */
  function ProjectedGradient(x: seq<real>, y: seq<real>, g: seq<real>, invsqrt: real -> real): (r: seq<real>)
    requires |x| == |y| == |g|
    ensures |r| == |x|
  {
    Scaled(invsqrt(Dot(x, x)), Projected(y, g))
  }

  /** The input gradient of every sample. */
  function ProjectedRows(x: seq<real>, y: seq<real>, g: seq<real>, n: nat, c: nat, invsqrt: real -> real)
    : (r: seq<seq<real>>)
    requires n * c <= |x| && n * c <= |y| && n * c <= |g|
    ensures |r| == n
  {
    seq(n, i requires 0 <= i < n =>
      ProjectedGradient(Row(x, n, c, i), Row(y, n, c, i), Row(g, n, c, i), invsqrt))
  }

  /** Every sample with a non-zero norm comes out of Forward with unit norm. */
  lemma {:induction false} NormalizedRowsAreUnit(x: seq<real>, n: nat, c: nat, invsqrt: real -> real)
    requires n * c <= |x| && IsInvSqrt(invsqrt)
    ensures forall i :: 0 <= i < n && Dot(Row(x, n, c, i), Row(x, n, c, i)) > 0.0 ==>
      Dot(NormalizedRows(x, n, c, invsqrt)[i], NormalizedRows(x, n, c, invsqrt)[i]) == 1.0
  {
    forall i | 0 <= i < n && Dot(Row(x, n, c, i), Row(x, n, c, i)) > 0.0
      ensures Dot(NormalizedRows(x, n, c, invsqrt)[i], NormalizedRows(x, n, c, invsqrt)[i]) == 1.0
    {
      NormalizedRowIsUnit(invsqrt, Row(x, n, c, i));
    }
  }

  /** When y is the normalized x (as Forward leaves the top), the input gradient
      Backward computes is orthogonal to y: moving x along itself does not change y. */
  lemma {:induction false} GradientOrthogonalToOutput(x: seq<real>, g: seq<real>, invsqrt: real -> real)
    requires |x| == |g| && IsInvSqrt(invsqrt) && Dot(x, x) > 0.0
    ensures Dot(Normalized(x, invsqrt), ProjectedGradient(x, Normalized(x, invsqrt), g, invsqrt)) == 0.0
  {
    var y := Normalized(x, invsqrt);
    var r := invsqrt(Dot(x, x));
    NormalizedRowIsUnit(invsqrt, x);
    ProjectionOrthogonal(y, g);
    DotScaledRight(r, y, Projected(y, g));
  }

  /** When y is the normalized x, the input gradient has the closed form
      r g - r^3 (x . g) x with r = invsqrt(x . x), i.e. g/|x| - ((x . g)/|x|^3) x. */
  lemma {:induction false} GradientClosedForm(x: seq<real>, g: seq<real>, invsqrt: real -> real)
    requires |x| == |g|
    ensures var r := invsqrt(Dot(x, x));
      ProjectedGradient(x, Normalized(x, invsqrt), g, invsqrt) == Minus(Scaled(r, g), Scaled(Cube(r), Scaled(Dot(x, g), x)))
  {
    var r := invsqrt(Dot(x, x));
    ProjectedGradientClosedForm(x, g, r);
    assert Normalized(x, invsqrt) == Scaled(r, x);
    assert ProjectedGradient(x, Normalized(x, invsqrt), g, invsqrt)
        == Scaled(r, Minus(g, Scaled(Dot(Scaled(r, x), g), Scaled(r, x))));
  }

  /** Concrete case: x = [3, 4] normalizes to [0.6, 0.8], and the output gradient
      g = [1, 0] gives the input gradient [0.128, -0.096]. */
  lemma {:induction false} ThreeFourFive(invsqrt: real -> real)
    requires IsInvSqrt(invsqrt)
    ensures Normalized([3.0, 4.0], invsqrt) == [0.6, 0.8]
    ensures ProjectedGradient([3.0, 4.0], [0.6, 0.8], [1.0, 0.0], invsqrt) == [0.128, -0.096]
  {
    var x := [3.0, 4.0];
    assert x[..1] == [3.0] && [3.0][..0] == [];
    assert Dot(x, x) == 25.0;
    InvSqrtOfSquare(invsqrt, 5.0);
    assert invsqrt(25.0) == 0.2;
    var y, g := [0.6, 0.8], [1.0, 0.0];
    assert y[..1] == [0.6] && g[..1] == [1.0] && [0.6][..0] == [] && [1.0][..0] == [];
    assert Dot(y, g) == 0.6;
    assert Scaled(0.6, y) == [0.36, 0.48];
    assert Projected(y, g) == [0.64, -0.48];
  }
}
