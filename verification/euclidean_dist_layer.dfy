/** EuclideanDistLayer: for two inputs of num samples with channels values each,
    the per-sample squared Euclidean distance (no square root) into a top of num
    values, and its gradient back into both inputs. */
module EuclideanDist {
  import opened Vectors
  import opened MathFunctions
  import opened Blobs

  class EuclideanDistLayer {
    var num: nat       // bottom[0]->num() at the last Reshape
    var channels: nat  // bottom[0]->channels(), the stride of every sample
    var count: nat     // bottom[0]->count()
    var diffData: array<real>     // diff_, data half: a - b
    var diffSqrData: array<real>  // diff_sqr_, data half: (a - b)^2
    var distData: array<real>     // dist_, data half: the accumulated distances

    ghost predicate Valid()
      reads this
    {
      count <= diffData.Length && count <= diffSqrData.Length && num <= distData.Length
      && diffData != diffSqrData && diffData != distData && diffSqrData != distData
    }

    /** The layer's own scratch storage, which the caller's blobs never share. */
    ghost function Buffers(): set<array<real>>
      reads this
    {
      {diffData, diffSqrData, distData}
    }

    constructor ()
      ensures Valid() && num == 0 && channels == 0 && count == 0
      ensures diffData.Length == 0 && diffSqrData.Length == 0 && distData.Length == 0
      ensures fresh(Buffers())
    {
      num, channels, count := 0, 0, 0;
      diffData := new real[0];
      diffSqrData := new real[0];
      distData := new real[0];
    }

    /** Reshape: the inputs must hold equally many values per sample; diff_ and
        diff_sqr_ take the first input's shape, dist_ and the top (num, 1, 1, 1).
        Storage whose capacity suffices is kept as it is, dist_ included. */
    method Reshape(bottom0: Shape, bottom1: Shape) returns (r: SetupResult)
      requires Valid()
      modifies this
      ensures Valid()
      ensures r.Shaped? <==> bottom0.SampleCount() == bottom1.SampleCount()
      ensures r.Shaped? ==> r.top == Shape(bottom0.num, 1, 1, 1)
      ensures r.Shaped? ==> num == bottom0.num && channels == bottom0.channels && count == bottom0.Count()
      ensures r.Shaped? && bottom0.num <= old(distData.Length) ==> distData == old(distData)
      ensures r.Shaped? && old(distData.Length) < bottom0.num ==> forall i :: 0 <= i < num ==> distData[i] == 0.0
      ensures r.CheckFailed? ==> unchanged(this)
      ensures fresh(Buffers() - old(Buffers()))
    {
      if bottom0.SampleCount() != bottom1.SampleCount() {
        return CheckFailed;
      }
      var n := bottom0.Count();
      diffData := ReshapeBuffer(diffData, n);
      diffSqrData := ReshapeBuffer(diffSqrData, n);
      distData := ReshapeBuffer(distData, bottom0.num);
      num, channels, count := bottom0.num, bottom0.channels, n;
      r := Shaped(Shape(bottom0.num, 1, 1, 1));
    }

    /** Forward_cpu: diff_ = a - b, diff_sqr_ = diff_^2, then every sample's
        squared differences are ADDED to dist_[i], which is never cleared, and
        copied to the top. */
    method Forward(bottom0: array<real>, bottom1: array<real>, top: array<real>)
      requires Valid()
      requires count == num * channels
      requires bottom0.Length == count && bottom1.Length == count && top.Length == num
      requires bottom0 !in Buffers() && bottom1 !in Buffers() && top !in Buffers()
      requires top != bottom0 && top != bottom1
      modifies diffData, diffSqrData, distData, top
      ensures diffData[..count] == Minus(bottom0[..], bottom1[..])
      ensures diffSqrData[..count] == Squares(diffData[..count])
      ensures distData[..num] == Plus(old(distData[..num]), RowSums(diffSqrData[..], num, channels))
      ensures distData[..num] == Plus(old(distData[..num]), Distances(bottom0[..], bottom1[..], num, channels))
      ensures top[..] == distData[..num]
      ensures forall p :: num <= p < distData.Length ==> distData[p] == old(distData[p])
      ensures forall p :: count <= p < diffData.Length ==> diffData[p] == old(diffData[p])
      ensures forall p :: count <= p < diffSqrData.Length ==> diffSqrData[p] == old(diffSqrData[p])
    {
      ComputeSquares(bottom0, bottom1);
      ghost var diff, sqr := diffData[..], diffSqrData[..];
      AccumulateDistances(top);
      assert diffData[..] == diff && diffSqrData[..] == sqr;
    }

    /** Forward_cpu as evidently intended: dist_ is cleared (caffe_set) before the
        accumulation, so every top[i] is exactly the squared distance of sample i,
        whatever earlier passes left behind. */
    method ForwardFresh(bottom0: array<real>, bottom1: array<real>, top: array<real>)
      requires Valid()
      requires count == num * channels
      requires bottom0.Length == count && bottom1.Length == count && top.Length == num
      requires bottom0 !in Buffers() && bottom1 !in Buffers() && top !in Buffers()
      requires top != bottom0 && top != bottom1
      modifies diffData, diffSqrData, distData, top
      ensures top[..] == Distances(bottom0[..], bottom1[..], num, channels)
      ensures distData[..num] == top[..]
    {
      Set(num, 0.0, distData);
      PlusZero(distData[..num], Distances(bottom0[..], bottom1[..], num, channels));
      Forward(bottom0, bottom1, top);
    }

    /** Lines 26-34 of Forward_cpu: diff_ = a - b and diff_sqr_ = diff_^2 over the
        first count values, so that each sample of diff_sqr_ adds up to its squared
        distance; nothing past count is written. */
    method ComputeSquares(bottom0: array<real>, bottom1: array<real>)
      requires Valid()
      requires count == num * channels
      requires bottom0.Length == count && bottom1.Length == count
      requires bottom0 !in Buffers() && bottom1 !in Buffers()
      modifies diffData, diffSqrData
      ensures diffData[..count] == Minus(bottom0[..], bottom1[..])
      ensures diffSqrData[..count] == Squares(diffData[..count])
      ensures RowSums(diffSqrData[..], num, channels) == Distances(bottom0[..], bottom1[..], num, channels)
      ensures forall p :: count <= p < diffData.Length ==> diffData[p] == old(diffData[p])
      ensures forall p :: count <= p < diffSqrData.Length ==> diffSqrData[p] == old(diffSqrData[p])
    {
      Sub(count, bottom0, 0, bottom1, 0, diffData, 0);
      MinusOfEntries(diffData[..count], bottom0[..], bottom1[..]);
      ghost var diff := diffData[..];
      Sqr(count, diffData, diffSqrData);
      assert diffData[..] == diff;
      RowSumsOfSquaredDifferences(diffSqrData[..], bottom0[..], bottom1[..], num, channels);
    }

    /** The loop of Forward_cpu: every sample's squared differences are added to
        dist_[i], and dist_[i] is copied to top[i]. */
    method AccumulateDistances(top: array<real>)
      requires Valid()
      requires count == num * channels
      requires top.Length == num && top !in Buffers()
      modifies distData, top
      ensures distData[..num] == Plus(old(distData[..num]), RowSums(diffSqrData[..], num, channels))
      ensures top[..] == distData[..num]
      ensures forall p :: num <= p < distData.Length ==> distData[p] == old(distData[p])
    {
      var i := 0;
      while i < num
        invariant i <= num
        invariant forall i' :: 0 <= i' < i ==>
          distData[i'] == old(distData[i']) + Sum(Row(diffSqrData[..], num, channels, i'))
        invariant forall i' :: 0 <= i' < i ==> top[i'] == distData[i']
        invariant forall p :: i <= p < distData.Length ==> distData[p] == old(distData[p])
      {
        AccumulateSample(i);
        top[i] := distData[i];
        i := i + 1;
      }
      PlusOfEntries(distData[..num], old(distData[..num]), RowSums(diffSqrData[..], num, channels));
      assert top[..] == distData[..num];
    }

    /** The inner loop of Forward_cpu: dist_[i] += every squared difference of sample i. */
    method AccumulateSample(i: nat)
      requires count == num * channels && count <= diffSqrData.Length && i < num
      requires num <= distData.Length && distData != diffSqrData
      modifies distData
      ensures distData[i] == old(distData[i]) + Sum(Row(diffSqrData[..], num, channels, i))
      ensures forall p :: 0 <= p < distData.Length && p != i ==> distData[p] == old(distData[p])
    {
      RowInBounds(i, channels, num);
      ghost var sq := diffSqrData[..];
      var start := i * channels;
      var j := 0;
      while j < channels
        invariant j <= channels
        invariant distData[i] == old(distData[i]) + Sum(sq[start..start + j])
        invariant forall p :: 0 <= p < distData.Length && p != i ==> distData[p] == old(distData[p])
      {
        assert sq[start..start + j + 1][..j] == sq[start..start + j];
        distData[i] := distData[i] + diffSqrData[start + j];
        j := j + 1;
      }
      assert sq[start..start + channels] == Row(sq, num, channels, i);
    }

    /** One pass of Backward_cpu's outer loop: every sample j of bottomDiff is
        overwritten (beta = 0) with sign * top.diff[j] * 2 times sample j of diff_. */
    method BackwardInto(sign: real, topDiff: array<real>, bottomDiff: array<real>)
      requires Valid()
      requires count == num * channels
      requires topDiff.Length == num && count <= bottomDiff.Length
      requires bottomDiff !in Buffers() && bottomDiff != topDiff
      modifies bottomDiff
      ensures ScaledRows(bottomDiff[..], diffData[..], GradientScales(sign, topDiff[..]), num, channels, num)
      ensures forall p :: count <= p < bottomDiff.Length ==> bottomDiff[p] == old(bottomDiff[p])
    {
      ghost var diff := diffData[..];
      ghost var coeff := GradientScales(sign, topDiff[..]);
      var j := 0;
      while j < num
        invariant j <= num
        invariant ScaledRows(bottomDiff[..], diff, coeff, num, channels, j)
        invariant forall p :: j * channels <= p < bottomDiff.Length ==> bottomDiff[p] == old(bottomDiff[p])
      {
        ghost var before := bottomDiff[..];
        var alpha := sign * topDiff[j] * 2.0;
        assert alpha == coeff[j];
        BackwardSample(j, alpha, bottomDiff);
        assert diffData[..] == diff;
        ScaledRowsExtend(before, bottomDiff[..], diff, coeff, num, channels, j);
        j := j + 1;
      }
      assert diffData[..] == diff;
    }

    /** The caffe_cpu_axpby call of Backward_cpu for sample j: that sample of
        bottomDiff becomes alpha times sample j of diff_, and nothing else changes. */
    method BackwardSample(j: nat, alpha: real, bottomDiff: array<real>)
      requires Valid()
      requires count == num * channels && j < num && count <= bottomDiff.Length
      requires bottomDiff !in Buffers()
      modifies bottomDiff
      ensures Row(bottomDiff[..], num, channels, j) == Scaled(alpha, Row(diffData[..], num, channels, j))
      ensures forall p :: 0 <= p < j * channels ==> bottomDiff[p] == old(bottomDiff[p])
      ensures forall p :: (j + 1) * channels <= p < bottomDiff.Length ==> bottomDiff[p] == old(bottomDiff[p])
    {
      RowInBounds(j, channels, num);
      CpuAxpby(channels, alpha, diffData, j * channels, 0.0, bottomDiff, j * channels);
      forall k | 0 <= k < channels
        ensures Row(bottomDiff[..], num, channels, j)[k] == Scaled(alpha, Row(diffData[..], num, channels, j))[k]
      {
      }
      assert (j + 1) * channels == j * channels + channels;
    }

    /** Backward_cpu: the gradient of the squared distance, 2 * top.diff[j] * (a - b),
        into every sample of the first input and its exact negation into the second;
        earlier gradient contents play no part, and nothing past num*channels is written. */
    method Backward(topDiff: array<real>, bottom0Diff: array<real>, bottom1Diff: array<real>)
      requires Valid()
      requires count == num * channels
      requires topDiff.Length == num && count <= bottom0Diff.Length && count <= bottom1Diff.Length
      requires bottom0Diff !in Buffers() && bottom1Diff !in Buffers()
      requires bottom0Diff != bottom1Diff && bottom0Diff != topDiff && bottom1Diff != topDiff
      modifies bottom0Diff, bottom1Diff
      ensures ScaledRows(bottom0Diff[..], diffData[..], GradientScales(1.0, topDiff[..]), num, channels, num)
      ensures ScaledRows(bottom1Diff[..], diffData[..], GradientScales(-1.0, topDiff[..]), num, channels, num)
      ensures forall p :: 0 <= p < count ==> bottom1Diff[p] == -bottom0Diff[p]
      ensures forall p :: count <= p < bottom0Diff.Length ==> bottom0Diff[p] == old(bottom0Diff[p])
      ensures forall p :: count <= p < bottom1Diff.Length ==> bottom1Diff[p] == old(bottom1Diff[p])
    {
      var i := 0;
      while i < 2
        invariant i <= 2
        invariant 1 <= i ==>
          ScaledRows(bottom0Diff[..], diffData[..], GradientScales(1.0, topDiff[..]), num, channels, num)
        invariant 2 <= i ==>
          ScaledRows(bottom1Diff[..], diffData[..], GradientScales(-1.0, topDiff[..]), num, channels, num)
        invariant forall p :: count <= p < bottom0Diff.Length ==> bottom0Diff[p] == old(bottom0Diff[p])
        invariant forall p :: count <= p < bottom1Diff.Length ==> bottom1Diff[p] == old(bottom1Diff[p])
      {
        var sign := if i == 0 then 1.0 else -1.0;
        var target := if i == 0 then bottom0Diff else bottom1Diff;
        ghost var other := if i == 0 then bottom1Diff[..] else bottom0Diff[..];
        BackwardInto(sign, topDiff, target);
        assert (if i == 0 then bottom1Diff[..] else bottom0Diff[..]) == other;
        i := i + 1;
      }
      OppositeRows(bottom0Diff[..], bottom1Diff[..], diffData[..],
                   GradientScales(1.0, topDiff[..]), GradientScales(-1.0, topDiff[..]), num, channels);
    }
  }

  /** The per-sample factors of Backward_cpu: alpha = sign * top.diff[j] * 2. */
  function GradientScales(sign: real, topDiff: seq<real>): (r: seq<real>)
    ensures |r| == |topDiff|
  {
    seq(|topDiff|, j requires 0 <= j < |topDiff| => sign * topDiff[j] * 2.0)
  }

  /** As written, Forward adds onto dist_: a layer whose dist_ starts at zero and
      runs Forward twice over a = [1, 0], b = [0, 0] reports 1 and then 2, although
      the squared distance is 1 both times. */
  lemma {:induction false} RepeatedForwardAccumulates()
    ensures var d := Distances([1.0, 0.0], [0.0, 0.0], 1, 2);
      Plus([0.0], d) == [1.0] && Plus(Plus([0.0], d), d) == [2.0] && Plus(Plus([0.0], d), d) != d
  {
    UnitDistance();
    assert Plus([0.0], [1.0]) == [1.0];
    assert Plus([1.0], [1.0]) == [2.0];
  }

  /** Concrete case: with diff_ = a - b = [1, 0] for the single sample and top.diff = [1],
      any gradients Backward can leave are [2, 0] for a and [-2, 0] for b. */
  lemma {:induction false} UnitGradient(b0: seq<real>, b1: seq<real>)
    requires |b0| == 2 && |b1| == 2
    requires ScaledRows(b0, [1.0, 0.0], GradientScales(1.0, [1.0]), 1, 2, 1)
    requires ScaledRows(b1, [1.0, 0.0], GradientScales(-1.0, [1.0]), 1, 2, 1)
    ensures b0 == [2.0, 0.0] && b1 == [-2.0, 0.0]
  {
    var d := [1.0, 0.0];
    assert Row(d, 1, 2, 0) == d;
    assert Row(b0, 1, 2, 0) == b0 && Row(b1, 1, 2, 0) == b1;
    assert GradientScales(1.0, [1.0])[0] == 2.0 && GradientScales(-1.0, [1.0])[0] == -2.0;
    assert b0 == Scaled(2.0, d) && b1 == Scaled(-2.0, d);
  }
}
