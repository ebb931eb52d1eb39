/** DiscriminativeLossLayer: for two batches of num embeddings with channels
    values each and a label per pair, the softplus-margin loss
    (1 / 2num) * sum_i log(1 + exp(y_i * (dist_i - tau) + margin)) into top[0],
    and a gradient for both embeddings. */
module DiscriminativeLoss {
  import opened Vectors
  import opened MathFunctions
  import opened Blobs
  import opened Transcendental

  class DiscriminativeLossLayer {
    var num: nat       // bottom[0]->num() at LayerSetUp
    var channels: nat  // bottom[0]->channels()
    var count: nat     // num * channels, the size of diff_ and diff_sqr_
    var diffData: array<real>     // diff_, data half: a - b
    var diffSqrData: array<real>  // diff_sqr_, data half: (a - b)^2
    var distData: array<real>     // dist_, data half: accumulated distance minus tau
    var distDiff: array<real>     // dist_, diff half: z / (1 + z) * y
    var zData: array<real>        // z_, data half: exp(y * dist + margin)
    var zDiff: array<real>        // z_, diff half: z / (1 + z)
    var zActData: array<real>     // z_act_, data half: log(1 + z)
    var zActDiff: array<real>     // z_act_, diff half: 1 + z

    ghost predicate Valid()
      reads this
    {
      count == num * channels
      && count <= diffData.Length && count <= diffSqrData.Length
      && num <= distData.Length && num <= distDiff.Length && num <= zData.Length
      && num <= zDiff.Length && num <= zActData.Length && num <= zActDiff.Length
      && diffData != diffSqrData && diffData != distData && diffData != distDiff
      && diffData != zData && diffData != zDiff && diffData != zActData && diffData != zActDiff
      && diffSqrData != distData && diffSqrData != distDiff && diffSqrData != zData
      && diffSqrData != zDiff && diffSqrData != zActData && diffSqrData != zActDiff
      && distData != distDiff && distData != zData && distData != zDiff
      && distData != zActData && distData != zActDiff
      && distDiff != zData && distDiff != zDiff && distDiff != zActData && distDiff != zActDiff
      && zData != zDiff && zData != zActData && zData != zActDiff
      && zDiff != zActData && zDiff != zActDiff
      && zActData != zActDiff
    }

    /** The layer's own scratch storage, which the caller's blobs never share. */
    ghost function Buffers(): set<array<real>>
      reads this
    {
      {diffData, diffSqrData, distData, distDiff, zData, zDiff, zActData, zActDiff}
    }

    /** The storage LayerSetUp gives the scratch blobs once its CHECKs pass: diff_
        and diff_sqr_ are (num, channels, 1, 1), dist_, z_ and z_act_ (num, 1, 1, 1).
        Setup runs once, on blobs that hold no storage yet, so every scratch blob
        receives fresh zero-filled storage. Only dist_ is read before it is written,
        so only its zeros are modelled; the other blobs start with arbitrary values. */
    constructor (bottom0: Shape, bottom1: Shape, labels: Shape)
      requires SetUpShape(bottom0, bottom1, labels).Shaped?
      ensures Valid() && num == bottom0.num && channels == bottom0.channels
      ensures diffData.Length == count && diffSqrData.Length == count
      ensures distData.Length == num && distDiff.Length == num && zData.Length == num
      ensures zDiff.Length == num && zActData.Length == num && zActDiff.Length == num
      ensures forall i :: 0 <= i < num ==> distData[i] == 0.0
      ensures fresh(diffData) && fresh(diffSqrData) && fresh(distData) && fresh(distDiff)
      ensures fresh(zData) && fresh(zDiff) && fresh(zActData) && fresh(zActDiff)
    {
      var n := bottom0.num * bottom0.channels;
      var dist := new real[bottom0.num](_ => 0.0);
      var diff, diffSqr := new real[n], new real[n];
      var distGrad, z, zGrad := new real[bottom0.num], new real[bottom0.num], new real[bottom0.num];
      var zAct, zActGrad := new real[bottom0.num], new real[bottom0.num];
      num, channels, count := bottom0.num, bottom0.channels, n;
      diffData, diffSqrData, distData, distDiff := diff, diffSqr, dist, distGrad;
      zData, zDiff, zActData, zActDiff := z, zGrad, zAct, zActGrad;
    }

    /** Forward_cpu. dist_ is not cleared: every sample's squared distance is
        ADDED to what dist_ held, then tau is subtracted; z_ = exp(y * dist_ + margin),
        z_act_.diff = z_ + 1, z_act_.data = log(z_act_.diff), and top[0] is the
        softplus loss of the resulting dist_. Only top[0] is written. */
    method Forward(bottom0: array<real>, bottom1: array<real>, labels: array<real>, top: array<real>,
                   margin: real, tau: real, exp: real -> real, log: real -> real)
      requires Valid() && num > 0
      requires bottom0.Length == count && bottom1.Length == count && num <= labels.Length && 1 <= top.Length
      requires bottom0 !in Buffers() && bottom1 !in Buffers() && labels !in Buffers() && top !in Buffers()
      requires top != bottom0 && top != bottom1 && top != labels
      modifies diffData, diffSqrData, distData, zData, zActData, zActDiff, top
      ensures diffData[..count] == Minus(bottom0[..], bottom1[..])
      ensures diffSqrData[..count] == Squares(diffData[..count])
      ensures distData[..num]
        == Shifted(Plus(old(distData[..num]), Distances(bottom0[..], bottom1[..], num, channels)), tau * -1.0)
      ensures zData[..num] == Activations(distData[..num], labels[..num], margin, exp)
      ensures zActDiff[..num] == Shifted(zData[..num], 1.0)
      ensures zActData[..num] == SoftplusTerms(distData[..num], labels[..num], margin, exp, log)
      ensures top[0] == SoftplusLoss(distData[..num], labels[..num], margin, exp, log)
      ensures forall p :: 1 <= p < top.Length ==> top[p] == old(top[p])
    {
      ComputeDistances(bottom0, bottom1, tau);
      ComputeActivations(labels, margin, exp, log);
      AverageLoss(top);
    }

    /** Forward_cpu as evidently intended: dist_ is cleared (caffe_set) first, so
        top[0] is the loss of the squared distances minus tau, whatever earlier
        passes left in dist_. */
    method ForwardFresh(bottom0: array<real>, bottom1: array<real>, labels: array<real>, top: array<real>,
                        margin: real, tau: real, exp: real -> real, log: real -> real)
      requires Valid() && num > 0
      requires bottom0.Length == count && bottom1.Length == count && num <= labels.Length && 1 <= top.Length
      requires bottom0 !in Buffers() && bottom1 !in Buffers() && labels !in Buffers() && top !in Buffers()
      requires top != bottom0 && top != bottom1 && top != labels
      modifies diffData, diffSqrData, distData, zData, zActData, zActDiff, top
      ensures distData[..num] == Shifted(Distances(bottom0[..], bottom1[..], num, channels), tau * -1.0)
      ensures top[0] == SoftplusLoss(Shifted(Distances(bottom0[..], bottom1[..], num, channels), tau * -1.0),
                                     labels[..num], margin, exp, log)
    {
      Set(num, 0.0, distData);
      PlusZero(distData[..num], Distances(bottom0[..], bottom1[..], num, channels));
      Forward(bottom0, bottom1, labels, top, margin, tau, exp, log);
    }

    /** Lines 38-45 of Forward_cpu: diff_, diff_sqr_, the accumulation into dist_
        and the subtraction of tau. */
    method ComputeDistances(bottom0: array<real>, bottom1: array<real>, tau: real)
      requires Valid()
      requires bottom0.Length == count && bottom1.Length == count
      requires bottom0 !in Buffers() && bottom1 !in Buffers()
      modifies diffData, diffSqrData, distData
      ensures diffData[..count] == Minus(bottom0[..], bottom1[..])
      ensures diffSqrData[..count] == Squares(diffData[..count])
      ensures distData[..num]
        == Shifted(Plus(old(distData[..num]), Distances(bottom0[..], bottom1[..], num, channels)), tau * -1.0)
    {
      ComputeSquares(bottom0, bottom1);
      ghost var diff, sqr := diffData[..], diffSqrData[..];
      AccumulateDistances();
      assert diffData[..] == diff && diffSqrData[..] == sqr;
      ghost var summed := distData[..num];
      AddScalar(num, tau * -1.0, distData);
      ShiftedOfEntries(distData[..num], summed, tau * -1.0);
    }

    /** Lines 38-39 of Forward_cpu: diff_ = a - b and diff_sqr_ = diff_^2, so that
        the values of each sample of diff_sqr_ add up to its squared distance. */
    method ComputeSquares(bottom0: array<real>, bottom1: array<real>)
      requires count == num * channels && count <= diffData.Length && count <= diffSqrData.Length
      requires bottom0.Length == count && bottom1.Length == count
      requires diffData != diffSqrData && bottom0 != diffData && bottom1 != diffData
      requires bottom0 != diffSqrData && bottom1 != diffSqrData
      modifies diffData, diffSqrData
      ensures diffData[..count] == Minus(bottom0[..], bottom1[..])
      ensures diffSqrData[..count] == Squares(diffData[..count])
      ensures RowSums(diffSqrData[..], num, channels) == Distances(bottom0[..], bottom1[..], num, channels)
    {
      Sub(count, bottom0, 0, bottom1, 0, diffData, 0);
      MinusOfEntries(diffData[..count], bottom0[..], bottom1[..]);
      ghost var diff := diffData[..count];
      Sqr(count, diffData, diffSqrData);
      assert diffData[..count] == diff;
      RowSumsOfSquaredDifferences(diffSqrData[..], bottom0[..], bottom1[..], num, channels);
    }

    /** The loop of lines 40-44: every sample's squared differences are added to dist_. */
    method AccumulateDistances()
      requires count == num * channels && count <= diffSqrData.Length && num <= distData.Length
      requires distData != diffSqrData
      modifies distData
      ensures distData[..num] == Plus(old(distData[..num]), RowSums(diffSqrData[..], num, channels))
    {
      var i := 0;
      while i < num
        invariant i <= num
        invariant forall i' :: 0 <= i' < i ==>
          distData[i'] == old(distData[i']) + Sum(Row(diffSqrData[..], num, channels, i'))
        invariant forall p :: i <= p < distData.Length ==> distData[p] == old(distData[p])
      {
        AccumulateSample(i);
        i := i + 1;
      }
      PlusOfEntries(distData[..num], old(distData[..num]), RowSums(diffSqrData[..], num, channels));
    }

    /** The inner loop of lines 40-44: dist_[i] += every squared difference of sample i. */
    method AccumulateSample(i: nat)
      requires count == num * channels && count <= diffSqrData.Length && num <= distData.Length
      requires distData != diffSqrData && i < num
      modifies distData
      ensures distData[i] == old(distData[i]) + Sum(Row(diffSqrData[..], num, channels, i))
      ensures forall p :: 0 <= p < distData.Length && p != i ==> distData[p] == old(distData[p])
    {
      RowInBounds(i, channels, num);
      ghost var sq := diffSqrData[..];
      var start := i * channels;
      var j := 0;
      while j < channels
        invariant j <= channels
        invariant distData[i] == old(distData[i]) + Sum(sq[start..start + j])
        invariant forall p :: 0 <= p < distData.Length && p != i ==> distData[p] == old(distData[p])
      {
        assert sq[start..start + j + 1][..j] == sq[start..start + j];
        distData[i] := distData[i] + diffSqrData[start + j];
        j := j + 1;
      }
      assert sq[start..start + channels] == Row(sq, num, channels, i);
    }

    /** Lines 46-51 of Forward_cpu: z_ and then z_act_. */
    method ComputeActivations(labels: array<real>, margin: real, exp: real -> real, log: real -> real)
      requires Valid()
      requires num <= labels.Length && labels !in Buffers()
      modifies zData, zActData, zActDiff
      ensures zData[..num] == Activations(distData[..num], labels[..num], margin, exp)
      ensures zActDiff[..num] == Shifted(zData[..num], 1.0)
      ensures zActData[..num] == SoftplusTerms(distData[..num], labels[..num], margin, exp, log)
    {
      ComputeZ(labels, margin, exp);
      ghost var z := zData[..num];
      ComputeZAct(log);
      assert zData[..num] == z;
      forall p | 0 <= p < num
        ensures zActData[..num][p] == SoftplusTerms(distData[..num], labels[..num], margin, exp, log)[p]
      {
        assert zActData[p] == log(zActDiff[p]);
        assert zActDiff[p] == z[p] + 1.0;
      }
    }

    /** Lines 46-48 of Forward_cpu: z_ = y * dist_, then + margin, then exp in place. */
    method ComputeZ(labels: array<real>, margin: real, exp: real -> real)
      requires Valid()
      requires num <= labels.Length && labels !in Buffers()
      modifies zData
      ensures zData[..num] == Activations(distData[..num], labels[..num], margin, exp)
    {
      ghost var y, d := labels[..num], distData[..num];
      Mul(num, labels, distData, zData);
      ghost var product := zData[..num];
      AddScalar(num, margin * 1.0, zData);
      ghost var argument := zData[..num];
      forall p | 0 <= p < num
        ensures argument[p] == Logits(d, y, margin)[p]
      {
        assert product[p] == y[p] * d[p];
      }
      assert argument == Logits(d, y, margin);
      Exp(num, exp, zData, zData);
      assert labels[..num] == y && distData[..num] == d;
      forall p | 0 <= p < num
        ensures zData[..num][p] == Activations(d, y, margin, exp)[p]
      {
        assert zData[p] == exp(argument[p]);
      }
    }

    /** Lines 49-51 of Forward_cpu: z_act_.diff = 1 * z_ + 0 * z_act_.diff, then + 1,
        and z_act_.data = log(z_act_.diff). */
    method ComputeZAct(log: real -> real)
      requires Valid()
      modifies zActData, zActDiff
      ensures zActDiff[..num] == Shifted(zData[..num], 1.0)
      ensures forall p :: 0 <= p < num ==> zActData[p] == log(zActDiff[p])
    {
      CpuAxpby(num, 1.0, zData, 0, 0.0, zActDiff, 0);
      AddScalar(num, 1.0, zActDiff);
      ShiftedOfEntries(zActDiff[..num], zData[..num], 1.0);
      Log(num, log, zActDiff, zActData);
    }

    /** Lines 52-57 of Forward_cpu: the sum of z_act_.data, divided by num and by 2,
        into top[0]. */
    method AverageLoss(top: array<real>)
      requires Valid() && num > 0
      requires 1 <= top.Length && top !in Buffers()
      modifies top
      ensures top[0] == Sum(zActData[..num]) / (num as real) / 2.0
      ensures forall p :: 1 <= p < top.Length ==> top[p] == old(top[p])
    {
      var loss := 0.0;
      var i := 0;
      while i < num
        invariant i <= num
        invariant loss == Sum(zActData[..i])
      {
        assert zActData[..i + 1][..i] == zActData[..i];
        loss := loss + zActData[i];
        i := i + 1;
      }
      loss := loss / (num as real) / 2.0;
      top[0] := loss;
    }

    /** Backward_cpu. Twice (once per input, sign +1 then -1): z_.diff = z_ / z_act_.diff,
        dist_.diff = z_.diff * y, and every value of the input's gradient is overwritten
        with 2 * sign * dist_.diff[j] * diff_. The top gradient is never read. */
    method Backward(labels: array<real>, bottom0Diff: array<real>, bottom1Diff: array<real>)
      requires Valid()
      requires num <= labels.Length && count <= bottom0Diff.Length && count <= bottom1Diff.Length
      requires labels !in Buffers() && bottom0Diff !in Buffers() && bottom1Diff !in Buffers()
      requires bottom0Diff != bottom1Diff && bottom0Diff != labels && bottom1Diff != labels
      requires forall p :: 0 <= p < num ==> zActDiff[p] != 0.0
      modifies zDiff, distDiff, bottom0Diff, bottom1Diff
      ensures zDiff[..num] == Quotients(zData[..num], zActDiff[..num])
      ensures distDiff[..num] == Products(zDiff[..num], labels[..num])
      ensures ScaledRows(bottom0Diff[..], diffData[..], LossGradientScales(1.0, distDiff[..num]), num, channels, num)
      ensures ScaledRows(bottom1Diff[..], diffData[..], LossGradientScales(-1.0, distDiff[..num]), num, channels, num)
      ensures forall p :: 0 <= p < count ==> bottom1Diff[p] == -bottom0Diff[p]
      ensures forall p :: count <= p < bottom0Diff.Length ==> bottom0Diff[p] == old(bottom0Diff[p])
      ensures forall p :: count <= p < bottom1Diff.Length ==> bottom1Diff[p] == old(bottom1Diff[p])
    {
      ghost var z, zAct, y, diff := zData[..num], zActDiff[..num], labels[..num], diffData[..];
      var i := 0;
      while i < 2
        invariant i <= 2
        invariant zData[..num] == z && zActDiff[..num] == zAct && labels[..num] == y && diffData[..] == diff
        invariant 1 <= i ==> zDiff[..num] == Quotients(z, zAct)
        invariant 1 <= i ==> distDiff[..num] == Products(zDiff[..num], y)
        invariant 1 <= i ==>
          ScaledRows(bottom0Diff[..], diff, LossGradientScales(1.0, distDiff[..num]), num, channels, num)
        invariant 2 <= i ==>
          ScaledRows(bottom1Diff[..], diff, LossGradientScales(-1.0, distDiff[..num]), num, channels, num)
        invariant forall p :: count <= p < bottom0Diff.Length ==> bottom0Diff[p] == old(bottom0Diff[p])
        invariant forall p :: count <= p < bottom1Diff.Length ==> bottom1Diff[p] == old(bottom1Diff[p])
      {
        var sign := if i == 0 then 1.0 else -1.0;
        var target := if i == 0 then bottom0Diff else bottom1Diff;
        ghost var other := if i == 0 then bottom1Diff[..] else bottom0Diff[..];
        ghost var factors := distDiff[..num];
        GradientFactors(labels);
        assert zData[..num] == z && zActDiff[..num] == zAct && labels[..num] == y;
        assert 1 <= i ==> distDiff[..num] == factors;
        WriteGradient(sign, target);
        assert (if i == 0 then bottom1Diff[..] else bottom0Diff[..]) == other;
        assert zData[..num] == z && zActDiff[..num] == zAct && labels[..num] == y && diffData[..] == diff;
        i := i + 1;
      }
      OppositeRows(bottom0Diff[..], bottom1Diff[..], diffData[..],
                   LossGradientScales(1.0, distDiff[..num]), LossGradientScales(-1.0, distDiff[..num]), num, channels);
    }

    /** Lines 67-68 of Backward_cpu: z_.diff = z_ / z_act_.diff and dist_.diff = z_.diff * y. */
    method GradientFactors(labels: array<real>)
      requires Valid()
      requires num <= labels.Length && labels !in Buffers()
      requires forall p :: 0 <= p < num ==> zActDiff[p] != 0.0
      modifies zDiff, distDiff
      ensures zDiff[..num] == Quotients(zData[..num], zActDiff[..num])
      ensures distDiff[..num] == Products(zDiff[..num], labels[..num])
    {
      Div(num, zData, zActDiff, zDiff);
      QuotientsOfEntries(zDiff[..num], zData[..num], zActDiff[..num]);
      ghost var q := zDiff[..num];
      Mul(num, zDiff, labels, distDiff);
      assert zDiff[..num] == q;
      ProductsOfEntries(distDiff[..num], zDiff[..num], labels[..num]);
    }

    /** Lines 69-73 of Backward_cpu for one input: every sample j of target becomes
        2 * sign * dist_.diff[j] times sample j of diff_. */
    method WriteGradient(sign: real, target: array<real>)
      requires count == num * channels && count <= diffData.Length && num <= distDiff.Length
      requires count <= target.Length && target != diffData && target != distDiff
      modifies target
      ensures ScaledRows(target[..], diffData[..], LossGradientScales(sign, distDiff[..num]), num, channels, num)
      ensures forall p :: count <= p < target.Length ==> target[p] == old(target[p])
    {
      ghost var diff := diffData[..];
      ghost var coeff := LossGradientScales(sign, distDiff[..num]);
      var j := 0;
      while j < num
        invariant j <= num
        invariant ScaledRows(target[..], diff, coeff, num, channels, j)
        invariant forall p :: j * channels <= p < target.Length ==> target[p] == old(target[p])
      {
        ghost var before := target[..];
        var alpha := 2.0 * sign * distDiff[j];
        assert alpha == coeff[j];
        WriteGradientRow(alpha, j, target);
        assert diffData[..] == diff;
        ScaledRowsExtend(before, target[..], diff, coeff, num, channels, j);
        j := j + 1;
      }
      assert diffData[..] == diff;
      assert distDiff[..num] == old(distDiff[..num]);
    }

    /** The inner loop of lines 70-72: sample j of target becomes alpha times sample j
        of diff_, value by value. alpha is 2 * sign * dist_.diff[j], the left-to-right
        prefix of the product the source evaluates for every value. */
    method WriteGradientRow(alpha: real, j: nat, target: array<real>)
      requires count == num * channels && count <= diffData.Length && j < num
      requires count <= target.Length && target != diffData
      modifies target
      ensures Row(target[..], num, channels, j) == Scaled(alpha, Row(diffData[..], num, channels, j))
      ensures forall p :: 0 <= p < j * channels ==> target[p] == old(target[p])
      ensures forall p :: (j + 1) * channels <= p < target.Length ==> target[p] == old(target[p])
    {
      RowInBounds(j, channels, num);
      ghost var scaled := Scaled(alpha, diffData[..]);
      var start := j * channels;
      var k := 0;
      while k < channels
        invariant k <= channels
        invariant forall p :: start <= p < start + k ==> target[p] == scaled[p]
        invariant forall p :: 0 <= p < start ==> target[p] == old(target[p])
        invariant forall p :: start + k <= p < target.Length ==> target[p] == old(target[p])
      {
        target[start + k] := alpha * diffData[start + k];
        assert target[start + k] == scaled[start + k];
        k := k + 1;
      }
      RowOfScaled(target[..], diffData[..], alpha, num, channels, j);
      assert (j + 1) * channels == start + channels;
    }
  }

  /** The CHECKs of LayerSetUp (lines 13-20): both embeddings have equally many
      channels and unit height and width, the label has one channel and unit
      height and width. When they pass, the top becomes (num, 1, 1, 1) (line 26). */
  function SetUpShape(bottom0: Shape, bottom1: Shape, labels: Shape): (r: SetupResult)
    ensures r.Shaped? <==>
      bottom0.channels == bottom1.channels
      && bottom0.height == 1 && bottom0.width == 1
      && bottom1.height == 1 && bottom1.width == 1
      && labels.channels == 1 && labels.height == 1 && labels.width == 1
    ensures r.Shaped? ==> r.top == Shape(bottom0.num, 1, 1, 1)
  {
    if bottom0.channels != bottom1.channels
      || bottom0.height != 1 || bottom0.width != 1
      || bottom1.height != 1 || bottom1.width != 1
      || labels.channels != 1 || labels.height != 1 || labels.width != 1
    then CheckFailed
    else Shaped(Shape(bottom0.num, 1, 1, 1))
  }

  /** The per-sample arguments of exp: y_i * dist_i + margin. */
  function Logits(dist: seq<real>, y: seq<real>, margin: real): (r: seq<real>)
    requires |y| == |dist|
    ensures |r| == |dist|
  {
    seq(|dist|, i requires 0 <= i < |dist| => y[i] * dist[i] + margin)
  }

  /** The per-sample activations z_i = exp(y_i * dist_i + margin). */
  function Activations(dist: seq<real>, y: seq<real>, margin: real, exp: real -> real): (r: seq<real>)
    requires |y| == |dist|
    ensures |r| == |dist|
  {
    var t := Logits(dist, y, margin);
    seq(|dist|, i requires 0 <= i < |dist| => exp(t[i]))
  }

  /** The per-sample terms of the loss: log(1 + z_i). */
  function SoftplusTerms(dist: seq<real>, y: seq<real>, margin: real, exp: real -> real, log: real -> real)
    : (r: seq<real>)
    requires |y| == |dist|
    ensures |r| == |dist|
  {
    var z := Activations(dist, y, margin, exp);
    seq(|dist|, i requires 0 <= i < |dist| => log(z[i] + 1.0))
  }

  /** The loss of lines 52-56: the mean of the per-sample terms, halved. */
  function SoftplusLoss(dist: seq<real>, y: seq<real>, margin: real, exp: real -> real, log: real -> real): real
    requires |y| == |dist| && |dist| > 0
  {
    Sum(SoftplusTerms(dist, y, margin, exp, log)) / (|dist| as real) / 2.0
  }

  /** The per-sample factors of lines 69-73: 2 * sign * dist_.diff[j]. */
  function LossGradientScales(sign: real, distDiff: seq<real>): (r: seq<real>)
    ensures |r| == |distDiff|
  {
    seq(|distDiff|, j requires 0 <= j < |distDiff| => 2.0 * sign * distDiff[j])
  }

  /** With exp positive and log positive above 1, every term log(1 + z_i) is
      positive, and so is the loss the layer reports. */
  lemma {:induction false} LossPositive(dist: seq<real>, y: seq<real>, margin: real,
                                        exp: real -> real, log: real -> real)
    requires |y| == |dist| && |dist| > 0
    requires ExpPositive(exp) && LogPositiveAboveOne(log)
    ensures SoftplusLoss(dist, y, margin, exp, log) > 0.0
  {
    var z := Activations(dist, y, margin, exp);
    var terms := SoftplusTerms(dist, y, margin, exp, log);
    forall i | 0 <= i < |terms|
      ensures terms[i] > 0.0
    {
      assert z[i] > 0.0;
      assert terms[i] == log(z[i] + 1.0);
    }
    SumPositive(terms);
    var n := |dist| as real;
    var mean := Sum(terms) / n;
    assert mean * n == Sum(terms);
    assert mean > 0.0;
  }

  /** Once z_act_.diff holds 1 + z_ with every z_i positive (as Forward leaves it when
      exp is positive), every z_.diff factor of Backward lies strictly between 0 and 1,
      so each dist_.diff[i] = z_.diff[i] * y_i is smaller in size than y_i. */
  lemma {:induction false} GradientFactorsBounded(z: seq<real>, y: seq<real>)
    requires |y| == |z|
    requires forall i :: 0 <= i < |z| ==> z[i] > 0.0
    ensures forall i :: 0 <= i < |z| ==> Shifted(z, 1.0)[i] != 0.0
    ensures forall i :: 0 <= i < |z| ==> 0.0 < Quotients(z, Shifted(z, 1.0))[i] < 1.0
    ensures forall i :: 0 <= i < |z| ==> Abs(Products(Quotients(z, Shifted(z, 1.0)), y)[i]) < Abs(y[i]) || y[i] == 0.0
  {
    var q := Quotients(z, Shifted(z, 1.0));
    forall i | 0 <= i < |z|
      ensures 0.0 < q[i] < 1.0
      ensures Abs(Products(q, y)[i]) < Abs(y[i]) || y[i] == 0.0
    {
      FactorBounded(z[i], y[i]);
    }
  }

  /** One factor: for z > 0, 0 < z / (z + 1) < 1, and scaling y by it shrinks y. */
  lemma {:induction false} FactorBounded(z: real, y: real)
    requires z > 0.0
    ensures 0.0 < z / (z + 1.0) < 1.0
    ensures Abs(z / (z + 1.0) * y) < Abs(y) || y == 0.0
  {
    var q := z / (z + 1.0);
    assert q * (z + 1.0) == z;
    assert q > 0.0;
    assert 1.0 - q == 1.0 / (z + 1.0);
    assert q < 1.0;
    if y > 0.0 {
      assert q * y < y;
    } else if y < 0.0 {
      assert q * -y < -y;
    }
  }

  /** Concrete case: one pair a = [1, 0], b = [0, 0] with label -1, tau = 0.5 and
      margin = 1 on a cleared dist_ gives dist_ = [0.5] and the loss
      log(1 + exp(0.5)) / 2. */
  lemma {:induction false} UnitPairLoss(exp: real -> real, log: real -> real)
    ensures Shifted(Distances([1.0, 0.0], [0.0, 0.0], 1, 2), 0.5 * -1.0) == [0.5]
    ensures SoftplusLoss([0.5], [-1.0], 1.0, exp, log) == log(exp(0.5) + 1.0) / 2.0
  {
    UnitDistance();
    assert Logits([0.5], [-1.0], 1.0) == [0.5];
    assert Activations([0.5], [-1.0], 1.0, exp) == [exp(0.5)];
    assert SoftplusTerms([0.5], [-1.0], 1.0, exp, log) == [log(exp(0.5) + 1.0)];
    var t := log(exp(0.5) + 1.0);
    assert [t][..0] == [];
    assert Sum([t]) == t;
    assert Sum([t]) / (|[0.5]| as real) == t;
  }

  /** Concrete case: one pair a = [0, 0], b = [1, 0] with label 1, margin = 0 and
      tau = 0 on a cleared dist_ gives dist_ = [1] and the loss log(1 + e) / 2. */
  lemma {:induction false} SimilarPairLoss(exp: real -> real, log: real -> real)
    ensures Shifted(Distances([0.0, 0.0], [1.0, 0.0], 1, 2), 0.0 * -1.0) == [1.0]
    ensures SoftplusLoss([1.0], [1.0], 0.0, exp, log) == log(exp(1.0) + 1.0) / 2.0
  {
    UnitDistance();
    DistancesSymmetric([0.0, 0.0], [1.0, 0.0], 1, 2);
    assert Shifted([1.0], 0.0 * -1.0) == [1.0];
    assert Logits([1.0], [1.0], 0.0) == [1.0];
    assert Activations([1.0], [1.0], 0.0, exp) == [exp(1.0)];
    assert SoftplusTerms([1.0], [1.0], 0.0, exp, log) == [log(exp(1.0) + 1.0)];
    var t := log(exp(1.0) + 1.0);
    assert [t][..0] == [];
    assert Sum([t]) == t;
    assert Sum([t]) / (|[1.0]| as real) == t;
  }

  /** As written, Forward adds onto dist_ and subtracts tau again on every pass: a
      layer whose dist_ starts at zero and runs Forward twice over a = [1, 0],
      b = [0, 0] with tau = 0.5 holds dist_ = [0.5] and then [1.0], although the
      pair's distance minus tau, which ForwardFresh yields on every pass, is 0.5. */
  lemma {:induction false} RepeatedForwardDrifts()
    ensures var d := Distances([1.0, 0.0], [0.0, 0.0], 1, 2);
            var first := Shifted(Plus([0.0], d), 0.5 * -1.0);
            var second := Shifted(Plus(first, d), 0.5 * -1.0);
            first == [0.5] && second == [1.0] && second != Shifted(d, 0.5 * -1.0)
  {
    UnitDistance();
    var d := Distances([1.0, 0.0], [0.0, 0.0], 1, 2);
    assert Plus([0.0], d) == [1.0];
    assert Shifted([1.0], 0.5 * -1.0) == [0.5];
    assert Plus([0.5], d) == [1.5];
    assert Shifted([1.5], 0.5 * -1.0) == [1.0];
    assert Shifted(d, 0.5 * -1.0)[0] == 0.5;
  }
}
