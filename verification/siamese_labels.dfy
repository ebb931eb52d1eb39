/** SiameseLabels: a Python layer with two inputs and one output that labels each
    pair of values 1 when the two are equal and 0 otherwise; it has no gradient.
    Blobs are numpy arrays here: a shape (a list of extents) and the values in
    row-major order. */
module SiameseLabels {

  /** What setup does: return normally, or raise an exception with a message. */
  datatype SetupOutcome = Ready | Raised(message: string)

  /** The number of values of an array of the given shape: the product of its extents. */
  function Count(shape: seq<nat>): nat
  {
    if |shape| == 0 then 1 else Count(shape[..|shape| - 1]) * shape[|shape| - 1]
  }

  /** setup: exactly two inputs, then exactly one output, checked in that order. */
  function Setup(bottomCount: nat, topCount: nat): (r: SetupOutcome)
    ensures r == Ready <==> bottomCount == 2 && topCount == 1
    ensures bottomCount != 2 ==> r == Raised("must have exactly two inputs")
    ensures bottomCount == 2 && topCount != 1 ==> r == Raised("must have exactly one output")
  {
    if bottomCount != 2 then Raised("must have exactly two inputs")
    else if topCount != 1 then Raised("must have exactly one output")
    else Ready
  }

  /** reshape: the output takes the shape of the first input. */
  function Reshape(bottom0Shape: seq<nat>, bottom1Shape: seq<nat>): (topShape: seq<nat>)
    ensures Count(topShape) == Count(bottom0Shape)
    ensures |topShape| == |bottom0Shape|
    ensures forall d :: 0 <= d < |topShape| ==> topShape[d] == bottom0Shape[d]
  {
    bottom0Shape
  }

  /** forward: the elementwise comparison of the two inputs, as 0/1 floats. */
  function Forward(bottom0: seq<real>, bottom1: seq<real>): (top: seq<real>)
    requires |bottom0| == |bottom1|
    ensures |top| == |bottom0|
    ensures forall k :: 0 <= k < |top| ==> (top[k] == 1.0 <==> bottom0[k] == bottom1[k])
    ensures forall k :: 0 <= k < |top| ==> (top[k] == 0.0 <==> bottom0[k] != bottom1[k])
  {
    seq(|bottom0|, k requires 0 <= k < |bottom0| => if bottom0[k] == bottom1[k] then 1.0 else 0.0)
  }

  /** backward: nothing is propagated; the input gradients stay as they were. */
  function Backward(bottomDiffs: seq<seq<real>>): (r: seq<seq<real>>)
    ensures r == bottomDiffs
  {
    bottomDiffs
  }

  /** Every label forward produces is 0 or 1. */
  lemma {:induction false} ForwardIsBinary(bottom0: seq<real>, bottom1: seq<real>)
    requires |bottom0| == |bottom1|
    ensures forall k :: 0 <= k < |bottom0| ==> Forward(bottom0, bottom1)[k] in {0.0, 1.0}
  {
    var top := Forward(bottom0, bottom1);
    forall k | 0 <= k < |bottom0|
      ensures top[k] in {0.0, 1.0}
    {
      if bottom0[k] == bottom1[k] {
        assert top[k] == 1.0;
      } else {
        assert top[k] == 0.0;
      }
    }
  }

  /** Swapping the two inputs gives the same labels. */
  lemma {:induction false} ForwardSymmetric(bottom0: seq<real>, bottom1: seq<real>)
    requires |bottom0| == |bottom1|
    ensures Forward(bottom0, bottom1) == Forward(bottom1, bottom0)
  {
    var t, u := Forward(bottom0, bottom1), Forward(bottom1, bottom0);
    forall k | 0 <= k < |t|
      ensures t[k] == u[k]
    {
      if bottom0[k] == bottom1[k] {
        assert t[k] == 1.0 && u[k] == 1.0;
      } else {
        assert t[k] == 0.0 && u[k] == 0.0;
      }
    }
  }
}
