/** The parts of Caffe's Blob the layers look at: the 4-D shape
    (num, channels, height, width) and the outcome of a layer's shape checks. */
module Blobs {

  datatype Shape = Shape(num: nat, channels: nat, height: nat, width: nat)
  {
    /** Blob::count(): the number of elements. */
    function Count(): nat
    {
      num * channels * height * width
    }

    /** Blob::count(1): the number of elements of one sample. */
    function SampleCount(): nat
    {
      channels * height * width
    }
  }

  /** A setup or reshape either shapes the top blob or stops on a failed CHECK. */
  datatype SetupResult = Shaped(top: Shape) | CheckFailed

  /** Blob::Reshape on one half (data or diff) of a blob: the storage is kept,
      contents and all, while its capacity suffices; otherwise fresh storage of
      exactly n elements is allocated, which SyncedMemory hands out zero-filled. */
  method ReshapeBuffer(buf: array<real>, n: nat) returns (b: array<real>)
    ensures n <= buf.Length ==> b == buf
    ensures buf.Length < n ==> fresh(b) && b.Length == n
    ensures buf.Length < n ==> forall p :: 0 <= p < n ==> b[p] == 0.0
  {
    if n <= buf.Length {
      b := buf;
    } else {
      b := NewBuffer(n);
    }
  }

  /** Fresh storage of n elements, zero-filled as SyncedMemory hands it out. */
  method NewBuffer(n: nat) returns (b: array<real>)
    ensures fresh(b) && b.Length == n
    ensures forall p :: 0 <= p < n ==> b[p] == 0.0
  {
    b := new real[n](_ => 0.0);
  }
}
