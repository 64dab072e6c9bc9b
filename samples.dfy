/** Audio samples and the arithmetic on buffers of them that both the
    capture side and the playback side rely on.  A sample is an abstract
    amplitude; the only thing the system ever asks of one is whether it is
    zero.  A buffer of shape (n, 1) is a sequence of n samples, and
    concatenating such buffers along axis 0 is sequence concatenation. */
module Samples {

  /** One mono sample (float32 on capture, int16 on playback). */
  type Sample = int

  /** Sample rate of both the input and the output stream, in Hz. */
  const SampleRate: nat := 24000

  predicate IsZero(x: Sample) {
    x == 0
  }

  /** Every sample is zero.  Like an all-elements test over no elements,
      it holds of the empty buffer, so an empty buffer counts as silent. */
  predicate AllZero(s: seq<Sample>): (r: bool)
    ensures s == [] ==> r
  {
    forall k :: 0 <= k < |s| ==> IsZero(s[k])
  }

  /** The batches joined end to end, in order: nothing is lost or
      duplicated, so the length is the sum of the batch lengths. */
  function Flatten(batches: seq<seq<Sample>>): (r: seq<Sample>)
    ensures |r| == TotalLength(batches)
  {
    if batches == [] then [] else batches[0] + Flatten(batches[1..])
  }

  /** Sum of the batch lengths. */
  function TotalLength(batches: seq<seq<Sample>>): nat {
    if batches == [] then 0 else |batches[0]| + TotalLength(batches[1..])
  }

  /** Joining distributes over splitting the list of batches anywhere. */
  lemma {:induction false} FlattenAppend(a: seq<seq<Sample>>, b: seq<seq<Sample>>)
    ensures Flatten(a + b) == Flatten(a) + Flatten(b)
  {
    if a == [] {
      assert a + b == b;
    } else {
      assert (a + b)[1..] == a[1..] + b;
      FlattenAppend(a[1..], b);
    }
  }
}
