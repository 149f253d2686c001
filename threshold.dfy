/**
 * Thresholding a smoothed channel: `block = np.where(filtered > threshold)`
 * and the restriction of the three channels to the selected indices,
 * `np.array(xs)[block]`, as batch.py and the Isolate action of zoomer.py do it.
 */
module Threshold {
  import opened Trace

  /**
   * np.where(filtered > threshold)[0]: exactly the indices whose smoothed value
   * is strictly above the threshold, in increasing order.
   */
  function Above(filtered: seq<real>, threshold: int): (block: seq<nat>)
    ensures forall j | 0 <= j < |block| :: block[j] < |filtered| && filtered[block[j]] > threshold as real
    ensures forall i | 0 <= i < |filtered| && filtered[i] > threshold as real :: i in block
    ensures forall j, k | 0 <= j < k < |block| :: block[j] < block[k]
    decreases |filtered|
  {
    if filtered == [] then []
    else
      var n := |filtered| - 1;
      Above(filtered[..n], threshold) + if filtered[n] > threshold as real then [n] else []
  }

  /** Raising the threshold can only drop indices from the selection. */
  lemma AboveAntitone(filtered: seq<real>, low: int, high: int)
    requires low <= high
    ensures forall i | i in Above(filtered, high) :: i in Above(filtered, low)
  {
  }

  /** `np.array(xs)[block]`. */
  function Pick(xs: seq<real>, block: seq<nat>): seq<real>
    requires forall j | 0 <= j < |block| :: block[j] < |xs|
  {
    seq(|block|, j requires 0 <= j < |block| => xs[block[j]])
  }

  /** time, fluo and pmt restricted to the same selection. */
  function Restrict(ch: Channels, block: seq<nat>): Channels
    requires ch.Aligned()
    requires forall j | 0 <= j < |block| :: block[j] < |ch.time|
  {
    Channels(Pick(ch.time, block), Pick(ch.fluo, block), Pick(ch.pmt, block))
  }

  /**
   * The restricted channels stay aligned, have one entry per selected index,
   * and entry j of each is the record at the j-th selected index.
   */
  lemma RestrictAligned(ch: Channels, filtered: seq<real>, threshold: int)
    requires ch.Aligned() && |filtered| == ch.Size()
    ensures var block := Above(filtered, threshold);
      var sel := Restrict(ch, block);
      sel.Aligned() && sel.Size() == |block| &&
      forall j | 0 <= j < |block| :: sel.At(j) == ch.At(block[j])
  {
  }
}
