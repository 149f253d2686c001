/**
 * The Savitzky-Golay smoother of polynomial order 1 (scipy's
 * savgol_filter(xs, window, 1)) and the odd-window adjustment every caller
 * applies before using it.
 */
module Smoothing {
  import opened Trace

  /** The smoother's arithmetic is foreign numeric code: it is a parameter of the model. */
  type Filter = (seq<real>, int) -> seq<real>

  /** The one property the model assumes of the smoother: the output is as long as the input. */
  ghost predicate KeepsLength(smooth: Filter)
  {
    forall xs: seq<real>, w: int :: |smooth(xs, w)| == |xs|
  }

  /**
   * savgol_filter(xs, window, 1) in its default 'interp' mode raises unless the
   * order 1 is below the window and the window does not exceed the data.
   */
  function SavGol(smooth: Filter, xs: seq<real>, window: int): (r: Result<seq<real>>)
    requires KeepsLength(smooth)
    ensures r.Ok? <==> 1 < window <= |xs|
    ensures r.Ok? ==> |r.value| == |xs|
  {
    if 1 < window <= |xs| then Ok(smooth(xs, window)) else Err(WindowRejected)
  }

  /** `if win % 2 == 0: win += 1`: the window becomes odd, the least odd number not below it. */
  function OddWindow(win: int): (w: int)
    ensures w % 2 == 1
    ensures win <= w <= win + 1
    ensures win % 2 == 1 ==> w == win
  {
    if win % 2 == 0 then win + 1 else win
  }

  /** Adjusting an already adjusted window changes nothing. */
  lemma OddWindowIdempotent(win: int)
    ensures OddWindow(OddWindow(win)) == OddWindow(win)
  {
  }
}
