/**
 * zoomer.py: a trace browser that indexes the file once, then draws N
 * samples spread evenly over the index range in view, maps a zoomed time
 * range back to an index range, and can isolate the samples whose smoothed
 * fluorescence lies above a threshold.
 */
module Zoomer {
  import opened Trace
  import opened LineIndex
  import opened Smoothing
  import opened Threshold

  /** `self.range`: the first and last line index on display. */
  datatype Span = Span(first: int, last: int)

  /** The samples drawn and the two smoothed curves drawn over them. */
  datatype View = View(samples: Channels, fitFluo: seq<real>, fitPmt: seq<real>)

  /** The figures the Isolate action reports: points above the threshold, and events. */
  datatype Isolation = Isolation(points: nat, events: nat)

  /**
   * np.linspace(a, b, n) in exact arithmetic: n points from a to b, evenly
   * spaced; a single point is a itself.
   */
  function Linspace(a: int, b: int, n: nat): (xs: seq<real>)
    ensures |xs| == n
    ensures n >= 1 ==> xs[0] == a as real
    ensures n >= 2 ==> xs[n-1] == b as real
  {
    if n == 1 then [a as real]
    else
      var step := (b - a) as real / (n - 1) as real;
      seq(n, k requires 0 <= k < n => a as real + k as real * step)
  }

  lemma MulMonotone(j: real, k: real, s: real)
    requires j <= k && s >= 0.0
    ensures j * s <= k * s
  {
    assert k * s - j * s == (k - j) * s;
  }

  /** Point k of an evenly spaced range of at least two points. */
  lemma LinspaceAt(a: int, b: int, n: nat, k: nat)
    requires n >= 2 && k < n
    ensures Linspace(a, b, n)[k] == a as real + k as real * ((b - a) as real / (n - 1) as real)
  {
  }

  lemma LinspaceBetween(a: int, b: int, n: nat, k: nat)
    requires a <= b && k < n
    ensures a as real <= Linspace(a, b, n)[k] <= b as real
  {
    if n >= 2 {
      var d := (n - 1) as real;
      var step := (b - a) as real / d;
      assert step >= 0.0;
      assert d * step == (b - a) as real;
      LinspaceAt(a, b, n, k);
      MulMonotone(0.0, k as real, step);
      MulMonotone(k as real, d, step);
      assert 0.0 <= k as real * step <= (b - a) as real;
    }
  }

  lemma LinspaceStep(a: int, b: int, n: nat, j: nat, k: nat)
    requires a <= b && j <= k < n
    ensures Linspace(a, b, n)[j] <= Linspace(a, b, n)[k]
  {
    if n >= 2 {
      var step := (b - a) as real / (n - 1) as real;
      assert step >= 0.0;
      LinspaceAt(a, b, n, j);
      LinspaceAt(a, b, n, k);
      MulMonotone(j as real, k as real, step);
    }
  }

  /** On an increasing range the points stay between the ends and never decrease. */
  lemma LinspaceOrdered(a: int, b: int, n: nat)
    requires a <= b
    ensures forall k | 0 <= k < n :: a as real <= Linspace(a, b, n)[k] <= b as real
    ensures forall j, k | 0 <= j <= k < n :: Linspace(a, b, n)[j] <= Linspace(a, b, n)[k]
  {
    forall k | 0 <= k < n ensures a as real <= Linspace(a, b, n)[k] <= b as real {
      LinspaceBetween(a, b, n, k);
    }
    forall j, k | 0 <= j <= k < n ensures Linspace(a, b, n)[j] <= Linspace(a, b, n)[k] {
      LinspaceStep(a, b, n, j, k);
    }
  }

  /** `int(position) for position in np.linspace(range[0], range[1], N)`. */
  function SampleIndices(r: Span, n: nat): (idx: seq<int>)
    ensures |idx| == n
    ensures n >= 1 ==> idx[0] == r.first
    ensures n >= 2 ==> idx[n-1] == r.last
  {
    var xs := Linspace(r.first, r.last, n);
    seq(n, k requires 0 <= k < n => Trunc(xs[k]))
  }

  /**
   * On a non-negative range the sampler yields exactly n indices, all within
   * the range and non-decreasing, beginning at its first index and, when there
   * are at least two, ending at its last.
   */
  lemma SampleIndicesInRange(r: Span, n: nat)
    requires 0 <= r.first <= r.last
    ensures forall k | 0 <= k < n :: r.first <= SampleIndices(r, n)[k] <= r.last
    ensures forall j, k | 0 <= j <= k < n :: SampleIndices(r, n)[j] <= SampleIndices(r, n)[k]
  {
    var xs := Linspace(r.first, r.last, n);
    var idx := SampleIndices(r, n);
    LinspaceOrdered(r.first, r.last, n);
    forall k | 0 <= k < n ensures r.first <= idx[k] <= r.last {
      TruncMonotone(r.first as real, xs[k]);
      TruncMonotone(xs[k], r.last as real);
    }
    forall j, k | 0 <= j <= k < n ensures idx[j] <= idx[k] {
      TruncMonotone(xs[j], xs[k]);
    }
  }

  /**
   * Asking for more points than the range has indices makes the sampler read
   * some line twice in a row.
   */
  lemma SampleIndicesRepeat(r: Span, n: nat)
    requires 0 <= r.first <= r.last && n > r.last - r.first + 1
    ensures exists k | 0 <= k < n - 1 :: SampleIndices(r, n)[k] == SampleIndices(r, n)[k+1]
  {
    var idx := SampleIndices(r, n);
    SampleIndicesInRange(r, n);
    if forall k | 0 <= k < n - 1 :: idx[k] != idx[k+1] {
      var k := 0;
      while k < n - 1
        invariant 0 <= k <= n - 1
        invariant idx[k] >= r.first + k
      {
        assert idx[k] <= idx[k+1];
        k := k + 1;
      }
      assert false;
    }
  }

  /** The lines the sampler reads, parsed; the first unreadable one ends the read. */
  function SampleWindow(lines: seq<Line>, r: Span, n: nat): Result<Channels>
  {
    Gather(lines, SampleIndices(r, n), false)
  }

  /**
   * What updatePlot draws: the sampled records and both channels smoothed with
   * the window made odd. It fails when a sampled line cannot be read, or when
   * the smoother rejects the window for n samples.
   */
  function Plot(smooth: Filter, lines: seq<Line>, r: Span, win: int, n: nat): (v: Result<View>)
    requires KeepsLength(smooth)
    ensures v.Ok? <==> SampleWindow(lines, r, n).Ok? && 1 < OddWindow(win) <= n
    ensures v.Err? && SampleWindow(lines, r, n).Ok? ==> v.error == WindowRejected
    ensures v.Ok? ==> v.value.samples.Aligned() && v.value.samples.Size() == n
    ensures v.Ok? ==> |v.value.fitFluo| == n && |v.value.fitPmt| == n
    ensures v.Ok? ==>
      v.value.fitFluo == smooth(v.value.samples.fluo, OddWindow(win)) &&
      v.value.fitPmt == smooth(v.value.samples.pmt, OddWindow(win))
  {
    match SampleWindow(lines, r, n)
    case Err(e) => Err(e)
    case Ok(ch) =>
      var w := OddWindow(win);
      match SavGol(smooth, ch.fluo, w)
      case Err(e) => Err(e)
      case Ok(fit) => Ok(View(ch, fit, smooth(ch.pmt, w)))
  }

  /** Sample k of a drawn view is the record of the k-th sampled line. */
  lemma PlotShowsSamples(smooth: Filter, lines: seq<Line>, r: Span, win: int, n: nat)
    requires KeepsLength(smooth)
    ensures var v := Plot(smooth, lines, r, win, n);
      v.Ok? ==> forall k | 0 <= k < n :: SampleAt(lines, SampleIndices(r, n)[k], false) == Ok(v.value.samples.At(k))
  {
    GatherReads(lines, SampleIndices(r, n), false);
  }

  /** True when updatePlot gets past the read and then fails while drawing. */
  predicate DrawFails(smooth: Filter, lines: seq<Line>, r: Span, win: int, n: nat)
    requires KeepsLength(smooth)
  {
    SampleWindow(lines, r, n).Ok? && Plot(smooth, lines, r, win, n).Err?
  }

  /**
   * `acqtime = endtime/(number-1)` with `number = len(lines) - 1` and endtime the
   * first field of the last line: undefined for an empty file (the loop
   * variable is never bound), for an unreadable last line, and for a file of
   * one data line (division by zero).
   */
  function Acquisition(lines: seq<Line>): (r: Result<real>)
    ensures r.Ok? <==> |lines| > 0 && LeadingTime(lines[|lines|-1]).Some? && |lines| != 2
    ensures |lines| == 0 ==> r == Err(Unbound)
    ensures |lines| > 0 && LeadingTime(lines[|lines|-1]).None? ==> r == Err(MalformedLine(|lines| - 1))
    ensures |lines| == 2 && LeadingTime(lines[1]).Some? ==> r == Err(DivisionByZero)
    ensures r.Ok? ==> r.value * (|lines| - 2) as real == LeadingTime(lines[|lines|-1]).value
  {
    if |lines| == 0 then Err(Unbound)
    else
      match LeadingTime(lines[|lines|-1])
      case None => Err(MalformedLine(|lines| - 1))
      case Some(endtime) =>
        var number := |lines| - 1;
        if number - 1 == 0 then Err(DivisionByZero)
        else Ok(endtime / (number - 1) as real)
  }

  /**
   * The zoom handler's map from a time range to an index range:
   * `[int(lo/acqtime), min(int(hi/acqtime), len(line_offset)-1)]`.
   */
  function ZoomRange(lo: real, hi: real, acqtime: real, lastIndex: int): (r: Result<Span>)
    ensures r.Ok? <==> acqtime != 0.0
    ensures r.Err? ==> r.error == DivisionByZero
    ensures r.Ok? ==> r.value.last <= lastIndex
    ensures r.Ok? && Trunc(hi / acqtime) <= lastIndex ==> r.value.last == Trunc(hi / acqtime)
    ensures r.Ok? && Trunc(hi / acqtime) > lastIndex ==> r.value.last == lastIndex
    ensures r.Ok? ==> r.value.first == Trunc(lo / acqtime)
  {
    if acqtime == 0.0 then Err(DivisionByZero)
    else Ok(Span(Trunc(lo / acqtime), Min(Trunc(hi / acqtime), lastIndex)))
  }

  /** Dragging the view to later times never moves the start index back. */
  lemma ZoomStartMonotone(lo: real, lo': real, hi: real, hi': real, acqtime: real, lastIndex: int)
    requires acqtime > 0.0 && lo <= lo' && hi <= hi'
    ensures ZoomRange(lo, hi, acqtime, lastIndex).value.first <= ZoomRange(lo', hi', acqtime, lastIndex).value.first
    ensures ZoomRange(lo, hi, acqtime, lastIndex).value.last <= ZoomRange(lo', hi', acqtime, lastIndex).value.last
  {
    assert lo / acqtime <= lo' / acqtime;
    assert hi / acqtime <= hi' / acqtime;
    TruncMonotone(lo / acqtime, lo' / acqtime);
    TruncMonotone(hi / acqtime, hi' / acqtime);
  }

  /**
   * Nothing clamps the start at zero: a view dragged to before time zero
   * yields a start index of at most 0, and a negative one once it reaches a
   * whole acquisition interval before zero; the sampler's first read then
   * takes a line counted from the end of the file.
   */
  lemma ZoomNoClampAtZero(lo: real, hi: real, acqtime: real, lastIndex: int, n: nat)
    requires lo < 0.0 < acqtime
    ensures ZoomRange(lo, hi, acqtime, lastIndex).value.first <= 0
    ensures lo <= -acqtime ==> ZoomRange(lo, hi, acqtime, lastIndex).value.first < 0
    ensures n >= 1 ==> SampleIndices(ZoomRange(lo, hi, acqtime, lastIndex).value, n)[0]
                       == ZoomRange(lo, hi, acqtime, lastIndex).value.first
  {
    assert lo / acqtime < 0.0;
    if lo <= -acqtime {
      assert lo / acqtime <= -1.0;
    }
  }

  /** The step from ts[j] to ts[j+1] exceeds acq. */
  predicate GapAfter(ts: seq<real>, j: nat, acq: real)
    requires j + 1 < |ts|
  {
    ts[j+1] - ts[j] > acq
  }

  /**
   * `np.sum((xtime[1:]-xtime[:-1]) > acqtime)`: how many consecutive pairs are
   * further apart than acqtime.
   */
  function CountGaps(ts: seq<real>, acq: real): (c: nat)
    ensures c <= if |ts| == 0 then 0 else |ts| - 1
    decreases |ts|
  {
    if |ts| < 2 then 0
    else
      var n := |ts| - 1;
      CountGaps(ts[..n], acq) + if GapAfter(ts, n - 1, acq) then 1 else 0
  }

  /** The positions j where the step from ts[j] to ts[j+1] exceeds acq. */
  function GapIndices(ts: seq<real>, acq: real): set<nat>
  {
    set j: nat | j < |ts| - 1 && GapAfter(ts, j, acq)
  }

  /** The event count is the number of gaps, each pair counted once. */
  lemma {:induction false} CountGapsIsCardinality(ts: seq<real>, acq: real)
    ensures CountGaps(ts, acq) == |GapIndices(ts, acq)|
    decreases |ts|
  {
    if |ts| < 2 {
      assert GapIndices(ts, acq) == {};
    } else {
      var n := |ts| - 1;
      var pre := ts[..n];
      CountGapsIsCardinality(pre, acq);
      var all, before := GapIndices(ts, acq), GapIndices(pre, acq);
      forall j: nat | j < n - 1 ensures GapAfter(ts, j, acq) == GapAfter(pre, j, acq) {
      }
      assert n - 1 !in before;
      if GapAfter(ts, n - 1, acq) {
        assert all == before + {n - 1};
      } else {
        assert all == before;
      }
    }
  }

  /**
   * The samples the Isolate action keeps: every data line read, the
   * fluorescence smoothed with the odd window, and the three channels
   * restricted to the indices whose smoothed value exceeds the threshold.
   */
  function Selection(smooth: Filter, lines: seq<Line>, win: int, threshold: int): (r: Result<Channels>)
    requires KeepsLength(smooth)
    ensures r.Ok? <==>
      Gather(lines, Body(lines), false).Ok? && 1 < OddWindow(win) <= Gather(lines, Body(lines), false).value.Size()
    ensures r.Ok? ==> r.value.Aligned()
  {
    match Gather(lines, Body(lines), false)
    case Err(e) => Err(e)
    case Ok(ch) =>
      match SavGol(smooth, ch.fluo, OddWindow(win))
      case Err(e) => Err(e)
      case Ok(filtered) => Ok(Restrict(ch, Above(filtered, threshold)))
  }

  /**
   * What nextWindow reports: the selection is smoothed again for display,
   * which needs the window to fit the selection, and the event count needs
   * acqtime to have been set by a load.
   */
  function IsolationOf(smooth: Filter, lines: seq<Line>, win: int, threshold: int, acqtime: Option<real>): (r: Result<Isolation>)
    requires KeepsLength(smooth)
    ensures var sel := Selection(smooth, lines, win, threshold);
      r.Ok? <==> sel.Ok? && 1 < OddWindow(win) <= sel.value.Size() && acqtime.Some?
    ensures var sel := Selection(smooth, lines, win, threshold);
      sel.Ok? && 1 < OddWindow(win) <= sel.value.Size() && acqtime.None? ==> r == Err(Unset)
    ensures r.Ok? ==>
      r.value.points == Selection(smooth, lines, win, threshold).value.Size() &&
      r.value.events < r.value.points
  {
    match Selection(smooth, lines, win, threshold)
    case Err(e) => Err(e)
    case Ok(sel) =>
      if !(1 < OddWindow(win) <= |sel.fluo|) then Err(WindowRejected)
      else if acqtime.None? then Err(Unset)
      else Ok(Isolation(|sel.time|, CountGaps(sel.time, acqtime.value)))
  }

  /**
   * When Isolate succeeds it reports one point per data line whose smoothed
   * fluorescence is strictly above the threshold, each of those points really
   * is above it, and the events are exactly the gaps between consecutive
   * points, at most one fewer than the points.
   */
  lemma IsolationOutcome(smooth: Filter, lines: seq<Line>, win: int, threshold: int, acqtime: Option<real>)
    requires KeepsLength(smooth)
    ensures var r := IsolationOf(smooth, lines, win, threshold, acqtime);
      var body := Gather(lines, Body(lines), false);
      r.Ok? ==>
        body.Ok? && acqtime.Some? &&
        var filtered := smooth(body.value.fluo, OddWindow(win));
        var block := Above(filtered, threshold);
        var sel := Restrict(body.value, block);
        r.value.points == |block| &&
        (forall j | 0 <= j < |block| :: filtered[block[j]] > threshold as real) &&
        (forall i | 0 <= i < |filtered| && filtered[i] > threshold as real :: i in block) &&
        r.value.events == |GapIndices(sel.time, acqtime.value)| &&
        r.value.events < r.value.points
  {
    var r := IsolationOf(smooth, lines, win, threshold, acqtime);
    if r.Ok? {
      var body := Gather(lines, Body(lines), false);
      var filtered := smooth(body.value.fluo, OddWindow(win));
      var block := Above(filtered, threshold);
      var sel := Restrict(body.value, block);
      assert Selection(smooth, lines, win, threshold) == Ok(sel);
      assert r.value == Isolation(|sel.time|, CountGaps(sel.time, acqtime.value));
      assert |sel.time| == |block|;
      CountGapsIsCardinality(sel.time, acqtime.value);
    }
  }

  /**
   * The sampling loop of updatePlot (zoomer.py lines 190-196): for each
   * position, seek to the table entry at int(position), read that line and
   * parse it. `offsets` is the offset table, one entry per line.
   */
  method ReadSamples(lines: seq<Line>, offsets: seq<int>, r: Span, n: nat) returns (res: Result<Channels>)
    requires |offsets| == |lines|
    ensures res == SampleWindow(lines, r, n)
  {
    var positions := Linspace(r.first, r.last, n);
    ghost var idx := SampleIndices(r, n);
    var time: seq<real> := [];
    var fluo: seq<real> := [];
    var pmt: seq<real> := [];
    var k := 0;
    while k < n
      invariant 0 <= k <= n
      invariant Gather(lines, idx[..k], false) == Ok(Channels(time, fluo, pmt))
    {
      GatherExtend(lines, idx, k, false);
      var position := Trunc(positions[k]);
      match PyIndex(|offsets|, position)
      case None =>
        GatherStopsAtError(lines, idx, k + 1, false);
        return Err(IndexOutOfRange);
      case Some(j) =>
        // f.seek(offsets[j]); f.readline() yields line j
        match ParseRecord(lines[j])
        case None =>
          GatherStopsAtError(lines, idx, k + 1, false);
          return Err(MalformedLine(j));
        case Some(rec) =>
          time := time + [rec.time];
          fluo := fluo + [rec.fluo];
          pmt := pmt + [rec.pmt];
      k := k + 1;
    }
    assert idx[..k] == idx;
    res := Ok(Channels(time, fluo, pmt));
  }

  /**
   * The main window. `file` stands for the file `self.filename` names, as
   * its list of lines; a seek to `lineOffset[k]` followed by readline() is
   * the read of line k (see LineIndex.ZoomerOffsetDrift for when the table
   * and the byte positions agree). The attributes a handler can read before
   * any load (file, number, acqtime) are Options, None until assigned; the
   * offset table, the range and the Isolate lists start with placeholder
   * values that no path reads before a load or an Isolate assigns them.
   */
  class MyApp {
    var file: Option<seq<Line>>
    var lineOffset: seq<int>
    var number: Option<int>
    var acqtime: Option<real>
    var range: Span
    var sliderMax: int
    var xtime: seq<real>
    var xfluo: seq<real>
    var xpmt: seq<real>
    var loaded: bool
    var finished: bool

    /**
     * The offset table always describes the current file, and the fields a
     * load assigns exist whenever the window counts as loaded.
     */
    predicate Valid()
      reads this
    {
      (file.Some? ==> lineOffset == LineOffsets(file.value, 1)) &&
      (number.Some? ==> file.Some?) &&
      (acqtime.Some? ==> file.Some?) &&
      (loaded ==> number.Some? && acqtime.Some?)
    }

    constructor()
      ensures Valid()
      ensures file == None && number == None && acqtime == None
      ensures !loaded && !finished
      ensures sliderMax == 100000
    {
      file := None;
      lineOffset := [];
      number := None;
      acqtime := None;
      range := Span(0, 0);
      sliderMax := 100000;
      xtime, xfluo, xpmt := [], [], [];
      loaded := false;
      finished := false;
    }

    /**
     * updatePlot: nothing unless loaded; otherwise read the n sampled lines and
     * draw them with both channels smoothed. `loaded` is cleared just before
     * drawing and set again after it, so a window the smoother rejects leaves
     * it cleared.
     */
    method UpdatePlot(smooth: Filter, win: int, n: nat) returns (r: Refresh<View>)
      requires KeepsLength(smooth) && Valid()
      modifies this`loaded
      ensures Valid()
      ensures !old(loaded) ==> r == Skipped && !loaded
      ensures old(loaded) ==> r == Shown(Plot(smooth, file.value, range, win, n))
      ensures old(loaded) ==> loaded == !DrawFails(smooth, file.value, range, win, n)
    {
      if !loaded {
        return Skipped;
      }
      var lines := file.value;
      var w := OddWindow(win);
      var samples := ReadSamples(lines, lineOffset, range, n);
      if samples.Err? {
        return Failed(samples.error);
      }
      var time, fluo, pmt := samples.value.time, samples.value.fluo, samples.value.pmt;
      loaded := false;
      var fit := SavGol(smooth, fluo, w);
      if fit.Err? {
        return Failed(fit.error);
      }
      var fitPmt := smooth(pmt, w);
      loaded := true;
      r := Drawn(View(Channels(time, fluo, pmt), fit.value, fitPmt));
    }

    /**
     * openFileDialog's assignment of the chosen file, then loadAndPlotData:
     * build the offset table, derive number and acqtime from it and from the
     * last line, reset the range to every data line, bound the slider, and
     * redraw (the first redraw only when already loaded, the second always).
     * On an exception the fields assigned before it keep their new values.
     */
    method LoadAndPlotData(lines: seq<Line>, smooth: Filter, win: int, n: nat) returns (r: Refresh<View>)
      requires KeepsLength(smooth) && Valid()
      modifies this`file, this`lineOffset, this`number, this`acqtime, this`range, this`sliderMax, this`loaded
      ensures Valid()
      ensures file == Some(lines) && lineOffset == LineOffsets(lines, 1)
      ensures number == if |lines| > 0 && LeadingTime(lines[|lines|-1]).Some? then Some(|lines| - 1) else old(number)
      ensures Acquisition(lines).Err? ==>
        r == Failed(Acquisition(lines).error) && acqtime == old(acqtime) && range == old(range) &&
        sliderMax == old(sliderMax) && loaded == old(loaded)
      ensures Acquisition(lines).Ok? ==>
        acqtime == Some(Acquisition(lines).value) && range == Span(1, |lines| - 1) &&
        sliderMax == |lines| - 1 - n - 1 &&
        r == Shown(Plot(smooth, lines, range, win, n)) &&
        loaded == !DrawFails(smooth, lines, range, win, n)
    {
      IndexFile(lines);
      if |lines| == 0 {
        return Failed(Unbound);
      }
      var last := LeadingTime(lines[|lines| - 1]);
      if last.None? {
        return Failed(MalformedLine(|lines| - 1));
      }
      var endtime := last.value;
      var count := |lineOffset| - 1;
      number := Some(count);
      if count - 1 == 0 {
        return Failed(DivisionByZero);
      }
      r := Present(smooth, win, n, endtime / (count - 1) as real);
    }

    /**
     * The last part of loadAndPlotData: store acqtime, reset the range to
     * every data line, bound the slider, then redraw twice, the second time
     * as loaded. What is drawn is the view of the whole range whether or not
     * the window was loaded before.
     */
    method Present(smooth: Filter, win: int, n: nat, acq: real) returns (r: Refresh<View>)
      requires KeepsLength(smooth) && Valid() && file.Some? && number.Some?
      modifies this`acqtime, this`range, this`sliderMax, this`loaded
      ensures Valid()
      ensures acqtime == Some(acq) && range == Span(1, number.value) && sliderMax == number.value - n - 1
      ensures r == Shown(Plot(smooth, file.value, range, win, n))
      ensures loaded == !DrawFails(smooth, file.value, range, win, n)
    {
      acqtime := Some(acq);
      range := Span(1, number.value);
      sliderMax := number.value - n - 1;
      var first := UpdatePlot(smooth, win, n);
      if first.Failed? {
        return first;
      }
      loaded := true;
      r := UpdatePlot(smooth, win, n);
    }

    /**
     * The first part of loadAndPlotData: take the chosen file and record,
     * before each line, the counter that advances by len(line) + 1.
     */
    method IndexFile(lines: seq<Line>)
      requires Valid()
      modifies this`file, this`lineOffset
      ensures Valid()
      ensures file == Some(lines) && lineOffset == LineOffsets(lines, 1)
    {
      file := Some(lines);
      lineOffset := [];
      var offset := 0;
      for k := 0 to |lines|
        invariant lineOffset == LineOffsets(lines[..k], 1)
        invariant offset == Extent(lines[..k], 1)
        invariant file == Some(lines)
      {
        OffsetsExtend(lines, k, 1);
        lineOffset := lineOffset + [offset];
        offset := offset + |lines[k].raw| + 1;
      }
      assert lines[..|lines|] == lines;
    }

    /** prevWindow (Reset): the range goes back to every data line, then a redraw. */
    method PrevWindow(smooth: Filter, win: int, n: nat) returns (r: Refresh<View>)
      requires KeepsLength(smooth) && Valid()
      modifies this`range, this`loaded
      ensures Valid()
      ensures old(number).None? ==> r == Failed(Unset) && range == old(range) && loaded == old(loaded)
      ensures number.Some? ==> range == Span(1, number.value)
      ensures number.Some? && !old(loaded) ==> r == Skipped && !loaded
      ensures number.Some? && old(loaded) ==>
        r == Shown(Plot(smooth, file.value, range, win, n)) &&
        loaded == !DrawFails(smooth, file.value, range, win, n)
    {
      if number.None? {
        return Failed(Unset);
      }
      range := Span(1, number.value);
      r := UpdatePlot(smooth, win, n);
    }

    /** The index range a zoom to [lo, hi] maps to, or the exception computing it raises. */
    function ZoomTarget(lo: real, hi: real): (r: Result<Span>)
      reads this
      ensures acqtime.None? ==> r == Err(Unset)
      ensures acqtime == Some(0.0) ==> r == Err(DivisionByZero)
      ensures r.Ok? ==>
        acqtime.Some? && r.value.first == Trunc(lo / acqtime.value) && r.value.last < |lineOffset|
    {
      if acqtime.None? then Err(Unset) else ZoomRange(lo, hi, acqtime.value, |lineOffset| - 1)
    }

    /**
     * on_xrange_changed: when loaded, map the new time range to an index range
     * and redraw, with `loaded` cleared while the range is computed; when not
     * loaded but an Isolate has run, only map the range; otherwise nothing.
     */
    method OnXRangeChanged(smooth: Filter, win: int, n: nat, lo: real, hi: real) returns (r: Refresh<View>)
      requires KeepsLength(smooth) && Valid()
      modifies this`range, this`loaded
      ensures Valid()
      ensures !old(loaded) ==> !loaded
      ensures !old(loaded) && !finished ==> r == Skipped && range == old(range)
      ensures !old(loaded) && finished ==>
        (ZoomTarget(lo, hi).Err? ==> r == Failed(ZoomTarget(lo, hi).error) && range == old(range)) &&
        (ZoomTarget(lo, hi).Ok? ==> r == Skipped && range == ZoomTarget(lo, hi).value)
      ensures old(loaded) && ZoomTarget(lo, hi).Err? ==>
        r == Failed(ZoomTarget(lo, hi).error) && range == old(range) && !loaded
      ensures old(loaded) && ZoomTarget(lo, hi).Ok? ==>
        range == ZoomTarget(lo, hi).value &&
        r == Shown(Plot(smooth, file.value, range, win, n)) &&
        loaded == !DrawFails(smooth, file.value, range, win, n)
    {
      if !loaded {
        if finished {
          var z := ZoomTarget(lo, hi);
          if z.Err? {
            return Failed(z.error);
          }
          range := z.value;
        }
        return Skipped;
      }
      loaded := false;
      var z := ZoomTarget(lo, hi);
      if z.Err? {
        return Failed(z.error);
      }
      range := z.value;
      loaded := true;
      r := UpdatePlot(smooth, win, n);
    }

    /**
     * nextWindow (Isolate): read every data line, smooth the fluorescence,
     * keep the three channels where it exceeds the threshold, smooth the kept
     * fluorescence for display and report the points and events. It leaves
     * the window unloaded and marked finished.
     */
    method NextWindow(smooth: Filter, win: int, threshold: int) returns (r: Result<Isolation>)
      requires KeepsLength(smooth) && Valid()
      modifies this`loaded, this`finished, this`xtime, this`xfluo, this`xpmt
      ensures Valid() && !loaded && finished
      ensures file.None? ==> r == Err(Unset)
      ensures file.Some? ==> r == IsolationOf(smooth, file.value, win, threshold, acqtime)
      ensures file.Some? && Selection(smooth, file.value, win, threshold).Ok? ==>
        var sel := Selection(smooth, file.value, win, threshold).value;
        xtime == sel.time && xfluo == sel.fluo && xpmt == sel.pmt
      ensures file.None? || Selection(smooth, file.value, win, threshold).Err? ==>
        xtime == old(xtime) && xfluo == old(xfluo) && xpmt == old(xpmt)
    {
      var w := OddWindow(win);
      loaded := false;
      finished := true;
      if file.None? {
        return Err(Unset);
      }
      var body := ReadBody(file.value, false);
      if body.Err? {
        return Err(body.error);
      }
      var ch := body.value;
      var filtered := SavGol(smooth, ch.fluo, w);
      if filtered.Err? {
        return Err(filtered.error);
      }
      var block := Above(filtered.value, threshold);
      xtime := Pick(ch.time, block);
      xfluo := Pick(ch.fluo, block);
      xpmt := Pick(ch.pmt, block);
      assert Selection(smooth, file.value, win, threshold) == Ok(Channels(xtime, xfluo, xpmt));
      var fit := SavGol(smooth, xfluo, w);
      if fit.Err? {
        return Err(fit.error);
      }
      if acqtime.None? {
        return Err(Unset);
      }
      r := Ok(Isolation(|xtime|, CountGaps(xtime, acqtime.value)));
    }
  }
}
