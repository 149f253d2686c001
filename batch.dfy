/**
 * The batch peak extractor, batch.py: read the whole trace, smooth the
 * fluorescence, keep the samples above the threshold, cut them into peaks with
 * a gap test, reduce each peak to (duration, intensity) and write the table.
 */
module Batch {
  import opened Trace
  import opened Smoothing
  import opened Threshold

  /** One selected sample as the segmentation loop stores it: [tmptime, tmpfluo]. */
  datatype Sample = Sample(time: real, fluo: real)

  type Peak = seq<Sample>

  /** The segmentation loop's state: the list `peaks`, the run buffer `tmp` and `prevtime`. */
  datatype Scan = Scan(peaks: seq<Peak>, run: Peak, prev: real)

  datatype Feature = Feature(duration: real, intensity: real)

  /** A line of the output table; a row's text is `f'{duration},{intensity}'`. */
  datatype TableLine = Heading(text: string) | Row(duration: real, intensity: real)

  const Header: string := "Duration [us],Intensity []a.u]"

  /** What calculate writes (the table) and what it returns (duration, intensity). */
  datatype Report = Report(table: seq<TableLine>, duration: seq<real>, intensity: seq<real>)

  function Zip(time: seq<real>, fluo: seq<real>): seq<Sample>
    requires |time| == |fluo|
  {
    seq(|time|, i requires 0 <= i < |time| => Sample(time[i], fluo[i]))
  }

  /**
   * The gap test `int((tmptime - prevtime)*1000) > acqtimeus`: for a
   * non-negative tolerance, the step in milliseconds reaches the next whole
   * number past it.
   */
  function IsGap(time: real, prev: real, acq: int): (gap: bool)
    ensures acq >= 0 ==> (gap <==> (time - prev) * 1000.0 >= (acq + 1) as real)
  {
    Trunc((time - prev) * 1000.0) > acq
  }

  /**
   * One pass of the segmentation loop. At a gap the run becomes a peak only if
   * it is longer than win, and is otherwise kept as it is; the gap sample
   * itself is never appended. Any other sample is appended to the run.
   */
  function Step(s: Scan, x: Sample, acq: int, win: int): (t: Scan)
    ensures t.prev == x.time
    ensures t.peaks == s.peaks || (|s.run| > win && t.peaks == s.peaks + [s.run])
    ensures t.peaks != s.peaks <==> IsGap(x.time, s.prev, acq) && |s.run| > win
  {
    if IsGap(x.time, s.prev, acq) then
      if |s.run| > win then Scan(s.peaks + [s.run], [], x.time)
      else Scan(s.peaks, s.run, x.time)
    else Scan(s.peaks, s.run + [x], x.time)
  }

  /**
   * The loop's state after it has consumed xs, starting from peaks = [],
   * tmp = [] and prevtime = 0: every emitted peak is longer than win.
   */
  function Fold(xs: seq<Sample>, acq: int, win: int): (s: Scan)
    ensures forall p | p in s.peaks :: |p| > win
    ensures s.prev == if xs == [] then 0.0 else xs[|xs|-1].time
    decreases |xs|
  {
    if xs == [] then Scan([], [], 0.0)
    else Step(Fold(xs[..|xs|-1], acq, win), xs[|xs|-1], acq, win)
  }

  /** The samples the loop visits: `range(1, len(time))` skips the first. */
  function Tail(xs: seq<Sample>): seq<Sample>
  {
    if xs == [] then [] else xs[1..]
  }

  /**
   * The peaks of the selected samples: what the loop has emitted when it ends.
   * The run still open at that point is not emitted.
   */
  function Segment(xs: seq<Sample>, acq: int, win: int): (peaks: seq<Peak>)
    ensures forall p | p in peaks :: |p| > win
  {
    Fold(Tail(xs), acq, win).peaks
  }

  /** The time the loop compares xs[i] against: the previous visited sample's, or 0 for the first. */
  function PrevTime(xs: seq<Sample>, i: nat): real
    requires i <= |xs|
  {
    if i == 0 then 0.0 else xs[i-1].time
  }

  /** The i-th visited sample is a gap: too far from the sample visited before it. */
  predicate GapAt(xs: seq<Sample>, i: nat, acq: int)
    requires i < |xs|
  {
    IsGap(xs[i].time, PrevTime(xs, i), acq)
  }

  /** The visited samples that are within tolerance of their predecessor, in visiting order. */
  function Kept(xs: seq<Sample>, acq: int): seq<Sample>
    decreases |xs|
  {
    if xs == [] then []
    else
      var n := |xs| - 1;
      Kept(xs[..n], acq) + if GapAt(xs, n, acq) then [] else [xs[n]]
  }

  function Flatten(ps: seq<Peak>): seq<Sample>
    decreases |ps|
  {
    if ps == [] then [] else Flatten(ps[..|ps|-1]) + ps[|ps|-1]
  }

  /**
   * One pass loses and duplicates no sample: the emitted peaks followed by the
   * run gain exactly the new sample, or nothing when it is a gap sample.
   */
  lemma StepConservesSamples(s: Scan, x: Sample, acq: int, win: int)
    ensures var t := Step(s, x, acq, win);
      Flatten(t.peaks) + t.run == Flatten(s.peaks) + s.run + if IsGap(x.time, s.prev, acq) then [] else [x]
  {
    if IsGap(x.time, s.prev, acq) && |s.run| > win {
      var ps := s.peaks + [s.run];
      assert ps[..|ps|-1] == s.peaks;
    }
  }

  /**
   * The emitted peaks followed by the open run are exactly the within-tolerance
   * samples, in order: a gap sample is never appended to any run, every other
   * sample is appended exactly once, and nothing is reordered.
   */
  lemma {:induction false} FoldPartitionsKept(xs: seq<Sample>, acq: int, win: int)
    ensures Flatten(Fold(xs, acq, win).peaks) + Fold(xs, acq, win).run == Kept(xs, acq)
    decreases |xs|
  {
    if xs != [] {
      var n := |xs| - 1;
      FoldPartitionsKept(xs[..n], acq, win);
      var s := Fold(xs[..n], acq, win);
      assert s.prev == PrevTime(xs, n);
      StepConservesSamples(s, xs[n], acq, win);
    }
  }

  /** On the selected samples: the emitted peaks are a prefix of the within-tolerance samples after the first. */
  lemma SegmentIsPrefixOfKept(xs: seq<Sample>, acq: int, win: int)
    ensures var flat := Flatten(Segment(xs, acq, win));
      |flat| <= |Kept(Tail(xs), acq)| && flat == Kept(Tail(xs), acq)[..|flat|]
  {
    FoldPartitionsKept(Tail(xs), acq, win);
  }

  /** Every visited sample is within tolerance of its predecessor. */
  predicate NoGaps(xs: seq<Sample>, acq: int)
  {
    forall i | 0 <= i < |xs| :: !GapAt(xs, i, acq)
  }

  lemma NoGapsPrefix(xs: seq<Sample>, acq: int)
    requires xs != [] && NoGaps(xs, acq)
    ensures NoGaps(xs[..|xs|-1], acq) && !GapAt(xs, |xs|-1, acq)
  {
    var front := xs[..|xs|-1];
    forall i | 0 <= i < |front| ensures GapAt(front, i, acq) == GapAt(xs, i, acq) {
      assert front[i] == xs[i] && PrevTime(front, i) == PrevTime(xs, i);
    }
  }

  /** When no visited sample is a gap, the single run keeps every sample and is never emitted. */
  lemma {:induction false} NoGapNoPeak(xs: seq<Sample>, acq: int, win: int)
    requires NoGaps(xs, acq)
    ensures Fold(xs, acq, win).peaks == [] && Fold(xs, acq, win).run == xs
    decreases |xs|
  {
    if xs != [] {
      var n := |xs| - 1;
      var front := xs[..n];
      NoGapsPrefix(xs, acq);
      NoGapNoPeak(front, acq, win);
      var s := Fold(front, acq, win);
      assert s.prev == PrevTime(xs, n);
      assert Fold(xs, acq, win) == Scan([], front + [xs[n]], xs[n].time);
      assert front + [xs[n]] == xs;
    }
  }

  /** The first selected sample is never examined: replacing it changes no peak. */
  lemma SegmentIgnoresFirst(xs: seq<Sample>, y: Sample, acq: int, win: int)
    requires xs != []
    ensures Segment([y] + xs[1..], acq, win) == Segment(xs, acq, win)
  {
    assert ([y] + xs[1..])[1..] == xs[1..];
  }

  /**
   * A run of at most win samples survives a gap: the gap sample is dropped,
   * no peak is emitted, and the next sample within tolerance of the gap
   * sample extends the same run. One peak can therefore straddle a gap.
   */
  lemma ShortRunBridgesGap(xs: seq<Sample>, x: Sample, y: Sample, acq: int, win: int)
    requires |Fold(xs, acq, win).run| <= win
    requires IsGap(x.time, Fold(xs, acq, win).prev, acq) && !IsGap(y.time, x.time, acq)
    ensures Fold(xs + [x, y], acq, win).peaks == Fold(xs, acq, win).peaks
    ensures Fold(xs + [x, y], acq, win).run == Fold(xs, acq, win).run + [y]
  {
    var s := Fold(xs, acq, win);
    assert (xs + [x, y])[..|xs| + 1] == xs + [x];
    assert (xs + [x])[..|xs|] == xs;
    assert Fold(xs + [x], acq, win) == Scan(s.peaks, s.run, x.time);
  }

  /**
   * An instance with win = 2: the run [1] meets the gap before 5, is kept,
   * grows to [1, 6, 7] and is emitted at the gap before 20 as one peak
   * straddling the first gap. The last sample, 20, is a gap sample and is dropped.
   */
  lemma PeakStraddlesGap()
    ensures Segment([Sample(0.0, 5.0), Sample(1.0, 5.0), Sample(5.0, 5.0), Sample(6.0, 5.0),
                     Sample(7.0, 5.0), Sample(20.0, 5.0)], 1000, 2)
         == [[Sample(1.0, 5.0), Sample(6.0, 5.0), Sample(7.0, 5.0)]]
  {
    var xs := [Sample(0.0, 5.0), Sample(1.0, 5.0), Sample(5.0, 5.0), Sample(6.0, 5.0),
               Sample(7.0, 5.0), Sample(20.0, 5.0)];
    var t := Tail(xs);
    assert t == [Sample(1.0, 5.0), Sample(5.0, 5.0), Sample(6.0, 5.0), Sample(7.0, 5.0), Sample(20.0, 5.0)];
    assert Trunc(1000.0) == 1000 && Trunc(4000.0) == 4000 && Trunc(13000.0) == 13000;
    assert t[..0] == [];
    assert t[..1][..0] == t[..0] && t[..2][..1] == t[..1] && t[..3][..2] == t[..2];
    assert t[..4][..3] == t[..3] && t[..5][..4] == t[..4];
    assert Fold(t[..1], 1000, 2) == Scan([], [Sample(1.0, 5.0)], 1.0);
    assert Fold(t[..2], 1000, 2) == Scan([], [Sample(1.0, 5.0)], 5.0);
    assert Fold(t[..3], 1000, 2) == Scan([], [Sample(1.0, 5.0), Sample(6.0, 5.0)], 6.0);
    assert Fold(t[..4], 1000, 2) == Scan([], [Sample(1.0, 5.0), Sample(6.0, 5.0), Sample(7.0, 5.0)], 7.0);
    assert t[..5] == t;
  }

  function Fluos(p: Peak): seq<real>
  {
    seq(|p|, i requires 0 <= i < |p| => p[i].fluo)
  }

  /** np.max: an entry no other entry exceeds. */
  function Max(xs: seq<real>): (m: real)
    requires xs != []
    ensures m in xs
    ensures forall i | 0 <= i < |xs| :: xs[i] <= m
    decreases |xs|
  {
    if |xs| == 1 then xs[0]
    else
      var m := Max(xs[..|xs|-1]);
      if xs[|xs|-1] > m then xs[|xs|-1] else m
  }

  /**
   * The features of one peak (batch.py lines 51-52): intensity is the largest
   * value of the peak's own fluorescence, smoothed afresh, and duration is its
   * last time minus its first. Smoothing fails unless 1 < win <= |p|.
   */
  function FeatureOf(smooth: Filter, p: Peak, win: int): (r: Result<Feature>)
    requires KeepsLength(smooth)
    ensures r.Ok? <==> 1 < win <= |p|
    ensures r.Ok? ==> r.value.duration == p[|p|-1].time - p[0].time
    ensures r.Ok? ==> var sm := smooth(Fluos(p), win);
      r.value.intensity in sm && forall i | 0 <= i < |sm| :: sm[i] <= r.value.intensity
  {
    match SavGol(smooth, Fluos(p), win)
    case Err(e) => Err(e)
    case Ok(sm) => Ok(Feature(p[|p|-1].time - p[0].time, Max(sm)))
  }

  /** The feature loop: one feature per peak, in peak order, or the first failure. */
  function Features(smooth: Filter, peaks: seq<Peak>, win: int): (r: Result<seq<Feature>>)
    requires KeepsLength(smooth)
    ensures r.Ok? <==> forall i | 0 <= i < |peaks| :: FeatureOf(smooth, peaks[i], win).Ok?
    ensures r.Ok? ==> |r.value| == |peaks|
    ensures r.Ok? ==> forall i | 0 <= i < |peaks| :: FeatureOf(smooth, peaks[i], win) == Ok(r.value[i])
    decreases |peaks|
  {
    if peaks == [] then Ok([])
    else
      var n := |peaks| - 1;
      match Features(smooth, peaks[..n], win)
      case Err(e) => Err(e)
      case Ok(fs) =>
        match FeatureOf(smooth, peaks[n], win)
        case Err(e) => Err(e)
        case Ok(f) => Ok(fs + [f])
  }

  /** Peaks longer than a window the smoother accepts never make feature extraction fail. */
  lemma FeaturesNeverFail(smooth: Filter, peaks: seq<Peak>, win: int)
    requires KeepsLength(smooth)
    requires 1 < win
    requires forall p | p in peaks :: |p| > win
    ensures Features(smooth, peaks, win).Ok?
  {
    forall i | 0 <= i < |peaks| ensures FeatureOf(smooth, peaks[i], win).Ok? {
      assert peaks[i] in peaks;
    }
  }

  /** The feature loop, batch.py lines 48-52. */
  method ExtractFeatures(smooth: Filter, peaks: seq<Peak>, win: int) returns (r: Result<seq<Feature>>)
    requires KeepsLength(smooth)
    ensures r == Features(smooth, peaks, win)
  {
    var fs: seq<Feature> := [];
    for i := 0 to |peaks|
      invariant Features(smooth, peaks[..i], win) == Ok(fs)
    {
      assert peaks[..i+1][..i] == peaks[..i];
      var f := FeatureOf(smooth, peaks[i], win);
      if f.Err? {
        assert Features(smooth, peaks[..i+1], win) == Err(f.error);
        FeaturesStopAtError(smooth, peaks, i + 1, win);
        assert peaks[..|peaks|] == peaks;
        return Err(f.error);
      }
      fs := fs + [f.value];
    }
    assert peaks[..|peaks|] == peaks;
    r := Ok(fs);
  }

  /** Once the feature loop fails, later peaks do not change the failure. */
  lemma {:induction false} FeaturesStopAtError(smooth: Filter, peaks: seq<Peak>, n: nat, win: int)
    requires KeepsLength(smooth)
    requires n <= |peaks|
    requires Features(smooth, peaks[..n], win).Err?
    ensures Features(smooth, peaks, win) == Features(smooth, peaks[..n], win)
    decreases |peaks| - n
  {
    if n < |peaks| {
      var m := |peaks| - 1;
      assert peaks[..m][..n] == peaks[..n];
      FeaturesStopAtError(smooth, peaks[..m], n, win);
    } else {
      assert peaks[..n] == peaks;
    }
  }

  /** The output table: the header, then one row per feature. */
  function Table(fs: seq<Feature>): seq<TableLine>
  {
    [Heading(Header)] + seq(|fs|, i requires 0 <= i < |fs| => Row(fs[i].duration, fs[i].intensity))
  }

  /** The writing loop, batch.py lines 54-58: the header line, then `duration,intensity` per peak. */
  method WriteTable(fs: seq<Feature>) returns (out: seq<TableLine>)
    ensures |out| == |fs| + 1 && out[0] == Heading(Header)
    ensures forall i | 0 <= i < |fs| :: out[i+1] == Row(fs[i].duration, fs[i].intensity)
    ensures out == Table(fs)
  {
    out := [Heading(Header)];
    for i := 0 to |fs|
      invariant |out| == i + 1 && out[0] == Heading(Header)
      invariant forall j | 0 <= j < i :: out[j+1] == Row(fs[j].duration, fs[j].intensity)
    {
      out := out + [Row(fs[i].duration, fs[i].intensity)];
    }
  }

  /** Reading the table back: it must start with the header and hold only rows after it. */
  function ReadTable(t: seq<TableLine>): Option<seq<Feature>>
  {
    if t == [] || t[0] != Heading(Header) then None else ReadRows(t[1..])
  }

  function ReadRows(rows: seq<TableLine>): Option<seq<Feature>>
    decreases |rows|
  {
    if rows == [] then Some([])
    else
      match rows[0]
      case Heading(_) => None
      case Row(d, i) =>
        match ReadRows(rows[1..])
        case None => None
        case Some(fs) => Some([Feature(d, i)] + fs)
  }

  /** Writing the features and reading the table back gives the same (duration, intensity) pairs. */
  lemma TableRoundTrip(fs: seq<Feature>)
    ensures ReadTable(Table(fs)) == Some(fs)
  {
    RowsRoundTrip(fs);
    assert Table(fs)[1..] == seq(|fs|, i requires 0 <= i < |fs| => Row(fs[i].duration, fs[i].intensity));
  }

  lemma {:induction false} RowsRoundTrip(fs: seq<Feature>)
    ensures ReadRows(seq(|fs|, i requires 0 <= i < |fs| => Row(fs[i].duration, fs[i].intensity))) == Some(fs)
    decreases |fs|
  {
    if fs != [] {
      var rows := seq(|fs|, i requires 0 <= i < |fs| => Row(fs[i].duration, fs[i].intensity));
      var rest := fs[1..];
      RowsRoundTrip(rest);
      assert rows[1..] == seq(|rest|, i requires 0 <= i < |rest| => Row(rest[i].duration, rest[i].intensity));
      assert [fs[0]] + rest == fs;
    }
  }

  function Durations(fs: seq<Feature>): seq<real>
  {
    seq(|fs|, i requires 0 <= i < |fs| => fs[i].duration)
  }

  function Intensities(fs: seq<Feature>): seq<real>
  {
    seq(|fs|, i requires 0 <= i < |fs| => fs[i].intensity)
  }

  /** acqtimeus: the first sampling interval of the whole trace, in microseconds, truncated. */
  function AcqTimeUs(ch: Channels): (us: int)
    requires |ch.time| >= 2
    ensures var d := (ch.time[1] - ch.time[0]) * 1000.0;
      d >= 0.0 ==> 0 <= us && us as real <= d < us as real + 1.0
    ensures ch.time[1] < ch.time[0] ==> us <= 0
  {
    Trunc((ch.time[1] - ch.time[0]) * 1000.0)
  }

  /** The (time, fluo) pairs of the samples whose smoothed fluorescence is above the threshold. */
  function Selected(ch: Channels, filtered: seq<real>, threshold: int): (sel: seq<Sample>)
    requires ch.Aligned() && |filtered| == ch.Size()
    ensures |sel| == |Above(filtered, threshold)|
    ensures forall j | 0 <= j < |sel| ::
      var i := Above(filtered, threshold)[j];
      filtered[i] > threshold as real && sel[j] == Sample(ch.time[i], ch.fluo[i])
  {
    var sel := Restrict(ch, Above(filtered, threshold));
    Zip(sel.time, sel.fluo)
  }

  /** The peaks of a parsed trace whose fluorescence smoothed to `filtered`. */
  function PeaksOf(ch: Channels, filtered: seq<real>, threshold: int, win: int): (peaks: seq<Peak>)
    requires ch.Aligned() && |filtered| == ch.Size() >= 2
    ensures forall p | p in peaks :: |p| > win
    ensures var kept := Kept(Tail(Selected(ch, filtered, threshold)), AcqTimeUs(ch));
      |Flatten(peaks)| <= |kept| && Flatten(peaks) == kept[..|Flatten(peaks)|]
  {
    var xs := Selected(ch, filtered, threshold);
    SegmentIsPrefixOfKept(xs, AcqTimeUs(ch), win);
    Segment(xs, AcqTimeUs(ch), win)
  }

  /** calculate(filename, outfile, threshold, win) as a function of the file's lines. */
  function Calculation(smooth: Filter, lines: seq<Line>, threshold: int, win: int): (r: Result<Report>)
    requires KeepsLength(smooth)
    ensures var body := Gather(lines, Body(lines), false);
      r.Ok? <==> body.Ok? && 1 < win <= body.value.Size()
    ensures var body := Gather(lines, Body(lines), false);
      r.Err? ==> r.error == if body.Err? then body.error else WindowRejected
  {
    match Gather(lines, Body(lines), false)
    case Err(e) => Err(e)
    case Ok(ch) =>
      match SavGol(smooth, ch.fluo, win)
      case Err(e) => Err(e)
      case Ok(filtered) =>
        var peaks := PeaksOf(ch, filtered, threshold, win);
        FeaturesNeverFail(smooth, peaks, win);
        match Features(smooth, peaks, win)
        case Err(e) => Err(e)
        case Ok(fs) => Ok(Report(Table(fs), Durations(fs), Intensities(fs)))
  }

  /**
   * The report written for peaks that are all longer than a window the
   * smoother accepts: the header and exactly one row per peak, each peak's
   * duration its last time minus its first.
   */
  lemma ReportOfPeaks(smooth: Filter, peaks: seq<Peak>, win: int)
    requires KeepsLength(smooth)
    requires 1 < win && forall p | p in peaks :: |p| > win
    ensures Features(smooth, peaks, win).Ok?
    ensures var fs := Features(smooth, peaks, win).value;
      var t := Table(fs);
      |t| == |peaks| + 1 && t[0] == Heading(Header) &&
      |Durations(fs)| == |peaks| == |Intensities(fs)| &&
      forall i | 0 <= i < |peaks| ::
        Durations(fs)[i] == peaks[i][|peaks[i]|-1].time - peaks[i][0].time &&
        t[i+1] == Row(Durations(fs)[i], Intensities(fs)[i])
  {
    FeaturesNeverFail(smooth, peaks, win);
    var fs := Features(smooth, peaks, win).value;
    var t := Table(fs);
    assert |fs| == |peaks|;
    forall i | 0 <= i < |peaks|
      ensures Durations(fs)[i] == peaks[i][|peaks[i]|-1].time - peaks[i][0].time
      ensures t[i+1] == Row(Durations(fs)[i], Intensities(fs)[i])
    {
      ReportRow(smooth, peaks[i], win, fs, i);
    }
  }

  lemma ReportRow(smooth: Filter, p: Peak, win: int, fs: seq<Feature>, i: nat)
    requires KeepsLength(smooth)
    requires i < |fs| && FeatureOf(smooth, p, win) == Ok(fs[i])
    ensures Durations(fs)[i] == p[|p|-1].time - p[0].time
    ensures Table(fs)[i+1] == Row(Durations(fs)[i], Intensities(fs)[i])
  {
    assert Table(fs)[i+1] == Row(fs[i].duration, fs[i].intensity);
  }

  /**
   * calculate fails only when a data line is malformed or the smoother rejects
   * the window; otherwise it writes the header and exactly one row per peak,
   * every peak is longer than win, each returned duration is its peak's
   * last time minus its first, and each intensity is the maximum of its
   * peak's smoothed fluorescence (the feature FeatureOf computes).
   */
  lemma CalculationOutcome(smooth: Filter, lines: seq<Line>, threshold: int, win: int)
    requires KeepsLength(smooth)
    ensures var r := Calculation(smooth, lines, threshold, win);
      var body := Gather(lines, Body(lines), false);
      (r.Ok? <==> body.Ok? && 1 < win <= body.value.Size()) &&
      (body.Ok? && 1 < win <= body.value.Size() ==>
        var peaks := PeaksOf(body.value, SavGol(smooth, body.value.fluo, win).value, threshold, win);
        |r.value.table| == |peaks| + 1 && r.value.table[0] == Heading(Header) &&
        |r.value.duration| == |peaks| == |r.value.intensity| &&
        forall i | 0 <= i < |peaks| ::
          |peaks[i]| > win &&
          r.value.duration[i] == peaks[i][|peaks[i]|-1].time - peaks[i][0].time &&
          FeatureOf(smooth, peaks[i], win) == Ok(Feature(r.value.duration[i], r.value.intensity[i])) &&
          r.value.table[i+1] == Row(r.value.duration[i], r.value.intensity[i]))
  {
    var body := Gather(lines, Body(lines), false);
    if body.Ok? && 1 < win <= body.value.Size() {
      var ch := body.value;
      var filtered := SavGol(smooth, ch.fluo, win).value;
      var peaks := PeaksOf(ch, filtered, threshold, win);
      ReportOfPeaks(smooth, peaks, win);
      var fs := Features(smooth, peaks, win).value;
      assert Calculation(smooth, lines, threshold, win) == Ok(Report(Table(fs), Durations(fs), Intensities(fs)));
    }
  }

  /** The segmentation loop, batch.py lines 33-45. */
  method SegmentPeaks(time: seq<real>, fluo: seq<real>, acq: int, win: int) returns (peaks: seq<Peak>)
    requires |time| == |fluo|
    ensures peaks == Segment(Zip(time, fluo), acq, win)
  {
    ghost var xs := Zip(time, fluo);
    peaks := [];
    var prevtime := 0.0;
    var tmp: seq<Sample> := [];
    var i := 1;
    while i < |time|
      invariant 1 <= i && i - 1 <= |Tail(xs)|
      invariant |Tail(xs)| == if |time| == 0 then 0 else |time| - 1
      invariant Scan(peaks, tmp, prevtime) == Fold(Tail(xs)[..i-1], acq, win)
    {
      assert Tail(xs)[..i][..i-1] == Tail(xs)[..i-1];
      assert Tail(xs)[i-1] == Sample(time[i], fluo[i]);
      var tmptime := time[i];
      var tmpfluo := fluo[i];
      if Trunc((tmptime - prevtime) * 1000.0) > acq {
        if |tmp| > win {
          peaks := peaks + [tmp];
          tmp := [];
        }
      } else {
        tmp := tmp + [Sample(tmptime, tmpfluo)];
      }
      prevtime := tmptime;
      i := i + 1;
    }
    assert Tail(xs)[..i-1] == Tail(xs);
  }

  /** calculate, batch.py lines 8-59: every step in source order. */
  method Calculate(smooth: Filter, lines: seq<Line>, threshold: int, win: int) returns (r: Result<Report>)
    requires KeepsLength(smooth)
    ensures r == Calculation(smooth, lines, threshold, win)
  {
    var body := ReadBody(lines, false);
    if body.Err? {
      return Err(body.error);
    }
    var ch := body.value;
    var sm := SavGol(smooth, ch.fluo, win);
    if sm.Err? {
      return Err(sm.error);
    }
    var filtered := sm.value;
    var block := Above(filtered, threshold);
    // |ch.time| >= win > 1 here, so time[1] exists
    var acqtimeus := Trunc((ch.time[1] - ch.time[0]) * 1000.0);
    var sel := Restrict(ch, block);
    var peaks := SegmentPeaks(sel.time, sel.fluo, acqtimeus, win);
    assert Zip(sel.time, sel.fluo) == Selected(ch, filtered, threshold);
    assert acqtimeus == AcqTimeUs(ch);
    assert PeaksOf(ch, filtered, threshold, win) == Segment(Selected(ch, filtered, threshold), AcqTimeUs(ch), win);
    var fs := ExtractFeatures(smooth, peaks, win);
    // every peak is longer than win > 1, so no peak makes the smoother fail
    FeaturesNeverFail(smooth, peaks, win);
    var table := WriteTable(fs.value);
    r := Ok(Report(table, Durations(fs.value), Intensities(fs.value)));
  }

  /** MainWindow.calculate: an even window is refused with a warning and nothing is computed. */
  method SubmitCalculation(smooth: Filter, lines: seq<Line>, threshold: int, window: int)
    returns (r: Option<Result<Report>>)
    requires KeepsLength(smooth)
    ensures r.None? <==> window % 2 == 0
    ensures r.Some? ==> r.value == Calculation(smooth, lines, threshold, window)
  {
    if window % 2 == 0 {
      return None;
    }
    var report := Calculate(smooth, lines, threshold, window);
    r := Some(report);
  }
}
