/**
 * viewer.py: a trace pager that shows N consecutive records starting at the
 * slider's position, either from an in-memory copy of the whole trace
 * (bruteforce) or by seeking through a table of line offsets.
 */
module Viewer {
  import opened Trace
  import opened LineIndex

  /** The figures a load derives: start and end time in seconds, and the count it divides by. */
  datatype Timing = Timing(start: real, end: real, total: nat)

  /** `acqtime = (endtime-starttime)/(total)`. */
  function AcqTime(t: Timing): (a: real)
    requires t.total > 0
    ensures a * t.total as real == t.end - t.start
    ensures t.start <= t.end ==> a >= 0.0
  {
    (t.end - t.start) / t.total as real
  }

  function MaxInt(a: int, b: int): int { if a >= b then a else b }

  /** Where a Python slice bound i lands in a list of length len. */
  function SliceBound(len: nat, i: int): (b: nat)
    ensures b <= len
    ensures 0 <= i <= len ==> b == i
  {
    if i < 0 then MaxInt(0, i + len) else Min(i, len)
  }

  /** `xs[lo:hi]` with Python's clamping of both bounds. */
  function Slice(xs: seq<real>, lo: int, hi: int): (s: seq<real>)
    ensures |s| == MaxInt(0, SliceBound(|xs|, hi) - SliceBound(|xs|, lo))
    ensures forall k | 0 <= k < |s| :: s[k] == xs[SliceBound(|xs|, lo) + k]
  {
    var a := SliceBound(|xs|, lo);
    var b := SliceBound(|xs|, hi);
    if a <= b then xs[a..b] else []
  }

  /** `data[position:position+N]` on the three columns alike. */
  function BruteWindow(data: Channels, p: int, n: nat): (w: Channels)
    requires data.Aligned()
    ensures w.Aligned()
  {
    Channels(Slice(data.time, p, p + n), Slice(data.fluo, p, p + n), Slice(data.pmt, p, p + n))
  }

  /**
   * From a position within the data the in-memory window holds min(N, rows -
   * position) rows, and they are the rows from that position on.
   */
  lemma BruteWindowSize(data: Channels, p: int, n: nat)
    requires data.Aligned() && 0 <= p <= data.Size()
    ensures BruteWindow(data, p, n).Size() == Min(n, data.Size() - p)
  {
  }

  lemma BruteWindowAt(data: Channels, p: int, n: nat, k: nat)
    requires data.Aligned() && 0 <= p && k < Min(n, data.Size() - p)
    ensures BruteWindow(data, p, n).Size() > k && BruteWindow(data, p, n).At(k) == data.At(p + k)
  {
  }

  /**
   * The lines the indexed reader parses after seeking to the start of line j
   * and discarding that line: the following ones, until its counter reaches
   * N or the file ends.
   */
  function ReadLines(j: nat, n: nat, total: nat): (idx: seq<int>)
    ensures |idx| == MaxInt(0, Min(n - 1, total - j - 1))
    ensures forall k | 0 <= k < |idx| :: idx[k] == j + 1 + k
  {
    Indices(j + 1, MaxInt(0, Min(n - 1, total - j - 1)))
  }

  /**
   * What the indexed reader yields from slider position p: the table entry
   * at p must exist, and then the records of the lines after that one.
   */
  function IndexedWindow(lines: seq<Line>, offsets: seq<int>, p: int, n: nat): (r: Result<Channels>)
    ensures PyIndex(|offsets|, p).None? ==> r == Err(IndexOutOfRange)
    ensures r.Ok? ==> r.value.Aligned() && r.value.Size() <= MaxInt(0, n - 1)
  {
    match PyIndex(|offsets|, p)
    case None => Err(IndexOutOfRange)
    case Some(j) => Gather(lines, ReadLines(j, n, |lines|), true)
  }

  /**
   * Reading the same file both ways: from a position inside the data the
   * indexed reader yields exactly the in-memory window of N - 1 rows, that is
   * the N-row window without its last row.
   */
  lemma IndexedIsBrutePrefix(lines: seq<Line>, p: nat, n: nat)
    requires Gather(lines, Body(lines), true).Ok?
    requires p < |lines| && n >= 1
    ensures var data := Gather(lines, Body(lines), true).value;
      Gather(lines, ReadLines(p, n, |lines|), true) == Ok(BruteWindow(data, p, n - 1))
  {
    var data := Gather(lines, Body(lines), true).value;
    var body := Body(lines);
    assert data.Size() == |body| == |lines| - 1;
    forall m | 0 <= m < data.Size() ensures SampleAt(lines, m + 1, true) == Ok(data.At(m)) {
      BruteRow(lines, data, m);
    }
    WindowOfRows(lines, data, p, n);
  }

  /** The indexed reader's lines, read from rows known record by record, give the in-memory window. */
  lemma WindowOfRows(lines: seq<Line>, data: Channels, p: nat, n: nat)
    requires data.Aligned() && data.Size() == |lines| - 1
    requires p < |lines| && n >= 1
    requires forall m | 0 <= m < data.Size() :: SampleAt(lines, m + 1, true) == Ok(data.At(m))
    ensures Gather(lines, ReadLines(p, n, |lines|), true) == Ok(BruteWindow(data, p, n - 1))
  {
    var idx := ReadLines(p, n, |lines|);
    var w := BruteWindow(data, p, n - 1);
    BruteWindowSize(data, p, n - 1);
    assert |idx| == w.Size();
    forall k | 0 <= k < |idx| ensures SampleAt(lines, idx[k], true) == Ok(w.At(k)) {
      WindowRow(lines, data, p, n, k);
    }
    GatherUnique(lines, idx, true, w);
  }

  lemma WindowRow(lines: seq<Line>, data: Channels, p: nat, n: nat, k: nat)
    requires data.Aligned() && data.Size() == |lines| - 1
    requires p < |lines| && n >= 1 && k < |ReadLines(p, n, |lines|)|
    requires forall m | 0 <= m < data.Size() :: SampleAt(lines, m + 1, true) == Ok(data.At(m))
    ensures k < BruteWindow(data, p, n - 1).Size()
    ensures SampleAt(lines, ReadLines(p, n, |lines|)[k], true) == Ok(BruteWindow(data, p, n - 1).At(k))
  {
    var m := p + k;
    assert ReadLines(p, n, |lines|)[k] == m + 1 && m < data.Size();
    BruteWindowAt(data, p, n - 1, k);
    assert SampleAt(lines, m + 1, true) == Ok(data.At(m));
  }

  /** Row m of the in-memory copy is the record of line m + 1. */
  lemma BruteRow(lines: seq<Line>, data: Channels, m: nat)
    requires Gather(lines, Body(lines), true) == Ok(data) && m < data.Size()
    ensures SampleAt(lines, m + 1, true) == Ok(data.At(m))
  {
    GatherReads(lines, Body(lines), true);
    assert Body(lines)[m] == m + 1;
  }

  /**
   * The in-memory load's figures (viewer.py lines 116-119): the first and last
   * stored times, already divided by 1000, and the number of data rows; an
   * empty trace fails at `self.data[-1,0]`.
   */
  function BruteTiming(data: Channels): (r: Result<Timing>)
    ensures r.Ok? <==> |data.time| > 0
    ensures r.Ok? ==>
      r.value.total == |data.time| && r.value.start == data.time[0] && r.value.end == data.time[|data.time| - 1]
  {
    if |data.time| == 0 then Err(IndexOutOfRange)
    else Ok(Timing(data.time[0], data.time[|data.time| - 1], |data.time|))
  }

  /**
   * The indexed load's figures (viewer.py lines 121-131): starttime from the
   * second line, parsed as it is passed; endtime from the last line; both in
   * seconds; and the number of lines including the header. With fewer than
   * two lines a name is read unbound, unless the last line fails to parse first.
   */
  function IndexedTiming(lines: seq<Line>): (r: Result<Timing>)
    ensures r.Ok? <==>
      |lines| >= 2 && LeadingTime(lines[1]).Some? && LeadingTime(lines[|lines| - 1]).Some?
    ensures |lines| >= 2 && LeadingTime(lines[1]).None? ==> r == Err(MalformedLine(1))
    ensures |lines| >= 2 && LeadingTime(lines[1]).Some? && LeadingTime(lines[|lines| - 1]).None? ==>
      r == Err(MalformedLine(|lines| - 1))
    ensures |lines| == 0 ==> r == Err(Unbound)
    ensures |lines| == 1 ==> r == Err(if LeadingTime(lines[0]).None? then MalformedLine(0) else Unbound)
    ensures r.Ok? ==>
      r.value.total == |lines| &&
      r.value.start * 1000.0 == LeadingTime(lines[1]).value &&
      r.value.end * 1000.0 == LeadingTime(lines[|lines| - 1]).value
  {
    if |lines| >= 2 && LeadingTime(lines[1]).None? then Err(MalformedLine(1))
    else if |lines| == 0 then Err(Unbound)
    else if LeadingTime(lines[|lines| - 1]).None? then Err(MalformedLine(|lines| - 1))
    else if |lines| == 1 then Err(Unbound)
    else Ok(Timing(LeadingTime(lines[1]).value / 1000.0, LeadingTime(lines[|lines| - 1]).value / 1000.0, |lines|))
  }

  /** The load's figures on either path; total is never zero when it succeeds. */
  function Loading(lines: seq<Line>, bruteforce: bool): (r: Result<Timing>)
    ensures r.Ok? ==> r.value.total > 0
  {
    if bruteforce then
      match Gather(lines, Body(lines), true)
      case Err(e) => Err(e)
      case Ok(data) => BruteTiming(data)
    else IndexedTiming(lines)
  }

  /**
   * On a file whose data lines all parse, the two load paths agree on the
   * start and end time, but the indexed path counts the header among the
   * lines it divides by, one more than the in-memory path's rows. On a file
   * of fewer than two lines both fail.
   */
  lemma LoadPathsAgree(lines: seq<Line>)
    requires Gather(lines, Body(lines), true).Ok?
    ensures |lines| < 2 ==> Loading(lines, true).Err? && Loading(lines, false).Err?
    ensures |lines| >= 2 ==>
      Loading(lines, true).Ok? && Loading(lines, false).Ok? &&
      Loading(lines, true).value.start == Loading(lines, false).value.start &&
      Loading(lines, true).value.end == Loading(lines, false).value.end &&
      Loading(lines, false).value.total == Loading(lines, true).value.total + 1
  {
    if |lines| >= 2 {
      var data := Gather(lines, Body(lines), true).value;
      var last := |lines| - 1;
      BruteLoading(lines, data);
      BruteRow(lines, data, 0);
      BruteRow(lines, data, last - 1);
      ParsedLineHasTime(lines, 1, data.At(0));
      ParsedLineHasTime(lines, last, data.At(last - 1));
      IndexedLoading(lines, LeadingTime(lines[1]).value, LeadingTime(lines[last]).value);
    }
  }

  lemma BruteLoading(lines: seq<Line>, data: Channels)
    requires Gather(lines, Body(lines), true) == Ok(data) && |lines| >= 2
    ensures Loading(lines, true) == Ok(Timing(data.time[0], data.time[|lines| - 2], |lines| - 1))
  {
    var body := Body(lines);
    assert |body| == |lines| - 1;
    assert data.Size() == |body|;
    assert Loading(lines, true) == BruteTiming(data);
  }

  lemma IndexedLoading(lines: seq<Line>, start: real, end: real)
    requires |lines| >= 2
    requires LeadingTime(lines[1]) == Some(start) && LeadingTime(lines[|lines| - 1]) == Some(end)
    ensures Loading(lines, false) == Ok(Timing(start / 1000.0, end / 1000.0, |lines|))
  {
  }

  /** A line the in-memory load parses also yields its time to the indexed load's two-field parse. */
  lemma ParsedLineHasTime(lines: seq<Line>, k: nat, rec: Record)
    requires k < |lines| && SampleAt(lines, k, true) == Ok(rec)
    ensures LeadingTime(lines[k]).Some? && LeadingTime(lines[k]).value / 1000.0 == rec.time
  {
  }

  /** prevWindow: step back N, or to 0 when that would not stay above 0. */
  function PrevValue(v: int, n: nat): (w: int)
    ensures 0 <= w
    ensures v >= 0 ==> w <= v
    ensures v > n ==> w == v - n
    ensures v <= n ==> w == 0
  {
    if v > n then v - n else 0
  }

  /** nextWindow: step forward N. */
  function NextValue(v: int, n: nat): (w: int)
    ensures w - v == n
  {
    v + n
  }

  /** Paging forward then back returns to the same non-negative position. */
  lemma PrevAfterNext(v: int, n: nat)
    requires v >= 0
    ensures PrevValue(NextValue(v, n), n) == v
  {
  }

  /**
   * The read loop of updatePlot on the indexed path (viewer.py lines
   * 163-175), after the seek to the start of line j: discard that line, then
   * count each further line and stop once the count reaches n.
   */
  method ReadFollowing(lines: seq<Line>, j: nat, n: nat) returns (res: Result<Channels>)
    requires j < |lines|
    ensures res == Gather(lines, ReadLines(j, n, |lines|), true)
  {
    ghost var want := ReadLines(j, n, |lines|);
    var time: seq<real> := [];
    var fluo: seq<real> := [];
    var pmt: seq<real> := [];
    var i := 0;
    var k := j + 1;
    while k < |lines|
      invariant j + 1 <= k <= |lines| && i == k - j - 1
      invariant i == 0 || i < n
      invariant i <= |want|
      invariant want == ReadLines(j, n, |lines|)
      invariant Gather(lines, want[..i], true) == Ok(Channels(time, fluo, pmt))
    {
      i := i + 1;
      if i >= n {
        break;
      }
      ReadLinesCovers(j, n, |lines|, i);
      ReadOne(lines, want, i - 1, Channels(time, fluo, pmt));
      match SampleAt(lines, k, true)
      case Err(e) =>
        return Err(e);
      case Ok(rec) =>
        time := time + [rec.time];
        fluo := fluo + [rec.fluo];
        pmt := pmt + [rec.pmt];
      k := k + 1;
    }
    ReadLinesEnd(j, n, |lines|, i, k == |lines|);
    assert want[..k - j - 1] == want;
    res := Ok(Channels(time, fluo, pmt));
  }

  /** Line idx[i] read after a successful read of idx[..i]: the read grows by its record, or stops with its error. */
  lemma ReadOne(lines: seq<Line>, idx: seq<int>, i: nat, ch: Channels)
    requires i < |idx|
    requires Gather(lines, idx[..i], true) == Ok(ch)
    ensures SampleAt(lines, idx[i], true).Err? ==> Gather(lines, idx, true) == Err(SampleAt(lines, idx[i], true).error)
    ensures SampleAt(lines, idx[i], true).Ok? ==>
      Gather(lines, idx[..i + 1], true) == Ok(ch.Append(SampleAt(lines, idx[i], true).value))
  {
    GatherExtend(lines, idx, i, true);
    if SampleAt(lines, idx[i], true).Err? {
      GatherStopsAtError(lines, idx, i + 1, true);
    }
  }

  /** While the counter is below n and lines remain, the reader has not yet read all it will. */
  lemma ReadLinesCovers(j: nat, n: nat, total: nat, i: nat)
    requires 0 < i < n && j + i < total
    ensures i <= |ReadLines(j, n, total)| && ReadLines(j, n, total)[i - 1] == j + i
  {
  }

  /** When the loop ends, the lines read are all the lines the reader was going to read. */
  lemma ReadLinesEnd(j: nat, n: nat, total: nat, i: nat, atEnd: bool)
    requires j + 1 <= total
    requires atEnd ==> i == total - j - 1 && (i == 0 || i < n)
    requires !atEnd ==> i >= 1 && i >= n && (i - 1 == 0 || i - 1 < n) && j + i < total
    ensures atEnd ==> |ReadLines(j, n, total)| == i
    ensures !atEnd ==> |ReadLines(j, n, total)| == i - 1
  {
  }

  /**
   * The main window. `file` stands for the file `self.filename` names, as
   * its list of lines; `slider` is the slider's value. Entry j of the offset
   * table is where line j starts in the decoded text (see
   * LineIndex.ViewerOffsetIsLineStart); a seek to `lineOffset[j]` is modelled
   * as landing at the start of line j, which agrees with the file's byte
   * positions only when every character is one byte and every line ends in a
   * single-byte newline (LF). The attributes a handler can read before any
   * load (file, data, number, acqtime) are Options, None until assigned; the
   * offset table starts empty, and no path reads it before a load assigns
   * it. The source always constructs the window with
   * `bruteforce` False; the model takes it as a parameter.
   */
  class MyApp {
    var bruteforce: bool
    var file: Option<seq<Line>>
    var data: Option<Channels>
    var lineOffset: seq<int>
    var acqtime: Option<real>
    var number: Option<int>
    var slider: int
    var sliderMax: int
    var loaded: bool

    /**
     * The offset table covers a prefix of the current file's lines, the
     * in-memory copy is three aligned columns, the slider is not negative, and
     * a loaded window has what its redraw reads.
     */
    predicate Valid()
      reads this
    {
      (file.Some? ==>
        |lineOffset| <= |file.value| && lineOffset == LineOffsets(file.value[..|lineOffset|], 0)) &&
      (data.Some? ==> data.value.Aligned()) &&
      (number.Some? ==> file.Some?) &&
      (loaded ==> file.Some? && number.Some? && (bruteforce ==> data.Some?)) &&
      slider >= 0
    }

    constructor(bruteforce: bool)
      ensures Valid()
      ensures this.bruteforce == bruteforce
      ensures file == None && data == None && acqtime == None && number == None
      ensures !loaded && slider == 0 && sliderMax == 100000
    {
      this.bruteforce := bruteforce;
      file := None;
      data := None;
      lineOffset := [];
      acqtime := None;
      number := None;
      slider := 0;
      sliderMax := 100000;
      loaded := false;
    }

    /** What updatePlot shows for N points at the slider's position. */
    function Displayed(n: nat): Result<Channels>
      reads this`bruteforce, this`file, this`data, this`lineOffset, this`slider
      requires file.Some? && (bruteforce ==> data.Some? && data.value.Aligned())
    {
      if bruteforce then
        // an empty copy is numpy's 1-D empty array, which a 2-D slice cannot index
        if data.value.Size() == 0 then Err(IndexOutOfRange)
        else Ok(BruteWindow(data.value, slider, n))
      else IndexedWindow(file.value, lineOffset, slider, n)
    }

    /**
     * updatePlot: nothing unless loaded; otherwise the in-memory slice, or the
     * indexed read after seeking to the slider's entry of the offset table.
     */
    method UpdatePlot(n: nat) returns (r: Refresh<Channels>)
      requires Valid()
      ensures !loaded ==> r == Skipped
      ensures loaded ==> r == Shown(Displayed(n))
      ensures loaded && bruteforce ==> (r.Drawn? <==> data.value.Size() > 0)
      ensures loaded && bruteforce && data.value.Size() == 0 ==> r == Failed(IndexOutOfRange)
      ensures loaded && bruteforce && 0 < data.value.Size() && slider <= data.value.Size() ==>
        r.view.Size() == Min(n, data.value.Size() - slider)
      ensures loaded && !bruteforce && r.Drawn? ==> r.view.Size() <= MaxInt(0, n - 1)
    {
      if !loaded {
        return Skipped;
      }
      if bruteforce {
        var d := data.value;
        if d.Size() == 0 {
          return Failed(IndexOutOfRange);
        }
        var position := slider;
        if position <= d.Size() {
          BruteWindowSize(d, position, n);
        }
        return Drawn(BruteWindow(d, position, n));
      }
      match PyIndex(|lineOffset|, slider)
      case None =>
        return Failed(IndexOutOfRange);
      case Some(j) =>
        // f.seek(self.line_offset[j]) lands at the start of line j
        var w := ReadFollowing(file.value, j, n);
        r := Shown(w);
    }

    /**
     * openFileDialog's assignment of the chosen file, then loadAndPlotData:
     * load on the configured path, derive acqtime and number, bound the
     * slider, and redraw (which draws only when already loaded) before
     * marking the window loaded. On an exception the fields assigned before
     * it keep their new values.
     */
    method LoadAndPlotData(lines: seq<Line>, n: nat) returns (r: Refresh<Channels>)
      requires Valid()
      modifies this`file, this`lineOffset, this`data, this`acqtime, this`number, this`sliderMax, this`loaded
      ensures Valid()
      ensures file == Some(lines)
      ensures bruteforce ==> lineOffset == []
      ensures !bruteforce ==>
        lineOffset == if |lines| >= 2 && LeadingTime(lines[1]).None? then [0] else LineOffsets(lines, 0)
      ensures bruteforce && Gather(lines, Body(lines), true).Ok? ==>
        data == Some(Gather(lines, Body(lines), true).value)
      ensures !bruteforce || Gather(lines, Body(lines), true).Err? ==> data == old(data)
      ensures Loading(lines, bruteforce).Err? ==>
        r == Failed(Loading(lines, bruteforce).error) && acqtime == old(acqtime) &&
        number == old(number) && sliderMax == old(sliderMax) && loaded == old(loaded)
      ensures Loading(lines, bruteforce).Ok? ==>
        var t := Loading(lines, bruteforce).value;
        acqtime == Some(AcqTime(t)) && number == Some(t.total) && sliderMax == t.total - n - 1 &&
        (!old(loaded) ==> r == Skipped) &&
        (old(loaded) ==> r == Shown(Displayed(n))) &&
        loaded
    {
      var t := Load(lines);
      if t.Err? {
        return Failed(t.error);
      }
      r := Present(t.value, n);
    }

    /**
     * The second half of loadAndPlotData once the load succeeded: acqtime,
     * number and the slider's maximum from the load's figures, then the
     * redraw, then the window counts as loaded.
     */
    method Present(timing: Timing, n: nat) returns (r: Refresh<Channels>)
      requires Valid() && file.Some? && (bruteforce ==> data.Some?) && timing.total > 0
      modifies this`acqtime, this`number, this`sliderMax, this`loaded
      ensures Valid() && loaded
      ensures acqtime == Some(AcqTime(timing)) && number == Some(timing.total)
      ensures sliderMax == timing.total - n - 1
      ensures !old(loaded) ==> r == Skipped
      ensures old(loaded) ==> r == Shown(Displayed(n))
    {
      acqtime := Some(AcqTime(timing));
      number := Some(timing.total);
      sliderMax := timing.total - n - 1;
      r := UpdatePlot(n);
      if r.Failed? {
        return r;
      }
      loaded := true;
    }

    /** The first half of loadAndPlotData: assign the file and load it on the configured path. */
    method Load(lines: seq<Line>) returns (t: Result<Timing>)
      requires Valid()
      modifies this`file, this`lineOffset, this`data
      ensures Valid()
      ensures t == Loading(lines, bruteforce)
      ensures file == Some(lines)
      ensures bruteforce ==> lineOffset == []
      ensures !bruteforce ==>
        lineOffset == if |lines| >= 2 && LeadingTime(lines[1]).None? then [0] else LineOffsets(lines, 0)
      ensures bruteforce && Gather(lines, Body(lines), true).Ok? ==>
        data == Some(Gather(lines, Body(lines), true).value)
      ensures !bruteforce || Gather(lines, Body(lines), true).Err? ==> data == old(data)
    {
      file := Some(lines);
      lineOffset := [];
      if bruteforce {
        t := BruteLoad(lines);
      } else {
        t := IndexedLoad(lines);
      }
    }

    /**
     * The in-memory branch of loadAndPlotData (viewer.py lines 111-119): skip
     * the header, store every data line with its time divided by 1000, then
     * take the first and last stored times.
     */
    method BruteLoad(lines: seq<Line>) returns (t: Result<Timing>)
      requires Valid() && file == Some(lines) && lineOffset == []
      modifies this`data
      ensures Valid()
      ensures t == Loading(lines, true)
      ensures Gather(lines, Body(lines), true).Ok? ==> data == Some(Gather(lines, Body(lines), true).value)
      ensures Gather(lines, Body(lines), true).Err? ==> data == old(data)
    {
      var body := ReadBody(lines, true);
      if body.Err? {
        return Err(body.error);
      }
      data := Some(body.value);
      var rows := body.value.time;
      if |rows| == 0 {
        return Err(IndexOutOfRange);
      }
      t := Ok(Timing(rows[0], rows[|rows| - 1], |rows|));
    }

    /**
     * The indexed branch of loadAndPlotData (viewer.py lines 121-131): one
     * table entry per line, starttime parsed when the second line is reached,
     * endtime from the last line.
     */
    method IndexedLoad(lines: seq<Line>) returns (t: Result<Timing>)
      requires Valid() && file == Some(lines) && lineOffset == []
      modifies this`lineOffset
      ensures Valid()
      ensures t == Loading(lines, false)
      ensures lineOffset == if |lines| >= 2 && LeadingTime(lines[1]).None? then [0] else LineOffsets(lines, 0)
    {
      var offset := 0;
      var total := 0;
      var starttime: Option<real> := None;
      for k := 0 to |lines|
        invariant total == k
        invariant Valid()
        invariant lineOffset == LineOffsets(lines[..k], 0)
        invariant offset == Extent(lines[..k], 0)
        invariant k < 2 ==> starttime == None
        invariant k >= 2 ==> starttime == LeadingTime(lines[1]) && starttime.Some?
      {
        if total == 1 {
          match LeadingTime(lines[k])
          case None =>
            return Err(MalformedLine(k));
          case Some(s) =>
            starttime := Some(s);
        }
        total := total + 1;
        OffsetsExtend(lines, k, 0);
        lineOffset := lineOffset + [offset];
        offset := offset + |lines[k].raw|;
      }
      assert lines[..|lines|] == lines;
      if |lines| == 0 {
        return Err(Unbound);
      }
      var last := LeadingTime(lines[|lines| - 1]);
      if last.None? {
        return Err(MalformedLine(|lines| - 1));
      }
      var endtime := last.value / 1000.0;
      if starttime.None? {
        return Err(Unbound);
      }
      var start := starttime.value / 1000.0;
      t := Ok(Timing(start, endtime, total));
    }

    /** sizeChanged: when loaded, the slider's maximum follows the new N, then a redraw. */
    method SizeChanged(n: nat) returns (r: Refresh<Channels>)
      requires Valid()
      modifies this`sliderMax
      ensures Valid()
      ensures !loaded ==> r == Skipped && sliderMax == old(sliderMax)
      ensures loaded ==> sliderMax == number.value - n - 1 && r == Shown(Displayed(n))
    {
      if !loaded {
        return Skipped;
      }
      sliderMax := number.value - n - 1;
      r := UpdatePlot(n);
    }

    /**
     * prevWindow: the slider steps back N, or to 0. The slider's valueChanged
     * signal redraws only when the value actually changes.
     */
    method PrevWindow(n: nat) returns (r: Refresh<Channels>)
      requires Valid()
      modifies this`slider
      ensures Valid()
      ensures slider == PrevValue(old(slider), n) && slider <= old(slider)
      ensures slider == old(slider) ==> r == Skipped
      ensures slider != old(slider) ==> r == if loaded then Shown(Displayed(n)) else Skipped
    {
      var v := PrevValue(slider, n);
      if v == slider {
        return Skipped;
      }
      slider := v;
      r := UpdatePlot(n);
    }

    /** nextWindow: the slider steps forward N; a change redraws. */
    method NextWindow(n: nat) returns (r: Refresh<Channels>)
      requires Valid()
      modifies this`slider
      ensures Valid()
      ensures slider == NextValue(old(slider), n) && slider >= old(slider)
      ensures slider == old(slider) ==> r == Skipped
      ensures slider != old(slider) ==> r == if loaded then Shown(Displayed(n)) else Skipped
    {
      var v := NextValue(slider, n);
      if v == slider {
        return Skipped;
      }
      slider := v;
      r := UpdatePlot(n);
    }
  }
}
