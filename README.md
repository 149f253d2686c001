# Z_Micro trace tools in Dafny

A model of the three Python programs in the Z_Micro trace tools. Each one reads a CSV
trace of fluorescence measurements. The first line of the file is a header. Every
later line holds `time, fluo, pmt`.

- `batch.py` (`calculate`) reads the whole trace and smooths the fluorescence. It
  keeps the samples above a threshold and cuts them into peaks with a gap test. It
  then writes one `duration,intensity` row per peak. `MainWindow.calculate` refuses
  even windows.
- `zoomer.py` (`MyApp`) indexes the file by line offsets. It then draws N samples
  spread evenly over the index range in view. It maps a zoomed time range back to
  an index range. Its Isolate action (`nextWindow`) keeps the points above a
  threshold and counts events.
- `viewer.py` (`MyApp`) pages through the trace N records at a time. It reads either
  from an in-memory copy (`bruteforce`) or by seeking through a table of line offsets.

Modules:

- `Trace`: lines, records, Python's truncating `int()` and negative indexing, and
  the sequential read that stops at the first malformed line.
- `LineIndex`: the offset tables and where they point in the file's text.
- `Smoothing`: the Savitzky-Golay call and the odd-window adjustment.
- `Threshold`: `np.where(filtered > threshold)` and fancy indexing.
- `Batch`, `Zoomer`, `Viewer`: one per program.

The two windows are classes whose fields are the attributes the Python methods
assign. The attributes a handler can read before any load are `Option`s and are
`None` until assigned; reading one then is the `Unset` error, which stands for
Python's AttributeError. The range, the offset tables and the Isolate lists
start with placeholder values that no path reads before a load or an Isolate
assigns them.

Every exception the modelled paths can raise is an `Error` value:

- a line `float()` cannot parse;
- an index out of range;
- a local that was never bound;
- division by zero;
- a window the smoother rejects;
- an attribute not yet assigned.

A handler's visible outcome is a `Refresh`: it returned early, it drew a view, or
it raised.

The file is a sequence of `Line`s. Each line carries its raw text (so `len(line)` is
its length) and the numbers `float()` reads from its comma-separated fields. A
`seek` to table entry k followed by `readline()` is modelled as reading line k.
Both tables count characters of the decoded text, because `len(line)` does, and
text-mode reading turns every line ending into a single newline character.
`LineIndex.ViewerOffsetIsLineStart` proves that viewer.py's entry k is where
line k starts in that text. This equals the byte position `f.seek` expects only
when every character is one byte and every line ends in a single LF; in a CRLF
file entry k falls k bytes short. `LineIndex.ZoomerOffsetDrift` proves that
zoomer.py's entry k runs k past line k's start in the text. So zoomer.py's table
matches the byte positions only when every character is one byte and every
line ends in CRLF.

Behaviours of the code a reader might not expect:

- The gap test compares each selected sample with the one before it, and the first
  comparison is against time 0.
- A run no longer than the window survives a gap and keeps growing
  (`Batch.ShortRunBridgesGap`, with an instance in `Batch.PeakStraddlesGap`).
- The run still open at the end is never written.
- A window of 1 is rejected by the smoother.
- The zoom map does not clamp the start index at zero (`Zoomer.ZoomNoClampAtZero`).
- The two load paths of viewer.py divide by different counts (`Viewer.LoadPathsAgree`).
- The indexed reader of viewer.py yields N - 1 records, not N
  (`Viewer.IndexedIsBrutePrefix`).

## Model

| member | source | states |
|---|---|---|
| Trace.PyIndex | zoomer.py:191 | `xs[i]` reaches an entry exactly when -len <= i < len, and then the entry i modulo len |
| Trace.ParseRecord | batch.py:15 | a line yields a record exactly when it has three fields that parse; they are time, fluo and pmt, and the time is what the two-field parse reads |
| Trace.LeadingTime | zoomer.py:126 | the two-field parse succeeds exactly when the first two fields parse, and keeps the first; its partners are the ensures of Trace.ParseRecord and Viewer.ParsedLineHasTime, which tie it to the three-field parse |
| Trace.Trunc | batch.py:39 | `int()` on a float truncates toward zero: the result is the integer part, never more than the value for positives, never less for negatives |
| Trace.TruncMonotone | zoomer.py:191 | `int()` is monotone |
| Trace.Gather | batch.py:13-18 | a successful read yields three aligned lists with one entry per line read |
| Trace.GatherReads | batch.py:14-18 | the read succeeds exactly when every visited line can be read and parsed, and entry j of the lists is the record of the j-th visited line |
| Trace.GatherFirstError | batch.py:14-15 | a failed read fails with the error of the first line that cannot be read or parsed, and every line before it parses |
| Trace.GatherExtend | batch.py:14-18 | one more line either appends its record to all three lists or ends the read with that line's error |
| Trace.GatherStopsAtError | batch.py:15 | after a failure, later lines do not change the outcome |
| Trace.GatherUnique | batch.py:14-18 | lists that hold exactly the visited lines' records are the read's result |
| Trace.ReadBody | batch.py:13-18 | the loop skips the header and returns exactly the sequential read of every data line, or its first error |
| Smoothing.SavGol | batch.py:23 | the smoother succeeds exactly when 1 < window <= the data length, and keeps the length |
| Smoothing.OddWindow | zoomer.py:182-183 | the window becomes the least odd number not below it; an odd window is unchanged |
| Smoothing.OddWindowIdempotent | zoomer.py:222-224 | adjusting an adjusted window changes nothing |
| Threshold.Above | batch.py:24 | the selection holds exactly the indices whose smoothed value is strictly above the threshold, in increasing order |
| Threshold.AboveAntitone | batch.py:24 | a higher threshold selects a subset |
| Threshold.RestrictAligned | batch.py:29-31 | the restricted channels stay aligned, one entry per selected index, entry j being the record at the j-th selected index |
| LineIndex.OffsetsExtend | zoomer.py:123-125 | each pass of the load loop appends the counter to the table and advances it by len(line) + extra |
| LineIndex.OffsetsPrefix | viewer.py:123-128 | the table built on a prefix of the file is the prefix of the table |
| LineIndex.OffsetsRecurrence | zoomer.py:122-125 | the table has one entry per line, starts at 0, and each entry is the previous one plus the previous line's len() plus extra |
| LineIndex.OffsetsStrictlyIncreasing | zoomer.py:125 | zoomer.py's table is strictly increasing |
| LineIndex.ExtentIsTextLength | viewer.py:128 | the counter is the length of the text consumed plus extra per line |
| LineIndex.TextPrefix | viewer.py:123 | the text of the first k lines is a prefix of the file's text |
| LineIndex.ViewerOffsetIsLineStart | viewer.py:162-163 | viewer.py's entry k is where line k starts in the text, so seek-then-readline yields line k |
| LineIndex.ZoomerOffsetDrift | zoomer.py:125 | zoomer.py's entry k is k past viewer.py's, that is past the start of line k |
| Batch.IsGap | batch.py:39 | for a non-negative tolerance, a step is a gap exactly when it is at least tolerance + 1 microseconds |
| Batch.Step | batch.py:39-45 | a pass sets prevtime to the visited time, and emits the run as one peak exactly when the sample is a gap and the run is longer than win; otherwise the peaks are unchanged |
| Batch.StepConservesSamples | batch.py:39-44 | a pass loses and duplicates no sample: peaks plus run gain the new sample, or nothing for a gap sample |
| Batch.Fold | batch.py:33-45 | every emitted peak is longer than win; prevtime is the last visited time, 0 before any |
| Batch.Segment | batch.py:36-45 | every peak is longer than win |
| Batch.FoldPartitionsKept | batch.py:39-44 | the emitted peaks followed by the open run are exactly the within-tolerance samples, in order |
| Batch.SegmentIsPrefixOfKept | batch.py:36-46 | the written peaks, laid end to end, are a prefix of the within-tolerance samples after the first |
| Batch.NoGapsPrefix | batch.py:39 | a gap-free sequence stays gap-free without its last sample |
| Batch.NoGapNoPeak | batch.py:39-44 | with no gap, one run keeps every sample and no peak is emitted |
| Batch.SegmentIgnoresFirst | batch.py:36 | the first selected sample never affects the peaks |
| Batch.ShortRunBridgesGap | batch.py:39-44 | any open run of at most win samples survives a gap with no peak emitted, and the next within-tolerance sample extends it |
| Batch.PeakStraddlesGap | batch.py:33-45 | an instance: one emitted peak straddles a gap |
| Batch.Max | batch.py:51 | np.max yields an entry that no entry exceeds |
| Batch.FeatureOf | batch.py:51-52 | a peak's features exist exactly when 1 < win <= its length; duration is last minus first time; intensity is the maximum of its smoothed fluorescence |
| Batch.Features | batch.py:48-52 | the feature loop succeeds exactly when every peak does, with one feature per peak in order |
| Batch.FeaturesNeverFail | batch.py:40 | peaks longer than an accepted window never make the feature loop fail |
| Batch.ExtractFeatures | batch.py:48-52 | the loop computes exactly the features, or the first failure |
| Batch.FeaturesStopAtError | batch.py:50-51 | once the feature loop fails, later peaks do not change the failure |
| Batch.WriteTable | batch.py:54-58 | the output is the header then one `duration,intensity` row per feature, in order |
| Batch.TableRoundTrip | batch.py:55-57 | reading the written table back yields the same features |
| Batch.RowsRoundTrip | batch.py:56-57 | reading the rows back yields the same features |
| Batch.AcqTimeUs | batch.py:27 | the tolerance is the first sampling interval in microseconds, truncated: non-negative for increasing times and within 1 below the interval |
| Batch.Selected | batch.py:24-31 | one selected sample per index above the threshold, in order; each is the time and fluorescence at an index whose smoothed value is above the threshold |
| Batch.PeaksOf | batch.py:24-45 | every peak of the selection is longer than win, and the peaks laid end to end are a prefix of the within-tolerance selected samples |
| Batch.Calculation | batch.py:8-59 | calculate succeeds exactly when every data line parses and 1 < win <= rows; otherwise it raises the read's error, or the smoother's |
| Batch.ReportOfPeaks | batch.py:48-58 | for peaks longer than win > 1, features exist, and the table has the header and one row per peak with duration last minus first time |
| Batch.ReportRow | batch.py:57 | row i of the table holds feature i's duration and intensity |
| Batch.CalculationOutcome | batch.py:8-59 | calculate succeeds exactly when every data line parses and 1 < win <= rows; then it writes the header and one row per peak, each peak longer than win, with duration i its peak's last minus first time and intensity i the maximum of its peak's smoothed fluorescence (FeatureOf) |
| Batch.SegmentPeaks | batch.py:33-45 | the segmentation loop yields exactly the specified peaks |
| Batch.Calculate | batch.py:8-59 | every step in source order yields exactly the specified report or error |
| Batch.SubmitCalculation | batch.py:115-127 | an even window is refused and nothing is computed; an odd one runs calculate |
| Zoomer.Linspace | zoomer.py:190 | n points from a to b: the first is a, the last is b |
| Zoomer.LinspaceOrdered | zoomer.py:190 | on an increasing range every point lies between the ends and the points never decrease |
| Zoomer.SampleIndices | zoomer.py:190-191 | N indices, the first the range's start and the last its end |
| Zoomer.SampleIndicesInRange | zoomer.py:190-191 | on a non-negative range the sampled indices lie in the range and never decrease |
| Zoomer.SampleIndicesRepeat | zoomer.py:190-191 | more points than indices in the range make some line be read twice in a row |
| Zoomer.Plot | zoomer.py:182-206 | drawing succeeds exactly when the sampled read succeeds and 1 < odd window <= N; a failure after the read is the smoother's; the view has N samples, and its two fits are the smoother applied with the odd window to the sampled fluo and pmt |
| Zoomer.PlotShowsSamples | zoomer.py:190-196 | sample k of a drawn view is the record of the k-th sampled line |
| Zoomer.Acquisition | zoomer.py:126-129 | acqtime exists exactly when the file is non-empty, its last line parses and it has more than one data line, with the exact exception otherwise; acqtime times (lines - 2) is endtime |
| Zoomer.ZoomRange | zoomer.py:168 | the map fails only on a zero acqtime; the start is int(lo/acqtime); the end is int(hi/acqtime) when that fits in the table, and the table's last index otherwise |
| Zoomer.ZoomStartMonotone | zoomer.py:168 | a later time range never maps to an earlier start or end |
| Zoomer.ZoomNoClampAtZero | zoomer.py:168-191 | a range starting before time zero yields a start of at most 0, a negative one from a whole interval before zero, and the sampler's first index is that start |
| Zoomer.CountGaps | zoomer.py:259 | at most one event fewer than points |
| Zoomer.CountGapsIsCardinality | zoomer.py:259 | the event count is the number of consecutive pairs further apart than acqtime |
| Zoomer.Selection | zoomer.py:228-246 | the Isolate selection exists exactly when every data line parses and the odd window fits the data; it is aligned |
| Zoomer.IsolationOf | zoomer.py:221-259 | Isolate succeeds exactly when the selection exists, the odd window fits it and acqtime is set; an unset acqtime raises last; points are the selection's size and events fewer |
| Zoomer.IsolationOutcome | zoomer.py:239-259 | on success, points are the samples strictly above the threshold (both directions), and events are the gaps between them, fewer than the points |
| Zoomer.ReadSamples | zoomer.py:186-197 | the sampling loop yields exactly the sequential read of the sampled lines |
| Zoomer.MyApp.constructor | zoomer.py:32-36 | a new window is neither loaded nor finished and has no file, number or acqtime |
| Zoomer.MyApp.UpdatePlot | zoomer.py:178-208 | skipped unless loaded; otherwise shows Plot, and `loaded` ends false exactly when drawing fails after the read |
| Zoomer.MyApp.LoadAndPlotData | zoomer.py:118-149 | the offset table is rebuilt; number, acqtime, range and slider follow Acquisition; the view shown is Plot of the whole range; an exception leaves later fields unchanged |
| Zoomer.MyApp.IndexFile | zoomer.py:120-125 | the table holds the counter before each line |
| Zoomer.MyApp.Present | zoomer.py:129-149 | acqtime, range and slider are set and both redraws together show Plot of the whole range |
| Zoomer.MyApp.PrevWindow | zoomer.py:215-217 | the range resets to every data line, then a redraw; an unset number raises first |
| Zoomer.MyApp.ZoomTarget | zoomer.py:163-168 | an unset acqtime raises AttributeError and a zero one ZeroDivisionError; a mapped range starts at int(lo/acqtime) and ends inside the table |
| Zoomer.MyApp.OnXRangeChanged | zoomer.py:158-170 | when loaded: map the range and redraw; when not loaded but finished: map only; otherwise nothing |
| Zoomer.MyApp.NextWindow | zoomer.py:221-259 | leaves the window unloaded and finished; the report is IsolationOf, and the kept lists are the selection |
| Viewer.SliceBound | viewer.py:157 | a Python slice bound lands inside the list, and unchanged when already inside |
| Viewer.Slice | viewer.py:157 | a Python slice holds the entries from the clamped start to the clamped end, in order |
| Viewer.BruteWindow | viewer.py:157-159 | the three sliced columns stay aligned |
| Viewer.BruteWindowSize | viewer.py:157-159 | from a position inside the data the slice holds min(N, rows - position) rows |
| Viewer.BruteWindowAt | viewer.py:157-159 | row k of the slice is row position + k of the data |
| Viewer.ReadLines | viewer.py:163-171 | after the seek the reader parses the following lines until its counter reaches N or the file ends |
| Viewer.IndexedWindow | viewer.py:161-175 | a missing table entry raises IndexError; a successful read has at most N - 1 rows |
| Viewer.IndexedIsBrutePrefix | viewer.py:156-175 | from a position inside the data, the indexed reader yields exactly the in-memory window of N - 1 rows |
| Viewer.WindowOfRows | viewer.py:157-175 | the same, from the rows' records |
| Viewer.WindowRow | viewer.py:157-172 | one row of that correspondence |
| Viewer.BruteRow | viewer.py:112-115 | row m of the in-memory copy is the record of line m + 1 |
| Viewer.BruteTiming | viewer.py:116-119 | the in-memory figures exist exactly when there is a row, and are the first and last stored times and the row count |
| Viewer.IndexedTiming | viewer.py:121-131 | the indexed figures exist exactly when there are at least two lines and the second and last lines parse; an unparsable second line, an unparsable last line, an empty file and a one-line file each raise their exception; the figures are the two times over 1000 and the line count |
| Viewer.AcqTime | viewer.py:133 | acqtime times the count is the span from start to end time, never negative for increasing times |
| Viewer.Loading | viewer.py:110-133 | a successful load never divides by zero |
| Viewer.LoadPathsAgree | viewer.py:110-133 | both paths agree on start and end time but the indexed one counts one more line; both fail on fewer than two lines |
| Viewer.BruteLoading | viewer.py:116-119 | the in-memory figures of a parsed file |
| Viewer.IndexedLoading | viewer.py:124-131 | the indexed figures of a file whose second and last lines parse |
| Viewer.ParsedLineHasTime | viewer.py:114-129 | a line the in-memory load parses also yields its time to the two-field parse |
| Viewer.PrevValue | viewer.py:200-204 | prevWindow steps back N when that stays above 0, and to 0 otherwise, never forward |
| Viewer.NextValue | viewer.py:207 | nextWindow moves forward exactly N; its partner Viewer.PrevAfterNext shows prevWindow undoes it |
| Viewer.PrevAfterNext | viewer.py:200-207 | from a non-negative position, Next then Previous returns to it |
| Viewer.ReadFollowing | viewer.py:161-176 | the read loop after the seek yields exactly the sequential read of the following lines |
| Viewer.ReadOne | viewer.py:168-175 | one pass of that loop extends the read by the line's record or ends it with the line's error |
| Viewer.ReadLinesCovers | viewer.py:169-171 | while the counter is below N and lines remain, the loop has not finished |
| Viewer.ReadLinesEnd | viewer.py:168-171 | when the loop stops, it has read every line it was going to read |
| Viewer.MyApp.constructor | viewer.py:32-37 | a new window is not loaded, has no file, data, number or acqtime, and its slider is at 0 |
| Viewer.MyApp.UpdatePlot | viewer.py:151-176 | skipped unless loaded; otherwise shows the in-memory slice or the indexed read at the slider; an empty in-memory copy (a reload of a header-only file) raises IndexError instead of drawing |
| Viewer.MyApp.LoadAndPlotData | viewer.py:106-142 | the file is loaded on the configured path; an exception leaves later fields unchanged; otherwise acqtime, number and slider follow Loading, the window becomes loaded, and the redraw shows only if it was loaded before |
| Viewer.MyApp.Present | viewer.py:133-142 | acqtime, number and slider are set, then the redraw, then loaded |
| Viewer.MyApp.Load | viewer.py:108-131 | the figures are Loading on the configured path, with the offset table or the in-memory copy it leaves behind |
| Viewer.MyApp.BruteLoad | viewer.py:110-119 | the in-memory copy is the read of every data line, and the figures are BruteTiming |
| Viewer.MyApp.IndexedLoad | viewer.py:120-131 | the offset table holds every line's start, or only line 0's when line 1 fails to parse, and the figures are IndexedTiming |
| Viewer.MyApp.SizeChanged | viewer.py:144-149 | when loaded the slider maximum follows N and a redraw shows; otherwise nothing |
| Viewer.MyApp.PrevWindow | viewer.py:200-204 | the slider moves to PrevValue; a redraw happens only when it moved |
| Viewer.MyApp.NextWindow | viewer.py:206-207 | the slider moves forward N; a redraw happens only when it moved |

## Left out

- Drawing is left out: every pyqtgraph and Qt widget call, the message boxes and
  their text, cursors, `autoRange`, `setXRange`, and the threshold line drawn by
  `moveThreshold`. A redraw's result is the data it would draw.
- Signals that re-enter a handler are left out. For example, `setXRange` inside
  `on_xrange_changed` can fire `sigXRangeChanged` again.
- Qt's clamping of widget values is left out: `setMaximum`/`setMinimum` on the
  spin boxes and the slider, and the slider's clamping of `setValue`. N, the
  window and the threshold are parameters. The slider's maximum is a field that
  the model sets but that bounds nothing.
- zoomer.py's `sizeChanged` is left out: it is not among the modelled operations.
  `RandomScatterPlotDialog` draws random data and is left out.
- analyser.py is not part of this model.
- The Savitzky-Golay arithmetic is scipy code. It is a parameter `smooth`, assumed
  only to keep the length of its input. The smoothed values themselves are never
  computed.
- Floating point is exact real arithmetic. Parsing of the numbers in a line is
  taken as given: each field is the number `float()` would read, or `None`.
- File I/O is left out. A file is its list of lines. A `seek` to a table entry is
  the read of the line with that index. Byte positions are not modelled: this
  agrees with the real file for viewer.py only when every character is one byte
  and every line ends in LF, and for zoomer.py only when every character is one
  byte and every line ends in CRLF.
- viewer.py always sets `bruteforce` to False. The model takes it as a
  constructor argument so that both load and redraw paths are covered.
- The progress messages `calculate` prints (lines read, points isolated, peaks
  identified) are console output and are left out.
