/**
 * Shared vocabulary of the three programs: the lines of a trace file, the
 * records parsed from them, the Python behaviours the programs lean on
 * (truncating int(), list indexing from the end), and the sequential read
 * of a list of lines that stops at the first malformed one.
 */
module Trace {

  datatype Option<T> = None | Some(value: T)

  /** The exceptions raised on the paths this model covers. */
  datatype Error =
    | MalformedLine(line: nat)  // float() or tuple unpacking fails on this line (ValueError)
    | IndexOutOfRange           // a list or array index past its end (IndexError)
    | Unbound                   // a local read before assignment: the file had too few lines
    | DivisionByZero            // ZeroDivisionError
    | WindowRejected            // savgol_filter refuses the window (ValueError)
    | Unset                     // an attribute read before any method assigned it (AttributeError)

  datatype Result<T> = Ok(value: T) | Err(error: Error)

  /** What a redraw handler did: returned early, drew a view, or raised. */
  datatype Refresh<T> = Skipped | Drawn(view: T) | Failed(error: Error)

  /** A computed view drawn, or its exception raised. */
  function Shown<T>(r: Result<T>): Refresh<T>
  {
    match r
    case Ok(v) => Drawn(v)
    case Err(e) => Failed(e)
  }

  /**
   * One line as text-mode iteration yields it: `raw` holds its characters,
   * newline included, so len(line) is |raw|; `cells` are its comma-separated
   * fields after strip(), each the number float() reads from it, or None
   * where float() fails. Float parsing itself is not modelled.
   */
  datatype Line = Line(raw: string, cells: seq<Option<real>>)

  datatype Record = Record(time: real, fluo: real, pmt: real)

  /** The three parallel lists `time`, `fluo`, `pmt` the read loops build. */
  datatype Channels = Channels(time: seq<real>, fluo: seq<real>, pmt: seq<real>)
  {
    predicate Aligned() { |time| == |fluo| == |pmt| }

    function Size(): nat { |time| }

    function At(j: nat): Record
      requires Aligned() && j < |time|
    {
      Record(time[j], fluo[j], pmt[j])
    }

    function Append(r: Record): Channels
    {
      Channels(time + [r.time], fluo + [r.fluo], pmt + [r.pmt])
    }
  }

  function Min(a: int, b: int): int { if a <= b then a else b }

  /** Python's int() on a float: truncation toward zero. */
  function Trunc(x: real): (n: int)
    ensures x >= 0.0 ==> 0 <= n && n as real <= x < n as real + 1.0
    ensures x < 0.0 ==> n <= 0 && n as real - 1.0 < x <= n as real
  {
    if x >= 0.0 then x.Floor else -((-x).Floor)
  }

  /** int() is monotone: a larger float never truncates to a smaller integer. */
  lemma TruncMonotone(x: real, y: real)
    requires x <= y
    ensures Trunc(x) <= Trunc(y)
  {
  }

  /** Python list indexing `xs[i]` on a list of length len: which entry, if any, it reaches. */
  function PyIndex(len: nat, i: int): (r: Option<nat>)
    ensures r.Some? <==> -(len as int) <= i < len
    ensures r.Some? ==> 0 < len && r.value < len && r.value as int == i % len
  {
    if 0 <= i < len then Some(i)
    else if -(len as int) <= i < 0 then Some(len + i)
    else None
  }

  /** `[float(v) for v in riga.strip().split(',')[:3]]` unpacked into time, fluo, pmt. */
  function ParseRecord(line: Line): (r: Option<Record>)
    ensures r.Some? <==> |line.cells| >= 3 && forall c | 0 <= c < 3 :: line.cells[c].Some?
    ensures r.Some? ==>
      r.value == Record(line.cells[0].value, line.cells[1].value, line.cells[2].value) &&
      LeadingTime(line) == Some(r.value.time)
  {
    if |line.cells| < 3 || line.cells[0].None? || line.cells[1].None? || line.cells[2].None? then None
    else Some(Record(line.cells[0].value, line.cells[1].value, line.cells[2].value))
  }

  /** `[float(v) for v in line.strip().split(',')[:2]]` unpacked into two names; the first is kept. */
  function LeadingTime(line: Line): (t: Option<real>)
    ensures t.Some? <==> |line.cells| >= 2 && line.cells[0].Some? && line.cells[1].Some?
    ensures t.Some? ==> t.value == line.cells[0].value
  {
    if |line.cells| < 2 || line.cells[0].None? || line.cells[1].None? then None
    else Some(line.cells[0].value)
  }

  /** Time as stored: the viewer divides it by 1000, the other programs keep it. */
  function Rescale(t: real, milli: bool): real
  {
    if milli then t / 1000.0 else t
  }

  /** Reading the line at list index i and parsing it into a record. */
  function SampleAt(lines: seq<Line>, i: int, milli: bool): Result<Record>
  {
    match PyIndex(|lines|, i)
    case None => Err(IndexOutOfRange)
    case Some(k) =>
      match ParseRecord(lines[k])
      case None => Err(MalformedLine(k))
      case Some(r) => Ok(Record(Rescale(r.time, milli), r.fluo, r.pmt))
  }

  /** The consecutive integers from, from + 1, ..., from + count - 1. */
  function Indices(from: int, count: nat): (idx: seq<int>)
  {
    seq(count, i requires 0 <= i < count => from + i)
  }

  /** The data lines of a file: every line after the header. */
  function Body(lines: seq<Line>): seq<int>
  {
    Indices(1, if |lines| == 0 then 0 else |lines| - 1)
  }

  /**
   * Reading the lines at the list indices idx in order, appending each record
   * to time, fluo and pmt: the first line that cannot be read or parsed ends the
   * read with its error, and no partial lists are returned.
   */
  function Gather(lines: seq<Line>, idx: seq<int>, milli: bool): (r: Result<Channels>)
    ensures r.Ok? ==> r.value.Aligned() && r.value.Size() == |idx|
    decreases |idx|
  {
    if idx == [] then Ok(Channels([], [], []))
    else
      var n := |idx| - 1;
      match Gather(lines, idx[..n], milli)
      case Err(e) => Err(e)
      case Ok(ch) =>
        match SampleAt(lines, idx[n], milli)
        case Err(e) => Err(e)
        case Ok(rec) => Ok(ch.Append(rec))
  }

  /**
   * The read succeeds exactly when every line it visits can be read and
   * parsed, and then entry j of the lists is the record of line idx[j].
   */
  lemma {:induction false} GatherReads(lines: seq<Line>, idx: seq<int>, milli: bool)
    ensures Gather(lines, idx, milli).Ok? <==> forall j | 0 <= j < |idx| :: SampleAt(lines, idx[j], milli).Ok?
    ensures Gather(lines, idx, milli).Ok? ==>
      forall j | 0 <= j < |idx| :: SampleAt(lines, idx[j], milli) == Ok(Gather(lines, idx, milli).value.At(j))
    decreases |idx|
  {
    if idx != [] {
      var n := |idx| - 1;
      var pre := idx[..n];
      GatherReads(lines, pre, milli);
      assert forall j | 0 <= j < n :: pre[j] == idx[j];
      if Gather(lines, pre, milli).Ok? && SampleAt(lines, idx[n], milli).Ok? {
        var ch := Gather(lines, pre, milli).value;
        var rec := SampleAt(lines, idx[n], milli).value;
        assert Gather(lines, idx, milli) == Ok(ch.Append(rec));
        assert ch.Append(rec).At(n) == rec;
      }
    }
  }

  /** A failed read fails with the error of the first line that cannot be read or parsed. */
  lemma {:induction false} GatherFirstError(lines: seq<Line>, idx: seq<int>, milli: bool)
    requires Gather(lines, idx, milli).Err?
    ensures exists j | 0 <= j < |idx| ::
      SampleAt(lines, idx[j], milli) == Err(Gather(lines, idx, milli).error) &&
      forall i | 0 <= i < j :: SampleAt(lines, idx[i], milli).Ok?
    decreases |idx|
  {
    var n := |idx| - 1;
    var e := Gather(lines, idx, milli).error;
    var pre := idx[..n];
    assert forall i | 0 <= i < n :: pre[i] == idx[i];
    if Gather(lines, pre, milli).Err? {
      GatherFirstError(lines, pre, milli);
      var j :| 0 <= j < n && SampleAt(lines, pre[j], milli) == Err(e) &&
        forall i | 0 <= i < j :: SampleAt(lines, pre[i], milli).Ok?;
      assert SampleAt(lines, idx[j], milli) == Err(e);
    } else {
      GatherReads(lines, pre, milli);
      assert SampleAt(lines, idx[n], milli) == Err(e);
    }
  }

  /** Extending a successful read by one more line: the read grows by that record, or fails with that line's error. */
  lemma GatherExtend(lines: seq<Line>, idx: seq<int>, n: nat, milli: bool)
    requires n < |idx|
    requires Gather(lines, idx[..n], milli).Ok?
    ensures SampleAt(lines, idx[n], milli).Err? ==>
      Gather(lines, idx[..n+1], milli) == Err(SampleAt(lines, idx[n], milli).error)
    ensures SampleAt(lines, idx[n], milli).Ok? ==>
      Gather(lines, idx[..n+1], milli) ==
        Ok(Gather(lines, idx[..n], milli).value.Append(SampleAt(lines, idx[n], milli).value))
  {
    assert idx[..n+1][..n] == idx[..n];
  }

  /** A read is determined by the records it yields: lists holding exactly them are the read's result. */
  lemma GatherUnique(lines: seq<Line>, idx: seq<int>, milli: bool, ch: Channels)
    requires ch.Aligned() && ch.Size() == |idx|
    requires forall j | 0 <= j < |idx| :: SampleAt(lines, idx[j], milli) == Ok(ch.At(j))
    ensures Gather(lines, idx, milli) == Ok(ch)
  {
    GatherReads(lines, idx, milli);
    var r := Gather(lines, idx, milli).value;
    forall j | 0 <= j < |idx|
      ensures r.time[j] == ch.time[j] && r.fluo[j] == ch.fluo[j] && r.pmt[j] == ch.pmt[j]
    {
      assert Ok(r.At(j)) == Ok(ch.At(j));
    }
    assert r.time == ch.time;
    assert r.fluo == ch.fluo;
    assert r.pmt == ch.pmt;
  }

  /** A read that fails at some line fails the same way whatever lines it was meant to read afterwards. */
  lemma {:induction false} GatherStopsAtError(lines: seq<Line>, idx: seq<int>, n: nat, milli: bool)
    requires n <= |idx|
    requires Gather(lines, idx[..n], milli).Err?
    ensures Gather(lines, idx, milli) == Gather(lines, idx[..n], milli)
    decreases |idx| - n
  {
    if n < |idx| {
      var m := |idx| - 1;
      assert idx[..m][..n] == idx[..n];
      GatherStopsAtError(lines, idx[..m], n, milli);
      var e := Gather(lines, idx[..n], milli).error;
      assert Gather(lines, idx[..m], milli) == Err(e);
      assert Gather(lines, idx, milli) == Err(e);
    } else {
      assert idx[..n] == idx;
    }
  }

  /**
   * The read loop of batch.py (lines 13-18), of the Isolate action in zoomer.py
   * and of the in-memory load in viewer.py: skip the header, then parse every
   * remaining line into the three lists.
   */
  method ReadBody(lines: seq<Line>, milli: bool) returns (r: Result<Channels>)
    ensures r == Gather(lines, Body(lines), milli)
    ensures r.Ok? ==> r.value.Aligned() && r.value.Size() == |Body(lines)|
  {
    var idx := Body(lines);
    var time: seq<real> := [];
    var fluo: seq<real> := [];
    var pmt: seq<real> := [];
    var k := 1;
    while k < |lines|
      invariant 1 <= k && k - 1 <= |idx|
      invariant |idx| == if |lines| == 0 then 0 else |lines| - 1
      invariant Gather(lines, idx[..k-1], milli) == Ok(Channels(time, fluo, pmt))
    {
      assert idx[k-1] == k;
      GatherExtend(lines, idx, k - 1, milli);
      match ParseRecord(lines[k])
      case None =>
        GatherStopsAtError(lines, idx, k, milli);
        return Err(MalformedLine(k));
      case Some(rec) =>
        time := time + [Rescale(rec.time, milli)];
        fluo := fluo + [rec.fluo];
        pmt := pmt + [rec.pmt];
      k := k + 1;
    }
    assert idx[..k-1] == idx;
    r := Ok(Channels(time, fluo, pmt));
  }
}
