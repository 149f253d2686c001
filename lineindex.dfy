/**
 * The offset tables both plotting programs build while loading a file, and
 * where they point in the file's decoded text (len() counts characters, and
 * text-mode reading turns every line ending into one newline character). Each load loop starts a counter at
 * 0, records it before every line (the header included) and then advances it
 * by len(line) + extra: extra is 1 in zoomer.py and 0 in viewer.py.
 */
module LineIndex {
  import opened Trace

  /** The file's text as text-mode reading sees it: the lines laid end to end. */
  function Text(ls: seq<Line>): string
    decreases |ls|
  {
    if ls == [] then [] else Text(ls[..|ls|-1]) + ls[|ls|-1].raw
  }

  /** The load loop's counter after it has consumed the lines ls. */
  function Extent(ls: seq<Line>, extra: nat): int
    decreases |ls|
  {
    if ls == [] then 0 else Extent(ls[..|ls|-1], extra) + |ls[|ls|-1].raw| + extra
  }

  /** The table the load loop builds: entry k is the counter just before line k. */
  function LineOffsets(ls: seq<Line>, extra: nat): seq<int>
  {
    seq(|ls|, k requires 0 <= k < |ls| => Extent(ls[..k], extra))
  }

  /** Appending one line to the consumed prefix appends the counter's current value to the table. */
  lemma OffsetsExtend(ls: seq<Line>, k: nat, extra: nat)
    requires k < |ls|
    ensures LineOffsets(ls[..k+1], extra) == LineOffsets(ls[..k], extra) + [Extent(ls[..k], extra)]
    ensures Extent(ls[..k+1], extra) == Extent(ls[..k], extra) + |ls[k].raw| + extra
  {
    assert ls[..k+1][..k] == ls[..k];
    var a := LineOffsets(ls[..k+1], extra);
    var b := LineOffsets(ls[..k], extra) + [Extent(ls[..k], extra)];
    forall j | 0 <= j < |a| ensures a[j] == b[j] {
      assert ls[..k+1][..j] == ls[..j];
      if j < k { assert ls[..k][..j] == ls[..j]; }
    }
  }

  /** A prefix of the file has the matching prefix of the table. */
  lemma OffsetsPrefix(ls: seq<Line>, m: nat, extra: nat)
    requires m <= |ls|
    ensures LineOffsets(ls[..m], extra) == LineOffsets(ls, extra)[..m]
  {
    forall j | 0 <= j < m ensures LineOffsets(ls[..m], extra)[j] == LineOffsets(ls, extra)[j] {
      assert ls[..m][..j] == ls[..j];
    }
  }

  /**
   * The table has one entry per line, header included; it starts at 0 and each
   * entry exceeds the previous one by the previous line's len() plus extra.
   */
  lemma OffsetsRecurrence(ls: seq<Line>, extra: nat)
    ensures |LineOffsets(ls, extra)| == |ls|
    ensures |ls| > 0 ==> LineOffsets(ls, extra)[0] == 0
    ensures forall k | 0 <= k < |ls| - 1 ::
      LineOffsets(ls, extra)[k+1] == LineOffsets(ls, extra)[k] + |ls[k].raw| + extra
  {
    forall k | 0 <= k < |ls| - 1
      ensures LineOffsets(ls, extra)[k+1] == LineOffsets(ls, extra)[k] + |ls[k].raw| + extra
    {
      OffsetsExtend(ls, k, extra);
    }
  }

  /** With extra >= 1, as in zoomer.py, the table is strictly increasing. */
  lemma OffsetsStrictlyIncreasing(ls: seq<Line>, extra: nat)
    requires extra >= 1
    ensures forall j, k | 0 <= j < k < |ls| :: LineOffsets(ls, extra)[j] < LineOffsets(ls, extra)[k]
  {
    OffsetsRecurrence(ls, extra);
    var offs := LineOffsets(ls, extra);
    forall j, k | 0 <= j < k < |ls| ensures offs[j] < offs[k] {
      var i := j + 1;
      while i < k
        invariant j < i <= k
        invariant offs[j] < offs[i]
      {
        i := i + 1;
      }
    }
  }

  /** The counter equals the length of the text consumed plus extra for every line consumed. */
  lemma {:induction false} ExtentIsTextLength(ls: seq<Line>, extra: nat)
    ensures Extent(ls, extra) == |Text(ls)| + extra * |ls|
    decreases |ls|
  {
    if ls != [] {
      var n := |ls| - 1;
      ExtentIsTextLength(ls[..n], extra);
      assert extra * |ls| == extra * n + extra;
    }
  }

  /** The text of a prefix of the lines is a prefix of the text. */
  lemma {:induction false} TextPrefix(ls: seq<Line>, k: nat)
    requires k <= |ls|
    ensures |Text(ls[..k])| <= |Text(ls)| && Text(ls)[..|Text(ls[..k])|] == Text(ls[..k])
    decreases |ls| - k
  {
    if k < |ls| {
      var n := |ls| - 1;
      assert ls[..n][..k] == ls[..k];
      TextPrefix(ls[..n], k);
      assert Text(ls) == Text(ls[..n]) + ls[n].raw;
    } else {
      assert ls[..k] == ls;
    }
  }

  /**
   * viewer.py's table (extra = 0) counts characters of the decoded text:
   * entry k is the position in that text where line k starts. It equals the
   * byte position f.seek expects only when every character is one byte and
   * every line ends in a single LF; in a CRLF file entry k falls k bytes short.
   */
  lemma ViewerOffsetIsLineStart(ls: seq<Line>, k: nat)
    requires k < |ls|
    ensures var o := LineOffsets(ls, 0)[k];
      0 <= o && o + |ls[k].raw| <= |Text(ls)| && Text(ls)[o..o + |ls[k].raw|] == ls[k].raw
  {
    var o := LineOffsets(ls, 0)[k];
    ExtentIsTextLength(ls[..k], 0);
    assert o == |Text(ls[..k])|;
    assert ls[..k+1][..k] == ls[..k];
    var t := Text(ls[..k+1]);
    assert t == Text(ls[..k]) + ls[k].raw;
    assert t[o..] == ls[k].raw;
    TextPrefix(ls, k + 1);
    var whole := Text(ls);
    assert whole[..|t|] == t;
    assert o + |ls[k].raw| == |t|;
    assert whole[o..|t|] == t[o..];
  }

  /**
   * zoomer.py's table (extra = 1) runs ahead of the text: entry k is k past the
   * start of line k in the decoded text, so it matches the file's byte
   * positions only when every character is one byte and every line ends in
   * CRLF, which text-mode reading turns into one newline character.
   */
  lemma ZoomerOffsetDrift(ls: seq<Line>, k: nat)
    requires k < |ls|
    ensures LineOffsets(ls, 1)[k] == LineOffsets(ls, 0)[k] + k
  {
    ExtentIsTextLength(ls[..k], 1);
    ExtentIsTextLength(ls[..k], 0);
  }
}
