/**
 The bounded line cache that holds child output while no client is connected.

 `Cached` and `Cleared` specify what one call does to the cache as a
 value; the class below is the cache updated in place, proved against them.
 */
module OutputCache {
  import opened Bytes

  /** The number of lines kept for a session that shows fewer than half as many rows. */
  const MAX_PENDING_OUTPUT_LINES: nat := 1000

  /** A last line at least this long is not extended any further. */
  const LONG_LINE: nat := 1000

  datatype Cache = Cache(
    lines: seq<seq<byte>>,
    discardLines: nat,
    discardBytes: nat,
    hasNewLine: bool,
    noNewLineCount: nat,
    tmuxPrefix: seq<byte>)

  function MaxLines(rows: int): (r: nat)
    ensures r >= 1000 && r >= 2 * rows && (r == 1000 || r == 2 * rows)
  {
    if 2 * rows > MAX_PENDING_OUTPUT_LINES then 2 * rows else MAX_PENDING_OUTPUT_LINES
  }

  /** A cached line is never empty and holds a newline at its end only. */
  predicate IsLine(line: seq<byte>) {
    line != [] && forall k :: 0 <= k < |line| - 1 ==> line[k] != LF
  }

  predicate AreLines(lines: seq<seq<byte>>) {
    forall i :: 0 <= i < |lines| ==> IsLine(lines[i])
  }

  /** Length of the first line of `buf`: up to a newline, else up to a carriage return, else all of it. */
  function FirstLine(buf: seq<byte>): (n: nat)
    requires buf != []
    ensures 0 < n <= |buf|
  {
    var lf := IndexByte(buf, LF);
    var pos := if lf >= 0 then lf else IndexByte(buf, CR);
    if pos >= 0 then pos + 1 else |buf|
  }

  lemma FirstLineIsLine(buf: seq<byte>)
    requires buf != []
    ensures IsLine(buf[..FirstLine(buf)])
  {
    IndexByteIsFirst(buf, LF);
  }

  /** Whether `line` continues `last`: not after a newline, and after a carriage return only as its newline. */
  predicate Continues(last: seq<byte>, line: seq<byte>) {
    && last != [] && line != []
    && var b := last[|last| - 1];
      b != LF && (b != CR || line[0] == LF) && |last| < LONG_LINE
  }

  function AddLine(lines: seq<seq<byte>>, line: seq<byte>): seq<seq<byte>> {
    if lines != [] && Continues(lines[|lines| - 1], line)
    then lines[|lines| - 1 := lines[|lines| - 1] + line]
    else lines + [line]
  }

  /** The cache after the lines of `buf`, before the limit is enforced. */
  function AddLines(lines: seq<seq<byte>>, buf: seq<byte>): seq<seq<byte>>
    decreases |buf|
  {
    if buf == [] then lines
    else
      var n := FirstLine(buf);
      AddLines(AddLine(lines, buf[..n]), buf[n..])
  }

  lemma FlatSnoc(lines: seq<seq<byte>>, line: seq<byte>)
    ensures Flat(lines + [line]) == Flat(lines) + line
  {
    FlatConcat(lines, [line]);
    FlatOne(line);
  }

  lemma FlatExtendLast(lines: seq<seq<byte>>, line: seq<byte>)
    requires lines != []
    ensures Flat(lines[|lines| - 1 := lines[|lines| - 1] + line]) == Flat(lines) + line
  {
    var head, last := lines[..|lines| - 1], lines[|lines| - 1];
    assert lines == head + [last] && lines[|lines| - 1 := last + line] == head + [last + line];
    FlatSnoc(head, last);
    FlatSnoc(head, last + line);
  }

  lemma AddLineFlat(lines: seq<seq<byte>>, line: seq<byte>)
    ensures Flat(AddLine(lines, line)) == Flat(lines) + line
    ensures |AddLine(lines, line)| >= |lines| && AddLine(lines, line) != []
  {
    if lines != [] && Continues(lines[|lines| - 1], line) {
      FlatExtendLast(lines, line);
    } else {
      FlatSnoc(lines, line);
    }
  }

  /** However the lines fall, the cached bytes are the old ones followed by `buf`. */
  lemma {:induction false} AddLinesFlat(lines: seq<seq<byte>>, buf: seq<byte>)
    ensures Flat(AddLines(lines, buf)) == Flat(lines) + buf
    ensures |AddLines(lines, buf)| >= |lines| && (buf != [] ==> AddLines(lines, buf) != [])
    decreases |buf|
  {
    hide FirstLine, AddLine, Flat;
    var before := Flat(lines);
    if buf == [] {
      assert before + [] == before;
    } else {
      var n := FirstLine(buf);
      var line, rest := buf[..n], buf[n..];
      AddLineFlat(lines, line);
      AddLinesFlat(AddLine(lines, line), rest);
      assert line + rest == buf;
      assert before + line + rest == before + (line + rest);
    }
  }

  /** The cache holds lines only. */
  lemma {:induction false} AddLinesAreLines(lines: seq<seq<byte>>, buf: seq<byte>)
    requires AreLines(lines)
    ensures AreLines(AddLines(lines, buf))
    decreases |buf|
  {
    if buf != [] {
      var n := FirstLine(buf);
      FirstLineIsLine(buf);
      AddLinesAreLines(AddLine(lines, buf[..n]), buf[n..]);
    }
  }

  /** Nothing that belongs together stands in two lines: a newline ended the first, a carriage return, or its length. */
  predicate IsBoundary(a: seq<byte>, b: seq<byte>) {
    a != [] && b != [] &&
    (a[|a| - 1] == LF || (a[|a| - 1] == CR && b[0] != LF) || |a| >= 1000)
  }

  predicate IsSplit(lines: seq<seq<byte>>) {
    forall i :: 0 <= i < |lines| - 1 ==> IsBoundary(lines[i], lines[i + 1])
  }

  /** Lines that are long, or not the last, are left as they are. */
  predicate LeavesComplete(lines: seq<seq<byte>>, lines': seq<seq<byte>>) {
    && |lines'| >= |lines|
    && forall i :: 0 <= i < |lines| && (i < |lines| - 1 || |lines[i]| >= 1000) ==> lines'[i] == lines[i]
  }

  /** A carriage return stands at the end of a line only. */
  predicate ReturnsAtEnd(lines: seq<seq<byte>>) {
    forall i, k :: 0 <= i < |lines| && 0 <= k < |lines[i]| - 1 ==> lines[i][k] != CR
  }

  lemma AddLineSplits(lines: seq<seq<byte>>, line: seq<byte>)
    requires AreLines(lines) && IsSplit(lines) && IsLine(line)
    ensures IsSplit(AddLine(lines, line)) && AreLines(AddLine(lines, line))
    ensures LeavesComplete(lines, AddLine(lines, line))
  {
  }

  lemma FirstLineReturns(buf: seq<byte>)
    requires buf != [] && LF !in buf
    ensures forall k :: 0 <= k < FirstLine(buf) - 1 ==> buf[k] != CR
  {
    IndexByteIsFirst(buf, LF);
    IndexByteIsFirst(buf, CR);
  }

  /**
   However a stream is cut into calls, lines are cut only where they end or are long, and a
   line that is long already, or not the last, is left as it is.
   */
  lemma {:induction false} AddLinesSplits(lines: seq<seq<byte>>, buf: seq<byte>)
    requires AreLines(lines) && IsSplit(lines)
    ensures IsSplit(AddLines(lines, buf))
    ensures LeavesComplete(lines, AddLines(lines, buf))
    decreases |buf|
  {
    if buf != [] {
      hide Continues;
      var n := FirstLine(buf);
      FirstLineIsLine(buf);
      AddLineSplits(lines, buf[..n]);
      AddLinesSplits(AddLine(lines, buf[..n]), buf[n..]);
    }
  }

  /** Output without newlines is cut at its carriage returns. */
  lemma {:induction false} ReturnsEndLines(lines: seq<seq<byte>>, buf: seq<byte>)
    requires ReturnsAtEnd(lines) && LF !in buf
    ensures ReturnsAtEnd(AddLines(lines, buf))
    decreases |buf|
  {
    if buf != [] {
      var n := FirstLine(buf);
      FirstLineReturns(buf);
      var line := buf[..n];
      assert line[0] == buf[0];
      assert ReturnsAtEnd(AddLine(lines, line));
      ReturnsEndLines(AddLine(lines, line), buf[n..]);
    }
  }

  /** Number of lines that must go. */
  function Excess(lines: seq<seq<byte>>, rows: int): nat {
    if |lines| > MaxLines(rows) then |lines| - MaxLines(rows) else 0
  }

  /** What a call of `cacheOutput` makes of the cache. */
  function Cached(c: Cache, buf: seq<byte>, rows: int): (r: Cache)
    ensures |r.lines| <= MaxLines(rows)
    ensures buf != [] || c.lines != [] ==> r.lines != []
    ensures r.hasNewLine == c.hasNewLine && r.noNewLineCount == c.noNewLineCount
  {
    AddLinesFlat(c.lines, buf);
    var lines := AddLines(c.lines, buf);
    var n := Excess(lines, rows);
    if n == 0 then c.(lines := lines)
    else c.(lines := lines[n..],
            discardLines := c.discardLines + n,
            discardBytes := c.discardBytes + |Flat(lines[..n])|,
            tmuxPrefix := if c.discardLines == 0 then TmuxOutputPrefix(lines, 0) else c.tmuxPrefix)
  }

  /** The lines a call of `cacheOutput` drops: always the oldest ones, and exactly as many as it counts. */
  function DroppedBy(c: Cache, buf: seq<byte>, rows: int): (run: seq<seq<byte>>)
    ensures var r := Cached(c, buf, rows);
      && r.discardLines == c.discardLines + |run|
      && r.discardBytes == c.discardBytes + |Flat(run)|
      && Flat(run) + Flat(r.lines) == Flat(c.lines) + buf
      && (run != [] ==> |r.lines| == MaxLines(rows))
  {
    AddLinesFlat(c.lines, buf);
    var lines := AddLines(c.lines, buf);
    var n := Excess(lines, rows);
    assert lines == lines[..n] + lines[n..];
    FlatConcat(lines[..n], lines[n..]);
    lines[..n]
  }

  /** What a call of `clearOutput` makes of the cache. */
  function Cleared(c: Cache): Cache {
    c.(lines := [], discardLines := 0, discardBytes := 0, hasNewLine := false, noNewLineCount := 0)
  }

  // ---------------------------------------------------------------------------
  // The in-band warning.

  /** The warning that `lines` lines and `bytes` bytes were dropped, as the terminal or tmux should get it. */
  function WarningText(lines: nat, bytes: nat, newline: seq<byte>, tmuxPrefix: seq<byte>): seq<byte> {
    var line := [CR, ESC] + Ascii("[0;33mWarning: tsshd discarded ") + Decimal(lines)
      + Ascii(" lines ") + Decimal(bytes)
      + Ascii(" bytes") + Ascii(" of output during client disconnection at this point!")
      + [ESC] + Ascii("[0m") + [ESC] + Ascii("[K") + newline;
    if tmuxPrefix != [] then EncodeTmuxOutput(tmuxPrefix, line) else line
  }

  /** The warning for the counters of `c`; it ends the way the first cached line does. */
  function Warning(c: Cache): seq<byte> {
    var endsInCr := c.lines != [] && c.lines[0] != [] && c.lines[0][|c.lines[0]| - 1] == CR;
    WarningText(c.discardLines, c.discardBytes, if endsInCr then [CR] else [CR, LF], c.tmuxPrefix)
  }

  function Octal(b: byte): seq<byte> {
    [92, 48 + b / 64, 48 + b / 8 % 8, 48 + b % 8]
  }

  function EscapeTmux(output: seq<byte>): seq<byte> {
    if output == [] then []
    else
      var b := output[0];
      (if b < 32 || b == 92 || b > 126 then Octal(b) else [b]) + EscapeTmux(output[1..])
  }

  function EncodeTmuxOutput(prefix: seq<byte>, output: seq<byte>): seq<byte> {
    prefix + EscapeTmux(output) + [CR, LF]
  }

  /** Offset of the pane id in a tmux output notification, 0 for any other line. */
  function PaneOffset(line: seq<byte>): nat {
    if Ascii("%output %") <= line then 8
    else if Ascii("%extended-output %") <= line then 17
    else 0
  }

  /** The prefix of tmux output notifications, taken from the tenth one on that names a pane. */
  function TmuxOutputPrefix(lines: seq<seq<byte>>, seen: nat): seq<byte> {
    if lines == [] then []
    else
      var idx := PaneOffset(lines[0]);
      if idx == 0 then TmuxOutputPrefix(lines[1..], seen)
      else
        var rest := if idx <= |lines[0]| then lines[0][idx..] else [];
        var pos := IndexByte(rest, 32);
        if seen + 1 >= 10 && pos > 0 then Ascii("%output ") + rest[..pos + 1]
        else TmuxOutputPrefix(lines[1..], seen + 1)
  }

  // ---------------------------------------------------------------------------
  // The cache in place.

  class PendingOutput {
    var cacheLines: seq<seq<byte>>
    var discardLines: nat
    var discardBytes: nat
    var chHasNewLine: bool
    var noNewLineCount: nat
    var tmuxOutputPrefix: seq<byte>

    function Value(): Cache
      reads this
    {
      Cache(cacheLines, discardLines, discardBytes, chHasNewLine, noNewLineCount, tmuxOutputPrefix)
    }

    constructor ()
      ensures Value() == Cache([], 0, 0, false, 0, [])
    {
      cacheLines, discardLines, discardBytes := [], 0, 0;
      chHasNewLine, noNewLineCount, tmuxOutputPrefix := false, 0, [];
    }

    /** The splitting loop: appends the lines of `data` to the cache. */
    method AppendLines(data: seq<byte>)
      modifies `cacheLines
      ensures cacheLines == AddLines(old(cacheLines), data)
    {
      var buf := data;
      while buf != []
        invariant AddLines(cacheLines, buf) == AddLines(old(cacheLines), data)
        decreases |buf|
      {
        var pos := IndexByte(buf, LF);
        if pos < 0 {
          pos := IndexByte(buf, CR);
        }
        var n := if pos >= 0 then pos + 1 else |buf|;
        assert n == FirstLine(buf);
        var line := buf[..n];
        buf := buf[n..];

        if cacheLines == [] {
          cacheLines := cacheLines + [line];
        } else {
          var last := cacheLines[|cacheLines| - 1];
          if Continues(last, line) {
            cacheLines := cacheLines[|cacheLines| - 1 := last + line];
          } else {
            cacheLines := cacheLines + [line];
          }
        }
      }
    }

    method CacheOutput(data: seq<byte>, rows: int)
      modifies this
      ensures Value() == Cached(old(Value()), data, rows)
    {
      AppendLines(data);
      var maxLines := MaxLines(rows);
      if |cacheLines| > maxLines {
        if discardLines == 0 {
          tmuxOutputPrefix := TmuxOutputPrefix(cacheLines, 0);
        }
        var dropLines := |cacheLines| - maxLines;
        discardLines := discardLines + dropLines;
        CountBytes(cacheLines[..dropLines]);
        cacheLines := cacheLines[dropLines..];
      }
    }

    /** Adds the sizes of `lines` to the byte counter. */
    method CountBytes(lines: seq<seq<byte>>)
      modifies `discardBytes
      ensures discardBytes == old(discardBytes) + |Flat(lines)|
    {
      for i := 0 to |lines|
        invariant discardBytes == old(discardBytes) + |Flat(lines[..i])|
      {
        assert lines[..i + 1] == lines[..i] + [lines[i]];
        FlatSnoc(lines[..i], lines[i]);
        discardBytes := discardBytes + |lines[i]|;
      }
      assert lines[..|lines|] == lines;
    }

    /** Empties the cache; returns the counters of the report, which covers everything dropped since the last one. */
    method ClearOutput() returns (lines: nat, bytes: nat)
      modifies this
      ensures Value() == Cleared(old(Value()))
      ensures lines == old(discardLines + |cacheLines|)
      ensures bytes == old(discardBytes + |Flat(cacheLines)|)
    {
      discardLines := discardLines + |cacheLines|;
      CountBytes(cacheLines);
      lines, bytes := discardLines, discardBytes;
      discardLines, discardBytes := 0, 0;
      cacheLines, chHasNewLine, noNewLineCount := [], false, 0;
    }
  }
}
