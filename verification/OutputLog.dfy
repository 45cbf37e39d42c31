/**
 The history of one output stream, as a list of edits.

 Everything the server output forwarder may do to the child's output is one of
 three edits: take in a chunk, strip cursor-position requests from a cached
 line, or replace a run of dropped lines by the text that reports it.  Replaying
 the edits gives the byte stream the forwarder answers for; the lemmas below say
 what such a stream can differ in from the child's output.
 */
module OutputLog {
  import opened Bytes

  /** `ESC [ 6 n`, the request a terminal answers with the cursor position. */
  const CURSOR_REQUEST: seq<byte> := [ESC, 91, 54, 110]

  /** Non-overlapping left-to-right removal of the cursor-position request. */
  function WithoutCursorRequests(s: seq<byte>): seq<byte> {
    if |s| < 4 then s
    else if s[..4] == CURSOR_REQUEST then WithoutCursorRequests(s[4..])
    else [s[0]] + WithoutCursorRequests(s[1..])
  }

  datatype Edit =
    // A chunk read from the child; `marker` is what the client asked to be echoed in front of it.
    | Append(marker: seq<byte>, chunk: seq<byte>)
    // Cursor-position requests removed from the cached line found at offset `at`.
    | Strip(at: nat, line: seq<byte>)
    // The dropped lines `run`, found at offset `at`, replaced by `text`; `lines` and `bytes` are the reported counters.
    | Report(at: nat, run: seq<seq<byte>>, lines: nat, bytes: nat, text: seq<byte>)

  datatype Log = Empty | Then(before: Log, edit: Edit)

  /** `part` is found in `s` at offset `at`. */
  predicate Found(s: seq<byte>, at: nat, part: seq<byte>) {
    at + |part| <= |s| && s[at..at + |part|] == part
  }

  /** `edit` describes `s`, and a report counts exactly what it removes. */
  predicate Applies(edit: Edit, s: seq<byte>) {
    match edit
    case Append(_, _) => true
    case Strip(at, line) => Found(s, at, line)
    case Report(at, run, lines, bytes, _) =>
      Found(s, at, Flat(run)) && lines == |run| && bytes == |Flat(run)|
  }

  function Apply(edit: Edit, s: seq<byte>): seq<byte>
    requires Applies(edit, s)
  {
    match edit
    case Append(marker, chunk) => s + marker + chunk
    case Strip(at, line) => s[..at] + WithoutCursorRequests(line) + s[at + |line|..]
    case Report(at, run, _, _, text) => s[..at] + text + s[at + |Flat(run)|..]
  }

  predicate Valid(log: Log)
    decreases log, 0
  {
    log.Empty? || (Valid(log.before) && Applies(log.edit, Replay(log.before)))
  }

  /** The stream left by the edits of `log`. */
  function Replay(log: Log): seq<byte>
    requires Valid(log)
    decreases log, 1
  {
    if log.Empty? then [] else Apply(log.edit, Replay(log.before))
  }

  /** The child's output taken in by `log`. */
  function Child(log: Log): seq<byte> {
    match log
    case Empty => []
    case Then(before, edit) => Child(before) + (if edit.Append? then edit.chunk else [])
  }

  /** Bytes of `log`'s stream that the child did not write: echoed markers and warnings. */
  function InjectedBytes(log: Log): nat {
    match log
    case Empty => 0
    case Then(before, Append(marker, _)) => InjectedBytes(before) + |marker|
    case Then(before, Strip(_, _)) => InjectedBytes(before)
    case Then(before, Report(_, _, _, _, text)) => InjectedBytes(before) + |text|
  }

  /** Sum of the byte counters over all reports. */
  function ReportedBytes(log: Log): nat {
    match log
    case Empty => 0
    case Then(before, edit) => ReportedBytes(before) + (if edit.Report? then edit.bytes else 0)
  }

  /** Cursor-position requests removed. */
  function StrippedRequests(log: Log): nat {
    match log
    case Empty => 0
    case Then(before, edit) =>
      StrippedRequests(before) + (if edit.Strip? then CountRequests(edit.line) else 0)
  }

  function CountRequests(s: seq<byte>): nat {
    if |s| < 4 then 0
    else if s[..4] == CURSOR_REQUEST then 1 + CountRequests(s[4..])
    else CountRequests(s[1..])
  }

  lemma {:induction false} StripLength(s: seq<byte>)
    ensures |s| == |WithoutCursorRequests(s)| + 4 * CountRequests(s)
  {
    if |s| >= 4 {
      if s[..4] == CURSOR_REQUEST { StripLength(s[4..]); } else { StripLength(s[1..]); }
    }
  }

  /** Conservation by count: every byte is in the stream, in a report, or in a stripped request. */
  lemma {:induction false} Accounting(log: Log)
    requires Valid(log)
    ensures |Replay(log)| + ReportedBytes(log) + 4 * StrippedRequests(log) == |Child(log)| + InjectedBytes(log)
  {
    if log.Then? {
      Accounting(log.before);
      if log.edit.Strip? { StripLength(log.edit.line); }
    }
  }

  // ---------------------------------------------------------------------------
  // Order: where each byte of the stream comes from.

  /** A byte of the stream with its origin: a position in the child's output, or injected. */
  datatype Cell = FromChild(pos: nat, b: byte) | Injected(b: byte)

  function Contents(cells: seq<Cell>): seq<byte> {
    seq(|cells|, i requires 0 <= i < |cells| => cells[i].b)
  }

  function ChildCells(start: nat, chunk: seq<byte>): seq<Cell> {
    seq(|chunk|, i requires 0 <= i < |chunk| => FromChild(start + i, chunk[i]))
  }

  function InjectedCells(text: seq<byte>): seq<Cell> {
    seq(|text|, i requires 0 <= i < |text| => Injected(text[i]))
  }

  function StripCells(cells: seq<Cell>): seq<Cell> {
    if |cells| < 4 then cells
    else if Contents(cells[..4]) == CURSOR_REQUEST then StripCells(cells[4..])
    else [cells[0]] + StripCells(cells[1..])
  }

  /** `mid` in place of `cells[from..to]`. */
  function Splice(cells: seq<Cell>, from: nat, to: nat, mid: seq<Cell>): seq<Cell>
    requires from <= to <= |cells|
  {
    cells[..from] + mid + cells[to..]
  }

  predicate Fits(edit: Edit, size: nat) {
    match edit
    case Append(_, _) => true
    case Strip(at, line) => at + |line| <= size
    case Report(at, run, _, _, _) => at + |Flat(run)| <= size
  }

  /** What `edit` does to the cells of a stream that has taken in `taken` child bytes so far. */
  function ApplyCells(edit: Edit, cells: seq<Cell>, taken: nat): seq<Cell>
    requires Fits(edit, |cells|)
  {
    match edit
    case Append(marker, chunk) => cells + InjectedCells(marker) + ChildCells(taken, chunk)
    case Strip(at, line) => Splice(cells, at, at + |line|, StripCells(cells[at..at + |line|]))
    case Report(at, run, _, _, text) => Splice(cells, at, at + |Flat(run)|, InjectedCells(text))
  }

  lemma ContentsConcat(a: seq<Cell>, b: seq<Cell>)
    ensures Contents(a + b) == Contents(a) + Contents(b)
  {
  }

  lemma ContentsOfCells(text: seq<byte>, start: nat)
    ensures Contents(InjectedCells(text)) == text && Contents(ChildCells(start, text)) == text
  {
  }

  lemma SpliceContents(cells: seq<Cell>, from: nat, to: nat, mid: seq<Cell>)
    requires from <= to <= |cells|
    ensures Contents(Splice(cells, from, to, mid)) == Contents(cells)[..from] + Contents(mid) + Contents(cells)[to..]
    ensures Contents(cells[from..to]) == Contents(cells)[from..to]
  {
  }

  lemma AppendContents(cells: seq<Cell>, marker: seq<byte>, chunk: seq<byte>, taken: nat)
    ensures Contents(cells + InjectedCells(marker) + ChildCells(taken, chunk)) == Contents(cells) + marker + chunk
  {
    hide Contents, InjectedCells, ChildCells;
    ContentsOfCells(marker, 0);
    ContentsOfCells(chunk, taken);
    ContentsConcat(cells, InjectedCells(marker));
    ContentsConcat(cells + InjectedCells(marker), ChildCells(taken, chunk));
  }

  lemma StripContents(cells: seq<Cell>, at: nat, line: seq<byte>)
    requires Found(Contents(cells), at, line) && at + |line| <= |cells|
    ensures
      var s, to := Contents(cells), at + |line|;
      Contents(Splice(cells, at, to, StripCells(cells[at..to]))) == s[..at] + WithoutCursorRequests(line) + s[to..]
  {
    hide Contents, StripCells, WithoutCursorRequests, Splice;
    var hit := cells[at..at + |line|];
    SpliceContents(cells, at, at + |line|, StripCells(hit));
    StripCellsContents(hit);
  }

  lemma ReportContents(cells: seq<Cell>, from: nat, to: nat, text: seq<byte>)
    requires from <= to <= |cells|
    ensures
      var s := Contents(cells);
      |s| == |cells| && Contents(Splice(cells, from, to, InjectedCells(text))) == s[..from] + text + s[to..]
  {
    assert |Contents(cells)| == |cells|;
    hide Contents, InjectedCells, Splice;
    ContentsOfCells(text, 0);
    SpliceContents(cells, from, to, InjectedCells(text));
  }

  lemma ApplyCellsContents(edit: Edit, cells: seq<Cell>, taken: nat)
    requires Applies(edit, Contents(cells))
    ensures Contents(ApplyCells(edit, cells, taken)) == Apply(edit, Contents(cells))
  {
    assert |Contents(cells)| == |cells|;
    hide Contents, InjectedCells, ChildCells, StripCells, WithoutCursorRequests, Flat, Splice;
    if edit.Append? {
      AppendContents(cells, edit.marker, edit.chunk, taken);
    } else if edit.Strip? {
      StripContents(cells, edit.at, edit.line);
    } else {
      ReportContents(cells, edit.at, edit.at + |Flat(edit.run)|, edit.text);
    }
  }

  /** The replayed stream with the origin of every byte. */
  function ReplayCells(log: Log): (cells: seq<Cell>)
    requires Valid(log)
    ensures Contents(cells) == Replay(log)
  {
    if log.Empty? then []
    else
      var before := ReplayCells(log.before);
      ApplyCellsContents(log.edit, before, |Child(log.before)|);
      ApplyCells(log.edit, before, |Child(log.before)|)
  }

  lemma {:induction false} StripCellsContents(cells: seq<Cell>)
    ensures Contents(StripCells(cells)) == WithoutCursorRequests(Contents(cells))
    decreases |cells|
  {
    var s := Contents(cells);
    if |cells| >= 4 {
      assert s[..4] == Contents(cells[..4]);
      if s[..4] == CURSOR_REQUEST {
        StripCellsContents(cells[4..]);
        assert s[4..] == Contents(cells[4..]);
      } else {
        StripCellsContents(cells[1..]);
        assert s[1..] == Contents(cells[1..]);
        assert Contents([cells[0]] + StripCells(cells[1..])) == [s[0]] + Contents(StripCells(cells[1..]));
      }
    }
  }

  /** The child bytes in `cells` stand at increasing positions of `child`, none before `lo`, unaltered. */
  predicate Faithful(cells: seq<Cell>, lo: nat, child: seq<byte>) {
    cells == [] ||
    match cells[0]
    case Injected(_) => Faithful(cells[1..], lo, child)
    case FromChild(pos, b) => lo <= pos < |child| && child[pos] == b && Faithful(cells[1..], pos + 1, child)
  }

  /** First position of the child's output that may follow `cells`. */
  function Bound(cells: seq<Cell>, lo: nat): nat {
    if cells == [] then lo
    else Bound(cells[1..], if cells[0].FromChild? then cells[0].pos + 1 else lo)
  }

  lemma {:induction false} FaithfulConcat(a: seq<Cell>, b: seq<Cell>, lo: nat, child: seq<byte>)
    ensures Faithful(a + b, lo, child) <==> Faithful(a, lo, child) && Faithful(b, Bound(a, lo), child)
    ensures Bound(a + b, lo) == Bound(b, Bound(a, lo))
    decreases |a|
  {
    if a == [] {
      assert a + b == b;
    } else {
      assert (a + b)[1..] == a[1..] + b;
      FaithfulConcat(a[1..], b, if a[0].FromChild? then a[0].pos + 1 else lo, child);
    }
  }

  /** A lower starting point and a longer child output leave a faithful stretch faithful. */
  lemma {:induction false} FaithfulWeaken(cells: seq<Cell>, lo: nat, child: seq<byte>, lower: nat, more: seq<byte>)
    requires Faithful(cells, lo, child) && lower <= lo
    ensures Faithful(cells, lower, child + more) && lower <= Bound(cells, lower) <= Bound(cells, lo)
    ensures lo <= |child| ==> Bound(cells, lo) <= |child|
    decreases |cells|
  {
    if cells != [] {
      var next := if cells[0].FromChild? then cells[0].pos + 1 else lo;
      FaithfulWeaken(cells[1..], next, child, if cells[0].FromChild? then next else lower, more);
    }
  }

  lemma {:induction false} InjectedFaithful(text: seq<byte>, lo: nat, child: seq<byte>)
    ensures Faithful(InjectedCells(text), lo, child) && Bound(InjectedCells(text), lo) == lo
    decreases |text|
  {
    if text != [] {
      assert InjectedCells(text)[1..] == InjectedCells(text[1..]);
      InjectedFaithful(text[1..], lo, child);
    }
  }

  lemma {:induction false} ChunkFaithful(chunk: seq<byte>, child: seq<byte>, more: seq<byte>)
    ensures Faithful(ChildCells(|child|, chunk), |child|, child + chunk + more)
    decreases |chunk|
  {
    if chunk != [] {
      assert ChildCells(|child|, chunk)[1..] == ChildCells(|child| + 1, chunk[1..]);
      ChunkFaithful(chunk[1..], child + [chunk[0]], more);
      assert child + [chunk[0]] + chunk[1..] + more == child + chunk + more;
    }
  }

  /** A stretch goes, and what follows is replaced by something faithful that ends no later. */
  lemma SkipFaithful(pre: seq<Cell>, post: seq<Cell>, kept: seq<Cell>, lo: nat, child: seq<byte>)
    requires Faithful(pre + post, lo, child)
    requires Faithful(post, Bound(pre, lo), child) ==>
      Faithful(kept, Bound(pre, lo), child) && Bound(kept, Bound(pre, lo)) <= Bound(post, Bound(pre, lo))
    ensures Faithful(kept, lo, child) && Bound(kept, lo) <= Bound(pre + post, lo)
  {
    hide Faithful, Bound;
    assert child + [] == child;
    FaithfulConcat(pre, post, lo, child);
    FaithfulWeaken(pre, lo, child, lo, []);
    FaithfulWeaken(kept, Bound(pre, lo), child, lo, []);
  }

  /** A cell stays, and what follows is replaced by something faithful that ends no later. */
  lemma KeepFaithful(cell: Cell, post: seq<Cell>, kept: seq<Cell>, lo: nat, child: seq<byte>)
    requires Faithful([cell] + post, lo, child)
    requires
      var next := if cell.FromChild? then cell.pos + 1 else lo;
      Faithful(post, next, child) ==> Faithful(kept, next, child) && Bound(kept, next) <= Bound(post, next)
    ensures Faithful([cell] + kept, lo, child) && Bound([cell] + kept, lo) <= Bound([cell] + post, lo)
  {
    assert ([cell] + post)[1..] == post && ([cell] + kept)[1..] == kept;
  }

  lemma {:induction false} StripFaithful(cells: seq<Cell>, lo: nat, child: seq<byte>)
    requires Faithful(cells, lo, child)
    ensures Faithful(StripCells(cells), lo, child) && Bound(StripCells(cells), lo) <= Bound(cells, lo)
    decreases |cells|
  {
    hide Faithful, Bound, Contents;
    if |cells| >= 4 {
      if Contents(cells[..4]) == CURSOR_REQUEST {
        var mid := Bound(cells[..4], lo);
        if Faithful(cells[4..], mid, child) {
          StripFaithful(cells[4..], mid, child);
        }
        assert cells == cells[..4] + cells[4..];
        SkipFaithful(cells[..4], cells[4..], StripCells(cells[4..]), lo, child);
      } else {
        var next := if cells[0].FromChild? then cells[0].pos + 1 else lo;
        if Faithful(cells[1..], next, child) {
          StripFaithful(cells[1..], next, child);
        }
        assert cells == [cells[0]] + cells[1..];
        KeepFaithful(cells[0], cells[1..], StripCells(cells[1..]), lo, child);
      }
    }
  }

  /** Replacing a stretch by a faithful one that ends no later keeps the whole faithful. */
  lemma SpliceFaithful(cells: seq<Cell>, from: nat, to: nat, mid: seq<Cell>, child: seq<byte>)
    requires from <= to <= |cells|
    requires Faithful(cells, 0, child)
    requires Faithful(mid, Bound(cells[..from], 0), child)
    requires Bound(mid, Bound(cells[..from], 0)) <= Bound(cells[from..to], Bound(cells[..from], 0))
    ensures Faithful(Splice(cells, from, to, mid), 0, child)
  {
    var pre, hit, post := cells[..from], cells[from..to], cells[to..];
    assert cells == (pre + hit) + post;
    FaithfulConcat(pre + hit, post, 0, child);
    FaithfulConcat(pre, hit, 0, child);
    FaithfulConcat(pre, mid, 0, child);
    FaithfulConcat(pre + mid, post, 0, child);
    FaithfulWeaken(post, Bound(hit, Bound(pre, 0)), child, Bound(mid, Bound(pre, 0)), []);
    assert child + [] == child;
  }

  lemma AppendFaithful(cells: seq<Cell>, marker: seq<byte>, chunk: seq<byte>, child: seq<byte>)
    requires Faithful(cells, 0, child)
    ensures Faithful(cells + InjectedCells(marker) + ChildCells(|child|, chunk), 0, child + chunk)
  {
    var head, tail, all := cells + InjectedCells(marker), ChildCells(|child|, chunk), child + chunk;
    FaithfulWeaken(cells, 0, child, 0, chunk);
    InjectedFaithful(marker, Bound(cells, 0), all);
    FaithfulConcat(cells, InjectedCells(marker), 0, all);
    assert Bound(head, 0) <= |child|;
    ChunkFaithful(chunk, child, []);
    assert child + chunk + [] == all;
    FaithfulWeaken(tail, |child|, all, Bound(head, 0), []);
    assert all + [] == all;
    FaithfulConcat(head, tail, 0, all);
  }

  lemma StretchFaithful(cells: seq<Cell>, from: nat, to: nat, child: seq<byte>)
    requires from <= to <= |cells|
    requires Faithful(cells, 0, child)
    ensures Faithful(cells[from..to], Bound(cells[..from], 0), child)
    ensures Bound(cells[..from], 0) <= Bound(cells[from..to], Bound(cells[..from], 0))
  {
    assert cells == cells[..from] + (cells[from..to] + cells[to..]);
    FaithfulConcat(cells[..from], cells[from..to] + cells[to..], 0, child);
    FaithfulConcat(cells[from..to], cells[to..], Bound(cells[..from], 0), child);
    FaithfulWeaken(cells[from..to], Bound(cells[..from], 0), child, Bound(cells[..from], 0), []);
  }

  lemma StripAtFaithful(cells: seq<Cell>, from: nat, to: nat, child: seq<byte>)
    requires from <= to <= |cells|
    requires Faithful(cells, 0, child)
    ensures Faithful(Splice(cells, from, to, StripCells(cells[from..to])), 0, child)
  {
    StretchFaithful(cells, from, to, child);
    StripFaithful(cells[from..to], Bound(cells[..from], 0), child);
    SpliceFaithful(cells, from, to, StripCells(cells[from..to]), child);
  }

  lemma ReportAtFaithful(cells: seq<Cell>, from: nat, to: nat, text: seq<byte>, child: seq<byte>)
    requires from <= to <= |cells|
    requires Faithful(cells, 0, child)
    ensures Faithful(Splice(cells, from, to, InjectedCells(text)), 0, child)
  {
    StretchFaithful(cells, from, to, child);
    InjectedFaithful(text, Bound(cells[..from], 0), child);
    SpliceFaithful(cells, from, to, InjectedCells(text), child);
  }

  lemma EditFaithful(edit: Edit, cells: seq<Cell>, child: seq<byte>)
    requires Applies(edit, Contents(cells)) && Faithful(cells, 0, child)
    ensures |Contents(cells)| == |cells|
    ensures Faithful(ApplyCells(edit, cells, |child|), 0, child + if edit.Append? then edit.chunk else [])
  {
    hide Faithful, StripCells, Flat;
    assert child + [] == child;
    match edit {
      case Append(marker, chunk) => AppendFaithful(cells, marker, chunk, child);
      case Strip(at, line) => StripAtFaithful(cells, at, at + |line|, child);
      case Report(at, run, _, _, text) => ReportAtFaithful(cells, at, at + |Flat(run)|, text, child);
    }
  }

  /**
   The stream is the child's output with runs removed and text injected: nothing
   is reordered, nothing is duplicated, nothing is altered.
   */
  lemma {:induction false} ReplayFaithful(log: Log)
    requires Valid(log)
    ensures Faithful(ReplayCells(log), 0, Child(log))
  {
    if log.Then? {
      hide Faithful, ApplyCells, Apply;
      ReplayFaithful(log.before);
      EditFaithful(log.edit, ReplayCells(log.before), Child(log.before));
    }
  }

  /** What faithfulness says of any two bytes of the stream. */
  lemma {:induction false} FaithfulMeansInOrder(cells: seq<Cell>, lo: nat, child: seq<byte>, i: nat, j: nat)
    requires Faithful(cells, lo, child) && i < j < |cells| && cells[i].FromChild? && cells[j].FromChild?
    ensures lo <= cells[i].pos < cells[j].pos < |child| && cells[i].b == child[cells[i].pos]
    decreases |cells|
  {
    var next := if cells[0].FromChild? then cells[0].pos + 1 else lo;
    if i > 0 {
      FaithfulMeansInOrder(cells[1..], next, child, i - 1, j - 1);
    } else {
      FaithfulAt(cells[1..], next, child, j - 1);
    }
  }

  lemma {:induction false} FaithfulAt(cells: seq<Cell>, lo: nat, child: seq<byte>, j: nat)
    requires Faithful(cells, lo, child) && j < |cells| && cells[j].FromChild?
    ensures lo <= cells[j].pos < |child| && cells[j].b == child[cells[j].pos]
    decreases |cells|
  {
    if j > 0 {
      FaithfulAt(cells[1..], if cells[0].FromChild? then cells[0].pos + 1 else lo, child, j - 1);
    }
  }
}
