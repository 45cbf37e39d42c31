/**
 One turn of the token's owner, left undisturbed.

 What becomes of one chunk when nothing changes around the reader while it handles it, and
 what a flush passes on when only the writer works beside it: told by the bytes that go on
 and the bytes that stay, without the statements in between.
 */
module OutputTurns {
  import opened Bytes
  import opened Options
  import opened OutputLog
  import opened OutputCache
  import opened OutputForwarder
  import opened OutputForwarderProofs
  import opened OutputForwarderSafety

  // ------------------------------------------------------------------- one chunk

  /** Statements left in `handleBuffer` at most. */
  function Rank(h: Handle): nat {
    match h
    case InjectMarker(_) => 10
    case DiscardCached(_) => 9
    case CacheWhenAway(_) => 8
    case CacheWhenCached(_) => 7
    case SplitWhenAway(_) => 6
    case Send(at, _, _) => if at.Try? then 5 else if at.Full? then 4 else 3
    case TakeBack(_, _) => 3
    case Enqueue(at, _, _, _, _) => if at.Try? then 2 else 1
    case CacheRest(_) => 1
  }

  predicate Goes(pc: Pc) {
    pc.Handling? && !IsParked(pc)
  }

  lemma StepLowers(sh: Shared, t: Tid, pc: Pc, c: Choice)
    requires Goes(pc)
    ensures Goes(ThreadStep(sh, t, pc, c).1) ==> Rank(ThreadStep(sh, t, pc, c).1.h) < Rank(pc.h)
  {
    hide IndexByte, CacheIn, Clear;
  }

  /** The thread goes on, the same answers given throughout, until it is through with the chunk or has to wait. */
  function Turn(sh: Shared, t: Tid, pc: Pc, c: Choice): (Shared, Pc)
    decreases if Goes(pc) then Rank(pc.h) + 1 else 0
  {
    if Goes(pc) then
      StepLowers(sh, t, pc, c);
      var r := ThreadStep(sh, t, pc, c);
      Turn(r.0, t, r.1, c)
    else (sh, pc)
  }

  /** What is held back: dropped and unreported, then cached. */
  function HeldBack(p: Pipe): seq<byte> {
    Flat(p.dropped) + Flat(p.cache.lines)
  }

  /** A stream up to its first newline, or all of it. */
  function UpToNewline(s: seq<byte>): seq<byte> {
    var pos := IndexByte(s, LF);
    if pos < 0 then s else s[..pos + 1]
  }

  lemma CacheInHolds(p: Pipe, buf: seq<byte>, rows: int)
    ensures HeldBack(CacheIn(p, buf, rows)) == HeldBack(p) + buf
    ensures
      var p' := CacheIn(p, buf, rows);
      p' == p.(cache := p'.cache, dropped := p'.dropped) && p'.cache.hasNewLine == p.cache.hasNewLine
      && p'.cache.noNewLineCount == p.cache.noNewLineCount
  {
    var run := DroppedBy(p.cache, buf, rows);
    hide Cached, DroppedBy;
    FlatConcat(p.dropped, run);
    var c' := Cached(p.cache, buf, rows);
    assert Flat(p.dropped) + Flat(run) + Flat(c'.lines) == Flat(p.dropped) + (Flat(run) + Flat(c'.lines));
    assert Flat(p.dropped) + (Flat(p.cache.lines) + buf) == HeldBack(p) + buf;
  }

  lemma OneStep(sh: Shared, t: Tid, pc: Pc, c: Choice)
    requires Goes(pc)
    ensures
      var r := ThreadStep(sh, t, pc, c);
      Turn(sh, t, pc, c) == Turn(r.0, t, r.1, c)
  {
  }

  lemma TurnOver(sh: Shared, t: Tid, pc: Pc, c: Choice)
    requires !Goes(pc)
    ensures Turn(sh, t, pc, c) == (sh, pc)
  {
  }

  // Away: the client is gone and the server does not keep pending output for it.

  predicate Away(sh: Shared, c: Choice) {
    sh.env.timedOut && !c.keep
  }

  /** Everything is held back: a newline was passed already, lines are cached, or there was patience enough. */
  predicate HoldsBack(cache: Cache, buf: seq<byte>) {
    cache.hasNewLine || cache.lines != [] || (IndexByte(buf, LF) < 0 && cache.noNewLineCount >= 3)
  }

  /** Only what is cached and counted differs. */
  predicate OnlyPipe(sh: Shared, sh': Shared) {
    sh' == sh.(pipe := sh'.pipe) && sh'.pipe.writer == sh.pipe.writer && sh'.pipe.written == sh.pipe.written
    && sh'.pipe.log == sh.pipe.log
  }

  lemma HeldTurn(sh: Shared, t: Tid, buf: seq<byte>, c: Choice)
    requires Away(sh, c) && HoldsBack(sh.pipe.cache, buf)
    ensures
      var (sh', pc') := Turn(sh, t, Handling(CacheWhenAway(buf)), c);
      var p, p' := sh.pipe, sh'.pipe;
      && OnlyPipe(sh, sh') && p'.slot == p.slot && HeldBack(p') == HeldBack(p) + buf
      && pc' == (if !p.cache.hasNewLine && p.cache.lines != [] then Flushing(Test, ThenEnd(Resume)) else DONE)
      && (p'.cache.hasNewLine <==> p.cache.hasNewLine || p.cache.lines == [])
      && p'.cache.noNewLineCount == p.cache.noNewLineCount
  {
    hide Turn, CacheIn, HeldBack, IndexByte;
    var p, rows := sh.pipe, sh.env.rows;
    var pc := Handling(CacheWhenAway(buf));
    OneStep(sh, t, pc, c);
    CacheInHolds(p, buf, rows);
    if p.cache.hasNewLine {
      TurnOver(sh.(pipe := CacheIn(p, buf, rows)), t, DONE, c);
    } else {
      OneStep(sh, t, Handling(CacheWhenCached(buf)), c);
      if p.cache.lines != [] {
        TurnOver(sh.(pipe := CacheIn(p, buf, rows)), t, Flushing(Test, ThenEnd(Resume)), c);
      } else {
        OneStep(sh, t, Handling(SplitWhenAway(buf)), c);
        CacheInHolds(HasNewLine(p), buf, rows);
        SameHeld(p, HasNewLine(p));
        TurnOver(sh.(pipe := CacheIn(HasNewLine(p), buf, rows)), t, DONE, c);
      }
    }
  }

  lemma SameHeld(p: Pipe, p': Pipe)
    requires p'.dropped == p.dropped && p'.cache.lines == p.cache.lines
    ensures HeldBack(p') == HeldBack(p)
  {
  }

  /** The first statements of a chunk that is not all held back lead to the send loop. */
  lemma ToSend(sh: Shared, t: Tid, buf: seq<byte>, c: Choice)
    requires Away(sh, c) && !HoldsBack(sh.pipe.cache, buf)
    ensures
      var first := UpToNewline(buf);
      var p := if IndexByte(buf, LF) >= 0 then HasNewLine(sh.pipe) else CountNoNewLine(sh.pipe);
      first <= buf
      && Turn(sh, t, Handling(CacheWhenAway(buf)), c)
         == Turn(sh.(pipe := p), t, Handling(Send(Try, first, buf[|first|..])), c)
  {
    hide Turn, IndexByte;
    OneStep(sh, t, Handling(CacheWhenAway(buf)), c);
    OneStep(sh, t, Handling(CacheWhenCached(buf)), c);
    OneStep(sh, t, Handling(SplitWhenAway(buf)), c);
    assert buf[|buf|..] == [];
  }

  /** Away with the queue free, a piece is queued and the rest is held back. */
  lemma SentTurn(sh: Shared, t: Tid, buf: seq<byte>, rest: seq<byte>, c: Choice)
    requires sh.pipe.slot.None?
    ensures
      var (sh', pc') := Turn(sh, t, Handling(Send(Try, buf, rest)), c);
      var p, p' := sh.pipe, sh'.pipe;
      && OnlyPipe(sh, sh') && p'.slot == Some(buf) && HeldBack(p') == HeldBack(p) + rest && pc' == DONE
      && p'.cache.hasNewLine == p.cache.hasNewLine && p'.cache.noNewLineCount == p.cache.noNewLineCount
      && (rest == [] ==> p'.cache == p.cache && p'.dropped == p.dropped)
  {
    hide Turn, CacheIn, HeldBack, IndexByte;
    OneStep(sh, t, Handling(Send(Try, buf, rest)), c);
    RestTurn(sh.(pipe := sh.pipe.(slot := Some(buf))), t, rest, c);
    SameHeld(sh.pipe, sh.pipe.(slot := Some(buf)));
  }

  lemma RestTurn(sh: Shared, t: Tid, rest: seq<byte>, c: Choice)
    ensures
      var (sh', pc') := Turn(sh, t, Handling(CacheRest(rest)), c);
      var p, p' := sh.pipe, sh'.pipe;
      && OnlyPipe(sh, sh') && p'.slot == p.slot && HeldBack(p') == HeldBack(p) + rest && pc' == DONE
      && p'.cache.hasNewLine == p.cache.hasNewLine && p'.cache.noNewLineCount == p.cache.noNewLineCount
      && (rest == [] ==> p' == p)
  {
    hide Turn, CacheIn, HeldBack, IndexByte;
    OneStep(sh, t, Handling(CacheRest(rest)), c);
    CacheInHolds(sh.pipe, rest, sh.env.rows);
    assert HeldBack(sh.pipe) + [] == HeldBack(sh.pipe);
    TurnOver(ThreadStep(sh, t, Handling(CacheRest(rest)), c).0, t, DONE, c);
  }

  /** Away with the queue taken, what is queued is taken back, and the joined bytes are cut at their first newline. */
  lemma JoinedTurn(sh: Shared, t: Tid, buf: seq<byte>, rest: seq<byte>, c: Choice)
    requires Away(sh, c) && sh.pipe.slot.Some?
    ensures
      var (sh', pc') := Turn(sh, t, Handling(Send(Try, buf, rest)), c);
      var p, p' := sh.pipe, sh'.pipe;
      var all := Queued(p) + buf;
      var first := UpToNewline(all);
      && first <= all
      && OnlyPipe(sh, sh') && p'.slot == Some(first) && pc' == DONE
      && HeldBack(p') == HeldBack(p) + all[|first|..] + rest
      && p'.cache.noNewLineCount ==
           p.cache.noNewLineCount + (if IndexByte(all, LF) < 0 && p.cache.noNewLineCount < 3 then 1 else 0)
      && (p'.cache.hasNewLine <==> p.cache.hasNewLine || IndexByte(all, LF) >= 0 || p.cache.noNewLineCount >= 3)
  {
    hide Turn, CacheIn, HeldBack, IndexByte;
    var all := Queued(sh.pipe) + buf;
    OneStep(sh, t, Handling(Send(Try, buf, rest)), c);
    OneStep(sh, t, Handling(Send(Full, buf, rest)), c);
    OneStep(sh, t, Handling(TakeBack(buf, rest)), c);
    var empty := sh.(pipe := sh.pipe.(slot := None));
    var first := UpToNewline(all);
    var left := all[|first|..];
    var count := IndexByte(all, LF) < 0 && sh.pipe.cache.noNewLineCount < 3;
    assert all[|all|..] == [];
    SameHeld(sh.pipe, empty.pipe);
    EnqueuedTurn(empty, t, first, left, count, rest, c);
  }

  lemma EnqueuedTurn(sh: Shared, t: Tid, buf: seq<byte>, left: seq<byte>, count: bool, rest: seq<byte>, c: Choice)
    requires sh.pipe.slot.None? && (count ==> left == [])
    ensures
      var (sh', pc') := Turn(sh, t, Handling(Enqueue(Try, buf, left, count, rest)), c);
      var p, p' := sh.pipe, sh'.pipe;
      && OnlyPipe(sh, sh') && p'.slot == Some(buf) && HeldBack(p') == HeldBack(p) + left + rest && pc' == DONE
      && (p'.cache.hasNewLine <==> p.cache.hasNewLine || !count)
      && p'.cache.noNewLineCount == p.cache.noNewLineCount + (if count then 1 else 0)
  {
    hide Turn, CacheIn, HeldBack, IndexByte;
    var sent := sh.pipe.(slot := Some(buf));
    SameHeld(sh.pipe, sent);
    OneStep(sh, t, Handling(Enqueue(Try, buf, left, count, rest)), c);
    assert HeldBack(sent) + [] == HeldBack(sent);
    if count {
      SameHeld(sent, CountNoNewLine(sent));
      RestTurn(sh.(pipe := CountNoNewLine(sent)), t, rest, c);
    } else {
      CacheInHolds(sent, left, sh.env.rows);
      var cached := if left != [] then CacheIn(sent, left, sh.env.rows) else sent;
      SameHeld(cached, HasNewLine(cached));
      RestTurn(sh.(pipe := HasNewLine(cached)), t, rest, c);
    }
  }

  /** What is queued joined with a chunk, cut at the first newline: in one piece, or the chunk first. */
  lemma CutOnce(q: seq<byte>, buf: seq<byte>)
    ensures
      var part := UpToNewline(buf);
      var first := UpToNewline(q + part);
      && part <= buf && first <= q + part && first == UpToNewline(q + buf) <= q + buf
      && (q + part)[|first|..] + buf[|part|..] == (q + buf)[|first|..]
      && (IndexByte(q + part, LF) >= 0 <==> IndexByte(q + buf, LF) >= 0)
  {
    var part := UpToNewline(buf);
    IndexByteIsFirst(buf, LF);
    IndexByteIsFirst(q + part, LF);
    IndexByteIsFirst(q + buf, LF);
    hide IndexByte;
    assert forall i :: 0 <= i < |q + part| ==> (q + part)[i] == (q + buf)[i];
    var i, j := IndexByte(q + part, LF), IndexByte(q + buf, LF);
    assert IndexByte(buf, LF) >= 0 ==> (q + part)[|q| + IndexByte(buf, LF)] == LF;
    if i >= 0 {
      assert (q + buf)[i] == LF;
      assert j == i;
    } else {
      assert LF !in q + part;
      assert part == buf;
    }
  }

  /** Patience left after a chunk without a newline: three such chunks pass, then the next is held back. */
  function Waited(cache: Cache, queued: Option<seq<byte>>, buf: seq<byte>): nat {
    var once := cache.noNewLineCount + if IndexByte(buf, LF) < 0 then 1 else 0;
    if queued.Some? && IndexByte(queued.value + buf, LF) < 0 && once < 3 then once + 1 else once
  }

  /** The outcome of a chunk of which the queue takes what comes up to the first newline. */
  predicate Passes(p: Pipe, buf: seq<byte>, p': Pipe) {
    var all := Queued(p) + buf;
    && UpToNewline(all) <= all && p'.slot == Some(UpToNewline(all))
    && HeldBack(p') == HeldBack(p) + all[|UpToNewline(all)|..]
    && (p'.cache.hasNewLine <==> IndexByte(all, LF) >= 0 || (p.slot.Some? && p.cache.noNewLineCount >= 2))
    && p'.cache.noNewLineCount == Waited(p.cache, p.slot, buf)
  }

  lemma PassedFree(sh: Shared, t: Tid, buf: seq<byte>, c: Choice)
    requires Away(sh, c) && !HoldsBack(sh.pipe.cache, buf) && sh.pipe.slot.None?
    ensures
      var (sh', pc') := Turn(sh, t, Handling(CacheWhenAway(buf)), c);
      OnlyPipe(sh, sh') && pc' == DONE && Passes(sh.pipe, buf, sh'.pipe)
  {
    hide Turn, HeldBack, IndexByte, UpToNewline;
    var p := sh.pipe;
    var part := UpToNewline(buf);
    ToSend(sh, t, buf, c);
    assert Queued(p) + buf == buf;
    var p1 := if IndexByte(buf, LF) >= 0 then HasNewLine(p) else CountNoNewLine(p);
    SameHeld(p, p1);
    SentTurn(sh.(pipe := p1), t, part, buf[|part|..], c);
  }

  lemma PassedJoined(sh: Shared, t: Tid, buf: seq<byte>, c: Choice)
    requires Away(sh, c) && !HoldsBack(sh.pipe.cache, buf) && sh.pipe.slot.Some?
    ensures
      var (sh', pc') := Turn(sh, t, Handling(CacheWhenAway(buf)), c);
      OnlyPipe(sh, sh') && pc' == DONE && Passes(sh.pipe, buf, sh'.pipe)
  {
    hide Turn, HeldBack, IndexByte, UpToNewline;
    var p := sh.pipe;
    var q, part := Queued(p), UpToNewline(buf);
    ToSend(sh, t, buf, c);
    CutOnce(q, buf);
    PartHasNewline(q, buf);
    var p1 := if IndexByte(buf, LF) >= 0 then HasNewLine(p) else CountNoNewLine(p);
    SameHeld(p, p1);
    JoinedTurn(sh.(pipe := p1), t, part, buf[|part|..], c);
    var left, rest := (q + part)[|UpToNewline(q + part)|..], buf[|part|..];
    assert HeldBack(p) + left + rest == HeldBack(p) + (left + rest);
  }

  lemma PartHasNewline(q: seq<byte>, buf: seq<byte>)
    ensures IndexByte(buf, LF) >= 0 ==> IndexByte(q + buf, LF) >= 0
  {
    IndexByteIsFirst(buf, LF);
    IndexByteIsFirst(q + buf, LF);
    if IndexByte(buf, LF) >= 0 {
      assert (q + buf)[|q| + IndexByte(buf, LF)] == LF;
    }
  }

  /**
   One chunk while the client is away: the child is never made to wait.  Either everything is
   held back behind what is held already, or the queue ends with the first newline of what it
   held and the chunk together, and what follows that newline is held back.
   */
  lemma AwayTurn(sh: Shared, t: Tid, buf: seq<byte>, c: Choice)
    requires Away(sh, c)
    ensures
      var (sh', pc') := Turn(sh, t, Handling(CacheWhenAway(buf)), c);
      var p, p' := sh.pipe, sh'.pipe;
      && OnlyPipe(sh, sh') && (pc' == DONE || pc' == Flushing(Test, ThenEnd(Resume)))
      && if HoldsBack(p.cache, buf) then
           && p'.slot == p.slot && HeldBack(p') == HeldBack(p) + buf
           && (p'.cache.hasNewLine <==> p.cache.hasNewLine || p.cache.lines == [])
         else
           Passes(p, buf, p')
  {
    hide Turn, HeldBack, IndexByte, Passes;
    if HoldsBack(sh.pipe.cache, buf) {
      HeldTurn(sh, t, buf, c);
    } else if sh.pipe.slot.None? {
      PassedFree(sh, t, buf, c);
    } else {
      PassedJoined(sh, t, buf, c);
    }
  }

  /**
   One chunk while the client is there, or its output is kept for it: behind cached lines it is
   cached and a flush follows; otherwise it is queued whole, or waits for the queue with
   nothing changed, or is given up when nobody will take it any more.
   */
  lemma PresentTurn(sh: Shared, t: Tid, buf: seq<byte>, c: Choice)
    requires !Away(sh, c)
    ensures
      var (sh', pc') := Turn(sh, t, Handling(CacheWhenAway(buf)), c);
      var p, p' := sh.pipe, sh'.pipe;
      if p.cache.lines != [] then
        OnlyPipe(sh, sh') && p'.slot == p.slot && HeldBack(p') == HeldBack(p) + buf
        && pc' == Flushing(Test, ThenEnd(Resume))
      else if p.slot.None? then sh' == sh.(pipe := p.(slot := Some(buf))) && pc' == DONE
      else if sh.env.timedOut then sh' == Unlocked(sh) && pc' == Handling(Send(Awaiting, buf, []))
      else if sh.phase.returned || sh.past.writeError then sh' == sh && pc' == DONE
      else sh' == Unlocked(sh) && pc' == Handling(Send(Asleep, buf, []))
  {
    hide Turn, CacheIn, HeldBack, IndexByte;
    OneStep(sh, t, Handling(CacheWhenAway(buf)), c);
    OneStep(sh, t, Handling(CacheWhenCached(buf)), c);
    if sh.pipe.cache.lines != [] {
      CacheInHolds(sh.pipe, buf, sh.env.rows);
      TurnOver(sh.(pipe := CacheIn(sh.pipe, buf, sh.env.rows)), t, Flushing(Test, ThenEnd(Resume)), c);
    } else {
      OneStep(sh, t, Handling(SplitWhenAway(buf)), c);
      if sh.pipe.slot.None? {
        SentTurn(sh, t, buf, [], c);
      } else {
        WaitingTurn(sh, t, buf, c);
      }
    }
  }

  lemma WaitingTurn(sh: Shared, t: Tid, buf: seq<byte>, c: Choice)
    requires !Away(sh, c) && sh.pipe.slot.Some?
    ensures Turn(sh, t, Handling(Send(Try, buf, [])), c) ==
      if sh.env.timedOut then (Unlocked(sh), Handling(Send(Awaiting, buf, [])))
      else if sh.phase.returned || sh.past.writeError then (sh, DONE)
      else (Unlocked(sh), Handling(Send(Asleep, buf, [])))
  {
    hide Turn;
    OneStep(sh, t, Handling(Send(Try, buf, [])), c);
    OneStep(sh, t, Handling(Send(Full, buf, [])), c);
    if sh.env.timedOut {
      TurnOver(Unlocked(sh), t, Handling(Send(Awaiting, buf, [])), c);
    } else {
      OneStep(sh, t, Handling(Send(Stuck, buf, [])), c);
      TurnOver(sh, t, DONE, c);
      TurnOver(Unlocked(sh), t, Handling(Send(Asleep, buf, [])), c);
    }
  }

  /** What the reader goes on with: the marker asked for, if any, in front of the chunk. */
  function Marked(env: Env, chunk: seq<byte>): seq<byte> {
    (if env.discardMarker.Some? then env.discardMarker.value else []) + chunk
  }

  /** The state once the marker and the discard flag were looked at. */
  function Begun(sh: Shared, chunk: seq<byte>, c: Choice): Shared {
    HandleStep(HandleStep(sh, InjectMarker(chunk), c).0, DiscardCached(Marked(sh.env, chunk)), c).0
  }

  /**
   Every chunk begins the same way: both requests are taken back, and if there was one,
   nothing is held back any more; the queue and the writer are left alone.
   */
  lemma ChunkBegins(sh: Shared, t: Tid, chunk: seq<byte>, c: Choice)
    ensures
      var sh' := Begun(sh, chunk, c);
      var p, p' := sh.pipe, sh'.pipe;
      && Turn(sh, t, Handling(InjectMarker(chunk)), c)
         == Turn(sh', t, Handling(CacheWhenAway(Marked(sh.env, chunk))), c)
      && sh' == sh.(pipe := p', env := sh.env.(discardMarker := None, discardOutput := false))
      && p'.slot == p.slot && p'.writer == p.writer && p'.written == p.written
      && if sh.env.discardMarker.Some? || sh.env.discardOutput then
           HeldBack(p') == [] && p'.cache == Cleared(p.cache)
         else p'.cache == p.cache && p'.dropped == p.dropped
  {
    hide Turn, Cleared;
    var buf := Marked(sh.env, chunk);
    assert [] + chunk == chunk;
    OneStep(sh, t, Handling(InjectMarker(chunk)), c);
    var sh1 := HandleStep(sh, InjectMarker(chunk), c).0;
    OneStep(sh1, t, Handling(DiscardCached(buf)), c);
    NothingCleared(sh.pipe.cache);
  }

  lemma NothingCleared(cache: Cache)
    ensures Cleared(cache).lines == [] && Flat([]) == []
  {
  }

  /** The state once the writer has drained the queue and the reader has handled one chunk after another. */
  function Handled(sh: Shared, t: Tid, chunks: seq<seq<byte>>, c: Choice): Shared {
    if chunks == [] then sh
    else
      var before := Handled(sh, t, chunks[..|chunks| - 1], c);
      Turn(before.(pipe := Drained(before.pipe)), t, Handling(CacheWhenAway(chunks[|chunks| - 1])), c).0
  }

  /** Nothing is held back, and nothing was passed on since the client went away. */
  predicate IsFresh(p: Pipe) {
    p.cache.lines == [] && p.dropped == [] && !p.cache.hasNewLine && p.cache.noNewLineCount == 0
  }

  /** So every run starts, good. */
  lemma StartsFresh(timedOut: bool, rows: int)
    ensures IsFresh(Init(timedOut, rows).sh.pipe) && Good(Init(timedOut, rows).sh)
  {
  }

  predicate NewlineFree(chunks: seq<seq<byte>>) {
    forall i :: 0 <= i < |chunks| ==> IndexByte(chunks[i], LF) < 0
  }

  /**
   Of chunks without a newline, as a progress bar makes them, the first three pass while the
   client is away, and the others are held back.
   */
  lemma {:induction false} ThreeChunksPass(sh: Shared, t: Tid, chunks: seq<seq<byte>>, c: Choice)
    requires Away(sh, c) && IsFresh(sh.pipe) && NewlineFree(chunks)
    ensures Handled(sh, t, chunks, c).env == sh.env && Patient(sh.pipe, chunks, Handled(sh, t, chunks, c).pipe)
  {
    var n := |chunks|;
    if n == 0 {
      assert PassedOn(sh.pipe) + [] == PassedOn(sh.pipe);
    } else {
      var earlier := chunks[..n - 1];
      ThreeChunksPass(sh, t, earlier, c);
      hide Turn, IndexByte, Patient;
      var before := Handled(sh, t, earlier, c);
      OneMoreChunk(sh.pipe, chunks, before, t, c);
    }
  }

  /** The first three chunks are passed on, the others held back. */
  predicate Patient(p: Pipe, chunks: seq<seq<byte>>, p': Pipe) {
    var n := |chunks|;
    if n <= 3 then
      && p'.cache.lines == [] && p'.dropped == [] && !p'.cache.hasNewLine && p'.cache.noNewLineCount == n
      && PassedOn(p') == PassedOn(p) + Flat(chunks)
    else
      && p'.cache.hasNewLine && PassedOn(p') == PassedOn(p) + Flat(chunks[..3])
      && HeldBack(p') == Flat(chunks[3..])
  }

  lemma OneMoreChunk(p: Pipe, chunks: seq<seq<byte>>, before: Shared, t: Tid, c: Choice)
    requires Away(before, c) && chunks != [] && IndexByte(chunks[|chunks| - 1], LF) < 0
    requires Patient(p, chunks[..|chunks| - 1], before.pipe)
    ensures
      var sh' := Turn(before.(pipe := Drained(before.pipe)), t, Handling(CacheWhenAway(chunks[|chunks| - 1])), c).0;
      sh'.env == before.env && Patient(p, chunks, sh'.pipe)
  {
    hide Turn, IndexByte, HeldBack, Flat, UpToNewline;
    var n := |chunks| - 1;
    var last := chunks[n];
    var drained := before.(pipe := Drained(before.pipe));
    DrainPassesOn(before.pipe);
    SameHeld(before.pipe, drained.pipe);
    if n < 3 {
      PassesWhole(drained, t, last, c);
      FlatGrows(chunks, n);
      assert chunks[..n + 1] == chunks;
      assert PassedOn(p) + Flat(chunks[..n]) + last == PassedOn(p) + (Flat(chunks[..n]) + last);
    } else {
      HeldTurn(drained, t, last, c);
      LaterChunks(chunks);
      if n == 3 {
        FreshHolds(drained.pipe);
        assert chunks[..3][..3] == chunks[..3] && chunks[..3][3..] == [];
      }
    }
  }

  /** Away with the queue free, a chunk without a newline passes whole while there is patience. */
  lemma PassesWhole(sh: Shared, t: Tid, buf: seq<byte>, c: Choice)
    requires Away(sh, c) && sh.pipe.slot.None? && IndexByte(buf, LF) < 0 && !HoldsBack(sh.pipe.cache, buf)
    ensures Turn(sh, t, Handling(CacheWhenAway(buf)), c) ==
      (sh.(pipe := CountNoNewLine(sh.pipe).(slot := Some(buf))), DONE)
  {
    assert UpToNewline(buf) == buf && buf[|buf|..] == [];
    hide Turn, IndexByte, UpToNewline, HeldBack;
    ToSend(sh, t, buf, c);
    SentTurn(sh.(pipe := CountNoNewLine(sh.pipe)), t, buf, [], c);
  }

  lemma FreshHolds(p: Pipe)
    requires p.cache.lines == [] && p.dropped == []
    ensures HeldBack(p) == [] == Flat([])
  {
  }

  lemma FlatGrows(chunks: seq<seq<byte>>, k: nat)
    requires k < |chunks|
    ensures Flat(chunks[..k + 1]) == Flat(chunks[..k]) + chunks[k]
  {
    assert chunks[..k + 1] == chunks[..k] + [chunks[k]];
    FlatSnoc(chunks[..k], chunks[k]);
  }

  lemma LaterChunks(chunks: seq<seq<byte>>)
    requires |chunks| > 3
    ensures
      var earlier := chunks[..|chunks| - 1];
      earlier[..3] == chunks[..3] && Flat(chunks[3..]) == Flat(earlier[3..]) + chunks[|chunks| - 1]
  {
    var earlier, n := chunks[..|chunks| - 1], |chunks| - 1;
    assert chunks[3..] == earlier[3..] + [chunks[n]];
    FlatSnoc(earlier[3..], chunks[n]);
  }

  // ------------------------------------------------------------------- one flush

  /** The writer has taken what was queued and written it. */
  function Drained(p: Pipe): Pipe {
    p.(slot := None, writer := Idle, written := Taken(p) + Queued(p))
  }

  /** Bytes passed on: taken by the writer or queued. */
  function PassedOn(p: Pipe): seq<byte> {
    Taken(p) + Queued(p)
  }

  lemma DrainPassesOn(p: Pipe)
    ensures PassedOn(Drained(p)) == PassedOn(p)
  {
  }

  function Lines(p: Pipe): nat {
    |p.cache.lines|
  }

  /** Statements left in a flush over `n` lines at most. */
  function FlushRank(f: Flush, n: nat): int {
    match f
    case Test => 2 * n + 8
    case Redraw => 2 * n + 7
    case Pick(i) => 2 * (n - i) + 4
    case Offer(_, i, _, _) => 2 * (n - i) + 3
  }

  /** A flush that is still going, its place within the cached lines. */
  predicate Flushes(p: Pipe, pc: Pc) {
    && pc.Flushing?
    && (pc.f.Pick? ==> -1 <= pc.f.i <= Lines(p))
    && (pc.f.Offer? ==> pc.f.at.Try? && -1 <= pc.f.i < Lines(p))
  }

  /** One statement of the flush, the writer having drained the queue before a line is offered. */
  function FlushOne(sh: Shared, t: Tid, pc: Pc, c: Choice): (Shared, Pc)
    requires pc.Flushing?
  {
    ThreadStep(if pc.f.Offer? then sh.(pipe := Drained(sh.pipe)) else sh, t, pc, c)
  }

  lemma FlushLowers(sh: Shared, t: Tid, pc: Pc, c: Choice)
    requires Flushes(sh.pipe, pc)
    ensures
      var (sh', pc') := FlushOne(sh, t, pc, c);
      Flushes(sh'.pipe, pc') ==> FlushRank(pc'.f, Lines(sh'.pipe)) < FlushRank(pc.f, Lines(sh.pipe))
  {
    hide WithoutCursorRequests, Warning, Clear;
  }

  /** A flush carried through, with nobody but the writer beside it. */
  function FlushTurn(sh: Shared, t: Tid, pc: Pc, c: Choice): (Shared, Pc)
    decreases if Flushes(sh.pipe, pc) then FlushRank(pc.f, Lines(sh.pipe)) + 1 else 0
  {
    if Flushes(sh.pipe, pc) then
      FlushLowers(sh, t, pc, c);
      var r := FlushOne(sh, t, pc, c);
      FlushTurn(r.0, t, r.1, c)
    else (sh, pc)
  }

  /** Cached lines as the client should get them, one after the other. */
  function Stripped(lines: seq<seq<byte>>): seq<byte> {
    if lines == [] then [] else WithoutCursorRequests(lines[0]) + Stripped(lines[1..])
  }

  lemma FlushStepOne(sh: Shared, t: Tid, pc: Pc, c: Choice)
    requires Flushes(sh.pipe, pc)
    ensures
      var r := FlushOne(sh, t, pc, c);
      FlushTurn(sh, t, pc, c) == FlushTurn(r.0, t, r.1, c)
  {
  }

  lemma FlushOver(sh: Shared, t: Tid, pc: Pc, c: Choice)
    requires !pc.Flushing?
    ensures FlushTurn(sh, t, pc, c) == (sh, pc)
  {
  }

  /** The flush is through: the cache is empty and starts afresh. */
  predicate IsFlushed(p: Pipe) {
    p.cache.lines == [] && !p.cache.hasNewLine && p.cache.noNewLineCount == 0 && p.cache.discardLines == 0
  }

  /** One line goes on, stripped. */
  lemma LineTurn(sh: Shared, t: Tid, i: nat, ret: Return, c: Choice)
    requires i < Lines(sh.pipe)
    ensures
      var sh' := LineDone(sh, i);
      && sh'.pipe.cache == sh.pipe.cache && sh'.pipe.dropped == sh.pipe.dropped && sh'.env == sh.env
      && PassedOn(sh'.pipe) == PassedOn(sh.pipe) + WithoutCursorRequests(sh.pipe.cache.lines[i])
      && FlushTurn(sh, t, Flushing(Pick(i), ret), c) == FlushTurn(sh', t, Flushing(Pick(i + 1), ret), c)
  {
    hide WithoutCursorRequests, FlushTurn;
    var p, raw := sh.pipe, sh.pipe.cache.lines[i];
    var line := WithoutCursorRequests(raw);
    FlushStepOne(sh, t, Flushing(Pick(i), ret), c);
    if line != [] {
      FlushStepOne(sh, t, Flushing(Offer(Try, i, raw, line), ret), c);
      DrainPassesOn(p);
    }
    assert PassedOn(p) + [] == PassedOn(p);
  }

  /** The state once line `i` was passed on, or found to be nothing but requests. */
  function LineDone(sh: Shared, i: nat): Shared
    requires i < Lines(sh.pipe)
  {
    var p, raw := sh.pipe, sh.pipe.cache.lines[i];
    var line := WithoutCursorRequests(raw);
    if line == [] then sh.(pipe := Note(p, Strip(Offset(p), raw)))
    else
      var drained := Drained(p);
      sh.(pipe := Note(drained, Strip(Offset(drained), raw)).(slot := Some(line)))
  }

  lemma {:induction false} LinesTurn(sh: Shared, t: Tid, i: nat, ret: Return, c: Choice)
    requires i <= Lines(sh.pipe) && sh.pipe.cache.discardLines == 0
    ensures
      var (sh', pc') := FlushTurn(sh, t, Flushing(Pick(i), ret), c);
      && pc' == Back(ret) && IsFlushed(sh'.pipe) && sh'.pipe.dropped == sh.pipe.dropped && sh'.env == sh.env
      && PassedOn(sh'.pipe) == PassedOn(sh.pipe) + Stripped(sh.pipe.cache.lines[i..])
    decreases Lines(sh.pipe) - i
  {
    hide WithoutCursorRequests, FlushTurn, LineDone;
    var p, lines := sh.pipe, sh.pipe.cache.lines;
    if i == |lines| {
      FlushStepOne(sh, t, Flushing(Pick(i), ret), c);
      FlushOver(sh.(pipe := Flushed(p)), t, Back(ret), c);
      assert PassedOn(p) + [] == PassedOn(p);
    } else {
      LineTurn(sh, t, i, ret, c);
      LinesTurn(LineDone(sh, i), t, i + 1, ret, c);
      assert lines[i..][1..] == lines[i + 1..] && lines[i..][0] == lines[i];
      var line := WithoutCursorRequests(lines[i]);
      assert PassedOn(p) + line + Stripped(lines[i + 1..]) == PassedOn(p) + (line + Stripped(lines[i + 1..]));
    }
  }

  /** The warning goes first, and settles what was dropped. */
  lemma WarningTurn(sh: Shared, t: Tid, ret: Return, c: Choice)
    requires sh.pipe.cache.lines != []
    ensures
      var (sh', pc') := FlushTurn(sh, t, Flushing(Pick(-1), ret), c);
      var p, p' := sh.pipe, sh'.pipe;
      && pc' == Back(ret) && IsFlushed(p') && sh'.env == sh.env
      && p'.dropped == (if p.cache.discardLines > 0 then [] else p.dropped)
      && PassedOn(p') ==
           PassedOn(p) + (if p.cache.discardLines > 0 then Warning(p.cache) else []) + Stripped(p.cache.lines)
  {
    hide FlushTurn, Warning, Stripped, WithoutCursorRequests;
    var p := sh.pipe;
    FlushStepOne(sh, t, Flushing(Pick(-1), ret), c);
    assert p.cache.lines[0..] == p.cache.lines && PassedOn(p) + [] == PassedOn(p);
    if p.cache.discardLines == 0 {
      LinesTurn(sh, t, 0, ret, c);
    } else {
      var text := Warning(p.cache);
      FlushStepOne(sh, t, Flushing(Offer(Try, -1, [], text), ret), c);
      DrainPassesOn(p);
      var warned := sh.(pipe := Warn(Drained(p), text));
      assert PassedOn(warned.pipe) == PassedOn(p) + text;
      LinesTurn(warned, t, 0, ret, c);
    }
  }

  /**
   One flush: while the client is away, or with nothing cached, it changes nothing.  Otherwise
   it passes on the warning, if lines were dropped, and every cached line less its cursor
   requests, in order, and leaves the cache empty; unless lines were dropped and a redraw
   makes all of that unnecessary.
   */
  lemma OneFlush(sh: Shared, t: Tid, ret: Return, c: Choice)
    ensures
      var (sh', pc') := FlushTurn(sh, t, Flushing(Test, ret), c);
      var p, p' := sh.pipe, sh'.pipe;
      && pc' == Back(ret)
      && if sh.env.timedOut || p.cache.lines == [] then sh' == sh
         else if p.cache.discardLines > 0 && c.ok then
           PassedOn(p') == PassedOn(p) && p'.dropped == [] && p'.cache == Cleared(p.cache)
         else
           && IsFlushed(p') && p'.dropped == (if p.cache.discardLines > 0 then [] else p.dropped)
           && PassedOn(p') ==
                PassedOn(p) + (if p.cache.discardLines > 0 then Warning(p.cache) else []) + Stripped(p.cache.lines)
  {
    hide FlushTurn, Warning, Stripped, WithoutCursorRequests, IsFlushed;
    var p := sh.pipe;
    FlushStepOne(sh, t, Flushing(Test, ret), c);
    if sh.env.timedOut || p.cache.lines == [] {
      FlushOver(sh, t, Back(ret), c);
    } else if p.cache.discardLines > 0 {
      FlushStepOne(sh, t, Flushing(Redraw, ret), c);
      var redrawn := if c.armed then sh.(env := sh.env.(discardOutput := true)) else sh;
      if c.ok {
        FlushOver(redrawn.(pipe := Clear(p)), t, Back(ret), c);
      } else {
        WarningTurn(redrawn, t, ret, c);
      }
    } else {
      WarningTurn(sh, t, ret, c);
    }
  }

  // --------------------------------------------------------- when the queue is taken

  /** Three steps of a thread, the same answers given. */
  function Three(sh: Shared, t: Tid, pc: Pc, c: Choice): (Shared, Pc) {
    var (sh1, pc1) := ThreadStep(sh, t, pc, c);
    var (sh2, pc2) := ThreadStep(sh1, t, pc1, c);
    ThreadStep(sh2, t, pc2, c)
  }

  function Two(sh: Shared, t: Tid, pc: Pc, c: Choice): (Shared, Pc) {
    var (sh1, pc1) := ThreadStep(sh, t, pc, c);
    ThreadStep(sh1, t, pc1, c)
  }

  /** Nobody will drain the queue any more. */
  predicate Abandoned(sh: Shared) {
    sh.phase.returned || sh.past.writeError
  }

  /**
   A flush that finds the queue taken: with the client gone it stops, and keeps the line in
   hand and those behind it; with the client there it sleeps with the mutex released and the
   line still in hand, or stops when nobody will drain the queue any more.
   */
  lemma FlushFindsQueueTaken(sh: Shared, t: Tid, i: int, raw: seq<byte>, line: seq<byte>, ret: Return, c: Choice)
    requires sh.pipe.slot.Some? && -1 <= i < |sh.pipe.cache.lines|
    ensures
      var p, offer := sh.pipe, Flushing(Offer(Try, i, raw, line), ret);
      if sh.env.timedOut then
        Two(sh, t, offer, c) ==
        (sh.(pipe := p.(cache := p.cache.(lines := if i > 0 then p.cache.lines[i..] else p.cache.lines))), Back(ret))
      else
        Three(sh, t, offer, c) ==
        if Abandoned(sh) then (sh, Back(ret)) else (Unlocked(sh), Flushing(Offer(Asleep, i, raw, line), ret))
  {
  }

  /** What was taken back and finds the queue taken again sleeps, or is given up when nobody will drain it any more. */
  lemma EnqueueFindsQueueTaken(
    sh: Shared, t: Tid, buf: seq<byte>, left: seq<byte>, count: bool, rest: seq<byte>, c: Choice)
    requires sh.pipe.slot.Some?
    ensures Two(sh, t, Handling(Enqueue(Try, buf, left, count, rest)), c) ==
      if Abandoned(sh) then (sh, DONE) else (Unlocked(sh), Handling(Enqueue(Asleep, buf, left, count, rest)))
  {
  }

  /** A thread that wakes up takes the mutex and tries again with what it held, if it did not wait in vain. */
  lemma WakesUp(sh: Shared, t: Tid, pc: Pc, c: Choice)
    requires IsParked(pc)
    ensures
      var (sh', pc') := ThreadStep(sh, t, pc, c);
      if (pc.ErrorAwait? || (pc.Handling? && pc.h.Send? && pc.h.at.Awaiting?)) && !c.ok then
        sh' == WaitFailed(Locked(sh, t)) && pc'.End?
      else
        && sh' == Locked(sh, t)
        && pc' == match pc
                  case Handling(Send(_, buf, rest)) => Handling(Send(Try, buf, rest))
                  case Handling(Enqueue(_, buf, left, count, rest)) => Handling(Enqueue(Try, buf, left, count, rest))
                  case Flushing(Offer(_, i, raw, line), ret) => Flushing(Offer(Try, i, raw, line), ret)
                  case _ => Flushing(Test, ThenError)
  {
  }

  /**
   After the end of input the reader is done when nothing is cached or a write failed; else
   it waits for the client to come back if it is away, and flushes if it is there.
   */
  lemma EndOfInput(sh: Shared, t: Tid, c: Choice)
    ensures
      if sh.pipe.cache.lines == [] || sh.past.writeError then ThreadStep(sh, t, ErrorLoop, c) == (sh, End(Quit))
      else if sh.env.timedOut then Two(sh, t, ErrorLoop, c) == (Unlocked(sh), ErrorAwait)
      else Two(sh, t, ErrorLoop, c) == (sh, Flushing(Test, ThenError))
  {
  }
}
