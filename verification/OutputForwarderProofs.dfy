/**
 What every run of the output forwarder keeps: the processing token excludes,
 no byte is lost unreported, and no cached output is stranded.
 */
module OutputForwarderProofs {
  import opened Bytes
  import opened Options
  import opened OutputLog
  import opened OutputCache
  import opened OutputForwarder

  // ---------------------------------------------------------------------------
  // Conservation of the stream.

  /** No write to the client has failed and no wait for the client was cut short. */
  predicate Good(sh: Shared) {
    !sh.past.writeError && !sh.past.waitFailed
  }

  /** Bytes that `handleBuffer` holds in local variables. */
  function Held(h: Handle): seq<byte> {
    match h
    case InjectMarker(_) => []
    case DiscardCached(buf) => buf
    case CacheWhenAway(buf) => buf
    case CacheWhenCached(buf) => buf
    case SplitWhenAway(buf) => buf
    case Send(_, buf, rest) => buf + rest
    case TakeBack(buf, rest) => buf + rest
    case Enqueue(_, buf, left, _, rest) => buf + left + rest
    case CacheRest(rest) => rest
  }

  function Local(pc: Pc): seq<byte> {
    if pc.Handling? then Held(pc.h) else []
  }

  /** Cached lines that a flush in progress has passed on already. */
  function Passed(pc: Pc): int {
    if pc.Flushing? && (pc.f.Pick? || pc.f.Offer?) then pc.f.i else 0
  }

  function Kept(cache: Cache, pc: Pc): seq<seq<byte>> {
    if 0 < Passed(pc) <= |cache.lines| then cache.lines[Passed(pc)..] else cache.lines
  }

  /** The stream so far is: taken by the writer, queued, dropped but unreported, cached, held locally. */
  predicate Conserved(p: Pipe, kept: seq<seq<byte>>, local: seq<byte>) {
    && Valid(p.log)
    && Replay(p.log) == Taken(p) + Queued(p) + Flat(p.dropped) + Flat(kept) + local
    && p.cache.discardLines == |p.dropped|
    && p.cache.discardBytes == |Flat(p.dropped)|
  }

  predicate HandleShape(cache: Cache, h: Handle) {
    && (h.SplitWhenAway? || h.Send? || h.TakeBack? || h.Enqueue? ==> cache.lines == [])
    && (h.Enqueue? && h.count ==> h.left == [])
  }

  predicate FlushShape(cache: Cache, f: Flush) {
    match f
    case Test => true
    case Redraw => cache.lines != [] && cache.discardLines > 0
    case Pick(i) => cache.lines != [] && -1 <= i <= |cache.lines| && (i >= 0 ==> cache.discardLines == 0)
    case Offer(_, i, raw, line) =>
      && cache.lines != [] && -1 <= i < |cache.lines|
      && (i < 0 ==> cache.discardLines > 0)
      && (i >= 0 ==> cache.discardLines == 0 && raw == cache.lines[i] && line == WithoutCursorRequests(raw))
  }

  /** What a program counter says of the cache. */
  predicate Shape(cache: Cache, pc: Pc) {
    && (pc.Handling? ==> HandleShape(cache, pc.h))
    && (pc.Flushing? ==> FlushShape(cache, pc.f))
  }

  lemma Regroup(head: seq<byte>, lines: seq<byte>, buf: seq<byte>, local: seq<byte>, run: seq<byte>, lines': seq<byte>)
    requires run + lines' == lines + buf
    ensures head + lines + (buf + local) == head + run + lines' + local
  {
    assert head + lines + (buf + local) == head + (lines + buf) + local;
    assert head + run + lines' + local == head + (run + lines') + local;
  }

  /** Caching `buf` and dropping `run` from the front, whatever the lines. */
  lemma CachingConserved(p: Pipe, p': Pipe, run: seq<seq<byte>>, buf: seq<byte>, local: seq<byte>)
    requires Conserved(p, p.cache.lines, buf + local)
    requires p' == p.(cache := p'.cache, dropped := p.dropped + run)
    requires Flat(run) + Flat(p'.cache.lines) == Flat(p.cache.lines) + buf
    requires p'.cache.discardLines == p.cache.discardLines + |run|
    requires p'.cache.discardBytes == p.cache.discardBytes + |Flat(run)|
    ensures Conserved(p', p'.cache.lines, local)
  {
    FlatConcat(p.dropped, run);
    var head := Taken(p) + Queued(p);
    Regroup(head + Flat(p.dropped), Flat(p.cache.lines), buf, local, Flat(run), Flat(p'.cache.lines));
    assert head + Flat(p.dropped) + Flat(run) == head + (Flat(p.dropped) + Flat(run));
  }

  lemma CacheInConserved(p: Pipe, buf: seq<byte>, rows: int, local: seq<byte>)
    requires Conserved(p, p.cache.lines, buf + local)
    ensures Conserved(CacheIn(p, buf, rows), CacheIn(p, buf, rows).cache.lines, local)
  {
    CachingConserved(p, CacheIn(p, buf, rows), DroppedBy(p.cache, buf, rows), buf, local);
  }

  lemma Padding(a: seq<byte>, b: seq<byte>, c: seq<byte>)
    ensures a + [] + b + c == a + b + c == a + [] + b + c + [] == a + b + [] + c + []
    ensures a + [] + b == a + b
  {
  }

  /** Replacing `mid` in `head + mid + tail`. */
  lemma ReportApplies(head: seq<byte>, run: seq<seq<byte>>, tail: seq<byte>, text: seq<byte>)
    ensures var edit := Report(|head|, run, |run|, |Flat(run)|, text);
      Applies(edit, head + Flat(run) + tail) && Apply(edit, head + Flat(run) + tail) == head + text + tail
  {
    var s := head + Flat(run) + tail;
    assert s[..|head|] == head && s[|head|..|head| + |Flat(run)|] == Flat(run) && s[|head| + |Flat(run)|..] == tail;
  }

  lemma ClearReplay(p: Pipe, local: seq<byte>)
    requires Conserved(p, p.cache.lines, local)
    ensures Valid(Clear(p).log) && Replay(Clear(p).log) == Taken(p) + Queued(p) + local
  {
    var run, head := p.dropped + p.cache.lines, Taken(p) + Queued(p);
    FlatConcat(p.dropped, p.cache.lines);
    assert head + Flat(p.dropped) + Flat(p.cache.lines) + local ==
      head + (Flat(p.dropped) + Flat(p.cache.lines)) + local;
    ReportApplies(head, run, local, []);
    Padding(head, local, []);
    if |run| == 0 {
      assert Flat(run) == [];
    }
  }

  lemma ClearConserved(p: Pipe, local: seq<byte>)
    requires Conserved(p, p.cache.lines, local)
    ensures Conserved(Clear(p), [], local)
  {
    ClearReplay(p, local);
    var head := Taken(p) + Queued(p);
    assert head + [] + [] + local == head + local;
  }

  lemma AppendConserved(p: Pipe, marker: seq<byte>, chunk: seq<byte>, kept: seq<seq<byte>>)
    requires Conserved(p, kept, [])
    ensures Conserved(Note(p, Append(marker, chunk)), kept, marker + chunk)
  {
    var head := Taken(p) + Queued(p) + Flat(p.dropped) + Flat(kept);
    assert head + [] + marker + chunk == head + (marker + chunk);
  }

  lemma SendConserved(p: Pipe, buf: seq<byte>, local: seq<byte>)
    requires p.slot.None? && p.dropped == []
    requires Conserved(p, [], buf + local)
    ensures Conserved(p.(slot := Some(buf)), [], local)
  {
    assert Taken(p) + [] + [] + [] + (buf + local) == Taken(p) + buf + [] + [] + local;
  }

  lemma TakeBackConserved(p: Pipe, local: seq<byte>)
    requires p.dropped == []
    requires Conserved(p, [], local)
    ensures Conserved(p.(slot := None), [], Queued(p) + local)
  {
    assert Taken(p) + Queued(p) + [] + [] + local == Taken(p) + [] + [] + [] + (Queued(p) + local);
  }

  lemma WarnReplay(p: Pipe, text: seq<byte>)
    requires p.slot.None?
    requires Conserved(p, p.cache.lines, [])
    ensures Valid(Warn(p, text).log) && Replay(Warn(p, text).log) == Taken(p) + text + Flat(p.cache.lines)
  {
    Padding(Taken(p), Flat(p.dropped), Flat(p.cache.lines));
    ReportApplies(Taken(p), p.dropped, Flat(p.cache.lines), text);
  }

  /** Sending the warning turns the unreported run into a report at that very place. */
  lemma WarnConserved(p: Pipe, text: seq<byte>)
    requires p.slot.None?
    requires Conserved(p, p.cache.lines, [])
    ensures Conserved(Warn(p, text), p.cache.lines, [])
  {
    WarnReplay(p, text);
    Padding(Taken(p), text, Flat(p.cache.lines));
  }

  /** Cached line `i` stripped where it stands, just behind the queue. */
  lemma StripConserved(p: Pipe, i: nat)
    requires p.dropped == [] && i < |p.cache.lines|
    requires Conserved(p, p.cache.lines[i..], [])
    ensures var raw := p.cache.lines[i]; var line := WithoutCursorRequests(raw);
      && Valid(Note(p, Strip(Offset(p), raw)).log)
      && Replay(Note(p, Strip(Offset(p), raw)).log) == Taken(p) + Queued(p) + line + Flat(p.cache.lines[i + 1..])
  {
    var raw, tail := p.cache.lines[i], Flat(p.cache.lines[i + 1..]);
    var head := Taken(p) + Queued(p);
    assert p.cache.lines[i..] == [raw] + p.cache.lines[i + 1..];
    FlatConcat([raw], p.cache.lines[i + 1..]);
    FlatOne(raw);
    var s := head + [] + (raw + tail) + [];
    assert s == head + raw + tail;
    assert s[..|head|] == head && s[|head|..|head| + |raw|] == raw && s[|head| + |raw|..] == tail;
  }

  /** ... and passed on to the queue. */
  lemma StripSendConserved(p: Pipe, i: nat)
    requires p.slot.None? && p.dropped == [] && i < |p.cache.lines|
    requires Conserved(p, p.cache.lines[i..], [])
    ensures var raw := p.cache.lines[i];
      Conserved(Note(p, Strip(Offset(p), raw)).(slot := Some(WithoutCursorRequests(raw))), p.cache.lines[i + 1..], [])
  {
    hide WithoutCursorRequests;
    StripConserved(p, i);
    Padding(Taken(p), WithoutCursorRequests(p.cache.lines[i]), Flat(p.cache.lines[i + 1..]));
  }

  // ---------------------------------------------------------------------------
  // One step of the token owner keeps the data.

  predicate Data(p: Pipe, good: bool, pc: Pc) {
    && Shape(p.cache, pc)
    && (p.cache.discardLines > 0 ==> p.cache.lines != [])
    && (good ==> Conserved(p, Kept(p.cache, pc), Local(pc)))
  }

  lemma CacheLocal(p: Pipe, buf: seq<byte>, rows: int)
    requires Conserved(p, p.cache.lines, buf)
    ensures Conserved(CacheIn(p, buf, rows), CacheIn(p, buf, rows).cache.lines, [])
  {
    assert buf + [] == buf;
    CacheInConserved(p, buf, rows, []);
  }

  // Each transition of the owner, one lemma a transition.

  lemma MarkerAccepted(p: Pipe, good: bool, chunk: seq<byte>, marker: seq<byte>)
    requires Data(p, good, Handling(InjectMarker(chunk)))
    ensures Data(Note(Clear(p), Append(marker, chunk)), good, Handling(DiscardCached(marker + chunk)))
  {
    if good {
      ClearConserved(p, []);
      AppendConserved(Clear(p), marker, chunk, []);
    }
  }

  lemma ChunkAccepted(p: Pipe, good: bool, chunk: seq<byte>)
    requires Data(p, good, Handling(InjectMarker(chunk)))
    ensures Data(Note(p, Append([], chunk)), good, Handling(DiscardCached(chunk)))
  {
    if good {
      AppendConserved(p, [], chunk, p.cache.lines);
      assert [] + chunk == chunk;
    }
  }

  lemma CacheCleared(p: Pipe, good: bool, buf: seq<byte>)
    requires Data(p, good, Handling(DiscardCached(buf)))
    ensures Data(Clear(p), good, Handling(CacheWhenAway(buf)))
    ensures Data(p, good, Handling(CacheWhenAway(buf)))
  {
    if good { ClearConserved(p, buf); }
  }

  lemma BufferCached(p: Pipe, good: bool, h: Handle, rows: int, ret: Return)
    requires h.CacheWhenAway? || h.CacheWhenCached? || h.CacheRest?
    requires Data(p, good, Handling(h))
    ensures Data(CacheIn(p, Held(h), rows), good, DONE)
    ensures Data(CacheIn(p, Held(h), rows), good, Flushing(Test, ret))
  {
    if good { CacheLocal(p, Held(h), rows); }
  }

  lemma NothingToCache(p: Pipe, good: bool)
    requires Data(p, good, Handling(CacheRest([])))
    ensures Data(p, good, DONE)
  {
  }

  lemma NotCached(p: Pipe, good: bool, buf: seq<byte>)
    requires Data(p, good, Handling(CacheWhenAway(buf)))
    ensures Data(p, good, Handling(CacheWhenCached(buf)))
  {
  }

  lemma NoneCached(p: Pipe, good: bool, buf: seq<byte>)
    requires Data(p, good, Handling(CacheWhenCached(buf))) && p.cache.lines == []
    ensures Data(p, good, Handling(SplitWhenAway(buf)))
  {
  }

  lemma WholeSent(p: Pipe, good: bool, buf: seq<byte>)
    requires Data(p, good, Handling(SplitWhenAway(buf)))
    ensures Data(p, good, Handling(Send(Try, buf, [])))
    ensures Data(CountNoNewLine(p), good, Handling(Send(Try, buf, [])))
  {
    assert buf + [] == buf;
  }

  lemma LineSent(p: Pipe, good: bool, buf: seq<byte>, n: nat)
    requires Data(p, good, Handling(SplitWhenAway(buf))) && n <= |buf|
    ensures Data(HasNewLine(p), good, Handling(Send(Try, buf[..n], buf[n..])))
  {
    assert buf[..n] + buf[n..] == buf;
  }

  lemma ProgressCached(p: Pipe, good: bool, buf: seq<byte>, rows: int)
    requires Data(p, good, Handling(SplitWhenAway(buf)))
    ensures Data(CacheIn(HasNewLine(p), buf, rows), good, DONE)
  {
    if good { CacheLocal(HasNewLine(p), buf, rows); }
  }

  lemma Pushed(p: Pipe, good: bool, at: Spot, buf: seq<byte>, rest: seq<byte>)
    requires Data(p, good, Handling(Send(at, buf, rest))) && p.slot.None?
    ensures Data(p.(slot := Some(buf)), good, Handling(CacheRest(rest)))
  {
    if good { SendConserved(p, buf, rest); }
  }

  lemma StillSending(p: Pipe, good: bool, at: Spot, buf: seq<byte>, rest: seq<byte>, at': Spot)
    requires Data(p, good, Handling(Send(at, buf, rest)))
    ensures Data(p, good, Handling(Send(at', buf, rest)))
    ensures Data(p, good, Handling(TakeBack(buf, rest)))
  {
  }

  /** A buffer given up on is the end of a good run. */
  lemma GivenUp(p: Pipe, good: bool, pc: Pc, after: After)
    requires Data(p, good, pc)
    ensures Data(p, false, End(after))
  {
  }

  lemma TakenBack(p: Pipe, good: bool, buf: seq<byte>, rest: seq<byte>, n: nat, count: bool)
    requires Data(p, good, Handling(TakeBack(buf, rest))) && n <= |Queued(p) + buf|
    ensures var all := Queued(p) + buf;
      && Data(p.(slot := None), good, Handling(Enqueue(Try, all, [], count, rest)))
      && Data(p.(slot := None), good, Handling(Enqueue(Try, all[..n], all[n..], false, rest)))
  {
    var all := Queued(p) + buf;
    assert all + [] + rest == Queued(p) + (buf + rest) == all[..n] + all[n..] + rest;
    if good { TakeBackConserved(p, buf + rest); }
  }

  lemma StillEnqueueing(p: Pipe, good: bool, h: Handle, at: Spot)
    requires h.Enqueue?
    requires Data(p, good, Handling(h))
    ensures Data(p, good, Handling(Enqueue(at, h.buf, h.left, h.count, h.rest)))
  {
  }

  lemma Enqueued(p: Pipe, good: bool, h: Handle)
    requires h.Enqueue? && h.left == []
    requires Data(p, good, Handling(h)) && p.slot.None?
    ensures Data(CountNoNewLine(p.(slot := Some(h.buf))), good, Handling(CacheRest(h.rest)))
    ensures Data(HasNewLine(p.(slot := Some(h.buf))), good, Handling(CacheRest(h.rest)))
  {
    if good {
      assert h.buf + [] + h.rest == h.buf + h.rest;
      SendConserved(p, h.buf, h.rest);
    }
  }

  lemma EnqueuedAndCached(p: Pipe, good: bool, h: Handle, rows: int)
    requires h.Enqueue?
    requires Data(p, good, Handling(h)) && p.slot.None?
    ensures Data(HasNewLine(CacheIn(p.(slot := Some(h.buf)), h.left, rows)), good, Handling(CacheRest(h.rest)))
  {
    if good {
      assert h.buf + h.left + h.rest == h.buf + (h.left + h.rest);
      SendConserved(p, h.buf, h.left + h.rest);
      CacheInConserved(p.(slot := Some(h.buf)), h.left, rows, h.rest);
    }
  }

  lemma FlushTested(p: Pipe, good: bool, ret: Return)
    requires Data(p, good, Flushing(Test, ret))
    ensures Data(p, good, Back(ret))
    ensures p.cache.lines != [] ==> Data(p, good, Flushing(Pick(-1), ret))
    ensures p.cache.lines != [] && p.cache.discardLines > 0 ==> Data(p, good, Flushing(Redraw, ret))
  {
  }

  lemma Redrawn(p: Pipe, good: bool, ret: Return)
    requires Data(p, good, Flushing(Redraw, ret))
    ensures Data(Clear(p), good, Back(ret))
    ensures Data(p, good, Flushing(Pick(-1), ret))
  {
    if good { ClearConserved(p, []); }
  }

  lemma PickedFirst(p: Pipe, good: bool, i: int, ret: Return, text: seq<byte>)
    requires Data(p, good, Flushing(Pick(i), ret)) && i < 0
    ensures p.cache.discardLines == 0 ==> Data(p, good, Flushing(Pick(0), ret))
    ensures p.cache.discardLines > 0 ==> Data(p, good, Flushing(Offer(Try, -1, [], text), ret))
  {
  }

  lemma PickedLast(p: Pipe, good: bool, i: int, ret: Return)
    requires Data(p, good, Flushing(Pick(i), ret)) && i >= |p.cache.lines|
    ensures Data(Flushed(p), good, Back(ret))
  {
  }

  lemma PickedEmpty(p: Pipe, good: bool, i: int, ret: Return)
    requires Data(p, good, Flushing(Pick(i), ret)) && 0 <= i < |p.cache.lines|
    requires WithoutCursorRequests(p.cache.lines[i]) == []
    ensures Data(Note(p, Strip(Offset(p), p.cache.lines[i])), good, Flushing(Pick(i + 1), ret))
  {
    if good {
      StripConserved(p, i);
      var head, tail := Taken(p) + Queued(p), Flat(p.cache.lines[i + 1..]);
      assert head + [] + tail == head + [] + tail + [];
    }
  }

  lemma PickedLine(p: Pipe, good: bool, i: int, ret: Return)
    requires Data(p, good, Flushing(Pick(i), ret)) && 0 <= i < |p.cache.lines|
    ensures var raw := p.cache.lines[i];
      Data(p, good, Flushing(Offer(Try, i, raw, WithoutCursorRequests(raw)), ret))
  {
  }

  lemma WarningOffered(p: Pipe, good: bool, f: Flush, ret: Return)
    requires f.Offer? && f.i < 0 && p.slot.None?
    requires Data(p, good, Flushing(f, ret))
    ensures Data(Warn(p, f.line), good, Flushing(Pick(0), ret))
  {
    if good { WarnConserved(p, f.line); }
  }

  lemma LineOffered(p: Pipe, good: bool, f: Flush, ret: Return)
    requires f.Offer? && f.i >= 0 && p.slot.None?
    requires Data(p, good, Flushing(f, ret))
    ensures Data(Note(p, Strip(Offset(p), f.raw)).(slot := Some(f.line)), good, Flushing(Pick(f.i + 1), ret))
  {
    if good { StripSendConserved(p, f.i); }
  }

  lemma StillOffering(p: Pipe, good: bool, f: Flush, ret: Return, at: Spot)
    requires f.Offer?
    requires Data(p, good, Flushing(f, ret))
    ensures Data(p, good, Flushing(Offer(at, f.i, f.raw, f.line), ret))
    ensures f.i <= 0 ==> Data(p, good, Back(ret))
    ensures Data(p, false, Back(ret))
    ensures -1 <= f.i < |p.cache.lines|
  {
  }

  lemma FlushPaused(p: Pipe, good: bool, f: Flush, ret: Return)
    requires f.Offer? && f.i > 0
    requires Data(p, good, Flushing(f, ret))
    ensures Data(p.(cache := p.cache.(lines := p.cache.lines[f.i..])), good, Back(ret))
  {
  }

  lemma Ended(p: Pipe, good: bool, pc: Pc, free: Free, ret: Return, after: After)
    requires pc.ErrorLoop? || pc.ErrorTest? || pc.ErrorAwait? || pc.End?
    requires Data(p, good, pc)
    ensures Data(p, good, ErrorTest) && Data(p, good, ErrorAwait) && Data(p, good, End(after))
    ensures Data(p, good, Outside(free)) && Data(p, good, Flushing(Test, ret))
    ensures Data(p, false, End(after))
  {
  }

  lemma HandleData(sh: Shared, h: Handle, c: Choice)
    requires !h.Send? && !h.TakeBack? && !h.Enqueue?
    requires Data(sh.pipe, Good(sh), Handling(h))
    ensures var r := HandleStep(sh, h, c); Data(r.0.pipe, Good(r.0), r.1)
  {
    hide Data, IndexByte, WithoutCursorRequests;
    var p, good := sh.pipe, Good(sh);
    match h {
      case InjectMarker(chunk) =>
        if sh.env.discardMarker.Some? { MarkerAccepted(p, good, chunk, sh.env.discardMarker.value); }
        else { ChunkAccepted(p, good, chunk); }
      case DiscardCached(buf) => CacheCleared(p, good, buf);
      case CacheWhenAway(buf) =>
        NotCached(p, good, buf);
        BufferCached(p, good, h, sh.env.rows, ThenError);
      case CacheWhenCached(buf) =>
        if p.cache.lines == [] { NoneCached(p, good, buf); }
        else { BufferCached(p, good, h, sh.env.rows, ThenEnd(Resume)); }
      case SplitWhenAway(buf) =>
        WholeSent(p, good, buf);
        var pos := IndexByte(buf, LF);
        if pos >= 0 { LineSent(p, good, buf, pos + 1); } else { ProgressCached(p, good, buf, sh.env.rows); }
      case CacheRest(rest) =>
        if rest == [] { NothingToCache(p, good); } else { BufferCached(p, good, h, sh.env.rows, ThenError); }
    }
  }

  lemma SendData(sh: Shared, t: Tid, h: Handle, c: Choice)
    requires h.Send?
    requires Data(sh.pipe, Good(sh), Handling(h)) && !sh.phase.returned
    ensures var r := SendStep(sh, t, h, c); Data(r.0.pipe, Good(r.0), r.1)
  {
    hide Data, IndexByte, WithoutCursorRequests;
    var Send(at, buf, rest) := h;
    var p, good := sh.pipe, Good(sh);
    match at {
      case Try =>
        if p.slot.None? { Pushed(p, good, at, buf, rest); } else { StillSending(p, good, at, buf, rest, Full); }
      case Full =>
        StillSending(p, good, at, buf, rest, Stuck);
        StillSending(p, good, at, buf, rest, Awaiting);
      case Stuck =>
        StillSending(p, good, at, buf, rest, Asleep);
        GivenUp(p, good, Handling(h), Resume);
      case Asleep =>
        StillSending(p, good, at, buf, rest, Try);
      case Awaiting =>
        StillSending(p, good, at, buf, rest, Try);
        GivenUp(p, good, Handling(h), Resume);
    }
  }

  lemma TakeBackData(sh: Shared, h: Handle)
    requires h.TakeBack?
    requires Data(sh.pipe, Good(sh), Handling(h))
    ensures var r := TakeBackStep(sh, h); Data(r.0.pipe, Good(r.0), r.1)
  {
    hide Data, IndexByte, WithoutCursorRequests, Queued;
    var all, r := Queued(sh.pipe) + h.buf, TakeBackStep(sh, h);
    var pos := IndexByte(all, LF);
    TakenBack(sh.pipe, Good(sh), h.buf, h.rest, pos + 1, sh.pipe.cache.noNewLineCount < 3);
    assert r.0.pipe == sh.pipe.(slot := None) && Good(r.0) == Good(sh);
    assert pos < 0 ==> r.1 == Handling(Enqueue(Try, all, [], sh.pipe.cache.noNewLineCount < 3, h.rest));
    assert pos >= 0 ==> r.1 == Handling(Enqueue(Try, all[..pos + 1], all[pos + 1..], false, h.rest));
  }

  lemma EnqueueData(sh: Shared, t: Tid, h: Handle)
    requires h.Enqueue? && (h.count ==> h.left == [])
    requires Data(sh.pipe, Good(sh), Handling(h)) && !sh.phase.returned
    ensures var r := EnqueueStep(sh, t, h); Data(r.0.pipe, Good(r.0), r.1)
  {
    hide Data, IndexByte, WithoutCursorRequests;
    var p, good := sh.pipe, Good(sh);
    StillEnqueueing(p, good, h, if h.at.Try? then Full else if IsParkedAt(h.at) then Try else Asleep);
    GivenUp(p, good, Handling(h), Resume);
    if p.slot.None? {
      if h.left == [] { Enqueued(p, good, h); } else { EnqueuedAndCached(p, good, h, sh.env.rows); }
    }
  }

  lemma FlushData(sh: Shared, f: Flush, ret: Return, c: Choice)
    requires !f.Offer?
    requires Data(sh.pipe, Good(sh), Flushing(f, ret))
    ensures var r := FlushStep(sh, f, ret, c); Data(r.0.pipe, Good(r.0), r.1)
  {
    hide Data, IndexByte, WithoutCursorRequests;
    var p, good := sh.pipe, Good(sh);
    match f {
      case Test => FlushTested(p, good, ret);
      case Redraw => Redrawn(p, good, ret);
      case Pick(i) =>
        if i < 0 { PickedFirst(p, good, i, ret, Warning(p.cache)); }
        else if i >= |p.cache.lines| { PickedLast(p, good, i, ret); }
        else if WithoutCursorRequests(p.cache.lines[i]) == [] { PickedEmpty(p, good, i, ret); }
        else { PickedLine(p, good, i, ret); }
    }
  }

  lemma OfferData(sh: Shared, t: Tid, f: Flush, ret: Return)
    requires f.Offer?
    requires Data(sh.pipe, Good(sh), Flushing(f, ret))
    requires Good(sh) ==> !sh.phase.returned
    ensures var r := OfferStep(sh, t, f, ret); Data(r.0.pipe, Good(r.0), r.1)
  {
    hide Data, IndexByte, WithoutCursorRequests;
    var p, good := sh.pipe, Good(sh);
    StillOffering(p, good, f, ret,
      if f.at.Try? then Full else if f.at.Full? then Stuck else if IsParkedAt(f.at) then Try else Asleep);
    if f.at.Full? && f.i > 0 { FlushPaused(p, good, f, ret); }
    if f.at.Try? && p.slot.None? {
      if f.i < 0 { WarningOffered(p, good, f, ret); } else { LineOffered(p, good, f, ret); }
    }
  }

  lemma EndData(sh: Shared, t: Tid, pc: Pc, c: Choice)
    requires pc.ErrorLoop? || pc.ErrorTest? || pc.ErrorAwait? || pc.End?
    requires Data(sh.pipe, Good(sh), pc)
    ensures var r := EndStep(sh, t, pc, c); Data(r.0.pipe, Good(r.0), r.1)
  {
    hide Data, IndexByte, WithoutCursorRequests;
    var free :=
      if !pc.End? then Reading
      else match pc.after case Resume => Reading case Quit => BeginShutdown case Finish => Finished;
    Ended(sh.pipe, Good(sh), pc, free, if pc.End? then ThenEnd(pc.after) else ThenError, Quit);
  }

  /** Any step of the token owner keeps the stream whole. */
  lemma OwnerData(sh: Shared, t: Tid, pc: Pc, c: Choice)
    requires HasToken(pc) && Data(sh.pipe, Good(sh), pc)
    requires pc.Handling? ==> !sh.phase.returned
    requires Good(sh) && sh.phase.returned ==> sh.pipe.cache.lines == []
    ensures var r := ThreadStep(sh, t, pc, c); Data(r.0.pipe, Good(r.0), r.1)
  {
    match pc {
      case Handling(h) =>
        if h.Send? { SendData(sh, t, h, c); }
        else if h.TakeBack? { TakeBackData(sh, h); }
        else if h.Enqueue? { EnqueueData(sh, t, h); }
        else { HandleData(sh, h, c); }
      case Flushing(f, ret) =>
        if f.Offer? { OfferData(sh, t, f, ret); } else { FlushData(sh, f, ret, c); }
      case _ => EndData(sh, t, pc, c);
    }
  }
}
