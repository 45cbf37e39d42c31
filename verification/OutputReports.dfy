/**
 What the forwarder reports: every run of dropped output is made of whole cached
 lines, is counted exactly, and every in-band report is the warning that shows its counts.
 */
module OutputReports {
  import opened Bytes
  import opened Options
  import opened OutputLog
  import opened OutputCache
  import opened OutputWarnings
  import opened OutputForwarder
  import opened OutputForwarderSafety

  ghost predicate IsWarning(text: seq<byte>, lines: nat, bytes: nat) {
    exists newline, prefix :: text == WarningText(lines, bytes, newline, prefix)
  }

  /** A run of whole lines with its exact counters. */
  ghost predicate IsCounted(run: seq<seq<byte>>, lines: nat, bytes: nat) {
    AreLines(run) && lines == |run| && bytes == |Flat(run)|
  }

  /** A report counts exactly the lines it drops, and shows nothing or the warning with those counts. */
  ghost predicate IsHonest(edit: Edit) {
    edit.Report? ==>
      && IsCounted(edit.run, edit.lines, edit.bytes)
      && (edit.text == [] || IsWarning(edit.text, edit.lines, edit.bytes))
  }

  ghost predicate AllHonest(log: Log) {
    log.Empty? || (AllHonest(log.before) && IsHonest(log.edit))
  }

  /** The invariant: honest reports so far, whole lines cached, what is dropped counted, the right warning in hand. */
  ghost predicate Honest(p: Pipe, pc: Pc) {
    && AllHonest(p.log)
    && AreLines(p.cache.lines)
    && IsCounted(p.dropped, p.cache.discardLines, p.cache.discardBytes)
    && (pc.Flushing? && pc.f.Offer? && pc.f.i < 0 ==> IsWarning(pc.f.line, p.cache.discardLines, p.cache.discardBytes))
  }

  /** Runs one after the other add up. */
  lemma CountedConcat(a: seq<seq<byte>>, b: seq<seq<byte>>, lines: nat, bytes: nat)
    requires IsCounted(a, lines, bytes) && AreLines(b)
    ensures IsCounted(a + b, lines + |b|, bytes + |Flat(b)|)
  {
    FlatConcat(a, b);
  }

  lemma DroppedAreLines(c: Cache, buf: seq<byte>, rows: int)
    requires AreLines(c.lines)
    ensures AreLines(Cached(c, buf, rows).lines) && AreLines(DroppedBy(c, buf, rows))
  {
    AddLinesAreLines(c.lines, buf);
  }

  lemma CacheInHonest(p: Pipe, buf: seq<byte>, rows: int)
    requires AreLines(p.cache.lines) && IsCounted(p.dropped, p.cache.discardLines, p.cache.discardBytes)
    ensures
      var p' := CacheIn(p, buf, rows);
      AreLines(p'.cache.lines) && IsCounted(p'.dropped, p'.cache.discardLines, p'.cache.discardBytes)
  {
    DroppedAreLines(p.cache, buf, rows);
    CountedConcat(p.dropped, DroppedBy(p.cache, buf, rows), p.cache.discardLines, p.cache.discardBytes);
  }

  lemma ClearHonest(p: Pipe)
    requires AllHonest(p.log) && AreLines(p.cache.lines)
    requires IsCounted(p.dropped, p.cache.discardLines, p.cache.discardBytes)
    ensures AllHonest(Clear(p).log) && Clear(p).cache.lines == [] && Clear(p).dropped == []
  {
    hide AreLines, Flat;
    CountedConcat(p.dropped, p.cache.lines, p.cache.discardLines, p.cache.discardBytes);
  }

  lemma InjectHonest(sh: Shared, h: Handle, c: Choice)
    requires h.InjectMarker? || h.DiscardCached?
    requires Honest(sh.pipe, Handling(h))
    ensures var r := HandleStep(sh, h, c); Honest(r.0.pipe, r.1)
  {
    hide AreLines, IsCounted;
    ClearHonest(sh.pipe);
    NoLines();
  }

  lemma HandleHonest(sh: Shared, h: Handle, c: Choice)
    requires h.CacheWhenAway? || h.CacheWhenCached? || h.SplitWhenAway? || h.CacheRest?
    requires Honest(sh.pipe, Handling(h))
    ensures var r := HandleStep(sh, h, c); Honest(r.0.pipe, r.1)
  {
    hide IndexByte, Cached, DroppedBy, AreLines, IsCounted;
    if h.CacheWhenAway? || h.CacheWhenCached? { CacheInHonest(sh.pipe, h.buf, sh.env.rows); }
    if h.SplitWhenAway? { CacheInHonest(HasNewLine(sh.pipe), h.buf, sh.env.rows); }
    if h.CacheRest? { CacheInHonest(sh.pipe, h.rest, sh.env.rows); }
  }

  lemma NoLines()
    ensures AreLines([]) && IsCounted([], 0, 0)
  {
  }

  lemma SendHonest(sh: Shared, t: Tid, h: Handle, c: Choice)
    requires h.Send? || h.TakeBack? || h.Enqueue?
    requires Honest(sh.pipe, Handling(h))
    ensures var r := ThreadStep(sh, t, Handling(h), c); Honest(r.0.pipe, r.1)
  {
    hide IndexByte, Cached, DroppedBy, AreLines, IsCounted;
    if h.Enqueue? { CacheInHonest(sh.pipe.(slot := Some(h.buf)), h.left, sh.env.rows); }
  }

  lemma FlushHonest(sh: Shared, f: Flush, ret: Return, c: Choice)
    requires !f.Offer?
    requires Honest(sh.pipe, Flushing(f, ret))
    ensures var r := FlushStep(sh, f, ret, c); Honest(r.0.pipe, r.1)
  {
    hide WarningText, WithoutCursorRequests, AreLines, IsCounted;
    ClearHonest(sh.pipe);
    NoLines();
  }

  lemma OfferHonest(sh: Shared, t: Tid, f: Flush, ret: Return)
    requires f.Offer?
    requires Honest(sh.pipe, Flushing(f, ret))
    ensures var r := OfferStep(sh, t, f, ret); Honest(r.0.pipe, r.1)
  {
    hide WarningText;
  }

  lemma ThreadHonest(sh: Shared, t: Tid, pc: Pc, c: Choice)
    requires HasToken(pc) && Honest(sh.pipe, pc)
    ensures var r := ThreadStep(sh, t, pc, c); Honest(r.0.pipe, r.1)
  {
    match pc {
      case Handling(h) =>
        if h.Send? || h.TakeBack? || h.Enqueue? { SendHonest(sh, t, h, c); }
        else if h.InjectMarker? || h.DiscardCached? { InjectHonest(sh, h, c); }
        else { HandleHonest(sh, h, c); }
      case Flushing(f, ret) => if f.Offer? { OfferHonest(sh, t, f, ret); } else { FlushHonest(sh, f, ret, c); }
      case _ =>
    }
  }

  lemma StepHonest(s: State, a: Action)
    requires Locks(s) && CanHappen(s, a) && Honest(s.sh.pipe, OwnerPc(s))
    ensures Honest(Next(s, a).sh.pipe, OwnerPc(Next(s, a)))
  {
    hide Honest, ThreadStep;
    var s' := Next(s, a);
    LocksKept(s, a);
    if a.Run? {
      var pc, pc' := s.pcs[a.t], s'.pcs[a.t];
      assert LockOk(s.sh.lock, a.t, pc) && LockOk(s'.sh.lock, a.t, pc');
      ThreadMoves(s.sh, a.t, pc, a.c);
      if HasToken(pc) {
        ThreadHonest(s.sh, a.t, pc, a.c);
        NoWarningInHand(s'.sh.pipe, pc', Outside(Reading));
      } else {
        FreeHonest(s.sh, a.t, pc, a.c);
        NoWarningInHand(s.sh.pipe, OwnerPc(s), pc');
      }
    } else {
      WriterHonest(s, a);
    }
  }

  lemma NoWarningInHand(p: Pipe, pc: Pc, pc': Pc)
    requires Honest(p, pc)
    ensures !(pc'.Flushing? && pc'.f.Offer?) ==> Honest(p, pc')
  {
  }

  lemma FreeHonest(sh: Shared, t: Tid, pc: Pc, c: Choice)
    requires !HasToken(pc)
    ensures var r := ThreadStep(sh, t, pc, c); r.0.pipe == sh.pipe && !(r.1.Flushing? && r.1.f.Offer?)
  {
  }

  lemma WriterHonest(s: State, a: Action)
    requires CanHappen(s, a) && !a.Run? && Honest(s.sh.pipe, OwnerPc(s))
    ensures Honest(Next(s, a).sh.pipe, OwnerPc(s))
  {
  }

  /** In every run, good or not, every report so far is honest and what is not reported yet is counted exactly. */
  lemma {:induction false} ReportsAreHonest(states: seq<State>, k: nat)
    requires IsRun(states) && k < |states|
    ensures Honest(states[k].sh.pipe, OwnerPc(states[k]))
  {
    if k == 0 {
      var timedOut, rows :| states[0] == Init(timedOut, rows);
    } else {
      ReportsAreHonest(states, k - 1);
      RunsKeepInv(states, k - 1);
      assert Steps(states[k - 1], states[k - 1 + 1]);
      var a :| CanHappen(states[k - 1], a) && states[k] == Next(states[k - 1], a);
      StepHonest(states[k - 1], a);
    }
  }

  /** What an honest report shows can be read back: the lines and the bytes that are missing where it stands. */
  lemma ReportCanBeRead(edit: Edit)
    requires IsHonest(edit) && edit.Report? && edit.text != []
    ensures exists prefix ::
      ReadTwo(Shown(edit.text, prefix), COUNTERS_AT, COUNTERS_GAP) == Some((|edit.run|, |Flat(edit.run)|))
  {
    hide WarningText, ReadTwo, Shown;
    var newline, prefix :| edit.text == WarningText(edit.lines, edit.bytes, newline, prefix);
    WarningReads(edit.lines, edit.bytes, newline, prefix);
  }

  /** At most one newline a line, so the reported line count bounds the newlines lost. */
  lemma {:induction false} LinesBoundNewlines(run: seq<seq<byte>>)
    requires AreLines(run)
    ensures CountByte(Flat(run), LF) <= |run|
  {
    if run != [] {
      OneNewline(run[0]);
      LinesBoundNewlines(run[1..]);
      CountByteConcat(run[0], Flat(run[1..]), LF);
    }
  }

  lemma {:induction false} OneNewline(line: seq<byte>)
    requires forall k :: 0 <= k < |line| - 1 ==> line[k] != LF
    ensures CountByte(line, LF) <= 1
  {
    if |line| > 1 {
      assert line[0] != LF;
      assert forall k :: 0 <= k < |line[1..]| - 1 ==> line[1..][k] == line[k + 1];
      OneNewline(line[1..]);
    }
  }
}
