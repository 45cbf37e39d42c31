/**
 A discard from end to end: a run of the server's output forwarder that echoes the marker
 while its client stays connected, and the client's search in what the writer wrote.
 */
module MarkerRuns {
  import opened Bytes
  import opened Options
  import opened OutputLog
  import opened OutputCache
  import opened OutputForwarder
  import opened OutputForwarderProofs
  import opened OutputForwarderSafety
  import opened MarkerSearch

  /** The reader's step that takes the marker asked for and echoes it in front of `chunk`. */
  ghost predicate Injects(s: State, s': State, marker: seq<byte>, chunk: seq<byte>) {
    && READER in s.pcs && s.pcs[READER] == Handling(InjectMarker(chunk))
    && s.sh.env.discardMarker == Some(marker)
    && exists c :: CanHappen(s, Run(READER, c)) && s' == Next(s, Run(READER, c))
  }

  /** The client is there, and has not asked for another marker. */
  predicate Connected(env: Env) {
    !env.timedOut && env.discardMarker.None?
  }

  /** What was passed on to the queue when the marker came. */
  function PassedOn(s: State): seq<byte> {
    Taken(s.sh.pipe) + Queued(s.sh.pipe)
  }

  /** Statements from which a connected owner with an empty cache caches nothing. */
  predicate QuietPc(pc: Pc) {
    && (pc.Handling? ==> !pc.h.TakeBack? && !pc.h.Enqueue? && (pc.h.Send? || pc.h.CacheRest? ==> pc.h.rest == []))
    && (pc.Flushing? ==> pc.f.Test?)
  }

  predicate Quiet(p: Pipe, pc: Pc) {
    p.cache.lines == [] && p.cache.discardLines == 0 && QuietPc(pc)
  }

  /** The log is the same, or has taken in one more chunk. */
  predicate Grown(log: Log, log': Log) {
    log' == log || (log'.Then? && log'.before == log && log'.edit.Append? && log'.edit.marker == [])
  }

  lemma QuietHandle(sh: Shared, t: Tid, h: Handle, c: Choice)
    requires Connected(sh.env) && Quiet(sh.pipe, Handling(h))
    ensures
      var r := ThreadStep(sh, t, Handling(h), c);
      Quiet(r.0.pipe, r.1) && Grown(sh.pipe.log, r.0.pipe.log)
  {
    hide IndexByte, Cached, DroppedBy, Flat;
  }

  lemma QuietOther(sh: Shared, t: Tid, pc: Pc, c: Choice)
    requires !pc.Handling? && Connected(sh.env) && Quiet(sh.pipe, pc)
    ensures
      var r := ThreadStep(sh, t, pc, c);
      Quiet(r.0.pipe, r.1) && r.0.pipe.log == sh.pipe.log
  {
    hide Warning, WithoutCursorRequests;
  }

  lemma QuietThread(sh: Shared, t: Tid, pc: Pc, c: Choice)
    requires Connected(sh.env) && Quiet(sh.pipe, pc)
    ensures
      var r := ThreadStep(sh, t, pc, c);
      Quiet(r.0.pipe, r.1) && Grown(sh.pipe.log, r.0.pipe.log)
  {
    hide ThreadStep;
    if pc.Handling? {
      QuietHandle(sh, t, pc.h, c);
    } else {
      QuietOther(sh, t, pc, c);
    }
  }

  lemma OthersQuiet(s: State, a: Action)
    requires CanHappen(s, a) && !a.Run?
    ensures
      var p, p' := s.sh.pipe, Next(s, a).sh.pipe;
      p'.cache == p.cache && p'.log == p.log && Next(s, a).sh.lock == s.sh.lock
  {
  }

  lemma FreeKeepsPipe(sh: Shared, t: Tid, pc: Pc, c: Choice)
    requires pc.Outside?
    ensures ThreadStep(sh, t, pc, c).0.pipe == sh.pipe
  {
  }

  /** While the client is connected, a step of anyone leaves the cache empty and only takes in chunks. */
  lemma QuietStep(s: State, a: Action)
    requires Locks(s) && CanHappen(s, a) && Connected(s.sh.env) && Quiet(s.sh.pipe, OwnerPc(s))
    ensures Quiet(Next(s, a).sh.pipe, OwnerPc(Next(s, a))) && Grown(s.sh.pipe.log, Next(s, a).sh.pipe.log)
  {
    hide ThreadStep;
    var s' := Next(s, a);
    LocksKept(s, a);
    if a.Run? {
      var pc, pc' := s.pcs[a.t], s'.pcs[a.t];
      assert LockOk(s.sh.lock, a.t, pc) && LockOk(s'.sh.lock, a.t, pc');
      ThreadMoves(s.sh, a.t, pc, a.c);
      QuietThread(s.sh, a.t, pc, a.c);
      if !HasToken(pc) {
        FreeKeepsPipe(s.sh, a.t, pc, a.c);
      }
    } else {
      OthersQuiet(s, a);
    }
  }

  /** After the echo the cache is empty and nothing is unreported. */
  lemma InjectionQuiets(s: State, s': State, marker: seq<byte>, chunk: seq<byte>)
    requires Locks(s) && Injects(s, s', marker, chunk)
    ensures Quiet(s'.sh.pipe, OwnerPc(s'))
    ensures s'.sh.pipe.log == Then(Clear(s.sh.pipe).log, Append(marker, chunk))
    ensures OwnerPc(s) == Handling(InjectMarker(chunk))
  {
    assert LockOk(s.sh.lock, READER, s.pcs[READER]);
    hide Flat, Cleared;
    ClearedQuiet(s.sh.pipe);
  }

  lemma ClearedQuiet(p: Pipe)
    ensures Clear(p).cache.lines == [] && Clear(p).cache.discardLines == 0
  {
  }

  lemma RunStaysQuiet(states: seq<State>, k: nat)
    requires IsRun(states) && 0 < k < |states|
    requires Connected(states[k - 1].sh.env) && Quiet(states[k - 1].sh.pipe, OwnerPc(states[k - 1]))
    ensures Quiet(states[k].sh.pipe, OwnerPc(states[k]))
    ensures Grown(states[k - 1].sh.pipe.log, states[k].sh.pipe.log)
  {
    hide Next, Quiet, Grown, CanHappen;
    RunsKeepInv(states, k - 1);
    assert Steps(states[k - 1], states[k - 1 + 1]);
    var a :| CanHappen(states[k - 1], a) && states[k] == Next(states[k - 1], a);
    QuietStep(states[k - 1], a);
  }

  /** From the echo on, as long as the client stays connected, the log only takes in chunks. */
  lemma {:induction false} ConnectedLog(states: seq<State>, i: nat, k: nat, marker: seq<byte>, chunk: seq<byte>)
    returns (later: seq<seq<byte>>)
    requires IsRun(states) && i < k < |states| && Injects(states[i], states[i + 1], marker, chunk)
    requires forall j :: i < j <= k ==> Connected(states[j].sh.env)
    ensures Quiet(states[k].sh.pipe, OwnerPc(states[k]))
    ensures states[k].sh.pipe.log == Followed(Then(Clear(states[i].sh.pipe).log, Append(marker, chunk)), later)
    decreases k
  {
    hide IsRun, Quiet, Clear, Followed, Injects;
    var log := Then(Clear(states[i].sh.pipe).log, Append(marker, chunk));
    if k == i + 1 {
      RunInjects(states, i, marker, chunk);
      later := [];
      FollowedByNothing(log);
    } else {
      later := ConnectedLog(states, i, k - 1, marker, chunk);
      assert Connected(states[k - 1].sh.env);
      RunStaysQuiet(states, k);
      var log' := states[k].sh.pipe.log;
      if log' != states[k - 1].sh.pipe.log {
        FollowedBy(log, later, log'.edit.chunk);
        later := later + [log'.edit.chunk];
      }
    }
  }

  lemma RunInjects(states: seq<State>, i: nat, marker: seq<byte>, chunk: seq<byte>)
    requires IsRun(states) && i + 1 < |states| && Injects(states[i], states[i + 1], marker, chunk)
    ensures Quiet(states[i + 1].sh.pipe, OwnerPc(states[i + 1]))
    ensures states[i + 1].sh.pipe.log == Then(Clear(states[i].sh.pipe).log, Append(marker, chunk))
  {
    hide Injects, Quiet, Clear;
    RunsKeepInv(states, i);
    InjectionQuiets(states[i], states[i + 1], marker, chunk);
  }

  lemma FollowedByNothing(log: Log)
    ensures Followed(log, []) == log
  {
  }

  lemma FollowedBy(log: Log, later: seq<seq<byte>>, chunk: seq<byte>)
    ensures Followed(log, later + [chunk]) == Then(Followed(log, later), Append([], chunk))
  {
    assert (later + [chunk])[..|later|] == later;
  }

  lemma {:induction false} FollowedChild(log: Log, later: seq<seq<byte>>)
    ensures Child(Followed(log, later)) == Child(log) + Flat(later)
  {
    if later == [] {
      assert Child(log) + [] == Child(log);
    } else {
      var k := |later| - 1;
      FollowedChild(log, later[..k]);
      FlatNext(later, k);
      assert later[..k + 1] == later;
      assert Child(log) + Flat(later[..k]) + later[k] == Child(log) + (Flat(later[..k]) + later[k]);
    }
  }

  lemma GoodOneBefore(states: seq<State>, k: nat)
    requires IsRun(states) && 0 < k < |states| && Good(states[k].sh)
    ensures Good(states[k - 1].sh)
  {
    hide Next, CanHappen, Good;
    assert Steps(states[k - 1], states[k - 1 + 1]);
    var a :| CanHappen(states[k - 1], a) && states[k] == Next(states[k - 1], a);
    FailuresStay(states[k - 1], a);
  }

  /** A run without a failure now had none before. */
  lemma {:induction false} GoodBefore(states: seq<State>, i: nat, k: nat)
    requires IsRun(states) && i <= k < |states| && Good(states[k].sh)
    ensures Good(states[i].sh)
    decreases k
  {
    hide IsRun, Good;
    if i < k {
      GoodOneBefore(states, k);
      GoodBefore(states, i, k - 1);
    }
  }

  lemma FailuresStay(s: State, a: Action)
    requires CanHappen(s, a) && Good(Next(s, a).sh)
    ensures Good(s.sh)
  {
    hide IndexByte, Cached, DroppedBy, Warning, WithoutCursorRequests, Clear, Flat;
  }

  /** What had been passed on when the marker came is the stream in front of it. */
  lemma PassedOnIsReplay(states: seq<State>, i: nat, marker: seq<byte>, chunk: seq<byte>)
    requires IsRun(states) && i + 1 < |states| && Good(states[i].sh)
    requires Injects(states[i], states[i + 1], marker, chunk)
    ensures Valid(Clear(states[i].sh.pipe).log) && Replay(Clear(states[i].sh.pipe).log) == PassedOn(states[i])
    ensures Child(Clear(states[i].sh.pipe).log) + chunk == states[i].sh.past.read
  {
    hide Clear;
    RunsKeepInv(states, i);
    InjectionQuiets(states[i], states[i + 1], marker, chunk);
    ClearReplay(states[i].sh.pipe, []);
    ClearFrame(states[i].sh.pipe);
    assert PassedOn(states[i]) + [] == PassedOn(states[i]);
  }

  /** What the writer wrote so far begins the stream, and is all of it once the forwarder has returned. */
  lemma WrittenBegins(states: seq<State>, k: nat)
    requires IsRun(states) && k < |states| && Good(states[k].sh)
    ensures Valid(states[k].sh.pipe.log) && states[k].sh.pipe.written <= Replay(states[k].sh.pipe.log)
    ensures READER in states[k].pcs && Child(states[k].sh.pipe.log) <= states[k].sh.past.read
    ensures states[k].pcs[READER] == Outside(Returned) ==>
      && states[k].sh.pipe.written == Replay(states[k].sh.pipe.log)
      && states[k].sh.past.read == Child(states[k].sh.pipe.log)
  {
    RunsKeepInv(states, k);
    StreamIsWhole(states, k);
    if states[k].pcs[READER] == Outside(Returned) {
      ReturnedIsComplete(states, k);
    }
  }

  /** A beginning of `before + marker + after`: within the first two, or all of them and a beginning of the third. */
  lemma CutBeginning(before: seq<byte>, marker: seq<byte>, after: seq<byte>, s: seq<byte>)
    requires s <= before + marker + after
    ensures |s| < |before| + |marker| ==> s < before + marker
    ensures |s| >= |before| + |marker| ==>
      var rest := after[..|s| - |before| - |marker|];
      s == before + marker + rest && rest <= after
  {
    var whole := before + marker + after;
    assert s == whole[..|s|];
    if |s| < |before| + |marker| {
      assert whole[..|s|] == (before + marker)[..|s|];
    }
  }

  /** What a client has found in the beginning `s` of the stream. */
  lemma BeginningGives(before: seq<byte>, marker: seq<byte>, after: seq<byte>, s: seq<byte>)
    requires |marker| > 0 && AbsentBefore(before, marker) && s <= before + marker + after
    ensures |s| < |before| + |marker| ==> Expected(s, marker) == Result([], [])
    ensures |s| >= |before| + |marker| ==>
      && Expected(s, marker).reports == [Discard(CountByte(before, LF) + 1, |before|)]
      && Expected(s, marker).written == after[..|s| - |before| - |marker|]
  {
    hide Expected, AbsentBefore, CountByte;
    CutBeginning(before, marker, after, s);
    if |s| < |before| + |marker| {
      MarkerNotYet(before, marker, s);
    } else {
      MarkerCuts(before, marker, after[..|s| - |before| - |marker|]);
    }
  }

  /** The chunk and everything after it, as the log and as the reads have it. */
  lemma SinceChunk(states: seq<State>, i: nat, k: nat, marker: seq<byte>, chunk: seq<byte>)
    returns (after: seq<byte>)
    requires IsRun(states) && i < k < |states| && Good(states[k].sh)
    requires Injects(states[i], states[i + 1], marker, chunk)
    requires forall j :: i < j <= k ==> Connected(states[j].sh.env)
    ensures Valid(states[k].sh.pipe.log) && Replay(states[k].sh.pipe.log) == PassedOn(states[i]) + marker + after
    ensures |chunk| <= |states[i].sh.past.read| <= |states[k].sh.past.read|
    ensures
      var since := states[k].sh.past.read[|states[i].sh.past.read| - |chunk|..];
      after <= since && (READER in states[k].pcs && states[k].pcs[READER] == Outside(Returned) ==> after == since)
  {
    hide IsRun, Good, Injects, Connected, Clear;
    var later := ConnectedLog(states, i, k, marker, chunk);
    GoodBefore(states, i, k);
    PassedOnIsReplay(states, i, marker, chunk);
    WrittenBegins(states, k);
    var before := Clear(states[i].sh.pipe).log;
    FollowedReplay(Then(before, Append(marker, chunk)), later);
    FollowedChild(Then(before, Append(marker, chunk)), later);
    after := chunk + Flat(later);
    Regrouped(Replay(before), marker, chunk, Flat(later));
    Regrouped(Child(before), [], chunk, Flat(later));
    Suffix(Child(before), after, states[k].sh.past.read);
  }

  lemma Regrouped(a: seq<byte>, b: seq<byte>, c: seq<byte>, d: seq<byte>)
    ensures a + b + c + d == a + b + (c + d)
    ensures a + [] + c + d == a + (c + d) == a + c + d
  {
  }

  lemma Suffix(a: seq<byte>, b: seq<byte>, s: seq<byte>)
    requires a + b <= s
    ensures b <= s[|a|..] && (s == a + b ==> s[|a|..] == b)
  {
    assert s == (a + b) + s[|a| + |b|..];
  }

  /** The writer never takes back what it wrote. */
  lemma {:induction false} WrittenGrows(states: seq<State>, j: nat, k: nat)
    requires IsRun(states) && j <= k < |states|
    ensures states[j].sh.pipe.written <= states[k].sh.pipe.written
    decreases k
  {
    hide IsRun;
    if j < k {
      WrittenGrows(states, j, k - 1);
      WrittenOneMore(states, k);
    }
  }

  lemma WrittenOneMore(states: seq<State>, k: nat)
    requires IsRun(states) && 0 < k < |states|
    ensures states[k - 1].sh.pipe.written <= states[k].sh.pipe.written
  {
    hide Next, CanHappen;
    assert Steps(states[k - 1], states[k - 1 + 1]);
    var a :| CanHappen(states[k - 1], a) && states[k] == Next(states[k - 1], a);
    StepWrites(states[k - 1], a);
  }

  lemma StepWrites(s: State, a: Action)
    requires CanHappen(s, a)
    ensures s.sh.pipe.written <= Next(s, a).sh.pipe.written
  {
    hide IndexByte, Cached, DroppedBy, Warning, WithoutCursorRequests, Flat;
  }

  /** Taking the same beginning off both sides. */
  lemma LessBeginning(early: seq<byte>, passed: seq<byte>, s: seq<byte>, marker: seq<byte>, after: seq<byte>)
    requires early <= passed && early + s <= passed + marker + after
    ensures s <= passed[|early|..] + marker + after
    ensures early + s == passed + marker + after ==> s == passed[|early|..] + marker + after
  {
    var rest := passed[|early|..] + marker + after;
    assert passed + marker + after == early + rest;
    assert s == (early + s)[|early|..];
  }

  /** What the writer had written when the client asked was passed on before the echo. */
  lemma WrittenWasPassed(states: seq<State>, j: nat, i: nat)
    requires IsRun(states) && j <= i < |states|
    ensures states[j].sh.pipe.written <= PassedOn(states[i])
  {
    hide IsRun;
    WrittenGrows(states, j, i);
  }

  /**
   In a run without a failure, the client asks for `marker` no later than the j-th state, and
   has by then let go of the beginning `early` of what the writer wrote: handed it on, or
   counted it.  The i-th step echoes the marker in front of `chunk`, and the client stays
   connected.  `s` is all the rest that the writer has written in the k-th state.
   */
  ghost predicate Echoed(
    states: seq<State>, j: nat, i: nat, k: nat, marker: seq<byte>, chunk: seq<byte>, early: seq<byte>, s: seq<byte>)
  {
    && IsRun(states) && j <= i < k < |states| && Good(states[k].sh)
    && Injects(states[i], states[i + 1], marker, chunk)
    && (forall m :: i < m <= k ==> Connected(states[m].sh.env))
    && early <= states[j].sh.pipe.written && early + s == states[k].sh.pipe.written
  }

  /** What was passed on before the echo, but for what the client had let go of. */
  function Before(s: State, early: seq<byte>): seq<byte> {
    if |early| <= |PassedOn(s)| then PassedOn(s)[|early|..] else []
  }

  /** The child's output from the chunk behind the echo on. */
  function Since(s: State, s': State, chunk: seq<byte>): seq<byte> {
    var from := |s.sh.past.read| - |chunk|;
    if 0 <= from <= |s'.sh.past.read| then s'.sh.past.read[from..] else []
  }

  predicate HasReturnedAll(s: State) {
    READER in s.pcs && s.pcs[READER] == Outside(Returned)
  }

  /** The rest of the stream is what was before the echo, the marker, and output from the chunk on. */
  lemma LeftToRead(
    states: seq<State>, j: nat, i: nat, k: nat, marker: seq<byte>, chunk: seq<byte>, early: seq<byte>, s: seq<byte>)
    returns (after: seq<byte>)
    requires Echoed(states, j, i, k, marker, chunk, early, s)
    ensures |early| <= |PassedOn(states[i])| && |chunk| <= |states[i].sh.past.read| <= |states[k].sh.past.read|
    ensures s <= Before(states[i], early) + marker + after && after <= Since(states[i], states[k], chunk)
    ensures HasReturnedAll(states[k]) ==>
      s == Before(states[i], early) + marker + after && after == Since(states[i], states[k], chunk)
  {
    hide IsRun, Good, Injects, Connected, PassedOn, Replay;
    after := SinceChunk(states, i, k, marker, chunk);
    WrittenBegins(states, k);
    WrittenWasPassed(states, j, i);
    LessBeginning(early, PassedOn(states[i]), s, marker, after);
  }

  /**
   In the beginning `s` of `before`, the marker and `since`, the search finds nothing until
   the marker is complete, then what follows it and one report on what was before it.
   */
  ghost predicate Stands(s: seq<byte>, marker: seq<byte>, before: seq<byte>, since: seq<byte>) {
    var got := Expected(s, marker);
    && got.written <= since
    && (|s| < |before| + |marker| ==> got == Result([], []))
    && (|s| >= |before| + |marker| ==>
          && got.reports == [Discard(CountByte(before, LF) + 1, |before|)]
          && |got.written| == |s| - |before| - |marker|)
  }

  /**
   However the rest of the stream is cut into reads, the search finds nothing until the
   marker has arrived, then the child's output from that chunk on and one report on what
   was before the echo; and all of that output once the forwarder returns.
   */
  lemma InjectedMarkerCuts(
    states: seq<State>, j: nat, i: nat, k: nat, marker: seq<byte>, chunk: seq<byte>,
    early: seq<byte>, pieces: seq<seq<byte>>)
    requires Echoed(states, j, i, k, marker, chunk, early, Flat(pieces))
    requires |marker| > 0 && AbsentBefore(Before(states[i], early), marker)
    ensures |early| <= |PassedOn(states[i])| && |chunk| <= |states[i].sh.past.read| <= |states[k].sh.past.read|
    ensures
      var before, since := Before(states[i], early), Since(states[i], states[k], chunk);
      && Stands(Flat(pieces), marker, before, since)
      && (HasReturnedAll(states[k]) ==>
            |Flat(pieces)| >= |before| + |marker| && Expected(Flat(pieces), marker).written == since)
  {
    hide IsRun, Good, Injects, Connected, Expected, AbsentBefore, CountByte, PassedOn, Before, Since;
    var after := LeftToRead(states, j, i, k, marker, chunk, early, Flat(pieces));
    BeginningGives(Before(states[i], early), marker, after, Flat(pieces));
  }

  /**
   What a client's forwarder adds, from the state `base` in which it was asked: `got` more
   bytes than the marker needed bring as many of the child's output from the chunk on.
   */
  ghost predicate Adds(base: Base, r: Result, got: int, before: seq<byte>, since: seq<byte>, telling: bool) {
    && (got < 0 ==> r == Result(base.written, base.reports))
    && (got >= 0 ==>
          && got <= |since| && r.written == base.written + since[..got]
          && r.reports == base.reports +
               if telling then [Discard(base.lines + CountByte(before, LF) + 1, base.bytes + |before|)] else [])
  }

  lemma SearchAdds(
    base: Base, later: seq<byte>, marker: seq<byte>, telling: bool, before: seq<byte>, since: seq<byte>)
    requires later == [] ==> |base.held| < |before| + |marker|
    requires Stands(base.held + later, marker, before, since)
    ensures
      var got := |base.held + later| - |before| - |marker|;
      var r := Outcome(base, later, Some(marker), telling);
      Adds(base, r, got, before, since, telling) && r.written <= base.written + since
  {
    hide Expected, CountByte, Outcome;
    OutcomeOfHeld(base, later, marker, telling);
    var w := Expected(base.held + later, marker).written;
    assert base.written + [] == base.written && base.reports + [] == base.reports;
    assert w == since[..|w|];
    assert base.written + since == base.written + w + since[|w|..];
  }

  /**
   The same of the client's forwarder, whatever it was doing when it was asked: with the
   bytes it held and the reads that follow, it adds to what the caller has exactly the
   child's output from that chunk on, and to what the client was told one report.
   */
  method Discards(
    f: ClientForwarder, pieces: seq<seq<byte>>, accepts: nat -> nat, marker: seq<byte>,
    ghost states: seq<State>, ghost j: nat, ghost i: nat, ghost k: nat, ghost chunk: seq<byte>, ghost early: seq<byte>)
    returns (more: bool)
    requires Echoed(states, j, i, k, marker, chunk, early, f.cacheBuf + Flat(pieces))
    requires early + f.cacheBuf <= states[j].sh.pipe.written
    requires |marker| > 0 && AbsentBefore(Before(states[i], early), marker)
    modifies f
    ensures
      var before, since := Before(states[i], early), Since(states[i], states[k], chunk);
      var got := |old(f.cacheBuf) + Flat(pieces)| - |before| - |marker|;
      && (more ==> Adds(old(f.Now()), Result(f.written, f.reports), got, before, since, f.telling))
      && (more && HasReturnedAll(states[k]) ==> got == |since| && f.written == old(f.written) + since)
      && (!more ==> f.written < old(f.written) + since)
  {
    ghost var base := f.Now();
    RunAdds(base, pieces, marker, f.telling, states, j, i, k, chunk, early);
    hide Echoed, AbsentBefore, Before, Since, Adds, Outcome, Finds, Flat;
    more := Search(f, pieces, accepts, marker);
  }

  /** A client asks for a marker and reads on. */
  method Search(f: ClientForwarder, pieces: seq<seq<byte>>, accepts: nat -> nat, marker: seq<byte>)
    returns (more: bool)
    modifies f
    ensures more ==>
      Result(f.written, f.reports) == Outcome(old(f.Now()), Flat(pieces), Some(marker), f.telling)
    ensures !more ==> f.written < Outcome(old(f.Now()), Flat(pieces), Some(marker), f.telling).written
  {
    hide Outcome, Finds, Flat;
    ghost var base := f.Now();
    f.StoreMarker(marker);
    more := f.Forward(pieces, accepts, base, Some(marker));
  }

  lemma RunAdds(
    base: Base, pieces: seq<seq<byte>>, marker: seq<byte>, telling: bool,
    states: seq<State>, j: nat, i: nat, k: nat, chunk: seq<byte>, early: seq<byte>)
    requires Echoed(states, j, i, k, marker, chunk, early, base.held + Flat(pieces))
    requires early + base.held <= states[j].sh.pipe.written
    requires |marker| > 0 && AbsentBefore(Before(states[i], early), marker)
    ensures
      var before, since := Before(states[i], early), Since(states[i], states[k], chunk);
      var got := |base.held + Flat(pieces)| - |before| - |marker|;
      var r := Outcome(base, Flat(pieces), Some(marker), telling);
      && Adds(base, r, got, before, since, telling) && r.written <= base.written + since
      && (HasReturnedAll(states[k]) ==> got == |since| && r.written == base.written + since)
  {
    var before, since := Before(states[i], early), Since(states[i], states[k], chunk);
    HeldIsEarly(states, j, i, early, base.held);
    hide IsRun, Good, Injects, Connected, AbsentBefore, Since, Outcome, PassedOn, Flat;
    FlatWith(base.held, pieces);
    InjectedMarkerCuts(states, j, i, k, marker, chunk, early, [base.held] + pieces);
    hide Stands, Adds;
    SearchAdds(base, Flat(pieces), marker, telling, before, since);
    if HasReturnedAll(states[k]) {
      AllAdded(base, Flat(pieces), marker, telling, before, since);
    }
  }

  lemma AllAdded(
    base: Base, later: seq<byte>, marker: seq<byte>, telling: bool, before: seq<byte>, since: seq<byte>)
    requires later == [] ==> |base.held| < |before| + |marker|
    requires Stands(base.held + later, marker, before, since)
    requires |base.held + later| >= |before| + |marker| && Expected(base.held + later, marker).written == since
    ensures |base.held + later| - |before| - |marker| == |since|
    ensures Outcome(base, later, Some(marker), telling).written == base.written + since
  {
    hide Expected, CountByte, Outcome;
    OutcomeOfHeld(base, later, marker, telling);
  }

  lemma FlatWith(held: seq<byte>, pieces: seq<seq<byte>>)
    ensures Flat([held] + pieces) == held + Flat(pieces)
  {
    assert ([held] + pieces)[1..] == pieces;
  }

  /** What a search brings is what stands in the bytes held and read, if the held ones alone do not hold the marker. */
  lemma OutcomeOfHeld(base: Base, later: seq<byte>, marker: seq<byte>, telling: bool)
    requires later == [] ==> Expected(base.held + later, marker) == Result([], [])
    ensures
      var e := Expected(base.held + later, marker);
      Outcome(base, later, Some(marker), telling) ==
        Result(base.written + e.written,
               base.reports + if telling && e.reports != [] then [Added(base, e.reports[0])] else [])
  {
    hide Index, CountByte;
    assert base.written + [] == base.written && base.reports + [] == base.reports;
  }

  /** Nothing the client had when it asked reaches beyond what was passed on before the echo. */
  lemma HeldIsEarly(states: seq<State>, j: nat, i: nat, early: seq<byte>, held: seq<byte>)
    requires IsRun(states) && j <= i < |states| && early + held <= states[j].sh.pipe.written
    ensures |early| + |held| <= |PassedOn(states[i])|
  {
    WrittenGrows(states, j, i);
  }
}
