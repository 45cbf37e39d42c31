/**
 When output may be thrown away.

 A run is taken here with its actions, so that requests can be told apart from what the
 forwarder does on its own.  Output goes unseen, reported out of band only, on a marker or
 a discard that was asked for and on a redraw that succeeded; it goes with a warning when
 the cache overflowed; and it goes in no other way.
 */
module OutputDiscards {
  import opened Bytes
  import opened Options
  import opened OutputLog
  import opened OutputCache
  import opened OutputForwarder
  import opened OutputForwarderProofs
  import opened OutputForwarderSafety
  import opened OutputReports
  import opened MarkerRuns

  predicate Acts(s: State, a: Action, s': State) {
    CanHappen(s, a) && s' == Next(s, a)
  }

  /** A run with the actions that made it. */
  ghost predicate Does(states: seq<State>, actions: seq<Action>) {
    && |states| == |actions| + 1
    && (exists timedOut, rows :: states[0] == Init(timedOut, rows))
    && (forall k :: 0 <= k < |actions| ==> Acts(states[k], actions[k], states[k + 1]))
  }

  lemma DoesIsRun(states: seq<State>, actions: seq<Action>)
    requires Does(states, actions)
    ensures IsRun(states)
  {
    hide Next, CanHappen;
    forall k | 0 <= k < |states| - 1
      ensures Steps(states[k], states[k + 1])
    {
      assert Acts(states[k], actions[k], states[k + 1]);
    }
  }

  /** Reports that leave nothing in the stream, and those that leave a text. */
  function Silent(log: Log): nat {
    match log
    case Empty => 0
    case Then(before, edit) => Silent(before) + if edit.Report? && edit.text == [] then 1 else 0
  }

  function Warned(log: Log): nat {
    match log
    case Empty => 0
    case Then(before, edit) => Warned(before) + if edit.Report? && edit.text != [] then 1 else 0
  }

  function Reported(log: Log): nat {
    Silent(log) + Warned(log)
  }

  /** Chunks that had a marker put in front. */
  function Echoes(log: Log): nat {
    match log
    case Empty => 0
    case Then(before, edit) => Echoes(before) + if edit.Append? && edit.marker != [] then 1 else 0
  }

  predicate TakesMarker(sh: Shared, pc: Pc) {
    pc.Handling? && pc.h.InjectMarker? && sh.env.discardMarker.Some?
  }

  /** A thread at `pc` takes a marker, honours a discard, or has redrawn the screen after an overflow. */
  predicate Requested(sh: Shared, pc: Pc, c: Choice) {
    || TakesMarker(sh, pc)
    || (pc.Handling? && pc.h.DiscardCached? && sh.env.discardOutput)
    || (pc.Flushing? && pc.f.Redraw? && c.ok && sh.pipe.cache.discardLines > 0)
  }

  predicate HasPending(cache: Cache) {
    cache.lines != [] || cache.discardLines > 0
  }

  predicate IsEmptied(p: Pipe) {
    p.cache.lines == [] && p.dropped == [] && p.cache.discardLines == 0 && p.cache.discardBytes == 0
    && !p.cache.hasNewLine
  }

  /** A thread is about to put the warning on the free queue. */
  predicate Warns(sh: Shared, pc: Pc) {
    pc.Flushing? && pc.f.Offer? && pc.f.at.Try? && pc.f.i < 0 && sh.pipe.slot.None?
  }

  /** What a step does to the reports. */
  predicate Tells(sh: Shared, pc: Pc, c: Choice, p': Pipe) {
    && Silent(p'.log) == Silent(sh.pipe.log) + (if Requested(sh, pc, c) && HasPending(sh.pipe.cache) then 1 else 0)
    && Warned(p'.log) == Warned(sh.pipe.log) + (if Warns(sh, pc) then 1 else 0)
    && Echoes(p'.log) == Echoes(sh.pipe.log)
         + (if TakesMarker(sh, pc) && sh.env.discardMarker.value != [] then 1 else 0)
    && (Requested(sh, pc, c) ==> IsEmptied(p'))
    && (|p'.dropped| > |sh.pipe.dropped| ==> |p'.cache.lines| == MaxLines(sh.env.rows))
    && (sh.pipe.cache.discardLines == |sh.pipe.dropped| ==>
          sh.pipe.dropped <= p'.dropped || Reported(p'.log) > Reported(sh.pipe.log))
  }

  lemma ClearTells(p: Pipe)
    ensures Silent(Clear(p).log) == Silent(p.log) + if HasPending(p.cache) then 1 else 0
    ensures Warned(Clear(p).log) == Warned(p.log) && Echoes(Clear(p).log) == Echoes(p.log) && IsEmptied(Clear(p))
  {
  }

  lemma CacheInTells(p: Pipe, buf: seq<byte>, rows: int)
    ensures CacheIn(p, buf, rows).log == p.log && p.dropped <= CacheIn(p, buf, rows).dropped
    ensures |CacheIn(p, buf, rows).dropped| > |p.dropped| ==> |CacheIn(p, buf, rows).cache.lines| == MaxLines(rows)
  {
    hide Cached, AddLines;
  }

  lemma InjectTells(sh: Shared, h: Handle, c: Choice)
    requires h.InjectMarker? || h.DiscardCached?
    ensures Tells(sh, Handling(h), c, HandleStep(sh, h, c).0.pipe)
  {
    hide Clear;
    ClearTells(sh.pipe);
  }

  lemma HandleTells(sh: Shared, h: Handle, c: Choice)
    requires h.CacheWhenAway? || h.CacheWhenCached? || h.SplitWhenAway? || h.CacheRest?
    ensures Tells(sh, Handling(h), c, HandleStep(sh, h, c).0.pipe)
  {
    hide IndexByte, CacheIn, Silent, Warned, Echoes;
    if h.CacheWhenAway? || h.CacheWhenCached? { CacheInTells(sh.pipe, h.buf, sh.env.rows); }
    if h.SplitWhenAway? { CacheInTells(HasNewLine(sh.pipe), h.buf, sh.env.rows); }
    if h.CacheRest? { CacheInTells(sh.pipe, h.rest, sh.env.rows); }
  }

  lemma SendTells(sh: Shared, t: Tid, h: Handle, c: Choice)
    requires h.Send? || h.TakeBack? || h.Enqueue?
    ensures Tells(sh, Handling(h), c, ThreadStep(sh, t, Handling(h), c).0.pipe)
  {
    hide IndexByte, CacheIn, Silent, Warned, Echoes;
    if h.Enqueue? { CacheInTells(sh.pipe.(slot := Some(h.buf)), h.left, sh.env.rows); }
  }

  lemma FlushTells(sh: Shared, f: Flush, ret: Return, c: Choice)
    requires !f.Offer? && FlushShape(sh.pipe.cache, f)
    ensures Tells(sh, Flushing(f, ret), c, FlushStep(sh, f, ret, c).0.pipe)
  {
    hide Clear, WithoutCursorRequests, Warning;
    ClearTells(sh.pipe);
  }

  lemma OfferTells(sh: Shared, t: Tid, f: Flush, ret: Return, c: Choice)
    requires f.Offer? && (f.i < 0 ==> f.line != [])
    ensures Tells(sh, Flushing(f, ret), c, OfferStep(sh, t, f, ret).0.pipe)
  {
  }

  lemma OtherTells(sh: Shared, t: Tid, pc: Pc, c: Choice)
    requires !pc.Handling? && !pc.Flushing?
    ensures Tells(sh, pc, c, ThreadStep(sh, t, pc, c).0.pipe) && ThreadStep(sh, t, pc, c).0.pipe == sh.pipe
  {
  }

  lemma ThreadTells(sh: Shared, t: Tid, pc: Pc, c: Choice)
    requires Shape(sh.pipe.cache, pc) && Honest(sh.pipe, pc)
    ensures Tells(sh, pc, c, ThreadStep(sh, t, pc, c).0.pipe)
  {
    hide Tells, Honest;
    match pc {
      case Handling(h) =>
        if h.Send? || h.TakeBack? || h.Enqueue? { SendTells(sh, t, h, c); }
        else if h.InjectMarker? || h.DiscardCached? { InjectTells(sh, h, c); }
        else { HandleTells(sh, h, c); }
      case Flushing(f, ret) =>
        if f.Offer? {
          if f.i < 0 { WarningShows(sh.pipe, pc); }
          OfferTells(sh, t, f, ret, c);
        } else {
          FlushTells(sh, f, ret, c);
        }
      case _ => OtherTells(sh, t, pc, c);
    }
  }

  lemma WarningShows(p: Pipe, pc: Pc)
    requires Honest(p, pc) && pc.Flushing? && pc.f.Offer? && pc.f.i < 0
    ensures pc.f.line != []
  {
    var newline, prefix :| pc.f.line == WarningText(p.cache.discardLines, p.cache.discardBytes, newline, prefix);
  }

  // -------------------------------------------------------------------- in runs

  predicate StepTells(s: State, a: Action, s': State) {
    if a.Run? then a.t in s.pcs && Tells(s.sh, s.pcs[a.t], a.c, s'.sh.pipe)
    else
      s'.sh.pipe.log == s.sh.pipe.log && s'.sh.pipe.cache == s.sh.pipe.cache && s'.sh.pipe.dropped == s.sh.pipe.dropped
  }

  lemma ActionTells(s: State, a: Action)
    requires Inv(s) && Honest(s.sh.pipe, OwnerPc(s)) && CanHappen(s, a)
    ensures StepTells(s, a, Next(s, a))
  {
    hide Honest, Tells;
    if a.Run? {
      var pc := s.pcs[a.t];
      hide ThreadStep;
      assert LockOk(s.sh.lock, a.t, pc);
      if HasToken(pc) {
        OwnerShape(s, a.t);
        ThreadTells(s.sh, a.t, pc, a.c);
      } else {
        OtherTells(s.sh, a.t, pc, a.c);
      }
    }
  }

  lemma OwnerShape(s: State, t: Tid)
    requires Inv(s) && t in s.pcs && HasToken(s.pcs[t])
    ensures s.pcs[t] == OwnerPc(s) && Shape(s.sh.pipe.cache, s.pcs[t])
  {
    hide Shape, Conserved;
    assert LockOk(s.sh.lock, t, s.pcs[t]);
  }

  lemma RunTells(states: seq<State>, actions: seq<Action>, k: nat)
    requires Does(states, actions) && k < |actions|
    ensures Acts(states[k], actions[k], states[k + 1]) && StepTells(states[k], actions[k], states[k + 1])
    ensures Inv(states[k]) && Honest(states[k].sh.pipe, OwnerPc(states[k]))
    ensures Inv(states[k + 1]) && Honest(states[k + 1].sh.pipe, OwnerPc(states[k + 1]))
  {
    hide Inv, Honest, Next, CanHappen, StepTells;
    DoesIsRun(states, actions);
    RunsKeepInv(states, k);
    RunsKeepInv(states, k + 1);
    ReportsAreHonest(states, k);
    ReportsAreHonest(states, k + 1);
    assert Acts(states[k], actions[k], states[k + 1]);
    ActionTells(states[k], actions[k]);
  }

  /**
   Cached output is thrown away unseen exactly where a marker is taken, a discard that was
   asked for is honoured, or a redraw succeeded after an overflow, and then all of it; a
   warning is queued exactly where a flush offers it; and lines are dropped only from a
   cache that is full.
   */
  lemma DiscardsOnRequest(states: seq<State>, actions: seq<Action>, k: nat)
    requires Does(states, actions) && k < |actions|
    ensures
      var s, a, p, p' := states[k], actions[k], states[k].sh.pipe, states[k + 1].sh.pipe;
      && (a.Run? ==> a.t in s.pcs)
      && var asked := a.Run? && Requested(s.sh, s.pcs[a.t], a.c);
      && (Silent(p'.log) > Silent(p.log) <==> asked && HasPending(p.cache))
      && (asked ==> IsEmptied(p'))
      && (Warned(p'.log) > Warned(p.log) <==> a.Run? && Warns(s.sh, s.pcs[a.t]))
      && (|p'.dropped| > |p.dropped| ==> |p'.cache.lines| == MaxLines(s.sh.env.rows))
  {
    hide Inv, Honest, Acts, Requested, Warns, IsEmptied, HasPending, Silent, Warned, Echoes;
    RunTells(states, actions, k);
  }

  /** A redraw counts if it succeeds, and if it arms the discard flag. */
  function RedrawCalls(pc: Pc, c: Choice): nat {
    if pc.Flushing? && pc.f.Redraw? then (if c.ok then 1 else 0) + (if c.armed then 1 else 0) else 0
  }

  /** How often an action calls for output to be thrown away, now or later. */
  function Calls(s: State, a: Action): nat {
    match a
    case AskMarker(_) => 1
    case AskDiscard => 1
    case Run(t, c) =>
      if t in s.pcs then RedrawCalls(s.pcs[t], c) else 0
    case _ => 0
  }

  function AllCalls(states: seq<State>, actions: seq<Action>, k: nat): nat
    requires k <= |actions| < |states|
  {
    if k == 0 then 0 else AllCalls(states, actions, k - 1) + Calls(states[k - 1], actions[k - 1])
  }

  /** Calls that are still to be honoured. */
  function Standing(env: Env): nat {
    (if env.discardMarker.Some? then 1 else 0) + (if env.discardOutput then 1 else 0)
  }

  lemma ThreadStanding(sh: Shared, t: Tid, pc: Pc, c: Choice)
    ensures
      var env' := ThreadStep(sh, t, pc, c).0.env;
      && Standing(env') + (if Requested(sh, pc, c) then 1 else 0) <= Standing(sh.env) + RedrawCalls(pc, c)
      && env'.rows == sh.env.rows
  {
    hide IndexByte, Clear, CacheIn, Warn, Warning, WithoutCursorRequests;
  }

  lemma StepStanding(s: State, a: Action)
    requires CanHappen(s, a)
    ensures
      var asked := a.Run? && Requested(s.sh, s.pcs[a.t], a.c);
      Standing(Next(s, a).sh.env) + (if asked then 1 else 0) <= Standing(s.sh.env) + Calls(s, a)
    ensures a.Run? ==> Next(s, a).sh.env.rows == s.sh.env.rows
  {
    hide ThreadStep, Requested;
    if a.Run? {
      ThreadStanding(s.sh, a.t, s.pcs[a.t], a.c);
    }
  }

  /**
   Output is thrown away unseen no more often than it was called for: each request is
   honoured once at most, and so is each redraw and each discard that a redraw arms.
   */
  lemma {:induction false} HonouredOnce(states: seq<State>, actions: seq<Action>, k: nat)
    requires Does(states, actions) && k < |states|
    ensures Silent(states[k].sh.pipe.log) + Standing(states[k].sh.env) <= AllCalls(states, actions, k)
  {
    if k > 0 {
      hide Inv, Honest, Next, CanHappen, Requested, HasPending, Calls, Standing, Silent, StepTells;
      HonouredOnce(states, actions, k - 1);
      RunTells(states, actions, k - 1);
      DiscardsCount(states[k - 1], actions[k - 1], states[k]);
    } else {
      assert states[0].sh.pipe.log == Empty && Standing(states[0].sh.env) == 0;
    }
  }

  lemma DiscardsCount(s: State, a: Action, s': State)
    requires Acts(s, a, s') && StepTells(s, a, s')
    ensures Silent(s'.sh.pipe.log) + Standing(s'.sh.env) <= Silent(s.sh.pipe.log) + Standing(s.sh.env) + Calls(s, a)
  {
    hide Next, Requested, HasPending, Calls, Standing, Silent;
    StepStanding(s, a);
  }

  /** Nobody calls for output to be thrown away. */
  ghost predicate Uncalled(states: seq<State>, actions: seq<Action>, k: nat)
    requires k <= |actions| < |states|
  {
    forall i :: 0 <= i < k ==> Calls(states[i], actions[i]) == 0
  }

  lemma {:induction false} UncalledSums(states: seq<State>, actions: seq<Action>, k: nat)
    requires k <= |actions| < |states| && Uncalled(states, actions, k)
    ensures AllCalls(states, actions, k) == 0
  {
    if k > 0 {
      UncalledSums(states, actions, k - 1);
    }
  }

  /** Every report in the log is a warning with its counts. */
  ghost predicate EachWarns(log: Log) {
    log.Empty? ||
    (EachWarns(log.before) && (log.edit.Report? ==> IsWarning(log.edit.text, log.edit.lines, log.edit.bytes)))
  }

  lemma {:induction false} NoneSilent(log: Log)
    requires AllHonest(log) && Silent(log) == 0
    ensures EachWarns(log)
  {
    hide IsWarning, IsCounted;
    if log.Then? {
      NoneSilent(log.before);
    }
  }

  /** While nobody calls for output to be thrown away, every line that is lost is announced in the stream. */
  lemma LossesAreAnnounced(states: seq<State>, actions: seq<Action>, k: nat)
    requires Does(states, actions) && k < |states| && Uncalled(states, actions, k)
    ensures EachWarns(states[k].sh.pipe.log)
  {
    hide Uncalled, Calls, Next, CanHappen;
    HonouredOnce(states, actions, k);
    UncalledSums(states, actions, k);
    DoesIsRun(states, actions);
    ReportsAreHonest(states, k);
    NoneSilent(states[k].sh.pipe.log);
  }

  predicate Rearms(pc: Pc, c: Choice) {
    pc.Flushing? && pc.f.Redraw? && c.armed
  }

  predicate Honours(sh: Shared, pc: Pc) {
    TakesMarker(sh, pc) || (pc.Handling? && pc.h.DiscardCached? && sh.env.discardOutput)
  }

  lemma ThreadRequests(sh: Shared, t: Tid, pc: Pc, c: Choice)
    ensures
      ThreadStep(sh, t, pc, c).0.env ==
      sh.env.(discardMarker := if TakesMarker(sh, pc) then None else sh.env.discardMarker,
              discardOutput := if Honours(sh, pc) then false else Rearms(pc, c) || sh.env.discardOutput)
  {
    hide IndexByte, Clear, CacheIn, Warn, Warning, WithoutCursorRequests;
  }

  /**
   What the forwarder goes by: the client is away exactly from a disconnection to the next
   reconnection; a marker stands from its request until it is taken; and a discard stands
   from its request, or from a redraw that arms it, until it or a marker is honoured.
   */
  lemma RequestsStand(states: seq<State>, actions: seq<Action>, k: nat)
    requires Does(states, actions) && k < |actions|
    ensures
      var s, a, env, env' := states[k], actions[k], states[k].sh.env, states[k + 1].sh.env;
      && (a.Run? ==> a.t in s.pcs)
      && env'.timedOut == (if a == Disconnect then true else if a.Reconnect? then false else env.timedOut)
      && env'.discardMarker ==
           (if a.AskMarker? then Some(a.marker)
            else if a.Run? && TakesMarker(s.sh, s.pcs[a.t]) then None
            else env.discardMarker)
      && (env'.discardOutput <==>
            || a == AskDiscard || (a.Run? && Rearms(s.pcs[a.t], a.c))
            || (env.discardOutput && !(a.Run? && Honours(s.sh, s.pcs[a.t]))))
  {
    hide ThreadStep;
    var s, a := states[k], actions[k];
    assert Acts(states[k], actions[k], states[k + 1]);
    if a.Run? {
      ThreadRequests(s.sh, a.t, s.pcs[a.t], a.c);
    }
  }

  /** A thread waits for the client to come back. */
  predicate AwaitsClient(pc: Pc) {
    pc.ErrorAwait? || (pc.Handling? && pc.h.Send? && pc.h.at.Awaiting?)
  }

  lemma ThreadStaysGood(sh: Shared, t: Tid, pc: Pc, c: Choice)
    ensures
      var sh' := ThreadStep(sh, t, pc, c).0;
      && sh'.past.writeError == sh.past.writeError
      && (sh'.past.waitFailed <==> sh.past.waitFailed || (AwaitsClient(pc) && !c.ok))
  {
    hide IndexByte, Clear, CacheIn, Warn, Warning, WithoutCursorRequests;
  }

  /** A run stays good until, and only until, a write fails or a wait for the client is cut short. */
  lemma GoodUntil(states: seq<State>, actions: seq<Action>, k: nat)
    requires Does(states, actions) && k < |actions|
    ensures
      var s, a := states[k], actions[k];
      Good(states[k + 1].sh) <==>
        Good(s.sh) && a != WriterFails && !(a.Run? && a.t in s.pcs && AwaitsClient(s.pcs[a.t]) && !a.c.ok)
  {
    hide ThreadStep, AwaitsClient;
    var s, a := states[k], actions[k];
    assert Acts(states[k], actions[k], states[k + 1]);
    if a.Run? {
      ThreadStaysGood(s.sh, a.t, s.pcs[a.t], a.c);
    }
  }

  /** The reader is at its read. */
  predicate Reads(s: State, a: Action) {
    a.Run? && a.t == READER && READER in s.pcs && s.pcs[READER] == Outside(Reading)
  }

  /** Everything the reader was given. */
  function Given(states: seq<State>, actions: seq<Action>, k: nat): seq<byte>
    requires k <= |actions| < |states|
  {
    if k == 0 then []
    else Given(states, actions, k - 1) + if Reads(states[k - 1], actions[k - 1]) then actions[k - 1].c.chunk else []
  }

  /** The reader has come to the end of its input. */
  predicate AtEnd(pc: Pc) {
    match pc
    case Outside(free) => free == Acquire(Eof) || !(free.Reading? || free.Acquire? || free.Notified?)
    case Handling(_) => false
    case Flushing(_, ret) => ret.ThenError? || ret.after.Quit?
    case End(after) => after.Quit?
    case _ => true
  }

  lemma ThreadReads(sh: Shared, t: Tid, pc: Pc, c: Choice)
    ensures
      var (sh', pc') := ThreadStep(sh, t, pc, c);
      && sh'.past.read == sh.past.read + (if pc == Outside(Reading) then c.chunk else [])
      && (!AtEnd(pc) && InRole(READER, pc) ==> (AtEnd(pc') <==> pc == Outside(Reading) && c.chunk == []))
  {
    hide IndexByte, Clear, CacheIn, Warn, Warning, WithoutCursorRequests;
  }

  lemma RunsKeepLocks(states: seq<State>, actions: seq<Action>, k: nat)
    requires Does(states, actions) && k < |states|
    ensures Locks(states[k])
  {
    hide Data, NotStranded, Phases, Locks, Next, CanHappen;
    DoesIsRun(states, actions);
    RunsKeepInv(states, k);
  }

  /** The run has read exactly what the reader was given. */
  lemma {:induction false} ReadsEverything(states: seq<State>, actions: seq<Action>, k: nat)
    requires Does(states, actions) && k < |states|
    ensures states[k].sh.past.read == Given(states, actions, k)
  {
    if k > 0 {
      hide Locks, Next, CanHappen, Reads;
      ReadsEverything(states, actions, k - 1);
      RunsKeepLocks(states, actions, k - 1);
      assert Acts(states[k - 1], actions[k - 1], states[k - 1 + 1]);
      ActionReads(states[k - 1], actions[k - 1]);
    }
  }

  /** The reader comes to the end of its input exactly where it is given nothing. */
  lemma EndsWhenGivenNothing(states: seq<State>, actions: seq<Action>, k: nat)
    requires Does(states, actions) && k < |actions|
    ensures READER in states[k].pcs && READER in states[k + 1].pcs
    ensures !AtEnd(states[k].pcs[READER]) ==>
      (AtEnd(states[k + 1].pcs[READER]) <==> Reads(states[k], actions[k]) && actions[k].c.chunk == [])
  {
    RunsKeepLocks(states, actions, k);
    hide Next, CanHappen, Reads, AtEnd;
    assert Acts(states[k], actions[k], states[k + 1]);
    ActionReads(states[k], actions[k]);
  }

  lemma ActionReads(s: State, a: Action)
    requires Locks(s) && CanHappen(s, a)
    ensures
      var s' := Next(s, a);
      && s'.sh.past.read == s.sh.past.read + (if Reads(s, a) then a.c.chunk else [])
      && READER in s'.pcs
      && (!AtEnd(s.pcs[READER]) ==> (AtEnd(s'.pcs[READER]) <==> Reads(s, a) && a.c.chunk == []))
  {
    hide ThreadStep, AtEnd;
    assert s.sh.past.read + [] == s.sh.past.read;
    if a.Run? {
      assert InRole(a.t, s.pcs[a.t]);
      ThreadReads(s.sh, a.t, s.pcs[a.t], a.c);
    }
  }

  // ---------------------------------------------------- nothing lost, nothing added

  /** Chunks taken in and requests stripped, and nothing else. */
  predicate Plain(log: Log) {
    log.Empty? || (Plain(log.before) && !log.edit.Report? && (log.edit.Append? ==> log.edit.marker == []))
  }

  lemma {:induction false} CountsMeanPlain(log: Log)
    ensures Plain(log) <==> Silent(log) == 0 && Warned(log) == 0 && Echoes(log) == 0
  {
    if log.Then? {
      CountsMeanPlain(log.before);
    }
  }

  /** No line is ever dropped. */
  ghost predicate Undropped(states: seq<State>, k: nat)
    requires k < |states|
  {
    forall i :: 0 <= i <= k ==> states[i].sh.pipe.dropped == []
  }

  predicate NothingReported(p: Pipe) {
    Warned(p.log) == 0 && Echoes(p.log) == 0
  }

  lemma NothingToWarn(s: State, a: Action)
    requires Inv(s) && Honest(s.sh.pipe, OwnerPc(s)) && CanHappen(s, a) && a.Run? && s.sh.pipe.dropped == []
    ensures !Warns(s.sh, s.pcs[a.t])
  {
    hide AllHonest, AreLines, IsWarning, Flat;
    if Warns(s.sh, s.pcs[a.t]) {
      OwnerShape(s, a.t);
    }
  }

  lemma StaysUnreported(s: State, a: Action, s': State)
    requires Acts(s, a, s') && StepTells(s, a, s') && Inv(s) && Honest(s.sh.pipe, OwnerPc(s))
    requires NothingReported(s.sh.pipe) && s.sh.pipe.dropped == [] && Standing(s.sh.env) == 0
    ensures NothingReported(s'.sh.pipe)
  {
    hide Inv, Honest, Next, Requested, HasPending, Warned, Echoes, Silent, IsEmptied;
    if a.Run? {
      NothingToWarn(s, a);
    }
  }

  lemma {:induction false} UncalledUnreported(states: seq<State>, actions: seq<Action>, k: nat)
    requires Does(states, actions) && k < |states| && Uncalled(states, actions, k) && Undropped(states, k)
    ensures NothingReported(states[k].sh.pipe)
  {
    if k > 0 {
      hide Inv, Honest, Next, CanHappen, NothingReported, StepTells, Calls, Standing;
      UncalledUnreported(states, actions, k - 1);
      HonouredOnce(states, actions, k - 1);
      UncalledSums(states, actions, k - 1);
      RunTells(states, actions, k - 1);
      StaysUnreported(states[k - 1], actions[k - 1], states[k]);
    }
  }

  /** Something was dropped, and is either still to be reported or was. */
  predicate IsLossy(p: Pipe) {
    p.dropped != [] || Reported(p.log) > 0
  }

  lemma StaysLossy(s: State, a: Action, s': State)
    requires StepTells(s, a, s') && Honest(s.sh.pipe, OwnerPc(s)) && IsLossy(s.sh.pipe)
    ensures IsLossy(s'.sh.pipe)
  {
    hide AllHonest, AreLines, IsWarning, Flat, Requested, HasPending, Warned, Echoes, Silent, IsEmptied, Warns;
  }

  lemma DroppedIsLossy(p: Pipe)
    requires p.dropped != []
    ensures IsLossy(p)
  {
  }

  lemma {:induction false} LossIsSeen(states: seq<State>, actions: seq<Action>, i: nat, k: nat)
    requires Does(states, actions) && i <= k < |states| && states[i].sh.pipe.dropped != []
    ensures IsLossy(states[k].sh.pipe)
    decreases k
  {
    hide Does, IsLossy;
    if i == k {
      DroppedIsLossy(states[k].sh.pipe);
    } else {
      LossIsSeen(states, actions, i, k - 1);
      RunStaysLossy(states, actions, k - 1);
    }
  }

  lemma RunStaysLossy(states: seq<State>, actions: seq<Action>, k: nat)
    requires Does(states, actions) && k + 1 < |states| && IsLossy(states[k].sh.pipe)
    ensures IsLossy(states[k + 1].sh.pipe)
  {
    assert k < |actions|;
    hide Inv, Honest, Acts, StepTells, IsLossy, Does;
    RunTells(states, actions, k);
    StaysLossy(states[k], actions[k], states[k + 1]);
  }

  /**
   While nobody calls for a discard: nothing but cursor requests has left the stream, and
   nothing is about to, if and only if no line was ever dropped.
   */
  lemma NothingIsLost(states: seq<State>, actions: seq<Action>, k: nat)
    requires Does(states, actions) && k < |states| && Uncalled(states, actions, k)
    ensures Plain(states[k].sh.pipe.log) && states[k].sh.pipe.dropped == [] <==> Undropped(states, k)
  {
    hide Next, CanHappen, Calls, Standing;
    CountsMeanPlain(states[k].sh.pipe.log);
    if Undropped(states, k) {
      UncalledUnreported(states, actions, k);
      HonouredOnce(states, actions, k);
      UncalledSums(states, actions, k);
    } else {
      var i :| 0 <= i <= k && states[i].sh.pipe.dropped != [];
      LossIsSeen(states, actions, i, k);
    }
  }

  /** The cache never holds as many lines as it may. */
  ghost predicate NeverFull(states: seq<State>, k: nat)
    requires k < |states|
  {
    forall i :: 0 <= i <= k ==> |states[i].sh.pipe.cache.lines| < MaxLines(states[i].sh.env.rows)
  }

  lemma NothingDropped(s: State, a: Action, s': State)
    requires Acts(s, a, s') && StepTells(s, a, s') && s.sh.pipe.dropped == []
    requires |s'.sh.pipe.cache.lines| < MaxLines(s'.sh.env.rows)
    ensures s'.sh.pipe.dropped == []
  {
    hide Next, Requested, HasPending, Warned, Echoes, Silent, IsEmptied;
    if a.Run? {
      StepStanding(s, a);
    }
  }

  /** A cache that never fills drops nothing. */
  lemma {:induction false} DropsOnlyWhenFull(states: seq<State>, actions: seq<Action>, k: nat)
    requires Does(states, actions) && k < |states| && NeverFull(states, k)
    ensures Undropped(states, k)
  {
    if k == 0 {
      assert states[0].sh.pipe.dropped == [];
    } else {
      hide Does;
      assert NeverFull(states, k - 1);
      DropsOnlyWhenFull(states, actions, k - 1);
      assert states[k - 1].sh.pipe.dropped == [];
      RunDropsNothing(states, actions, k - 1);
    }
  }

  lemma RunDropsNothing(states: seq<State>, actions: seq<Action>, k: nat)
    requires Does(states, actions) && k + 1 < |states| && states[k].sh.pipe.dropped == []
    requires |states[k + 1].sh.pipe.cache.lines| < MaxLines(states[k + 1].sh.env.rows)
    ensures states[k + 1].sh.pipe.dropped == []
  {
    assert k < |actions|;
    hide Inv, Honest, Acts, StepTells, Does;
    RunTells(states, actions, k);
    NothingDropped(states[k], actions[k], states[k + 1]);
  }

  /** `c` is `a` less one cursor request. */
  ghost predicate OneLess(a: seq<byte>, c: seq<byte>) {
    exists i :: 0 <= i <= |a| - 4 && a[i..i + 4] == CURSOR_REQUEST && c == a[..i] + a[i + 4..]
  }

  /** `b` is what is left of `a` when `n` cursor requests are taken out one after the other. */
  ghost predicate Reduces(a: seq<byte>, b: seq<byte>, n: nat) {
    if n == 0 then a == b else exists c :: OneLess(a, c) && Reduces(c, b, n - 1)
  }

  lemma OneLessWithin(x: seq<byte>, a: seq<byte>, c: seq<byte>, y: seq<byte>)
    requires OneLess(a, c)
    ensures OneLess(x + a + y, x + c + y)
  {
    var i :| 0 <= i <= |a| - 4 && a[i..i + 4] == CURSOR_REQUEST && c == a[..i] + a[i + 4..];
    var all, j := x + a + y, |x| + i;
    assert all[j..j + 4] == a[i..i + 4];
    assert all[..j] == x + a[..i] && all[j + 4..] == a[i + 4..] + y;
    assert x + a[..i] + (a[i + 4..] + y) == x + c + y;
  }

  lemma {:induction false} ReducesWithin(x: seq<byte>, a: seq<byte>, b: seq<byte>, y: seq<byte>, n: nat)
    requires Reduces(a, b, n)
    ensures Reduces(x + a + y, x + b + y, n)
    decreases n
  {
    hide OneLess;
    if n > 0 {
      var c :| OneLess(a, c) && Reduces(c, b, n - 1);
      OneLessWithin(x, a, c, y);
      ReducesWithin(x, c, b, y, n - 1);
    }
  }

  lemma {:induction false} ReducesFurther(a: seq<byte>, b: seq<byte>, c: seq<byte>, m: nat, n: nat)
    requires Reduces(a, b, m) && Reduces(b, c, n)
    ensures Reduces(a, c, m + n)
    decreases m
  {
    hide OneLess;
    if m > 0 {
      var d :| OneLess(a, d) && Reduces(d, b, m - 1);
      ReducesFurther(d, b, c, m - 1, n);
    }
  }

  lemma OneLessFirst(s: seq<byte>)
    requires |s| >= 4 && s[..4] == CURSOR_REQUEST
    ensures OneLess(s, s[4..])
  {
    assert s[0..0 + 4] == CURSOR_REQUEST && s[4..] == s[..0] + s[0 + 4..];
  }

  /** Stripping a line takes out its requests. */
  lemma {:induction false} StripReduces(s: seq<byte>)
    ensures Reduces(s, WithoutCursorRequests(s), CountRequests(s))
    decreases |s|
  {
    hide OneLess;
    if |s| >= 4 {
      if s[..4] == CURSOR_REQUEST {
        StripReduces(s[4..]);
        OneLessFirst(s);
      } else {
        StripReduces(s[1..]);
        ReducesWithin([s[0]], s[1..], WithoutCursorRequests(s[1..]), [], CountRequests(s[1..]));
        assert [s[0]] + s[1..] + [] == s;
        assert [s[0]] + WithoutCursorRequests(s[1..]) + [] == [s[0]] + WithoutCursorRequests(s[1..]);
      }
    }
  }

  lemma StripEditReduces(s: seq<byte>, at: nat, line: seq<byte>)
    requires Found(s, at, line)
    ensures Reduces(s, Apply(Strip(at, line), s), CountRequests(line))
  {
    hide Reduces, CountRequests, WithoutCursorRequests;
    StripReduces(line);
    ReducesWithin(s[..at], line, WithoutCursorRequests(line), s[at + |line|..], CountRequests(line));
    assert s[..at] + line + s[at + |line|..] == s;
  }

  lemma AppendReduces(a: seq<byte>, b: seq<byte>, chunk: seq<byte>, n: nat)
    requires Reduces(a, b, n)
    ensures Reduces(a + chunk, b + [] + chunk, n)
  {
    hide Reduces;
    ReducesWithin([], a, b, chunk, n);
    assert [] + a + chunk == a + chunk;
    assert [] + b + chunk == b + [] + chunk;
  }

  lemma EditReduces(child: seq<byte>, stream: seq<byte>, edit: Edit, n: nat)
    requires Reduces(child, stream, n) && Applies(edit, stream)
    requires !edit.Report? && (edit.Append? ==> edit.marker == [])
    ensures Reduces(child + (if edit.Append? then edit.chunk else []), Apply(edit, stream),
                    n + if edit.Strip? then CountRequests(edit.line) else 0)
  {
    hide Reduces, CountRequests, WithoutCursorRequests;
    if edit.Append? {
      AppendReduces(child, stream, edit.chunk, n);
    } else {
      StripEditReduces(stream, edit.at, edit.line);
      assert child + [] == child;
      ReducesFurther(child, stream, Apply(edit, stream), n, CountRequests(edit.line));
    }
  }

  lemma {:induction false} PlainReduces(log: Log)
    requires Plain(log) && Valid(log)
    ensures Reduces(Child(log), Replay(log), StrippedRequests(log))
  {
    if log.Empty? {
      assert Reduces([], [], 0);
    } else {
      hide Reduces, CountRequests, Apply, Applies;
      var before, edit := log.before, log.edit;
      PlainReduces(before);
      EditReduces(Child(before), Replay(before), edit, StrippedRequests(before));
      assert Child(log) == Child(before) + (if edit.Append? then edit.chunk else []);
      assert StrippedRequests(log) == StrippedRequests(before) + (if edit.Strip? then CountRequests(edit.line) else 0);
    }
  }

  /**
   A run that was never called on to discard, never dropped a line and returned well has
   written everything it read, less cursor requests.
   */
  lemma ReturnsEverything(states: seq<State>, actions: seq<Action>, k: nat)
    requires Does(states, actions) && k < |states| && Uncalled(states, actions, k) && Undropped(states, k)
    requires Good(states[k].sh) && READER in states[k].pcs && states[k].pcs[READER] == Outside(Returned)
    ensures
      var sh := states[k].sh;
      Reduces(sh.past.read, sh.pipe.written, StrippedRequests(sh.pipe.log))
      && |sh.past.read| == |sh.pipe.written| + 4 * StrippedRequests(sh.pipe.log)
  {
    hide Next, CanHappen, Calls, Reduces;
    NothingIsLost(states, actions, k);
    DoesIsRun(states, actions);
    ReturnedIsComplete(states, k);
    PlainReduces(states[k].sh.pipe.log);
    Accounting(states[k].sh.pipe.log);
    PlainCounts(states[k].sh.pipe.log);
  }

  lemma {:induction false} PlainCounts(log: Log)
    requires Plain(log)
    ensures ReportedBytes(log) == 0 && InjectedBytes(log) == 0
  {
    if log.Then? {
      PlainCounts(log.before);
    }
  }

  /** Chunks taken in, and nothing else. */
  predicate Verbatim(log: Log) {
    log.Empty? || (Verbatim(log.before) && log.edit.Append? && log.edit.marker == [])
  }

  lemma {:induction false} VerbatimReplay(log: Log)
    requires Verbatim(log) && Valid(log)
    ensures Replay(log) == Child(log)
  {
    if log.Then? {
      VerbatimReplay(log.before);
    }
  }

  lemma {:induction false} ConnectedIsVerbatim(states: seq<State>, k: nat)
    requires IsRun(states) && k < |states| && forall j :: 0 <= j <= k ==> Connected(states[j].sh.env)
    ensures Quiet(states[k].sh.pipe, OwnerPc(states[k])) && Verbatim(states[k].sh.pipe.log)
  {
    if k == 0 {
      var timedOut, rows :| states[0] == Init(timedOut, rows);
    } else {
      hide IsRun, Quiet;
      ConnectedIsVerbatim(states, k - 1);
      assert Connected(states[k - 1].sh.env);
      RunStaysQuiet(states, k);
    }
  }

  lemma NothingCached(passed: seq<byte>, local: seq<byte>)
    ensures passed + Flat([]) + Flat([]) + local == passed + local
  {
  }

  /** While the client was never away and asked for no marker, the stream is the child's output, byte for byte. */
  lemma ConnectedGetsAll(states: seq<State>, k: nat)
    requires IsRun(states) && k < |states| && forall j :: 0 <= j <= k ==> Connected(states[j].sh.env)
    requires Good(states[k].sh)
    ensures Child(states[k].sh.pipe.log) == PassedOn(states[k]) + Local(OwnerPc(states[k]))
    ensures READER in states[k].pcs && states[k].pcs[READER] == Outside(Returned) ==>
      states[k].sh.pipe.written == states[k].sh.past.read
  {
    hide IsRun, Verbatim, Connected;
    ConnectedIsVerbatim(states, k);
    StreamIsWhole(states, k);
    VerbatimReplay(states[k].sh.pipe.log);
    NothingCached(PassedOn(states[k]), Local(OwnerPc(states[k])));
    if READER in states[k].pcs && states[k].pcs[READER] == Outside(Returned) {
      ReturnedIsComplete(states, k);
    }
  }
}
