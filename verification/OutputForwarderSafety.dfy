/** The inductive invariant of the output forwarder, and what it says of every run. */
module OutputForwarderSafety {
  import opened Bytes
  import opened Options
  import opened OutputLog
  import opened OutputCache
  import opened OutputForwarder
  import opened OutputForwarderProofs

  // ---------------------------------------------------------------------------
  // Who may stand where.

  /** The statements the reader, and the statements a callback, can be at. */
  predicate InRole(t: Tid, pc: Pc) {
    if t == READER then
      && (pc.Outside? ==> !pc.free.Notified? && !pc.free.Finished?)
      && (pc.End? ==> !pc.after.Finish?)
      && (pc.Flushing? && pc.ret.ThenEnd? ==> !pc.ret.after.Finish?)
    else
      || (pc.Outside? && (pc.free.Notified? || pc.free.Finished?))
      || (pc.Flushing? && pc.ret == ThenEnd(Finish))
      || pc == End(Finish)
  }

  predicate LockOk(lock: Lock, t: Tid, pc: Pc) {
    && (HasToken(pc) <==> lock.owner == Some(t))
    && (HasMutex(pc) <==> lock.mutex == Some(t))
  }

  ghost predicate Locks(s: State) {
    var lock := s.sh.lock;
    && READER in s.pcs
    && lock.processing == lock.owner.Some?
    && (lock.owner.Some? ==> lock.owner.value in s.pcs)
    && (lock.mutex.Some? ==> lock.mutex.value in s.pcs)
    && (forall t :: t in s.pcs ==> LockOk(lock, t, s.pcs[t]) && InRole(t, s.pcs[t]))
  }

  /** The statement of the token owner, or the reader's idle one. */
  function OwnerPc(s: State): Pc {
    var owner := s.sh.lock.owner;
    if owner.Some? && owner.value in s.pcs then s.pcs[owner.value] else Outside(Reading)
  }

  /** The lock after a step of `t` from `pc` to `pc'`. */
  predicate LockMoves(lock: Lock, t: Tid, pc: Pc, lock': Lock, pc': Pc) {
    && lock'.owner == (if HasToken(pc') then Some(t) else if HasToken(pc) then None else lock.owner)
    && lock'.mutex == (if HasMutex(pc') then Some(t) else if HasMutex(pc) then None else lock.mutex)
    && lock'.processing == lock'.owner.Some?
    && (HasToken(pc') && !HasToken(pc) ==> lock.owner.None?)
    && (HasMutex(pc') && !HasMutex(pc) ==> lock.mutex.None?)
  }

  lemma HandlingMoves(sh: Shared, t: Tid, h: Handle, c: Choice)
    requires LockOk(sh.lock, t, Handling(h)) && sh.lock.processing == sh.lock.owner.Some?
    requires Enabled(sh, Handling(h)) && InRole(t, Handling(h))
    ensures var r := ThreadStep(sh, t, Handling(h), c);
      LockMoves(sh.lock, t, Handling(h), r.0.lock, r.1) && InRole(t, r.1) && HasToken(r.1)
  {
    hide IndexByte, Cached, DroppedBy;
  }

  lemma FlushingMoves(sh: Shared, t: Tid, f: Flush, ret: Return, c: Choice)
    requires LockOk(sh.lock, t, Flushing(f, ret)) && sh.lock.processing == sh.lock.owner.Some?
    requires Enabled(sh, Flushing(f, ret)) && InRole(t, Flushing(f, ret))
    ensures var r := ThreadStep(sh, t, Flushing(f, ret), c);
      LockMoves(sh.lock, t, Flushing(f, ret), r.0.lock, r.1) && InRole(t, r.1) && HasToken(r.1)
  {
    hide Warning, WithoutCursorRequests;
  }

  lemma OtherMoves(sh: Shared, t: Tid, pc: Pc, c: Choice)
    requires LockOk(sh.lock, t, pc) && sh.lock.processing == sh.lock.owner.Some?
    requires !pc.Handling? && !pc.Flushing?
    requires Enabled(sh, pc) && InRole(t, pc)
    ensures var r := ThreadStep(sh, t, pc, c); LockMoves(sh.lock, t, pc, r.0.lock, r.1) && InRole(t, r.1)
  {
  }

  lemma ThreadMoves(sh: Shared, t: Tid, pc: Pc, c: Choice)
    requires LockOk(sh.lock, t, pc) && sh.lock.processing == sh.lock.owner.Some?
    requires Enabled(sh, pc) && InRole(t, pc)
    ensures var r := ThreadStep(sh, t, pc, c); LockMoves(sh.lock, t, pc, r.0.lock, r.1) && InRole(t, r.1)
  {
    match pc {
      case Handling(h) => HandlingMoves(sh, t, h, c);
      case Flushing(f, ret) => FlushingMoves(sh, t, f, ret, c);
      case _ => OtherMoves(sh, t, pc, c);
    }
  }

  lemma LocksKept(s: State, a: Action)
    requires Locks(s) && CanHappen(s, a)
    ensures Locks(Next(s, a))
  {
    hide ThreadStep;
    var s' := Next(s, a);
    if a.Run? {
      ThreadMoves(s.sh, a.t, s.pcs[a.t], a.c);
      forall u | u in s'.pcs
        ensures LockOk(s'.sh.lock, u, s'.pcs[u]) && InRole(u, s'.pcs[u])
      {
        assert LockOk(s.sh.lock, u, s.pcs[u]);
      }
    }
  }

  // ---------------------------------------------------------------------------
  // Phases of a run.

  /** The chunk the reader has read and not yet handed to the stream. */
  function InHand(pc: Pc): seq<byte> {
    if pc.Outside? && pc.free.Acquire? && pc.free.job.Chunk? then pc.free.job.bytes
    else if pc.Handling? && pc.h.InjectMarker? then pc.h.chunk
    else []
  }

  predicate HasClosed(pc: Pc) {
    pc.Outside? && (pc.free.AwaitWriter? || pc.free.Returned?)
  }

  predicate HasReturned(pc: Pc) {
    HasClosed(pc) || (pc.Outside? && pc.free.AwaitProcessing?)
  }

  /** The reader has handled the end of input. */
  predicate Quitting(pc: Pc) {
    || HasReturned(pc)
    || (pc.Outside? && pc.free.BeginShutdown?)
    || pc == End(Quit)
    || (pc.Flushing? && pc.ret == ThenEnd(Quit))
  }

  predicate Phases(sh: Shared, reader: Pc) {
    && (sh.phase.returned <==> HasReturned(reader))
    && (sh.phase.chClosed <==> HasClosed(reader))
    && (sh.phase.chClosed ==> sh.lock.owner.None?)
    && (Good(sh) && Quitting(reader) ==> sh.pipe.cache.lines == [])
    && (sh.lock.owner.None? && !sh.phase.returned ==> !sh.phase.reconnectPending)
    && (sh.pipe.writer.Stopped? ==> sh.past.writeError || (sh.phase.chClosed && sh.pipe.slot.None?))
    && (reader == Outside(Returned) ==> sh.pipe.writer.Stopped?)
    && sh.past.read == Child(sh.pipe.log) + InHand(reader)
  }

  /** What a step of the token owner leaves alone. */
  predicate OwnerFrame(sh: Shared, pc: Pc, sh': Shared, pc': Pc) {
    && sh'.phase.returned == sh.phase.returned
    && sh'.phase.chClosed == sh.phase.chClosed
    && sh'.phase.reconnectPending == (sh.phase.reconnectPending && !(pc.End? && !sh.phase.returned))
    && sh'.past.read == sh.past.read
    && sh'.past.writeError == sh.past.writeError
    && (sh.past.waitFailed ==> sh'.past.waitFailed)
    && sh'.env.timedOut == sh.env.timedOut
    && sh'.pipe.writer == sh.pipe.writer
    && Child(sh'.pipe.log) + InHand(pc') == Child(sh.pipe.log) + InHand(pc)
    && (pc'.Outside? ==> pc.End?)
    && !HasReturned(pc')
  }

  lemma ClearFrame(p: Pipe)
    ensures Child(Clear(p).log) == Child(p.log)
  {
    assert Child(p.log) + [] == Child(p.log);
  }

  lemma InjectFrame(sh: Shared, h: Handle, c: Choice)
    requires h.InjectMarker?
    ensures var r := HandleStep(sh, h, c); OwnerFrame(sh, Handling(h), r.0, r.1)
  {
    ClearFrame(sh.pipe);
    assert forall s: seq<byte> {:trigger s + []} :: s + [] == s;
  }

  lemma HandleFrame(sh: Shared, h: Handle, c: Choice)
    requires !h.InjectMarker? && !h.Send? && !h.TakeBack? && !h.Enqueue?
    ensures var r := HandleStep(sh, h, c); OwnerFrame(sh, Handling(h), r.0, r.1)
  {
    hide IndexByte, Cached, DroppedBy;
    ClearFrame(sh.pipe);
  }

  lemma SendFrame(sh: Shared, t: Tid, h: Handle, c: Choice)
    requires h.Send? || h.TakeBack? || h.Enqueue?
    ensures var r := ThreadStep(sh, t, Handling(h), c); OwnerFrame(sh, Handling(h), r.0, r.1)
  {
    hide IndexByte, Cached, DroppedBy;
  }

  lemma FlushFrame(sh: Shared, f: Flush, ret: Return, c: Choice)
    requires !f.Offer?
    ensures var r := FlushStep(sh, f, ret, c); OwnerFrame(sh, Flushing(f, ret), r.0, r.1)
  {
    hide Warning, WithoutCursorRequests;
    ClearFrame(sh.pipe);
    assert forall s: seq<byte> {:trigger s + []} :: s + [] == s;
  }

  lemma OfferFrame(sh: Shared, t: Tid, f: Flush, ret: Return)
    requires f.Offer?
    ensures var r := OfferStep(sh, t, f, ret); OwnerFrame(sh, Flushing(f, ret), r.0, r.1)
  {
    assert forall s: seq<byte> {:trigger s + []} :: s + [] == s;
  }

  lemma EndFrame(sh: Shared, t: Tid, pc: Pc, c: Choice)
    requires pc.ErrorLoop? || pc.ErrorTest? || pc.ErrorAwait? || pc.End?
    ensures var r := EndStep(sh, t, pc, c); OwnerFrame(sh, pc, r.0, r.1)
  {
  }

  lemma OwnerFrames(sh: Shared, t: Tid, pc: Pc, c: Choice)
    requires HasToken(pc)
    ensures var r := ThreadStep(sh, t, pc, c); OwnerFrame(sh, pc, r.0, r.1)
  {
    hide OwnerFrame, EndStep, HandleStep, FlushStep, OfferStep, SendStep, EnqueueStep, TakeBackStep;
    match pc {
      case Handling(h) =>
        if h.Send? || h.TakeBack? || h.Enqueue? { SendFrame(sh, t, h, c); }
        else if h.InjectMarker? { InjectFrame(sh, h, c); }
        else { HandleFrame(sh, h, c); }
      case Flushing(f, ret) => if f.Offer? { OfferFrame(sh, t, f, ret); } else { FlushFrame(sh, f, ret, c); }
      case _ => EndFrame(sh, t, pc, c);
    }
  }

  /** Once the cache is empty a flush or the end of processing leaves it empty. */
  lemma EmptyStaysEmpty(sh: Shared, t: Tid, pc: Pc, c: Choice)
    requires pc.Flushing? || pc.End?
    requires Shape(sh.pipe.cache, pc) && sh.pipe.cache.lines == []
    ensures ThreadStep(sh, t, pc, c).0.pipe.cache.lines == []
  {
  }

  /** The reader gets to the end of a good run only with an empty cache. */
  lemma QuitsEmpty(sh: Shared, t: Tid, pc: Pc, c: Choice)
    requires HasToken(pc) && !Quitting(pc) && InRole(READER, pc)
    ensures var r := ThreadStep(sh, t, pc, c); Quitting(r.1) && Good(r.0) ==> r.0.pipe.cache.lines == []
  {
    hide IndexByte, Cached, DroppedBy, Warning, WithoutCursorRequests;
  }

  lemma OwnerPhases(s: State, t: Tid, c: Choice)
    requires Locks(s) && Data(s.sh.pipe, Good(s.sh), OwnerPc(s)) && Phases(s.sh, s.pcs[READER])
    requires CanHappen(s, Run(t, c)) && HasToken(s.pcs[t])
    ensures var s' := Next(s, Run(t, c)); Phases(s'.sh, s'.pcs[READER])
  {
    hide ThreadStep, Conserved, Child;
    var pc := s.pcs[t];
    assert LockOk(s.sh.lock, t, pc) && InRole(t, pc);
    OwnerFrames(s.sh, t, pc, c);
    ThreadMoves(s.sh, t, pc, c);
    if t == READER {
      if !Quitting(pc) { QuitsEmpty(s.sh, t, pc, c); }
      else if Good(s.sh) { EmptyStaysEmpty(s.sh, t, pc, c); }
    } else {
      var r := ThreadStep(s.sh, t, pc, c);
      if s.sh.pipe.cache.lines == [] { EmptyStaysEmpty(s.sh, t, pc, c); }
      assert InHand(pc) == [] == InHand(r.1);
      assert Child(r.0.pipe.log) + [] == Child(r.0.pipe.log) && Child(s.sh.pipe.log) + [] == Child(s.sh.pipe.log);
    }
  }

  lemma FreePhases(s: State, t: Tid, c: Choice)
    requires Locks(s) && Phases(s.sh, s.pcs[READER])
    requires CanHappen(s, Run(t, c)) && !HasToken(s.pcs[t])
    ensures var s' := Next(s, Run(t, c)); Phases(s'.sh, s'.pcs[READER])
    ensures var s' := Next(s, Run(t, c));
      s'.sh.pipe == s.sh.pipe && Good(s'.sh) == Good(s.sh) && Shape(s.sh.pipe.cache, s'.pcs[t])
  {
    assert LockOk(s.sh.lock, t, s.pcs[t]) && InRole(t, s.pcs[t]);
    hide Locks, Phases, ThreadStep, Shape;
    if t == READER {
      ReaderPhases(s.sh, s.pcs[t], c);
    } else {
      CallbackPhases(s.sh, t, s.pcs[t], c, s.pcs[READER]);
    }
  }

  /** The reader without the token. */
  lemma ReaderPhases(sh: Shared, pc: Pc, c: Choice)
    requires pc.Outside? && InRole(READER, pc) && Enabled(sh, pc) && Phases(sh, pc)
    requires sh.lock.processing == sh.lock.owner.Some?
    ensures
      var r := ThreadStep(sh, READER, pc, c);
      Phases(r.0, r.1) && r.0.pipe == sh.pipe && Good(r.0) == Good(sh) && Shape(sh.pipe.cache, r.1)
  {
    hide Child;
    assert Child(sh.pipe.log) + [] == Child(sh.pipe.log);
  }

  /** A callback without the token. */
  lemma CallbackPhases(sh: Shared, t: Tid, pc: Pc, c: Choice, reader: Pc)
    requires t != READER && pc.Outside? && InRole(t, pc) && Enabled(sh, pc) && Phases(sh, reader)
    requires sh.lock.processing == sh.lock.owner.Some?
    ensures
      var r := ThreadStep(sh, t, pc, c);
      Phases(r.0, reader) && r.0.pipe == sh.pipe && Good(r.0) == Good(sh) && Shape(sh.pipe.cache, r.1)
  {
    hide Child;
  }

  // ---------------------------------------------------------------------------
  // No output is stranded.

  /** The owner may end with lines in the cache that it will not try to replay itself. */
  predicate Owed(cache: Cache, pc: Pc) {
    match pc
    case Outside(_) => cache.lines != []
    case End(_) => cache.lines != []
    case Handling(h) =>
      (match h
       case Send(_, _, rest) => rest != []
       case TakeBack(_, _) => true
       case Enqueue(_, _, _, _, _) => true
       case CacheRest(rest) => rest != [] || cache.lines != []
       case _ => false)
    case _ => false
  }

  /** A callback is still to come. */
  ghost predicate CallbackPending(pcs: map<Tid, Pc>) {
    exists t :: t in pcs && pcs[t] == Outside(Notified)
  }

  /** Something will replay the cache: a reconnection to come, one noted, or a callback on its way. */
  predicate Woken(sh: Shared, callback: bool) {
    sh.env.timedOut || sh.phase.reconnectPending || callback
  }

  /** In a good run, cached output that nobody is about to replay will be woken. */
  ghost predicate NotStranded(s: State) {
    Good(s.sh) && !s.sh.phase.returned && Owed(s.sh.pipe.cache, OwnerPc(s)) ==> Woken(s.sh, CallbackPending(s.pcs))
  }

  lemma HandleOwes(sh: Shared, h: Handle, c: Choice, callback: bool)
    requires !h.Send? && !h.TakeBack? && !h.Enqueue?
    requires HandleShape(sh.pipe.cache, h)
    requires Owed(sh.pipe.cache, Handling(h)) ==> Woken(sh, callback)
    ensures var r := HandleStep(sh, h, c); Owed(r.0.pipe.cache, r.1) ==> Woken(r.0, callback)
  {
    hide IndexByte, Cached, DroppedBy;
  }

  lemma SendOwes(sh: Shared, t: Tid, h: Handle, c: Choice, callback: bool)
    requires h.Send? || h.TakeBack? || h.Enqueue?
    requires HandleShape(sh.pipe.cache, h)
    requires Owed(sh.pipe.cache, Handling(h)) ==> Woken(sh, callback)
    ensures var r := ThreadStep(sh, t, Handling(h), c); Owed(r.0.pipe.cache, r.1) ==> Woken(r.0, callback)
  {
    hide IndexByte, Cached, DroppedBy;
  }

  lemma FlushOwes(sh: Shared, t: Tid, f: Flush, ret: Return, c: Choice, callback: bool)
    requires FlushShape(sh.pipe.cache, f) && !sh.phase.returned
    ensures var r := ThreadStep(sh, t, Flushing(f, ret), c);
      Good(r.0) && Owed(r.0.pipe.cache, r.1) ==> Woken(r.0, callback)
  {
    hide Warning, WithoutCursorRequests;
  }

  lemma EndOwes(sh: Shared, t: Tid, pc: Pc, c: Choice, callback: bool)
    requires pc.ErrorLoop? || pc.ErrorTest? || pc.ErrorAwait? || pc.End?
    requires !sh.phase.returned
    requires Owed(sh.pipe.cache, pc) ==> Woken(sh, callback)
    ensures var r := EndStep(sh, t, pc, c); Good(r.0) && Owed(r.0.pipe.cache, r.1) ==> Woken(r.0, callback)
  {
  }

  lemma OwnerOwes(sh: Shared, t: Tid, pc: Pc, c: Choice, callback: bool)
    requires HasToken(pc) && Shape(sh.pipe.cache, pc) && !sh.phase.returned
    requires Owed(sh.pipe.cache, pc) ==> Woken(sh, callback)
    ensures var r := ThreadStep(sh, t, pc, c); Good(r.0) && Owed(r.0.pipe.cache, r.1) ==> Woken(r.0, callback)
  {
    hide Owed, Woken, EndStep, HandleStep, FlushStep, OfferStep, SendStep, EnqueueStep, TakeBackStep;
    match pc {
      case Handling(h) =>
        if h.Send? || h.TakeBack? || h.Enqueue? { SendOwes(sh, t, h, c, callback); }
        else { HandleOwes(sh, h, c, callback); }
      case Flushing(f, ret) => FlushOwes(sh, t, f, ret, c, callback);
      case _ => EndOwes(sh, t, pc, c, callback);
    }
  }

  // ---------------------------------------------------------------------------
  // The invariant.

  ghost predicate Inv(s: State) {
    && Locks(s)
    && Data(s.sh.pipe, Good(s.sh), OwnerPc(s))
    && Phases(s.sh, s.pcs[READER])
    && NotStranded(s)
  }

  lemma OwnerStepKeeps(s: State, t: Tid, c: Choice)
    requires Inv(s) && CanHappen(s, Run(t, c)) && HasToken(s.pcs[t])
    ensures Inv(Next(s, Run(t, c)))
  {
    hide ThreadStep, Data, Phases, Owed;
    var pc, s' := s.pcs[t], Next(s, Run(t, c));
    assert LockOk(s.sh.lock, t, pc) && InRole(t, pc);
    assert OwnerPc(s) == pc;
    LocksKept(s, Run(t, c));
    OwnerPhases(s, t, c);
    ReturnedMeansEmpty(s);
    OwnerData(s.sh, t, pc, c);
    OwnerFrames(s.sh, t, pc, c);
    assert LockOk(s'.sh.lock, t, s'.pcs[t]);
    IdleData(s'.sh.pipe, Good(s'.sh), s'.pcs[t]);
    DataShape(s.sh.pipe, Good(s.sh), pc);
    if !s.sh.phase.returned && Good(s'.sh) {
      OwnerOwes(s.sh, t, pc, c, CallbackPending(s.pcs));
      if exists u :: u in s.pcs && s.pcs[u] == Outside(Notified) {
        var u :| u in s.pcs && s.pcs[u] == Outside(Notified);
        assert s'.pcs[u] == Outside(Notified);
      }
      IdleOwed(s'.sh.pipe.cache, s'.pcs[t]);
    }
  }

  /** Giving the token back changes neither the stream nor what is owed. */
  lemma IdleData(p: Pipe, good: bool, pc: Pc)
    requires Data(p, good, pc)
    ensures pc.Outside? ==> Data(p, good, Outside(Reading))
  {
  }

  lemma IdleOwed(cache: Cache, pc: Pc)
    ensures pc.Outside? ==> Owed(cache, pc) == Owed(cache, Outside(Reading))
  {
  }

  lemma DataShape(p: Pipe, good: bool, pc: Pc)
    requires Data(p, good, pc)
    ensures Shape(p.cache, pc)
  {
  }

  lemma ReturnedMeansEmpty(s: State)
    requires Locks(s) && Phases(s.sh, s.pcs[READER])
    ensures Good(s.sh) && s.sh.phase.returned ==> s.sh.pipe.cache.lines == []
    ensures OwnerPc(s).Handling? ==> !s.sh.phase.returned
  {
    assert LockOk(s.sh.lock, READER, s.pcs[READER]);
    if OwnerPc(s).Handling? {
      assert InRole(s.sh.lock.owner.value, OwnerPc(s));
    }
  }

  lemma FreeStepKeeps(s: State, t: Tid, c: Choice)
    requires Inv(s) && CanHappen(s, Run(t, c)) && !HasToken(s.pcs[t])
    ensures Inv(Next(s, Run(t, c)))
  {
    hide Data, Phases, Child;
    var s' := Next(s, Run(t, c));
    assert LockOk(s.sh.lock, t, s.pcs[t]) && InRole(t, s.pcs[t]);
    LocksKept(s, Run(t, c));
    FreePhases(s, t, c);
    if HasToken(s'.pcs[t]) {
      FreshOwnerData(s.sh.pipe, Good(s.sh), s'.pcs[t]);
    }
    FreeStepWakes(s, t, c);
  }

  /** A thread that has just taken the token holds no bytes and has passed on no lines. */
  lemma FreshOwnerData(p: Pipe, good: bool, pc: Pc)
    requires Data(p, good, Outside(Reading))
    requires pc == Flushing(Test, ThenEnd(Finish)) || (pc.Handling? && pc.h.InjectMarker?) || pc == ErrorLoop
    ensures Data(p, good, pc)
  {
  }

  lemma FreeStepWakes(s: State, t: Tid, c: Choice)
    requires Locks(s) && NotStranded(s) && Phases(s.sh, s.pcs[READER])
    requires CanHappen(s, Run(t, c)) && !HasToken(s.pcs[t])
    ensures NotStranded(Next(s, Run(t, c)))
  {
    hide Child;
    var s' := Next(s, Run(t, c));
    assert LockOk(s.sh.lock, t, s.pcs[t]) && InRole(t, s.pcs[t]);
    if s.pcs[t] != Outside(Notified) && CallbackPending(s.pcs) {
      var u :| u in s.pcs && s.pcs[u] == Outside(Notified);
      assert s'.pcs[u] == Outside(Notified);
    }
  }

  lemma WriterConserved(p: Pipe, kept: seq<seq<byte>>, local: seq<byte>)
    requires Conserved(p, kept, local)
    ensures p.slot.Some? && p.writer.Idle? ==> Conserved(p.(writer := Writing(p.slot.value), slot := None), kept, local)
    ensures p.writer.Writing? ==> Conserved(p.(writer := Idle, written := p.written + p.writer.buf), kept, local)
    ensures p.writer.Idle? ==> Conserved(p.(writer := Stopped), kept, local)
  {
    if p.slot.Some? && p.writer.Idle? {
      assert p.written + [] + p.slot.value == p.written + p.slot.value + [];
    }
  }

  lemma WriterData(p: Pipe, good: bool, pc: Pc)
    requires Data(p, good, pc)
    ensures p.slot.Some? && p.writer.Idle? ==> Data(p.(writer := Writing(p.slot.value), slot := None), good, pc)
    ensures p.writer.Writing? ==> Data(p.(writer := Idle, written := p.written + p.writer.buf), good, pc)
    ensures p.writer.Writing? ==> Data(p.(writer := Stopped), false, pc)
    ensures p.writer.Idle? ==> Data(p.(writer := Stopped), good, pc)
  {
    if good { WriterConserved(p, Kept(p.cache, pc), Local(pc)); }
  }

  lemma WriterStepKeeps(s: State, a: Action)
    requires Inv(s) && CanHappen(s, a)
    requires a.WriterTakes? || a.WriterWrites? || a.WriterFails? || a.WriterStops?
    ensures Inv(Next(s, a))
  {
    hide Data, Child;
    LocksKept(s, a);
    WriterData(s.sh.pipe, Good(s.sh), OwnerPc(s));
  }

  lemma EnvStepKeeps(s: State, a: Action)
    requires Inv(s) && CanHappen(s, a)
    requires a.Disconnect? || a.Reconnect? || a.Notify? || a.AskMarker? || a.AskDiscard? || a.Resize?
    ensures Inv(Next(s, a))
  {
    hide Data, Child, Owed;
    var s' := Next(s, a);
    LocksKept(s, a);
    assert OwnerPc(s') == OwnerPc(s);
    if a.Reconnect? || a.Notify? {
      assert s'.pcs[a.callback] == Outside(Notified);
    }
  }

  lemma StepKeeps(s: State, a: Action)
    requires Inv(s) && CanHappen(s, a)
    ensures Inv(Next(s, a))
  {
    hide Inv, Next;
    if a.Run? {
      if HasToken(s.pcs[a.t]) { OwnerStepKeeps(s, a.t, a.c); } else { FreeStepKeeps(s, a.t, a.c); }
    } else if a.WriterTakes? || a.WriterWrites? || a.WriterFails? || a.WriterStops? {
      WriterStepKeeps(s, a);
    } else {
      EnvStepKeeps(s, a);
    }
  }

  /** Every state of every run satisfies the invariant. */
  lemma {:induction false} RunsKeepInv(states: seq<State>, k: nat)
    requires IsRun(states) && k < |states|
    ensures Inv(states[k])
  {
    if k == 0 {
      var timedOut, rows :| states[0] == Init(timedOut, rows);
    } else {
      RunsKeepInv(states, k - 1);
      assert Steps(states[k - 1], states[k - 1 + 1]);
      var a :| CanHappen(states[k - 1], a) && states[k] == Next(states[k - 1], a);
      StepKeeps(states[k - 1], a);
    }
  }

  // ---------------------------------------------------------------------------
  // The theorems.

  /**
   At every step of every run without a failed write or wait, the stream made by the
   logged edits is, in order: what the writer took, the queued buffer, one run of
   unreported lines counted exactly, the cached lines not yet passed on, and the
   bytes in the owner's hands.
   */
  lemma StreamIsWhole(states: seq<State>, k: nat)
    requires IsRun(states) && k < |states| && Good(states[k].sh)
    ensures var p, pc := states[k].sh.pipe, OwnerPc(states[k]);
      && Valid(p.log)
      && Replay(p.log) == Taken(p) + Queued(p) + Flat(p.dropped) + Flat(Kept(p.cache, pc)) + Local(pc)
      && p.cache.discardLines == |p.dropped|
      && p.cache.discardBytes == |Flat(p.dropped)|
      && (p.cache.discardLines > 0 ==> p.cache.lines != [])
  {
    RunsKeepInv(states, k);
  }

  /** At most one thread holds the processing token, and the mutex belongs to it. */
  lemma TokenExcludes(states: seq<State>, k: nat, t: Tid, u: Tid)
    requires IsRun(states) && k < |states| && t in states[k].pcs && u in states[k].pcs
    ensures HasToken(states[k].pcs[t]) && HasToken(states[k].pcs[u]) ==> t == u
    ensures HasToken(states[k].pcs[t]) ==> states[k].sh.lock.processing
  {
    RunsKeepInv(states, k);
    assert LockOk(states[k].sh.lock, t, states[k].pcs[t]) && LockOk(states[k].sh.lock, u, states[k].pcs[u]);
  }

  /** A thread about to send on the queue, or to take a buffer back from it. */
  predicate UsesQueue(pc: Pc) {
    || (pc.Handling? && (pc.h.Send? || pc.h.TakeBack? || pc.h.Enqueue?))
    || (pc.Flushing? && pc.f.Offer?)
  }

  /** Nobody uses the queue once it is closed. */
  lemma NoSendAfterClose(states: seq<State>, k: nat, t: Tid)
    requires IsRun(states) && k < |states| && t in states[k].pcs
    requires UsesQueue(states[k].pcs[t])
    ensures !states[k].sh.phase.chClosed
  {
    RunsKeepInv(states, k);
    assert LockOk(states[k].sh.lock, t, states[k].pcs[t]);
  }

  /**
   In a good run, when nobody is processing, the client is connected, the forwarder
   has not returned and no callback is left, the cache is empty.
   */
  lemma NothingStranded(states: seq<State>, k: nat)
    requires IsRun(states) && k < |states|
    requires var s := states[k];
      && Good(s.sh) && !s.sh.lock.processing && !s.sh.env.timedOut && !s.sh.phase.returned
      && forall t :: t in s.pcs ==> s.pcs[t] != Outside(Notified)
    ensures states[k].sh.pipe.cache.lines == [] && states[k].sh.pipe.dropped == []
  {
    RunsKeepInv(states, k);
  }

  /**
   When `forward` returns after a good run, the writer has written exactly the replay
   of the edits on everything that was read.
   */
  lemma ReturnedIsComplete(states: seq<State>, k: nat)
    requires IsRun(states) && k < |states|
    requires Good(states[k].sh) && READER in states[k].pcs && states[k].pcs[READER] == Outside(Returned)
    ensures var sh := states[k].sh;
      && Valid(sh.pipe.log)
      && sh.pipe.written == Replay(sh.pipe.log)
      && Child(sh.pipe.log) == sh.past.read
  {
    RunsKeepInv(states, k);
    var p := states[k].sh.pipe;
    assert p.written + [] + [] + [] + [] + [] == p.written;
  }

  /** What that says of the client: child bytes in order, none twice, and every missing byte accounted for. */
  lemma DeliveredFaithfully(states: seq<State>, k: nat)
    requires IsRun(states) && k < |states|
    requires Good(states[k].sh) && READER in states[k].pcs && states[k].pcs[READER] == Outside(Returned)
    ensures var sh := states[k].sh; var log := sh.pipe.log;
      && Valid(log)
      && Contents(ReplayCells(log)) == sh.pipe.written
      && Faithful(ReplayCells(log), 0, sh.past.read)
      && |sh.pipe.written| + ReportedBytes(log) + 4 * StrippedRequests(log) == |sh.past.read| + InjectedBytes(log)
  {
    ReturnedIsComplete(states, k);
    ReplayFaithful(states[k].sh.pipe.log);
    Accounting(states[k].sh.pipe.log);
  }

  /**
   Until `forward` returns, the reader, the owner of the token or the writer can take a step;
   and the rest of the server may act at any time.
   */
  lemma SomeoneGoesOn(states: seq<State>, k: nat, c: Choice)
    requires IsRun(states) && k < |states|
    ensures
      var s := states[k];
      || (READER in s.pcs && s.pcs[READER] == Outside(Returned))
      || CanHappen(s, Run(READER, c))
      || (s.sh.lock.owner.Some? && CanHappen(s, Run(s.sh.lock.owner.value, c)))
      || CanHappen(s, WriterTakes) || CanHappen(s, WriterWrites) || CanHappen(s, WriterStops)
    ensures
      var s := states[k];
      && CanHappen(s, Disconnect) && CanHappen(s, AskDiscard)
      && (forall marker :: CanHappen(s, AskMarker(marker))) && (forall rows :: CanHappen(s, Resize(rows)))
      && (forall t :: t !in s.pcs && t != READER ==> CanHappen(s, Reconnect(t)) && CanHappen(s, Notify(t)))
  {
    RunsKeepInv(states, k);
    hide IsRun, Data, NotStranded;
    var s := states[k];
    var lock := s.sh.lock;
    assert lock.owner.Some? ==> LockOk(lock, lock.owner.value, s.pcs[lock.owner.value]);
    assert lock.mutex.Some? ==> LockOk(lock, lock.mutex.value, s.pcs[lock.mutex.value]);
    assert LockOk(lock, READER, s.pcs[READER]) && InRole(READER, s.pcs[READER]);
  }
}
