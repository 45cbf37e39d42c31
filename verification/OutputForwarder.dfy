/**
 The server output forwarder as a system of interleaved threads.

 One reader feeds the child's output through `handleBuffer`, one writer drains a
 queue of one buffer into the client's stream, and every reconnection starts a
 callback that may replay the line cache.  Reader and callbacks share a mutex and
 a processing token; the mutex is released while the token owner waits for the
 queue or for the client.  A program counter names the statement a thread is
 about to execute, and each step reads at most one thing that others change.
 */
module OutputForwarder {
  import opened Bytes
  import opened Options
  import opened OutputLog
  import opened OutputCache

  /** Threads: 0 is the reader, every other number a reconnect callback. */
  type Tid = nat
  const READER: Tid := 0

  /** What a thread does once it has given the processing token back. */
  datatype After = Resume | Quit | Finish

  /** Where `flushOutput` returns to. */
  datatype Return = ThenEnd(after: After) | ThenError

  datatype Job = Chunk(bytes: seq<byte>) | Eof

  /** Stations of a loop that tries to send on the one-buffer queue. */
  datatype Spot = Try | Full | Stuck | Asleep | Awaiting

  /** In `handleBuffer`. */
  datatype Handle =
    | InjectMarker(chunk: seq<byte>)
    | DiscardCached(buf: seq<byte>)
    | CacheWhenAway(buf: seq<byte>)
    | CacheWhenCached(buf: seq<byte>)
    | SplitWhenAway(buf: seq<byte>)
    | Send(at: Spot, buf: seq<byte>, rest: seq<byte>)
    | TakeBack(buf: seq<byte>, rest: seq<byte>)
    | Enqueue(at: Spot, buf: seq<byte>, left: seq<byte>, count: bool, rest: seq<byte>)
    | CacheRest(rest: seq<byte>)

  /** In `flushOutput`; `i` is the line to pass on next, -1 the warning. */
  datatype Flush =
    | Test
    | Redraw
    | Pick(i: int)
    | Offer(at: Spot, i: int, raw: seq<byte>, line: seq<byte>)

  /** Without the processing token. */
  datatype Free =
    | Notified
    | Reading
    | Acquire(job: Job)
    | BeginShutdown
    | AwaitProcessing
    | AwaitWriter
    | Returned
    | Finished

  datatype Pc =
    | Outside(free: Free)
    | Handling(h: Handle)
    | Flushing(f: Flush, ret: Return)
    | ErrorLoop
    | ErrorTest
    | ErrorAwait
    | End(after: After)

  datatype Writer = Idle | Writing(buf: seq<byte>) | Stopped

  /** The way of the output, from the cache through the queue to the writer, with its history. */
  datatype Pipe = Pipe(
    cache: Cache,
    slot: Option<seq<byte>>,
    writer: Writer,
    written: seq<byte>,
    log: Log,                 // the edits so far
    dropped: seq<seq<byte>>)  // lines dropped and not yet reported

  /** The processing token and the mutex; `owner` remembers who holds the token. */
  datatype Lock = Lock(processing: bool, mutex: Option<Tid>, owner: Option<Tid>)

  datatype Phase = Phase(reconnectPending: bool, returned: bool, chClosed: bool)

  /** What other parts of the server change at any time. */
  datatype Env = Env(timedOut: bool, discardMarker: Option<seq<byte>>, discardOutput: bool, rows: int)

  /** History: everything read, whether a write failed, whether waiting for the client ever failed. */
  datatype Past = Past(read: seq<byte>, writeError: bool, waitFailed: bool)

  datatype Shared = Shared(pipe: Pipe, lock: Lock, phase: Phase, env: Env, past: Past)

  datatype State = State(sh: Shared, pcs: map<Tid, Pc>)

  /** Answers from outside that a step may depend on. */
  datatype Choice = Choice(
    chunk: seq<byte>,  // what the reader reads; empty means end of input
    keep: bool,        // the server keeps pending output for its client
    ok: bool,          // waiting or redrawing succeeded
    armed: bool)       // the redraw armed the discard flag

  /** Bytes the writer has taken off the queue. */
  function Taken(p: Pipe): seq<byte> {
    p.written + (if p.writer.Writing? then p.writer.buf else [])
  }

  function Queued(p: Pipe): seq<byte> {
    if p.slot.Some? then p.slot.value else []
  }

  /** Offset in the stream of the first byte behind the queue. */
  function Offset(p: Pipe): nat {
    |Taken(p)| + |Queued(p)|
  }

  function Note(p: Pipe, edit: Edit): Pipe {
    p.(log := Then(p.log, edit))
  }

  /** `cacheOutput`, remembering what it drops. */
  function CacheIn(p: Pipe, buf: seq<byte>, rows: int): Pipe {
    p.(cache := Cached(p.cache, buf, rows), dropped := p.dropped + DroppedBy(p.cache, buf, rows))
  }

  /** `clearOutput`: everything cached or dropped so far is reported out of band. */
  function Clear(p: Pipe): Pipe {
    var lines := p.cache.discardLines + |p.cache.lines|;
    var bytes := p.cache.discardBytes + |Flat(p.cache.lines)|;
    var noted := if lines > 0
      then Note(p, Report(Offset(p), p.dropped + p.cache.lines, lines, bytes, []))
      else p;
    noted.(cache := Cleared(p.cache), dropped := [])
  }

  /** The warning is queued in place of the dropped lines. */
  function Warn(p: Pipe, text: seq<byte>): Pipe {
    Note(p, Report(Offset(p), p.dropped, p.cache.discardLines, p.cache.discardBytes, text)).(
      slot := Some(text), dropped := [], cache := p.cache.(discardLines := 0, discardBytes := 0))
  }

  function HasNewLine(p: Pipe): Pipe {
    p.(cache := p.cache.(hasNewLine := true))
  }

  function CountNoNewLine(p: Pipe): Pipe {
    p.(cache := p.cache.(noNewLineCount := p.cache.noNewLineCount + 1))
  }

  /** A completed flush. */
  function Flushed(p: Pipe): Pipe {
    p.(cache := p.cache.(lines := [], hasNewLine := false, noNewLineCount := 0))
  }

  predicate HasToken(pc: Pc) {
    !pc.Outside?
  }

  predicate IsParkedAt(at: Spot) {
    at.Asleep? || at.Awaiting?
  }

  /** The owner has released the mutex for a while. */
  predicate IsParked(pc: Pc) {
    || (pc.Handling? && (pc.h.Send? || pc.h.Enqueue?) && IsParkedAt(pc.h.at))
    || (pc.Flushing? && pc.f.Offer? && IsParkedAt(pc.f.at))
    || pc.ErrorAwait?
  }

  predicate HasMutex(pc: Pc) {
    HasToken(pc) && !IsParked(pc)
  }

  function Back(ret: Return): Pc {
    match ret
    case ThenEnd(after) => End(after)
    case ThenError => ErrorLoop
  }

  const DONE: Pc := End(Resume)

  function Locked(sh: Shared, t: Tid): Shared {
    sh.(lock := sh.lock.(mutex := Some(t)))
  }

  function Unlocked(sh: Shared): Shared {
    sh.(lock := sh.lock.(mutex := None))
  }

  function WaitFailed(sh: Shared): Shared {
    sh.(past := sh.past.(waitFailed := true))
  }

  /** One step of `handleBuffer` up to its send loop, and after it. */
  function HandleStep(sh: Shared, h: Handle, c: Choice): (Shared, Pc)
    requires !h.Send? && !h.TakeBack? && !h.Enqueue?
  {
    var p := sh.pipe;
    match h
    case InjectMarker(chunk) =>
      if sh.env.discardMarker.Some? then
        var marker := sh.env.discardMarker.value;
        (sh.(pipe := Note(Clear(p), Append(marker, chunk)),
             env := sh.env.(discardMarker := None, discardOutput := false)),
         Handling(DiscardCached(marker + chunk)))
      else
        (sh.(pipe := Note(p, Append([], chunk))), Handling(DiscardCached(chunk)))
    case DiscardCached(buf) =>
      (if sh.env.discardOutput then sh.(pipe := Clear(p), env := sh.env.(discardOutput := false)) else sh,
       Handling(CacheWhenAway(buf)))
    case CacheWhenAway(buf) =>
      if p.cache.hasNewLine && sh.env.timedOut && !c.keep
      then (sh.(pipe := CacheIn(p, buf, sh.env.rows)), DONE)
      else (sh, Handling(CacheWhenCached(buf)))
    case CacheWhenCached(buf) =>
      if p.cache.lines != []
      then (sh.(pipe := CacheIn(p, buf, sh.env.rows)), Flushing(Test, ThenEnd(Resume)))
      else (sh, Handling(SplitWhenAway(buf)))
    case SplitWhenAway(buf) =>
      if sh.env.timedOut && !c.keep then
        var pos := IndexByte(buf, LF);
        if pos >= 0 then (sh.(pipe := HasNewLine(p)), Handling(Send(Try, buf[..pos + 1], buf[pos + 1..])))
        else if p.cache.noNewLineCount < 3 then (sh.(pipe := CountNoNewLine(p)), Handling(Send(Try, buf, [])))
        else (sh.(pipe := CacheIn(HasNewLine(p), buf, sh.env.rows)), DONE)
      else
        (sh, Handling(Send(Try, buf, [])))
    case CacheRest(rest) =>
      (if rest != [] then sh.(pipe := CacheIn(p, rest, sh.env.rows)) else sh, DONE)
  }

  /** One step of the send loop of `handleBuffer`. */
  function SendStep(sh: Shared, t: Tid, h: Handle, c: Choice): (Shared, Pc)
    requires h.Send?
  {
    var Send(at, buf, rest) := h;
    match at
    case Try =>
      if sh.pipe.slot.None? then (sh.(pipe := sh.pipe.(slot := Some(buf))), Handling(CacheRest(rest)))
      else (sh, Handling(Send(Full, buf, rest)))
    case Full =>
      if !sh.env.timedOut then (sh, Handling(Send(Stuck, buf, rest)))
      else if c.keep then (Unlocked(sh), Handling(Send(Awaiting, buf, rest)))
      else (sh, Handling(TakeBack(buf, rest)))
    case Stuck =>
      if sh.phase.returned || sh.past.writeError then (sh, DONE) else (Unlocked(sh), Handling(Send(Asleep, buf, rest)))
    case Asleep => (Locked(sh, t), Handling(Send(Try, buf, rest)))
    case Awaiting =>
      if c.ok then (Locked(sh, t), Handling(Send(Try, buf, rest)))
      else (WaitFailed(Locked(sh, t)), DONE)
  }

  /** Takes the queued buffer back, if it is still there, and cuts after the first newline. */
  function TakeBackStep(sh: Shared, h: Handle): (Shared, Pc)
    requires h.TakeBack?
  {
    var buf := Queued(sh.pipe) + h.buf;
    var empty := sh.(pipe := sh.pipe.(slot := None));
    var pos := IndexByte(buf, LF);
    if pos < 0 then (empty, Handling(Enqueue(Try, buf, [], sh.pipe.cache.noNewLineCount < 3, h.rest)))
    else (empty, Handling(Enqueue(Try, buf[..pos + 1], buf[pos + 1..], false, h.rest)))
  }

  /** One step of `enqueueWhileDisconnected` and of what follows it. */
  function EnqueueStep(sh: Shared, t: Tid, h: Handle): (Shared, Pc)
    requires h.Enqueue?
  {
    var Enqueue(at, buf, left, count, rest) := h;
    match at
    case Try =>
      if sh.pipe.slot.Some? then (sh, Handling(Enqueue(Full, buf, left, count, rest)))
      else
        var sent := sh.pipe.(slot := Some(buf));
        if count then (sh.(pipe := CountNoNewLine(sent)), Handling(CacheRest(rest)))
        else
          var cached := if left != [] then CacheIn(sent, left, sh.env.rows) else sent;
          (sh.(pipe := HasNewLine(cached)), Handling(CacheRest(rest)))
    case Asleep | Awaiting => (Locked(sh, t), Handling(Enqueue(Try, buf, left, count, rest)))
    case Full | Stuck =>
      if sh.phase.returned || sh.past.writeError then (sh, DONE)
      else (Unlocked(sh), Handling(Enqueue(Asleep, buf, left, count, rest)))
  }

  /** One step of `flushOutput` outside its send loop. */
  function FlushStep(sh: Shared, f: Flush, ret: Return, c: Choice): (Shared, Pc)
    requires !f.Offer?
  {
    var p := sh.pipe;
    match f
    case Test =>
      if p.cache.lines == [] || sh.env.timedOut then (sh, Back(ret))
      else if p.cache.discardLines > 0 then (sh, Flushing(Redraw, ret))
      else (sh, Flushing(Pick(-1), ret))
    case Redraw =>
      var redrawn := if c.armed then sh.(env := sh.env.(discardOutput := true)) else sh;
      if c.ok then (redrawn.(pipe := Clear(p)), Back(ret)) else (redrawn, Flushing(Pick(-1), ret))
    case Pick(i) =>
      if i < 0 then
        if p.cache.discardLines == 0 then (sh, Flushing(Pick(0), ret))
        else (sh, Flushing(Offer(Try, -1, [], Warning(p.cache)), ret))
      else if i < |p.cache.lines| then
        var raw := p.cache.lines[i];
        var line := WithoutCursorRequests(raw);
        if line == [] then (sh.(pipe := Note(p, Strip(Offset(p), raw))), Flushing(Pick(i + 1), ret))
        else (sh, Flushing(Offer(Try, i, raw, line), ret))
      else
        (sh.(pipe := Flushed(p)), Back(ret))
  }

  /** One step of the send loop of `flushOutput`. */
  function OfferStep(sh: Shared, t: Tid, f: Flush, ret: Return): (Shared, Pc)
    requires f.Offer?
  {
    var Offer(at, i, raw, line) := f;
    var p := sh.pipe;
    match at
    case Try =>
      if p.slot.Some? then (sh, Flushing(Offer(Full, i, raw, line), ret))
      else if i < 0 then (sh.(pipe := Warn(p, line)), Flushing(Pick(0), ret))
      else (sh.(pipe := Note(p, Strip(Offset(p), raw)).(slot := Some(line))), Flushing(Pick(i + 1), ret))
    case Full =>
      if !sh.env.timedOut then (sh, Flushing(Offer(Stuck, i, raw, line), ret))
      else if 0 < i <= |p.cache.lines| then (sh.(pipe := p.(cache := p.cache.(lines := p.cache.lines[i..]))), Back(ret))
      else (sh, Back(ret))
    case Asleep | Awaiting => (Locked(sh, t), Flushing(Offer(Try, i, raw, line), ret))
    case Stuck =>
      if sh.phase.returned || sh.past.writeError then (sh, Back(ret))
      else (Unlocked(sh), Flushing(Offer(Asleep, i, raw, line), ret))
  }

  /** One step of `handleError` or `endProcessing`. */
  function EndStep(sh: Shared, t: Tid, pc: Pc, c: Choice): (Shared, Pc)
    requires pc.ErrorLoop? || pc.ErrorTest? || pc.ErrorAwait? || pc.End?
  {
    match pc
    case ErrorLoop => (sh, if sh.pipe.cache.lines != [] && !sh.past.writeError then ErrorTest else End(Quit))
    case ErrorTest => if sh.env.timedOut then (Unlocked(sh), ErrorAwait) else (sh, Flushing(Test, ThenError))
    case ErrorAwait =>
      if c.ok then (Locked(sh, t), Flushing(Test, ThenError))
      else (WaitFailed(Locked(sh, t)), End(Quit))
    case End(after) =>
      if sh.phase.reconnectPending && !sh.phase.returned then
        (sh.(phase := sh.phase.(reconnectPending := false)), Flushing(Test, ThenEnd(after)))
      else
        (sh.(lock := Lock(false, None, None)),
         Outside(match after case Resume => Reading case Quit => BeginShutdown case Finish => Finished))
  }

  function TakeToken(sh: Shared, t: Tid): Shared {
    sh.(lock := Lock(true, Some(t), Some(t)))
  }

  /** One step of a thread that does not hold the token. */
  function FreeStep(sh: Shared, t: Tid, free: Free, c: Choice): (Shared, Pc) {
    match free
    case Notified =>
      if sh.phase.returned then (sh, Outside(Finished))
      else if sh.lock.processing then (sh.(phase := sh.phase.(reconnectPending := true)), Outside(Finished))
      else (TakeToken(sh, t), Flushing(Test, ThenEnd(Finish)))
    case Reading =>
      if c.chunk == [] then (sh, Outside(Acquire(Eof)))
      else (sh.(past := sh.past.(read := sh.past.read + c.chunk)), Outside(Acquire(Chunk(c.chunk))))
    case Acquire(job) =>
      (TakeToken(sh, t), match job case Chunk(bytes) => Handling(InjectMarker(bytes)) case Eof => ErrorLoop)
    case BeginShutdown =>
      if sh.lock.processing then (sh.(phase := sh.phase.(returned := true)), Outside(AwaitProcessing))
      else (sh.(phase := sh.phase.(returned := true, chClosed := true)), Outside(AwaitWriter))
    case AwaitProcessing => (sh.(phase := sh.phase.(chClosed := true)), Outside(AwaitWriter))
    case AwaitWriter => (sh, Outside(Returned))
    case Returned => (sh, Outside(free))
    case Finished => (sh, Outside(free))
  }

  predicate Enabled(sh: Shared, pc: Pc) {
    if pc.Outside? then
      match pc.free
      case Notified => sh.lock.mutex.None?
      case Reading => true
      case Acquire(_) => sh.lock.mutex.None? && !sh.lock.processing
      case BeginShutdown => sh.lock.mutex.None?
      case AwaitProcessing => sh.lock.mutex.None? && !sh.lock.processing
      case AwaitWriter => sh.pipe.writer.Stopped?
      case Returned => false
      case Finished => false
    else
      IsParked(pc) ==> sh.lock.mutex.None?
  }

  /** One step of thread `t`, standing at `pc`. */
  function ThreadStep(sh: Shared, t: Tid, pc: Pc, c: Choice): (Shared, Pc) {
    match pc
    case Outside(free) => FreeStep(sh, t, free, c)
    case Handling(h) =>
      if h.Send? then SendStep(sh, t, h, c)
      else if h.TakeBack? then TakeBackStep(sh, h)
      else if h.Enqueue? then EnqueueStep(sh, t, h)
      else HandleStep(sh, h, c)
    case Flushing(f, ret) => if f.Offer? then OfferStep(sh, t, f, ret) else FlushStep(sh, f, ret, c)
    case _ => EndStep(sh, t, pc, c)
  }

  datatype Action =
    | Run(t: Tid, c: Choice)
    // The writer.
    | WriterTakes
    | WriterWrites
    | WriterFails
    | WriterStops
    // The rest of the server.
    | Disconnect
    | Reconnect(callback: Tid)
    | Notify(callback: Tid)
    | AskMarker(marker: seq<byte>)
    | AskDiscard
    | Resize(rows: int)

  predicate CanHappen(s: State, a: Action) {
    match a
    case Run(t, c) => t in s.pcs && Enabled(s.sh, s.pcs[t])
    case WriterTakes => s.sh.pipe.writer.Idle? && s.sh.pipe.slot.Some?
    case WriterWrites => s.sh.pipe.writer.Writing?
    case WriterFails => s.sh.pipe.writer.Writing?
    case WriterStops => s.sh.pipe.writer.Idle? && s.sh.pipe.slot.None? && s.sh.phase.chClosed
    case Reconnect(t) => t !in s.pcs && t != READER
    case Notify(t) => t !in s.pcs && t != READER
    case _ => true
  }

  function Next(s: State, a: Action): State
    requires CanHappen(s, a)
  {
    var sh := s.sh;
    var p := sh.pipe;
    match a
    case Run(t, c) =>
      var (sh', pc') := ThreadStep(sh, t, s.pcs[t], c);
      State(sh', s.pcs[t := pc'])
    case WriterTakes => s.(sh := sh.(pipe := p.(writer := Writing(p.slot.value), slot := None)))
    case WriterWrites => s.(sh := sh.(pipe := p.(writer := Idle, written := p.written + p.writer.buf)))
    case WriterFails => s.(sh := sh.(pipe := p.(writer := Stopped), past := sh.past.(writeError := true)))
    case WriterStops => s.(sh := sh.(pipe := p.(writer := Stopped)))
    case Disconnect => s.(sh := sh.(env := sh.env.(timedOut := true)))
    case Reconnect(t) => State(sh.(env := sh.env.(timedOut := false)), s.pcs[t := Outside(Notified)])
    case Notify(t) => s.(pcs := s.pcs[t := Outside(Notified)])
    case AskMarker(marker) => s.(sh := sh.(env := sh.env.(discardMarker := Some(marker))))
    case AskDiscard => s.(sh := sh.(env := sh.env.(discardOutput := true)))
    case Resize(rows) => s.(sh := sh.(env := sh.env.(rows := rows)))
  }

  function Init(timedOut: bool, rows: int): State {
    State(Shared(Pipe(Cache([], 0, 0, false, 0, []), None, Idle, [], Empty, []),
                 Lock(false, None, None), Phase(false, false, false),
                 Env(timedOut, None, false, rows), Past([], false, false)),
          map[READER := Outside(Reading)])
  }

  ghost predicate Steps(s: State, s': State) {
    exists a :: CanHappen(s, a) && s' == Next(s, a)
  }

  /** `states` is a run: it starts fresh and every step is an action that can happen. */
  ghost predicate IsRun(states: seq<State>) {
    && states != []
    && (exists timedOut, rows :: states[0] == Init(timedOut, rows))
    && (forall k :: 0 <= k < |states| - 1 ==> Steps(states[k], states[k + 1]))
  }
}
