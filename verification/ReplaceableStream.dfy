/**
 One writer on a replaceable stream.

 Streams are numbered in the order they are put in place.  A stream's own worker carries
 out each write and leaves its answer; the writer waits for that answer or for the stream
 to be shut, which happens some time after it was replaced.  The writer submits data and
 writes it out piece by piece, starting a piece again when it failed on a stream that is
 no longer the current one.
 */
module ReplaceableStream {
  import opened Bytes
  import opened Options

  datatype Worker = Resting | Busy(buf: seq<byte>) | Answered(n: nat, ok: bool)

  datatype Stream = Stream(worker: Worker, shut: bool, delivered: seq<byte>)

  /** The replaceable stream: what is in place, whether it is closed for good, and who is still to be shut. */
  datatype Slot = Slot(current: Option<nat>, closed: bool, count: nat, closing: set<nat>)

  datatype Outcome = Fine | Broken | Shut

  datatype Pc =
    | Rest
    | Enter
    | Check(cur: nat)
    | Offer(cur: nat)
    | Await(cur: nat)
    | Judge(cur: nat, n: nat, outcome: Outcome)
    | Failed(why: Outcome)
    | Ended

  /** What was submitted, and how much of it is acknowledged. */
  datatype Text = Text(data: seq<byte>, done: nat)

  datatype Piece = Piece(stream: nat, bytes: seq<byte>)

  datatype Past = Past(acked: seq<Piece>, retried: seq<nat>)

  datatype State = State(slot: Slot, streams: map<nat, Stream>, pc: Pc, text: Text, past: Past)

  datatype Action =
    | Submit(data: seq<byte>)
    | Go
    | GiveUp
    | Writes(stream: nat, n: nat, ok: bool)
    | Shuts(stream: nat)
    | SwapIn
    | SwapOut
    | Close

  const INIT := State(
    Slot(Some(0), false, 1, {}), map[0 := Stream(Resting, false, [])], Rest, Text([], 0), Past([], []))

  function Left(t: Text): seq<byte> {
    if t.done <= |t.data| then t.data[t.done..] else []
  }

  predicate CanHappen(s: State, a: Action) {
    match a
    case Submit(_) => s.pc.Rest?
    case Go =>
      (match s.pc
       case Enter => s.slot.closed || (s.slot.current.Some? && s.slot.current.value in s.streams)
       case Check(cur) => cur in s.streams
       case Offer(cur) => cur in s.streams && s.streams[cur].worker.Resting?
       case Await(cur) => cur in s.streams && s.streams[cur].worker.Answered?
       case Judge(_, n, _) => s.text.done + n <= |s.text.data|
       case _ => false)
    case GiveUp => (s.pc.Offer? || s.pc.Await?) && s.pc.cur in s.streams && s.streams[s.pc.cur].shut
    case Writes(x, n, _) => x in s.streams && s.streams[x].worker.Busy? && n <= |s.streams[x].worker.buf|
    case Shuts(x) => x in s.slot.closing && x in s.streams
    case SwapIn => true
    case SwapOut => true
    case Close => true
  }

  function Gone(slot: Slot): set<nat> {
    if slot.current.Some? then slot.closing + {slot.current.value} else slot.closing
  }

  /** A piece was acknowledged. */
  function Advanced(s: State, cur: nat, n: nat): State
    requires s.text.done + n <= |s.text.data|
  {
    var t := Text(s.text.data, s.text.done + n);
    s.(pc := if t.done < |t.data| then Enter else Rest, text := t,
       past := s.past.(acked := s.past.acked + [Piece(cur, s.text.data[s.text.done..t.done])]))
  }

  function GoStep(s: State): State
    requires CanHappen(s, Go)
  {
    match s.pc
    case Enter => if s.slot.closed then s.(pc := Ended) else s.(pc := Check(s.slot.current.value))
    case Check(cur) => s.(pc := if s.streams[cur].shut then Judge(cur, 0, Shut) else Offer(cur))
    case Offer(cur) => s.(streams := s.streams[cur := s.streams[cur].(worker := Busy(Left(s.text)))], pc := Await(cur))
    case Await(cur) =>
      var answer := s.streams[cur].worker;
      s.(streams := s.streams[cur := s.streams[cur].(worker := Resting)],
         pc := Judge(cur, answer.n, if answer.ok then Fine else Broken))
    case Judge(cur, n, outcome) =>
      if outcome == Fine then Advanced(s, cur, n)
      else if s.slot.current != Some(cur) then s.(pc := Enter, past := s.past.(retried := s.past.retried + [cur]))
      else s.(pc := Failed(outcome))
  }

  function Next(s: State, a: Action): State
    requires CanHappen(s, a)
  {
    match a
    case Submit(data) =>
      var t := Text(s.text.data + data, s.text.done);
      s.(text := t, pc := if t.done < |t.data| then Enter else Rest)
    case Go => GoStep(s)
    case GiveUp => s.(pc := Judge(s.pc.cur, 0, Shut))
    case Writes(x, n, ok) =>
      var buf := s.streams[x].worker.buf;
      s.(streams := s.streams[x := Stream(Answered(n, ok), s.streams[x].shut, s.streams[x].delivered + buf[..n])])
    case Shuts(x) => s.(streams := s.streams[x := s.streams[x].(shut := true)])
    case SwapIn =>
      if s.slot.closed then s
      else
        s.(slot := Slot(Some(s.slot.count), false, s.slot.count + 1, Gone(s.slot)),
           streams := s.streams[s.slot.count := Stream(Resting, false, [])])
    case SwapOut => if s.slot.closed then s else s.(slot := Slot(None, false, s.slot.count, Gone(s.slot)))
    case Close => if s.slot.closed then s else s.(slot := Slot(None, true, s.slot.count, Gone(s.slot)))
  }

  predicate Steps(s: State, a: Action, s': State) {
    CanHappen(s, a) && s' == Next(s, a)
  }

  ghost predicate IsRun(states: seq<State>, actions: seq<Action>) {
    && |states| == |actions| + 1
    && states[0] == INIT
    && forall k :: 0 <= k < |actions| ==> Steps(states[k], actions[k], states[k + 1])
  }

  // ------------------------------------------------------------------- invariant

  /** All acknowledged bytes, in the order they were acknowledged. */
  function AckedBytes(acked: seq<Piece>): seq<byte> {
    if acked == [] then [] else AckedBytes(acked[..|acked| - 1]) + acked[|acked| - 1].bytes
  }

  /** The acknowledged bytes that went to one stream. */
  function AckedOn(acked: seq<Piece>, x: nat): seq<byte> {
    if acked == [] then []
    else
      var last := acked[|acked| - 1];
      AckedOn(acked[..|acked| - 1], x) + if last.stream == x then last.bytes else []
  }

  lemma AckedAppend(acked: seq<Piece>, p: Piece, x: nat)
    ensures AckedBytes(acked + [p]) == AckedBytes(acked) + p.bytes
    ensures AckedOn(acked + [p], x) == AckedOn(acked, x) + if p.stream == x then p.bytes else []
  {
    assert (acked + [p])[..|acked|] == acked;
  }

  /** The stream in place is numbered, known, not shut and not going to be. */
  ghost predicate InPlace(slot: Slot, streams: map<nat, Stream>) {
    && (slot.closed ==> slot.current.None?)
    && (slot.current.Some? ==>
          slot.current.value in streams && !streams[slot.current.value].shut && slot.current.value !in slot.closing)
    && (forall x :: x in streams <==> 0 <= x < slot.count)
    && (forall x :: x in slot.closing ==> x < slot.count)
    && (forall x :: x in streams && streams[x].shut ==> x in slot.closing)
    && (forall x :: x in streams ==> x in slot.closing || slot.current == Some(x))
  }

  /** The stream the writer is working on, if any. */
  function At(pc: Pc): Option<nat> {
    if pc.Check? || pc.Offer? || pc.Await? || pc.Judge? then Some(pc.cur) else None
  }

  ghost predicate Progress(pc: Pc, text: Text, past: Past, slot: Slot) {
    && text.done <= |text.data|
    && AckedBytes(past.acked) == text.data[..text.done]
    && (pc.Rest? <==> text.done == |text.data|)
    && (pc.Judge? ==> pc.n <= |text.data| - text.done)
    && (pc.Judge? && pc.outcome == Shut ==> slot.current != Some(pc.cur))
    && pc != Failed(Shut) && pc != Failed(Fine)
    && (At(pc).Some? ==> At(pc).value < slot.count)
    && (forall x :: x in past.retried ==> x < slot.count && slot.current != Some(x))
  }

  /** What a stream holds beyond its acknowledged bytes while the writer is on it. */
  function Beyond(st: Stream, x: nat, pc: Pc, text: Text): seq<byte> {
    if pc == Await(x) && st.worker.Answered? && st.worker.n <= |Left(text)| then Left(text)[..st.worker.n]
    else if pc.Judge? && pc.cur == x && pc.n <= |Left(text)| then Left(text)[..pc.n]
    else []
  }

  /** A stream the writer works on, or that is in place, holds exactly what it should. */
  predicate Exact(x: nat, pc: Pc, slot: Slot) {
    && (slot.current == Some(x) || At(pc) == Some(x))
    && !(pc.Judge? && pc.cur == x && pc.outcome == Shut)
    && !pc.Failed?
  }

  ghost predicate StreamOk(st: Stream, x: nat, s: State) {
    && AckedOn(s.past.acked, x) <= st.delivered
    && (Exact(x, s.pc, s.slot) ==> st.delivered == AckedOn(s.past.acked, x) + Beyond(st, x, s.pc, s.text))
    && (Exact(x, s.pc, s.slot) && s.pc != Await(x) ==> st.worker.Resting?)
    && (s.pc == Await(x) ==> !st.worker.Resting?)
    && (s.pc == Await(x) && st.worker.Busy? ==> st.worker.buf == Left(s.text))
    && (s.pc == Await(x) && st.worker.Answered? ==> st.worker.n <= |Left(s.text)|)
  }

  ghost predicate AllOk(s: State) {
    forall x :: x in s.streams ==> StreamOk(s.streams[x], x, s)
  }

  /** No acknowledged byte is on a stream that does not exist yet. */
  ghost predicate NoneAhead(past: Past, slot: Slot) {
    forall i :: 0 <= i < |past.acked| ==> past.acked[i].stream < slot.count
  }

  ghost predicate Inv(s: State) {
    InPlace(s.slot, s.streams) && Progress(s.pc, s.text, s.past, s.slot) && NoneAhead(s.past, s.slot) && AllOk(s)
  }

  // ---------------------------------------------------------------- preservation

  lemma {:induction false} NothingAckedAhead(acked: seq<Piece>, x: nat)
    requires forall i :: 0 <= i < |acked| ==> acked[i].stream < x
    ensures AckedOn(acked, x) == []
  {
    if acked != [] {
      NothingAckedAhead(acked[..|acked| - 1], x);
    }
  }

  lemma SubmitKeeps(s: State, data: seq<byte>)
    requires Inv(s) && CanHappen(s, Submit(data))
    ensures Inv(Next(s, Submit(data)))
  {
    var s' := Next(s, Submit(data));
    assert s'.text.data[..s'.text.done] == s.text.data[..s.text.done];
    forall x | x in s'.streams
      ensures StreamOk(s'.streams[x], x, s')
    {
      assert StreamOk(s.streams[x], x, s);
    }
  }

  lemma AdvanceKeeps(s: State)
    requires Inv(s) && s.pc.Judge? && s.pc.outcome == Fine
    ensures Inv(Advanced(s, s.pc.cur, s.pc.n))
  {
    var s' := Advanced(s, s.pc.cur, s.pc.n);
    var piece := s'.past.acked[|s.past.acked|];
    assert s.text.data[..s'.text.done] == s.text.data[..s.text.done] + piece.bytes;
    AckedAppend(s.past.acked, piece, s.pc.cur);
    assert Left(s.text)[..s.pc.n] == piece.bytes;
    forall x | x in s'.streams
      ensures StreamOk(s'.streams[x], x, s')
    {
      assert StreamOk(s.streams[x], x, s);
      AckedAppend(s.past.acked, piece, x);
    }
  }

  /** Entering, checking and judging a failure leave the streams alone. */
  lemma DecideKeeps(s: State)
    requires Inv(s) && CanHappen(s, Go) && (s.pc.Enter? || s.pc.Check? || (s.pc.Judge? && s.pc.outcome != Fine))
    ensures Inv(GoStep(s))
  {
    var s' := GoStep(s);
    forall x | x in s'.streams
      ensures StreamOk(s'.streams[x], x, s')
    {
      assert StreamOk(s.streams[x], x, s);
    }
  }

  lemma TalkKeeps(s: State)
    requires Inv(s) && CanHappen(s, Go) && (s.pc.Offer? || s.pc.Await?)
    ensures Inv(GoStep(s))
  {
    var s' := GoStep(s);
    forall x | x in s'.streams
      ensures StreamOk(s'.streams[x], x, s')
    {
      assert StreamOk(s.streams[x], x, s);
    }
  }

  lemma GiveUpKeeps(s: State)
    requires Inv(s) && CanHappen(s, GiveUp)
    ensures Inv(Next(s, GiveUp))
  {
    var s' := Next(s, GiveUp);
    forall x | x in s'.streams
      ensures StreamOk(s'.streams[x], x, s')
    {
      assert StreamOk(s.streams[x], x, s);
    }
  }

  lemma WritesKeeps(s: State, y: nat, n: nat, ok: bool)
    requires Inv(s) && CanHappen(s, Writes(y, n, ok))
    ensures Inv(Next(s, Writes(y, n, ok)))
  {
    var s' := Next(s, Writes(y, n, ok));
    forall x | x in s'.streams
      ensures StreamOk(s'.streams[x], x, s')
    {
      assert StreamOk(s.streams[x], x, s);
    }
  }

  lemma SwapsKeep(s: State, a: Action)
    requires Inv(s) && (a.Shuts? || a.SwapIn? || a.SwapOut? || a.Close?) && CanHappen(s, a)
    ensures Inv(Next(s, a))
  {
    var s' := Next(s, a);
    NothingAckedAhead(s.past.acked, s.slot.count);
    forall x | x in s'.streams
      ensures StreamOk(s'.streams[x], x, s')
    {
      assert x in s.streams ==> StreamOk(s.streams[x], x, s);
    }
  }

  lemma StepKeeps(s: State, a: Action)
    requires Inv(s) && CanHappen(s, a)
    ensures Inv(Next(s, a))
  {
    match a
    case Submit(data) => SubmitKeeps(s, data);
    case Go =>
      if s.pc.Judge? && s.pc.outcome == Fine {
        AdvanceKeeps(s);
      } else if s.pc.Offer? || s.pc.Await? {
        TalkKeeps(s);
      } else {
        DecideKeeps(s);
      }
    case GiveUp => GiveUpKeeps(s);
    case Writes(x, n, ok) => WritesKeeps(s, x, n, ok);
    case _ => SwapsKeep(s, a);
  }

  lemma {:induction false} RunsKeepInv(states: seq<State>, actions: seq<Action>, k: nat)
    requires IsRun(states, actions) && k < |states|
    ensures Inv(states[k])
  {
    if k > 0 {
      RunsKeepInv(states, actions, k - 1);
      assert Steps(states[k - 1], actions[k - 1], states[k - 1 + 1]);
      StepKeeps(states[k - 1], actions[k - 1]);
    }
  }

  // -------------------------------------------------------------------- theorems

  /**
   For every schedule of swaps the acknowledged pieces, in order and across the streams
   they went to, are exactly a prefix of what was submitted, and all of it once the
   writer rests.
   */
  lemma AckedIsSubmitted(states: seq<State>, actions: seq<Action>, k: nat)
    requires IsRun(states, actions) && k < |states|
    ensures AckedBytes(states[k].past.acked) <= states[k].text.data
    ensures states[k].pc.Rest? ==> AckedBytes(states[k].past.acked) == states[k].text.data
  {
    RunsKeepInv(states, actions, k);
    var t := states[k].text;
    assert t.data[..|t.data|] == t.data;
  }

  /**
   A stream holds the pieces acknowledged on it, in order, before anything else; and the
   stream in place holds nothing else while the writer rests, so nothing was written twice.
   */
  lemma StreamsHoldAcked(states: seq<State>, actions: seq<Action>, k: nat, x: nat)
    requires IsRun(states, actions) && k < |states| && x in states[k].streams
    ensures AckedOn(states[k].past.acked, x) <= states[k].streams[x].delivered
    ensures states[k].pc.Rest? && states[k].slot.current == Some(x) ==>
      states[k].streams[x].delivered == AckedOn(states[k].past.acked, x)
  {
    RunsKeepInv(states, actions, k);
    assert StreamOk(states[k].streams[x], x, states[k]);
  }

  /** A step of `do` that starts again leaves a stream that failed and that is not current then or ever after. */
  lemma RetriesLeaveReplaced(states: seq<State>, actions: seq<Action>, i: nat, k: nat)
    requires IsRun(states, actions) && i < |actions| && i < k < |states|
    requires states[i].pc.Judge? && actions[i] == Go && states[i + 1].pc.Enter? && states[i].pc.outcome != Fine
    ensures states[k].slot.current != Some(states[i].pc.cur)
    ensures states[i + 1].past.acked == states[i].past.acked && states[i + 1].text == states[i].text
  {
    assert Steps(states[i], actions[i], states[i + 1]);
    assert states[i].pc.cur in states[i + 1].past.retried;
    RetriedKept(states, actions, i + 1, k, states[i].pc.cur);
    RunsKeepInv(states, actions, k);
  }

  lemma {:induction false} RetriedKept(states: seq<State>, actions: seq<Action>, i: nat, k: nat, x: nat)
    requires IsRun(states, actions) && i <= k < |states| && x in states[i].past.retried
    ensures x in states[k].past.retried
    decreases k
  {
    if i < k {
      RetriedKept(states, actions, i, k - 1, x);
      assert Steps(states[k - 1], actions[k - 1], states[k - 1 + 1]);
    }
  }

  /** A write fails only because a stream broke while it was the one in place: a swap never surfaces as an error. */
  lemma {:induction false} SwapsNeverSurface(states: seq<State>, actions: seq<Action>, k: nat)
    requires IsRun(states, actions) && k < |states|
    ensures states[k].pc.Failed? ==>
      states[k].pc.why == Broken && exists i :: 0 <= i < k && BreaksInPlace(states[i])
    ensures states[k].pc.Judge? && states[k].pc.outcome == Shut ==> states[k].slot.current != Some(states[k].pc.cur)
  {
    hide AllOk, NoneAhead, InPlace, Steps;
    RunsKeepInv(states, actions, k);
    if k > 0 && states[k].pc.Failed? {
      RunsKeepInv(states, actions, k - 1);
      SwapsNeverSurface(states, actions, k - 1);
      FailsOnlyInPlace(states, actions, k - 1);
      assert states[k - 1].pc.Failed? || BreaksInPlace(states[k - 1]);
    }
  }

  predicate BreaksInPlace(s: State) {
    s.pc.Judge? && s.pc.outcome == Broken && s.slot.current == Some(s.pc.cur)
  }

  /**
   A write comes to fail exactly where it is judged not to have gone through on the stream
   that is then in place; on any other it starts again with the same text.
   */
  lemma FailsOnlyInPlace(states: seq<State>, actions: seq<Action>, k: nat)
    requires IsRun(states, actions) && k < |actions|
    ensures !states[k].pc.Failed? && states[k + 1].pc.Failed? <==>
      && actions[k] == Go && states[k].pc.Judge? && states[k].pc.outcome != Fine
      && states[k].slot.current == Some(states[k].pc.cur)
    ensures
      actions[k] == Go && states[k].pc.Judge? && states[k].pc.outcome != Fine
      && states[k].slot.current != Some(states[k].pc.cur) ==>
        states[k + 1].pc == Enter && states[k + 1].text == states[k].text
        && states[k + 1].past.acked == states[k].past.acked
  {
    assert Steps(states[k], actions[k], states[k + 1]);
  }

  lemma ClosedHasNone(states: seq<State>, actions: seq<Action>, k: nat)
    requires IsRun(states, actions) && k < |states|
    ensures states[k].slot.closed ==> states[k].slot.current.None?
  {
    hide AllOk, NoneAhead, Progress;
    RunsKeepInv(states, actions, k);
  }

  /** A writer stands at its end only after all was closed, and a closed stream never comes back. */
  lemma {:induction false} ClosedForGood(states: seq<State>, actions: seq<Action>, i: nat, k: nat)
    requires IsRun(states, actions) && i <= k < |states|
    ensures states[i].pc.Ended? ==> states[k].pc.Ended? && states[i].slot.closed
    ensures states[i].slot.closed ==> states[k].slot.closed && states[k].slot.current.None?
    ensures (exists m :: 0 <= m < k && actions[m] == Close) <==> states[k].slot.closed
    decreases k
  {
    ClosedHasNone(states, actions, k);
    if k > 0 {
      ClosedForGood(states, actions, if i < k then i else k - 1, k - 1);
      assert Steps(states[k - 1], actions[k - 1], states[k - 1 + 1]);
      assert (exists m :: 0 <= m < k && actions[m] == Close) <==>
        (exists m :: 0 <= m < k - 1 && actions[m] == Close) || actions[k - 1] == Close;
    }
  }

  /** Every stream that is not in place is one to be shut, so a writer on it can be let go. */
  lemma ReplacedIsShut(states: seq<State>, actions: seq<Action>, k: nat, x: nat)
    requires IsRun(states, actions) && k < |states| && x in states[k].streams
    ensures CanHappen(states[k], Shuts(x)) <==> states[k].slot.current != Some(x)
    ensures
      (states[k].pc == Offer(x) || states[k].pc == Await(x)) && states[k].slot.current != Some(x) ==>
        CanHappen(Next(states[k], Shuts(x)), GiveUp)
  {
    RunsKeepInv(states, actions, k);
  }

  /** A write is judged shut only on a stream that is shut, with nothing of it gone through. */
  lemma {:induction false} ShutMeansShut(states: seq<State>, actions: seq<Action>, k: nat)
    requires IsRun(states, actions) && k < |states|
    ensures
      var s := states[k];
      s.pc.Judge? && s.pc.outcome == Shut ==> s.pc.n == 0 && s.pc.cur in s.streams && s.streams[s.pc.cur].shut
  {
    if k > 0 {
      ShutMeansShut(states, actions, k - 1);
      NumberedAhead(states, actions, k - 1);
      assert Steps(states[k - 1], actions[k - 1], states[k - 1 + 1]);
    }
  }

  lemma NumberedAhead(states: seq<State>, actions: seq<Action>, k: nat)
    requires IsRun(states, actions) && k < |states|
    ensures forall x :: x in states[k].streams ==> x < states[k].slot.count
  {
    hide AllOk, NoneAhead, Progress;
    RunsKeepInv(states, actions, k);
  }

  /** A write is handed to a stream exactly when that stream was found not to be shut just before. */
  lemma OffersWhenNotShut(states: seq<State>, actions: seq<Action>, k: nat)
    requires IsRun(states, actions) && k < |actions| && actions[k] == Go && states[k].pc.Check?
    ensures
      var s, s' := states[k], states[k + 1];
      && s.pc.cur in s.streams && s'.streams == s.streams
      && (s'.pc == Offer(s.pc.cur) <==> !s.streams[s.pc.cur].shut)
  {
    assert Steps(states[k], actions[k], states[k + 1]);
  }

  /** How often a stream was swapped in, before the whole was closed. */
  function SwapIns(actions: seq<Action>): nat {
    if actions == [] then 0
    else
      var before := actions[..|actions| - 1];
      SwapIns(before) + if actions[|actions| - 1] == SwapIn && !WasClosed(before) then 1 else 0
  }

  /** What the swaps so far put in place: the last stream swapped in, unless it was swapped out or all was closed. */
  function PutInPlace(actions: seq<Action>): Option<nat> {
    if actions == [] then Some(0)
    else if WasClosed(actions) then None
    else if actions[|actions| - 1] == SwapIn then Some(SwapIns(actions))
    else if actions[|actions| - 1] == SwapOut then None
    else PutInPlace(actions[..|actions| - 1])
  }

  predicate WasClosed(actions: seq<Action>) {
    Close in actions
  }

  /** The slot is what the actions so far call for. */
  predicate Follows(slot: Slot, actions: seq<Action>) {
    && slot.current == PutInPlace(actions) && slot.count == SwapIns(actions) + 1
    && (slot.closed <==> WasClosed(actions)) && (slot.closed ==> slot.current.None?)
  }

  lemma FollowsOn(s: State, actions: seq<Action>, k: nat)
    requires k < |actions| && CanHappen(s, actions[k]) && Follows(s.slot, actions[..k])
    ensures Follows(Next(s, actions[k]).slot, actions[..k + 1])
  {
    hide Next, SwapIns, PutInPlace, WasClosed;
    SlotStep(s, actions[k]);
    SwapsNext(actions, k);
  }

  /** The stream in place is always the one the swaps call for: the last put in, unless taken out or closed since. */
  lemma {:induction false} SwapsTakeEffect(states: seq<State>, actions: seq<Action>, k: nat)
    requires IsRun(states, actions) && k < |states|
    ensures Follows(states[k].slot, actions[..k])
  {
    if k == 0 {
      assert actions[..0] == [];
    } else {
      hide Follows, Next, CanHappen;
      SwapsTakeEffect(states, actions, k - 1);
      assert Steps(states[k - 1], actions[k - 1], states[k - 1 + 1]);
      FollowsOn(states[k - 1], actions, k - 1);
    }
  }

  /** A stream put in place is new: it was not known, nothing was written to it and it is not shut. */
  lemma SwappedInIsNew(states: seq<State>, actions: seq<Action>, k: nat)
    requires IsRun(states, actions) && k < |actions| && actions[k] == SwapIn && !states[k].slot.closed
    ensures
      var x := states[k].slot.count;
      && states[k + 1].slot.current == Some(x) && x !in states[k].streams
      && x in states[k + 1].streams && states[k + 1].streams[x] == Stream(Resting, false, [])
  {
    NumberedAhead(states, actions, k);
    assert Steps(states[k], actions[k], states[k + 1]);
    SlotStep(states[k], actions[k]);
  }

  lemma SlotStep(s: State, a: Action)
    requires CanHappen(s, a)
    ensures
      var slot, slot' := s.slot, Next(s, a).slot;
      && (slot'.closed <==> slot.closed || a == Close)
      && slot'.count == slot.count + (if a == SwapIn && !slot.closed then 1 else 0)
      && slot'.current ==
           (if slot.closed then slot.current
            else if a == SwapIn then Some(slot.count)
            else if a == SwapOut || a == Close then None
            else slot.current)
    ensures a == SwapIn && !s.slot.closed ==>
      s.slot.count in Next(s, a).streams && Next(s, a).streams[s.slot.count] == Stream(Resting, false, [])
  {
  }

  lemma SwapsNext(actions: seq<Action>, k: nat)
    requires k < |actions|
    ensures WasClosed(actions[..k + 1]) <==> WasClosed(actions[..k]) || actions[k] == Close
    ensures SwapIns(actions[..k + 1]) ==
      SwapIns(actions[..k]) + if actions[k] == SwapIn && !WasClosed(actions[..k]) then 1 else 0
    ensures PutInPlace(actions[..k + 1]) ==
      if WasClosed(actions[..k + 1]) then None
      else if actions[k] == SwapIn then Some(SwapIns(actions[..k + 1]))
      else if actions[k] == SwapOut then None
      else PutInPlace(actions[..k])
  {
    assert actions[..k + 1] == actions[..k] + [actions[k]];
    assert actions[..k + 1][..k] == actions[..k];
  }

  /** Everything handed to the writer, in order. */
  function Submitted(actions: seq<Action>): seq<byte> {
    if actions == [] then []
    else
      var last := actions[|actions| - 1];
      Submitted(actions[..|actions| - 1]) + if last.Submit? then last.data else []
  }

  lemma {:induction false} TextIsSubmitted(states: seq<State>, actions: seq<Action>, k: nat)
    requires IsRun(states, actions) && k < |states|
    ensures states[k].text.data == Submitted(actions[..k])
  {
    if k > 0 {
      TextIsSubmitted(states, actions, k - 1);
      assert Steps(states[k - 1], actions[k - 1], states[k - 1 + 1]);
      assert actions[..k][..k - 1] == actions[..k - 1];
    }
  }

  datatype Answer = Answer(n: nat, ok: bool)

  /** What a stream's worker last said. */
  function LastAnswer(actions: seq<Action>, x: nat): Option<Answer> {
    if actions == [] then None
    else
      var last := actions[|actions| - 1];
      if last.Writes? && last.stream == x then Some(Answer(last.n, last.ok))
      else LastAnswer(actions[..|actions| - 1], x)
  }

  lemma AnswerNext(actions: seq<Action>, k: nat, x: nat)
    requires k < |actions|
    ensures LastAnswer(actions[..k + 1], x) ==
      if actions[k].Writes? && actions[k].stream == x then Some(Answer(actions[k].n, actions[k].ok))
      else LastAnswer(actions[..k], x)
  {
    assert actions[..k + 1][..k] == actions[..k];
  }

  /** An answer left for the writer, or under its judgement, is the stream's last. */
  ghost predicate AnswersKnown(s: State, actions: seq<Action>) {
    && (forall x :: x in s.streams && s.streams[x].worker.Answered? ==>
          LastAnswer(actions, x) == Some(Answer(s.streams[x].worker.n, s.streams[x].worker.ok)))
    && (s.pc.Judge? && s.pc.outcome != Shut ==>
          LastAnswer(actions, s.pc.cur) == Some(Answer(s.pc.n, s.pc.outcome == Fine)))
  }

  lemma AnswersStayKnown(s: State, actions: seq<Action>, k: nat)
    requires k < |actions| && Inv(s) && CanHappen(s, actions[k]) && AnswersKnown(s, actions[..k])
    ensures AnswersKnown(Next(s, actions[k]), actions[..k + 1])
  {
    var s' := Next(s, actions[k]);
    forall x | x in s'.streams && s'.streams[x].worker.Answered?
      ensures LastAnswer(actions[..k + 1], x) == Some(Answer(s'.streams[x].worker.n, s'.streams[x].worker.ok))
    {
      AnswerNext(actions, k, x);
    }
    if s'.pc.Judge? && s'.pc.outcome != Shut {
      AnswerNext(actions, k, s'.pc.cur);
      assert StreamOk(s.streams[s'.pc.cur], s'.pc.cur, s);
    }
  }

  lemma {:induction false} RunsKnowAnswers(states: seq<State>, actions: seq<Action>, k: nat)
    requires IsRun(states, actions) && k < |states|
    ensures AnswersKnown(states[k], actions[..k])
  {
    if k > 0 {
      hide Inv, AnswersKnown, Next;
      RunsKnowAnswers(states, actions, k - 1);
      RunsKeepInv(states, actions, k - 1);
      assert Steps(states[k - 1], actions[k - 1], states[k - 1 + 1]);
      AnswersStayKnown(states[k - 1], actions, k - 1);
    }
  }

  /**
   The worker's last answer decides: a piece is acknowledged exactly when its stream said
   that so much went through, and a write fails only when the stream in place said it broke.
   */
  lemma AnswersDecide(states: seq<State>, actions: seq<Action>, k: nat)
    requires IsRun(states, actions) && k < |actions| && actions[k] == Go && states[k].pc.Judge?
    ensures
      var s, s' := states[k], states[k + 1];
      var said := LastAnswer(actions[..k], s.pc.cur);
      && (s'.past.acked != s.past.acked <==> s.pc.outcome == Fine)
      && (s.pc.outcome == Fine ==>
            said == Some(Answer(s'.text.done - s.text.done, true))
            && s'.past.acked == s.past.acked + [Piece(s.pc.cur, s.text.data[s.text.done..s'.text.done])])
      && (s'.pc.Failed? ==> said.Some? && !said.value.ok && s.slot.current == Some(s.pc.cur))
  {
    RunsKnowAnswers(states, actions, k);
    RunsKeepInv(states, actions, k);
    assert Steps(states[k], actions[k], states[k + 1]);
  }

  /**
   A write under way waits for nothing but a stream to be put in place, or for the worker of the
   stream it is on; swaps and the close may come, and a worker may be done, at any time.
   */
  lemma WriterGoesOn(states: seq<State>, actions: seq<Action>, k: nat)
    requires IsRun(states, actions) && k < |states|
    ensures
      var s := states[k];
      match s.pc
      case Enter => CanHappen(s, Go) || s.slot.current.None?
      case Check(_) => CanHappen(s, Go)
      case Offer(_) => CanHappen(s, Go)
      case Await(cur) => CanHappen(s, Go) || (cur in s.streams && s.streams[cur].worker.Busy?)
      case Judge(_, _, _) => CanHappen(s, Go)
      case _ => true
    ensures
      var s := states[k];
      && CanHappen(s, SwapIn) && CanHappen(s, SwapOut) && CanHappen(s, Close)
      && forall x, n: nat, ok: bool ::
           x in s.streams && s.streams[x].worker.Busy? && n <= |s.streams[x].worker.buf| ==>
             CanHappen(s, Writes(x, n, ok))
  {
    RunsKeepInv(states, actions, k);
    var s := states[k];
    if At(s.pc).Some? {
      assert StreamOk(s.streams[s.pc.cur], s.pc.cur, s);
    }
  }
}
