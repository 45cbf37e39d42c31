/**
 The timeout checker's event handler and those who wait on it.

 Channels are numbered in the order they are made.  The handler's stores are separate
 steps, so that waiters run between any two of them.
 */
module TimeoutChecker {
  import opened Options

  /** What the handler has still to do for the event in hand. */
  datatype Handler =
    | Idle
    | FlagCleared
    | Withdrawn(ch: Option<nat>)
    | Released
    | Published(replaced: Option<nat>)
    | FlagRaised
    | Stopped

  datatype Note = TimedOut | Reconnected

  /** Shared variables: the flag, the published channel, and the time of the last sign of life. */
  datatype Vars = Vars(timeoutFlag: bool, reconnectedCh: Option<nat>, lastAlive: int)

  /** Channels made so far, those still open, and the order in which the others were closed. */
  datatype Channels = Channels(made: nat, open: set<nat>, closings: seq<nat>)

  datatype Waiter = Top | Loading | Sleeping | Rechecking(held: Option<nat>) | Blocked(on: nat) | Returned(ok: bool)

  datatype State = State(vars: Vars, chans: Channels, handler: Handler, notes: seq<Note>, waiters: map<nat, Waiter>)

  datatype Action =
    | UpdateNow(now: int)
    | UpdateTime(msec: int, now: int)
    | TimeoutEvent(now: int)
    | Stop
    | Continue
    | Begin(waiter: nat)
    | Run(waiter: nat)
    | GiveUp(waiter: nat)

  function Start(now: int): State {
    State(Vars(false, None, now), Channels(0, {}, []), Idle, [], map[])
  }

  predicate CanHappen(s: State, a: Action) {
    match a
    case UpdateNow(_) => s.handler.Idle?
    case UpdateTime(_, _) => s.handler.Idle?
    case TimeoutEvent(_) => s.handler.Idle?
    case Stop => s.handler.Idle?
    case Continue => !s.handler.Idle? && !s.handler.Stopped?
    case Begin(w) => w !in s.waiters
    case Run(w) =>
      w in s.waiters && !s.waiters[w].Returned? && (s.waiters[w].Blocked? ==> s.waiters[w].on !in s.chans.open)
    case GiveUp(w) => w in s.waiters && s.waiters[w].Blocked?
  }

  /** A sign of life ends a timeout, if there is one: the flag goes first. */
  function SetReconnected(s: State): State {
    if s.vars.timeoutFlag then s.(vars := s.vars.(timeoutFlag := false), handler := FlagCleared) else s
  }

  function CloseCh(c: Channels, ch: Option<nat>): Channels {
    if ch.Some? then Channels(c.made, c.open - {ch.value}, c.closings + [ch.value]) else c
  }

  function HandlerStep(s: State): State
    requires CanHappen(s, Continue)
  {
    match s.handler
    case FlagCleared => s.(vars := s.vars.(reconnectedCh := None), handler := Withdrawn(s.vars.reconnectedCh))
    case Withdrawn(ch) => s.(chans := CloseCh(s.chans, ch), handler := Released)
    case Released => s.(notes := s.notes + [Reconnected], handler := Idle)
    case Published(replaced) =>
      State(s.vars.(timeoutFlag := true), CloseCh(s.chans, replaced), FlagRaised, s.notes, s.waiters)
    case FlagRaised => s.(notes := s.notes + [TimedOut], handler := Idle)
  }

  /** A timeout event that finds no sign of life for too long publishes a new channel. */
  function Expired(s: State): State {
    s.(vars := s.vars.(reconnectedCh := Some(s.chans.made)),
       chans := Channels(s.chans.made + 1, s.chans.open + {s.chans.made}, s.chans.closings),
       handler := Published(s.vars.reconnectedCh))
  }

  function WaiterStep(s: State, w: Waiter): Waiter
    requires !w.Returned?
  {
    match w
    case Top => if s.vars.timeoutFlag then Loading else Returned(true)
    case Loading => if s.vars.reconnectedCh.Some? then Blocked(s.vars.reconnectedCh.value) else Sleeping
    case Sleeping => Rechecking(s.vars.reconnectedCh)
    case Rechecking(held) =>
      if !s.vars.timeoutFlag then Returned(true) else if held.Some? then Blocked(held.value) else Sleeping
    case Blocked(_) => Top
  }

  function Next(s: State, a: Action, heartbeat: int): State
    requires CanHappen(s, a)
  {
    match a
    case UpdateNow(now) => SetReconnected(s.(vars := s.vars.(lastAlive := now)))
    case UpdateTime(msec, now) =>
      if msec <= s.vars.lastAlive then s
      else
        var alive := s.(vars := s.vars.(lastAlive := msec));
        if msec + heartbeat > now then SetReconnected(alive) else alive
    case TimeoutEvent(now) =>
      if s.vars.lastAlive + heartbeat < now && !s.vars.timeoutFlag then Expired(s) else s
    case Stop => s.(handler := Stopped)
    case Continue => HandlerStep(s)
    case Begin(w) => s.(waiters := s.waiters[w := Top])
    case Run(w) => s.(waiters := s.waiters[w := WaiterStep(s, s.waiters[w])])
    case GiveUp(w) => s.(waiters := s.waiters[w := Returned(false)])
  }

  predicate Steps(s: State, a: Action, s': State, heartbeat: int) {
    CanHappen(s, a) && s' == Next(s, a, heartbeat)
  }

  ghost predicate IsRun(states: seq<State>, actions: seq<Action>, heartbeat: int, begin: int) {
    && |states| == |actions| + 1
    && states[0] == Start(begin)
    && forall k :: 0 <= k < |actions| ==> Steps(states[k], actions[k], states[k + 1], heartbeat)
  }

  // ------------------------------------------------------------------- invariant

  /** The channel that is open, if one is: there is never a second. */
  function OpenChannel(s: State): Option<nat> {
    match s.handler
    case Withdrawn(ch) => ch
    case _ => s.vars.reconnectedCh
  }

  /** The last channel made is the one that is open, if any is; all the others were closed, in order. */
  ghost predicate ChannelsOk(c: Channels, open: Option<nat>) {
    && c.open == (if open.Some? then {open.value} else {})
    && c.made == |c.closings| + (if open.Some? then 1 else 0)
    && (open.Some? ==> open.value == |c.closings|)
    && forall i :: 0 <= i < |c.closings| ==> c.closings[i] == i
  }

  /** The flag and the published channel at each point of the handler. */
  predicate FlagOk(s: State) {
    match s.handler
    case FlagCleared => !s.vars.timeoutFlag && s.vars.reconnectedCh.Some?
    case Withdrawn(ch) => !s.vars.timeoutFlag && s.vars.reconnectedCh.None? && ch.Some?
    case Released => !s.vars.timeoutFlag && s.vars.reconnectedCh.None?
    case Published(replaced) => !s.vars.timeoutFlag && s.vars.reconnectedCh.Some? && replaced.None?
    case FlagRaised => s.vars.timeoutFlag && s.vars.reconnectedCh.Some?
    case _ => s.vars.timeoutFlag <==> s.vars.reconnectedCh.Some?
  }

  /** The last notification tells which is due next. */
  predicate DueTimeout(s: State) {
    match s.handler
    case FlagCleared => false
    case Withdrawn(_) => false
    case Released => false
    case Published(_) => true
    case FlagRaised => true
    case _ => !s.vars.timeoutFlag
  }

  ghost predicate Alternate(notes: seq<Note>) {
    forall i :: 0 <= i < |notes| ==> (notes[i] == TimedOut <==> i % 2 == 0)
  }

  ghost predicate WaitersOk(s: State) {
    forall w :: w in s.waiters ==>
      && (s.waiters[w].Blocked? ==> s.waiters[w].on < s.chans.made)
      && (s.waiters[w].Rechecking? && s.waiters[w].held.Some? ==> s.waiters[w].held.value < s.chans.made)
  }

  ghost predicate Inv(s: State) {
    && ChannelsOk(s.chans, OpenChannel(s))
    && FlagOk(s)
    && Alternate(s.notes)
    && (DueTimeout(s) <==> |s.notes| % 2 == 0)
    && WaitersOk(s)
  }

  lemma EventKeeps(s: State, a: Action, heartbeat: int)
    requires Inv(s) && CanHappen(s, a) && (a.UpdateNow? || a.UpdateTime? || a.TimeoutEvent? || a.Stop?)
    ensures Inv(Next(s, a, heartbeat))
  {
  }

  lemma ContinueKeeps(s: State)
    requires Inv(s) && CanHappen(s, Continue)
    ensures Inv(HandlerStep(s))
  {
  }

  lemma WaitersKeep(s: State, a: Action, heartbeat: int)
    requires Inv(s) && CanHappen(s, a) && (a.Begin? || a.Run? || a.GiveUp?)
    ensures Inv(Next(s, a, heartbeat))
  {
  }

  lemma StepKeeps(s: State, a: Action, heartbeat: int)
    requires Inv(s) && CanHappen(s, a)
    ensures Inv(Next(s, a, heartbeat))
  {
    match a
    case Continue => ContinueKeeps(s);
    case Begin(_) => WaitersKeep(s, a, heartbeat);
    case Run(_) => WaitersKeep(s, a, heartbeat);
    case GiveUp(_) => WaitersKeep(s, a, heartbeat);
    case _ => EventKeeps(s, a, heartbeat);
  }

  lemma {:induction false} RunsKeepInv(states: seq<State>, actions: seq<Action>, k: nat, heartbeat: int, begin: int)
    requires IsRun(states, actions, heartbeat, begin) && k < |states|
    ensures Inv(states[k])
  {
    if k > 0 {
      RunsKeepInv(states, actions, k - 1, heartbeat, begin);
      assert Steps(states[k - 1], actions[k - 1], states[k - 1 + 1], heartbeat);
      StepKeeps(states[k - 1], actions[k - 1], heartbeat);
    }
  }

  // -------------------------------------------------------------------- theorems

  /** The last sign of life: the time of an update to now, or of an update to a later time than known. */
  function LastSign(actions: seq<Action>, begin: int): int {
    if actions == [] then begin
    else
      var before := LastSign(actions[..|actions| - 1], begin);
      match actions[|actions| - 1]
      case UpdateNow(now) => now
      case UpdateTime(msec, _) => if msec > before then msec else before
      case _ => before
  }

  /** Action `i` is a timeout event that comes more than a heartbeat after the last sign of life. */
  predicate Overdue(actions: seq<Action>, i: nat, heartbeat: int, begin: int)
    requires i < |actions|
  {
    actions[i].TimeoutEvent? && LastSign(actions[..i], begin) + heartbeat < actions[i].now
  }

  /** Action `i` is a sign of life that is new and not yet a heartbeat old. */
  predicate Alive(actions: seq<Action>, i: nat, heartbeat: int, begin: int)
    requires i < |actions|
  {
    match actions[i]
    case UpdateNow(_) => true
    case UpdateTime(msec, now) => LastSign(actions[..i], begin) < msec && now < msec + heartbeat
    case _ => false
  }

  /** A timeout is on: some timeout event was overdue, and no sign of life has come since. */
  ghost predicate IsOut(actions: seq<Action>, k: nat, heartbeat: int, begin: int)
    requires k <= |actions|
  {
    exists i :: 0 <= i < k && Overdue(actions, i, heartbeat, begin)
                && forall j :: i < j < k ==> !Alive(actions, j, heartbeat, begin)
  }

  /** The beginnings and ends of timeouts up to action `k`, in order. */
  ghost function Told(actions: seq<Action>, k: nat, heartbeat: int, begin: int): seq<Note>
    requires k <= |actions|
  {
    if k == 0 then []
    else
      var was, now := IsOut(actions, k - 1, heartbeat, begin), IsOut(actions, k, heartbeat, begin);
      Told(actions, k - 1, heartbeat, begin)
      + if now && !was then [TimedOut] else if was && !now then [Reconnected] else []
  }

  lemma OutNext(actions: seq<Action>, k: nat, heartbeat: int, begin: int)
    requires k < |actions|
    ensures IsOut(actions, k + 1, heartbeat, begin) <==>
      || Overdue(actions, k, heartbeat, begin)
      || (IsOut(actions, k, heartbeat, begin) && !Alive(actions, k, heartbeat, begin))
  {
    if IsOut(actions, k, heartbeat, begin) && !Alive(actions, k, heartbeat, begin) {
      var i :| 0 <= i < k && Overdue(actions, i, heartbeat, begin)
               && forall j :: i < j < k ==> !Alive(actions, j, heartbeat, begin);
      assert forall j :: i < j < k + 1 ==> !Alive(actions, j, heartbeat, begin);
    }
  }

  lemma SignNext(actions: seq<Action>, k: nat, begin: int)
    requires k < |actions|
    ensures
      var before, after := LastSign(actions[..k], begin), LastSign(actions[..k + 1], begin);
      match actions[k]
      case UpdateNow(now) => after == now
      case UpdateTime(msec, _) => after == if msec > before then msec else before
      case _ => after == before
  {
    assert actions[..k + 1][..k] == actions[..k];
  }

  /** The flag as the event in hand will leave it. */
  predicate Due(s: State) {
    s.vars.timeoutFlag || s.handler.Published?
  }

  /** The notification the event in hand will give. */
  function Pending(h: Handler): seq<Note> {
    match h
    case FlagCleared => [Reconnected]
    case Withdrawn(_) => [Reconnected]
    case Released => [Reconnected]
    case Published(_) => [TimedOut]
    case FlagRaised => [TimedOut]
    case _ => []
  }

  /** The flag, the last sign of life and the notifications are those the actions so far call for. */
  ghost predicate Tracks(s: State, actions: seq<Action>, k: nat, heartbeat: int, begin: int)
    requires k <= |actions|
  {
    && s.vars.lastAlive == LastSign(actions[..k], begin)
    && (Due(s) <==> IsOut(actions, k, heartbeat, begin))
    && s.notes + Pending(s.handler) == Told(actions, k, heartbeat, begin)
  }

  lemma StepTracks(s: State, actions: seq<Action>, k: nat, heartbeat: int, begin: int)
    requires k < |actions| && CanHappen(s, actions[k]) && FlagOk(s) && Tracks(s, actions, k, heartbeat, begin)
    ensures Tracks(Next(s, actions[k], heartbeat), actions, k + 1, heartbeat, begin)
  {
    SignNext(actions, k, begin);
    OutNext(actions, k, heartbeat, begin);
    hide IsOut, LastSign;
  }

  lemma {:induction false} RunsTrack(states: seq<State>, actions: seq<Action>, k: nat, heartbeat: int, begin: int)
    requires IsRun(states, actions, heartbeat, begin) && k < |states|
    ensures Tracks(states[k], actions, k, heartbeat, begin)
  {
    if k > 0 {
      RunsTrack(states, actions, k - 1, heartbeat, begin);
      RunsKeepInv(states, actions, k - 1, heartbeat, begin);
      assert Steps(states[k - 1], actions[k - 1], states[k - 1 + 1], heartbeat);
      StepTracks(states[k - 1], actions, k - 1, heartbeat, begin);
    }
  }

  /**
   Between events the flag is set exactly when some timeout event was overdue and no sign of
   life has come since, and the notifications given are exactly the beginnings and ends of
   the timeouts so far.
   */
  lemma FlagFollowsEvents(states: seq<State>, actions: seq<Action>, k: nat, heartbeat: int, begin: int)
    requires IsRun(states, actions, heartbeat, begin) && k < |states|
    ensures states[k].vars.lastAlive == LastSign(actions[..k], begin)
    ensures states[k].handler.Idle? ==>
      && (states[k].vars.timeoutFlag <==> IsOut(actions, k, heartbeat, begin))
      && states[k].notes == Told(actions, k, heartbeat, begin)
  {
    RunsTrack(states, actions, k, heartbeat, begin);
  }

  /** A channel is published exactly by an overdue timeout event that finds the flag clear. */
  lemma PublishesWhenOverdue(states: seq<State>, actions: seq<Action>, k: nat, heartbeat: int, begin: int)
    requires IsRun(states, actions, heartbeat, begin) && k < |actions|
    ensures states[k + 1].chans.made > states[k].chans.made <==>
      Overdue(actions, k, heartbeat, begin) && !states[k].vars.timeoutFlag
    ensures states[k].vars.timeoutFlag && !states[k + 1].vars.timeoutFlag <==>
      Alive(actions, k, heartbeat, begin) && states[k].vars.timeoutFlag
  {
    hide IsOut, Told;
    RunsTrack(states, actions, k, heartbeat, begin);
    assert Steps(states[k], actions[k], states[k + 1], heartbeat);
  }

  /** How many steps the handler has left in the event in hand. */
  function StepsLeft(h: Handler): nat {
    match h
    case FlagCleared => 3
    case Withdrawn(_) => 2
    case Released => 1
    case Published(_) => 2
    case FlagRaised => 1
    case _ => 0
  }

  /** An event is over after at most three steps of the handler, whatever the waiters do in between. */
  lemma HandlerComesBack(s: State, a: Action, heartbeat: int)
    requires CanHappen(s, a)
    ensures StepsLeft(s.handler) > 0 ==>
      && CanHappen(s, Continue)
      && StepsLeft(Next(s, a, heartbeat).handler) == StepsLeft(s.handler) - (if a.Continue? then 1 else 0)
    ensures StepsLeft(s.handler) <= 3 && (StepsLeft(s.handler) == 0 <==> s.handler.Idle? || s.handler.Stopped?)
  {
  }

  /** A waiter comes back content exactly when it looks at the flag and finds it clear. */
  lemma ReturnsWhenClear(states: seq<State>, actions: seq<Action>, k: nat, heartbeat: int, begin: int, w: nat)
    requires IsRun(states, actions, heartbeat, begin) && k < |actions| && w in states[k].waiters
    requires !states[k].waiters[w].Returned?
    ensures states[k + 1].waiters[w] == Returned(true) <==>
      actions[k] == Run(w) && (states[k].waiters[w].Top? || states[k].waiters[w].Rechecking?)
      && !states[k].vars.timeoutFlag
  {
    assert Steps(states[k], actions[k], states[k + 1], heartbeat);
  }

  function WaitLeft(w: Waiter): nat {
    match w
    case Loading => 3
    case Sleeping => 2
    case Rechecking(_) => 1
    case Blocked(_) => 2
    case Top => 1
    case Returned(_) => 0
  }

  /** While no timeout is on, every waiter is back after at most three steps of its own. */
  lemma WaiterComesBack(states: seq<State>, actions: seq<Action>, k: nat, heartbeat: int, begin: int, w: nat)
    requires IsRun(states, actions, heartbeat, begin) && k < |states| && w in states[k].waiters
    requires states[k].handler.Idle? && !states[k].vars.timeoutFlag && !states[k].waiters[w].Returned?
    ensures CanHappen(states[k], Run(w))
    ensures WaitLeft(Next(states[k], Run(w), heartbeat).waiters[w]) < WaitLeft(states[k].waiters[w]) <= 3
  {
    RunsKeepInv(states, actions, k, heartbeat, begin);
  }

  /** Steps to blocking on the published channel. */
  function BlockLeft(w: Waiter, published: Option<nat>): nat {
    match w
    case Loading => 1
    case Sleeping => 2
    case Rechecking(held) => if held == published then 1 else if held.None? then 3 else 4
    case Blocked(on) => if Some(on) == published then 0 else 3
    case Top => 2
    case Returned(_) => 0
  }

  /** While a timeout is on, every waiter blocks on the published channel after at most four steps of its own. */
  lemma WaiterBlocks(states: seq<State>, actions: seq<Action>, k: nat, heartbeat: int, begin: int, w: nat)
    requires IsRun(states, actions, heartbeat, begin) && k < |states| && w in states[k].waiters
    requires states[k].handler.Idle? && states[k].vars.timeoutFlag && !states[k].waiters[w].Returned?
    requires states[k].waiters[w] != Blocked(OpenNumber(states[k]))
    ensures
      var s := states[k];
      CanHappen(s, Run(w))
      && BlockLeft(Next(s, Run(w), heartbeat).waiters[w], s.vars.reconnectedCh)
         < BlockLeft(s.waiters[w], s.vars.reconnectedCh) <= 4
  {
    RunsKeepInv(states, actions, k, heartbeat, begin);
  }

  /** The published channel, if there is one. */
  function OpenNumber(s: State): nat {
    if s.vars.reconnectedCh.Some? then s.vars.reconnectedCh.value else 0
  }

  /** Between events the flag is set exactly when an open channel is published. */
  lemma FlagMeansOpenChannel(states: seq<State>, actions: seq<Action>, k: nat, heartbeat: int, begin: int)
    requires IsRun(states, actions, heartbeat, begin) && k < |states| && states[k].handler.Idle?
    ensures
      var s := states[k];
      s.vars.timeoutFlag <==> s.vars.reconnectedCh.Some? && s.vars.reconnectedCh.value in s.chans.open
  {
    RunsKeepInv(states, actions, k, heartbeat, begin);
  }

  /** Every channel made is open or was closed, once and in order; between events an open one is published. */
  lemma ClosedOnce(states: seq<State>, actions: seq<Action>, k: nat, heartbeat: int, begin: int, ch: nat)
    requires IsRun(states, actions, heartbeat, begin) && k < |states| && ch < states[k].chans.made
    ensures
      var s := states[k];
      && (ch in s.chans.open <==> ch !in s.chans.closings)
      && (forall i, j :: 0 <= i < j < |s.chans.closings| ==> s.chans.closings[i] != s.chans.closings[j])
      && (ch in s.chans.open && s.handler.Idle? ==> s.vars.reconnectedCh == Some(ch))
  {
    RunsKeepInv(states, actions, k, heartbeat, begin);
    var c := states[k].chans;
    if ch < |c.closings| {
      assert c.closings[ch] == ch;
    }
  }

  /** Only the reconnect that ends its timeout closes a channel, and it is the published one it withdrew. */
  lemma ReconnectCloses(states: seq<State>, actions: seq<Action>, k: nat, heartbeat: int, begin: int)
    requires IsRun(states, actions, heartbeat, begin) && k < |actions|
    ensures
      var c, c' := states[k].chans, states[k + 1].chans;
      c'.closings == c.closings
      || (actions[k].Continue? && states[k].handler.Withdrawn? && states[k].handler.ch.Some?
          && states[k].handler.ch.value in c.open
          && c'.closings == c.closings + [states[k].handler.ch.value])
  {
    RunsKeepInv(states, actions, k, heartbeat, begin);
    assert Steps(states[k], actions[k], states[k + 1], heartbeat);
  }

  /** Timeout and reconnect notifications strictly alternate, a timeout first. */
  lemma NotesAlternate(states: seq<State>, actions: seq<Action>, k: nat, heartbeat: int, begin: int)
    requires IsRun(states, actions, heartbeat, begin) && k < |states|
    ensures forall i :: 0 <= i < |states[k].notes| ==> (states[k].notes[i] == TimedOut <==> i % 2 == 0)
  {
    RunsKeepInv(states, actions, k, heartbeat, begin);
  }

  /**
   Between events a blocked waiter's channel is closed, so that it can go on, or it is
   the published one of a timeout that still lasts.
   */
  lemma NoWaiterStranded(states: seq<State>, actions: seq<Action>, k: nat, heartbeat: int, begin: int, w: nat)
    requires IsRun(states, actions, heartbeat, begin) && k < |states|
    requires states[k].handler.Idle? && w in states[k].waiters && states[k].waiters[w].Blocked?
    ensures
      var s := states[k];
      CanHappen(s, Run(w)) || (s.vars.timeoutFlag && s.vars.reconnectedCh == Some(s.waiters[w].on))
  {
    RunsKeepInv(states, actions, k, heartbeat, begin);
  }
}
