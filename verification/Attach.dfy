/**
 Ownership of sessions by servers.

 Servers are numbered.  A stream or checker slot holds the number of the server whose
 stream or checker fills it, or nothing.  A closed session has left the session map; a
 session's stderr ends on its own, at once in a terminal session, which has none.
 */
module Attach {
  import opened Options

  /** A replaceable stream: whose stream is in place, and whether it is closed for good. */
  datatype Slot = Slot(stream: Option<nat>, closed: bool)

  datatype Session = Session(owner: Option<nat>, io: Slot, err: Slot, checker: Option<nat>, closed: bool)

  /** A replaceable stream ignores a swap once it is closed. */
  function Swap(slot: Slot, stream: Option<nat>): Slot {
    if slot.closed then slot else Slot(stream, false)
  }

  /** What a swap that is not refused puts in place. */
  predicate Filled(slot: Slot, stream: Option<nat>) {
    slot.stream == if slot.closed then None else stream
  }

  const CLOSED := Slot(None, true)

  /** A session just started by `server`, with or without a stderr of its own. */
  function StartedBy(server: nat, stderr: bool): Session {
    var filled := Slot(Some(server), false);
    Session(Some(server), filled, if stderr then filled else CLOSED, Some(server), false)
  }

  function ClosedSession(s: Session): Session {
    Session(s.owner, CLOSED, CLOSED, s.checker, true)
  }

  /** A session once its slots are emptied and its owner is gone. */
  function LetGo(s: Session): Session {
    Session(None, Swap(s.io, None), Swap(s.err, None), None, s.closed)
  }

  /** A session once `server` owns it and has filled its slots. */
  function Taken(s: Session, server: nat): Session {
    Session(Some(server), Swap(s.io, Some(server)), Swap(s.err, Some(server)), Some(server), s.closed)
  }

  /** Nobody owns it and its slots are empty, or its owner fills all that are not closed. */
  predicate Whole(s: Session, owner: Option<nat>) {
    s.owner == s.io.stream == s.checker == owner && !s.io.closed && Filled(s.err, owner)
  }

  predicate Settled(s: Session, owner: Option<nat>) {
    s.closed || Whole(s, None) || Whole(s, owner)
  }

  ghost predicate AllSettled(sessions: map<nat, Session>, active: Option<nat>) {
    forall x :: x in sessions ==> Settled(sessions[x], active)
  }

  predicate IsOpen(sessions: map<nat, Session>, x: nat) {
    x in sessions && !sessions[x].closed
  }

  /** The sessions after all those of `target` were detached. */
  function Detached(sessions: map<nat, Session>, target: Option<nat>): map<nat, Session> {
    map x | x in sessions ::
      if !sessions[x].closed && sessions[x].owner == target then LetGo(sessions[x]) else sessions[x]
  }

  /** What no change of owner touches: which sessions there are, which are closed, and which of their streams are. */
  predicate SameClosings(sessions: map<nat, Session>, sessions': map<nat, Session>) {
    && sessions'.Keys == sessions.Keys
    && forall x :: x in sessions ==>
         var s, s' := sessions[x], sessions'[x];
         s'.closed == s.closed && s'.io.closed == s.io.closed && s'.err.closed == s.err.closed
  }

  class Hub {
    var active: Option<nat>
    var sessions: map<nat, Session>

    ghost predicate Valid()
      reads this
    {
      AllSettled(sessions, active)
    }

    constructor ()
      ensures Valid() && active.None? && sessions == map[]
    {
      active, sessions := None, map[];
    }

    /** Empties a session's slots in the reverse order of attaching, then lets go of it. */
    method DetachOne(x: nat)
      requires x in sessions
      modifies `sessions
      ensures sessions == old(sessions)[x := LetGo(old(sessions)[x])]
    {
      var s := sessions[x].(checker := None);
      s := s.(err := Swap(s.err, None));
      s := s.(io := Swap(s.io, None));
      sessions := sessions[x := s.(owner := None)];
    }

    /** Takes the sessions of `target` apart one by one. */
    method DetachAll(target: Option<nat>)
      modifies `sessions
      ensures sessions == Detached(old(sessions), target)
    {
      var todo := set x | x in sessions && !sessions[x].closed;
      while todo != {}
        invariant todo <= sessions.Keys == old(sessions).Keys
        invariant forall x :: x in todo ==> sessions[x] == old(sessions)[x] && !sessions[x].closed
        invariant forall x :: x in sessions && x !in todo ==> sessions[x] == Detached(old(sessions), target)[x]
        decreases |todo|
      {
        var x :| x in todo;
        if sessions[x].owner == target {
          DetachOne(x);
        }
        todo := todo - {x};
      }
    }

    /** A server becomes the active one and takes the sessions from its predecessor. */
    method Activate(server: nat, busClosing: bool) returns (ok: bool)
      requires Valid()
      modifies this
      ensures Valid() && ok == !busClosing
      ensures ok ==> active == Some(server) && sessions == Detached(old(sessions), old(active))
      ensures !ok ==> active == old(active) && sessions == old(sessions)
      ensures ok ==> forall x :: IsOpen(sessions, x) ==> Whole(sessions[x], None)
      ensures SameClosings(old(sessions), sessions)
    {
      if busClosing {
        return false;
      }
      var oldServer := active;
      active := Some(server);
      DetachAll(oldServer);
      return true;
    }

    /** A client that leaves gracefully gives up its sessions, if its server is still the active one. */
    method HandleDetach(server: nat, kcp: bool)
      requires Valid()
      modifies `sessions
      ensures Valid()
      ensures kcp && active == Some(server) ==> sessions == Detached(old(sessions), Some(server))
      ensures !(kcp && active == Some(server)) ==> sessions == old(sessions)
      ensures kcp && active == Some(server) ==> forall x :: IsOpen(sessions, x) ==> Whole(sessions[x], None)
      ensures SameClosings(old(sessions), sessions)
    {
      if kcp && active == Some(server) {
        DetachAll(Some(server));
      }
    }

    /** The active server takes an unowned session; everything else is refused and changes nothing. */
    method AttachSession(server: nat, x: nat, acked: bool) returns (ok: bool)
      requires Valid()
      modifies `sessions
      ensures Valid()
      ensures ok <==> IsOpen(old(sessions), x) && active == Some(server) && old(sessions)[x].owner.None? && acked
      ensures ok ==> sessions == old(sessions)[x := Taken(old(sessions)[x], server)] && Whole(sessions[x], active)
      ensures !ok ==> sessions == old(sessions)
      ensures SameClosings(old(sessions), sessions)
      ensures forall y :: y in sessions && y != x ==> sessions[y] == old(sessions)[y]
    {
      if !IsOpen(sessions, x) {
        return false;
      }
      if active != Some(server) {
        return false;
      }
      if sessions[x].owner.Some? {
        return false;
      }
      if !acked {
        return false;
      }
      sessions := sessions[x := sessions[x].(owner := Some(server))];
      sessions := sessions[x := sessions[x].(io := Swap(sessions[x].io, Some(server)))];
      sessions := sessions[x := sessions[x].(err := Swap(sessions[x].err, Some(server)))];
      sessions := sessions[x := sessions[x].(checker := Some(server))];
      return true;
    }

    /** A session's stderr has ended. */
    method CloseStderr(x: nat)
      requires Valid() && x in sessions
      modifies `sessions
      ensures Valid() && sessions == old(sessions)[x := old(sessions)[x].(err := CLOSED)]
    {
      sessions := sessions[x := sessions[x].(err := CLOSED)];
    }

    /** The sessions told that the client of `server` is back: exactly the open ones it owns. */
    method OnReconnected(server: nat) returns (notified: set<nat>)
      ensures forall x :: x in notified <==> IsOpen(sessions, x) && sessions[x].owner == Some(server)
    {
      notified := {};
      var todo := set x | x in sessions && !sessions[x].closed;
      while todo != {}
        invariant forall x :: x in todo ==> IsOpen(sessions, x)
        invariant forall x :: x in notified <==> IsOpen(sessions, x) && x !in todo && sessions[x].owner == Some(server)
        decreases |todo|
      {
        var x :| x in todo;
        todo := todo - {x};
        if sessions[x].owner != Some(server) {
          continue;
        }
        notified := notified + {x};
      }
    }
  }
}
