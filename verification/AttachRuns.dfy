/**
 Runs of activation, attachment, detachment, start and close.

 The operations under the attach mutex are taken apart into their stores, so that
 sessions may be started and closed between any two of them.
 */
module AttachRuns {
  import opened Options
  import opened Attach

  /** How far an attachment has got: each stage is one more store. */
  datatype Stage = Admitted | OwnerStored | IoSwapped | ErrSwapped

  /** How far the detachment of one session has got. */
  datatype Undo = Untouched | CheckerGone | ErrGone | IoGone

  /** Who holds the attach mutex. */
  datatype Holder =
    | Free
    | Attaching(server: nat, session: nat, stage: Stage)
    | Listing(target: Option<nat>)
    | Detaching(target: Option<nat>, todo: seq<nat>, undo: Undo)

  datatype World = World(active: Option<nat>, sessions: map<nat, Session>, holder: Holder)

  datatype Action =
    | BeginActivate(server: nat)
    | BeginAttach(server: nat, session: nat, acked: bool)
    | BeginDetach(server: nat, kcp: bool)
    | List(order: seq<nat>)
    | Continue
    | Start(server: nat, session: nat, stderr: bool)
    | EndStderr(session: nat)
    | Close(session: nat)

  const INIT := World(None, map[], Free)

  ghost predicate CanHappen(w: World, a: Action) {
    match a
    case BeginActivate(_) => w.holder.Free?
    case BeginAttach(_, x, _) => w.holder.Free? && x in w.sessions
    case BeginDetach(_, _) => w.holder.Free?
    case List(order) => w.holder.Listing? && forall x :: x in order <==> IsOpen(w.sessions, x)
    case Continue =>
      || (w.holder.Attaching? && w.holder.session in w.sessions)
      || (w.holder.Detaching? && forall x :: x in w.holder.todo ==> x in w.sessions)
    case Start(_, x, _) => x !in w.sessions
    case EndStderr(x) => x in w.sessions
    case Close(x) => x in w.sessions
  }

  function Put(w: World, x: nat, s: Session): World {
    w.(sessions := w.sessions[x := s])
  }

  function AttachStep(w: World): World
    requires w.holder.Attaching? && w.holder.session in w.sessions
  {
    var server, x := w.holder.server, w.holder.session;
    var s := w.sessions[x];
    match w.holder.stage
    case Admitted => Put(w, x, s.(owner := Some(server))).(holder := Attaching(server, x, OwnerStored))
    case OwnerStored => Put(w, x, s.(io := Swap(s.io, Some(server)))).(holder := Attaching(server, x, IoSwapped))
    case IoSwapped => Put(w, x, s.(err := Swap(s.err, Some(server)))).(holder := Attaching(server, x, ErrSwapped))
    case ErrSwapped => Put(w, x, s.(checker := Some(server))).(holder := Free)
  }

  function DetachStep(w: World): World
    requires w.holder.Detaching? && forall x :: x in w.holder.todo ==> x in w.sessions
  {
    var target, todo := w.holder.target, w.holder.todo;
    if todo == [] then w.(holder := Free)
    else
      var x, rest := todo[0], todo[1..];
      var s := w.sessions[x];
      match w.holder.undo
      case Untouched =>
        if s.owner != target then w.(holder := Detaching(target, rest, Untouched))
        else Put(w, x, s.(checker := None)).(holder := Detaching(target, todo, CheckerGone))
      case CheckerGone => Put(w, x, s.(err := Swap(s.err, None))).(holder := Detaching(target, todo, ErrGone))
      case ErrGone => Put(w, x, s.(io := Swap(s.io, None))).(holder := Detaching(target, todo, IoGone))
      case IoGone => Put(w, x, s.(owner := None)).(holder := Detaching(target, rest, Untouched))
  }

  ghost function Next(w: World, a: Action): World
    requires CanHappen(w, a)
  {
    match a
    case BeginActivate(server) => World(Some(server), w.sessions, Listing(w.active))
    case BeginAttach(server, x, acked) =>
      if w.active != Some(server) || w.sessions[x].owner.Some? || !acked then w
      else w.(holder := Attaching(server, x, Admitted))
    case BeginDetach(server, kcp) =>
      if kcp && w.active == Some(server) then w.(holder := Listing(Some(server))) else w
    case List(order) => w.(holder := Detaching(w.holder.target, order, Untouched))
    case Continue => if w.holder.Attaching? then AttachStep(w) else DetachStep(w)
    case Start(server, x, stderr) => Put(w, x, StartedBy(server, stderr))
    case EndStderr(x) => Put(w, x, w.sessions[x].(err := CLOSED))
    case Close(x) => Put(w, x, ClosedSession(w.sessions[x]))
  }

  ghost predicate Steps(w: World, a: Action, w': World) {
    CanHappen(w, a) && w' == Next(w, a)
  }

  /**
   A session is started by the server that is active at that moment, or by the one being
   replaced while its sessions have not been listed yet.
   */
  predicate Timely(w: World, a: Action) {
    a.Start? ==> w.active == Some(a.server) || w.holder == Listing(Some(a.server))
  }

  ghost predicate IsRun(worlds: seq<World>, actions: seq<Action>) {
    && |worlds| == |actions| + 1
    && worlds[0] == INIT
    && forall k :: 0 <= k < |actions| ==> Steps(worlds[k], actions[k], worlds[k + 1])
  }

  ghost predicate AllTimely(worlds: seq<World>, actions: seq<Action>)
    requires |worlds| == |actions| + 1
  {
    forall k :: 0 <= k < |actions| ==> Timely(worlds[k], actions[k])
  }

  // ------------------------------------------------------------------- invariant

  /** An open session's owner, streams and checker, of which a closed stderr stream stays empty. */
  predicate Holds(s: Session, owner: Option<nat>, io: Option<nat>, err: Option<nat>, checker: Option<nat>) {
    s.owner == owner && s.io == Slot(io, false) && Filled(s.err, err) && s.checker == checker
  }

  /** The session under attachment, stage by stage. */
  predicate PartlyAttached(s: Session, server: nat, stage: Stage) {
    s.closed ||
    match stage
    case Admitted => Holds(s, None, None, None, None)
    case OwnerStored => Holds(s, Some(server), None, None, None)
    case IoSwapped => Holds(s, Some(server), Some(server), None, None)
    case ErrSwapped => Holds(s, Some(server), Some(server), Some(server), None)
  }

  /** The session under detachment, stage by stage. */
  predicate PartlyDetached(s: Session, target: Option<nat>, undo: Undo) {
    s.closed ||
    match undo
    case Untouched => false
    case CheckerGone => Holds(s, target, target, target, None)
    case ErrGone => Holds(s, target, target, None, None)
    case IoGone => Holds(s, target, None, None, None)
  }

  /** Settled with the active server, or still with the one being replaced. */
  predicate Pending(s: Session, active: Option<nat>, target: Option<nat>) {
    Settled(s, active) || Whole(s, target)
  }

  ghost predicate Inv(w: World) {
    match w.holder
    case Free => AllSettled(w.sessions, w.active)
    case Attaching(server, x, stage) =>
      && w.active == Some(server)
      && x in w.sessions && PartlyAttached(w.sessions[x], server, stage)
      && forall y :: y in w.sessions && y != x ==> Settled(w.sessions[y], w.active)
    case Listing(target) =>
      forall y :: y in w.sessions ==> Pending(w.sessions[y], w.active, target)
    case Detaching(target, todo, undo) =>
      && (forall y :: y in todo ==> y in w.sessions)
      && (undo != Untouched ==> todo != [] && PartlyDetached(w.sessions[todo[0]], target, undo))
      && (forall y :: y in w.sessions && !(undo != Untouched && y == todo[0]) ==>
            Pending(w.sessions[y], w.active, target) && (y !in todo ==> Settled(w.sessions[y], w.active)))
  }

  lemma BeginKeeps(w: World, a: Action)
    requires Inv(w) && CanHappen(w, a) && (a.BeginActivate? || a.BeginAttach? || a.BeginDetach? || a.List?)
    ensures Inv(Next(w, a))
  {
  }

  lemma AttachStepKeeps(w: World)
    requires Inv(w) && w.holder.Attaching?
    ensures Inv(AttachStep(w))
  {
  }

  lemma DetachStepKeeps(w: World)
    requires Inv(w) && w.holder.Detaching?
    ensures Inv(DetachStep(w))
  {
    if w.holder.todo != [] {
      assert forall y :: y in w.holder.todo ==> y == w.holder.todo[0] || y in w.holder.todo[1..];
    }
  }

  lemma StartKeeps(w: World, a: Action)
    requires Inv(w) && CanHappen(w, a) && a.Start? && Timely(w, a)
    ensures Inv(Next(w, a))
  {
  }

  lemma CloseKeeps(w: World, a: Action)
    requires Inv(w) && CanHappen(w, a) && (a.Close? || a.EndStderr?)
    ensures Inv(Next(w, a))
  {
  }

  lemma StepKeeps(w: World, a: Action)
    requires Inv(w) && CanHappen(w, a) && Timely(w, a)
    ensures Inv(Next(w, a))
  {
    match a
    case Continue =>
      if w.holder.Attaching? {
        AttachStepKeeps(w);
      } else {
        DetachStepKeeps(w);
      }
    case Start(_, _, _) => StartKeeps(w, a);
    case EndStderr(_) => CloseKeeps(w, a);
    case Close(_) => CloseKeeps(w, a);
    case _ => BeginKeeps(w, a);
  }

  lemma {:induction false} RunsKeepInv(worlds: seq<World>, actions: seq<Action>, k: nat)
    requires IsRun(worlds, actions) && k < |worlds| && AllTimely(worlds, actions)
    ensures Inv(worlds[k])
  {
    if k > 0 {
      RunsKeepInv(worlds, actions, k - 1);
      assert Steps(worlds[k - 1], actions[k - 1], worlds[k - 1 + 1]);
      assert Timely(worlds[k - 1], actions[k - 1]);
      StepKeeps(worlds[k - 1], actions[k - 1]);
    }
  }

  // -------------------------------------------------------------------- theorems

  /**
   Whenever the attach mutex is free, an open session is owned by nobody or by the active
   server, and has an owner exactly when its input and output stream and its checker are
   filled, and then by that owner; so is its stderr stream, unless stderr has ended.
   */
  lemma OwnedByActive(worlds: seq<World>, actions: seq<Action>, k: nat, x: nat)
    requires IsRun(worlds, actions) && k < |worlds| && AllTimely(worlds, actions)
    requires worlds[k].holder.Free? && IsOpen(worlds[k].sessions, x)
    ensures
      var s := worlds[k].sessions[x];
      && (s.owner.None? || s.owner == worlds[k].active)
      && s.io.stream == s.owner && s.checker == s.owner
      && s.err.stream == if s.err.closed then None else s.owner
  {
    RunsKeepInv(worlds, actions, k);
  }

  /** Some order in which the open sessions can be listed. */
  lemma {:induction false} SomeOrder(keys: set<nat>) returns (order: seq<nat>)
    ensures forall x :: x in order <==> x in keys
  {
    if keys == {} {
      order := [];
    } else {
      var x :| x in keys;
      order := SomeOrder(keys - {x});
      order := [x] + order;
    }
  }

  /** Whoever holds the attach mutex can go on until it is free again. */
  lemma HolderGoesOn(worlds: seq<World>, actions: seq<Action>, k: nat)
    requires IsRun(worlds, actions) && k < |worlds| && AllTimely(worlds, actions)
    ensures worlds[k].holder.Attaching? || worlds[k].holder.Detaching? ==> CanHappen(worlds[k], Continue)
    ensures worlds[k].holder.Listing? ==> exists order :: CanHappen(worlds[k], List(order))
  {
    RunsKeepInv(worlds, actions, k);
    var sessions := worlds[k].sessions;
    var order := SomeOrder(set x | x in sessions && !sessions[x].closed);
    assert worlds[k].holder.Listing? ==> CanHappen(worlds[k], List(order));
  }

  /** The holder of the mutex is about to take sessions from `target`, and has still to come to `x`. */
  predicate StillToCome(holder: Holder, x: nat, target: Option<nat>) {
    || holder == Listing(target)
    || (holder.Detaching? && holder.target == target && x in holder.todo)
  }

  /**
   Every open session is owned by nobody, by the active server, or by the server whose
   sessions are being taken, if the holder of the mutex has still to come to it; and with
   the mutex free its slots and its checker are its owner's.
   */
  ghost predicate Proper(w: World) {
    forall x :: IsOpen(w.sessions, x) ==>
      var s := w.sessions[x];
      && (s.owner.None? || s.owner == w.active || StillToCome(w.holder, x, s.owner))
      && (w.holder.Free? ==> s.io.stream == s.owner && s.checker == s.owner && Filled(s.err, s.owner))
  }

  lemma InvIsProper(w: World)
    requires Inv(w)
    ensures Proper(w)
  {
  }

  /**
   Whoever holds the mutex, a start keeps ownership proper exactly when the starting server
   is the active one, or is being replaced and has not had its sessions listed yet.
   */
  lemma StartKeepsIff(w: World, server: nat, x: nat, stderr: bool)
    requires Inv(w) && x !in w.sessions
    ensures
      var timely := w.active == Some(server) || w.holder == Listing(Some(server));
      (Proper(Next(w, Start(server, x, stderr))) <==> timely) && (Inv(Next(w, Start(server, x, stderr))) <==> timely)
  {
    var a := Start(server, x, stderr);
    if Timely(w, a) {
      StartKeeps(w, a);
      InvIsProper(Next(w, a));
    } else {
      var after := Next(w, a);
      assert IsOpen(after.sessions, x) && after.sessions[x] == StartedBy(server, stderr);
      assert !StillToCome(after.holder, x, Some(server));
      assert !Settled(after.sessions[x], after.active);
    }
  }

  ghost predicate AllProper(worlds: seq<World>, k: nat)
    requires k < |worlds|
  {
    forall i :: 0 <= i <= k ==> Proper(worlds[i])
  }

  ghost predicate TimelySoFar(worlds: seq<World>, actions: seq<Action>, k: nat)
    requires |worlds| == |actions| + 1 && k <= |actions|
  {
    forall i :: 0 <= i < k ==> Timely(worlds[i], actions[i])
  }

  /** Ownership is proper throughout a run exactly when every start in it is timely. */
  lemma {:induction false} KeptIffTimely(worlds: seq<World>, actions: seq<Action>, k: nat)
    requires IsRun(worlds, actions) && k < |worlds|
    ensures AllProper(worlds, k) <==> TimelySoFar(worlds, actions, k)
    ensures TimelySoFar(worlds, actions, k) ==> Inv(worlds[k])
  {
    if k == 0 {
      assert Proper(INIT);
    } else {
      KeptIffTimely(worlds, actions, k - 1);
      assert Steps(worlds[k - 1], actions[k - 1], worlds[k - 1 + 1]);
      assert AllProper(worlds, k) <==> AllProper(worlds, k - 1) && Proper(worlds[k]);
      assert TimelySoFar(worlds, actions, k) <==>
        TimelySoFar(worlds, actions, k - 1) && Timely(worlds[k - 1], actions[k - 1]);
      hide Proper, Inv, IsRun;
      if TimelySoFar(worlds, actions, k - 1) {
        StepProperIff(worlds[k - 1], actions[k - 1]);
      }
    }
  }

  lemma StepProperIff(w: World, a: Action)
    requires Inv(w) && CanHappen(w, a)
    ensures Proper(Next(w, a)) <==> Timely(w, a)
    ensures Timely(w, a) ==> Inv(Next(w, a))
  {
    hide Proper, Inv, Next;
    if Timely(w, a) {
      StepKeeps(w, a);
      InvIsProper(Next(w, a));
    } else {
      StartKeepsIff(w, a.server, a.session, a.stderr);
    }
  }

  /** What is closed stays closed: a session, its input and output stream, its stderr stream. */
  predicate StaysClosed(s: Session, s': Session) {
    (s.closed ==> s'.closed) && (s.io == CLOSED ==> s'.io == CLOSED) && (s.err == CLOSED ==> s'.err == CLOSED)
  }

  lemma {:induction false} ClosedForGood(worlds: seq<World>, actions: seq<Action>, i: nat, k: nat, x: nat)
    requires IsRun(worlds, actions) && i <= k < |worlds| && x in worlds[i].sessions
    ensures x in worlds[k].sessions && StaysClosed(worlds[i].sessions[x], worlds[k].sessions[x])
    decreases k
  {
    if i < k {
      ClosedForGood(worlds, actions, i, k - 1, x);
      assert Steps(worlds[k - 1], actions[k - 1], worlds[k - 1 + 1]);
    }
  }

  /** A session starts open, with all slots its starter's but a stderr it does not have; the others are left alone. */
  lemma StartFills(worlds: seq<World>, actions: seq<Action>, k: nat)
    requires IsRun(worlds, actions) && k < |actions| && actions[k].Start?
    ensures
      var a, before, after := actions[k], worlds[k].sessions, worlds[k + 1].sessions;
      && IsOpen(after, a.session) && Whole(after[a.session], Some(a.server))
      && (after[a.session].err.closed <==> !a.stderr)
      && a.session !in before && forall y :: y in before ==> y in after && after[y] == before[y]
  {
    assert Steps(worlds[k], actions[k], worlds[k + 1]);
  }

  /** Only a close closes a session, and nothing but that or the end of stderr closes a stream. */
  lemma ClosedOnlyBy(worlds: seq<World>, actions: seq<Action>, k: nat, x: nat)
    requires IsRun(worlds, actions) && k < |actions| && x in worlds[k].sessions
    ensures x in worlds[k + 1].sessions
    ensures
      var s, s' := worlds[k].sessions[x], worlds[k + 1].sessions[x];
      && (s'.closed <==> s.closed || actions[k] == Close(x))
      && (s'.io.closed <==> s.io.closed || actions[k] == Close(x))
      && (s'.err.closed <==> s.err.closed || actions[k] == Close(x) || actions[k] == EndStderr(x))
  {
    assert Steps(worlds[k], actions[k], worlds[k + 1]);
  }

  // -------------------------------------------- one operation, left undisturbed

  /** Stores the holder of the mutex has still to make at most. */
  function Rank(holder: Holder): nat {
    match holder
    case Attaching(_, _, stage) =>
      (match stage
       case Admitted => 4
       case OwnerStored => 3
       case IoSwapped => 2
       case ErrSwapped => 1)
    case Detaching(_, todo, undo) =>
      5 * |todo| + (match undo
                    case Untouched => 4
                    case CheckerGone => 3
                    case ErrGone => 2
                    case IoGone => 1)
    case _ => 0
  }

  lemma ContinueLowers(w: World)
    requires CanHappen(w, Continue) && (w.holder.Detaching? && w.holder.todo == [] ==> w.holder.undo == Untouched)
    ensures Rank(Next(w, Continue).holder) < Rank(w.holder)
    ensures Next(w, Continue).holder.Detaching? ==>
      Next(w, Continue).holder.todo == [] ==> Next(w, Continue).holder.undo == Untouched
  {
  }

  /** The holder of the mutex carries its operation through without anyone in between. */
  ghost function Through(w: World): World
    requires w.holder.Detaching? && w.holder.todo == [] ==> w.holder.undo == Untouched
    decreases Rank(w.holder)
  {
    if CanHappen(w, Continue) then
      ContinueLowers(w);
      Through(Next(w, Continue))
    else w
  }

  /** The steps of an attachment, undisturbed, do what attaching a session promises. */
  lemma UndisturbedAttach(w: World, server: nat, x: nat, acked: bool)
    requires Inv(w) && w.holder.Free? && IsOpen(w.sessions, x)
    ensures
      var ok := w.active == Some(server) && w.sessions[x].owner.None? && acked;
      Through(Next(w, BeginAttach(server, x, acked))) ==
      if ok then World(w.active, w.sessions[x := Taken(w.sessions[x], server)], Free) else w
  {
    var w1 := Next(w, BeginAttach(server, x, acked));
    if w1.holder.Attaching? {
      var w2 := Next(w1, Continue);
      var w3 := Next(w2, Continue);
      var w4 := Next(w3, Continue);
      var w5 := Next(w4, Continue);
      assert Through(w1) == Through(w2) == Through(w3) == Through(w4) == Through(w5) == w5;
      assert w5.sessions == w.sessions[x := Taken(w.sessions[x], server)];
    }
  }

  /** The sessions after those of `target` among the ones listed were detached. */
  function DetachedAmong(sessions: map<nat, Session>, target: Option<nat>, todo: seq<nat>): map<nat, Session> {
    map x | x in sessions :: if x in todo && sessions[x].owner == target then LetGo(sessions[x]) else sessions[x]
  }

  /** One session's detachment: four stores, or none if it is another's. */
  lemma OneDetached(w: World)
    requires w.holder.Detaching? && w.holder.undo == Untouched && w.holder.todo != []
    requires forall x :: x in w.holder.todo ==> x in w.sessions
    ensures
      var x, target := w.holder.todo[0], w.holder.target;
      var s := w.sessions[x];
      var after := w.sessions[x := if s.owner == target then LetGo(s) else s];
      Through(w) == Through(World(w.active, after, Detaching(target, w.holder.todo[1..], Untouched)))
  {
    var x, target := w.holder.todo[0], w.holder.target;
    if w.sessions[x].owner == target {
      var w1 := Next(w, Continue);
      var w2 := Next(w1, Continue);
      var w3 := Next(w2, Continue);
      var w4 := Next(w3, Continue);
      assert Through(w) == Through(w1) == Through(w2) == Through(w3) == Through(w4);
      assert w4.sessions == w.sessions[x := LetGo(w.sessions[x])];
    } else {
      assert w.sessions[x := w.sessions[x]] == w.sessions;
    }
  }

  lemma {:induction false} DetachesThrough(w: World)
    requires w.holder.Detaching? && w.holder.undo == Untouched
    requires forall x :: x in w.holder.todo ==> x in w.sessions
    ensures Through(w) == World(w.active, DetachedAmong(w.sessions, w.holder.target, w.holder.todo), Free)
    decreases |w.holder.todo|
  {
    var target, todo := w.holder.target, w.holder.todo;
    if todo == [] {
      var done := Next(w, Continue);
      assert Through(w) == Through(done) == done;
      assert DetachedAmong(w.sessions, target, todo) == w.sessions;
    } else {
      OneDetached(w);
      var x := todo[0];
      var s := w.sessions[x];
      var after := w.sessions[x := if s.owner == target then LetGo(s) else s];
      assert forall y :: y in todo <==> y == x || y in todo[1..];
      DetachesThrough(World(w.active, after, Detaching(target, todo[1..], Untouched)));
      assert DetachedAmong(after, target, todo[1..]) == DetachedAmong(w.sessions, target, todo);
    }
  }

  /** However the sessions are listed, a detachment left undisturbed takes exactly the open ones of its target. */
  lemma UndisturbedDetach(w: World, order: seq<nat>)
    requires CanHappen(w, List(order))
    ensures Through(Next(w, List(order))) == World(w.active, Detached(w.sessions, w.holder.target), Free)
  {
    DetachesThrough(Next(w, List(order)));
    assert DetachedAmong(w.sessions, w.holder.target, order) == Detached(w.sessions, w.holder.target);
  }

  /** Activation and a graceful leave, undisturbed, do what activating a server and handling its leave promise. */
  lemma UndisturbedTakeover(w: World, server: nat, kcp: bool, order: seq<nat>)
    requires w.holder.Free? && forall x :: x in order <==> IsOpen(w.sessions, x)
    ensures Through(Next(Next(w, BeginActivate(server)), List(order))) ==
      World(Some(server), Detached(w.sessions, w.active), Free)
    ensures
      var w1 := Next(w, BeginDetach(server, kcp));
      if kcp && w.active == Some(server) then
        Through(Next(w1, List(order))) == World(w.active, Detached(w.sessions, Some(server)), Free)
      else w1 == w
  {
    UndisturbedDetach(Next(w, BeginActivate(server)), order);
    if kcp && w.active == Some(server) {
      UndisturbedDetach(Next(w, BeginDetach(server, kcp)), order);
    }
  }

  lemma Extend(worlds: seq<World>, actions: seq<Action>, a: Action) returns (worlds': seq<World>, actions': seq<Action>)
    requires IsRun(worlds, actions) && CanHappen(worlds[|actions|], a)
    ensures IsRun(worlds', actions') && |worlds'| == |actions'| + 1
    ensures worlds'[|actions'|] == Next(worlds[|actions|], a)
  {
    worlds', actions' := worlds + [Next(worlds[|actions|], a)], actions + [a];
    forall k | 0 <= k < |actions'|
      ensures Steps(worlds'[k], actions'[k], worlds'[k + 1])
    {
      assert k < |actions| ==> Steps(worlds[k], actions[k], worlds[k + 1]);
    }
  }

  /** A server that is replaced between accepting a start and creating the session ends up owning it. */
  lemma LateStartUnsettles() returns (worlds: seq<World>, actions: seq<Action>)
    ensures IsRun(worlds, actions)
    ensures
      var w := worlds[|actions|];
      w.holder.Free? && IsOpen(w.sessions, 5) && w.sessions[5].owner == Some(1) && w.active == Some(2)
  {
    assert IsRun([INIT], []);
    worlds, actions := Extend([INIT], [], BeginActivate(1));
    worlds, actions := Extend(worlds, actions, List([]));
    worlds, actions := Extend(worlds, actions, Continue);
    worlds, actions := Extend(worlds, actions, BeginActivate(2));
    worlds, actions := Extend(worlds, actions, List([]));
    worlds, actions := Extend(worlds, actions, Start(1, 5, true));
    worlds, actions := Extend(worlds, actions, Continue);
  }
}
