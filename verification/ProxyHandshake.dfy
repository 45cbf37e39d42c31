/**
 The UDP handshake between clients and the endpoint.

 A client renews its transport path with a larger serial number from a new socket, and
 keeps sending authentication packets until it is acknowledged.  The network loses,
 duplicates and reorders: a packet once sent may arrive any number of times or never.
 `may` says which clients have sockets behind an address.
 */
module ProxyHandshake {
  import opened Options
  import opened RoamingProxy
  import opened RoamingRuns

  /** A client's side: its serial number, the socket in use, and whether it awaits an acknowledgement. */
  datatype Peer = Peer(serial: nat, addr: Option<Addr>, waiting: bool)

  datatype Sent = Sent(addr: Addr, auth: Auth)

  datatype Path = Path(client: nat, addr: Addr, serial: nat)

  datatype Net = Net(server: Server, peers: map<nat, Peer>, sent: set<Sent>, accepted: seq<Path>)

  datatype Event =
    | Serve(action: Action)
    | Renew(client: nat, addr: Addr)
    | SendAuth(client: nat)
    | AckArrives(client: nat, ack: Ack)
    | GiveUp(client: nat)

  const START := Net(INIT, map[], {}, [])

  function PeerOf(n: Net, x: nat): Peer {
    if x in n.peers then n.peers[x] else Peer(0, None, false)
  }

  /** Authentication packets reach the endpoint only as some client sent them. */
  ghost predicate Carried(sent: set<Sent>, a: Action) {
    match a
    case Start(addr, auth) => auth.Some? ==> Sent(addr, auth.value) in sent
    case Arrive(addr, packet) => packet.auth.Some? ==> Sent(addr, packet.auth.value) in sent
    case _ => true
  }

  ghost predicate Possible(n: Net, e: Event, may: (nat, Addr) -> bool) {
    match e
    case Serve(a) => CanHappen(n.server, a) && Carried(n.sent, a)
    case Renew(x, addr) => may(x, addr)
    case SendAuth(x) => PeerOf(n, x).addr.Some? && PeerOf(n, x).waiting
    case AckArrives(x, ack) => PeerOf(n, x).addr == Some(ack.addr) && PeerOf(n, x).waiting && ack in n.server.past.acks
    case GiveUp(x) => PeerOf(n, x).waiting
  }

  function Answered(n: Net, x: nat, ack: Ack): Net {
    var peer := PeerOf(n, x);
    if ack.serial > peer.serial then n.(peers := n.peers[x := peer.(serial := ack.serial)])
    else if ack.serial == peer.serial then
      n.(peers := n.peers[x := peer.(waiting := false)], accepted := n.accepted + [Path(x, ack.addr, peer.serial)])
    else n
  }

  ghost function After(n: Net, e: Event, may: (nat, Addr) -> bool): Net
    requires Possible(n, e, may)
  {
    match e
    case Serve(a) => n.(server := Next(n.server, a))
    case Renew(x, addr) => n.(peers := n.peers[x := Peer(PeerOf(n, x).serial + 1, Some(addr), true)])
    case SendAuth(x) => n.(sent := n.sent + {Sent(PeerOf(n, x).addr.value, Auth(x, PeerOf(n, x).serial))})
    case AckArrives(x, ack) => Answered(n, x, ack)
    case GiveUp(x) => n.(peers := n.peers[x := Peer(PeerOf(n, x).serial, None, false)])
  }

  ghost predicate Happens(n: Net, e: Event, n': Net, may: (nat, Addr) -> bool) {
    Possible(n, e, may) && n' == After(n, e, may)
  }

  ghost predicate IsTrace(nets: seq<Net>, events: seq<Event>, may: (nat, Addr) -> bool) {
    && |nets| == |events| + 1
    && nets[0] == START
    && forall k :: 0 <= k < |events| ==> Happens(nets[k], events[k], nets[k + 1], may)
  }

  /** No two clients have sockets behind one address. */
  ghost predicate Exclusive(may: (nat, Addr) -> bool) {
    forall x, y, addr :: may(x, addr) && may(y, addr) ==> x == y
  }

  // ------------------------------------------------------------------- invariant

  /** The endpoint recorded this serial number for the client. */
  ghost predicate WasRecorded(log: seq<Entry>, x: nat, serial: nat) {
    exists i :: 0 <= i < |log| && log[i].client == x && log[i].serial == serial
  }

  /** The endpoint authenticated this address for the client. */
  ghost predicate WasGranted(log: seq<Entry>, x: nat, addr: Addr) {
    exists i :: 0 <= i < |log| && log[i].client == x && log[i].addr == addr && log[i].grant
  }

  ghost predicate AuthedGranted(s: Server, may: (nat, Addr) -> bool) {
    forall x :: x in s.table.authed.ptrs ==>
      may(x, s.table.authed.ptrs[x].addr) && WasGranted(s.past.log, x, s.table.authed.ptrs[x].addr)
  }

  ghost predicate AckSound(log: seq<Entry>, k: Ack, may: (nat, Addr) -> bool) {
    may(k.client, k.addr) && WasRecorded(log, k.client, k.serial) && WasGranted(log, k.client, k.addr)
  }

  ghost predicate AcksSound(s: Server, may: (nat, Addr) -> bool) {
    forall k :: k in s.past.acks ==> AckSound(s.past.log, k, may)
  }

  ghost predicate PathSound(log: seq<Entry>, p: Path) {
    WasRecorded(log, p.client, p.serial) && WasGranted(log, p.client, p.addr)
  }

  /** What the reader is about to store and to acknowledge. */
  ghost predicate ReaderSound(s: Server, may: (nat, Addr) -> bool) {
    match s.reader
    case Binding(addr, auth) => may(auth.id, addr)
    case Comparing(addr, auth) => may(auth.id, addr)
    case Granting(addr, x, serial) => AckSound(s.past.log, Ack(addr, x, serial), may)
    case _ => true
  }

  ghost predicate Sound(n: Net, may: (nat, Addr) -> bool) {
    && AuthedGranted(n.server, may)
    && AcksSound(n.server, may)
    && ReaderSound(n.server, may)
    && (forall m :: m in n.sent ==> may(m.auth.id, m.addr))
    && (forall x :: x in n.peers && n.peers[x].addr.Some? ==> may(x, n.peers[x].addr.value))
    && (forall i :: 0 <= i < |n.accepted| ==> PathSound(n.server.past.log, n.accepted[i]))
  }

  lemma LogKept(log: seq<Entry>, log': seq<Entry>, x: nat, serial: nat, addr: Addr)
    requires log <= log'
    ensures WasRecorded(log, x, serial) ==> WasRecorded(log', x, serial)
    ensures WasGranted(log, x, addr) ==> WasGranted(log', x, addr)
  {
    if WasRecorded(log, x, serial) {
      var i :| 0 <= i < |log| && log[i].client == x && log[i].serial == serial;
      assert log'[i] == log[i];
    }
    if WasGranted(log, x, addr) {
      var i :| 0 <= i < |log| && log[i].client == x && log[i].addr == addr && log[i].grant;
      assert log'[i] == log[i];
    }
  }

  /** A field of another client is untouched, and one's own is the old reference or the new one. */
  lemma SetPtrs(col: Column, x: nat, bound: bool, prev: Option<Ptr>, next: Option<Ptr>, y: nat)
    requires y in Set(col, x, bound, prev, next).ptrs
    ensures
      var ptr := Set(col, x, bound, prev, next).ptrs[y];
      (y in col.ptrs && ptr == col.ptrs[y]) || (y == x && next == Some(ptr))
  {
  }

  /** An authenticated address after a step was one before, or the reader was about to store it, or it is the first. */
  lemma StepAuthed(s: Server, a: Action, y: nat)
    requires CanHappen(s, a) && y in Next(s, a).table.authed.ptrs
    ensures
      var s' := Next(s, a);
      var ptr := s'.table.authed.ptrs[y];
      || (y in s.table.authed.ptrs && ptr == s.table.authed.ptrs[y])
      || (a.Continue? && s.reader.Granting? && s.reader.client == y && s.reader.addr == ptr.addr)
      || (&& a.Start? && a.auth.Some? && a.auth.value.id == y && a.from == ptr.addr
          && |s'.past.log| > |s.past.log|
          && (var e := s'.past.log[|s.past.log|]; e.grant && e.client == y && e.addr == ptr.addr))
  {
    var t := s.table;
    match a
    case Start(addr, auth) =>
      if auth.Some? {
        SetAuthedPtrs(t, addr, auth.value, s.refs, y);
      }
    case Arrive(_, _) => ArriveKeepsAuthed(s, a.addr, a.packet);
    case Continue => ContinueAuthed(s, y);
    case ClearClient(_, _) =>
    case ClearAuthed(x, prev) => SetPtrs(t.authed, x, Bound(t, x), prev, None, y);
    case Close(x) =>
      if !t.clients[x].closed {
        SetPtrs(t.authed, x, Bound(SetClient(t, x, None, None), x), None, None, y);
      }
  }

  lemma ArriveKeepsAuthed(s: Server, addr: Addr, packet: Packet)
    ensures Arrived(s, addr, packet).table.authed == s.table.authed
  {
  }

  lemma ContinueAuthed(s: Server, y: nat)
    requires CanHappen(s, Continue) && y in Continued(s).table.authed.ptrs
    ensures
      var ptr := Continued(s).table.authed.ptrs[y];
      || (y in s.table.authed.ptrs && ptr == s.table.authed.ptrs[y])
      || (s.reader.Granting? && s.reader.client == y && s.reader.addr == ptr.addr)
  {
    var t := s.table;
    match s.reader
    case Granting(addr, x, _) => SetPtrs(t.authed, x, Bound(t, x), None, Some(Ptr(s.refs, addr)), y);
    case Refusing(x) => SetPtrs(t.authed, x, Bound(t, x), None, None, y);
    case Promoting(x) => SetPtrs(t.authed, x, Bound(t, x), None, None, y);
    case _ =>
  }

  lemma SetAuthedPtrs(t: Table, addr: Addr, auth: Auth, id: nat, y: nat)
    requires y in Authenticated(t, addr, auth, id).0.authed.ptrs
    ensures
      var (after, ack) := Authenticated(t, addr, auth, id);
      var ptr := after.authed.ptrs[y];
      (y in t.authed.ptrs && ptr == t.authed.ptrs[y]) || (y == auth.id && ptr.addr == addr && ack.Some?)
  {
  }

  /** A new acknowledgement was due, or a repeated authentication packet from its address has just been logged. */
  lemma StepAcks(s: Server, a: Action, k: Ack)
    requires CanHappen(s, a) && k in Next(s, a).past.acks && k !in s.past.acks
    ensures
      var s' := Next(s, a);
      || (a.Continue? && s.reader == Granting(k.addr, k.client, k.serial))
      || (&& a.Arrive? && a.packet.auth.Some? && k.addr == a.addr && a.packet.auth.value.id == k.client
          && Holds(s.table.authed, k.client, k.addr)
          && |s'.past.log| == |s.past.log| + 1
          && (var e := s'.past.log[|s.past.log|]; e.client == k.client && e.serial == k.serial))
  {
    hide Set;
  }

  /** What the reader is about to store was carried, or is logged. */
  lemma StepReader(s: Server, a: Action)
    requires CanHappen(s, a)
    ensures
      var s' := Next(s, a);
      match s'.reader
      case Binding(addr, auth) => s'.reader == s.reader || (a.Arrive? && a.addr == addr && a.packet.auth == Some(auth))
      case Comparing(addr, auth) => s'.reader == s.reader || s.reader == Binding(addr, auth)
      case Granting(addr, x, serial) =>
        || s'.reader == s.reader
        || (s.reader == Comparing(addr, Auth(x, serial)) && s'.past.log == s.past.log + [Entry(x, serial, addr, true)])
      case _ => true
  {
    hide Set;
  }

  lemma StepLog(s: Server, a: Action)
    requires CanHappen(s, a)
    ensures s.past.log <= Next(s, a).past.log
  {
    hide Set;
  }

  lemma ServeAuthed(n: Net, a: Action, may: (nat, Addr) -> bool)
    requires Sound(n, may) && CanHappen(n.server, a) && Carried(n.sent, a)
    ensures AuthedGranted(Next(n.server, a), may)
  {
    hide Next;
    var s, s' := n.server, Next(n.server, a);
    StepLog(s, a);
    forall x | x in s'.table.authed.ptrs
      ensures may(x, s'.table.authed.ptrs[x].addr) && WasGranted(s'.past.log, x, s'.table.authed.ptrs[x].addr)
    {
      StepAuthed(s, a, x);
      LogKept(s.past.log, s'.past.log, x, 0, s'.table.authed.ptrs[x].addr);
    }
  }

  lemma ServeAcks(n: Net, a: Action, may: (nat, Addr) -> bool)
    requires Sound(n, may) && CanHappen(n.server, a) && Carried(n.sent, a)
    ensures AcksSound(Next(n.server, a), may)
  {
    hide Next;
    var s, s' := n.server, Next(n.server, a);
    StepLog(s, a);
    forall k | k in s'.past.acks
      ensures AckSound(s'.past.log, k, may)
    {
      LogKept(s.past.log, s'.past.log, k.client, k.serial, k.addr);
      if k !in s.past.acks {
        StepAcks(s, a, k);
      }
    }
  }

  lemma ServeReader(n: Net, a: Action, may: (nat, Addr) -> bool)
    requires Sound(n, may) && CanHappen(n.server, a) && Carried(n.sent, a)
    ensures ReaderSound(Next(n.server, a), may)
  {
    hide Next;
    var s, s' := n.server, Next(n.server, a);
    StepLog(s, a);
    StepReader(s, a);
    if s'.reader.Granting? {
      LogKept(s.past.log, s'.past.log, s'.reader.client, s'.reader.serial, s'.reader.addr);
      if s'.reader != s.reader {
        var e := s'.past.log[|s.past.log|];
        assert e.client == s'.reader.client && e.serial == s'.reader.serial && e.addr == s'.reader.addr && e.grant;
      }
    }
  }

  lemma ServeKeeps(n: Net, a: Action, may: (nat, Addr) -> bool)
    requires Sound(n, may) && CanHappen(n.server, a) && Carried(n.sent, a)
    ensures Sound(n.(server := Next(n.server, a)), may)
  {
    hide Next, AuthedGranted, AcksSound, ReaderSound;
    ServeReader(n, a, may);
    ServeAuthed(n, a, may);
    ServeAcks(n, a, may);
    StepLog(n.server, a);
    var log' := Next(n.server, a).past.log;
    forall i | 0 <= i < |n.accepted|
      ensures PathSound(log', n.accepted[i])
    {
      LogKept(n.server.past.log, log', n.accepted[i].client, n.accepted[i].serial, n.accepted[i].addr);
    }
  }

  lemma EventKeeps(n: Net, e: Event, may: (nat, Addr) -> bool)
    requires Exclusive(may) && Sound(n, may) && Possible(n, e, may)
    ensures Sound(After(n, e, may), may)
  {
    if e.Serve? {
      ServeKeeps(n, e.action, may);
    } else {
      hide AuthedGranted;
      if e.AckArrives? {
        assert AckSound(n.server.past.log, e.ack, may);
      }
    }
  }

  lemma {:induction false} TracesSound(nets: seq<Net>, events: seq<Event>, k: nat, may: (nat, Addr) -> bool)
    requires Exclusive(may) && IsTrace(nets, events, may) && k < |nets|
    ensures Sound(nets[k], may)
  {
    if k > 0 {
      TracesSound(nets, events, k - 1, may);
      assert Happens(nets[k - 1], events[k - 1], nets[k - 1 + 1], may);
      EventKeeps(nets[k - 1], events[k - 1], may);
    }
  }

  // -------------------------------------------------------------------- theorems

  /**
   A path the client accepted has a serial number the endpoint recorded for that very
   client, which its record has not fallen below, and an address the endpoint
   authenticated for it.
   */
  lemma AcceptedWasRecorded(nets: seq<Net>, events: seq<Event>, k: nat, i: nat, may: (nat, Addr) -> bool)
    requires Exclusive(may) && IsTrace(nets, events, may) && k < |nets| && i < |nets[k].accepted|
    ensures
      var p := nets[k].accepted[i];
      var s := nets[k].server;
      && WasRecorded(s.past.log, p.client, p.serial)
      && WasGranted(s.past.log, p.client, p.addr)
      && p.serial <= Known(s.table, p.client).serial
  {
    TracesSound(nets, events, k, may);
    TraceBelow(nets, events, k, may);
    var p := nets[k].accepted[i];
    var log := nets[k].server.past.log;
    assert PathSound(log, p);
    var j :| 0 <= j < |log| && log[j].client == p.client && log[j].serial == p.serial;
    assert Below(log[j], nets[k].server.table);
  }

  lemma {:induction false} TraceBelow(nets: seq<Net>, events: seq<Event>, k: nat, may: (nat, Addr) -> bool)
    requires IsTrace(nets, events, may) && k < |nets|
    ensures InOrder(nets[k].server.past.log) && AllBelow(nets[k].server.past.log, nets[k].server.table)
  {
    if k > 0 {
      TraceBelow(nets, events, k - 1, may);
      assert Happens(nets[k - 1], events[k - 1], nets[k - 1 + 1], may);
      if events[k - 1].Serve? {
        StepKeepsLog(nets[k - 1].server, events[k - 1].action);
      }
    }
  }

  /** An authentication packet from an authenticated address always names the client that holds it. */
  lemma ClientMatches(nets: seq<Net>, events: seq<Event>, k: nat, may: (nat, Addr) -> bool)
    requires Exclusive(may) && IsTrace(nets, events, may) && k < |events|
    requires events[k].Serve? && events[k].action.Arrive? && events[k].action.packet.auth.Some?
    requires Lookup(nets[k].server.table, events[k].action.addr).Authed?
    ensures events[k].action.packet.auth.value.id == Lookup(nets[k].server.table, events[k].action.addr).client
  {
    TracesSound(nets, events, k, may);
    assert Happens(nets[k], events[k], nets[k + 1], may);
  }

  // ------------------------------------------------------- the hypothesis matters

  lemma Extend(nets: seq<Net>, events: seq<Event>, e: Event, may: (nat, Addr) -> bool)
    returns (nets': seq<Net>, events': seq<Event>)
    requires IsTrace(nets, events, may) && Possible(nets[|events|], e, may)
    ensures IsTrace(nets', events', may) && |nets'| == |events'| + 1
    ensures nets'[|events'|] == After(nets[|events|], e, may)
    ensures nets' == nets + [nets'[|events'|]] && events' == events + [e]
  {
    nets', events' := nets + [After(nets[|events|], e, may)], events + [e];
    forall k | 0 <= k < |events'|
      ensures Happens(nets'[k], events'[k], nets'[k + 1], may)
    {
      assert k < |events| ==> Happens(nets[k], events[k], nets[k + 1], may);
    }
  }

  /** An acknowledgement does not name its client: behind a shared address one client takes another's for its own. */
  lemma SharedAddressMisleads(may: (nat, Addr) -> bool, x: nat, y: nat, addr: Addr)
    returns (nets: seq<Net>, events: seq<Event>)
    requires may(x, addr) && may(y, addr) && x != y
    ensures IsTrace(nets, events, may)
    ensures
      var n := nets[|events|];
      n.accepted == [Path(y, addr, 1)] && !WasRecorded(n.server.past.log, y, 1)
  {
    nets, events := FirstAcked(may, x, addr);
    hide IsTrace;
    nets, events := Extend(nets, events, Renew(y, addr), may);
    nets, events := Extend(nets, events, AckArrives(y, Ack(addr, x, 1)), may);
  }

  /** One client's first authentication packet, with the endpoint up. */
  lemma FirstSent(may: (nat, Addr) -> bool, x: nat, addr: Addr) returns (nets: seq<Net>, events: seq<Event>)
    requires may(x, addr)
    ensures IsTrace(nets, events, may) && |nets| == |events| + 1
    ensures nets[|events|] ==
      Net(INIT.(reader := Ready), map[x := Peer(1, Some(addr), true)], {Sent(addr, Auth(x, 1))}, [])
  {
    assert IsTrace([START], [], may);
    hide IsTrace;
    nets, events := Extend([START], [], Renew(x, addr), may);
    nets, events := Extend(nets, events, SendAuth(x), may);
    nets, events := Extend(nets, events, Serve(Start(addr, None)), may);
  }

  /** One client's first authentication. */
  lemma FirstAcked(may: (nat, Addr) -> bool, x: nat, addr: Addr) returns (nets: seq<Net>, events: seq<Event>)
    requires may(x, addr)
    ensures IsTrace(nets, events, may) && |nets| == |events| + 1
    ensures
      var n := nets[|events|];
      && n.server.past == Past([Entry(x, 1, addr, true)], [Ack(addr, x, 1)])
      && n.accepted == [] && n.peers.Keys == {x} && n.server.reader.Ready?
      && Lookup(n.server.table, addr) == Authed(x)
  {
    nets, events := FirstSent(may, x, addr);
    hide IsTrace, Set;
    nets, events := Extend(nets, events, Serve(Arrive(addr, Packet(50, Some(Auth(x, 1))))), may);
    nets, events := Extend(nets, events, Serve(Continue), may);
    nets, events := Extend(nets, events, Serve(Continue), may);
    nets, events := Extend(nets, events, Serve(Continue), may);
  }

  /** Every path accepted at the end of a trace was recorded for its client. */
  ghost predicate AllRecorded(n: Net) {
    forall i :: 0 <= i < |n.accepted| ==> WasRecorded(n.server.past.log, n.accepted[i].client, n.accepted[i].serial)
  }

  lemma LastRecorded(nets: seq<Net>, events: seq<Event>, may: (nat, Addr) -> bool)
    requires Exclusive(may) && IsTrace(nets, events, may)
    ensures AllRecorded(nets[|events|])
  {
    var n := nets[|events|];
    forall i | 0 <= i < |n.accepted|
      ensures WasRecorded(n.server.past.log, n.accepted[i].client, n.accepted[i].serial)
    {
      AcceptedWasRecorded(nets, events, |events|, i, may);
    }
  }

  /** Clients accept only recorded paths, whatever happens, exactly when no two of them share an address. */
  lemma RecordedIffExclusive(may: (nat, Addr) -> bool)
    ensures (forall nets, events :: IsTrace(nets, events, may) ==> AllRecorded(nets[|events|])) <==> Exclusive(may)
  {
    if Exclusive(may) {
      forall nets: seq<Net>, events: seq<Event> | IsTrace(nets, events, may)
        ensures AllRecorded(nets[|events|])
      {
        LastRecorded(nets, events, may);
      }
    } else {
      var x, y, addr :| may(x, addr) && may(y, addr) && x != y;
      var nets, events := SharedAddressMisleads(may, x, y, addr);
      assert !AllRecorded(nets[|events|]) by {
        assert nets[|events|].accepted[0] == Path(y, addr, 1);
      }
    }
  }

  /** The k-th event is an authentication packet from an authenticated address, and names another client than its. */
  ghost predicate Mismatch(nets: seq<Net>, events: seq<Event>, k: nat)
    requires k < |events| < |nets|
  {
    && events[k].Serve? && events[k].action.Arrive? && events[k].action.packet.auth.Some?
    && Lookup(nets[k].server.table, events[k].action.addr).Authed?
    && events[k].action.packet.auth.value.id != Lookup(nets[k].server.table, events[k].action.addr).client
  }

  ghost predicate NoMismatch(nets: seq<Net>, events: seq<Event>)
    requires |nets| == |events| + 1
  {
    forall k :: 0 <= k < |events| ==> !Mismatch(nets, events, k)
  }

  /** Behind a shared address, one client's authentication packet comes from the address of the other. */
  lemma SharedAddressMismatches(may: (nat, Addr) -> bool, x: nat, y: nat, addr: Addr)
    returns (nets: seq<Net>, events: seq<Event>)
    requires may(x, addr) && may(y, addr) && x != y
    ensures IsTrace(nets, events, may) && !NoMismatch(nets, events)
  {
    nets, events := FirstAcked(may, x, addr);
    hide IsTrace;
    nets, events := Extend(nets, events, Renew(y, addr), may);
    nets, events := Extend(nets, events, SendAuth(y), may);
    var n, e := nets[|events|], Serve(Arrive(addr, Packet(50, Some(Auth(y, 1)))));
    ghost var k := |events|;
    nets, events := Extend(nets, events, e, may);
    assert Mismatch(nets, events, k);
  }

  /** The mismatch that should not happen never does, exactly when no two clients share an address. */
  lemma MatchesIffExclusive(may: (nat, Addr) -> bool)
    ensures (forall nets, events :: IsTrace(nets, events, may) ==> NoMismatch(nets, events)) <==> Exclusive(may)
  {
    if Exclusive(may) {
      forall nets: seq<Net>, events: seq<Event> | IsTrace(nets, events, may)
        ensures NoMismatch(nets, events)
      {
        forall k | 0 <= k < |events|
          ensures !Mismatch(nets, events, k)
        {
          if Mismatch(nets, events, k) {
            ClientMatches(nets, events, k, may);
          }
        }
      }
    } else {
      var x, y, addr :| may(x, addr) && may(y, addr) && x != y;
      var nets, events := SharedAddressMismatches(may, x, y, addr);
    }
  }

  // ------------------------------------------------------------- a client's paths

  /** Every path a client accepted is older than the one it waits for, and no newer than its serial number. */
  ghost predicate PathsBehind(n: Net) {
    forall i :: 0 <= i < |n.accepted| ==>
      var peer := PeerOf(n, n.accepted[i].client);
      n.accepted[i].serial <= peer.serial && (peer.waiting ==> n.accepted[i].serial < peer.serial)
  }

  ghost predicate PathsInOrder(accepted: seq<Path>) {
    forall i, j :: 0 <= i < j < |accepted| && accepted[i].client == accepted[j].client ==>
      accepted[i].serial < accepted[j].serial
  }

  lemma EventKeepsPaths(n: Net, e: Event, may: (nat, Addr) -> bool)
    requires Possible(n, e, may) && PathsBehind(n) && PathsInOrder(n.accepted)
    ensures PathsBehind(After(n, e, may)) && PathsInOrder(After(n, e, may).accepted)
  {
    hide Next, Carried, CanHappen;
  }

  /** A client accepts each serial number once at most, and later paths have larger ones. */
  lemma {:induction false} AcceptedInOrder(nets: seq<Net>, events: seq<Event>, k: nat, may: (nat, Addr) -> bool)
    requires IsTrace(nets, events, may) && k < |nets|
    ensures PathsBehind(nets[k]) && PathsInOrder(nets[k].accepted)
  {
    if k > 0 {
      hide PathsBehind, PathsInOrder, After, Possible;
      AcceptedInOrder(nets, events, k - 1, may);
      assert Happens(nets[k - 1], events[k - 1], nets[k - 1 + 1], may);
      EventKeepsPaths(nets[k - 1], events[k - 1], may);
    }
  }

  /**
   An acknowledgement that arrives is accepted exactly when it has the client's own serial
   number; a client that is behind catches up with it and goes on waiting.
   */
  lemma AckDecides(nets: seq<Net>, events: seq<Event>, k: nat, may: (nat, Addr) -> bool)
    requires IsTrace(nets, events, may) && k < |events| && events[k].AckArrives?
    ensures
      var x, ack := events[k].client, events[k].ack;
      var peer, peer' := PeerOf(nets[k], x), PeerOf(nets[k + 1], x);
      && ack in nets[k].server.past.acks
      && peer'.serial == (if ack.serial > peer.serial then ack.serial else peer.serial) && peer'.addr == peer.addr
      && (peer'.waiting <==> ack.serial != peer.serial)
      && nets[k + 1].accepted ==
           nets[k].accepted + (if ack.serial == peer.serial then [Path(x, ack.addr, ack.serial)] else [])
  {
    assert Happens(nets[k], events[k], nets[k + 1], may);
  }

  /** No event takes a client's serial number back, and a renewed path gets a larger one. */
  lemma ClientSerialsGrow(nets: seq<Net>, events: seq<Event>, k: nat, may: (nat, Addr) -> bool, x: nat)
    requires IsTrace(nets, events, may) && k < |events|
    ensures PeerOf(nets[k], x).serial <= PeerOf(nets[k + 1], x).serial
    ensures events[k].Renew? && events[k].client == x ==>
      PeerOf(nets[k + 1], x) == Peer(PeerOf(nets[k], x).serial + 1, Some(events[k].addr), true)
  {
    assert Happens(nets[k], events[k], nets[k + 1], may);
  }
}
