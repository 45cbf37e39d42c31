/**
 Runs of the UDP endpoint.

 Any packet may arrive from any address.  The endpoint's one reader looks a packet's
 sender up, and then works on that client store by store.  Between any two of its steps
 timeouts clear the references they observed, and clients are closed.  The history keeps
 every serial number recorded, the address it came from and whether it is to authenticate
 that address, and every acknowledgement sent.
 */
module RoamingRuns {
  import opened Options
  import opened RoamingProxy

  /** What the reader has still to do for the packet in hand. */
  datatype Reader =
    | Waiting
    | Ready
    // An authentication packet from an unknown address, of a client found open.
    | Binding(addr: Addr, auth: Auth)
    | Comparing(addr: Addr, auth: Auth)
    | Granting(addr: Addr, client: nat, serial: nat)
    // An authentication packet that names another client than the one of its address.
    | Refusing(client: nat)
    // The first other packet from an authenticated address.
    | Activating(client: nat)
    | Moving(client: nat, ptr: Ptr)
    | Promoting(client: nat)

  datatype Entry = Entry(client: nat, serial: nat, addr: Addr, grant: bool)

  datatype Ack = Ack(addr: Addr, client: nat, serial: nat)

  datatype Past = Past(log: seq<Entry>, acks: seq<Ack>)

  datatype Server = Server(table: Table, reader: Reader, refs: nat, past: Past)

  datatype Action =
    | Start(from: Addr, auth: Option<Auth>)
    | Arrive(addr: Addr, packet: Packet)
    | Continue
    | ClearClient(client: nat, prev: Option<Ptr>)
    | ClearAuthed(client: nat, prev: Option<Ptr>)
    | Close(client: nat)

  const EMPTY := Table(map[], Column(map[], map[]), Column(map[], map[]), None)

  const INIT := Server(EMPTY, Waiting, 0, Past([], []))

  predicate CanHappen(s: Server, a: Action) {
    match a
    case Start(_, _) => s.reader.Waiting?
    case Arrive(_, _) => s.reader.Ready?
    case Continue => !s.reader.Waiting? && !s.reader.Ready?
    case ClearClient(_, _) => true
    case ClearAuthed(_, _) => true
    case Close(x) => x in s.table.clients
  }

  function Logged(past: Past, x: nat, serial: nat, addr: Addr, grant: bool): Past {
    past.(log := past.log + [Entry(x, serial, addr, grant)])
  }

  function Acked(past: Past, x: nat, serial: nat, addr: Addr): Past {
    past.(acks := past.acks + [Ack(addr, x, serial)])
  }

  /** The first probe to authenticate, or the only listener, becomes the endpoint. */
  function Started(s: Server, addr: Addr, auth: Option<Auth>): Server {
    if auth.None? then s.(reader := Ready)
    else
      var (table, serial) := Authenticated(s.table, addr, auth.value, s.refs);
      Server(table, Ready, s.refs + 1,
             if serial.Some? then Logged(s.past, auth.value.id, serial.value, addr, true) else s.past)
  }

  /** A packet from an authenticated address. */
  function FromAuthed(s: Server, x: nat, addr: Addr, auth: Option<Auth>): Server {
    if auth.None? then s.(reader := Activating(x))
    else if auth.value.id != x then s.(reader := Refusing(x))
    else if auth.value.serial < Known(s.table, x).serial then s
    else
      s.(table := Recorded(s.table, x, auth.value.serial),
         past := Acked(Logged(s.past, x, auth.value.serial, addr, false), x, auth.value.serial, addr))
  }

  /** An authentication packet from an unknown address. */
  function FromUnknown(s: Server, addr: Addr, auth: Auth): Server {
    var client := Known(s.table, auth.id);
    var known := s.(table := s.table.(clients := s.table.clients[auth.id := client]));
    if client.closed then known else known.(reader := Binding(addr, auth))
  }

  function Arrived(s: Server, addr: Addr, packet: Packet): Server {
    var after := s.(table := LookedUp(s.table, addr));
    match Lookup(s.table, addr)
    case Effective(_) => after
    case Authed(x) => FromAuthed(after, x, addr, packet.auth)
    case Unknown => if packet.auth.Some? then FromUnknown(after, addr, packet.auth.value) else after
  }

  /** The reader's next store. */
  function Continued(s: Server): Server
    requires CanHappen(s, Continue)
  {
    var t := s.table;
    match s.reader
    case Binding(addr, auth) =>
      s.(table := t.(clients := t.clients[auth.id := Known(t, auth.id).(bound := true)]),
         reader := Comparing(addr, auth))
    case Comparing(addr, auth) =>
      if auth.serial <= Known(t, auth.id).serial then s.(reader := Ready)
      else
        Server(Recorded(t, auth.id, auth.serial), Granting(addr, auth.id, auth.serial), s.refs,
               Logged(s.past, auth.id, auth.serial, addr, true))
    case Granting(addr, x, serial) =>
      Server(SetAuthed(t, x, None, Some(Ptr(s.refs, addr))), Ready, s.refs + 1, Acked(s.past, x, serial, addr))
    case Refusing(x) => s.(table := SetAuthed(t, x, None, None), reader := Ready)
    case Activating(x) => s.(reader := if x in t.authed.ptrs then Moving(x, t.authed.ptrs[x]) else Ready)
    case Moving(x, ptr) => s.(table := SetClient(t, x, None, Some(ptr)), reader := Promoting(x))
    case Promoting(x) => s.(table := SetAuthed(t, x, None, None), reader := Ready)
  }

  function Next(s: Server, a: Action): Server
    requires CanHappen(s, a)
  {
    match a
    case Start(addr, auth) => Started(s, addr, auth)
    case Arrive(addr, packet) => Arrived(s, addr, packet)
    case Continue => Continued(s)
    case ClearClient(x, prev) => s.(table := SetClient(s.table, x, prev, None))
    case ClearAuthed(x, prev) => s.(table := SetAuthed(s.table, x, prev, None))
    case Close(x) => s.(table := Closed(s.table, x))
  }

  predicate Steps(s: Server, a: Action, s': Server) {
    CanHappen(s, a) && s' == Next(s, a)
  }

  ghost predicate IsRun(states: seq<Server>, actions: seq<Action>) {
    && |states| == |actions| + 1
    && states[0] == INIT
    && forall k :: 0 <= k < |actions| ==> Steps(states[k], actions[k], states[k + 1])
  }

  // -------------------------------------------------- one packet, left undisturbed

  /** Stores the reader has still to make at most. */
  function Rank(reader: Reader): nat {
    match reader
    case Binding(_, _) => 3
    case Comparing(_, _) => 2
    case Activating(_) => 3
    case Moving(_, _) => 2
    case Granting(_, _, _) => 1
    case Refusing(_) => 1
    case Promoting(_) => 1
    case _ => 0
  }

  /** The reader carries its packet through without anyone in between. */
  function Through(s: Server): Server
    decreases Rank(s.reader)
  {
    if CanHappen(s, Continue) then Through(Continued(s)) else s
  }

  /** The history with one serial number recorded and acknowledged, if any was. */
  function Told(past: Past, addr: Addr, x: nat, ack: Option<nat>, grant: bool): Past {
    if ack.None? then past
    else Past(past.log + [Entry(x, ack.value, addr, grant)], past.acks + [Ack(addr, x, ack.value)])
  }

  lemma ThroughUnknown(s: Server, addr: Addr, auth: Auth)
    requires s.reader.Ready?
    ensures
      var after := Through(FromUnknown(s, addr, auth));
      && after.reader.Ready? && after.table == Authenticated(s.table, addr, auth, s.refs).0
      && after.past == Told(s.past, addr, auth.id, Authenticated(s.table, addr, auth, s.refs).1, true)
  {
    hide Set;
    var s1 := FromUnknown(s, addr, auth);
    if s1.reader.Binding? {
      var s2 := Continued(s1);
      assert s2.table.clients == s.table.clients[auth.id := Known(s.table, auth.id).(bound := true)];
      var s3 := Continued(s2);
      assert Through(s1) == Through(s2) == Through(s3);
      assert s3.reader.Granting? ==> Through(s3) == Continued(s3);
    }
  }

  lemma ThroughAuthed(s: Server, x: nat, addr: Addr, auth: Option<Auth>)
    requires s.reader.Ready? && x in s.table.authed.ptrs
    ensures
      var after := Through(FromAuthed(s, x, addr, auth));
      && after.reader.Ready?
      && after.table ==
           (if auth.Some? then Reauthenticated(s.table, x, auth.value).0
            else SetAuthed(Promoted(s.table, x), x, None, None))
      && after.past ==
           if auth.None? then s.past
           else Told(s.past, addr, auth.value.id, Reauthenticated(s.table, x, auth.value).1, false)
  {
    hide Set;
    var s1 := FromAuthed(s, x, addr, auth);
    if s1.reader.Activating? {
      var s2 := Continued(s1);
      var s3 := Continued(s2);
      assert Through(s1) == Through(s2) == Through(s3) == Continued(s3);
    } else if s1.reader.Refusing? {
      assert Through(s1) == Continued(s1);
    }
  }

  /**
   The steps of one packet, undisturbed, make of the table what the endpoint's loop makes of
   it, and record and acknowledge just what the loop does.
   */
  lemma UndisturbedIsReceived(s: Server, addr: Addr, packet: Packet)
    requires s.reader.Ready?
    ensures Through(Arrived(s, addr, packet)).reader.Ready?
    ensures Through(Arrived(s, addr, packet)).table == Received(s.table, addr, packet, s.refs).0
    ensures
      var ack := Received(s.table, addr, packet, s.refs).1;
      Through(Arrived(s, addr, packet)).past ==
      if packet.auth.None? then s.past
      else Told(s.past, addr, packet.auth.value.id, ack, Lookup(s.table, addr).Unknown?)
  {
    hide Set, Continued, FromAuthed, FromUnknown;
    var after := s.(table := LookedUp(s.table, addr));
    match Lookup(s.table, addr)
    case Effective(_) =>
    case Authed(x) => ThroughAuthed(after, x, addr, packet.auth);
    case Unknown =>
      if packet.auth.Some? {
        ThroughUnknown(after, addr, packet.auth.value);
      }
  }

  // ------------------------------------------------------------------ addresses

  function Promotion(reader: Reader): Option<nat> {
    if reader.Promoting? then Some(reader.client) else None
  }

  /** A column as far as clients bound to the endpoint go. */
  ghost function Seen(t: Table, col: Column): Column {
    Column(map x | x in col.ptrs && Bound(t, x) :: col.ptrs[x], col.index)
  }

  ghost function View(t: Table): Table {
    t.(effective := Seen(t, t.effective), authed := Seen(t, t.authed))
  }

  /** A client that is not bound sets its own field and no map. */
  lemma SeenSet(t: Table, col: Column, x: nat, prev: Option<Ptr>, next: Option<Ptr>)
    ensures Seen(t, Set(col, x, Bound(t, x), prev, next)) ==
      if Bound(t, x) then Set(Seen(t, col), x, true, prev, next) else Seen(t, col)
  {
    var after := Set(col, x, Bound(t, x), prev, next);
    if Bound(t, x) {
      assert Current(Seen(t, col), x) == Current(col, x);
      assert Seen(t, after).ptrs == Set(Seen(t, col), x, true, prev, next).ptrs;
    } else {
      assert Seen(t, after).ptrs == Seen(t, col).ptrs;
    }
  }

  lemma ViewSetClient(t: Table, x: nat, prev: Option<Ptr>, next: Option<Ptr>)
    ensures View(SetClient(t, x, prev, next)) ==
      if Bound(t, x) then SetClient(View(t), x, prev, next) else View(t)
  {
    hide Set;
    SeenSet(t, t.effective, x, prev, next);
    var t' := SetClient(t, x, prev, next);
    SameBound(t, t', t.authed);
    SameBound(t, t', t'.effective);
  }

  lemma ViewSetAuthed(t: Table, x: nat, prev: Option<Ptr>, next: Option<Ptr>)
    ensures View(SetAuthed(t, x, prev, next)) ==
      if Bound(t, x) then SetAuthed(View(t), x, prev, next) else View(t)
  {
    hide Set;
    SeenSet(t, t.authed, x, prev, next);
    var t' := SetAuthed(t, x, prev, next);
    SameBound(t, t', t.effective);
    SameBound(t, t', t'.authed);
  }

  lemma SameBound(t: Table, t': Table, col: Column)
    requires forall x :: x in col.ptrs ==> (Bound(t, x) <==> Bound(t', x))
    ensures Seen(t, col) == Seen(t', col)
  {
    assert Seen(t, col).ptrs == Seen(t', col).ptrs;
  }

  /** Neither map holds the address. */
  predicate Unused(t: Table, addr: Addr) {
    addr !in t.effective.index && addr !in t.authed.index
  }

  predicate HoldsNothing(t: Table, x: nat) {
    x !in t.effective.ptrs && x !in t.authed.ptrs
  }

  /** A client that was bound is so still, unless it was closed. */
  predicate Held(t: Table, x: nat) {
    Bound(t, x) || Known(t, x).closed
  }

  /** What the reader knows of the packet in hand. */
  predicate ReaderOk(t: Table, reader: Reader) {
    match reader
    case Binding(addr, auth) => Unused(t, addr) && (!Bound(t, auth.id) ==> HoldsNothing(t, auth.id))
    case Comparing(addr, auth) => Unused(t, addr) && Held(t, auth.id)
    case Granting(addr, x, _) => Unused(t, addr) && Held(t, x)
    case Moving(x, ptr) =>
      && Held(t, x)
      && (Bound(t, x) ==>
            ptr.addr !in t.effective.index && (ptr.addr in t.authed.index ==> t.authed.index[ptr.addr] == x))
    case Waiting => t.effective == Column(map[], map[]) && t.authed == Column(map[], map[])
    case _ => true
  }

  /** A client that is neither bound nor closed has no address. */
  ghost predicate Tidy(t: Table) {
    forall x :: x in t.effective.ptrs || x in t.authed.ptrs ==> Held(t, x)
  }

  ghost predicate Tables(s: Server) {
    Safe(View(s.table), Promotion(s.reader)) && Tidy(s.table) && ReaderOk(s.table, s.reader)
  }

  // ------------------------------------------------------ what each step keeps

  /** Clearing a field only takes entries out. */
  lemma ClearShrinks(col: Column, x: nat, bound: bool, prev: Option<Ptr>)
    ensures
      var after := Set(col, x, bound, prev, None);
      && (forall a :: a in after.index ==> a in col.index && after.index[a] == col.index[a])
      && (forall y :: y in after.ptrs ==> y in col.ptrs && after.ptrs[y] == col.ptrs[y])
      && (prev.None? ==> x !in after.ptrs)
  {
  }

  lemma ClearClientStep(t: Table, x: nat, prev: Option<Ptr>, reader: Reader)
    requires Safe(View(t), Promotion(reader)) && Tidy(t) && ReaderOk(t, reader)
    ensures
      var t' := SetClient(t, x, prev, None);
      Safe(View(t'), Promotion(reader)) && Tidy(t') && ReaderOk(t', reader)
  {
    hide Safe, Set, View;
    ViewSetClient(t, x, prev, None);
    if Bound(t, x) {
      ClearClientKeeps(View(t), x, prev, Promotion(reader));
    }
    ClearShrinks(t.effective, x, Bound(t, x), prev);
  }

  lemma ClearAuthedStep(t: Table, x: nat, prev: Option<Ptr>, reader: Reader)
    requires Safe(View(t), Promotion(reader)) && Tidy(t) && ReaderOk(t, reader)
    ensures
      var t' := SetAuthed(t, x, prev, None);
      Safe(View(t'), Promotion(reader)) && Tidy(t') && ReaderOk(t', reader)
  {
    hide Safe, Set, View;
    ViewSetAuthed(t, x, prev, None);
    if Bound(t, x) {
      ClearAuthedKeeps(View(t), x, prev, Promotion(reader));
    }
    ClearShrinks(t.authed, x, Bound(t, x), prev);
  }

  /** Giving a client that has no address another record changes no column as seen. */
  lemma RecordStep(t: Table, x: nat, client: Client, reader: Reader)
    requires Safe(View(t), Promotion(reader)) && Tidy(t) && ReaderOk(t, reader)
    requires HoldsNothing(t, x) || (client.bound == Bound(t, x) && client.closed == Known(t, x).closed)
    requires client.bound ==> Bound(t, x) || reader.Binding?
    requires Held(t, x) ==> client.bound || client.closed
    ensures
      var t' := t.(clients := t.clients[x := client]);
      Safe(View(t'), Promotion(reader)) && Tidy(t') && ReaderOk(t', reader)
  {
    var t' := t.(clients := t.clients[x := client]);
    SameBound(t, t', t.effective);
    SameBound(t, t', t.authed);
    hide Inverse, Apart;
    assert View(t').effective == View(t).effective && View(t').authed == View(t).authed;
    ApartSame(View(t), View(t'), Promotion(reader));
  }

  lemma ApartSame(t: Table, t': Table, promoting: Option<nat>)
    requires t.effective.index == t'.effective.index && t.authed.index == t'.authed.index
    ensures Apart(t, promoting) <==> Apart(t', promoting)
  {
  }

  lemma CloseStep(t: Table, x: nat, reader: Reader)
    requires Safe(View(t), Promotion(reader)) && Tidy(t) && ReaderOk(t, reader) && x in t.clients
    ensures Safe(View(Closed(t, x)), Promotion(reader)) && Tidy(Closed(t, x)) && ReaderOk(Closed(t, x), reader)
  {
    hide Safe, View, Set, Tidy, ReaderOk;
    if !t.clients[x].closed {
      var t1 := SetClient(t, x, None, None);
      var t2 := SetAuthed(t1, x, None, None);
      ClearClientStep(t, x, None, reader);
      ClearAuthedStep(t1, x, None, reader);
      ClearShrinks(t.effective, x, Bound(t, x), None);
      ClearShrinks(t.authed, x, Bound(t1, x), None);
      RecordStep(t2, x, t.clients[x].(closed := true, bound := false), reader);
    }
  }

  lemma BindingStep(s: Server)
    requires Tables(s) && s.reader.Binding?
    ensures Tables(Continued(s))
  {
    hide Safe, View;
    var x := s.reader.auth.id;
    RecordStep(s.table, x, Known(s.table, x).(bound := true), s.reader);
  }

  lemma ComparingStep(s: Server)
    requires Tables(s) && s.reader.Comparing?
    ensures Tables(Continued(s))
  {
    hide Safe, View;
    var x := s.reader.auth.id;
    RecordStep(s.table, x, Known(s.table, x).(serial := s.reader.auth.serial), s.reader);
  }

  lemma SetOwn(col: Column, x: nat, bound: bool, next: Option<Ptr>, y: nat)
    requires y in Set(col, x, bound, None, next).ptrs
    ensures y == x || y in col.ptrs
  {
  }

  lemma GrantingStep(s: Server)
    requires Tables(s) && s.reader.Granting?
    ensures Tables(Continued(s))
  {
    hide Safe, Set, View;
    var t, x, ptr := s.table, s.reader.client, Ptr(s.refs, s.reader.addr);
    ViewSetAuthed(t, x, None, Some(ptr));
    if Bound(t, x) {
      GrantUnused(t, x, ptr);
    }
    var t' := SetAuthed(t, x, None, Some(ptr));
    forall y | y in t'.effective.ptrs || y in t'.authed.ptrs
      ensures Held(t', y)
    {
      if y in t'.authed.ptrs {
        SetOwn(t.authed, x, Bound(t, x), Some(ptr), y);
      }
      assert Held(t, y);
    }
  }

  lemma GrantUnused(t: Table, x: nat, ptr: Ptr)
    requires Safe(View(t), None) && Bound(t, x) && Unused(t, ptr.addr)
    ensures Safe(SetAuthed(View(t), x, None, Some(ptr)), None)
  {
    hide Safe, Set;
    GrantKeeps(View(t), x, ptr);
  }

  lemma ActivatingStep(s: Server)
    requires Tables(s) && s.reader.Activating?
    ensures Tables(Continued(s))
  {
    var t, x := s.table, s.reader.client;
    if x in t.authed.ptrs && Bound(t, x) {
      assert View(t).authed.ptrs[x] == t.authed.ptrs[x];
    }
  }

  lemma MovingStep(s: Server)
    requires Tables(s) && s.reader.Moving?
    ensures Tables(Continued(s))
  {
    hide Safe, Set, View;
    var t, x, ptr := s.table, s.reader.client, s.reader.ptr;
    ViewSetClient(t, x, None, Some(ptr));
    if Bound(t, x) {
      MoveUnused(t, x, ptr);
    } else {
      PromotionBegins(View(t), x);
    }
    var t' := SetClient(t, x, None, Some(ptr));
    forall y | y in t'.effective.ptrs || y in t'.authed.ptrs
      ensures Held(t', y)
    {
      if y in t'.effective.ptrs {
        SetOwn(t.effective, x, Bound(t, x), Some(ptr), y);
      }
      assert Held(t, y);
    }
  }

  lemma MoveUnused(t: Table, x: nat, ptr: Ptr)
    requires Safe(View(t), None) && Bound(t, x) && ptr.addr !in t.effective.index
    requires ptr.addr in t.authed.index ==> t.authed.index[ptr.addr] == x
    ensures Safe(SetClient(View(t), x, None, Some(ptr)), Some(x))
  {
    hide Safe, Set;
    MoveKeeps(View(t), x, ptr);
  }

  lemma PromotionBegins(t: Table, x: nat)
    requires Safe(t, None)
    ensures Safe(t, Some(x))
  {
  }

  /** Nobody shares an address with a client that is not bound. */
  lemma PromotionEnds(t: Table, x: nat)
    requires Safe(View(t), Some(x)) && !Bound(t, x)
    ensures Safe(View(t), None)
  {
  }

  lemma PromotingStep(s: Server)
    requires Tables(s) && s.reader.Promoting?
    ensures Tables(Continued(s))
  {
    var t, x := s.table, s.reader.client;
    if !Bound(t, x) {
      PromotionEnds(t, x);
    }
    hide Safe, Set, View;
    ClearAuthedStep(t, x, None, s.reader);
    ViewSetAuthed(t, x, None, None);
    if Bound(t, x) {
      ClearAuthedKeeps(View(t), x, None, Some(x));
    }
  }

  lemma ContinueKeeps(s: Server)
    requires Tables(s) && CanHappen(s, Continue)
    ensures Tables(Continued(s))
  {
    hide Tables;
    match s.reader
    case Binding(_, _) => BindingStep(s);
    case Comparing(_, _) => ComparingStep(s);
    case Granting(_, _, _) => GrantingStep(s);
    case Refusing(x) => RefusingStep(s);
    case Activating(_) => ActivatingStep(s);
    case Moving(_, _) => MovingStep(s);
    case Promoting(_) => PromotingStep(s);
  }

  lemma RefusingStep(s: Server)
    requires Tables(s) && s.reader.Refusing?
    ensures Tables(Continued(s))
  {
    hide Safe, Set, View;
    ClearAuthedStep(s.table, s.reader.client, None, s.reader);
  }

  /** An address that is not found is in neither map. */
  lemma UnknownUnused(t: Table, addr: Addr)
    requires Consistent(View(t)) && Lookup(t, addr).Unknown?
    ensures Unused(t, addr)
  {
  }

  lemma CacheUnseen(t: Table, addr: Addr, promoting: Option<nat>)
    requires Safe(View(t), promoting) && Tidy(t)
    ensures Safe(View(LookedUp(t, addr)), promoting) && Tidy(LookedUp(t, addr))
    ensures LookedUp(t, addr).effective == t.effective && LookedUp(t, addr).authed == t.authed
    ensures LookedUp(t, addr).clients == t.clients
  {
    var t' := LookedUp(t, addr);
    SameBound(t, t', t.effective);
    SameBound(t, t', t.authed);
    hide Inverse, Apart;
    ApartSame(View(t), View(t'), promoting);
  }

  lemma ArriveKeeps(s: Server, addr: Addr, packet: Packet)
    requires Tables(s) && s.reader.Ready?
    ensures Tables(Arrived(s, addr, packet))
  {
    CacheUnseen(s.table, addr, None);
    if Lookup(s.table, addr).Unknown? {
      UnknownUnused(s.table, addr);
    }
    hide Safe, View;
    var t := LookedUp(s.table, addr);
    if packet.auth.Some? {
      var x := packet.auth.value.id;
      RecordStep(t, x, Known(t, x), Ready);
      RecordStep(t, x, Known(t, x).(serial := packet.auth.value.serial), Ready);
    }
  }

  /** When all addresses belong to bound clients, the table is seen as it is. */
  lemma OwnedIsSeen(t: Table)
    requires Owned(t)
    ensures View(t) == t
  {
    assert Seen(t, t.effective).ptrs == t.effective.ptrs;
    assert Seen(t, t.authed).ptrs == t.authed.ptrs;
  }

  lemma StartKeeps(s: Server, addr: Addr, auth: Option<Auth>)
    requires Tables(s) && s.reader.Waiting?
    ensures Tables(Started(s, addr, auth))
  {
    OwnedIsSeen(s.table);
    if auth.Some? {
      AuthenticatedKeeps(s.table, addr, auth.value, s.refs);
      OwnedIsSeen(Authenticated(s.table, addr, auth.value, s.refs).0);
    }
  }

  lemma StepKeepsTables(s: Server, a: Action)
    requires Tables(s) && CanHappen(s, a)
    ensures Tables(Next(s, a))
  {
    match a
    case Start(addr, auth) => StartKeeps(s, addr, auth);
    case Arrive(addr, packet) => ArriveKeeps(s, addr, packet);
    case Continue => ContinueKeeps(s);
    case ClearClient(x, prev) => ClearClientStep(s.table, x, prev, s.reader);
    case ClearAuthed(x, prev) => ClearAuthedStep(s.table, x, prev, s.reader);
    case Close(x) => CloseStep(s.table, x, s.reader);
  }

  lemma {:induction false} RunsKeepTables(states: seq<Server>, actions: seq<Action>, k: nat)
    requires IsRun(states, actions) && k < |states|
    ensures Tables(states[k])
  {
    if k == 0 {
      OwnedIsSeen(INIT.table);
    } else {
      RunsKeepTables(states, actions, k - 1);
      assert Steps(states[k - 1], actions[k - 1], states[k - 1 + 1]);
      StepKeepsTables(states[k - 1], actions[k - 1]);
    }
  }

  // -------------------------------------------------------------------- theorems

  /**
   In every reachable state but the instant of a promotion, the addresses of all bound
   clients are pairwise distinct.  If every address belongs to a bound client, then all
   addresses are, and the endpoint's lookup is the scan over all client states.
   */
  lemma AddressesStayDistinct(states: seq<Server>, actions: seq<Action>, k: nat, addr: Addr, found: Found)
    requires IsRun(states, actions) && k < |states| && !states[k].reader.Promoting?
    ensures DistinctAddresses(View(states[k].table))
    ensures Owned(states[k].table) ==>
      && DistinctAddresses(states[k].table)
      && (ScanFinds(states[k].table, addr, found) <==> found == Lookup(states[k].table, addr))
  {
    RunsKeepTables(states, actions, k);
    ApartMeansDistinct(View(states[k].table));
    if Owned(states[k].table) {
      OwnedIsSeen(states[k].table);
      LookupIsScan(states[k].table, addr, found);
    }
  }

  /**
   At every instant both maps hold exactly the addresses of the bound clients, so that no
   live entry was ever erased; and an address in both belongs to the client being promoted.
   */
  lemma NoLiveEntryErased(states: seq<Server>, actions: seq<Action>, k: nat, a: Addr)
    requires IsRun(states, actions) && k < |states|
    ensures Inverse(View(states[k].table).effective) && Inverse(View(states[k].table).authed)
    ensures
      var t := states[k].table;
      a in t.effective.index && a in t.authed.index ==>
        states[k].reader == Promoting(t.effective.index[a]) && t.authed.index[a] == t.effective.index[a]
  {
    RunsKeepTables(states, actions, k);
    var t := states[k].table;
    assert View(t).effective.index == t.effective.index && View(t).authed.index == t.authed.index;
  }

  // -------------------------------------- when the lookup is the scan, to the letter

  /** `x` is an answer of the scan. */
  ghost predicate Answers(t: Table, addr: Addr, x: nat) {
    ScanFinds(t, addr, Effective(x)) || ScanFinds(t, addr, Authed(x))
  }

  /**
   A client that is not bound holds the address, and the scan sees it though the lookup does
   not, or sees another one besides; or the lookup sees it first and the scan does not.
   */
  ghost predicate Misleads(t: Table, addr: Addr, y: nat) {
    && !Bound(t, y)
    && (if Answers(t, addr, y) then t.cache != Some(y) || exists x :: x != y && Answers(t, addr, x)
        else t.cache == Some(y) && Holds(t.authed, y, addr))
  }

  ghost predicate LookupIsTheScan(t: Table, addr: Addr) {
    forall found :: ScanFinds(t, addr, found) <==> found == Lookup(t, addr)
  }

  /** Whom the maps know is bound and holds the address, and is the only one bound that does. */
  ghost predicate MapsKnow(t: Table, addr: Addr) {
    && (forall x :: Bound(t, x) && Holds(t.effective, x, addr) ==>
          addr in t.effective.index && t.effective.index[addr] == x)
    && (forall x :: Bound(t, x) && Holds(t.authed, x, addr) ==> addr in t.authed.index && t.authed.index[addr] == x)
    && (addr in t.effective.index ==>
          && addr !in t.authed.index
          && Bound(t, t.effective.index[addr]) && Holds(t.effective, t.effective.index[addr], addr))
    && (addr in t.authed.index ==> Bound(t, t.authed.index[addr]) && Holds(t.authed, t.authed.index[addr], addr))
  }

  lemma SafeMapsKnow(t: Table, addr: Addr)
    requires Safe(View(t), None)
    ensures MapsKnow(t, addr)
  {
    var e, a := View(t).effective, View(t).authed;
    forall x | Bound(t, x)
      ensures Holds(t.effective, x, addr) ==> addr in t.effective.index && t.effective.index[addr] == x
      ensures Holds(t.authed, x, addr) ==> addr in t.authed.index && t.authed.index[addr] == x
    {
      assert Holds(t.effective, x, addr) ==> x in e.ptrs && e.ptrs[x].addr == addr;
      assert Holds(t.authed, x, addr) ==> x in a.ptrs && a.ptrs[x].addr == addr;
    }
    assert addr in e.index ==> e.index[addr] in e.ptrs;
    assert addr in a.index ==> a.index[addr] in a.ptrs;
  }

  lemma StrayBreaks(t: Table, addr: Addr, y: nat)
    requires MapsKnow(t, addr) && Misleads(t, addr, y)
    ensures !LookupIsTheScan(t, addr)
  {
    if Answers(t, addr, y) {
      var found := if ScanFinds(t, addr, Effective(y)) then Effective(y) else Authed(y);
      assert ScanFinds(t, addr, found);
      if t.cache == Some(y) {
        var x :| x != y && Answers(t, addr, x);
        var other := if ScanFinds(t, addr, Effective(x)) then Effective(x) else Authed(x);
        assert ScanFinds(t, addr, other) && other != found;
      } else {
        assert found != Lookup(t, addr);
      }
    } else {
      assert Lookup(t, addr) == Authed(y) && !ScanFinds(t, addr, Authed(y));
    }
  }

  /** Without a stray in the way the scan has the lookup's answer. */
  lemma LookupAnswers(t: Table, addr: Addr)
    requires MapsKnow(t, addr) && forall y :: !Misleads(t, addr, y)
    ensures ScanFinds(t, addr, Lookup(t, addr))
  {
    var found := Lookup(t, addr);
    assert found.Authed? ==> !Misleads(t, addr, found.client);
    if !found.Effective? {
      forall z
        ensures !Holds(t.effective, z, addr)
      {
        assert !Misleads(t, addr, z);
        assert Holds(t.effective, z, addr) ==> Answers(t, addr, z);
      }
      if found.Unknown? {
        forall z
          ensures !Holds(t.authed, z, addr)
        {
          assert !Misleads(t, addr, z);
        }
      }
    }
  }

  /** Without a stray in the way the scan has one answer. */
  lemma OneAnswer(t: Table, addr: Addr, x: nat, y: nat)
    requires MapsKnow(t, addr) && !Misleads(t, addr, x) && !Misleads(t, addr, y)
    requires Answers(t, addr, x) && Answers(t, addr, y)
    ensures x == y
  {
  }

  /** For every table the endpoint can reach: the lookup is the scan exactly when no stray misleads it. */
  lemma LookupIsScanIff(states: seq<Server>, actions: seq<Action>, k: nat, addr: Addr)
    requires IsRun(states, actions) && k < |states| && !states[k].reader.Promoting?
    ensures LookupIsTheScan(states[k].table, addr) <==> forall y :: !Misleads(states[k].table, addr, y)
  {
    RunsKeepTables(states, actions, k);
    var t := states[k].table;
    SafeMapsKnow(t, addr);
    hide IsRun, Tables, MapsKnow;
    if y :| Misleads(t, addr, y) {
      StrayBreaks(t, addr, y);
    } else {
      LookupAnswers(t, addr);
      forall found | ScanFinds(t, addr, found)
        ensures found == Lookup(t, addr)
      {
        SameAnswer(t, addr, found, Lookup(t, addr));
      }
    }
  }

  lemma SameAnswer(t: Table, addr: Addr, found: Found, other: Found)
    requires MapsKnow(t, addr) && forall y :: !Misleads(t, addr, y)
    requires ScanFinds(t, addr, found) && ScanFinds(t, addr, other)
    ensures found == other
  {
    if !found.Unknown? && !other.Unknown? {
      OneAnswer(t, addr, found.client, other.client);
    }
  }

  // ------------------------------------------- a client closed while it is handled

  /** The reader stores an address for a client that is still bound. */
  predicate StoresForBound(s: Server, a: Action) {
    a.Continue? && (s.reader.Granting? || s.reader.Moving?) ==> Bound(s.table, s.reader.client)
  }

  lemma ClearOwned(t: Table, x: nat, prev: Option<Ptr>)
    requires Owned(t)
    ensures Owned(SetClient(t, x, prev, None)) && Owned(SetAuthed(t, x, prev, None))
  {
    hide Set;
    ClearShrinks(t.effective, x, Bound(t, x), prev);
    ClearShrinks(t.authed, x, Bound(t, x), prev);
  }

  lemma ClosedOwned(t: Table, x: nat)
    requires Owned(t) && x in t.clients
    ensures Owned(Closed(t, x))
  {
    hide Set;
    if !t.clients[x].closed {
      var t1 := SetClient(t, x, None, None);
      ClearOwned(t, x, None);
      ClearOwned(t1, x, None);
      ClearShrinks(t.effective, x, Bound(t, x), None);
      ClearShrinks(t.authed, x, Bound(t1, x), None);
    }
  }

  lemma StoreOwned(t: Table, x: nat, ptr: Ptr)
    requires Owned(t)
    ensures Owned(SetClient(t, x, None, Some(ptr))) <==> Bound(t, x)
    ensures Owned(SetAuthed(t, x, None, Some(ptr))) <==> Bound(t, x)
  {
  }

  /** From a state in which every address belongs to a bound client. */
  lemma StepOwnedIff(s: Server, a: Action)
    requires Owned(s.table) && Tables(s) && CanHappen(s, a)
    ensures Owned(Next(s, a).table) <==> StoresForBound(s, a)
  {
    match a
    case Start(addr, auth) =>
      if auth.Some? {
        OwnedIsSeen(s.table);
        AuthenticatedKeeps(s.table, addr, auth.value, s.refs);
      }
    case Arrive(addr, packet) => ArriveOwned(s, addr, packet);
    case Continue => ContinueOwned(s);
    case ClearClient(x, prev) => ClearOwned(s.table, x, prev);
    case ClearAuthed(x, prev) => ClearOwned(s.table, x, prev);
    case Close(x) => ClosedOwned(s.table, x);
  }

  lemma ArriveOwned(s: Server, addr: Addr, packet: Packet)
    requires Owned(s.table)
    ensures Owned(Arrived(s, addr, packet).table)
  {
  }

  lemma ContinueOwned(s: Server)
    requires Owned(s.table) && CanHappen(s, Continue)
    ensures Owned(Continued(s).table) <==> StoresForBound(s, Continue)
  {
    hide Set;
    match s.reader
    case Granting(addr, x, _) => StoreOwned(s.table, x, Ptr(s.refs, addr));
    case Moving(x, ptr) => StoreOwned(s.table, x, ptr);
    case Refusing(x) => ClearOwned(s.table, x, None);
    case Promoting(x) => ClearOwned(s.table, x, None);
    case _ =>
  }

  ghost predicate AllOwned(states: seq<Server>, k: nat)
    requires k < |states|
  {
    forall i :: 0 <= i <= k ==> Owned(states[i].table)
  }

  ghost predicate AllForBound(states: seq<Server>, actions: seq<Action>, k: nat)
    requires |states| == |actions| + 1 && k <= |actions|
  {
    forall i :: 0 <= i < k ==> StoresForBound(states[i], actions[i])
  }

  /** All addresses belong to bound clients throughout a run exactly when the reader stores only for bound clients. */
  lemma {:induction false} OwnedIff(states: seq<Server>, actions: seq<Action>, k: nat)
    requires IsRun(states, actions) && k < |states|
    ensures AllOwned(states, k) <==> AllForBound(states, actions, k)
  {
    if k > 0 {
      OwnedIff(states, actions, k - 1);
      RunsKeepTables(states, actions, k - 1);
      assert Steps(states[k - 1], actions[k - 1], states[k - 1 + 1]);
      hide Owned, StoresForBound, IsRun, Tables;
      assert AllOwned(states, k) <==> AllOwned(states, k - 1) && Owned(states[k].table);
      assert AllForBound(states, actions, k) <==>
        AllForBound(states, actions, k - 1) && StoresForBound(states[k - 1], actions[k - 1]);
      if AllOwned(states, k - 1) {
        assert Owned(states[k - 1].table);
        StepOwnedIff(states[k - 1], actions[k - 1]);
      }
    } else {
      assert Owned(INIT.table);
    }
  }

  lemma Extend(states: seq<Server>, actions: seq<Action>, a: Action)
    returns (states': seq<Server>, actions': seq<Action>)
    requires IsRun(states, actions) && CanHappen(states[|actions|], a)
    ensures IsRun(states', actions') && |states'| == |actions'| + 1
    ensures states'[|actions'|] == Next(states[|actions|], a)
  {
    states', actions' := states + [Next(states[|actions|], a)], actions + [a];
    forall k | 0 <= k < |actions'|
      ensures Steps(states'[k], actions'[k], states'[k + 1])
    {
      assert k < |actions| ==> Steps(states[k], actions[k], states[k + 1]);
    }
  }

  /** An authentication packet handled with nobody in between, but for a close before the last store. */
  lemma AuthenticateFrom(states: seq<Server>, actions: seq<Action>, x: nat, addr: Addr, closed: bool)
    returns (states': seq<Server>, actions': seq<Action>)
    requires IsRun(states, actions)
    requires
      var s := states[|actions|];
      && s.reader.Ready? && Lookup(s.table, addr).Unknown? && x !in s.table.clients
      && s.table.effective == Column(map[], map[]) && s.table.authed.index == map[] && x !in s.table.authed.ptrs
    ensures IsRun(states', actions') && |states'| == |actions'| + 1
    ensures
      var t, s' := states[|actions|].table, states'[|actions'|];
      && s'.reader.Ready?
      && s'.table == Table(
           t.clients[x := Client(1, closed, !closed)],
           t.effective,
           Column(t.authed.ptrs[x := Ptr(states[|actions|].refs, addr)], if closed then map[] else map[addr := x]),
           t.cache)
  {
    var t := states[|actions|].table;
    hide IsRun;
    states', actions' := Extend(states, actions, Arrive(addr, Packet(50, Some(Auth(x, 1)))));
    states', actions' := Extend(states', actions', Continue);
    states', actions' := Extend(states', actions', Continue);
    assert states'[|actions'|].table == t.(clients := t.clients[x := Client(1, false, true)]);
    if closed {
      states', actions' := Extend(states', actions', Close(x));
      assert states'[|actions'|].table == t.(clients := t.clients[x := Client(1, true, false)]);
    }
    states', actions' := Extend(states', actions', Continue);
  }

  /** A client closed while its packet is handled keeps an address unknown to the maps, which another may get. */
  lemma ClosedWhileHandled() returns (states: seq<Server>, actions: seq<Action>)
    ensures IsRun(states, actions)
    ensures
      var s := states[|actions|];
      && s.reader.Ready? && !DistinctAddresses(s.table)
      && Lookup(s.table, 7) == Authed(2) && ScanFinds(s.table, 7, Authed(1))
  {
    assert IsRun([INIT], []);
    hide IsRun;
    states, actions := Extend([INIT], [], Start(0, None));
    states, actions := AuthenticateFrom(states, actions, 1, 7, true);
    states, actions := AuthenticateFrom(states, actions, 2, 7, false);
    var t := states[|actions|].table;
    assert 1 in t.authed.ptrs && 2 in t.authed.ptrs && t.authed.ptrs[1].addr == t.authed.ptrs[2].addr == 7;
  }

  /** A timeout that observed no authenticated address removes one recorded while it waited. */
  lemma NilObservationRemovesNewer()
    ensures
      var observed := Current(EMPTY.authed, 1);
      var renewed := Authenticated(EMPTY, 7, Auth(1, 1), 0).0;
      && observed.None?
      && Current(renewed.authed, 1) == Some(Ptr(0, 7))
      && Current(SetAuthed(renewed, 1, observed, None).authed, 1).None?
  {
    TimeoutRemovesObserved(Authenticated(EMPTY, 7, Auth(1, 1), 0).0.authed, 1, true, None);
  }

  // -------------------------------------------------------------- serial numbers

  lemma ClosedKeepsClient(t: Table, x: nat, y: nat)
    requires x in t.clients
    ensures Known(Closed(t, x), y).serial == Known(t, y).serial
  {
  }

  /** A recorded serial number never decreases in a step. */
  lemma StepSerial(s: Server, a: Action, x: nat)
    requires CanHappen(s, a)
    ensures Known(s.table, x).serial <= Known(Next(s, a).table, x).serial
  {
    hide Set;
    if a.Close? {
      ClosedKeepsClient(s.table, a.client, x);
    }
  }

  lemma {:induction false} SerialsNeverDecrease(states: seq<Server>, actions: seq<Action>, i: nat, j: nat, x: nat)
    requires IsRun(states, actions) && i <= j < |states|
    ensures Known(states[i].table, x).serial <= Known(states[j].table, x).serial
    decreases j
  {
    if i < j {
      SerialsNeverDecrease(states, actions, i, j - 1, x);
      assert Steps(states[j - 1], actions[j - 1], states[j - 1 + 1]);
      StepSerial(states[j - 1], actions[j - 1], x);
    }
  }

  /** Nothing is recorded before the endpoint is there. */
  lemma {:induction false} WaitingIsEmpty(states: seq<Server>, actions: seq<Action>, k: nat)
    requires IsRun(states, actions) && k < |states| && states[k].reader.Waiting?
    ensures states[k] == INIT
  {
    if k > 0 {
      assert Steps(states[k - 1], actions[k - 1], states[k - 1 + 1]);
      StaysEmpty(states[k - 1], actions[k - 1]);
      WaitingIsEmpty(states, actions, k - 1);
    }
  }

  lemma StaysEmpty(s: Server, a: Action)
    requires CanHappen(s, a) && Next(s, a).reader.Waiting?
    ensures s.reader.Waiting?
    ensures s == INIT ==> Next(s, a) == INIT
  {
  }

  /** The probe that makes the endpoint authenticates its sender, if its serial number is not the initial one. */
  lemma StartAdmits(states: seq<Server>, actions: seq<Action>, k: nat)
    requires IsRun(states, actions) && k < |actions| && actions[k].Start?
    ensures
      var s, s', a := states[k], states[k + 1], actions[k];
      && s == INIT && s'.reader.Ready? && s'.past.acks == []
      && (a.auth.None? ==> s'.table == EMPTY && s'.past.log == [])
      && (a.auth.Some? ==>
            var ack := if a.auth.value.serial > 0 then Some(a.auth.value.serial) else None;
            && Settles(EMPTY, a.from, Packet(0, a.auth), s'.table, ack)
            && s'.past.log == if ack.Some? then [Entry(a.auth.value.id, ack.value, a.from, true)] else [])
  {
    assert Steps(states[k], actions[k], states[k + 1]);
    WaitingIsEmpty(states, actions, k);
    if actions[k].auth.Some? {
      AuthenticatedMeans(EMPTY, actions[k].from, Packet(0, actions[k].auth), 0);
    }
    hide Settles;
  }

  /** Every reference held was handed out before. */
  ghost predicate RefsBelow(col: Column, refs: nat) {
    forall x :: x in col.ptrs ==> col.ptrs[x].id < refs
  }

  ghost predicate RefsOk(s: Server) {
    && RefsBelow(s.table.effective, s.refs) && RefsBelow(s.table.authed, s.refs)
    && (s.reader.Moving? ==> s.reader.ptr.id < s.refs)
  }

  lemma StepKeepsRefs(s: Server, a: Action)
    requires CanHappen(s, a) && RefsOk(s)
    ensures RefsOk(Next(s, a)) && s.refs <= Next(s, a).refs
  {
  }

  /** Timeouts may clear and clients may close between any two steps of the reader. */
  lemma DisturbedAnyTime(s: Server, x: nat, prev: Option<Ptr>)
    ensures CanHappen(s, ClearClient(x, prev)) && CanHappen(s, ClearAuthed(x, prev))
    ensures x in s.table.clients ==> CanHappen(s, Close(x))
  {
  }

  /** A reference that is handed out is new: nobody holds it, so no timeout can have observed it. */
  lemma {:induction false} ReferencesAreNew(states: seq<Server>, actions: seq<Action>, k: nat)
    requires IsRun(states, actions) && k < |states|
    ensures RefsOk(states[k])
    ensures k < |actions| ==> states[k].refs <= states[k + 1].refs
  {
    if k > 0 {
      ReferencesAreNew(states, actions, k - 1);
      assert Steps(states[k - 1], actions[k - 1], states[k - 1 + 1]);
      StepKeepsRefs(states[k - 1], actions[k - 1]);
    }
    if k < |actions| {
      assert Steps(states[k], actions[k], states[k + 1]);
      StepKeepsRefs(states[k], actions[k]);
    }
  }

  /** Two entries of one client, the later one last. */
  predicate Ordered(e: Entry, f: Entry) {
    e.client == f.client ==> e.serial <= f.serial && (f.grant ==> e.serial < f.serial)
  }

  predicate Below(e: Entry, t: Table) {
    e.serial <= Known(t, e.client).serial
  }

  ghost predicate InOrder(log: seq<Entry>) {
    forall i, j :: 0 <= i < j < |log| ==> Ordered(log[i], log[j])
  }

  ghost predicate AllBelow(log: seq<Entry>, t: Table) {
    forall i :: 0 <= i < |log| ==> Below(log[i], t)
  }

  lemma LogGrows(log: seq<Entry>, t: Table, e: Entry, t': Table)
    requires InOrder(log) && AllBelow(log, t)
    requires Known(t, e.client).serial <= e.serial && (e.grant ==> Known(t, e.client).serial < e.serial)
    requires Below(e, t') && forall x :: Known(t, x).serial <= Known(t', x).serial
    ensures InOrder(log + [e]) && AllBelow(log + [e], t')
  {
    forall i | 0 <= i < |log|
      ensures Ordered(log[i], e) && Below(log[i], t')
    {
      assert Below(log[i], t);
    }
  }

  /** What a step appends to the log, if anything. */
  lemma StepLogs(s: Server, a: Action)
    requires CanHappen(s, a)
    ensures
      var t, s' := s.table, Next(s, a);
      || s'.past.log == s.past.log
      || (&& |s'.past.log| == |s.past.log| + 1
          && s'.past.log[..|s.past.log|] == s.past.log
          && var e := s'.past.log[|s.past.log|];
             && Known(t, e.client).serial <= e.serial
             && (e.grant ==> Known(t, e.client).serial < e.serial)
             && Below(e, s'.table))
  {
    hide Set;
  }

  lemma StepKeepsLog(s: Server, a: Action)
    requires CanHappen(s, a) && InOrder(s.past.log) && AllBelow(s.past.log, s.table)
    ensures InOrder(Next(s, a).past.log) && AllBelow(Next(s, a).past.log, Next(s, a).table)
  {
    hide Next, Known;
    var s' := Next(s, a);
    forall x
      ensures Known(s.table, x).serial <= Known(s'.table, x).serial
    {
      StepSerial(s, a, x);
    }
    StepLogs(s, a);
    if s'.past.log != s.past.log {
      var e := s'.past.log[|s.past.log|];
      assert s'.past.log == s.past.log + [e];
      LogGrows(s.past.log, s.table, e, s'.table);
    } else {
      forall i | 0 <= i < |s.past.log|
        ensures Below(s.past.log[i], s'.table)
      {
        assert Below(s.past.log[i], s.table);
      }
    }
  }

  lemma {:induction false} RunsKeepLog(states: seq<Server>, actions: seq<Action>, k: nat)
    requires IsRun(states, actions) && k < |states|
    ensures InOrder(states[k].past.log) && AllBelow(states[k].past.log, states[k].table)
  {
    if k > 0 {
      RunsKeepLog(states, actions, k - 1);
      assert Steps(states[k - 1], actions[k - 1], states[k - 1 + 1]);
      StepKeepsLog(states[k - 1], actions[k - 1]);
    }
  }

  /**
   Of two serial numbers recorded for one client the later is not smaller, and it is
   larger when it authenticated a new address: no serial number establishes two.
   */
  lemma EachSerialOneAddress(states: seq<Server>, actions: seq<Action>, k: nat, i: nat, j: nat)
    requires IsRun(states, actions) && k < |states| && i < j < |states[k].past.log|
    requires states[k].past.log[i].client == states[k].past.log[j].client
    ensures states[k].past.log[i].serial <= states[k].past.log[j].serial
    ensures states[k].past.log[j].grant ==> states[k].past.log[i].serial < states[k].past.log[j].serial
  {
    RunsKeepLog(states, actions, k);
    assert Ordered(states[k].past.log[i], states[k].past.log[j]);
  }
}
