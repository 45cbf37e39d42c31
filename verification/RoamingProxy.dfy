/**
 The server's UDP endpoint in attachable mode.

 A client state holds two address references: its effective address and the address it
 last authenticated from.  The endpoint keeps one map per kind from addresses to client
 states, and remembers the client it served last.  Client states are named by client
 identifier; the reference fields of all clients form a column beside the map over it.
 */
module RoamingProxy {
  import opened Options

  type Addr = nat

  /** An allocated address: two allocations of one address are different references. */
  datatype Ptr = Ptr(id: nat, addr: Addr)

  /** One reference field of all clients (absent where it is nil), and the endpoint's map from addresses. */
  datatype Column = Column(ptrs: map<nat, Ptr>, index: map<Addr, nat>)

  function Current(col: Column, x: nat): Option<Ptr> {
    if x in col.ptrs then Some(col.ptrs[x]) else None
  }

  /** A field after a swap from `prev` to `next`, and the reference that was taken out. */
  function Swapped(current: Option<Ptr>, prev: Option<Ptr>, next: Option<Ptr>): (Option<Ptr>, Option<Ptr>) {
    if prev.None? then (next, current)
    else if current == prev then (next, prev)
    else (current, None)
  }

  /** The column after `x` sets its field; a client bound to the endpoint adds its entry, then deletes the old one. */
  function Set(col: Column, x: nat, bound: bool, prev: Option<Ptr>, next: Option<Ptr>): Column {
    var (after, removed) := Swapped(Current(col, x), prev, next);
    var ptrs := if after.Some? then col.ptrs[x := after.value] else col.ptrs - {x};
    var added := if next.Some? && bound && after.Some? then col.index[after.value.addr := x] else col.index;
    Column(ptrs, if removed.Some? && bound then added - {removed.value.addr} else added)
  }

  /** The map holds exactly the addresses in the fields, each under its client. */
  ghost predicate Inverse(col: Column) {
    && (forall x :: x in col.ptrs ==> col.ptrs[x].addr in col.index && col.index[col.ptrs[x].addr] == x)
    && (forall a :: a in col.index ==> col.index[a] in col.ptrs && col.ptrs[col.index[a]].addr == a)
  }

  /** A client state besides its addresses. */
  datatype Client = Client(serial: nat, closed: bool, bound: bool)

  datatype Table = Table(clients: map<nat, Client>, effective: Column, authed: Column, cache: Option<nat>)

  predicate Bound(t: Table, x: nat) {
    x in t.clients && t.clients[x].bound
  }

  function SetClient(t: Table, x: nat, prev: Option<Ptr>, next: Option<Ptr>): Table {
    t.(effective := Set(t.effective, x, Bound(t, x), prev, next))
  }

  function SetAuthed(t: Table, x: nat, prev: Option<Ptr>, next: Option<Ptr>): Table {
    t.(authed := Set(t.authed, x, Bound(t, x), prev, next))
  }

  /** The client state of `x`, created when it is first asked for. */
  function Known(t: Table, x: nat): Client {
    if x in t.clients then t.clients[x] else Client(0, false, false)
  }

  function Closed(t: Table, x: nat): Table
    requires x in t.clients
  {
    if t.clients[x].closed then t
    else
      var cleared := SetAuthed(SetClient(t, x, None, None), x, None, None);
      cleared.(clients := t.clients[x := t.clients[x].(closed := true, bound := false)])
  }

  datatype Found = Effective(client: nat) | Authed(client: nat) | Unknown

  predicate Holds(col: Column, x: nat, addr: Addr) {
    x in col.ptrs && col.ptrs[x].addr == addr
  }

  /** What the endpoint finds for an address: the client served last, then the two maps. */
  function Lookup(t: Table, addr: Addr): (found: Found)
    ensures found.Effective? ==> Holds(t.effective, found.client, addr)
    ensures found.Authed? ==> Holds(t.authed, found.client, addr)
  {
    if t.cache.Some? && Holds(t.effective, t.cache.value, addr) then Effective(t.cache.value)
    else if t.cache.Some? && Holds(t.authed, t.cache.value, addr) then Authed(t.cache.value)
    else if addr in t.effective.index && Holds(t.effective, t.effective.index[addr], addr) then
      Effective(t.effective.index[addr])
    else if addr in t.authed.index && Holds(t.authed, t.authed.index[addr], addr) then Authed(t.authed.index[addr])
    else Unknown
  }

  function LookedUp(t: Table, addr: Addr): Table {
    match Lookup(t, addr)
    case Effective(x) => t.(cache := Some(x))
    case _ => t
  }

  /** What a scan over all client states finds: the client of an effective address, else of an authenticated one. */
  ghost predicate ScanFinds(t: Table, addr: Addr, found: Found) {
    match found
    case Effective(x) => Holds(t.effective, x, addr)
    case Authed(x) => Holds(t.authed, x, addr) && forall y :: !Holds(t.effective, y, addr)
    case Unknown => forall y :: !Holds(t.effective, y, addr) && !Holds(t.authed, y, addr)
  }

  // ------------------------------------------------------------------ packets

  /** Packets up to this length carry nothing and are dropped. */
  const SAFE_TO_DROP := 16

  /** What an authentication packet says. */
  datatype Auth = Auth(id: nat, serial: nat)

  datatype Packet = Packet(len: nat, auth: Option<Auth>)

  /** The table after client `x` recorded a serial number. */
  function Recorded(t: Table, x: nat, serial: nat): Table {
    t.(clients := t.clients[x := Known(t, x).(serial := serial)])
  }

  /** A packet from an authenticated address, when it is an authentication packet. */
  function Reauthenticated(t: Table, x: nat, auth: Auth): (Table, Option<nat>) {
    if auth.id != x then (SetAuthed(t, x, None, None), None)
    else if auth.serial < Known(t, x).serial then (t, None)
    else (Recorded(t, x, auth.serial), Some(auth.serial))
  }

  /** An authentication packet from an unknown address, and the serial number acknowledged to it. */
  function Authenticated(t: Table, addr: Addr, auth: Auth, id: nat): (Table, Option<nat>) {
    var x := auth.id;
    var client := Known(t, x);
    if client.closed then (t.(clients := t.clients[x := client]), None)
    else
      var bound := t.(clients := t.clients[x := client.(bound := true)]);
      if auth.serial <= client.serial then (bound, None)
      else (SetAuthed(Recorded(bound, x, auth.serial), x, None, Some(Ptr(id, addr))), Some(auth.serial))
  }

  /** The first half of a promotion: the authenticated address becomes the effective one. */
  function Promoted(t: Table, x: nat): Table
    requires x in t.authed.ptrs
  {
    SetClient(t, x, None, Some(t.authed.ptrs[x]))
  }

  /** Everything one packet does to the table, with a promotion carried through. */
  function Received(t: Table, addr: Addr, packet: Packet, id: nat): (Table, Option<nat>) {
    var after := LookedUp(t, addr);
    match Lookup(t, addr)
    case Effective(_) => (after, None)
    case Authed(x) =>
      if packet.auth.Some? then Reauthenticated(after, x, packet.auth.value)
      else (SetAuthed(Promoted(after, x), x, None, None), None)
    case Unknown =>
      if packet.auth.Some? then Authenticated(after, addr, packet.auth.value, id) else (after, None)
  }

  /** No address is both effective and authenticated, but for the client that is being promoted. */
  ghost predicate Apart(t: Table, promoting: Option<nat>) {
    forall a :: a in t.effective.index && a in t.authed.index ==>
      promoting == Some(t.effective.index[a]) && promoting == Some(t.authed.index[a])
  }

  ghost predicate Consistent(t: Table) {
    Inverse(t.effective) && Inverse(t.authed)
  }

  /** Addresses of different clients differ, and so do the two addresses of one client. */
  ghost predicate DistinctAddresses(t: Table) {
    var effective, authed := t.effective.ptrs, t.authed.ptrs;
    && (forall x, y :: x in effective && y in effective && x != y ==> effective[x].addr != effective[y].addr)
    && (forall x, y :: x in authed && y in authed && x != y ==> authed[x].addr != authed[y].addr)
    && (forall x, y :: x in effective && y in authed ==> effective[x].addr != authed[y].addr)
  }

  lemma ApartMeansDistinct(t: Table)
    requires Consistent(t) && Apart(t, None)
    ensures DistinctAddresses(t)
  {
  }

  /** With the maps in step and all addresses apart, the lookup is the scan, and the scan has one answer. */
  lemma LookupIsScan(t: Table, addr: Addr, found: Found)
    requires Consistent(t) && Apart(t, None)
    ensures ScanFinds(t, addr, found) <==> found == Lookup(t, addr)
    ensures ScanFinds(LookedUp(t, addr), addr, found) <==> ScanFinds(t, addr, found)
  {
    forall x | Holds(t.effective, x, addr)
      ensures addr in t.effective.index && t.effective.index[addr] == x && addr !in t.authed.index
    {
    }
    forall x | Holds(t.authed, x, addr)
      ensures addr in t.authed.index && t.authed.index[addr] == x && addr !in t.effective.index
    {
    }
  }

  /** Clearing a field keeps the map in step, whichever reference was given as the old one. */
  lemma ClearKeeps(col: Column, x: nat, bound: bool, prev: Option<Ptr>)
    requires Inverse(col) && (x in col.ptrs ==> bound)
    ensures Inverse(Set(col, x, bound, prev, None))
    ensures Set(col, x, bound, prev, None).index.Keys <= col.index.Keys
    ensures Set(col, x, bound, prev, None).ptrs.Keys <= col.ptrs.Keys
    ensures prev.None? ==> x !in Set(col, x, bound, prev, None).ptrs
  {
  }

  /** Swapping in a new address keeps the map in step exactly when the map does not hold that address yet. */
  lemma SetKeepsIff(col: Column, x: nat, next: Ptr)
    requires Inverse(col)
    ensures Inverse(Set(col, x, true, None, Some(next))) <==> next.addr !in col.index
    ensures next.addr !in col.index ==>
      Set(col, x, true, None, Some(next)).index.Keys <= col.index.Keys + {next.addr}
  {
    var after := Set(col, x, true, None, Some(next));
    if next.addr in col.index {
      var y := col.index[next.addr];
      if y == x {
        assert after.ptrs[x].addr !in after.index;
      } else {
        assert after.ptrs[y].addr == next.addr == after.ptrs[x].addr;
      }
    }
  }

  /**
   A timeout clears what it observed a heartbeat earlier.  It removes nothing but the
   observed reference exactly when it did observe one, or there is still none.
   */
  lemma TimeoutRemovesObserved(col: Column, x: nat, bound: bool, observed: Option<Ptr>)
    ensures
      var now, after := Current(col, x), Current(Set(col, x, bound, observed, None), x);
      after == (if now == observed then None else now) <==> observed.Some? || now.None?
  {
  }

  /** Every address belongs to a client bound to the endpoint. */
  ghost predicate Owned(t: Table) {
    forall x :: x in t.effective.ptrs || x in t.authed.ptrs ==> Bound(t, x)
  }

  /** Only open clients are bound. */
  ghost predicate OpenOnly(t: Table) {
    forall x :: Bound(t, x) ==> !t.clients[x].closed
  }

  ghost predicate Safe(t: Table, promoting: Option<nat>) {
    Consistent(t) && Owned(t) && Apart(t, promoting)
  }

  // ------------------------------------------------- what each operation keeps

  lemma ClearClientKeeps(t: Table, x: nat, prev: Option<Ptr>, promoting: Option<nat>)
    requires Safe(t, promoting)
    ensures Safe(SetClient(t, x, prev, None), promoting)
    ensures prev.None? ==> x !in SetClient(t, x, prev, None).effective.ptrs
  {
    ClearKeeps(t.effective, x, Bound(t, x), prev);
    var after := Set(t.effective, x, Bound(t, x), prev, None);
    assert forall a :: a in after.index ==> a in t.effective.index && after.index[a] == t.effective.index[a];
    assert forall y :: y in after.ptrs ==> y in t.effective.ptrs;
  }

  lemma ClearAuthedKeeps(t: Table, x: nat, prev: Option<Ptr>, promoting: Option<nat>)
    requires Safe(t, promoting)
    ensures Safe(SetAuthed(t, x, prev, None), promoting)
    ensures prev.None? ==> x !in SetAuthed(t, x, prev, None).authed.ptrs
    ensures prev.None? && promoting == Some(x) ==> Safe(SetAuthed(t, x, prev, None), None)
  {
    ClearKeeps(t.authed, x, Bound(t, x), prev);
    var after := Set(t.authed, x, Bound(t, x), prev, None);
    assert forall a :: a in after.index ==> a in t.authed.index && after.index[a] == t.authed.index[a];
    assert forall y :: y in after.ptrs ==> y in t.authed.ptrs;
  }

  lemma ClosedKeeps(t: Table, x: nat, promoting: Option<nat>)
    requires Safe(t, promoting) && x in t.clients
    ensures Safe(Closed(t, x), promoting)
    ensures OpenOnly(t) ==> OpenOnly(Closed(t, x))
  {
    ClearClientKeeps(t, x, None, promoting);
    ClearAuthedKeeps(SetClient(t, x, None, None), x, None, promoting);
  }

  /** A bound client may take an address that no client uses, or only itself, as its authenticated one. */
  lemma MoveKeeps(t: Table, x: nat, ptr: Ptr)
    requires Safe(t, None) && Bound(t, x) && ptr.addr !in t.effective.index
    requires ptr.addr in t.authed.index ==> t.authed.index[ptr.addr] == x
    ensures Safe(SetClient(t, x, None, Some(ptr)), Some(x))
  {
    SetKeepsIff(t.effective, x, ptr);
  }

  /** A promotion's first half leaves the promoted client alone with an address in both maps. */
  lemma PromotedKeeps(t: Table, x: nat)
    requires Safe(t, None) && x in t.authed.ptrs
    ensures Safe(Promoted(t, x), Some(x))
    ensures Holds(Promoted(t, x).effective, x, t.authed.ptrs[x].addr)
  {
    MoveKeeps(t, x, t.authed.ptrs[x]);
  }

  lemma ReauthenticatedKeeps(t: Table, x: nat, auth: Auth)
    requires Safe(t, None)
    ensures Safe(Reauthenticated(t, x, auth).0, None)
  {
    if auth.id != x {
      ClearAuthedKeeps(t, x, None, None);
    }
  }

  /** Binding a client, or giving it a new serial number, touches no address. */
  lemma RebindKeeps(t: Table, x: nat, client: Client)
    requires Safe(t, None) && client.bound
    ensures Safe(t.(clients := t.clients[x := client]), None)
  {
    hide Inverse;
  }

  lemma GrantKeeps(t: Table, x: nat, ptr: Ptr)
    requires Safe(t, None) && Bound(t, x) && ptr.addr !in t.effective.index && ptr.addr !in t.authed.index
    ensures Safe(SetAuthed(t, x, None, Some(ptr)), None)
  {
    SetKeepsIff(t.authed, x, ptr);
    hide Inverse;
  }

  lemma AuthenticatedKeeps(t: Table, addr: Addr, auth: Auth, id: nat)
    requires Safe(t, None) && addr !in t.effective.index && addr !in t.authed.index
    ensures Safe(Authenticated(t, addr, auth, id).0, None)
    ensures OpenOnly(t) ==> OpenOnly(Authenticated(t, addr, auth, id).0)
  {
    hide Safe, Set;
    var x := auth.id;
    var client := Known(t, x);
    if client.closed {
      assert t.clients[x := client] == t.clients;
    } else {
      var bound := t.(clients := t.clients[x := client.(bound := true)]);
      RebindKeeps(t, x, client.(bound := true));
      RebindKeeps(bound, x, client.(bound := true, serial := auth.serial));
      if auth.serial > client.serial {
        GrantKeeps(Recorded(bound, x, auth.serial), x, Ptr(id, addr));
      }
    }
  }

  /** Whatever arrives from wherever, a packet keeps the maps in step and the addresses apart. */
  lemma ReceivedKeeps(t: Table, addr: Addr, packet: Packet, id: nat)
    requires Safe(t, None)
    ensures Safe(Received(t, addr, packet, id).0, None)
    ensures OpenOnly(t) ==> OpenOnly(Received(t, addr, packet, id).0)
  {
    var after := LookedUp(t, addr);
    assert Safe(after, None);
    match Lookup(t, addr)
    case Effective(_) =>
    case Authed(x) =>
      if packet.auth.Some? {
        ReauthenticatedKeeps(after, x, packet.auth.value);
      } else {
        PromotedKeeps(after, x);
        ClearAuthedKeeps(Promoted(after, x), x, None, Some(x));
      }
    case Unknown =>
      UnknownIsUnused(t, addr);
      if packet.auth.Some? {
        AuthenticatedKeeps(after, addr, packet.auth.value, id);
      }
  }

  lemma UnknownIsUnused(t: Table, addr: Addr)
    requires Consistent(t) && Lookup(t, addr).Unknown?
    ensures addr !in t.effective.index && addr !in t.authed.index
  {
  }

  // --------------------------------------------------- what a packet comes to

  /** The address in a client's field, if there is one. */
  function AddrOf(col: Column, x: nat): Option<Addr> {
    if x in col.ptrs then Some(col.ptrs[x].addr) else None
  }

  ghost predicate NoneEffective(t: Table, addr: Addr) {
    forall y :: !Holds(t.effective, y, addr)
  }

  ghost predicate NoneAuthed(t: Table, addr: Addr) {
    forall y :: !Holds(t.authed, y, addr)
  }

  /** An authentication packet of client `x`, which is not closed, comes from an address nobody uses. */
  ghost predicate Binds(t: Table, addr: Addr, packet: Packet, x: nat) {
    && packet.auth.Some? && packet.auth.value.id == x
    && NoneEffective(t, addr) && NoneAuthed(t, addr) && !Known(t, x).closed
  }

  /** An authentication packet gives client `x` a new address: nobody uses it, and the serial number is larger. */
  ghost predicate Grants(t: Table, addr: Addr, packet: Packet, x: nat) {
    && packet.auth.Some? && packet.auth.value.id == x
    && NoneEffective(t, addr) && NoneAuthed(t, addr)
    && !Known(t, x).closed && packet.auth.value.serial > Known(t, x).serial
  }

  /** It repeats an authentication of `x` from the address `x` authenticated, with no smaller serial number. */
  ghost predicate Renews(t: Table, addr: Addr, packet: Packet, x: nat) {
    && packet.auth.Some? && packet.auth.value.id == x
    && NoneEffective(t, addr) && Holds(t.authed, x, addr)
    && packet.auth.value.serial >= Known(t, x).serial
  }

  /** It comes from the address `x` authenticated, and is no authentication packet. */
  ghost predicate Promotes(t: Table, addr: Addr, packet: Packet, x: nat) {
    packet.auth.None? && NoneEffective(t, addr) && Holds(t.authed, x, addr)
  }

  /** It comes from the address `x` authenticated, and names another client. */
  ghost predicate Refuses(t: Table, addr: Addr, packet: Packet, x: nat) {
    packet.auth.Some? && packet.auth.value.id != x && NoneEffective(t, addr) && Holds(t.authed, x, addr)
  }

  /** Exactly an authentication that is granted or renewed is acknowledged, with its own serial number. */
  ghost predicate AcksRightly(t: Table, addr: Addr, packet: Packet, ack: Option<nat>) {
    && (ack.Some? <==>
          packet.auth.Some?
          && (Grants(t, addr, packet, packet.auth.value.id) || Renews(t, addr, packet, packet.auth.value.id)))
    && (ack.Some? ==> packet.auth.Some? && ack.value == packet.auth.value.serial)
  }

  /** What becomes of client `x`: its serial number, its effective and its authenticated address. */
  ghost predicate ClientAfter(t: Table, addr: Addr, packet: Packet, t': Table, x: nat) {
    && Known(t', x).closed == Known(t, x).closed
    && (Known(t', x).bound <==> Known(t, x).bound || Binds(t, addr, packet, x))
    && Known(t', x).serial ==
         (if Grants(t, addr, packet, x) || Renews(t, addr, packet, x) then packet.auth.value.serial
          else Known(t, x).serial)
    && AddrOf(t'.effective, x) == (if Promotes(t, addr, packet, x) then Some(addr) else AddrOf(t.effective, x))
    && AddrOf(t'.authed, x) ==
         (if Grants(t, addr, packet, x) then Some(addr)
          else if Promotes(t, addr, packet, x) || Refuses(t, addr, packet, x) then None
          else AddrOf(t.authed, x))
  }

  /** A packet acknowledges what it should, and leaves every client as it should. */
  ghost predicate Settles(t: Table, addr: Addr, packet: Packet, t': Table, ack: Option<nat>) {
    AcksRightly(t, addr, packet, ack) && forall x :: ClientAfter(t, addr, packet, t', x)
  }

  lemma SetMeans(col: Column, x: nat, bound: bool, next: Option<Ptr>, y: nat)
    ensures AddrOf(Set(col, x, bound, None, next), y) ==
      if y == x then (if next.Some? then Some(next.value.addr) else None) else AddrOf(col, y)
  {
  }

  lemma ReauthenticatedMeans(t: Table, x: nat, addr: Addr, packet: Packet)
    requires packet.auth.Some? && NoneEffective(t, addr) && Holds(t.authed, x, addr)
    requires forall y :: Holds(t.authed, y, addr) ==> y == x
    ensures
      var (t', ack) := Reauthenticated(t, x, packet.auth.value);
      Settles(t, addr, packet, t', ack)
  {
    hide Set;
    var (t', ack) := Reauthenticated(t, x, packet.auth.value);
    forall y
      ensures ClientAfter(t, addr, packet, t', y)
    {
      SetMeans(t.authed, x, Bound(t, x), None, y);
    }
  }

  lemma AuthenticatedMeans(t: Table, addr: Addr, packet: Packet, id: nat)
    requires packet.auth.Some? && NoneEffective(t, addr) && NoneAuthed(t, addr)
    ensures
      var (t', ack) := Authenticated(t, addr, packet.auth.value, id);
      Settles(t, addr, packet, t', ack)
  {
    hide Set;
    var (t', ack) := Authenticated(t, addr, packet.auth.value, id);
    var x := packet.auth.value.id;
    forall y
      ensures ClientAfter(t, addr, packet, t', y)
    {
      SetMeans(t.authed, x, true, Some(Ptr(id, addr)), y);
    }
  }

  lemma PromotionMeans(t: Table, x: nat, addr: Addr, packet: Packet)
    requires packet.auth.None? && NoneEffective(t, addr) && Holds(t.authed, x, addr)
    requires forall y :: Holds(t.authed, y, addr) ==> y == x
    ensures Settles(t, addr, packet, SetAuthed(Promoted(t, x), x, None, None), None)
  {
    hide Set;
    forall y
      ensures ClientAfter(t, addr, packet, SetAuthed(Promoted(t, x), x, None, None), y)
    {
      SetMeans(t.effective, x, Bound(t, x), Some(t.authed.ptrs[x]), y);
      SetMeans(t.authed, x, Bound(t, x), None, y);
    }
  }

  /** Looking up changes no client. */
  lemma SameButCache(t: Table, cache: Option<nat>, addr: Addr, packet: Packet, t': Table, ack: Option<nat>)
    requires Settles(t.(cache := cache), addr, packet, t', ack)
    ensures Settles(t, addr, packet, t', ack)
  {
    forall x
      ensures ClientAfter(t, addr, packet, t', x)
    {
      assert ClientAfter(t.(cache := cache), addr, packet, t', x);
    }
  }

  /** The endpoint's work on a packet, told by what a scan of the clients before it finds. */
  lemma ReceivedMeans(t: Table, addr: Addr, packet: Packet, id: nat)
    requires Safe(t, None)
    ensures
      var (t', ack) := Received(t, addr, packet, id);
      Settles(t, addr, packet, t', ack)
  {
    hide Set, Settles, Reauthenticated, Authenticated;
    var after := LookedUp(t, addr);
    var (t', ack) := Received(t, addr, packet, id);
    LookupIsScan(t, addr, Lookup(t, addr));
    assert Settles(after, addr, packet, t', ack) by {
      match Lookup(t, addr)
      case Effective(x) => NothingSettles(after, addr, packet);
      case Authed(x) =>
        forall y | Holds(t.authed, y, addr)
          ensures y == x
        {
          LookupIsScan(t, addr, Authed(y));
        }
        if packet.auth.Some? {
          ReauthenticatedMeans(after, x, addr, packet);
        } else {
          PromotionMeans(after, x, addr, packet);
        }
      case Unknown =>
        if packet.auth.Some? {
          AuthenticatedMeans(after, addr, packet, id);
        } else {
          NothingSettles(after, addr, packet);
        }
    }
    SameButCache(t, after.cache, addr, packet, t', ack);
  }

  lemma NothingSettles(t: Table, addr: Addr, packet: Packet)
    requires !NoneEffective(t, addr) || (packet.auth.None? && NoneAuthed(t, addr))
    ensures Settles(t, addr, packet, t, None)
  {
  }

  /** Whom a packet is handed to once it was worked on: the client its address is then effective for. */
  lemma DeliveryMeans(t: Table, addr: Addr, packet: Packet, id: nat)
    requires Safe(t, None)
    ensures
      var t', found := Received(t, addr, packet, id).0, Lookup(t, addr);
      if found.Effective? || (found.Authed? && packet.auth.None?) then Holds(t'.effective, found.client, addr)
      else NoneEffective(t', addr)
  {
    hide Set;
    var t' := Received(t, addr, packet, id).0;
    ReceivedMeans(t, addr, packet, id);
    var found := Lookup(t, addr);
    LookupIsScan(t, addr, found);
    if found.Effective? || (found.Authed? && packet.auth.None?) {
      assert ClientAfter(t, addr, packet, t', found.client);
      assert AddrOf(t'.effective, found.client) == Some(addr);
    } else {
      forall x
        ensures !Holds(t'.effective, x, addr)
      {
        assert ClientAfter(t, addr, packet, t', x);
        assert !Holds(t.effective, x, addr);
      }
    }
  }

  class UdpFrontend {
    var clients: map<nat, Client>
    var clientAddr: map<nat, Ptr>
    var authedAddr: map<nat, Ptr>
    var clientMap: map<Addr, nat>
    var authedMap: map<Addr, nat>
    var cacheClient: Option<nat>
    var refs: nat

    function Value(): Table
      reads this
    {
      Table(clients, Column(clientAddr, clientMap), Column(authedAddr, authedMap), cacheClient)
    }

    ghost predicate Valid()
      reads this
    {
      Safe(Value(), None) && OpenOnly(Value())
    }

    constructor ()
      ensures Valid() && Value() == Table(map[], Column(map[], map[]), Column(map[], map[]), None)
    {
      clients, clientAddr, authedAddr, clientMap, authedMap := map[], map[], map[], map[], map[];
      cacheClient, refs := None, 0;
    }

    method SetClientAddr(x: nat, prev: Option<Ptr>, next: Option<Ptr>)
      modifies `clientAddr, `clientMap
      ensures Value() == SetClient(old(Value()), x, prev, next)
    {
      var current := if x in clientAddr then Some(clientAddr[x]) else None;
      var removed := None;
      if prev.None? || current == prev {
        removed := current;
        clientAddr := if next.Some? then clientAddr[x := next.value] else clientAddr - {x};
      }
      var bound := x in clients && clients[x].bound;
      if next.Some? && bound && x in clientAddr {
        clientMap := clientMap[clientAddr[x].addr := x];
      }
      if removed.Some? && bound {
        clientMap := clientMap - {removed.value.addr};
      }
    }

    method SetAuthedAddr(x: nat, prev: Option<Ptr>, next: Option<Ptr>)
      modifies `authedAddr, `authedMap
      ensures Value() == SetAuthed(old(Value()), x, prev, next)
    {
      var current := if x in authedAddr then Some(authedAddr[x]) else None;
      var removed := None;
      if prev.None? || current == prev {
        removed := current;
        authedAddr := if next.Some? then authedAddr[x := next.value] else authedAddr - {x};
      }
      var bound := x in clients && clients[x].bound;
      if next.Some? && bound && x in authedAddr {
        authedMap := authedMap[authedAddr[x].addr := x];
      }
      if removed.Some? && bound {
        authedMap := authedMap - {removed.value.addr};
      }
    }

    method Close(x: nat)
      requires Valid() && x in clients
      modifies `clients, `clientAddr, `authedAddr, `clientMap, `authedMap
      ensures Valid() && Value() == Closed(old(Value()), x)
      ensures x !in clientAddr && x !in authedAddr
    {
      ClosedKeeps(Value(), x, None);
      if clients[x].closed {
        return;
      }
      SetClientAddr(x, None, None);
      SetAuthedAddr(x, None, None);
      clients := clients[x := clients[x].(closed := true, bound := false)];
    }

    /** Finds the client of an address through the cache and the maps. */
    method GetClient(addr: Addr) returns (found: Found)
      requires Valid()
      modifies `cacheClient
      ensures Valid() && found == Lookup(old(Value()), addr) && Value() == LookedUp(old(Value()), addr)
      ensures ScanFinds(Value(), addr, found)
    {
      LookupIsScan(Value(), addr, Lookup(Value(), addr));
      if cacheClient.Some? {
        if Holds(Column(clientAddr, clientMap), cacheClient.value, addr) {
          return Effective(cacheClient.value);
        }
        if Holds(Column(authedAddr, authedMap), cacheClient.value, addr) {
          return Authed(cacheClient.value);
        }
      }
      if addr in clientMap && Holds(Column(clientAddr, clientMap), clientMap[addr], addr) {
        cacheClient := Some(clientMap[addr]);
        return Effective(clientMap[addr]);
      }
      if addr in authedMap && Holds(Column(authedAddr, authedMap), authedMap[addr], addr) {
        return Authed(authedMap[addr]);
      }
      return Unknown;
    }

    /** One packet: the client it is handed to, if any, and the serial number acknowledged, if any. */
    method Receive(addr: Addr, packet: Packet) returns (delivered: Option<nat>, ack: Option<nat>)
      requires Valid()
      modifies this
      ensures Valid()
      ensures (Value(), ack) == Received(old(Value()), addr, packet, old(refs))
      ensures Settles(old(Value()), addr, packet, Value(), ack)
      ensures delivered.Some? ==> packet.len > SAFE_TO_DROP && Holds(Value().effective, delivered.value, addr)
      ensures delivered.None? ==> packet.len <= SAFE_TO_DROP || forall x :: !Holds(Value().effective, x, addr)
      ensures refs >= old(refs)
    {
      ReceivedKeeps(Value(), addr, packet, refs);
      ReceivedMeans(Value(), addr, packet, refs);
      DeliveryMeans(Value(), addr, packet, refs);
      hide Settles, Safe, OpenOnly, Reauthenticated, Authenticated, ScanFinds;
      delivered, ack := None, None;
      var found := GetClient(addr);
      match found
      case Effective(x) =>
        delivered := if packet.len <= SAFE_TO_DROP then None else Some(x);
      case Authed(x) =>
        if packet.auth.None? {
          SetClientAddr(x, None, Some(authedAddr[x]));
          SetAuthedAddr(x, None, None);
          delivered := if packet.len <= SAFE_TO_DROP then None else Some(x);
        } else {
          ack := Renew(x, packet.auth.value);
        }
      case Unknown =>
        if packet.auth.Some? {
          ack := Admit(addr, packet.auth.value);
        }
    }

    method Renew(x: nat, auth: Auth) returns (ack: Option<nat>)
      modifies this
      ensures (Value(), ack) == Reauthenticated(old(Value()), x, auth)
      ensures ack.Some? <==> auth.id == x && auth.serial >= old(Known(Value(), x).serial)
      ensures ack.Some? ==> ack.value == auth.serial == Known(Value(), x).serial && authedAddr == old(authedAddr)
      ensures ack.None? ==> clients == old(clients)
      ensures authedAddr == if auth.id == x then old(authedAddr) else old(authedAddr) - {x}
      ensures refs == old(refs) && clientAddr == old(clientAddr)
    {
      ack := None;
      if auth.id != x {
        SetAuthedAddr(x, None, None);
        return;
      }
      var serial := if x in clients then clients[x].serial else 0;
      if auth.serial < serial {
        return;
      }
      clients := clients[x := Known(Value(), x).(serial := auth.serial)];
      ack := Some(auth.serial);
    }

    method Admit(addr: Addr, auth: Auth) returns (ack: Option<nat>)
      modifies this
      ensures (Value(), ack) == Authenticated(old(Value()), addr, auth, old(refs))
      ensures
        var client := old(Known(Value(), auth.id));
        && (ack.Some? <==> !client.closed && auth.serial > client.serial)
        && (ack.Some? ==> ack.value == auth.serial == Known(Value(), auth.id).serial)
        && Known(Value(), auth.id).closed == client.closed
      ensures AddrOf(Value().authed, auth.id) == if ack.Some? then Some(addr) else old(AddrOf(Value().authed, auth.id))
      ensures ack.None? ==> authedAddr == old(authedAddr)
      ensures refs >= old(refs) && clientAddr == old(clientAddr)
    {
      ack := None;
      var x := auth.id;
      var client := Known(Value(), x);
      clients := clients[x := client];
      if client.closed {
        return;
      }
      clients := clients[x := client.(bound := true)];
      assert clients == old(clients)[x := client.(bound := true)];
      if auth.serial <= client.serial {
        return;
      }
      clients := clients[x := client.(bound := true, serial := auth.serial)];
      refs := refs + 1;
      SetAuthedAddr(x, None, Some(Ptr(refs - 1, addr)));
      ack := Some(auth.serial);
    }
  }
}
