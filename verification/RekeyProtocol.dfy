/**
 The rekey protocol between the two ends.

 Public keys travel on the bus, which is ordered and reliable until a send fails.
 Data packets travel on a network that loses, duplicates and reorders: each
 direction is the set of keys under which some packet was ever sealed, and any of
 them may arrive at any time.  Every step is one critical section of the program,
 so that a new rekey can start between the client's installation of a key and its
 clearing of the private key it used.
 */
module RekeyProtocol {
  import opened Options
  import opened Rekey

  /** The goroutine that carries out a rekey. */
  datatype Job = Resting | Generating | Sending(pub: nat)

  datatype Client = Client(side: Side, inFlight: bool, job: Job, pri: Option<nat>, clearing: Option<nat>)

  /** Public keys under way: each is named after its private number. */
  datatype Bus = Bus(toServer: seq<nat>, toClient: seq<nat>)

  /** Keys that some packet was sealed under. */
  datatype Packets = Packets(up: set<Key>, down: set<Key>)

  /** Private numbers not yet used. */
  datatype Unused = Unused(client: nat, server: nat)

  datatype Ends = Ends(client: Client, server: Side)

  datatype State = State(ends: Ends, bus: Bus, packets: Packets, unused: Unused)

  datatype Action =
    | StartRekey
    | Generate
    | SendPub
    | SendFails
    | ServerRekey(replied: bool)
    | ClientRekey
    | ClearPri
    | ClientSeals
    | ServerSeals
    | ClientOpens(key: Key)
    | ServerOpens(key: Key)

  const INIT := State(
    Ends(Client(Side([Initial], 0), false, Resting, None, None), Side([Initial], 0)),
    Bus([], []), Packets({}, {}), Unused(0, 0))

  predicate CanHappen(s: State, a: Action) {
    var client := s.ends.client;
    match a
    case StartRekey => !client.inFlight
    case Generate => client.job.Generating?
    case SendPub => client.job.Sending?
    case SendFails => !client.job.Resting?
    case ServerRekey(_) => s.bus.toServer != []
    case ClientRekey => s.bus.toClient != [] && client.clearing.None?
    case ClearPri => client.clearing.Some?
    case ClientSeals => client.side.active < |client.side.keys|
    case ServerSeals => s.ends.server.active < |s.ends.server.keys|
    case ClientOpens(key) => key in s.packets.down
    case ServerOpens(key) => key in s.packets.up
  }

  function WithClient(s: State, client: Client): State {
    s.(ends := Ends(client, s.ends.server))
  }

  function Next(s: State, a: Action): State
    requires CanHappen(s, a)
  {
    var client, server := s.ends.client, s.ends.server;
    match a
    case StartRekey =>
      WithClient(s, client.(inFlight := true, job := Generating))
    case Generate =>
      WithClient(s, client.(job := Sending(s.unused.client), pri := Some(s.unused.client)))
      .(unused := Unused(s.unused.client + 1, s.unused.server))
    case SendPub =>
      WithClient(s, client.(job := Resting))
      .(bus := Bus(s.bus.toServer + [client.job.pub], s.bus.toClient))
    case SendFails =>
      WithClient(s, client.(job := Resting, inFlight := false))
    case ServerRekey(replied) =>
      var key := Derived(s.bus.toServer[0], s.unused.server);
      State(Ends(client, Installed(server, key, false)),
            Bus(s.bus.toServer[1..], s.bus.toClient + if replied then [s.unused.server] else []),
            s.packets,
            Unused(s.unused.client, s.unused.server + 1))
    case ClientRekey =>
      var rest := Bus(s.bus.toServer, s.bus.toClient[1..]);
      if client.pri.None? then s.(bus := rest)
      else
        var key := Derived(client.pri.value, s.bus.toClient[0]);
        var installed := Installed(client.side, key, true);
        WithClient(s, Client(installed, false, client.job, client.pri, client.pri)).(bus := rest)
    case ClearPri =>
      WithClient(s, client.(pri := if client.pri == client.clearing then None else client.pri, clearing := None))
    case ClientSeals =>
      s.(packets := Packets(s.packets.up + {client.side.keys[client.side.active]}, s.packets.down))
    case ServerSeals =>
      s.(packets := Packets(s.packets.up, s.packets.down + {server.keys[server.active]}))
    case ClientOpens(key) =>
      WithClient(s, client.(side := Opened(client.side, key)))
    case ServerOpens(key) =>
      s.(ends := Ends(client, Opened(server, key)))
  }

  predicate Steps(s: State, a: Action, s': State) {
    CanHappen(s, a) && s' == Next(s, a)
  }

  ghost predicate IsRun(states: seq<State>, actions: seq<Action>) {
    && |states| == |actions| + 1
    && states[0] == INIT
    && forall k :: 0 <= k < |actions| ==> Steps(states[k], actions[k], states[k + 1])
  }

  // ---------------------------------------------------------------- invariant

  /** Where the two lists lie in the agreed key sequence. */
  datatype View = View(chain: seq<Key>, clientFrom: nat, clientTo: nat, serverFrom: nat)

  ghost predicate Distinct(chain: seq<Key>) {
    forall i, j :: 0 <= i < j < |chain| ==> chain[i] != chain[j]
  }

  ghost predicate Windows(ends: Ends, v: View) {
    && Distinct(v.chain)
    && 0 <= v.clientFrom <= v.serverFrom < v.clientTo <= |v.chain|
    && ends.client.side.keys == v.chain[v.clientFrom..v.clientTo]
    && ends.server == Side(v.chain[v.serverFrom..], 0)
    && ends.client.side.active < |ends.client.side.keys|
  }

  ghost predicate Sealed(packets: Packets, v: View)
    requires 0 <= v.serverFrom < v.clientTo <= |v.chain|
  {
    && (forall key :: key in packets.up ==> key in v.chain[..v.clientTo])
    && (forall key :: key in packets.down ==> key in v.chain[..v.serverFrom + 1])
  }

  ghost predicate Young(chain: seq<Key>, unused: nat) {
    forall i :: 0 <= i < |chain| ==> chain[i].Initial? || chain[i].server < unused
  }

  /** A rekey under way is in exactly one place, and until it lands the client keeps its private number. */
  ghost predicate Flight(client: Client, bus: Bus, v: View) {
    && (!client.inFlight ==> client.job.Resting? && bus == Bus([], []) && v.clientTo == |v.chain|)
    && (!client.job.Resting? ==> bus == Bus([], []) && v.clientTo == |v.chain|)
    && (client.job.Sending? ==> client.pri == Some(client.job.pub))
    && (bus.toServer != [] ==>
          && client.pri.Some? && bus.toServer == [client.pri.value] && bus.toClient == []
          && v.clientTo == |v.chain|)
    && (bus.toClient != [] ==>
          && client.pri.Some? && |bus.toClient| == 1 && bus.toServer == []
          && v.clientTo + 1 == |v.chain|
          && v.chain[v.clientTo] == Derived(client.pri.value, bus.toClient[0]))
    && v.clientTo <= |v.chain| <= v.clientTo + 1
  }

  /** The number still to be cleared is older than the one in use, if one is. */
  ghost predicate Clearing(client: Client, unused: nat) {
    && (client.pri.Some? ==> client.pri.value < unused)
    && (client.clearing.Some? ==> client.clearing.value < unused)
    && (client.clearing.Some? && client.inFlight && !client.job.Generating? ==> client.pri != client.clearing)
  }

  ghost predicate Inv(s: State, v: View) {
    && Windows(s.ends, v)
    && Sealed(s.packets, v)
    && Young(v.chain, s.unused.server)
    && Flight(s.ends.client, s.bus, v)
    && Clearing(s.ends.client, s.unused.client)
  }

  // ------------------------------------------------------- lists as windows

  /** In a window of distinct keys, the key of index `m` is found at distance `m` from its start. */
  lemma FoundInWindow(chain: seq<Key>, lo: nat, hi: nat, m: nat)
    requires Distinct(chain) && lo <= hi <= |chain| && m < |chain|
    ensures Find(chain[lo..hi], chain[m]) == if lo <= m < hi then m - lo else -1
  {
    var keys := chain[lo..hi];
    if lo <= m < hi {
      assert keys[m - lo] == chain[m];
      assert chain[m] !in keys[..m - lo];
      FirstFound(keys, chain[m], m - lo);
    } else {
      assert chain[m] !in keys;
    }
  }

  /** Opening a packet of index `m` moves the window's start to `m`, and nothing else, when `m` lies inside it. */
  lemma OpenedWindow(side: Side, chain: seq<Key>, lo: nat, hi: nat, m: nat)
    requires Distinct(chain) && lo <= hi <= |chain| && m < |chain|
    requires side.keys == chain[lo..hi]
    ensures Opened(side, chain[m]) == if lo < m < hi then Side(chain[m..hi], 0) else side
  {
    FoundInWindow(chain, lo, hi, m);
    if lo < m < hi {
      assert chain[lo..hi][m - lo..] == chain[m..hi];
    }
  }

  // ----------------------------------------------------------- preservation

  /** The view after a step. */
  ghost function NextView(s: State, a: Action, v: View): View
    requires CanHappen(s, a)
  {
    match a
    case ServerRekey(_) => v.(chain := v.chain + [Derived(s.bus.toServer[0], s.unused.server)])
    case ClientRekey => if s.ends.client.pri.None? then v else v.(clientTo := v.clientTo + 1)
    case ClientOpens(key) =>
      var i := Find(s.ends.client.side.keys, key);
      if i > 0 then v.(clientFrom := v.clientFrom + i) else v
    case ServerOpens(key) =>
      var i := Find(s.ends.server.keys, key);
      if i > 0 then v.(serverFrom := v.serverFrom + i) else v
    case _ => v
  }

  lemma ServerRekeyKeeps(s: State, a: Action, v: View)
    requires Inv(s, v) && CanHappen(s, a) && a.ServerRekey?
    ensures Inv(Next(s, a), NextView(s, a, v))
  {
    var v' := NextView(s, a, v);
    assert v'.chain[v.clientFrom..v.clientTo] == v.chain[v.clientFrom..v.clientTo];
    assert v'.chain[v.serverFrom..] == v.chain[v.serverFrom..] + [v'.chain[|v.chain|]];
    assert v'.chain[..v.clientTo] == v.chain[..v.clientTo];
    assert v'.chain[..v.serverFrom + 1] == v.chain[..v.serverFrom + 1];
  }

  lemma ClientRekeyKeeps(s: State, a: Action, v: View)
    requires Inv(s, v) && CanHappen(s, a) && a.ClientRekey?
    ensures Inv(Next(s, a), NextView(s, a, v))
  {
    assert v.chain[v.clientFrom..v.clientTo + 1] == v.chain[v.clientFrom..v.clientTo] + [v.chain[v.clientTo]];
    assert v.chain[..v.clientTo + 1] == v.chain[..v.clientTo] + [v.chain[v.clientTo]];
  }

  function AfterClientOpens(ends: Ends, key: Key): Ends {
    Ends(ends.client.(side := Opened(ends.client.side, key)), ends.server)
  }

  /** The client's window after it opens a packet, which the server sealed. */
  lemma ClientOpensWindow(ends: Ends, key: Key, v: View)
    requires Windows(ends, v) && key in v.chain[..v.serverFrom + 1]
    ensures
      var i := Find(ends.client.side.keys, key);
      Windows(AfterClientOpens(ends, key), if i > 0 then v.(clientFrom := v.clientFrom + i) else v)
  {
    hide Distinct, Find, Opened;
    var m :| 0 <= m <= v.serverFrom && v.chain[m] == key;
    FoundInWindow(v.chain, v.clientFrom, v.clientTo, m);
    OpenedWindow(ends.client.side, v.chain, v.clientFrom, v.clientTo, m);
  }

  lemma ClientOpensKeeps(s: State, a: Action, v: View)
    requires Inv(s, v) && CanHappen(s, a) && a.ClientOpens?
    ensures Inv(Next(s, a), NextView(s, a, v))
  {
    hide Opened, Find, Distinct;
    ClientOpensWindow(s.ends, a.key, v);
  }

  /** The server's window after it opens a packet, which the client sealed. */
  lemma ServerOpensWindow(ends: Ends, key: Key, v: View)
    requires Windows(ends, v) && key in v.chain[..v.clientTo]
    ensures
      var i := Find(ends.server.keys, key);
      Windows(Ends(ends.client, Opened(ends.server, key)), if i > 0 then v.(serverFrom := v.serverFrom + i) else v)
  {
    hide Distinct, Find, Opened;
    var m :| 0 <= m < v.clientTo && v.chain[m] == key;
    assert v.chain[v.serverFrom..|v.chain|] == v.chain[v.serverFrom..];
    FoundInWindow(v.chain, v.serverFrom, |v.chain|, m);
    OpenedWindow(ends.server, v.chain, v.serverFrom, |v.chain|, m);
    assert v.chain[m..|v.chain|] == v.chain[m..];
  }

  lemma SealedLater(packets: Packets, v: View, n: nat)
    requires v.serverFrom <= n < v.clientTo <= |v.chain| && Sealed(packets, v)
    ensures Sealed(packets, v.(serverFrom := n))
  {
    assert v.chain[..v.serverFrom + 1] == v.chain[..n + 1][..v.serverFrom + 1];
  }

  lemma ServerOpensKeeps(s: State, a: Action, v: View)
    requires Inv(s, v) && CanHappen(s, a) && a.ServerOpens?
    ensures Inv(Next(s, a), NextView(s, a, v))
  {
    hide Opened, Find, Distinct;
    ServerOpensWindow(s.ends, a.key, v);
    SealedLater(s.packets, v, NextView(s, a, v).serverFrom);
  }

  lemma SealsKeeps(s: State, a: Action, v: View)
    requires Inv(s, v) && CanHappen(s, a) && (a.ClientSeals? || a.ServerSeals?)
    ensures Inv(Next(s, a), v)
  {
    if a.ClientSeals? {
      var side := s.ends.client.side;
      assert side.keys[side.active] == v.chain[..v.clientTo][v.clientFrom + side.active];
    } else {
      assert s.ends.server.keys[0] == v.chain[..v.serverFrom + 1][v.serverFrom];
    }
  }

  lemma StepKeeps(s: State, a: Action, v: View)
    requires Inv(s, v) && CanHappen(s, a)
    ensures Inv(Next(s, a), NextView(s, a, v))
  {
    match a
    case ServerRekey(_) => ServerRekeyKeeps(s, a, v);
    case ClientRekey => ClientRekeyKeeps(s, a, v);
    case ClientOpens(_) => ClientOpensKeeps(s, a, v);
    case ServerOpens(_) => ServerOpensKeeps(s, a, v);
    case ClientSeals => SealsKeeps(s, a, v);
    case ServerSeals => SealsKeeps(s, a, v);
    case _ =>
  }

  lemma {:induction false} RunsKeepInv(states: seq<State>, actions: seq<Action>, k: nat) returns (v: View)
    requires IsRun(states, actions) && k < |states|
    ensures Inv(states[k], v)
  {
    if k == 0 {
      v := View([Initial], 0, 1, 0);
    } else {
      v := RunsKeepInv(states, actions, k - 1);
      assert Steps(states[k - 1], actions[k - 1], states[k - 1 + 1]);
      StepKeeps(states[k - 1], actions[k - 1], v);
      v := NextView(states[k - 1], actions[k - 1], v);
    }
  }

  // ---------------------------------------------------------------- theorems

  ghost predicate Window(keys: seq<Key>, chain: seq<Key>, lo: nat) {
    lo + |keys| <= |chain| && keys == chain[lo..lo + |keys|]
  }

  /** A packet sealed by the client now opens at the server now. */
  ghost predicate UplinkOpen(ends: Ends) {
    var client := ends.client.side;
    client.active < |client.keys| && client.keys[client.active] in ends.server.keys
  }

  /** A packet sealed by the server now opens at the client now. */
  ghost predicate DownlinkOpen(ends: Ends) {
    var server := ends.server;
    server.active < |server.keys| && server.keys[server.active] in ends.client.side.keys
  }

  /**
   Whatever the network does, the two lists are contiguous windows of one sequence of
   distinct keys, the server seals under the first key of its list, and the client
   holds that key: the downlink is always open.
   */
  lemma DownlinkAlwaysOpen(states: seq<State>, actions: seq<Action>, k: nat)
    requires IsRun(states, actions) && k < |states|
    ensures exists chain, lo, hi ::
      && Distinct(chain)
      && Window(states[k].ends.client.side.keys, chain, lo) && Window(states[k].ends.server.keys, chain, hi)
    ensures states[k].ends.server.active == 0
    ensures DownlinkOpen(states[k].ends)
  {
    var v := RunsKeepInv(states, actions, k);
    var ends := states[k].ends;
    assert Window(ends.client.side.keys, v.chain, v.clientFrom);
    assert v.chain[v.serverFrom..] == v.chain[v.serverFrom..|v.chain|];
    assert Window(ends.server.keys, v.chain, v.serverFrom);
    assert ends.server.keys[0] == ends.client.side.keys[v.serverFrom - v.clientFrom];
  }

  /** The uplink is open exactly when the client's active key is not older than the server's head. */
  lemma UplinkByIndex(ends: Ends, v: View)
    requires Windows(ends, v)
    ensures UplinkOpen(ends) <==> v.clientFrom + ends.client.side.active >= v.serverFrom
    ensures UplinkOpen(ends) ==>
      var client := ends.client.side;
      Find(ends.server.keys, client.keys[client.active]) == v.clientFrom + client.active - v.serverFrom
  {
    var m := v.clientFrom + ends.client.side.active;
    assert ends.client.side.keys[ends.client.side.active] == v.chain[m];
    assert v.chain[v.serverFrom..|v.chain|] == v.chain[v.serverFrom..];
    FoundInWindow(v.chain, v.serverFrom, |v.chain|, m);
  }

  /** With a single key in the client's list, the uplink is open. */
  lemma SingleKeyUplink(states: seq<State>, actions: seq<Action>, k: nat)
    requires IsRun(states, actions) && k < |states|
    requires |states[k].ends.client.side.keys| == 1
    ensures UplinkOpen(states[k].ends)
  {
    var v := RunsKeepInv(states, actions, k);
    UplinkByIndex(states[k].ends, v);
  }

  /** Where a packet the server sealed lies in the two windows. */
  lemma Located(ends: Ends, key: Key, v: View) returns (m: nat)
    requires Windows(ends, v) && key in v.chain[..v.serverFrom + 1]
    ensures m <= v.serverFrom
    ensures Find(ends.client.side.keys, key) == if v.clientFrom <= m then m - v.clientFrom else -1
    ensures key == ends.server.keys[0] ==> m == v.serverFrom
  {
    m :| 0 <= m <= v.serverFrom && v.chain[m] == key;
    FoundInWindow(v.chain, v.clientFrom, v.clientTo, m);
    assert v.chain[v.serverFrom..|v.chain|] == v.chain[v.serverFrom..];
    FoundInWindow(v.chain, v.serverFrom, |v.chain|, m);
  }

  lemma ClientOpensActive(ends: Ends, key: Key, v: View, m: nat)
    requires Find(ends.client.side.keys, key) == if v.clientFrom <= m then m - v.clientFrom else -1
    ensures AfterClientOpens(ends, key).client.side.active == if v.clientFrom < m then 0 else ends.client.side.active
  {
  }

  /** A packet under the server's current key opens the uplink. */
  lemma CurrentPacketUplink(ends: Ends, key: Key, v: View)
    requires Windows(ends, v) && key in v.chain[..v.serverFrom + 1] && key == ends.server.keys[0]
    ensures UplinkOpen(AfterClientOpens(ends, key))
  {
    hide Windows, Distinct, Find, Opened, UplinkOpen;
    var m := Located(ends, key, v);
    ClientOpensWindow(ends, key, v);
    ClientOpensActive(ends, key, v, m);
    UplinkByIndex(ends, v);
    UplinkByIndex(AfterClientOpens(ends, key), if m > v.clientFrom then v.(clientFrom := m) else v);
  }

  /** Opening one packet sealed under the server's current key leaves both directions open. */
  lemma CurrentPacketReopens(states: seq<State>, actions: seq<Action>, k: nat)
    requires IsRun(states, actions) && k < |actions|
    requires actions[k].ClientOpens? && [actions[k].key] <= states[k].ends.server.keys
    ensures UplinkOpen(states[k + 1].ends) && DownlinkOpen(states[k + 1].ends)
  {
    var v := RunsKeepInv(states, actions, k);
    assert Steps(states[k], actions[k], states[k + 1]);
    CurrentPacketUplink(states[k].ends, actions[k].key, v);
    DownlinkAlwaysOpen(states, actions, k + 1);
  }

  /**
   In any state whatever, a packet arriving at the client keeps an open uplink open exactly
   when it does not open, or opens under the client's oldest key, or under one the server
   still holds.
   */
  lemma ClientOpensRule(ends: Ends, key: Key)
    requires UplinkOpen(ends)
    ensures
      var client, server := ends.client.side.keys, ends.server.keys;
      UplinkOpen(AfterClientOpens(ends, key)) <==> key !in client || key == client[0] || key in server
  {
  }

  /** What a packet arriving at the server does to the uplink. */
  lemma ServerOpensUplink(ends: Ends, key: Key, v: View)
    requires Windows(ends, v) && key in v.chain[..v.clientTo] && UplinkOpen(ends)
    ensures
      var client, server := ends.client.side, ends.server.keys;
      UplinkOpen(Ends(ends.client, Opened(ends.server, key))) <==>
        Find(server, key) <= Find(server, client.keys[client.active])
  {
    hide Windows, Distinct, Find, Opened, UplinkOpen;
    ServerOpensWindow(ends, key, v);
    UplinkByIndex(ends, v);
    var i := Find(ends.server.keys, key);
    UplinkByIndex(Ends(ends.client, Opened(ends.server, key)), if i > 0 then v.(serverFrom := v.serverFrom + i) else v);
  }

  /**
   A packet arriving at the server keeps an open uplink open exactly when its key is not
   newer than the key the client seals under now.
   */
  lemma ServerOpensRule(states: seq<State>, actions: seq<Action>, k: nat)
    requires IsRun(states, actions) && k < |actions| && actions[k].ServerOpens? && UplinkOpen(states[k].ends)
    ensures
      var client, server := states[k].ends.client.side, states[k].ends.server.keys;
      UplinkOpen(states[k + 1].ends) <==> Find(server, actions[k].key) <= Find(server, client.keys[client.active])
  {
    var v := RunsKeepInv(states, actions, k);
    assert Steps(states[k], actions[k], states[k + 1]);
    ServerOpensUplink(states[k].ends, actions[k].key, v);
  }

  /** Every other step keeps an open uplink open. */
  lemma OtherStepsKeepUplink(s: State, a: Action, v: View)
    requires Inv(s, v) && CanHappen(s, a) && !a.ClientOpens? && !a.ServerOpens? && UplinkOpen(s.ends)
    ensures UplinkOpen(Next(s, a).ends)
  {
    StepKeeps(s, a, v);
    hide Windows, UplinkOpen, Sealed, Young;
    UplinkByIndex(s.ends, v);
    UplinkByIndex(Next(s, a).ends, NextView(s, a, v));
    if a.ClientRekey? {
      WindowSize(s.ends, v);
    }
  }

  lemma WindowSize(ends: Ends, v: View)
    requires Windows(ends, v)
    ensures |ends.client.side.keys| == v.clientTo - v.clientFrom && v.serverFrom < v.clientTo
  {
  }

  /** A packet that arrives does not take one end away from the key the other one uses. */
  ghost predicate Harmless(ends: Ends, a: Action) {
    var client, server := ends.client.side, ends.server.keys;
    && (a.ClientOpens? ==> a.key !in client.keys || a.key == client.keys[0] || a.key in server)
    && (a.ServerOpens? && client.active < |client.keys| ==>
          Find(server, a.key) <= Find(server, client.keys[client.active]))
  }

  lemma StepUplinkIff(s: State, a: Action, v: View)
    requires Inv(s, v) && CanHappen(s, a) && UplinkOpen(s.ends)
    ensures UplinkOpen(Next(s, a).ends) <==> Harmless(s.ends, a)
  {
    if a.ClientOpens? {
      ClientOpensRule(s.ends, a.key);
    } else if a.ServerOpens? {
      ServerOpensUplink(s.ends, a.key, v);
    } else {
      OtherStepsKeepUplink(s, a, v);
    }
  }

  ghost predicate AllHarmless(states: seq<State>, actions: seq<Action>, k: nat)
    requires |states| == |actions| + 1 && k <= |actions|
  {
    forall i :: 0 <= i < k ==> Harmless(states[i].ends, actions[i])
  }

  ghost predicate AllOpen(states: seq<State>, k: nat)
    requires k < |states|
  {
    forall i :: 0 <= i <= k ==> UplinkOpen(states[i].ends)
  }

  /** The uplink stays open throughout a run exactly when every packet that arrives in it is harmless. */
  lemma {:induction false} UplinkOpenIff(states: seq<State>, actions: seq<Action>, k: nat)
    requires IsRun(states, actions) && k < |states|
    ensures AllOpen(states, k) <==> AllHarmless(states, actions, k)
  {
    if k == 0 {
      assert UplinkOpen(INIT.ends);
    } else {
      UplinkOpenIff(states, actions, k - 1);
      var v := RunsKeepInv(states, actions, k - 1);
      assert Steps(states[k - 1], actions[k - 1], states[k - 1 + 1]);
      hide UplinkOpen, Harmless, IsRun, Inv;
      assert AllOpen(states, k) <==> AllOpen(states, k - 1) && UplinkOpen(states[k].ends);
      assert AllHarmless(states, actions, k) <==>
        AllHarmless(states, actions, k - 1) && Harmless(states[k - 1].ends, actions[k - 1]);
      if AllOpen(states, k - 1) {
        assert UplinkOpen(states[k - 1].ends);
        StepUplinkIff(states[k - 1], actions[k - 1], v);
      }
    }
  }

  /** Every rekey starts while the client holds a single key. */
  ghost predicate StartsSingle(states: seq<State>, actions: seq<Action>)
    requires |states| == |actions| + 1
  {
    forall k :: 0 <= k < |actions| && actions[k].StartRekey? ==> |states[k].ends.client.side.keys| == 1
  }

  ghost predicate Gated(client: Client) {
    && 1 <= |client.side.keys| <= 2
    && client.side.active == |client.side.keys| - 1
    && (client.inFlight ==> |client.side.keys| == 1)
  }

  lemma StepGated(s: State, a: Action, v: View)
    requires Inv(s, v) && CanHappen(s, a) && Gated(s.ends.client)
    requires a.StartRekey? ==> |s.ends.client.side.keys| == 1
    ensures Gated(Next(s, a).ends.client)
  {
    hide Windows, Sealed, Young, Clearing;
  }

  lemma {:induction false} RunsGated(states: seq<State>, actions: seq<Action>, k: nat)
    requires IsRun(states, actions) && k < |states| && StartsSingle(states, actions)
    ensures Gated(states[k].ends.client)
  {
    if k > 0 {
      RunsGated(states, actions, k - 1);
      var v := RunsKeepInv(states, actions, k - 1);
      assert Steps(states[k - 1], actions[k - 1], states[k - 1 + 1]);
      StepGated(states[k - 1], actions[k - 1], v);
    }
  }

  /** If every rekey starts while the client holds a single key, both directions are open in every reachable state. */
  lemma GatedRunsStayOpen(states: seq<State>, actions: seq<Action>, k: nat)
    requires IsRun(states, actions) && k < |states| && StartsSingle(states, actions)
    ensures UplinkOpen(states[k].ends) && DownlinkOpen(states[k].ends)
  {
    RunsGated(states, actions, k);
    DownlinkAlwaysOpen(states, actions, k);
    var v := RunsKeepInv(states, actions, k);
    UplinkByIndex(states[k].ends, v);
  }

  // --------------------------------------------------- the hypothesis matters

  lemma Extend(states: seq<State>, actions: seq<Action>, a: Action) returns (states': seq<State>, actions': seq<Action>)
    requires IsRun(states, actions) && CanHappen(states[|actions|], a)
    ensures IsRun(states', actions') && |states'| == |actions'| + 1 == |actions| + 2
    ensures states'[|actions'|] == Next(states[|actions|], a)
  {
    states', actions' := states + [Next(states[|actions|], a)], actions + [a];
    forall k | 0 <= k < |actions'|
      ensures Steps(states'[k], actions'[k], states'[k + 1])
    {
      assert k < |actions| ==> Steps(states[k], actions[k], states[k + 1]);
    }
  }

  /** One whole rekey, undisturbed. */
  lemma Rekeyed(states: seq<State>, actions: seq<Action>) returns (states': seq<State>, actions': seq<Action>)
    requires IsRun(states, actions)
    requires
      var s := states[|actions|];
      s.bus == Bus([], []) && !s.ends.client.inFlight && s.ends.client.job.Resting? && s.ends.client.clearing.None?
    ensures IsRun(states', actions') && |states'| == |actions'| + 1
    ensures
      var s := states[|actions|];
      var key := Derived(s.unused.client, s.unused.server);
      var client := Client(Installed(s.ends.client.side, key, true), false, Resting, None, None);
      states'[|actions'|] ==
        State(Ends(client, Installed(s.ends.server, key, false)),
              s.bus, s.packets, Unused(s.unused.client + 1, s.unused.server + 1))
  {
    hide IsRun;
    states', actions' := Extend(states, actions, StartRekey);
    states', actions' := Extend(states', actions', Generate);
    states', actions' := Extend(states', actions', SendPub);
    states', actions' := Extend(states', actions', ServerRekey(true));
    states', actions' := Extend(states', actions', ClientRekey);
    states', actions' := Extend(states', actions', ClearPri);
  }

  const K1 := Derived(0, 0)
  const K2 := Derived(1, 1)

  /** Two rekeys, with one packet sealed by the client in between. */
  lemma TwiceRekeyed() returns (states: seq<State>, actions: seq<Action>)
    ensures IsRun(states, actions) && |states| == |actions| + 1
    ensures states[|actions|].packets == Packets({K1}, {})
    ensures states[|actions|].ends.client.side == Side([Initial, K1, K2], 2)
    ensures states[|actions|].ends.server == Side([Initial, K1, K2], 0)
  {
    assert IsRun([INIT], []);
    hide IsRun;
    states, actions := Rekeyed([INIT], []);
    states, actions := Extend(states, actions, ClientSeals);
    states, actions := Rekeyed(states, actions);
  }

  /** After two rekeys, a late packet under the middle key takes the client back to it when the server has moved on. */
  lemma UplinkCanClose() returns (states: seq<State>, actions: seq<Action>)
    ensures IsRun(states, actions) && !UplinkOpen(states[|actions|].ends)
  {
    states, actions := TwiceRekeyed();
    hide IsRun;
    states, actions := Extend(states, actions, ServerOpens(K1));
    assert states[|actions|].ends.server == Side([K1, K2], 0);
    states, actions := Extend(states, actions, ServerSeals);
    states, actions := Extend(states, actions, ClientSeals);
    states, actions := Extend(states, actions, ServerOpens(K2));
    assert states[|actions|].ends.server == Side([K2], 0);
    states, actions := Extend(states, actions, ClientOpens(K1));
    assert states[|actions|].ends.client.side == Side([K1, K2], 0);
  }
}
