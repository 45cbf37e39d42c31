/**
 Rotating traffic keys.

 `RotatingCrypto` is one side's key list, updated in place.  The AEAD is ideal: a
 packet opens under exactly the key that sealed it, so a packet is represented by
 that key and its plaintext length.
 */
module Rekey {
  import opened Options

  /** The pass phrase's key, or the key both ends derive from a pair of private numbers. */
  datatype Key = Initial | Derived(client: nat, server: nat)

  /** One side's candidate keys, oldest first, and the index of the one that seals. */
  datatype Side = Side(keys: seq<Key>, active: nat)

  /** Position of `key` in the list, or -1. */
  function Find(keys: seq<Key>, key: Key): (i: int)
    ensures -1 <= i < |keys|
    ensures i >= 0 ==> keys[i] == key
    ensures i >= 0 <==> key in keys
  {
    if keys == [] then -1
    else if keys[0] == key then 0
    else
      var rest := Find(keys[1..], key);
      if rest < 0 then -1 else rest + 1
  }

  /** A side after a new key has been installed. */
  function Installed(side: Side, key: Key, active: bool): Side {
    Side(side.keys + [key], if active then |side.keys| else side.active)
  }

  /** A side after the key at `idx` proved to be in use: it seals, and what came before it is dropped. */
  function Promoted(side: Side, idx: nat): Side
    requires idx <= |side.keys|
  {
    Side(side.keys[idx..], 0)
  }

  /** A side after an attempt to open a packet sealed under `key`. */
  function Opened(side: Side, key: Key): Side {
    var i := Find(side.keys, key);
    if i > 0 then Promoted(side, i) else side
  }

  class RotatingCrypto {
    var gcmList: seq<Key>
    var activeIdx: nat
    var bytesConsumed: nat
    var bytesTriggered: bool
    var rekeyInFlight: bool
    var lastRekeyTime: Option<int>
    var closed: bool
    const bytesThreshold: nat
    const timeThreshold: nat

    /** Some key seals, and a rekey has been asked for exactly when enough was counted since the last installation. */
    ghost predicate Valid()
      reads this
    {
      && activeIdx < |gcmList|
      && (bytesThreshold > 0 ==> (bytesTriggered <==> bytesConsumed >= bytesThreshold))
    }

    /** `n` more bytes are counted, and a rekey is asked for if they are the ones that reach the threshold. */
    twostate predicate Counts(n: nat, startRekey: bool)
      reads this
    {
      if bytesThreshold == 0 then !startRekey && unchanged(`bytesConsumed) && unchanged(`bytesTriggered)
      else
        && bytesConsumed == old(bytesConsumed) + n
        && (startRekey <==> old(bytesConsumed) < bytesThreshold <= bytesConsumed)
    }

    function Value(): Side
      reads this
    {
      Side(gcmList, activeIdx)
    }

    constructor (bytesThreshold: nat, timeThreshold: nat)
      ensures Valid() && Value() == Side([Initial], 0)
      ensures this.bytesThreshold == bytesThreshold && this.timeThreshold == timeThreshold
      ensures bytesConsumed == 0 && !bytesTriggered && !rekeyInFlight && lastRekeyTime.None? && !closed
    {
      this.bytesThreshold, this.timeThreshold := bytesThreshold, timeThreshold;
      gcmList, activeIdx := [Initial], 0;
      bytesConsumed, bytesTriggered, rekeyInFlight, lastRekeyTime := 0, false, false, None;
      closed := false;
    }

    /** Counts traffic; asks for a rekey the first time the threshold is passed since the last installation. */
    method ConsumeBytes(n: nat) returns (startRekey: bool)
      modifies `bytesConsumed, `bytesTriggered
      ensures old(Valid()) ==> Valid() && Counts(n, startRekey)
      ensures bytesThreshold == 0 ==>
        !startRekey && bytesConsumed == old(bytesConsumed) && bytesTriggered == old(bytesTriggered)
      ensures bytesThreshold > 0 ==> bytesConsumed == old(bytesConsumed) + n
      ensures bytesThreshold > 0 ==> (startRekey <==> !old(bytesTriggered) && bytesTriggered)
      ensures bytesThreshold > 0 ==> (bytesTriggered <==> old(bytesTriggered) || bytesConsumed >= bytesThreshold)
    {
      startRekey := false;
      if bytesThreshold == 0 {
        return;
      }
      bytesConsumed := bytesConsumed + n;
      if bytesConsumed >= bytesThreshold && !bytesTriggered {
        bytesTriggered := true;
        startRekey := true;
      }
    }

    /** Seals under the active key. */
    method Seal(n: nat) returns (key: Key, startRekey: bool)
      requires Valid()
      modifies `bytesConsumed, `bytesTriggered
      ensures Valid() && key == gcmList[activeIdx] && Counts(n, startRekey)
    {
      key := gcmList[activeIdx];
      startRekey := ConsumeBytes(n);
    }

    /** Tries the keys from the oldest on; a hit beyond the first promotes its key, a hit on the first is counted. */
    method Open(key: Key, n: nat) returns (ok: bool, startRekey: bool)
      requires Valid()
      modifies `gcmList, `activeIdx, `bytesConsumed, `bytesTriggered
      ensures Valid()
      ensures ok <==> key in old(gcmList)
      ensures Value() == Opened(old(Value()), key)
      ensures ok ==> gcmList != [] && (key == gcmList[0])
      ensures Counts(if key == old(gcmList)[0] then n else 0, startRekey)
    {
      ok, startRekey := false, false;
      var i := 0;
      while i < |gcmList|
        invariant 0 <= i <= |gcmList|
        invariant key !in gcmList[..i]
        invariant Value() == old(Value())
      {
        if gcmList[i] == key {
          ok := true;
          FirstFound(gcmList, key, i);
          if i > 0 {
            PromoteKey(i);
          } else {
            startRekey := ConsumeBytes(n);
          }
          return;
        }
        i := i + 1;
      }
      assert gcmList[..i] == gcmList;
    }

    method PromoteKey(idx: nat)
      requires Valid()
      modifies `gcmList, `activeIdx
      ensures Valid()
      ensures idx < old(|gcmList|) ==> Value() == Promoted(old(Value()), idx)
      ensures idx >= old(|gcmList|) ==> Value() == old(Value())
    {
      if idx >= |gcmList| {
        return;
      }
      gcmList := gcmList[idx..];
      activeIdx := 0;
    }

    method InstallKey(key: Key, active: bool, now: int)
      requires Valid()
      modifies `gcmList, `activeIdx, `bytesConsumed, `bytesTriggered, `rekeyInFlight, `lastRekeyTime
      ensures Valid()
      ensures Value() == Installed(old(Value()), key, active)
      ensures bytesConsumed == 0 && !bytesTriggered && !rekeyInFlight && lastRekeyTime == Some(now)
    {
      gcmList := gcmList + [key];
      if active {
        activeIdx := |gcmList| - 1;
      }
      if |gcmList| > 1 {
        lastRekeyTime := Some(now);
      }
      bytesConsumed, bytesTriggered := 0, false;
      rekeyInFlight := false;
    }

    /** The last rekey is recent and little was sent since. */
    predicate Suppressed(now: int)
      reads this
    {
      lastRekeyTime.Some? && now - lastRekeyTime.value < timeThreshold / 2 && bytesConsumed < bytesThreshold
    }

    /** Begins a rekey unless the side is closed, one is in flight, or it is suppressed. */
    method StartRekey(now: int) returns (started: bool)
      modifies `rekeyInFlight
      ensures started <==> !old(rekeyInFlight) && rekeyInFlight
      ensures old(rekeyInFlight) ==> rekeyInFlight
      ensures started <==> !closed && !old(rekeyInFlight) && !old(Suppressed(now))
    {
      started := false;
      if closed {
        return;
      }
      if rekeyInFlight {
        return;
      }
      if lastRekeyTime.Some? && now - lastRekeyTime.value < timeThreshold / 2 && bytesConsumed < bytesThreshold {
        return;
      }
      rekeyInFlight := true;
      started := true;
    }
  }

  /** A packet sealed, a packet that arrives, or a key installed. */
  datatype Use = Seals(n: nat) | Opens(key: Key, n: nat) | Installs(added: Key, active: bool, now: int)

  function UsedBy(side: Side, use: Use): Side {
    match use
    case Seals(_) => side
    case Opens(key, _) => Opened(side, key)
    case Installs(key, active, _) => Installed(side, key, active)
  }

  /** A side through a sequence of uses. */
  function UsedByAll(side: Side, uses: seq<Use>): Side {
    if uses == [] then side else UsedBy(UsedByAll(side, uses[..|uses| - 1]), uses[|uses| - 1])
  }

  /** The traffic since the last installation: what was sealed, and what was opened with the oldest key. */
  function Volume(side: Side, uses: seq<Use>, before: nat): nat {
    if uses == [] then before
    else
      var earlier, last := uses[..|uses| - 1], uses[|uses| - 1];
      match last
      case Seals(n) => Volume(side, earlier, before) + n
      case Opens(key, n) =>
        var keys := UsedByAll(side, earlier).keys;
        Volume(side, earlier, before) + if keys != [] && key == keys[0] then n else 0
      case Installs(_, _, _) => 0
  }

  lemma UsedNext(side: Side, uses: seq<Use>, before: nat, i: nat)
    requires i < |uses|
    ensures UsedByAll(side, uses[..i + 1]) == UsedBy(UsedByAll(side, uses[..i]), uses[i])
    ensures
      var now, next := Volume(side, uses[..i], before), Volume(side, uses[..i + 1], before);
      match uses[i]
      case Seals(n) => next == now + n
      case Opens(key, n) =>
        var keys := UsedByAll(side, uses[..i]).keys;
        next == now + if keys != [] && key == keys[0] then n else 0
      case Installs(_, _, _) => next == 0
  {
    assert uses[..i + 1][..i] == uses[..i];
  }

  /** The volume at one point and, without an installation between, at a later one. */
  lemma {:induction false} VolumeGrows(side: Side, uses: seq<Use>, before: nat, i: nat, j: nat)
    requires i <= j <= |uses| && forall m :: i <= m < j ==> !uses[m].Installs?
    ensures Volume(side, uses[..i], before) <= Volume(side, uses[..j], before)
    decreases j
  {
    if i < j {
      VolumeGrows(side, uses, before, i, j - 1);
      UsedNext(side, uses, before, j - 1);
    }
  }

  /** At call `i` the volume reaches the threshold. */
  predicate Reaches(side: Side, uses: seq<Use>, before: nat, threshold: nat, i: nat)
    requires i < |uses|
  {
    Volume(side, uses[..i], before) < threshold <= Volume(side, uses[..i + 1], before)
  }

  /** The volume reaches the threshold once at most until a key is installed. */
  lemma ReachedOnce(side: Side, uses: seq<Use>, before: nat, threshold: nat, i: nat, j: nat)
    requires i < j < |uses| && Reaches(side, uses, before, threshold, i) && Reaches(side, uses, before, threshold, j)
    ensures exists m :: i < m < j && uses[m].Installs?
  {
    if forall m :: i < m < j ==> !uses[m].Installs? {
      VolumeGrows(side, uses, before, i + 1, j);
    }
  }

  /** The volume is at the threshold exactly if it reached it at some call, and no key was installed since. */
  lemma {:induction false} ReachedIff(side: Side, uses: seq<Use>, before: nat, threshold: nat, k: nat)
    requires k <= |uses| && before < threshold
    ensures
      Volume(side, uses[..k], before) >= threshold <==>
      exists i :: 0 <= i < k && Reaches(side, uses, before, threshold, i)
                  && forall m :: i < m < k ==> !uses[m].Installs?
  {
    if k > 0 {
      ReachedIff(side, uses, before, threshold, k - 1);
      UsedNext(side, uses, before, k - 1);
      if Volume(side, uses[..k - 1], before) < threshold <= Volume(side, uses[..k], before) {
        assert Reaches(side, uses, before, threshold, k - 1);
      }
    }
  }

  /** The calls that ask for a rekey are those at which the volume reaches the threshold. */
  predicate Asks(asked: seq<bool>, side: Side, uses: seq<Use>, before: nat, threshold: nat)
    requires |asked| <= |uses|
  {
    forall i :: 0 <= i < |asked| ==> (asked[i] <==> threshold > 0 && Reaches(side, uses, before, threshold, i))
  }

  /** Two calls that ask have an installation between them. */
  predicate OncePerKey(asked: seq<bool>, uses: seq<Use>)
    requires |asked| == |uses|
  {
    forall i, j :: 0 <= i < j < |uses| && asked[i] && asked[j] ==> exists m :: i < m < j && uses[m].Installs?
  }

  lemma AskedOnce(asked: seq<bool>, side: Side, uses: seq<Use>, before: nat, threshold: nat)
    requires |asked| == |uses| && Asks(asked, side, uses, before, threshold)
    ensures OncePerKey(asked, uses)
  {
    forall i, j | 0 <= i < j < |uses| && asked[i] && asked[j]
      ensures exists m :: i < m < j && uses[m].Installs?
    {
      ReachedOnce(side, uses, before, threshold, i, j);
    }
  }

  lemma AsksNext(asked: seq<bool>, start: bool, side: Side, uses: seq<Use>, before: nat, threshold: nat)
    requires |asked| < |uses| && Asks(asked, side, uses, before, threshold)
    requires start <==> threshold > 0 && Reaches(side, uses, before, threshold, |asked|)
    ensures Asks(asked + [start], side, uses, before, threshold)
  {
  }

  /**
   Any traffic and installations: a rekey is asked for by exactly the calls that bring the
   volume counted since the last installation to the threshold, so once for each key at most.
   */
  method Carry(c: RotatingCrypto, uses: seq<Use>) returns (asked: seq<bool>)
    requires c.Valid()
    modifies c`gcmList, c`activeIdx, c`bytesConsumed, c`bytesTriggered, c`rekeyInFlight, c`lastRekeyTime
    ensures c.Valid() && c.Value() == UsedByAll(old(c.Value()), uses) && |asked| == |uses|
    ensures c.bytesThreshold > 0 ==> c.bytesConsumed == Volume(old(c.Value()), uses, old(c.bytesConsumed))
    ensures Asks(asked, old(c.Value()), uses, old(c.bytesConsumed), c.bytesThreshold) && OncePerKey(asked, uses)
  {
    ghost var side, before := c.Value(), c.bytesConsumed;
    asked := [];
    var k := 0;
    assert Asks(asked, side, uses, before, c.bytesThreshold);
    assert UsedByAll(side, uses[..0]) == side && Volume(side, uses[..0], before) == before;
    hide UsedByAll, Volume, Asks, OncePerKey;
    while k < |uses|
      invariant 0 <= k <= |uses| && |asked| == k
      invariant c.Valid() && c.Value() == UsedByAll(side, uses[..k])
      invariant c.bytesThreshold > 0 ==> c.bytesConsumed == Volume(side, uses[..k], before)
      invariant Asks(asked, side, uses, before, c.bytesThreshold)
    {
      UsedNext(side, uses, before, k);
      var start := CarryOne(c, uses[k]);
      AsksNext(asked, start, side, uses, before, c.bytesThreshold);
      asked := asked + [start];
      k := k + 1;
    }
    assert uses[..k] == uses;
    AskedOnce(asked, side, uses, before, c.bytesThreshold);
  }

  method CarryOne(c: RotatingCrypto, use: Use) returns (start: bool)
    requires c.Valid()
    modifies c`gcmList, c`activeIdx, c`bytesConsumed, c`bytesTriggered, c`rekeyInFlight, c`lastRekeyTime
    ensures c.Valid() && c.Value() == UsedBy(old(c.Value()), use)
    ensures use.Installs? ==> c.bytesConsumed == 0 && !start
    ensures use.Seals? ==> c.Counts(use.n, start)
    ensures use.Opens? ==> c.Counts(if use.key == old(c.gcmList)[0] then use.n else 0, start)
  {
    start := false;
    match use
    case Seals(n) =>
      var _, asks := c.Seal(n);
      start := asks;
    case Opens(key, n) =>
      var _, asks := c.Open(key, n);
      start := asks;
    case Installs(key, active, now) => c.InstallKey(key, active, now);
  }

  lemma {:induction false} FirstFound(keys: seq<Key>, key: Key, i: nat)
    requires i < |keys| && keys[i] == key && key !in keys[..i]
    ensures Find(keys, key) == i
  {
    if i > 0 {
      assert keys[0] == keys[..i][0];
      assert keys[1..][..i - 1] == keys[..i][1..];
      FirstFound(keys[1..], key, i - 1);
    }
  }
}
