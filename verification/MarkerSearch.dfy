/**
 The client's side of a discard: everything up to the marker that the server echoes is
 thrown away and counted, however the stream is cut into reads.
 */
module MarkerSearch {
  import opened Bytes
  import opened Options
  import opened OutputLog

  /** `marker` stands in `s` at offset `i`. */
  predicate StandsAt(s: seq<byte>, marker: seq<byte>, i: nat) {
    i + |marker| <= |s| && s[i..i + |marker|] == marker
  }

  /** Offset of the first occurrence at or after `from`, or -1. */
  function IndexFrom(s: seq<byte>, marker: seq<byte>, from: nat): (r: int)
    requires from <= |s|
    ensures r == -1 || (from <= r && StandsAt(s, marker, r))
    decreases |s| - from
  {
    if StandsAt(s, marker, from) then from
    else if from == |s| then -1
    else IndexFrom(s, marker, from + 1)
  }

  function Index(s: seq<byte>, marker: seq<byte>): (r: int)
    ensures r == -1 || (0 <= r && StandsAt(s, marker, r))
  {
    IndexFrom(s, marker, 0)
  }

  lemma {:induction false} IndexFromIsFirst(s: seq<byte>, marker: seq<byte>, from: nat, i: nat)
    requires from <= i && StandsAt(s, marker, i)
    ensures from <= IndexFrom(s, marker, from) <= i
    decreases i - from
  {
    if !StandsAt(s, marker, from) {
      IndexFromIsFirst(s, marker, from + 1, i);
    }
  }

  /** An offset where the marker stands, and before which it does not, is the index. */
  lemma IndexIs(s: seq<byte>, marker: seq<byte>, p: nat)
    requires StandsAt(s, marker, p) && forall i :: 0 <= i < p ==> !StandsAt(s, marker, i)
    ensures Index(s, marker) == p
  {
    IndexFromIsFirst(s, marker, 0, p);
  }

  lemma IndexIsFirst(s: seq<byte>, marker: seq<byte>, i: nat)
    requires StandsAt(s, marker, i)
    ensures 0 <= Index(s, marker) <= i
  {
    IndexFromIsFirst(s, marker, 0, i);
  }

  /** How much of a searched stream is kept: enough for a marker cut by the next read, and no more. */
  function Kept(s: seq<byte>, marker: seq<byte>): (k: nat)
    ensures k <= |s|
  {
    if |marker| == 0 then 0 else if |s| < |marker| then |s| else |marker| - 1
  }

  lemma WithinPrefix(s: seq<byte>, more: seq<byte>, marker: seq<byte>, i: nat)
    requires i + |marker| <= |s|
    ensures StandsAt(s + more, marker, i) <==> StandsAt(s, marker, i)
  {
    assert (s + more)[i..i + |marker|] == s[i..i + |marker|];
  }

  /** A marker that begins before the kept tail ends within what was searched. */
  lemma BeforeTail(s: seq<byte>, more: seq<byte>, marker: seq<byte>, i: nat)
    requires i < |s| - Kept(s, marker) && StandsAt(s + more, marker, i) && |marker| > 0
    ensures StandsAt(s, marker, i)
  {
    WithinPrefix(s, more, marker, i);
  }

  lemma InTail(s: seq<byte>, more: seq<byte>, marker: seq<byte>, cut: nat, i: nat)
    requires cut <= |s|
    ensures StandsAt(s[cut..] + more, marker, i) <==> StandsAt(s + more, marker, cut + i)
  {
    if cut + i + |marker| <= |s + more| {
      assert (s[cut..] + more)[i..i + |marker|] == (s + more)[cut + i..cut + i + |marker|];
    }
  }

  /** Searching the kept tail and the next read is searching the whole stream. */
  lemma TailSuffices(s: seq<byte>, more: seq<byte>, marker: seq<byte>)
    requires |marker| > 0 && Index(s, marker) == -1
    ensures
      var cut := |s| - Kept(s, marker);
      var found := Index(s[cut..] + more, marker);
      Index(s + more, marker) == if found < 0 then -1 else cut + found
  {
    hide IndexFrom, StandsAt;
    var cut := |s| - Kept(s, marker);
    var found := Index(s[cut..] + more, marker);
    var whole := Index(s + more, marker);
    if whole >= 0 {
      if whole < cut {
        BeforeTail(s, more, marker, whole);
        IndexIsFirst(s, marker, whole);
        assert false;
      }
      InTail(s, more, marker, cut, whole - cut);
      IndexIsFirst(s[cut..] + more, marker, whole - cut);
    }
    if found >= 0 {
      InTail(s, more, marker, cut, found);
      IndexIsFirst(s + more, marker, cut + found);
    }
  }

  // --------------------------------------------------------------- the forwarder

  datatype Discard = Discard(lines: nat, bytes: nat)

  /** What the caller has received and been told once `s` was read with `marker` awaited. */
  datatype Result = Result(written: seq<byte>, reports: seq<Discard>)

  function Expected(s: seq<byte>, marker: seq<byte>): Result {
    var p := Index(s, marker);
    if s == [] || p < 0 then Result([], [])
    else Result(s[p + |marker|..], [Discard(CountByte(s[..p], LF) + 1, p)])
  }

  /**
   While it searches, the forwarder holds the end of `s`: all of it, or as much as a marker
   cut by the next read needs, once the marker is known not to stand in `s`.
   */
  ghost predicate Searching(s: seq<byte>, marker: seq<byte>, cacheBuf: seq<byte>) {
    var cut := |s| - |cacheBuf|;
    && 0 <= cut && cacheBuf == s[cut..]
    && (cut == 0 || (Index(s, marker) == -1 && |cacheBuf| == Kept(s, marker)))
  }

  lemma EmptyMarkerStands(s: seq<byte>, marker: seq<byte>)
    ensures |marker| == 0 ==> Index(s, marker) == 0
  {
  }

  /** Searching what is held together with the next read is searching the whole stream. */
  lemma HeldSuffices(s: seq<byte>, buf: seq<byte>, marker: seq<byte>, cacheBuf: seq<byte>)
    requires Searching(s, marker, cacheBuf)
    ensures
      var found := Index(cacheBuf + buf, marker);
      Index(s + buf, marker) == if found < 0 then -1 else |s| - |cacheBuf| + found
  {
    hide IndexFrom, StandsAt;
    if |cacheBuf| < |s| {
      EmptyMarkerStands(s, marker);
      TailSuffices(s, buf, marker);
    } else {
      assert cacheBuf == s;
    }
  }

  lemma SearchGoesOn(s: seq<byte>, buf: seq<byte>, marker: seq<byte>, cacheBuf: seq<byte>)
    requires buf != [] && Searching(s, marker, cacheBuf)
    requires Index(cacheBuf + buf, marker) == -1
    ensures
      var all := cacheBuf + buf;
      var cut := if |all| > |marker| - 1 then |all| - (|marker| - 1) else 0;
      |marker| > 0 && Searching(s + buf, marker, all[cut..])
    ensures Index(s + buf, marker) == -1
  {
    var all := cacheBuf + buf;
    HeldSuffices(s, buf, marker, cacheBuf);
    EmptyMarkerStands(all, marker);
    hide Index;
    var cut := if |all| > |marker| - 1 then |all| - (|marker| - 1) else 0;
    RestOf(s, buf, |s| - |cacheBuf|, cut);
  }

  /** Counting the whole is counting what was let go and the beginning of what was kept. */
  lemma CountUpTo(s: seq<byte>, buf: seq<byte>, bytes: nat, pos: nat)
    requires bytes <= |s| && pos <= |s| - bytes + |buf|
    ensures CountByte((s + buf)[..bytes + pos], LF) ==
      CountByte(s[..bytes], LF) + CountByte((s[bytes..] + buf)[..pos], LF)
  {
    assert (s + buf)[..bytes + pos] == s[..bytes] + (s[bytes..] + buf)[..pos];
    CountByteConcat(s[..bytes], (s[bytes..] + buf)[..pos], LF);
  }

  lemma RestOf(s: seq<byte>, buf: seq<byte>, bytes: nat, k: nat)
    requires bytes <= |s| && k <= |s| - bytes + |buf|
    ensures (s + buf)[bytes + k..] == (s[bytes..] + buf)[k..]
  {
  }

  lemma ExpectedAt(s: seq<byte>, marker: seq<byte>, p: nat)
    requires s != [] && Index(s, marker) == p
    ensures Expected(s, marker) == Result(s[p + |marker|..], [Discard(CountByte(s[..p], LF) + 1, p)])
  {
  }

  lemma SearchEnds(s: seq<byte>, buf: seq<byte>, marker: seq<byte>, cacheBuf: seq<byte>)
    requires buf != [] && Searching(s, marker, cacheBuf)
    requires Index(cacheBuf + buf, marker) >= 0
    ensures
      var all, cut := cacheBuf + buf, |s| - |cacheBuf|;
      var pos := Index(all, marker);
      Expected(s + buf, marker) ==
        Result(all[pos + |marker|..], [Discard(CountByte(s[..cut], LF) + CountByte(all[..pos], LF) + 1, cut + pos)])
    ensures Index(s + buf, marker) >= 0
  {
    HeldSuffices(s, buf, marker, cacheBuf);
    var cut, pos := |s| - |cacheBuf|, Index(cacheBuf + buf, marker);
    assert cacheBuf == s[cut..];
    hide Index, CountByte, StandsAt, Expected, Searching;
    ExpectedAt(s + buf, marker, cut + pos);
    CountUpTo(s, buf, cut, pos);
    RestOf(s, buf, cut, pos + |marker|);
  }

  /** Once the marker has been found, what follows is handed on. */
  lemma FoundStays(s: seq<byte>, buf: seq<byte>, marker: seq<byte>)
    requires s != [] && Index(s, marker) >= 0
    ensures Expected(s + buf, marker) == Expected(s, marker).(written := Expected(s, marker).written + buf)
    ensures Index(s + buf, marker) >= 0
  {
    FoundBefore(s, buf, marker);
    hide Index, CountByte;
    var p := Index(s, marker);
    assert (s + buf)[..p] == s[..p];
    assert (s + buf)[p + |marker|..] == s[p + |marker|..] + buf;
  }

  lemma FoundBefore(s: seq<byte>, buf: seq<byte>, marker: seq<byte>)
    requires Index(s, marker) >= 0
    ensures Index(s + buf, marker) == Index(s, marker)
  {
    hide IndexFrom;
    var p := Index(s, marker);
    var read := s + buf;
    assert read[p..p + |marker|] == s[p..p + |marker|];
    forall i | 0 <= i < p
      ensures !StandsAt(read, marker, i)
    {
      WithinPrefix(s, buf, marker, i);
      if StandsAt(s, marker, i) {
        IndexIsFirst(s, marker, i);
      }
    }
    IndexIs(read, marker, p);
  }

  lemma CutNothing(s: seq<byte>)
    ensures s[0..] == s && CountByte(s[..0], LF) == 0
  {
  }

  /** Where a search began: what had been written and told, what was counted and not yet told, what was held. */
  datatype Base = Base(written: seq<byte>, reports: seq<Discard>, lines: nat, bytes: nat, held: seq<byte>)

  /** Bytes are handed on: no marker is awaited, or the awaited one has arrived. */
  predicate Finds(base: Base, later: seq<byte>, wanted: Option<seq<byte>>) {
    wanted.None? || (later != [] && Index(base.held + later, wanted.value) >= 0)
  }

  /** What the caller has received and been told when `later` was read since. */
  function Outcome(base: Base, later: seq<byte>, wanted: Option<seq<byte>>, telling: bool): Result {
    if !Finds(base, later, wanted) then Result(base.written, base.reports)
    else if wanted.None? then Result(base.written + later, base.reports)
    else
      var e := Expected(base.held + later, wanted.value);
      Result(base.written + e.written, base.reports + if telling then [Added(base, e.reports[0])] else [])
  }

  /** A report that also covers what was counted before. */
  function Added(base: Base, found: Discard): Discard {
    Discard(base.lines + found.lines, base.bytes + found.bytes)
  }

  lemma FoundGoesOn(base: Base, later: seq<byte>, buf: seq<byte>, wanted: Option<seq<byte>>, telling: bool)
    requires Finds(base, later, wanted)
    ensures Finds(base, later + buf, wanted)
    ensures
      var before := Outcome(base, later, wanted, telling);
      Outcome(base, later + buf, wanted, telling) == before.(written := before.written + buf)
  {
    hide Expected, Index;
    if wanted.None? {
      assert base.written + (later + buf) == base.written + later + buf;
    } else {
      var s := base.held + later;
      assert s + buf == base.held + (later + buf);
      FoundStays(s, buf, wanted.value);
      var w := Expected(s, wanted.value).written;
      assert base.written + (w + buf) == base.written + w + buf;
    }
  }

  /** What the caller has only grows. */
  lemma OutcomeGrows(base: Base, later: seq<byte>, more: seq<byte>, wanted: Option<seq<byte>>, telling: bool)
    ensures Outcome(base, later, wanted, telling).written <= Outcome(base, later + more, wanted, telling).written
  {
    if Finds(base, later, wanted) {
      FoundGoesOn(base, later, more, wanted, telling);
    }
  }

  class ClientForwarder {
    var marker: Option<seq<byte>>
    var cacheBuf: seq<byte>
    var discardLines: nat
    var discardBytes: nat
    var written: seq<byte>
    var reports: seq<Discard>
    const telling: bool // the client wants to be told what was discarded

    /** A forwarder begins with no marker to wait for. */
    constructor (telling: bool)
      ensures this.telling == telling && Now() == Base([], [], 0, 0, []) && HasRead(Now(), [], None)
    {
      marker, cacheBuf, discardLines, discardBytes := None, [], 0, 0;
      written, reports, this.telling := [], [], telling;
    }

    /** The state as the beginning of another search. */
    function Now(): Base
      reads this
    {
      Base(written, reports, discardLines, discardBytes, cacheBuf)
    }

    /** What was let go of `s` since the search began is counted. */
    ghost predicate Counted(base: Base, s: seq<byte>)
      reads this
    {
      && |cacheBuf| <= |s|
      && (if telling then
            && discardLines == base.lines + CountByte(s[..|s| - |cacheBuf|], LF)
            && discardBytes == base.bytes + (|s| - |cacheBuf|)
          else
            discardLines == base.lines && discardBytes == base.bytes)
    }

    /** Where the forwarder stands when `later` was read since `wanted` was asked for, or with nothing asked for. */
    ghost predicate HasRead(base: Base, later: seq<byte>, wanted: Option<seq<byte>>)
      reads this
    {
      && Result(written, reports) == Outcome(base, later, wanted, telling)
      && (if Finds(base, later, wanted) then
            && marker.None? && cacheBuf == []
            && discardLines == (if wanted.Some? then 0 else base.lines)
            && discardBytes == (if wanted.Some? then 0 else base.bytes)
          else
            && marker == wanted && Searching(base.held + later, wanted.value, cacheBuf)
            && Counted(base, base.held + later))
    }

    /** The client asks for another discard, whatever the forwarder is doing. */
    method StoreMarker(wanted: seq<byte>)
      modifies `marker
      ensures marker == Some(wanted) && HasRead(Now(), [], marker)
    {
      marker := Some(wanted);
      assert cacheBuf + [] == cacheBuf && cacheBuf[0..] == cacheBuf && cacheBuf[..0] == [];
      assert CountByte([], LF) == 0;
    }

    /** Hands bytes on; a pipe that accepts fewer ends the forwarder. */
    method WriteOut(buf: seq<byte>, accepts: nat) returns (more: bool)
      modifies `written
      ensures more <==> |buf| <= accepts
      ensures written == old(written) + if more then buf else buf[..accepts]
    {
      more := |buf| <= accepts;
      written := written + if more then buf else buf[..accepts];
    }

    /** One read while a marker is awaited that does not complete it. */
    method KeepTail(all: seq<byte>, ghost base: Base, ghost later: seq<byte>, ghost buf: seq<byte>)
      requires marker.Some? && buf != [] && all == cacheBuf + buf && Index(all, marker.value) == -1
      requires HasRead(base, later, marker) && !Finds(base, later, marker)
      modifies `cacheBuf, `discardLines, `discardBytes
      ensures HasRead(base, later + buf, marker) && !Finds(base, later + buf, marker)
    {
      hide Index, CountByte, Expected, Kept;
      ghost var s, gone := base.held + later, |base.held + later| - |cacheBuf|;
      SearchGoesOn(s, buf, marker.value, cacheBuf);
      CutNothing(all);
      assert s + buf == base.held + (later + buf);
      cacheBuf := all;
      var cut := 0;
      if |all| > |marker.value| - 1 {
        cut := |all| - (|marker.value| - 1);
        if telling {
          discardLines := discardLines + CountByte(all[..cut], LF);
          discardBytes := discardBytes + cut;
        }
        cacheBuf := all[cut..];
      }
      CountUpTo(s, buf, gone, cut);
    }

    /** One read that completes the marker: everything up to it is counted, and what follows it is kept. */
    method CutMarker(all: seq<byte>, pos: nat, ghost base: Base, ghost later: seq<byte>, ghost buf: seq<byte>)
      requires marker.Some? && buf != [] && all == cacheBuf + buf && Index(all, marker.value) == pos
      requires HasRead(base, later, marker) && !Finds(base, later, marker)
      modifies `cacheBuf, `discardLines, `discardBytes
      ensures Finds(base, later + buf, marker)
      ensures
        var e := Expected(base.held + (later + buf), marker.value);
        && |e.reports| == 1 && cacheBuf == e.written
        && (telling ==> Discard(discardLines + 1, discardBytes) == Added(base, e.reports[0]))
    {
      hide Index, CountByte, Expected, Kept;
      ghost var s := base.held + later;
      SearchEnds(s, buf, marker.value, cacheBuf);
      assert s + buf == base.held + (later + buf);
      if telling {
        discardLines := discardLines + CountByte(all[..pos], LF);
        discardBytes := discardBytes + pos;
      }
      cacheBuf := all[pos + |marker.value|..];
    }

    /**
     One read of at least one byte.  `raced` is a marker the client stores after the reader
     has looked at the one before, and `accepts` what the caller's pipe takes before it fails.
     */
    method Handle(buf: seq<byte>, raced: Option<seq<byte>>, accepts: nat,
                  ghost base: Base, ghost later: seq<byte>, ghost wanted: Option<seq<byte>>) returns (more: bool)
      requires HasRead(base, later, wanted) && buf != []
      modifies this
      ensures more && raced.None? ==> HasRead(base, later + buf, wanted)
      ensures more && raced.Some? ==> marker == raced
      ensures more && raced.Some? && (old(marker).None? || !Finds(base, later + buf, wanted)) ==>
        Result(written, reports) == Outcome(base, later + buf, wanted, telling)
      ensures more && raced.Some? && old(marker).Some? && wanted.Some? && Finds(base, later + buf, wanted) ==>
        var e := Expected(base.held + (later + buf), wanted.value);
        && written == base.written && reports == base.reports && cacheBuf == e.written && |e.reports| == 1
        && (telling ==> Discard(discardLines + 1, discardBytes) == Added(base, e.reports[0]))
      ensures !more ==> written < Outcome(base, later + buf, wanted, telling).written
    {
      hide Index, CountByte, Searching, Expected, Kept;
      if marker.None? {
        FoundGoesOn(base, later, buf, wanted, telling);
        if raced.Some? {
          marker := raced;
        }
        more := WriteOut(buf, accepts);
        return;
      }
      var all := cacheBuf + buf;
      var pos := Index(all, marker.value);
      if pos >= 0 {
        CutMarker(all, pos, base, later, buf);
        if raced.Some? { // then the marker is not the one that was looked at, and stays
          marker := raced;
          return true;
        }
        if telling {
          reports := reports + [Discard(discardLines + 1, discardBytes)];
        }
        more := WriteOut(cacheBuf, accepts);
        marker, cacheBuf, discardLines, discardBytes := None, [], 0, 0;
      } else {
        KeepTail(all, base, later, buf);
        if raced.Some? {
          marker := raced;
        }
        more := true;
      }
    }

    /** Reads until the end of the stream, or until the caller's pipe fails. */
    method Forward(pieces: seq<seq<byte>>, accepts: nat -> nat, ghost base: Base, ghost wanted: Option<seq<byte>>)
      returns (more: bool)
      requires HasRead(base, [], wanted)
      modifies this
      ensures more ==> HasRead(base, Flat(pieces), wanted)
      ensures !more ==> written < Outcome(base, Flat(pieces), wanted, telling).written
    {
      hide Outcome, Finds, Searching, CountByte, Flat;
      FlatNothing();
      var i := 0;
      while i < |pieces|
        invariant 0 <= i <= |pieces|
        invariant HasRead(base, Flat(pieces[..i]), wanted)
      {
        FlatNext(pieces, i);
        if |pieces[i]| > 0 {
          more := Handle(pieces[i], None, accepts(i), base, Flat(pieces[..i]), wanted);
          if !more {
            FlatRest(pieces, i + 1);
            OutcomeGrows(base, Flat(pieces[..i + 1]), Flat(pieces[i + 1..]), wanted, telling);
            return;
          }
        } else {
          assert Flat(pieces[..i]) + pieces[i] == Flat(pieces[..i]);
        }
        i := i + 1;
      }
      assert pieces[..i] == pieces;
      more := true;
    }
  }

  lemma FlatNothing()
    ensures Flat([]) == []
  {
  }

  lemma FlatRest(pieces: seq<seq<byte>>, i: nat)
    requires i <= |pieces|
    ensures Flat(pieces) == Flat(pieces[..i]) + Flat(pieces[i..])
  {
    assert pieces == pieces[..i] + pieces[i..];
    FlatConcat(pieces[..i], pieces[i..]);
  }

  /** From the beginning, with the pipe intact, the caller has exactly what follows the first marker. */
  lemma FreshOutcome(s: seq<byte>, wanted: seq<byte>)
    ensures Outcome(Base([], [], 0, 0, []), s, Some(wanted), true) == Expected(s, wanted)
  {
    hide Index, CountByte;
    assert [] + s == s;
    var e := Expected(s, wanted);
    assert [] + e.written == e.written;
  }

  lemma FlatNext(pieces: seq<seq<byte>>, i: nat)
    requires i < |pieces|
    ensures Flat(pieces[..i + 1]) == Flat(pieces[..i]) + pieces[i]
  {
    assert pieces[..i + 1] == pieces[..i] + [pieces[i]];
    FlatConcat(pieces[..i], [pieces[i]]);
    assert Flat([pieces[i]]) == pieces[i] + Flat([]);
  }

  // ------------------------------------------------------ with the server's echo

  /** The server's log when `later` chunks follow while the client is connected. */
  function Followed(log: Log, later: seq<seq<byte>>): Log {
    if later == [] then log else Then(Followed(log, later[..|later| - 1]), Append([], later[|later| - 1]))
  }

  lemma {:induction false} FollowedReplay(log: Log, later: seq<seq<byte>>)
    requires Valid(log)
    ensures Valid(Followed(log, later)) && Replay(Followed(log, later)) == Replay(log) + Flat(later)
  {
    if later != [] {
      var k := |later| - 1;
      FollowedReplay(log, later[..k]);
      FlatNext(later, k);
      assert later[..k + 1] == later;
      assert Replay(log) + Flat(later[..k]) + [] + later[k] == Replay(log) + (Flat(later[..k]) + later[k]);
    }
  }

  /** The marker stands nowhere in front of where it was put. */
  ghost predicate AbsentBefore(before: seq<byte>, marker: seq<byte>) {
    forall i :: 0 <= i < |before| ==> !StandsAt(before + marker, marker, i)
  }

  lemma MarkerFirst(before: seq<byte>, marker: seq<byte>, after: seq<byte>)
    requires AbsentBefore(before, marker)
    ensures Index(before + marker + after, marker) == |before|
  {
    hide IndexFrom;
    var s := before + marker + after;
    assert s[|before|..|before| + |marker|] == marker;
    forall i | 0 <= i < |before|
      ensures !StandsAt(s, marker, i)
    {
      WithinPrefix(before + marker, after, marker, i);
    }
    IndexIs(s, marker, |before|);
  }

  lemma MarkerCuts(before: seq<byte>, marker: seq<byte>, after: seq<byte>)
    requires AbsentBefore(before, marker) && |marker| > 0
    ensures Expected(before + marker + after, marker) == Result(after, [Discard(CountByte(before, LF) + 1, |before|)])
  {
    hide Index, CountByte, AbsentBefore, Expected, StandsAt;
    MarkerFirst(before, marker, after);
    CutAround(before, marker, after);
    ExpectedAt(before + marker + after, marker, |before|);
  }

  lemma CutAround(a: seq<byte>, b: seq<byte>, c: seq<byte>)
    ensures (a + b + c)[..|a|] == a && (a + b + c)[|a| + |b|..] == c
  {
  }

  /** Before the marker is complete, nothing is found. */
  lemma MarkerNotYet(before: seq<byte>, marker: seq<byte>, s: seq<byte>)
    requires AbsentBefore(before, marker) && s < before + marker
    ensures Expected(s, marker) == Result([], [])
  {
    hide IndexFrom;
    var p := Index(s, marker);
    if p >= 0 {
      assert s + (before + marker)[|s|..] == before + marker;
      WithinPrefix(s, (before + marker)[|s|..], marker, p);
    }
  }
}
