/**
 The wire-rate pacer: a token bucket with debt.

 Tokens and rates are real numbers; the clock and the sleeps are whole nanoseconds.
 */
module WirePacer {
  import opened Options

  const SECOND := 1_000_000_000
  const AMP_ESTIMATE := 2.6
  const TOKEN_INTERVAL := 0.1
  const MAX_SLEEP := SECOND
  const NOISE := 0.5

  function Seconds(ns: int): real {
    ns as real / SECOND as real
  }

  /** Tokens that accrue over a time. */
  function Tokens(ns: int, rate: real): real {
    Seconds(ns) * rate
  }

  /** The time over which a deficit accrues, in nanoseconds. */
  function Nanos(deficit: real, rate: real): real
    requires rate > 0.0
  {
    deficit / rate * SECOND as real
  }

  function Min(a: real, b: real): real {
    if a <= b then a else b
  }

  // -------------------------------------------------- times and tokens, linearly

  lemma TimesIff(a: real, b: real, c: real)
    requires c > 0.0
    ensures a <= b <==> a * c <= b * c
  {
    if a > b {
      assert a * c > b * c;
    }
  }

  lemma TokensAdd(a: int, b: int, rate: real)
    ensures Tokens(a + b, rate) == Tokens(a, rate) + Tokens(b, rate)
  {
    assert Seconds(a + b) == Seconds(a) + Seconds(b);
  }

  lemma TokensGrow(a: int, b: int, rate: real)
    requires a <= b && rate > 0.0
    ensures Tokens(a, rate) <= Tokens(b, rate)
  {
    assert Seconds(a) <= Seconds(b);
    TimesIff(Seconds(a), Seconds(b), rate);
  }

  /** Waiting `ns` pays for a deficit exactly when it is at least the deficit's time. */
  lemma TimePays(deficit: real, rate: real, ns: int)
    requires rate > 0.0
    ensures ns as real <= Nanos(deficit, rate) <==> Tokens(ns, rate) <= deficit
  {
    var q := deficit / rate;
    assert q * rate == deficit;
    TimesIff(Seconds(ns), q, rate);
    assert Seconds(ns) <= q <==> ns as real <= q * SECOND as real;
  }

  lemma TimeShifts(deficit: real, rate: real, ns: int)
    requires rate > 0.0
    ensures Nanos(deficit - Tokens(ns, rate), rate) == Nanos(deficit, rate) - ns as real
  {
    var t := Seconds(ns);
    assert (deficit - t * rate) / rate == deficit / rate - t by {
      assert t * rate / rate == t;
    }
  }

  // ------------------------------------------------------------- paying a debt

  /** The whole nanoseconds in a deficit's time. */
  function Whole(deficit: real, rate: real): int
    requires rate > 0.0
  {
    Nanos(deficit, rate).Floor
  }

  /** How long one pass sleeps for a deficit: truncated to whole nanoseconds, capped at one second. */
  function Sleep(deficit: real, rate: real): int
    requires rate > 0.0
  {
    if Whole(deficit, rate) > MAX_SLEEP then MAX_SLEEP else Whole(deficit, rate)
  }

  /** The balance after one pass of the debt loop. */
  function Paid(tok: real, rate: real): real
    requires rate > 0.0
  {
    tok + Min(Tokens(Sleep(-tok, rate), rate), -tok)
  }

  /** What is left of a deficit when all its whole nanoseconds are paid. */
  function Residue(deficit: real, rate: real): real
    requires rate > 0.0
  {
    deficit - Tokens(Whole(deficit, rate), rate)
  }

  /** The debt loop ends: there is no debt, or what truncation leaves over is taken for noise. */
  predicate Ends(tok: real, rate: real)
    requires rate > 0.0
  {
    tok >= -NOISE || Residue(-tok, rate) <= NOISE
  }

  /** Less than one nanosecond's payload is left over. */
  lemma ResidueIsSmall(deficit: real, rate: real)
    requires rate > 0.0
    ensures 0.0 <= Residue(deficit, rate) < Tokens(1, rate)
  {
    hide Tokens, Nanos;
    var w := Whole(deficit, rate);
    TimePays(deficit, rate, w);
    TimePays(deficit, rate, w + 1);
    TokensAdd(w, 1, rate);
  }

  lemma DebtTakesTime(deficit: real, rate: real)
    requires rate > 0.0 && deficit >= 0.0
    ensures Whole(deficit, rate) >= 0
  {
    assert Tokens(0, rate) == 0.0;
    TimePays(deficit, rate, 0);
  }

  /** A pass sleeps a second at most, pays for exactly the nanoseconds it slept and leaves the residue as it was. */
  lemma PassPays(tok: real, rate: real)
    requires rate > 0.0 && tok < 0.0
    ensures 0 <= Sleep(-tok, rate) <= Whole(-tok, rate) && Sleep(-tok, rate) <= 1_000_000_000
    ensures Sleep(-tok, rate) == Whole(-tok, rate) || Sleep(-tok, rate) == 1_000_000_000
    ensures Paid(tok, rate) == tok + Tokens(Sleep(-tok, rate), rate) <= 0.0
    ensures Whole(-Paid(tok, rate), rate) == Whole(-tok, rate) - Sleep(-tok, rate) >= 0
    ensures Residue(-Paid(tok, rate), rate) == Residue(-tok, rate)
  {
    hide Tokens, Nanos;
    var ns, w := Sleep(-tok, rate), Whole(-tok, rate);
    DebtTakesTime(-tok, rate);
    TimePays(-tok, rate, ns);
    TimeShifts(-tok, rate, ns);
    TokensAdd(ns, w - ns, rate);
    assert -Paid(tok, rate) == -tok - Tokens(ns, rate);
  }

  /** Balance after at most `k` passes. */
  function Passes(tok: real, rate: real, k: nat): real
    requires rate > 0.0
    decreases k
  {
    if k == 0 || tok >= -NOISE then tok else Passes(Paid(tok, rate), rate, k - 1)
  }

  /** A debt that ends is not all residue: a pass makes progress. */
  lemma PassSleeps(tok: real, rate: real)
    requires rate > 0.0 && tok < -NOISE && Ends(tok, rate)
    ensures Sleep(-tok, rate) > 0
  {
    DebtTakesTime(-tok, rate);
    assert Tokens(0, rate) == 0.0;
  }

  lemma {:induction false} EnoughPasses(tok: real, rate: real, k: nat)
    requires rate > 0.0 && Ends(tok, rate) && Whole(-tok, rate) <= k * SECOND
    ensures Passes(tok, rate, k) >= -NOISE
    decreases k
  {
    hide Tokens, Nanos, Paid;
    if tok < -NOISE {
      PassSleeps(tok, rate);
      PassPays(tok, rate);
      if k > 0 {
        EnoughPasses(Paid(tok, rate), rate, k - 1);
      }
    }
  }

  lemma {:induction false} NeverEnough(tok: real, rate: real, k: nat)
    requires rate > 0.0 && !Ends(tok, rate)
    ensures Passes(tok, rate, k) < -NOISE
    decreases k
  {
    hide Tokens, Nanos, Paid;
    if k > 0 {
      PassPays(tok, rate);
      ResidueWithin(-Paid(tok, rate), rate);
      NeverEnough(Paid(tok, rate), rate, k - 1);
    }
  }

  lemma ResidueWithin(deficit: real, rate: real)
    requires rate > 0.0 && deficit >= 0.0
    ensures Residue(deficit, rate) <= deficit
  {
    DebtTakesTime(deficit, rate);
    TokensGrow(0, Whole(deficit, rate), rate);
    assert Tokens(0, rate) == 0.0;
  }

  /** A deficit's whole seconds, and one more, cover its time. */
  lemma SecondsCover(deficit: real, rate: real)
    requires rate > 0.0 && deficit >= 0.0
    ensures (deficit / rate).Floor >= 0
    ensures Whole(deficit, rate) <= ((deficit / rate).Floor + 1) * SECOND
  {
    assert deficit / rate >= 0.0;
  }

  /**
   The debt loop ends exactly when truncation to whole nanoseconds leaves no more than
   noise, and then within one pass for each second of debt and one more.
   */
  lemma LoopEndsIff(tok: real, rate: real)
    requires rate > 0.0 && tok < 0.0
    ensures (exists k: nat :: Passes(tok, rate, k) >= -NOISE) <==> Ends(tok, rate)
    ensures (-tok / rate).Floor >= 0
    ensures Ends(tok, rate) ==> Passes(tok, rate, (-tok / rate).Floor + 1) >= -NOISE
  {
    hide Tokens, Nanos, Paid;
    SecondsCover(-tok, rate);
    if Ends(tok, rate) {
      EnoughPasses(tok, rate, (-tok / rate).Floor + 1);
    } else {
      forall k: nat
        ensures Passes(tok, rate, k) < -NOISE
      {
        NeverEnough(tok, rate, k);
      }
    }
  }

  /** Up to half a thousand million bytes a second, every debt ends. */
  lemma SlowRatesEnd(tok: real, rate: real)
    requires 0.0 < rate <= 500_000_000.0
    ensures Ends(tok, rate)
  {
    ResidueIsSmall(-tok, rate);
    assert Tokens(1, rate) <= NOISE;
  }

  /** A pass sleeps nothing exactly when the deficit is less than one nanosecond's payload. */
  lemma ZeroSleepIff(deficit: real, rate: real)
    requires rate > 0.0 && deficit >= 0.0
    ensures Sleep(deficit, rate) == 0 <==> deficit < Tokens(1, rate)
  {
    hide Tokens, Nanos;
    DebtTakesTime(deficit, rate);
    TimePays(deficit, rate, 1);
  }

  /** Every deficit above the noise gives a positive sleep exactly up to that rate. */
  lemma PositiveSleepIff(rate: real)
    requires rate > 0.0
    ensures (forall deficit: real :: deficit > NOISE ==> Sleep(deficit, rate) != 0) <==> rate <= 500_000_000.0
  {
    forall deficit: real | deficit > NOISE
      ensures Sleep(deficit, rate) == 0 <==> deficit < Tokens(1, rate)
    {
      ZeroSleepIff(deficit, rate);
    }
    assert Tokens(1, rate) == rate / SECOND as real;
    if rate > 500_000_000.0 {
      var deficit := (NOISE + Tokens(1, rate)) / 2.0;
      assert Sleep(deficit, rate) == 0;
    }
  }

  /** Every pass but the last sleeps a whole second, and that one no longer. */
  ghost predicate PassBound(passes: nat, slept: nat, whole: int) {
    && slept <= whole && slept <= passes * SECOND
    && passes * SECOND <= slept + (if slept == whole then SECOND - 1 else 0)
  }

  lemma PassesPerSecond(deficit: real, rate: real, passes: nat, slept: nat)
    requires rate > 0.0 && deficit >= 0.0 && PassBound(passes, slept, Whole(deficit, rate))
    ensures passes <= (deficit / rate).Floor + 1
    ensures Tokens(slept, rate) <= deficit
  {
    TimePays(deficit, rate, slept);
    assert passes as real <= deficit / rate + 1.0;
  }

  /** Where the debt loop stands: `elapsed` nanoseconds after it began, the balance `owed` has become `tok`. */
  ghost predicate Paying(owed: real, tok: real, rate: real, passes: nat, slept: nat, elapsed: int)
    requires rate > 0.0
  {
    && Ends(tok, rate)
    && slept <= elapsed && (passes == 0 ==> elapsed == 0)
    && tok == owed + Tokens(slept, rate)
    && (if owed >= -NOISE then
          tok == owed && passes == 0 && slept == 0
        else
          && tok <= 0.0
          && 0 <= Whole(-tok, rate) == Whole(-owed, rate) - slept
          && PassBound(passes, slept, Whole(-owed, rate)))
  }

  lemma PayingBegins(owed: real, rate: real)
    requires rate > 0.0 && Ends(owed, rate)
    ensures Paying(owed, owed, rate, 0, 0, 0)
  {
    assert Tokens(0, rate) == 0.0;
    if owed < 0.0 {
      DebtTakesTime(-owed, rate);
    }
  }

  lemma PayingGoesOn(owed: real, tok: real, rate: real, passes: nat, slept: nat, elapsed: int, late: nat)
    requires rate > 0.0 && tok < -NOISE && Paying(owed, tok, rate, passes, slept, elapsed)
    ensures
      var sleep := Sleep(-tok, rate);
      && 0 < sleep
      && 0 <= Whole(-Paid(tok, rate), rate) < Whole(-tok, rate)
      && Paying(owed, Paid(tok, rate), rate, passes + 1, slept + sleep, elapsed + sleep + late)
  {
    hide Tokens, Nanos, Paid, Residue;
    var sleep := Sleep(-tok, rate);
    PassSleeps(tok, rate);
    PassPays(tok, rate);
    TokensAdd(slept, sleep, rate);
  }

  lemma PayingDone(owed: real, tok: real, rate: real, passes: nat, slept: nat, elapsed: int)
    requires rate > 0.0 && tok >= -NOISE && Paying(owed, tok, rate, passes, slept, elapsed)
    ensures owed < -NOISE ==> tok <= 0.0 && passes <= (-owed / rate).Floor + 1 && Tokens(slept, rate) <= -owed
    ensures owed >= -NOISE ==> tok == owed && passes == 0 && slept == 0
    ensures slept <= elapsed && (passes == 0 ==> elapsed == 0) && tok == owed + Tokens(slept, rate)
    ensures slept <= passes * 1_000_000_000
  {
    hide Tokens, Nanos;
    if owed < -NOISE {
      PassesPerSecond(-owed, rate, passes, slept);
    }
  }

  /** Sleeps a debt off in slices; `late(i)` is how much later than asked the i-th sleep ends. */
  method PayOff(owed: real, now: int, rate: real, late: nat -> nat)
    returns (tok: real, last: int, passes: nat, slept: nat)
    requires rate > 0.0 && Ends(owed, rate)
    ensures tok >= -NOISE
    ensures owed < -NOISE ==> tok <= 0.0 && passes <= (-owed / rate).Floor + 1 && Tokens(slept, rate) <= -owed
    ensures owed >= -NOISE ==> tok == owed && passes == 0 && slept == 0
    ensures now + slept <= last && (passes == 0 ==> last == now) && tok == owed + Tokens(slept, rate)
    ensures slept <= passes * 1_000_000_000
  {
    passes, slept := 0, 0;
    tok, last := owed, now;
    PayingBegins(owed, rate);
    hide Paying, Ends, Whole, Sleep, Paid, Tokens;
    while tok < -NOISE
      invariant Paying(owed, tok, rate, passes, slept, last - now)
      decreases Whole(-tok, rate)
    {
      PayingGoesOn(owed, tok, rate, passes, slept, last - now, late(passes));
      var sleep := Sleep(-tok, rate);
      tok := Paid(tok, rate);
      last := last + sleep + late(passes);
      passes, slept := passes + 1, slept + sleep;
    }
    PayingDone(owed, tok, rate, passes, slept, last - now);
  }

  // ------------------------------------------------------------------ the pacer

  /** The token balance and the clock reading it belongs to. */
  datatype Balance = Balance(tok: real, last: int)

  /** The balance when a call has read the clock, before it takes anything. */
  function Refilled(was: Option<Balance>, now: int, rate: real, burst: real): real {
    if was.None? then burst else Min(was.value.tok + Tokens(now - was.value.last, rate), burst)
  }

  /** The balance before the last line of a call: what was refilled, less what is taken, and what was slept off. */
  function Left(refilled: real, n: int, slept: nat, rate: real): real {
    refilled - n as real + Tokens(slept, rate)
  }

  function Max(a: real, b: real): real {
    if a >= b then a else b
  }

  class Pacer {
    const rate: real
    const burst: real
    var state: Option<Balance>

    ghost predicate Valid()
      reads this
    {
      && rate > 0.0
      && burst == rate * TOKEN_INTERVAL
      && (state.Some? ==> 0.0 <= state.value.tok <= burst)
    }

    constructor (wireRate: nat)
      requires wireRate > 0
      ensures Valid() && state.None? && rate == wireRate as real / AMP_ESTIMATE
    {
      rate := wireRate as real / AMP_ESTIMATE;
      burst := wireRate as real / AMP_ESTIMATE * TOKEN_INTERVAL;
      state := None;
    }

    /** Blocks until `n` bytes may be handed on; `now` is the clock on entry. */
    method Wait(n: int, now: int, late: nat -> nat) returns (passes: nat, slept: nat)
      requires Valid()
      requires state.Some? ==> state.value.last <= now
      requires n > 0 ==> Ends(Refilled(state, now, rate, burst) - n as real, rate)
      modifies this
      ensures Valid()
      ensures n <= 0 ==> state == old(state) && passes == 0 && slept == 0
      ensures n > 0 ==> state.Some? && now + slept <= state.value.last && (passes == 0 ==> state.value.last == now)
      ensures n > 0 ==>
        var left := Left(Refilled(old(state), now, rate, burst), n, slept, rate);
        left >= -NOISE && state.value.tok == Max(left, 0.0)
      ensures n > 0 ==>
        var refilled, after := Refilled(old(state), now, rate, burst), state.value;
        n as real <= refilled - after.tok + Tokens(after.last - now, rate) <==>
          -Left(refilled, n, slept, rate) <= Tokens(after.last - now - slept, rate)
      ensures n > 0 ==>
        var deficit := n as real - Refilled(old(state), now, rate, burst);
        if deficit > NOISE then
          passes <= (deficit / rate).Floor + 1 && Tokens(slept, rate) <= deficit
        else
          passes == 0 && slept == 0
      ensures slept <= passes * 1_000_000_000
      ensures n as real <= burst && (old(state).None? || now - old(state).value.last >= 100_000_000) ==> slept == 0
    {
      assert Tokens(100_000_000, rate) == rate * TOKEN_INTERVAL;
      if state.Some? && now - state.value.last >= 100_000_000 {
        TokensGrow(100_000_000, now - state.value.last, rate);
      }
      hide Tokens, Ends;
      passes, slept := 0, 0;
      if n <= 0 {
        return;
      }
      var tok := Refilled(state, now, rate, burst) - n as real;
      var last;
      tok, last, passes, slept := PayOff(tok, now, rate, late);
      if tok < 0.0 {
        tok := 0.0;
      }
      state := Some(Balance(tok, last));
      TokensAdd(slept, last - now - slept, rate);
      TokensGrow(0, last - now - slept, rate);
      NoTimeNoTokens(rate);
    }
  }

  lemma NoTimeNoTokens(rate: real)
    ensures Tokens(0, rate) == 0.0
  {
  }

  /** No pacer at all when the budget is zero. */
  method NewPacer(wireRate: nat) returns (p: Pacer?)
    ensures p == null <==> wireRate == 0
    ensures p != null ==> fresh(p) && p.Valid() && p.state.None? && p.rate == wireRate as real / AMP_ESTIMATE
  {
    if wireRate == 0 {
      return null;
    }
    p := new Pacer(wireRate);
  }

  // ------------------------------------------------------------- what a call does

  /** When a call read the clock, and how long it asked to sleep. */
  datatype Visit = Visit(now: int, slept: nat)

  function LeftBy(before: Balance, n: int, v: Visit, rate: real, burst: real): real {
    Left(Refilled(Some(before), v.now, rate, burst), n, v.slept, rate)
  }

  /** A call takes the balance `before` to `after`. */
  ghost predicate Serves(before: Balance, n: int, v: Visit, after: Balance, rate: real, burst: real) {
    && (n <= 0 ==> after == before)
    && (n > 0 ==>
          && before.last <= v.now && v.now + v.slept <= after.last
          && LeftBy(before, n, v, rate, burst) >= -NOISE
          && after.tok == Max(LeftBy(before, n, v, rate, burst), 0.0))
  }

  /** What a call grants beyond what its tokens cover: the debt it takes for noise. */
  function Forgiven(before: Balance, n: int, v: Visit, rate: real, burst: real): real {
    if n <= 0 then 0.0 else Max(-LeftBy(before, n, v, rate, burst), 0.0)
  }

  /** Tokens that are lost: above the burst, by sleeping longer than asked, or where less than nothing is taken. */
  function Wasted(before: Balance, n: int, v: Visit, after: Balance, rate: real, burst: real): real {
    if n <= 0 then -(n as real)
    else
      var accrued := before.tok + Tokens(v.now - before.last, rate);
      accrued - Refilled(Some(before), v.now, rate, burst) + Tokens(after.last - v.now - v.slept, rate)
  }

  /** A call grants exactly what its balance lost, time brought and noise forgave, less what was wasted. */
  lemma CallAccount(before: Balance, n: int, v: Visit, after: Balance, rate: real, burst: real)
    requires rate > 0.0 && Serves(before, n, v, after, rate, burst)
    ensures
      var forgiven, wasted := Forgiven(before, n, v, rate, burst), Wasted(before, n, v, after, rate, burst);
      && n as real == before.tok - after.tok + Tokens(after.last - before.last, rate) + forgiven - wasted
      && 0.0 <= forgiven <= NOISE && 0.0 <= wasted
  {
    hide Tokens;
    NoTimeNoTokens(rate);
    if n > 0 {
      TokensAdd(v.now - before.last, after.last - v.now, rate);
      TokensAdd(v.slept, after.last - v.now - v.slept, rate);
      TokensGrow(0, after.last - v.now - v.slept, rate);
    }
  }

  // ---------------------------------------------------------------- any window

  function Total(sizes: seq<int>): int {
    if sizes == [] then 0 else Total(sizes[..|sizes| - 1]) + sizes[|sizes| - 1]
  }

  /** Successive calls, from whichever forwarder, and the balances between them. */
  ghost predicate Calls(balances: seq<Balance>, sizes: seq<int>, visits: seq<Visit>, rate: real, burst: real) {
    && |balances| == |sizes| + 1 == |visits| + 1
    && (forall i :: 0 <= i < |balances| ==> 0.0 <= balances[i].tok <= burst)
    && (forall i :: 0 <= i < |sizes| ==> Serves(balances[i], sizes[i], visits[i], balances[i + 1], rate, burst))
  }

  /** All that the calls forgave. */
  function AllForgiven(balances: seq<Balance>, sizes: seq<int>, visits: seq<Visit>, rate: real, burst: real): real
    requires |balances| == |sizes| + 1 == |visits| + 1
  {
    if sizes == [] then 0.0
    else
      var k := |sizes| - 1;
      AllForgiven(balances[..k + 1], sizes[..k], visits[..k], rate, burst)
      + Forgiven(balances[k], sizes[k], visits[k], rate, burst)
  }

  /** All that the calls wasted. */
  function AllWasted(balances: seq<Balance>, sizes: seq<int>, visits: seq<Visit>, rate: real, burst: real): real
    requires |balances| == |sizes| + 1 == |visits| + 1
  {
    if sizes == [] then 0.0
    else
      var k := |sizes| - 1;
      AllWasted(balances[..k + 1], sizes[..k], visits[..k], rate, burst)
      + Wasted(balances[k], sizes[k], visits[k], balances[k + 1], rate, burst)
  }

  /** The accounts of successive calls add up. */
  lemma {:induction false} Telescopes(
    balances: seq<Balance>, sizes: seq<int>, visits: seq<Visit>, rate: real, burst: real)
    requires rate > 0.0 && Calls(balances, sizes, visits, rate, burst)
    ensures
      var first, last := balances[0], balances[|sizes|];
      var forgiven := AllForgiven(balances, sizes, visits, rate, burst);
      var wasted := AllWasted(balances, sizes, visits, rate, burst);
      && Total(sizes) as real == first.tok - last.tok + Tokens(last.last - first.last, rate) + forgiven - wasted
      && 0.0 <= forgiven <= NOISE * |sizes| as real && 0.0 <= wasted
  {
    if sizes == [] {
      NoTimeNoTokens(rate);
    } else {
      hide Tokens, Forgiven, Wasted;
      var k := |sizes| - 1;
      FirstCalls(balances, sizes, visits, rate, burst);
      Telescopes(balances[..k + 1], sizes[..k], visits[..k], rate, burst);
      assert Serves(balances[k], sizes[k], visits[k], balances[k + 1], rate, burst);
      CallAccount(balances[k], sizes[k], visits[k], balances[k + 1], rate, burst);
      TokensAdd(balances[k].last - balances[0].last, balances[k + 1].last - balances[k].last, rate);
    }
  }

  lemma FirstCalls(balances: seq<Balance>, sizes: seq<int>, visits: seq<Visit>, rate: real, burst: real)
    requires sizes != [] && Calls(balances, sizes, visits, rate, burst)
    ensures
      var k := |sizes| - 1;
      Calls(balances[..k + 1], sizes[..k], visits[..k], rate, burst)
  {
    CallsWithin(balances, sizes, visits, rate, burst, 0, |sizes| - 1);
    assert balances[0..|sizes|] == balances[..|sizes|];
    assert sizes[0..|sizes| - 1] == sizes[..|sizes| - 1] && visits[0..|sizes| - 1] == visits[..|sizes| - 1];
  }

  lemma CallsWithin(
    balances: seq<Balance>, sizes: seq<int>, visits: seq<Visit>, rate: real, burst: real, i: nat, j: nat)
    requires Calls(balances, sizes, visits, rate, burst) && i <= j <= |sizes|
    ensures Calls(balances[i..j + 1], sizes[i..j], visits[i..j], rate, burst)
  {
    hide Serves;
    forall k | 0 <= k < j - i
      ensures Serves(balances[i..j + 1][k], sizes[i..j][k], visits[i..j][k], balances[i..j + 1][k + 1], rate, burst)
    {
      assert Serves(balances[i + k], sizes[i + k], visits[i + k], balances[i + k + 1], rate, burst);
    }
  }

  lemma OnTheWire(ns: int, wireRate: real)
    ensures AMP_ESTIMATE * (wireRate / AMP_ESTIMATE * TOKEN_INTERVAL) == wireRate * TOKEN_INTERVAL
    ensures AMP_ESTIMATE * Tokens(ns, wireRate / AMP_ESTIMATE) == Tokens(ns, wireRate)
  {
  }

  /**
   Between any two returns, what all calls granted is at most one burst, the rate over the
   time that passed, and half a byte for each call; in bytes on the wire, the configured
   budget over that time and one token interval more.  It is at most burst and rate alone
   exactly when what was forgiven is made up for by what was wasted, what the bucket lacked
   at the first return and what it held at the last.
   */
  lemma WindowBound(balances: seq<Balance>, sizes: seq<int>, visits: seq<Visit>, wireRate: real)
    requires wireRate > 0.0
    requires Calls(balances, sizes, visits, wireRate / AMP_ESTIMATE, wireRate / AMP_ESTIMATE * TOKEN_INTERVAL)
    ensures
      var rate := wireRate / AMP_ESTIMATE;
      var burst := rate * TOKEN_INTERVAL;
      var elapsed := balances[|sizes|].last - balances[0].last;
      var forgiven := AllForgiven(balances, sizes, visits, rate, burst);
      var wasted := AllWasted(balances, sizes, visits, rate, burst);
      && Total(sizes) as real <= burst + Tokens(elapsed, rate) + NOISE * |sizes| as real
      && AMP_ESTIMATE * Total(sizes) as real <=
           wireRate * TOKEN_INTERVAL + Tokens(elapsed, wireRate) + AMP_ESTIMATE * NOISE * |sizes| as real
      && (Total(sizes) as real <= burst + Tokens(elapsed, rate) <==>
            forgiven <= wasted + (burst - balances[0].tok) + balances[|sizes|].tok)
  {
    var rate := wireRate / AMP_ESTIMATE;
    var burst := rate * TOKEN_INTERVAL;
    hide Tokens, Total, AllForgiven, AllWasted;
    Telescopes(balances, sizes, visits, rate, burst);
    OnTheWire(balances[|sizes|].last - balances[0].last, wireRate);
  }

  // ------------------------------------------------------------ calls in their turn

  /** The balance an unused pacer stands for: a full bucket, from now on. */
  function Standing(p: Pacer, now: int): Balance
    reads p
  {
    if p.state.Some? then p.state.value else Balance(p.burst, now)
  }

  /** A full bucket is as full later. */
  lemma FullBucketWaits(burst: real, start: int, now: int, rate: real)
    requires start <= now && rate > 0.0
    ensures Refilled(Some(Balance(burst, start)), now, rate, burst) == burst
  {
    hide Tokens;
    TokensGrow(0, now - start, rate);
    NoTimeNoTokens(rate);
  }

  /**
   The forwarders' calls, in the order they get the mutex, until one that would never
   return.  `pause(i)` is the time before the i-th call, and `late` how late its sleeps end.
   */
  method Serve(p: Pacer, sizes: seq<int>, start: int, pause: nat -> nat, late: nat -> nat -> nat)
    returns (served: nat, clock: int, ghost balances: seq<Balance>, ghost visits: seq<Visit>)
    requires p.Valid() && (p.state.Some? ==> p.state.value.last <= start)
    modifies p
    ensures p.Valid() && served <= |sizes|
    ensures Calls(balances, sizes[..served], visits, p.rate, p.burst)
    ensures balances[0] == old(Standing(p, start)) && balances[served] == Standing(p, start)
    ensures forall i, j :: 0 <= i <= j <= served ==>
      Within(balances, sizes[..served], visits, p.rate, p.burst, i, j)
    ensures served < |sizes| ==>
      && sizes[served] > 0
      && !Ends(Refilled(p.state, clock + pause(served), p.rate, p.burst) - sizes[served] as real, p.rate)
  {
    hide Tokens, Ends;
    served, clock := 0, start;
    balances, visits := [Standing(p, start)], [];
    while served < |sizes|
      invariant p.Valid() && 0 <= served <= |sizes| && start <= clock
      invariant p.state.Some? ==> p.state.value.last <= clock
      invariant Calls(balances, sizes[..served], visits, p.rate, p.burst)
      invariant balances[0] == old(Standing(p, start)) && balances[served] == Standing(p, start)
    {
      var n, now := sizes[served], clock + pause(served);
      if n > 0 && !Ends(Refilled(p.state, now, p.rate, p.burst) - n as real, p.rate) {
        break;
      }
      FullBucketWaits(p.burst, start, now, p.rate);
      var passes, slept := p.Wait(n, now, late(served));
      ghost var after := Standing(p, start);
      assert Serves(balances[served], n, Visit(now, slept), after, p.rate, p.burst);
      CallsNext(balances, sizes[..served], visits, p.rate, p.burst, n, Visit(now, slept), after);
      assert sizes[..served + 1] == sizes[..served] + [n];
      balances, visits := balances + [after], visits + [Visit(now, slept)];
      clock := if n > 0 then p.state.value.last else now;
      served := served + 1;
    }
    forall i, j | 0 <= i <= j <= served
      ensures Within(balances, sizes[..served], visits, p.rate, p.burst, i, j)
    {
      AnyWindow(balances, sizes[..served], visits, p.rate, p.burst, i, j);
    }
  }

  /** The account of the calls from the i-th to before the j-th, and the bound it gives. */
  ghost predicate Within(
    balances: seq<Balance>, sizes: seq<int>, visits: seq<Visit>, rate: real, burst: real, i: nat, j: nat)
    requires i <= j <= |sizes| == |visits| == |balances| - 1
  {
    var total, time := Total(sizes[i..j]) as real, Tokens(balances[j].last - balances[i].last, rate);
    var forgiven := AllForgiven(balances[i..j + 1], sizes[i..j], visits[i..j], rate, burst);
    var wasted := AllWasted(balances[i..j + 1], sizes[i..j], visits[i..j], rate, burst);
    && total == balances[i].tok - balances[j].tok + time + forgiven - wasted
    && total <= burst + time + NOISE * (j - i) as real
    && (total <= burst + time <==> forgiven <= wasted + (burst - balances[i].tok) + balances[j].tok)
  }

  lemma AnyWindow(
    balances: seq<Balance>, sizes: seq<int>, visits: seq<Visit>, rate: real, burst: real, i: nat, j: nat)
    requires rate > 0.0 && Calls(balances, sizes, visits, rate, burst) && i <= j <= |sizes|
    ensures Within(balances, sizes, visits, rate, burst, i, j)
  {
    CallsWithin(balances, sizes, visits, rate, burst, i, j);
    var window := balances[i..j + 1];
    assert window[0] == balances[i] && window[j - i] == balances[j];
    hide Tokens, Total, AllForgiven, AllWasted;
    Telescopes(window, sizes[i..j], visits[i..j], rate, burst);
  }

  lemma CallsNext(
    balances: seq<Balance>, sizes: seq<int>, visits: seq<Visit>, rate: real, burst: real,
    n: int, v: Visit, after: Balance)
    requires Calls(balances, sizes, visits, rate, burst)
    requires Serves(balances[|sizes|], n, v, after, rate, burst) && 0.0 <= after.tok <= burst
    ensures Calls(balances + [after], sizes + [n], visits + [v], rate, burst)
  {
    hide Serves;
    var balances', sizes', visits' := balances + [after], sizes + [n], visits + [v];
    forall i | 0 <= i < |sizes'|
      ensures Serves(balances'[i], sizes'[i], visits'[i], balances'[i + 1], rate, burst)
    {
      assert i < |sizes| ==> Serves(balances[i], sizes[i], visits[i], balances[i + 1], rate, burst);
    }
  }

  // ---------------------------------------------------------------- single calls

  /** Half a byte is really granted beyond burst and rate: one byte passes at once through a bucket of half a one. */
  method HalfByteForgiven() returns (p: Pacer)
    ensures fresh(p) && p.Valid() && p.rate == 5.0
    ensures p.state.Some? && p.state.value.last == 0 && 1.0 > p.burst + Tokens(p.state.value.last - 0, p.rate)
  {
    p := new Pacer(13);
    var passes, slept := p.Wait(1, 0, i => 0);
  }

  /** A call that never returns: beyond a bucket of 150 million bytes, one byte lasts two thirds of a nanosecond. */
  lemma NeverReturns(k: nat)
    ensures
      var rate := 3_900_000_000.0 / AMP_ESTIMATE;
      var owed := Refilled(None, 0, rate, rate * TOKEN_INTERVAL) - 150_000_001.0;
      !Ends(owed, rate) && Passes(owed, rate, k) < -NOISE
  {
    var rate := 3_900_000_000.0 / AMP_ESTIMATE;
    assert Nanos(1.0, rate) < 1.0 && Nanos(1.0, rate) >= 0.0;
    assert Tokens(0, rate) == 0.0;
    NeverEnough(-1.0, rate, k);
  }

  /** At other rates as fast every whole debt ends: at one byte a nanosecond there is no remainder. */
  lemma WholeDebtEnds(bytes: nat)
    ensures Ends(-(bytes as real), 1_000_000_000.0)
  {
    assert Nanos(bytes as real, 1_000_000_000.0) == bytes as real;
    assert Tokens(bytes, 1_000_000_000.0) == bytes as real;
  }
}
