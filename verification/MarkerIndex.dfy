/**
 The index in a discard-input marker: a 32-bit counter that skips every number with a
 ';' or a carriage return among its four bytes.
 */
module MarkerIndex {
  import opened Bytes

  const SEMICOLON: byte := 0x3B
  const WORD := 0x1_0000_0000

  /** 256 to the i. */
  function Unit(i: nat): (u: nat)
    requires i < 4
    ensures u > 0
  {
    if i == 0 then 1 else if i == 1 then 0x100 else if i == 2 then 0x1_0000 else 0x100_0000
  }

  /** The i-th byte of an index, the lowest first. */
  function Digit(n: nat, i: nat): (d: nat)
    requires i < 4
    ensures d < 256
  {
    n / Unit(i) % 256
  }

  predicate Bad(d: nat) {
    d == SEMICOLON as nat || d == CR as nat
  }

  predicate Clean(n: nat) {
    !Bad(Digit(n, 3)) && !Bad(Digit(n, 2)) && !Bad(Digit(n, 1)) && !Bad(Digit(n, 0))
  }

  /** `next` is the least clean number above `prev`. */
  ghost predicate IsNext(prev: nat, next: nat) {
    && prev < next < WORD
    && Clean(next)
    && forall m :: prev < m < next ==> !Clean(m)
  }

  /** Numbers that agree from byte `i` up. */
  lemma SameAbove(n: nat, m: nat, i: nat, j: nat)
    requires i <= j < 4 && n / Unit(i) == m / Unit(i)
    ensures Digit(n, j) == Digit(m, j)
  {
    var k := Unit(j) / Unit(i);
    DividesTwice(n, Unit(i), k);
    DividesTwice(m, Unit(i), k);
  }

  lemma DividesTwice(n: nat, a: nat, b: nat)
    requires a in {1, 0x100, 0x1_0000, 0x100_0000} && b in {1, 0x100, 0x1_0000, 0x100_0000} && a * b <= 0x100_0000
    ensures n / (a * b) == n / a / b
  {
  }

  /** The correction at byte `i`: the byte counts up, those below it become zero, those above it stay. */
  function Corrected(n: nat, i: nat): nat
    requires i < 4
  {
    (n / Unit(i) + 1) * Unit(i)
  }

  function Compose(d3: nat, d2: nat, d1: nat, d0: nat): nat {
    ((d3 * 256 + d2) * 256 + d1) * 256 + d0
  }

  lemma Peel(q: nat, r: nat)
    requires r < 256
    ensures (q * 256 + r) / 256 == q && (q * 256 + r) % 256 == r
  {
  }

  /** Each byte as a remainder of repeated division by 256. */
  lemma DigitByDivision(n: nat)
    ensures Digit(n, 0) == n % 256
    ensures Digit(n, 1) == n / 256 % 256
    ensures Digit(n, 2) == n / 256 / 256 % 256
    ensures Digit(n, 3) == n / 256 / 256 / 256 % 256
    ensures n / 0x1_0000 == n / 256 / 256 && n / 0x100_0000 == n / 256 / 256 / 256
  {
    DividesTwice(n, 0x100, 0x100);
    DividesTwice(n, 0x1_0000, 0x100);
  }

  lemma DigitsOf(d3: nat, d2: nat, d1: nat, d0: nat)
    requires d3 < 256 && d2 < 256 && d1 < 256 && d0 < 256
    ensures
      var n := Compose(d3, d2, d1, d0);
      n < WORD && Digit(n, 3) == d3 && Digit(n, 2) == d2 && Digit(n, 1) == d1 && Digit(n, 0) == d0
  {
    hide Digit;
    DigitByDivision(Compose(d3, d2, d1, d0));
    Peel((d3 * 256 + d2) * 256 + d1, d0);
    Peel(d3 * 256 + d2, d1);
    Peel(d3, d2);
  }

  lemma Decompose(n: nat)
    requires n < WORD
    ensures n == Compose(Digit(n, 3), Digit(n, 2), Digit(n, 1), Digit(n, 0))
    ensures n / 0x100 == (Digit(n, 3) * 256 + Digit(n, 2)) * 256 + Digit(n, 1)
    ensures n / 0x1_0000 == Digit(n, 3) * 256 + Digit(n, 2)
    ensures n / 0x100_0000 == Digit(n, 3)
  {
    hide Digit;
    DigitByDivision(n);
  }

  /** The bytes of a corrected number. */
  lemma CorrectedIs(n: nat, i: nat)
    requires i < 4 && n < WORD
    ensures
      var d3, d2, d1, d0 := Digit(n, 3), Digit(n, 2), Digit(n, 1), Digit(n, 0);
      && n < Corrected(n, i)
      && Corrected(n, i) ==
           if i == 0 then Compose(d3, d2, d1, d0 + 1)
           else if i == 1 then Compose(d3, d2, d1 + 1, 0)
           else if i == 2 then Compose(d3, d2 + 1, 0, 0)
           else Compose(d3 + 1, 0, 0, 0)
  {
    hide Digit;
    Decompose(n);
  }

  /** Correcting the highest bad byte leaves no bad byte. */
  lemma CorrectedIsClean(n: nat, i: nat)
    requires i < 4 && n < WORD && Bad(Digit(n, i))
    requires forall j :: i < j < 4 ==> !Bad(Digit(n, j))
    ensures n < Corrected(n, i) < WORD && Clean(Corrected(n, i))
  {
    hide Digit, Corrected;
    CorrectedIs(n, i);
    var d3, d2, d1, d0 := Digit(n, 3), Digit(n, 2), Digit(n, 1), Digit(n, 0);
    if i == 0 {
      DigitsOf(d3, d2, d1, d0 + 1);
    } else if i == 1 {
      DigitsOf(d3, d2, d1 + 1, 0);
    } else if i == 2 {
      DigitsOf(d3, d2 + 1, 0, 0);
    } else {
      DigitsOf(d3 + 1, 0, 0, 0);
    }
  }

  lemma CorrectedIsNext(prev: nat, n: nat, i: nat)
    requires n == prev + 1 < WORD && i < 4 && Bad(Digit(n, i))
    requires forall j :: i < j < 4 ==> !Bad(Digit(n, j))
    ensures IsNext(prev, Corrected(n, i))
  {
    CorrectedIsClean(n, i);
    hide Digit, Unit;
    forall m | prev < m < Corrected(n, i)
      ensures !Clean(m)
    {
      Between(n, m, i);
      SameAbove(n, m, i, i);
    }
  }

  lemma Between(n: nat, m: nat, i: nat)
    requires i < 4 && n <= m < Corrected(n, i)
    ensures m / Unit(i) == n / Unit(i)
  {
  }

  lemma ZeroIsClean()
    ensures Clean(0) && forall j :: 0 <= j < 4 ==> !Bad(Digit(0, j))
  {
  }

  lemma BadBytes()
    ensures forall d: nat :: Bad(d) <==> d == 59 || d == 13
  {
  }

  class Markers {
    var currentIndex: nat

    constructor ()
      ensures currentIndex == 0
    {
      currentIndex := 0;
    }

    /** The next index, whatever the last one was; after the largest number the counter begins again at zero. */
    method NextIndex() returns (index: nat)
      requires currentIndex < WORD
      modifies this
      ensures index == currentIndex < WORD && Clean(index)
      ensures old(currentIndex) < WORD - 1 ==> IsNext(old(currentIndex), index)
      ensures old(currentIndex) == WORD - 1 ==> index == 0
      ensures forall i :: 0 <= i < 4 ==> Digit(index, i) != 59 && Digit(index, i) != 13
    {
      ZeroIsClean();
      BadBytes();
      hide Digit, Unit, Bad;
      currentIndex := if currentIndex == WORD - 1 then 0 else currentIndex + 1;
      var i := 3;
      while i >= 0
        invariant -1 <= i <= 3
        invariant currentIndex == if old(currentIndex) == WORD - 1 then 0 else old(currentIndex) + 1
        invariant forall j :: i < j < 4 ==> !Bad(Digit(currentIndex, j))
      {
        if Bad(Digit(currentIndex, i)) {
          CorrectedIsNext(currentIndex - 1, currentIndex, i);
          currentIndex := (currentIndex / Unit(i) + 1) * Unit(i);
          return currentIndex;
        }
        i := i - 1;
      }
      return currentIndex;
    }
  }
}
