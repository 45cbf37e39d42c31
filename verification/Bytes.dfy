/** Byte strings and the few operations on them that the forwarders share. */
module Bytes {

  newtype byte = b: int | 0 <= b < 256

  const LF: byte := 10
  const CR: byte := 13
  const ESC: byte := 27

  /** Position of the first `c` in `s`, or -1. */
  function IndexByte(s: seq<byte>, c: byte): (r: int)
    ensures -1 <= r < |s|
  {
    if s == [] then -1
    else if s[0] == c then 0
    else
      var rest := IndexByte(s[1..], c);
      if rest < 0 then -1 else rest + 1
  }

  /** There is a `c` at the position found, none before it, and none at all if there is no such position. */
  lemma {:induction false} IndexByteIsFirst(s: seq<byte>, c: byte)
    ensures var r := IndexByte(s, c);
      && (r >= 0 ==> s[r] == c)
      && forall i :: 0 <= i < (if r < 0 then |s| else r) ==> s[i] != c
  {
    if s != [] && s[0] != c {
      IndexByteIsFirst(s[1..], c);
      assert forall i :: 0 < i < |s| ==> s[i] == s[1..][i - 1];
    }
  }

  /** Concatenation of the lines of a cache. */
  function Flat(lines: seq<seq<byte>>): seq<byte> {
    if lines == [] then [] else lines[0] + Flat(lines[1..])
  }

  lemma {:induction false} FlatConcat(a: seq<seq<byte>>, b: seq<seq<byte>>)
    ensures Flat(a + b) == Flat(a) + Flat(b)
  {
    if a == [] {
      assert a + b == b;
    } else {
      assert (a + b)[1..] == a[1..] + b;
      FlatConcat(a[1..], b);
    }
  }

  lemma FlatOne(line: seq<byte>)
    ensures Flat([line]) == line
  {
    assert [line][1..] == [];
  }

  /** Number of occurrences of `c`. */
  function CountByte(s: seq<byte>, c: byte): nat {
    if s == [] then 0 else (if s[0] == c then 1 else 0) + CountByte(s[1..], c)
  }

  lemma {:induction false} CountByteConcat(a: seq<byte>, b: seq<byte>, c: byte)
    ensures CountByte(a + b, c) == CountByte(a, c) + CountByte(b, c)
  {
    if a == [] {
      assert a + b == b;
    } else {
      assert (a + b)[1..] == a[1..] + b;
      CountByteConcat(a[1..], b, c);
    }
  }

  /** ASCII text as bytes. */
  function Ascii(s: string): (r: seq<byte>)
    ensures |r| == |s|
  {
    seq(|s|, i requires 0 <= i < |s| => if s[i] < 128 as char then s[i] as int as byte else 63)
  }

  /** Decimal rendering of a counter. */
  function Decimal(n: nat): seq<byte> {
    if n < 10 then [(48 + n) as byte] else Decimal(n / 10) + [(48 + n % 10) as byte]
  }
}
