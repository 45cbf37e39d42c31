/**
 Reading the warning: both counters can be told from its text, by a parser of decimal
 numbers that knows nothing of how they were written, also through a tmux notification.
 */
module OutputWarnings {
  import opened Bytes
  import opened Options
  import opened OutputCache

  predicate IsDigit(b: byte) {
    48 <= b <= 57
  }

  /** The digits a text begins with. */
  function Digits(s: seq<byte>): nat {
    if s != [] && IsDigit(s[0]) then 1 + Digits(s[1..]) else 0
  }

  lemma {:induction false} DigitsWithin(s: seq<byte>)
    ensures Digits(s) <= |s|
  {
    if s != [] && IsDigit(s[0]) {
      DigitsWithin(s[1..]);
    }
  }

  /** The number a row of digits shows, read from the left. */
  function Number(s: seq<byte>, before: nat): nat {
    if s == [] || !IsDigit(s[0]) then before else Number(s[1..], 10 * before + (s[0] as int - 48))
  }

  lemma {:induction false} NumberAppend(s: seq<byte>, b: byte, before: nat)
    requires IsDigit(b) && forall i :: 0 <= i < |s| ==> IsDigit(s[i])
    ensures Number(s + [b], before) == 10 * Number(s, before) + (b as int - 48)
  {
    if s == [] {
      assert s + [b] == [b] && [b][1..] == [];
    } else {
      assert (s + [b])[1..] == s[1..] + [b];
      NumberAppend(s[1..], b, 10 * before + (s[0] as int - 48));
    }
  }

  lemma {:induction false} DecimalReads(n: nat)
    ensures Decimal(n) != [] && (forall i :: 0 <= i < |Decimal(n)| ==> IsDigit(Decimal(n)[i]))
    ensures Number(Decimal(n), 0) == n
  {
    if n < 10 {
      assert Decimal(n)[1..] == [];
    } else {
      DecimalReads(n / 10);
      NumberAppend(Decimal(n / 10), (48 + n % 10) as byte, 0);
    }
  }

  lemma {:induction false} DigitsEnd(s: seq<byte>, rest: seq<byte>)
    requires (forall i :: 0 <= i < |s| ==> IsDigit(s[i])) && (rest != [] ==> !IsDigit(rest[0]))
    ensures Digits(s + rest) == |s|
  {
    if s == [] {
      assert s + rest == rest;
    } else {
      assert (s + rest)[1..] == s[1..] + rest;
      DigitsEnd(s[1..], rest);
    }
  }

  /** Two numbers a line shows: the first after `skip` bytes, the second `gap` bytes after the first. */
  function ReadTwo(line: seq<byte>, skip: nat, gap: nat): Option<(nat, nat)> {
    if skip > |line| then None
    else
      DigitsWithin(line[skip..]);
      var first := line[skip..][..Digits(line[skip..])];
      var behind := line[skip..][|first|..];
      if gap > |behind| then None
      else
        DigitsWithin(behind[gap..]);
        Some((Number(first, 0), Number(behind[gap..][..Digits(behind[gap..])], 0)))
  }

  lemma TwoAreRead(head: seq<byte>, a: nat, between: seq<byte>, b: nat, tail: seq<byte>)
    requires between != [] && !IsDigit(between[0]) && tail != [] && !IsDigit(tail[0])
    ensures ReadTwo(head + Decimal(a) + between + Decimal(b) + tail, |head|, |between|) == Some((a, b))
  {
    var line := head + Decimal(a) + between + Decimal(b) + tail;
    DecimalReads(a);
    DecimalReads(b);
    hide Decimal, Number;
    assert line[|head|..] == Decimal(a) + (between + Decimal(b) + tail);
    DigitsEnd(Decimal(a), between + Decimal(b) + tail);
    hide Digits;
    assert line[|head|..][..|Decimal(a)|] == Decimal(a);
    var behind := line[|head|..][|Decimal(a)|..];
    assert behind == between + Decimal(b) + tail;
    assert behind[|between|..] == Decimal(b) + tail;
    DigitsEnd(Decimal(b), tail);
    assert behind[|between|..][..|Decimal(b)|] == Decimal(b);
  }

  /** What tmux makes of the escaped bytes of a notification. */
  function Unescape(s: seq<byte>): seq<byte> {
    if s == [] then []
    else if s[0] == 92 && |s| >= 4 && IsDigit(s[1]) && IsDigit(s[2]) && IsDigit(s[3]) then
      var code := 64 * (s[1] as int - 48) + 8 * (s[2] as int - 48) + (s[3] as int - 48);
      [(code % 256) as byte] + Unescape(s[4..])
    else [s[0]] + Unescape(s[1..])
  }

  lemma ThreeDigits(n: nat)
    ensures 64 * (n / 64) + 8 * (n / 8 % 8) + n % 8 == n
  {
    assert n / 8 == 8 * (n / 64) + n / 8 % 8;
  }

  lemma OctalReads(b: byte, rest: seq<byte>)
    ensures Unescape(Octal(b) + rest) == [b] + Unescape(rest)
  {
    var s, n := Octal(b) + rest, b as int;
    assert s[4..] == rest;
    assert s[0] == 92 && s[1] as int - 48 == n / 64 && s[2] as int - 48 == n / 8 % 8 && s[3] as int - 48 == n % 8;
    ThreeDigits(n);
  }

  lemma PlainReads(b: byte, rest: seq<byte>)
    requires b != 92
    ensures Unescape([b] + rest) == [b] + Unescape(rest)
  {
    assert ([b] + rest)[1..] == rest;
  }

  /** Escaping for tmux loses nothing. */
  lemma {:induction false} EscapeRoundTrips(output: seq<byte>)
    ensures Unescape(EscapeTmux(output)) == output
  {
    if output != [] {
      hide Unescape, Octal;
      var b, rest := output[0], output[1..];
      EscapeRoundTrips(rest);
      if b < 32 || b == 92 || b > 126 {
        OctalReads(b, EscapeTmux(rest));
      } else {
        PlainReads(b, EscapeTmux(rest));
      }
    }
  }

  /** The line inside a notification that begins with `prefix`, or the text itself. */
  function Shown(text: seq<byte>, prefix: seq<byte>): seq<byte> {
    if prefix == [] || !(prefix <= text) || |text| < |prefix| + 2 then text
    else Unescape(text[|prefix|..|text| - 2])
  }

  lemma EncodingShows(prefix: seq<byte>, line: seq<byte>)
    requires prefix != []
    ensures Shown(EncodeTmuxOutput(prefix, line), prefix) == line
  {
    EscapeRoundTrips(line);
    var text := EncodeTmuxOutput(prefix, line);
    assert text[|prefix|..|text| - 2] == EscapeTmux(line);
    assert prefix <= text;
  }

  predicate IsPrintable(s: seq<byte>) {
    forall i :: 0 <= i < |s| ==> 32 <= s[i] <= 126
  }

  /** Text that needs no escape is left as it is. */
  lemma {:induction false} PlainStays(output: seq<byte>)
    requires IsPrintable(output) && 92 !in output
    ensures EscapeTmux(output) == output
  {
    if output != [] {
      PlainStays(output[1..]);
    }
  }

  lemma OctalPrintable(b: byte)
    ensures IsPrintable(Octal(b))
  {
    var n := b as int;
    assert n / 64 <= 3 && n / 8 % 8 <= 7 && n % 8 <= 7;
  }

  lemma {:induction false} EscapedIsPrintable(output: seq<byte>)
    ensures IsPrintable(EscapeTmux(output))
  {
    if output != [] {
      hide Octal;
      OctalPrintable(output[0]);
      EscapedIsPrintable(output[1..]);
    }
  }

  /** A notification line as tmux writes them: the prefix, printable bytes, and the end of the line. */
  predicate IsNotification(text: seq<byte>, prefix: seq<byte>) {
    && |text| >= |prefix| + 2 && prefix <= text && text[|text| - 2..] == [CR, LF]
    && IsPrintable(text[|prefix|..|text| - 2])
  }

  lemma EncodesNotification(prefix: seq<byte>, line: seq<byte>)
    ensures IsNotification(EncodeTmuxOutput(prefix, line), prefix)
  {
    EscapedIsPrintable(line);
    var text := EncodeTmuxOutput(prefix, line);
    assert text[|prefix|..|text| - 2] == EscapeTmux(line);
  }

  /** Where the two counters stand in the warning. */
  const COUNTERS_AT := 33
  const COUNTERS_GAP := 7

  lemma Regroup(
    a: seq<byte>, b: seq<byte>, c: seq<byte>, d: seq<byte>, e: seq<byte>, f: seq<byte>, g: seq<byte>, h: seq<byte>)
    ensures a + b + c + d + e + f + g + h == a + (b + (c + d + e + f + g + h))
  {
  }

  lemma BeginsWithSpace(text: string, rest: seq<byte>)
    requires text != "" && text[0] == ' '
    ensures Ascii(text) + rest != [] && !IsDigit((Ascii(text) + rest)[0])
  {
  }

  /** Both counters can be read off a warning, on a terminal and inside a tmux notification. */
  lemma WarningReads(lines: nat, bytes: nat, newline: seq<byte>, prefix: seq<byte>)
    ensures ReadTwo(Shown(WarningText(lines, bytes, newline, prefix), prefix), COUNTERS_AT, COUNTERS_GAP)
      == Some((lines, bytes))
    ensures prefix != [] ==> IsNotification(WarningText(lines, bytes, newline, prefix), prefix)
  {
    var head := [CR, ESC] + Ascii("[0;33mWarning: tsshd discarded ");
    var counters := head + Decimal(lines) + Ascii(" lines ") + Decimal(bytes);
    var end := " of output during client disconnection at this point!";
    var codes := Ascii(end) + [ESC] + Ascii("[0m") + [ESC] + Ascii("[K") + newline;
    BeginsWithSpace(" bytes", codes);
    BeginsWithSpace(" lines ", []);
    assert |head| == COUNTERS_AT && |Ascii(" lines ")| == COUNTERS_GAP && Ascii(" lines ") + [] == Ascii(" lines ");
    hide Decimal, ReadTwo, Ascii, IsNotification;
    TwoAreRead(head, lines, Ascii(" lines "), bytes, Ascii(" bytes") + codes);
    Regroup(counters, Ascii(" bytes"), Ascii(end), [ESC], Ascii("[0m"), [ESC], Ascii("[K"), newline);
    assert WarningText(lines, bytes, newline, []) == counters + (Ascii(" bytes") + codes);
    if prefix != [] {
      EncodingShows(prefix, counters + (Ascii(" bytes") + codes));
      EncodesNotification(prefix, counters + (Ascii(" bytes") + codes));
    }
  }

  /** On a terminal the warning ends as the first cached line does: with a carriage return, or with a newline. */
  lemma WarningEnds(c: Cache)
    requires c.tmuxPrefix == [] && c.lines != [] && c.lines[0] != []
    ensures
      var text, line := Warning(c), c.lines[0];
      text != [] && text[|text| - 1] == if line[|line| - 1] == CR then CR else LF
  {
    hide Decimal, Ascii;
  }

  // ------------------------------------------------------- the prefix for tmux

  /** The offset in a notification is that of the pane's name, a percent sign behind a space. */
  lemma OffsetIsPane(line: seq<byte>)
    ensures PaneOffset(line) > 0 ==>
      PaneOffset(line) < |line| && line[0] == 37 && line[PaneOffset(line)] == 37 && line[PaneOffset(line) - 1] == 32
    ensures PaneOffset(line) > 0 <==> Ascii("%output %") <= line || Ascii("%extended-output %") <= line
  {
  }

  /** How many of the lines are tmux output notifications. */
  function Notifications(lines: seq<seq<byte>>): nat {
    if lines == [] then 0 else (if PaneOffset(lines[0]) > 0 then 1 else 0) + Notifications(lines[1..])
  }

  /** The name of the pane in a notification, with the space behind it; nothing if there is none. */
  function Pane(line: seq<byte>): seq<byte> {
    var rest := if PaneOffset(line) <= |line| then line[PaneOffset(line)..] else [];
    var pos := IndexByte(rest, 32);
    if PaneOffset(line) > 0 && pos > 0 then rest[..pos + 1] else []
  }

  /** Line `i` names a pane and is the tenth notification or a later one. */
  predicate NamesPane(lines: seq<seq<byte>>, seen: nat, i: nat)
    requires i < |lines|
  {
    Pane(lines[i]) != [] && seen + Notifications(lines[..i + 1]) >= 10
  }

  ghost predicate NoneNamed(lines: seq<seq<byte>>, seen: nat, n: nat)
    requires n <= |lines|
  {
    forall i :: 0 <= i < n ==> !NamesPane(lines, seen, i)
  }

  /** Line `i` is the first to name a pane. */
  ghost predicate FirstNamed(lines: seq<seq<byte>>, seen: nat, i: nat) {
    i < |lines| && NamesPane(lines, seen, i) && NoneNamed(lines, seen, i)
  }

  /** The same one line earlier. */
  lemma NamedBehind(lines: seq<seq<byte>>, seen: nat, i: nat)
    requires lines != [] && i < |lines| - 1
    ensures
      var one := if PaneOffset(lines[0]) > 0 then 1 else 0;
      NamesPane(lines[1..], seen + one, i) <==> NamesPane(lines, seen, i + 1)
  {
    hide PaneOffset, Pane;
    assert lines[..i + 2][1..] == lines[1..][..i + 1];
  }

  lemma NoneNamedBehind(lines: seq<seq<byte>>, seen: nat, n: nat)
    requires lines != [] && n <= |lines| - 1 && !NamesPane(lines, seen, 0)
    requires NoneNamed(lines[1..], seen + (if PaneOffset(lines[0]) > 0 then 1 else 0), n)
    ensures NoneNamed(lines, seen, n + 1)
  {
    hide NamesPane, PaneOffset;
    forall i | 0 <= i < n + 1
      ensures !NamesPane(lines, seen, i)
    {
      if i > 0 {
        NamedBehind(lines, seen, i - 1);
      }
    }
  }

  lemma FirstLineNames(lines: seq<seq<byte>>, seen: nat)
    requires lines != []
    ensures
      var one := if PaneOffset(lines[0]) > 0 then 1 else 0;
      TmuxOutputPrefix(lines, seen) ==
      if NamesPane(lines, seen, 0) then Ascii("%output ") + Pane(lines[0]) else TmuxOutputPrefix(lines[1..], seen + one)
  {
    hide PaneOffset, Ascii, IndexByte;
    assert lines[..1] == [lines[0]] && [lines[0]][1..] == [];
    assert Notifications(lines[..1]) == if PaneOffset(lines[0]) > 0 then 1 else 0;
  }

  /** The prefix is made of the pane that the first such line names, and is empty exactly if there is none. */
  lemma {:induction false} PrefixNamesPane(lines: seq<seq<byte>>, seen: nat)
    ensures
      var prefix := TmuxOutputPrefix(lines, seen);
      || (prefix == [] && NoneNamed(lines, seen, |lines|))
      || (exists i: nat :: FirstNamed(lines, seen, i) && prefix == Ascii("%output ") + Pane(lines[i]))
  {
    if lines != [] {
      hide PaneOffset, NamesPane, NoneNamed, TmuxOutputPrefix, Ascii, Pane;
      FirstLineNames(lines, seen);
      if NamesPane(lines, seen, 0) {
        NothingBefore(lines, seen);
        assert FirstNamed(lines, seen, 0);
      } else {
        var rest, later := lines[1..], seen + if PaneOffset(lines[0]) > 0 then 1 else 0;
        PrefixNamesPane(rest, later);
        if i: nat :| FirstNamed(rest, later, i) && TmuxOutputPrefix(rest, later) == Ascii("%output ") + Pane(rest[i]) {
          NamedBehind(lines, seen, i);
          NoneNamedBehind(lines, seen, i);
          assert FirstNamed(lines, seen, i + 1) && lines[i + 1] == rest[i];
        } else {
          NoneNamedBehind(lines, seen, |lines| - 1);
        }
      }
    } else {
      assert NoneNamed(lines, seen, 0);
    }
  }

  lemma NothingBefore(lines: seq<seq<byte>>, seen: nat)
    ensures NoneNamed(lines, seen, 0)
  {
  }
}
