/**
 Patterns of sshd_config: the PATTERNS section of ssh_config(5), by way of a regular
 expression.
 */
module Wildcard {
  import opened Options

  // -------------------------------------------------------------------- patterns

  /** What a pattern means: '*' stands for any characters, '?' for exactly one. */
  predicate Glob(pattern: string, value: string)
    decreases |pattern| + |value|
  {
    if pattern == "" then value == ""
    else if pattern[0] == '*' then
      Glob(pattern[1..], value) || (value != "" && Glob(pattern, value[1..]))
    else
      value != "" && (pattern[0] == '?' || pattern[0] == value[0]) && Glob(pattern[1..], value[1..])
  }

  // --------------------------------------------------------- regular expressions

  /** The fragment of regular expressions that patterns translate to. */
  datatype Item = Literal(c: char) | Any | Star

  predicate NoNewline(s: string) {
    '\n' !in s
  }

  /** The language of a sequence of items: a dot does not match a newline. */
  predicate Matches(items: seq<Item>, value: string) {
    if items == [] then value == ""
    else
      match items[0]
      case Literal(c) => value != "" && value[0] == c && Matches(items[1..], value[1..])
      case Any => value != "" && value[0] != '\n' && Matches(items[1..], value[1..])
      case Star => exists k :: 0 <= k <= |value| && NoNewline(value[..k]) && Matches(items[1..], value[k..])
  }

  /** Characters with a meaning of their own in a regular expression. */
  predicate Special(c: char) {
    c in "\\.+*?()|[]{}^$"
  }

  /** Punctuation, which a backslash makes literal. */
  predicate Punctuation(c: char) {
    ('!' <= c <= '/') || (':' <= c <= '@') || ('[' <= c <= '`') || ('{' <= c <= '~')
  }

  /** Reads the items of `text` up to a final '$'; nothing else of the syntax is understood. */
  function ParseItems(text: string): Option<seq<Item>>
    decreases |text|
  {
    if text == "$" then Some([])
    else if text == "" then None
    else if text[0] == '\\' then
      if |text| > 1 && Punctuation(text[1]) then Prepend(Literal(text[1]), ParseItems(text[2..])) else None
    else if text[0] == '.' then
      if |text| > 1 && text[1] == '*' then Prepend(Star, ParseItems(text[2..])) else Prepend(Any, ParseItems(text[1..]))
    else if Special(text[0]) then None
    else Prepend(Literal(text[0]), ParseItems(text[1..]))
  }

  function Prepend(item: Item, rest: Option<seq<Item>>): Option<seq<Item>> {
    if rest.Some? then Some([item] + rest.value) else None
  }

  function Parse(text: string): Option<seq<Item>> {
    if text != "" && text[0] == '^' then ParseItems(text[1..]) else None
  }

  /** Whether an anchored expression is found in the value; an expression that does not parse matches nothing. */
  predicate RegexpMatch(text: string, value: string) {
    Parse(text).Some? && Matches(Parse(text).value, value)
  }

  // ----------------------------------------------------------------- translation

  predicate Escaped(c: char) {
    c in "()[]{}.+,-^$|\\"
  }

  function TranslateChar(c: char): string {
    if c == '*' then ".*" else if c == '?' then "." else if Escaped(c) then ['\\', c] else [c]
  }

  function Translate(pattern: string): string {
    if pattern == "" then "" else TranslateChar(pattern[0]) + Translate(pattern[1..])
  }

  lemma {:induction false} TranslateConcat(a: string, b: string)
    ensures Translate(a + b) == Translate(a) + Translate(b)
  {
    if a == "" {
      assert a + b == b;
    } else {
      assert (a + b)[1..] == a[1..] + b;
      TranslateConcat(a[1..], b);
      assert TranslateChar(a[0]) + (Translate(a[1..]) + Translate(b)) ==
        TranslateChar(a[0]) + Translate(a[1..]) + Translate(b);
    }
  }

  lemma TranslateNext(pattern: string, i: nat)
    requires i < |pattern|
    ensures Translate(pattern[..i + 1]) == Translate(pattern[..i]) + TranslateChar(pattern[i])
  {
    assert pattern[..i + 1] == pattern[..i] + [pattern[i]];
    TranslateConcat(pattern[..i], [pattern[i]]);
    assert Translate([pattern[i]]) == TranslateChar(pattern[i]) + Translate("");
  }

  method WildcardToRegexp(pattern: string) returns (text: string)
    ensures text == "^" + Translate(pattern) + "$"
  {
    text := "^";
    ghost var done := "";
    var i := 0;
    while i < |pattern|
      invariant 0 <= i <= |pattern|
      invariant done == Translate(pattern[..i]) && text == "^" + done
    {
      TranslateNext(pattern, i);
      hide Translate, Escaped;
      var c := pattern[i];
      done := done + TranslateChar(c);
      if c == '*' {
        text := text + ".*";
      } else if c == '?' {
        text := text + ".";
      } else if Escaped(c) {
        text := text + "\\";
        text := text + [c];
      } else {
        text := text + [c];
      }
      i := i + 1;
    }
    assert pattern[..i] == pattern;
    text := text + "$";
  }

  function ItemOf(c: char): Item {
    if c == '*' then Star else if c == '?' then Any else Literal(c)
  }

  function Items(pattern: string): seq<Item> {
    if pattern == "" then [] else [ItemOf(pattern[0])] + Items(pattern[1..])
  }

  /** No translated character begins with a star: a dot before it stands alone. */
  lemma NoStarAhead(pattern: string)
    ensures
      var rest := Translate(pattern) + "$";
      rest != "" && rest[0] != '*'
  {
  }

  /** Reading back the text of a pattern gives its items, one for one. */
  lemma {:induction false} TranslationParses(pattern: string)
    ensures ParseItems(Translate(pattern) + "$") == Some(Items(pattern))
  {
    if pattern != "" {
      var c, rest := pattern[0], Translate(pattern[1..]) + "$";
      TranslationParses(pattern[1..]);
      NoStarAhead(pattern[1..]);
      ParsesChar(c, rest);
      assert TranslateChar(c) + Translate(pattern[1..]) + "$" == TranslateChar(c) + rest;
    }
  }

  lemma ParsesChar(c: char, rest: string)
    requires rest != "" && rest[0] != '*' && ParseItems(rest).Some?
    ensures ParseItems(TranslateChar(c) + rest) == Some([ItemOf(c)] + ParseItems(rest).value)
  {
    var text := TranslateChar(c) + rest;
    if c == '*' || Escaped(c) {
      assert text[2..] == rest;
    } else {
      assert text[1..] == rest;
    }
  }

  // -------------------------------------------------------------------- meaning

  /** A star can stand for the first `k` characters. */
  predicate StarTakes(rest: seq<Item>, value: string, k: nat) {
    k <= |value| && NoNewline(value[..k]) && Matches(rest, value[k..])
  }

  lemma StarIs(items: seq<Item>, value: string)
    requires items != [] && items[0].Star?
    ensures Matches(items, value) <==> exists k: nat :: StarTakes(items[1..], value, k)
  {
    if exists k: nat :: StarTakes(items[1..], value, k) {
      var k: nat :| StarTakes(items[1..], value, k);
    }
    if Matches(items, value) {
      var k :| 0 <= k <= |value| && NoNewline(value[..k]) && Matches(items[1..], value[k..]);
      assert StarTakes(items[1..], value, k);
    }
  }

  lemma StarTakesOneMore(rest: seq<Item>, value: string, k: nat)
    requires value != ""
    ensures StarTakes(rest, value, k + 1) <==> value[0] != '\n' && StarTakes(rest, value[1..], k)
  {
    if k < |value| {
      assert value[..k + 1] == [value[0]] + value[1..][..k];
      assert value[k + 1..] == value[1..][k..];
    }
  }

  lemma StarTakesNothing(rest: seq<Item>, value: string)
    ensures StarTakes(rest, value, 0) <==> Matches(rest, value)
  {
    assert value[0..] == value;
  }

  /** A star takes nothing, or one character more. */
  lemma StarUnfolds(items: seq<Item>, value: string)
    requires items != [] && items[0].Star?
    ensures Matches(items, value) <==>
      Matches(items[1..], value) || (value != "" && value[0] != '\n' && Matches(items, value[1..]))
  {
    hide Matches, StarTakes;
    var rest := items[1..];
    StarIs(items, value);
    StarTakesNothing(rest, value);
    if value == "" {
      NothingToTake(rest);
    } else {
      StarIs(items, value[1..]);
      if k: nat :| StarTakes(rest, value, k) && k > 0 {
        StarTakesOneMore(rest, value, k - 1);
      }
      if k: nat :| StarTakes(rest, value[1..], k) {
        StarTakesOneMore(rest, value, k);
      }
    }
  }

  lemma NothingToTake(rest: seq<Item>)
    ensures forall k: nat :: StarTakes(rest, "", k) ==> k == 0
  {
  }

  /** A pattern whose '*' and '?' do not stand for a newline. */
  predicate LineGlob(pattern: string, value: string)
    decreases |pattern| + |value|
  {
    if pattern == "" then value == ""
    else if pattern[0] == '*' then
      LineGlob(pattern[1..], value) || (value != "" && value[0] != '\n' && LineGlob(pattern, value[1..]))
    else
      && value != ""
      && (if pattern[0] == '?' then value[0] != '\n' else pattern[0] == value[0])
      && LineGlob(pattern[1..], value[1..])
  }

  lemma {:induction false} ItemsMeanLineGlob(pattern: string, value: string)
    ensures Matches(Items(pattern), value) <==> LineGlob(pattern, value)
    decreases |pattern| + |value|
  {
    if pattern != "" {
      assert Items(pattern)[1..] == Items(pattern[1..]);
      if pattern[0] == '*' {
        StarUnfolds(Items(pattern), value);
        ItemsMeanLineGlob(pattern[1..], value);
        if value != "" {
          ItemsMeanLineGlob(pattern, value[1..]);
        }
      } else if value != "" {
        ItemsMeanLineGlob(pattern[1..], value[1..]);
      }
    }
  }

  predicate NoWildcard(pattern: string) {
    '*' !in pattern && '?' !in pattern
  }

  lemma {:induction false} LineGlobIsGlob(pattern: string, value: string)
    ensures LineGlob(pattern, value) ==> Glob(pattern, value)
    ensures NoNewline(value) || NoWildcard(pattern) ==> (LineGlob(pattern, value) <==> Glob(pattern, value))
    decreases |pattern| + |value|
  {
    if pattern != "" {
      assert value != "" ==> (NoNewline(value) ==> NoNewline(value[1..]));
      assert NoWildcard(pattern) ==> NoWildcard(pattern[1..]);
      if pattern[0] == '*' {
        LineGlobIsGlob(pattern[1..], value);
        if value != "" {
          LineGlobIsGlob(pattern, value[1..]);
        }
      } else if value != "" {
        LineGlobIsGlob(pattern[1..], value[1..]);
      }
    }
  }

  /** What matching by regular expression answers. */
  predicate Says(pattern: string, value: string) {
    RegexpMatch("^" + Translate(pattern) + "$", value)
  }

  /** The text of a pattern always parses, and on values without a newline it means what the pattern means. */
  lemma RegexpMeansGlob(pattern: string, value: string)
    ensures Parse("^" + Translate(pattern) + "$") == Some(Items(pattern))
    ensures Says(pattern, value) <==> LineGlob(pattern, value)
    ensures NoNewline(value) ==> (Says(pattern, value) <==> Glob(pattern, value))
  {
    var text := "^" + Translate(pattern) + "$";
    assert text[1..] == Translate(pattern) + "$";
    TranslationParses(pattern);
    ItemsMeanLineGlob(pattern, value);
    LineGlobIsGlob(pattern, value);
  }

  function Newlines(s: string): nat {
    if s == "" then 0 else (if s[0] == '\n' then 1 else 0) + Newlines(s[1..])
  }

  /** Only a newline in the pattern matches a newline. */
  lemma {:induction false} NewlinesAgree(pattern: string, value: string)
    requires LineGlob(pattern, value)
    ensures Newlines(value) == Newlines(pattern)
    decreases |pattern| + |value|
  {
    if pattern != "" {
      if pattern[0] == '*' {
        if LineGlob(pattern[1..], value) {
          NewlinesAgree(pattern[1..], value);
        } else {
          NewlinesAgree(pattern, value[1..]);
        }
      } else {
        NewlinesAgree(pattern[1..], value[1..]);
      }
    }
  }

  /** A value with a newline in the place of every wildcard. */
  function Filled(pattern: string): string {
    if pattern == "" then ""
    else [if pattern[0] == '*' || pattern[0] == '?' then '\n' else pattern[0]] + Filled(pattern[1..])
  }

  lemma {:induction false} FilledMatches(pattern: string)
    ensures Glob(pattern, Filled(pattern))
    ensures Newlines(Filled(pattern)) >= Newlines(pattern)
    ensures !NoWildcard(pattern) ==> Newlines(Filled(pattern)) > Newlines(pattern)
  {
    if pattern != "" {
      FilledMatches(pattern[1..]);
      var value := Filled(pattern);
      assert value[1..] == Filled(pattern[1..]);
      if pattern[0] == '*' {
        assert Glob(pattern, value[1..]);
      }
    }
  }

  /** The translation keeps a pattern's meaning on every value exactly when the pattern has no wildcard. */
  lemma GlobEverywhereIff(pattern: string)
    ensures (forall value :: Says(pattern, value) <==> Glob(pattern, value)) <==> NoWildcard(pattern)
  {
    hide Says;
    forall value
      ensures Says(pattern, value) <==> LineGlob(pattern, value)
      ensures NoWildcard(pattern) ==> (LineGlob(pattern, value) <==> Glob(pattern, value))
    {
      RegexpMeansGlob(pattern, value);
      LineGlobIsGlob(pattern, value);
    }
    if !NoWildcard(pattern) {
      var value := Filled(pattern);
      FilledMatches(pattern);
      if LineGlob(pattern, value) {
        NewlinesAgree(pattern, value);
        assert false;
      }
      assert Glob(pattern, value) && !Says(pattern, value);
    }
  }

  method WildcardMatch(pattern: string, value: string) returns (ok: bool)
    ensures ok <==> Says(pattern, value)
    ensures NoNewline(value) ==> (ok <==> Glob(pattern, value))
  {
    RegexpMeansGlob(pattern, value);
    var expr := WildcardToRegexp(pattern);
    ok := RegexpMatch(expr, value);
  }

  // ----------------------------------------------------------------------- lists

  predicate IsSpace(c: char) {
    || c in "\t\n\U{0B}\U{0C}\r \U{85}\U{A0}\U{1680}\U{2028}\U{2029}\U{202F}\U{205F}\U{3000}"
    || '\U{2000}' <= c <= '\U{200A}'
  }

  function TrimLeft(s: string): string {
    if s != "" && IsSpace(s[0]) then TrimLeft(s[1..]) else s
  }

  function TrimRight(s: string): string {
    if s != "" && IsSpace(s[|s| - 1]) then TrimRight(s[..|s| - 1]) else s
  }

  predicate Negated(p: string) {
    p != "" && p[0] == '!'
  }

  /** A pattern without its negation. */
  function Bare(p: string): string {
    if Negated(p) then TrimRight(TrimLeft(p[1..])) else p
  }

  /** One of the values matches a list entry, its negation aside. */
  ghost predicate Hits(values: seq<string>, p: string) {
    exists v :: v in values && Says(Bare(p), v)
  }

  ghost predicate NegatedHits(values: seq<string>, patterns: seq<string>) {
    exists p :: p in patterns && Negated(p) && Hits(values, p)
  }

  ghost predicate HasPositive(patterns: seq<string>) {
    exists p :: p in patterns && !Negated(p)
  }

  ghost predicate PositiveHits(values: seq<string>, patterns: seq<string>) {
    exists p :: p in patterns && !Negated(p) && Hits(values, p)
  }

  /** No negated pattern matches; and a positive one does, if there is any. */
  ghost predicate Accepts(values: seq<string>, patterns: seq<string>) {
    !NegatedHits(values, patterns) && (HasPositive(patterns) ==> PositiveHits(values, patterns))
  }

  /** The same, in terms of what the patterns mean. */
  ghost predicate GlobAccepts(values: seq<string>, patterns: seq<string>) {
    && (forall p, v :: p in patterns && Negated(p) && v in values ==> !Glob(Bare(p), v))
    && ((forall p :: p in patterns ==> Negated(p))
        || (exists p, v :: p in patterns && !Negated(p) && v in values && Glob(Bare(p), v)))
  }

  lemma AcceptsMeansGlob(values: seq<string>, patterns: seq<string>)
    requires forall v :: v in values ==> NoNewline(v)
    ensures Accepts(values, patterns) <==> GlobAccepts(values, patterns)
  {
    forall p, v | v in values
      ensures Says(Bare(p), v) <==> Glob(Bare(p), v)
    {
      RegexpMeansGlob(Bare(p), v);
    }
    hide Glob, Says, Bare, Negated;
    assert forall p, v :: v in values && Says(Bare(p), v) ==> Hits(values, p);
  }

  predicate AllSpaces(s: string) {
    forall i :: 0 <= i < |s| ==> IsSpace(s[i])
  }

  /** Neither end is a space. */
  predicate IsTrimmed(s: string) {
    s != "" ==> !IsSpace(s[0]) && !IsSpace(s[|s| - 1])
  }

  lemma {:induction false} TrimLeftPadded(pad: string, rest: string)
    requires AllSpaces(pad) && (rest != "" ==> !IsSpace(rest[0]))
    ensures TrimLeft(pad + rest) == rest
  {
    if pad == "" {
      assert pad + rest == rest;
    } else {
      assert (pad + rest)[1..] == pad[1..] + rest;
      TrimLeftPadded(pad[1..], rest);
    }
  }

  lemma {:induction false} TrimRightPadded(rest: string, pad: string)
    requires AllSpaces(pad) && (rest != "" ==> !IsSpace(rest[|rest| - 1]))
    ensures TrimRight(rest + pad) == rest
  {
    if pad == "" {
      assert rest + pad == rest;
    } else {
      var n := |pad| - 1;
      assert (rest + pad)[..|rest + pad| - 1] == rest + pad[..n];
      assert (rest + pad)[|rest + pad| - 1] == pad[n];
      TrimRightPadded(rest, pad[..n]);
    }
  }

  /** A pattern behind an exclamation mark is read as it stands, without the spaces around it. */
  lemma NegationIsRead(left: string, q: string, right: string)
    requires AllSpaces(left) && IsTrimmed(q) && AllSpaces(right)
    ensures Negated("!" + left + q + right) && Bare("!" + left + q + right) == q
  {
    var p := "!" + left + q + right;
    if q == "" {
      assert p[1..] == (left + right) + q && AllSpaces(left + right);
      TrimLeftPadded(left + right, q);
    } else {
      assert p[1..] == left + (q + right);
      TrimLeftPadded(left, q + right);
      TrimRightPadded(q, right);
    }
  }

  /** A list of one negated pattern accepts exactly the values the pattern does not mean. */
  lemma NegatedAlone(left: string, q: string, right: string, v: string)
    requires AllSpaces(left) && IsTrimmed(q) && AllSpaces(right) && NoNewline(v)
    ensures Accepts([v], ["!" + left + q + right]) <==> !Glob(q, v)
  {
    var p := "!" + left + q + right;
    NegationIsRead(left, q, right);
    AcceptsMeansGlob([v], [p]);
    hide Glob, Bare, Negated;
    assert p in [p] && v in [v];
  }

  /** One entry more. */
  lemma EntryAdds(values: seq<string>, before: seq<string>, p: string)
    ensures NegatedHits(values, before + [p]) <==> NegatedHits(values, before) || (Negated(p) && Hits(values, p))
    ensures HasPositive(before + [p]) <==> HasPositive(before) || !Negated(p)
    ensures PositiveHits(values, before + [p]) <==> PositiveHits(values, before) || (!Negated(p) && Hits(values, p))
  {
    hide Negated, Hits;
    assert forall q :: q in before + [p] <==> q in before || q == p;
    assert p in before + [p];
  }

  /** A negated entry that matches decides, whatever follows it. */
  lemma NegatedDecides(values: seq<string>, patterns: seq<string>, p: string)
    requires p in patterns && Negated(p) && Hits(values, p)
    ensures !Accepts(values, patterns)
  {
  }

  lemma ValueAdds(before: seq<string>, v: string, p: string)
    ensures Hits(before + [v], p) <==> Hits(before, p) || Says(Bare(p), v)
  {
    hide Says, Bare;
    assert forall u :: u in before + [v] <==> u in before || u == v;
    assert v in before + [v];
  }

  lemma MoreValuesHit(values: seq<string>, k: nat, p: string)
    requires k <= |values| && Hits(values[..k], p)
    ensures Hits(values, p)
  {
    hide Says, Bare;
  }

  method MatchList(value: string, patterns: seq<string>) returns (ok: bool)
    ensures ok <==> Accepts([value], patterns)
  {
    hide Says, Bare, Negated, Hits, NegatedHits, HasPositive, PositiveHits;
    NothingYet([value]);
    var hasPositive, positiveMatch := false, false;
    var i := 0;
    while i < |patterns|
      invariant 0 <= i <= |patterns|
      invariant !NegatedHits([value], patterns[..i])
      invariant hasPositive <==> HasPositive(patterns[..i])
      invariant positiveMatch <==> PositiveHits([value], patterns[..i])
    {
      var p := patterns[i];
      var neg := Negated(p);
      var matched := WildcardMatch(Bare(p), value);
      OneValue(value, p);
      EntryAdds([value], patterns[..i], p);
      assert patterns[..i + 1] == patterns[..i] + [p];
      if matched {
        if neg {
          NegatedDecides([value], patterns, p);
          return false;
        }
        hasPositive, positiveMatch := true, true;
      } else if !neg {
        hasPositive := true;
      }
      i := i + 1;
    }
    assert patterns[..i] == patterns;
    if hasPositive {
      return positiveMatch;
    }
    return true;
  }

  lemma NothingYet(values: seq<string>)
    ensures !NegatedHits(values, []) && !HasPositive([]) && !PositiveHits(values, [])
  {
  }

  lemma OneValue(value: string, p: string)
    ensures Hits([value], p) <==> Says(Bare(p), value)
    ensures !Hits([], p)
  {
    hide Says, Bare;
    assert value in [value];
  }

  method MatchGroupList(groups: seq<string>, patterns: seq<string>) returns (ok: bool)
    ensures ok <==> Accepts(groups, patterns)
  {
    hide Says, Bare, Negated, Hits, NegatedHits, HasPositive, PositiveHits;
    NothingYet(groups);
    var hasPositive, positiveMatch := false, false;
    var i := 0;
    while i < |patterns|
      invariant 0 <= i <= |patterns|
      invariant !NegatedHits(groups, patterns[..i])
      invariant hasPositive <==> HasPositive(patterns[..i])
      invariant positiveMatch <==> PositiveHits(groups, patterns[..i])
    {
      var p := patterns[i];
      var neg := Negated(p);
      EntryAdds(groups, patterns[..i], p);
      assert patterns[..i + 1] == patterns[..i] + [p];
      if !neg {
        hasPositive := true;
      }
      ghost var before := positiveMatch;
      OneValue("", p);
      var k := 0;
      while k < |groups|
        invariant 0 <= k <= |groups|
        invariant neg ==> positiveMatch == before && !Hits(groups[..k], p)
        invariant !neg ==> (positiveMatch <==> before || Hits(groups[..k], p))
      {
        var matched := WildcardMatch(Bare(p), groups[k]);
        ValueAdds(groups[..k], groups[k], p);
        assert groups[..k + 1] == groups[..k] + [groups[k]];
        if matched {
          if neg {
            MoreValuesHit(groups, k + 1, p);
            NegatedDecides(groups, patterns, p);
            return false;
          }
          positiveMatch := true;
        }
        k := k + 1;
      }
      assert groups[..k] == groups;
      i := i + 1;
    }
    assert patterns[..i] == patterns;
    if hasPositive {
      return positiveMatch;
    }
    return true;
  }
}
