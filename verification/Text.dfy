/**
 The string operations that the operator takes from Go's `strings` and `unicode` packages, and the
 case-insensitive substring match that OPNsense's rule search performs.
 */
module Text {

  /** Go's unicode.IsSpace: the characters that strings.TrimSpace removes. */
  predicate IsSpace(c: char) {
    || c in {'\t', '\n', '\U{000B}', '\U{000C}', '\r', ' ', '\U{0085}', '\U{00A0}', '\U{1680}'}
    || '\U{2000}' <= c <= '\U{200A}'
    || c in {'\U{2028}', '\U{2029}', '\U{202F}', '\U{205F}', '\U{3000}'}
  }

  function TrimLeft(s: string): string {
    if s != "" && IsSpace(s[0]) then TrimLeft(s[1..]) else s
  }

  function TrimRight(s: string): string {
    if s != "" && IsSpace(s[|s| - 1]) then TrimRight(s[..|s| - 1]) else s
  }

  /** strings.TrimSpace */
  function TrimSpace(s: string): string {
    TrimRight(TrimLeft(s))
  }

  predicate EndsWith(s: string, suffix: string) {
    |suffix| <= |s| && s[|s| - |suffix|..] == suffix
  }

  /** strings.Contains, written as a search from the left. */
  predicate Contains(s: string, part: string) {
    part <= s || (s != "" && Contains(s[1..], part))
  }

  function LowerChar(c: char): char {
    if 'A' <= c <= 'Z' then c - 'A' + 'a' else c
  }

  function Lower(s: string): string {
    seq(|s|, i requires 0 <= i < |s| => LowerChar(s[i]))
  }

  /** OPNsense's search: a case-insensitive substring match. */
  predicate Matches(description: string, phrase: string) {
    Contains(Lower(description), Lower(phrase))
  }

  /** strings.Join */
  function Join(parts: seq<string>, separator: string): string {
    if parts == [] then ""
    else if |parts| == 1 then parts[0]
    else parts[0] + separator + Join(parts[1..], separator)
  }

  /** fmt.Sprintf("%d", n) */
  function Decimal(n: int): string
    decreases n < 0, if n < 0 then -n else n
  {
    if n < 0 then "-" + Decimal(-n)
    else if n < 10 then [Digit(n)]
    else Decimal(n / 10) + [Digit(n % 10)]
  }

  function Digit(d: int): char
    requires 0 <= d < 10
  {
    '0' + d as char
  }

  /** The number a string of decimal digits denotes, with an optional leading minus sign. */
  function Denotes(s: string): int {
    if s == "" then 0
    else if s[0] == '-' then -Unsigned(s[1..])
    else Unsigned(s)
  }

  function Unsigned(s: string): int {
    if s == "" then 0
    else 10 * Unsigned(s[..|s| - 1]) + (s[|s| - 1] as int - '0' as int)
  }

  // ---- Trimming ----

  lemma {:induction false} TrimLeftKeepsEnd(s: string, suffix: string)
    requires EndsWith(s, suffix) && suffix != "" && !IsSpace(suffix[0])
    ensures EndsWith(TrimLeft(s), suffix)
  {
    if IsSpace(s[0]) {
      assert s[0] == s[|s| - |suffix|..][0] || |s| > |suffix|;
      assert s[1..][|s| - 1 - |suffix|..] == suffix;
      TrimLeftKeepsEnd(s[1..], suffix);
    }
  }

  /** Trimming never eats into a suffix that starts and ends with visible characters. */
  lemma TrimSpaceKeepsEnd(s: string, suffix: string)
    requires EndsWith(s, suffix) && suffix != ""
    requires !IsSpace(suffix[0]) && !IsSpace(suffix[|suffix| - 1])
    ensures EndsWith(TrimSpace(s), suffix)
  {
    TrimLeftKeepsEnd(s, suffix);
    var t := TrimLeft(s);
    assert t[|t| - 1] == suffix[|suffix| - 1];
  }

  predicate AllSpaces(s: string) {
    forall i | 0 <= i < |s| :: IsSpace(s[i])
  }

  lemma {:induction false} TrimLeftCuts(s: string) returns (front: string)
    ensures AllSpaces(front) && s == front + TrimLeft(s)
    ensures TrimLeft(s) == "" || !IsSpace(TrimLeft(s)[0])
  {
    front := "";
    if s != "" && IsSpace(s[0]) {
      var rest := TrimLeftCuts(s[1..]);
      front := [s[0]] + rest;
      assert s == [s[0]] + s[1..];
    }
  }

  lemma {:induction false} TrimRightCuts(s: string) returns (back: string)
    ensures AllSpaces(back) && s == TrimRight(s) + back
    ensures TrimRight(s) == "" || !IsSpace(TrimRight(s)[|TrimRight(s)| - 1])
  {
    back := "";
    if s != "" && IsSpace(s[|s| - 1]) {
      var rest := TrimRightCuts(s[..|s| - 1]);
      back := rest + [s[|s| - 1]];
      assert s == s[..|s| - 1] + [s[|s| - 1]];
    }
  }

  /** TrimSpace removes spaces at both ends and only there, and leaves none at either end. */
  lemma TrimSpaceCuts(s: string) returns (front: string, back: string)
    ensures AllSpaces(front) && AllSpaces(back) && s == front + TrimSpace(s) + back
    ensures var t := TrimSpace(s); t == "" || (!IsSpace(t[0]) && !IsSpace(t[|t| - 1]))
  {
    front := TrimLeftCuts(s);
    back := TrimRightCuts(TrimLeft(s));
    assert TrimSpace(s) != "" ==> TrimSpace(s)[0] == TrimLeft(s)[0];
  }

  /** Among the ASCII characters, the spaces are the blank and the controls from tab to carriage return. */
  lemma AsciiSpaces(c: char)
    requires c < '\U{0080}'
    ensures IsSpace(c) <==> c == ' ' || '\t' <= c <= '\r'
  {
  }

  lemma {:induction false} TrimLeftDrops(front: string, t: string)
    requires AllSpaces(front) && (t == "" || !IsSpace(t[0]))
    ensures TrimLeft(front + t) == t
  {
    if front == "" {
      assert front + t == t;
    } else {
      assert (front + t)[1..] == front[1..] + t;
      TrimLeftDrops(front[1..], t);
    }
  }

  lemma {:induction false} TrimRightDrops(t: string, back: string)
    requires AllSpaces(back) && (t == "" || !IsSpace(t[|t| - 1]))
    ensures TrimRight(t + back) == t
  {
    if back == "" {
      assert t + back == t;
    } else {
      assert (t + back)[..|t + back| - 1] == t + back[..|back| - 1];
      TrimRightDrops(t, back[..|back| - 1]);
    }
  }

  /** A text with visible characters at both ends is what trimming leaves of it in any surrounding spaces. */
  lemma TrimSpaceDrops(front: string, t: string, back: string)
    requires AllSpaces(front) && AllSpaces(back) && t != "" && !IsSpace(t[0]) && !IsSpace(t[|t| - 1])
    ensures TrimSpace(front + t + back) == t
  {
    assert front + t + back == front + (t + back);
    TrimLeftDrops(front, t + back);
    TrimRightDrops(t, back);
  }

  // ---- Substrings ----

  /** What contains `part` is some text before it, `part` itself, and some text after it. */
  lemma {:induction false} ContainsSplits(s: string, part: string) returns (before: string, after: string)
    requires Contains(s, part)
    ensures s == before + part + after
  {
    if part <= s {
      before, after := "", s[|part|..];
    } else {
      before, after := ContainsSplits(s[1..], part);
      before := [s[0]] + before;
      assert s == [s[0]] + s[1..];
    }
  }

  lemma {:induction false} ContainsAfterPrefix(before: string, part: string)
    ensures Contains(before + part, part)
  {
    if before == "" {
      assert before + part == part;
    } else {
      assert (before + part)[1..] == before[1..] + part;
      ContainsAfterPrefix(before[1..], part);
    }
  }

  lemma {:induction false} ContainsStaysWithMoreAtEnd(s: string, part: string, after: string)
    requires Contains(s, part)
    ensures Contains(s + after, part)
  {
    if !(part <= s) {
      assert (s + after)[1..] == s[1..] + after;
      ContainsStaysWithMoreAtEnd(s[1..], part, after);
    }
  }

  /** A text that has `part` somewhere inside it matches `part`, whatever surrounds it. */
  lemma MatchesInside(before: string, part: string, after: string)
    ensures Matches(before + part + after, part)
  {
    assert Lower(before + part + after) == Lower(before) + Lower(part) + Lower(after);
    ContainsAfterPrefix(Lower(before), Lower(part));
    ContainsStaysWithMoreAtEnd(Lower(before) + Lower(part), Lower(part), Lower(after));
  }

  lemma {:induction false} OccursIn(s: string, part: string, i: nat)
    requires i + |part| <= |s| && s[i..i + |part|] == part
    ensures Contains(s, part)
  {
    assert s == s[..i] + part + s[i + |part|..];
    ContainsAfterPrefix(s[..i], part);
    ContainsStaysWithMoreAtEnd(s[..i] + part, part, s[i + |part|..]);
  }

  /** The same letter, or one the capital of the other; any other character equals only itself. */
  predicate SameUpToCase(a: char, b: char) {
    || a == b
    || ('A' <= a <= 'Z' && b as int == a as int + 32)
    || ('A' <= b <= 'Z' && a as int == b as int + 32)
  }

  predicate OccursAt(s: string, part: string, i: nat) {
    i + |part| <= |s| && forall p | 0 <= p < |part| :: SameUpToCase(s[i + p], part[p])
  }

  lemma LowerAgreesIff(a: char, b: char)
    ensures LowerChar(a) == LowerChar(b) <==> SameUpToCase(a, b)
  {
  }

  /** The search matches exactly if the phrase occurs somewhere in the description, up to the case of letters. */
  lemma MatchesIff(description: string, phrase: string)
    ensures Matches(description, phrase) <==> exists i: nat :: OccursAt(description, phrase, i)
  {
    var s, part := Lower(description), Lower(phrase);
    if Matches(description, phrase) {
      var before, after := ContainsSplits(s, part);
      forall p | 0 <= p < |phrase|
        ensures SameUpToCase(description[|before| + p], phrase[p])
      {
        assert s[|before| + p] == part[p];
        LowerAgreesIff(description[|before| + p], phrase[p]);
      }
      assert OccursAt(description, phrase, |before|);
    }
    if i: nat :| OccursAt(description, phrase, i) {
      forall p | 0 <= p < |part|
        ensures s[i + p] == part[p]
      {
        LowerAgreesIff(description[i + p], phrase[p]);
      }
      assert s[i..i + |part|] == part;
      OccursIn(s, part, i);
    }
  }

  // ---- Numbers ----

  predicate IsDigit(c: char) {
    '0' <= c <= '9'
  }

  predicate Digits(s: string) {
    s != "" && forall i | 0 <= i < |s| :: IsDigit(s[i])
  }

  /** A decimal numeral without superfluous characters: no leading zeros, and no minus sign before a zero. */
  predicate Canonical(s: string) {
    || s == "0"
    || (Digits(s) && s[0] != '0')
    || (s != "" && s[0] == '-' && Digits(s[1..]) && s[1] != '0')
  }

  lemma {:induction false} UnsignedIsCanonical(n: nat)
    ensures Digits(Decimal(n)) && (n > 0 ==> Decimal(n)[0] != '0') && (n == 0 ==> Decimal(n) == "0")
  {
    if n >= 10 {
      UnsignedIsCanonical(n / 10);
    }
  }

  /** The text of a number is canonical, and its minus sign tells the negative ones. */
  lemma DecimalIsCanonical(n: int)
    ensures Canonical(Decimal(n)) && (Decimal(n)[0] == '-' <==> n < 0)
  {
    UnsignedIsCanonical(if n < 0 then -n else n);
    if n < 0 {
      assert Decimal(n)[1..] == Decimal(-n);
    }
  }

  lemma {:induction false} UnsignedIsPositive(s: string)
    requires Digits(s)
    ensures Unsigned(s) >= 0 && (s[0] != '0' ==> Unsigned(s) > 0)
  {
    if |s| > 1 {
      UnsignedIsPositive(s[..|s| - 1]);
    } else {
      assert Unsigned(s[..|s| - 1]) == 0;
    }
  }

  lemma {:induction false} UnsignedIsUnique(s: string, t: string)
    requires Digits(s) && Digits(t) && s[0] != '0' && t[0] != '0' && Unsigned(s) == Unsigned(t)
    ensures s == t
  {
    var s', t' := s[..|s| - 1], t[..|t| - 1];
    assert s == s' + [s[|s| - 1]] && t == t' + [t[|t| - 1]];
    if s' != "" {
      UnsignedIsPositive(s');
    }
    if t' != "" {
      UnsignedIsPositive(t');
    }
    assert Unsigned(s') == Unsigned(t') && s[|s| - 1] == t[|t| - 1];
    if s' != "" && t' != "" {
      UnsignedIsUnique(s', t');
    }
  }

  /** A canonical numeral is the only one of its number: it denotes `n` exactly if it is the text of `n`. */
  lemma DecimalIsTheNumeral(s: string, n: int)
    requires Canonical(s)
    ensures Denotes(s) == n <==> s == Decimal(n)
  {
    DecimalRoundTrip(n);
    DecimalIsCanonical(n);
    if Denotes(s) == n {
      CanonicalIsUnique(s, Decimal(n));
    }
  }

  lemma CanonicalIsUnique(s: string, t: string)
    requires Canonical(s) && Canonical(t) && Denotes(s) == Denotes(t)
    ensures s == t
  {
    assert Unsigned("0") == 0 by {
      assert "0"[..0] == "";
    }
    var s', t' := if s[0] == '-' then s[1..] else s, if t[0] == '-' then t[1..] else t;
    UnsignedIsPositive(s');
    UnsignedIsPositive(t');
    if s != "0" && t != "0" {
      UnsignedIsUnique(s', t');
    }
  }

  lemma {:induction false} UnsignedDecimal(n: nat)
    ensures Decimal(n) != "" && Decimal(n)[0] != '-' && Unsigned(Decimal(n)) == n
  {
    if n < 10 {
      assert Decimal(n)[..0] == "";
    } else {
      UnsignedDecimal(n / 10);
      assert Decimal(n)[..|Decimal(n)| - 1] == Decimal(n / 10);
    }
  }

  /** The decimal text of a number is never empty and determines the number. */
  lemma DecimalRoundTrip(n: int)
    ensures Decimal(n) != "" && Denotes(Decimal(n)) == n
  {
    if n < 0 {
      UnsignedDecimal(-n);
      assert Decimal(n)[1..] == Decimal(-n);
    } else {
      UnsignedDecimal(n);
    }
  }
}
