/** Numerals and separators as JavaScript prints, splits and parses them. */
module Text {
  import opened Prelude

  type Base = b: nat | b == 10 || b == 16 witness 10

  function DigitChar(d: nat): (c: char)
    requires d < 16
    ensures DigitValue(c) == Some(d)
  {
    if d < 10 then ('0' as int + d) as char else ('a' as int + d - 10) as char
  }

  function DigitValue(c: char): Option<nat> {
    if '0' <= c <= '9' then Some(c as int - '0' as int)
    else if 'a' <= c <= 'f' then Some(c as int - 'a' as int + 10)
    else None
  }

  predicate IsDigit(c: char, base: Base) {
    DigitValue(c).Some? && DigitValue(c).value < base
  }

  predicate AllDigits(s: string, base: Base) {
    forall i :: 0 <= i < |s| ==> IsDigit(s[i], base)
  }

  /** `String(n)` and `n.toString(16)`. */
  function Print(n: nat, base: Base): (s: string)
    ensures s != "" && AllDigits(s, base)
    decreases n
  {
    if n < base then [DigitChar(n)]
    else if base == 10 then Print(n / 10, 10) + [DigitChar(n % 10)]
    else Print(n / 16, 16) + [DigitChar(n % 16)]
  }

  function Shift(v: nat, d: nat, base: Base): nat {
    if base == 10 then v * 10 + d else v * 16 + d
  }

  /** The number a string of digits denotes, leading zeros allowed. */
  function Value(s: string, base: Base): nat
    requires AllDigits(s, base)
    decreases s
  {
    if s == "" then 0 else Shift(Value(s[..|s| - 1], base), DigitValue(s[|s| - 1]).value, base)
  }

  lemma {:induction false} ValueOfPrint(n: nat, base: Base)
    ensures Value(Print(n, base), base) == n
    decreases n
  {
    var s := Print(n, base);
    if n < base {
      assert s[..|s| - 1] == "";
    } else if base == 10 {
      assert s[..|s| - 1] == Print(n / 10, 10);
      ValueOfPrint(n / 10, 10);
    } else {
      assert s[..|s| - 1] == Print(n / 16, 16);
      ValueOfPrint(n / 16, 16);
    }
  }

  // ----- split ----------------------------------------------------------------

  predicate Without(s: string, c: char) { c !in s }

  function IndexOf(s: string, c: char): (i: nat)
    ensures i <= |s| && Without(s[..i], c) && (i < |s| ==> s[i] == c)
  {
    if s == "" || s[0] == c then 0
    else
      var i := 1 + IndexOf(s[1..], c);
      assert s[..i] == [s[0]] + s[1..][..i - 1];
      i
  }

  /** `s.split(c)`. */
  function Split(s: string, c: char): (parts: seq<string>)
    ensures |parts| >= 1
    decreases |s|
  {
    var i := IndexOf(s, c);
    if i == |s| then [s] else [s[..i]] + Split(s[i + 1..], c)
  }

  lemma IndexOfFirst(a: string, c: char, b: string)
    requires Without(a, c)
    ensures IndexOf(a + [c] + b, c) == |a|
  {
    var s := a + [c] + b;
    var i := IndexOf(s, c);
    assert forall j :: 0 <= j < |a| ==> s[j] == a[j] && a[j] != c;
    assert s[|a|] == c && forall j :: 0 <= j < i ==> s[..i][j] == s[j];
  }

  lemma SplitFirst(a: string, c: char, b: string)
    requires Without(a, c)
    ensures Split(a + [c] + b, c) == [a] + Split(b, c)
  {
    IndexOfFirst(a, c, b);
    assert (a + [c] + b)[..|a|] == a && (a + [c] + b)[|a| + 1..] == b;
  }

  lemma SplitNone(a: string, c: char)
    requires Without(a, c)
    ensures Split(a, c) == [a]
  {
  }

  function Join(parts: seq<string>, c: char): string
    requires parts != []
    decreases parts
  {
    if |parts| == 1 then parts[0] else parts[0] + [c] + Join(parts[1..], c)
  }

  lemma {:induction false} SplitOfJoin(parts: seq<string>, c: char)
    requires parts != [] && forall i :: 0 <= i < |parts| ==> Without(parts[i], c)
    ensures Split(Join(parts, c), c) == parts
    decreases parts
  {
    if |parts| == 1 {
      SplitNone(parts[0], c);
    } else {
      SplitFirst(parts[0], c, Join(parts[1..], c));
      SplitOfJoin(parts[1..], c);
    }
  }

  lemma DigitsAreNotSeparators(s: string, base: Base)
    requires AllDigits(s, base)
    ensures Without(s, '.') && Without(s, ':')
  {
  }

  // ----- Canonical numerals ---------------------------------------------------------

  const HEX_DIGITS := "0123456789abcdef"

  /** The digits are these, in this order. */
  lemma DigitsAreTheirPlaces(d: nat)
    requires d < 16
    ensures DigitChar(d) == HEX_DIGITS[d]
  {
  }

  lemma {:induction false} PositiveValue(s: string)
    requires s != "" && AllDigits(s, 10) && s[0] != '0'
    ensures Value(s, 10) >= 1
    decreases s
  {
    if |s| > 1 {
      PositiveValue(s[..|s| - 1]);
    } else {
      assert s[..0] == "";
    }
  }

  lemma PrintOfMore(v: nat, d: nat)
    requires v >= 1 && d < 10
    ensures Print(v * 10 + d, 10) == Print(v, 10) + [DigitChar(d)]
  {
    assert (v * 10 + d) / 10 == v && (v * 10 + d) % 10 == d;
  }

  /** A decimal numeral without leading zeros is what its value prints as. */
  lemma {:induction false} PrintOfValue(s: string)
    requires s != "" && AllDigits(s, 10) && (|s| > 1 ==> s[0] != '0')
    ensures Print(Value(s, 10), 10) == s
    decreases s
  {
    var front, last := s[..|s| - 1], s[|s| - 1];
    assert s == front + [last];
    DigitOfItsValue(last);
    if front != "" {
      PrintOfValue(front);
      PositiveValue(front);
      PrintOfMore(Value(front, 10), DigitValue(last).value);
    }
  }

  lemma DigitOfItsValue(c: char)
    requires IsDigit(c, 10)
    ensures DigitChar(DigitValue(c).value) == c
  {
  }

  lemma JoinOfCons(a: string, rest: seq<string>, c: char)
    requires rest != []
    ensures Join([a] + rest, c) == a + [c] + Join(rest, c)
  {
    assert ([a] + rest)[1..] == rest;
  }

  lemma CutAt(s: string, i: nat)
    requires i < |s|
    ensures s == s[..i] + [s[i]] + s[i + 1..]
  {
  }

  lemma {:induction false} JoinOfSplit(s: string, c: char)
    ensures Join(Split(s, c), c) == s
    decreases |s|
  {
    var i := IndexOf(s, c);
    if i < |s| {
      JoinOfSplit(s[i + 1..], c);
      JoinOfCons(s[..i], Split(s[i + 1..], c), c);
      CutAt(s, i);
    }
  }
}
