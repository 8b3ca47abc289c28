/** Which addresses the outbound-URL guard blocks, read off their text, and the
    32-bit ranges the verdict stands for. */
module AddressGuard {
  import opened Prelude
  import opened Text

  // ----- The guard, on text -----------------------------------------------------

  /** `Number(part)` for a decimal part; anything else is NaN here. */
  function NumberOf(part: string): Option<nat> {
    if AllDigits(part, 10) then Some(Value(part, 10)) else None
  }

  /** The comparisons on the first two parts; a missing part equals nothing. */
  predicate BlockedOctets(a: Option<nat>, b: Option<nat>) {
    || a == Some(0)
    || a == Some(10)
    || a == Some(127)
    || (a == Some(169) && b == Some(254))
    || (a == Some(172) && b.Some? && 16 <= b.value <= 31)
    || (a == Some(192) && b == Some(168))
  }

  predicate IsPrivateOrReservedIpv4(ip: string) {
    var parts := Split(ip, '.');
    BlockedOctets(NumberOf(parts[0]), if |parts| > 1 then NumberOf(parts[1]) else None)
  }

  /** Node's `isIPv4`: four decimal octets without leading zeros. */
  predicate IsOctet(part: string) {
    && 1 <= |part| <= 3 && AllDigits(part, 10) && Value(part, 10) <= 255
    && (|part| > 1 ==> part[0] != '0')
  }

  predicate IsIPv4(s: string) {
    var parts := Split(s, '.');
    |parts| == 4 && forall i :: 0 <= i < 4 ==> IsOctet(parts[i])
  }

  function LowerChar(c: char): char {
    if 'A' <= c <= 'Z' then (c as int + 32) as char else c
  }

  function ToLower(s: string): (t: string)
    ensures |t| == |s|
    decreases s
  {
    if s == "" then "" else [LowerChar(s[0])] + ToLower(s[1..])
  }

  function DigitPrefix(s: string, base: Base): (n: nat)
    ensures n <= |s| && AllDigits(s[..n], base)
    ensures n < |s| ==> !IsDigit(s[n], base)
    decreases s
  {
    if s == "" || !IsDigit(s[0], base) then 0
    else
      var n := 1 + DigitPrefix(s[1..], base);
      assert s[..n] == [s[0]] + s[1..][..n - 1];
      n
  }

  /** `parseInt(s, 16)`: the longest run of digits at the start. */
  function ParseHex(s: string): Option<nat> {
    var n := DigitPrefix(s, 16);
    if n == 0 then None else Some(Value(s[..n], 16))
  }

  function Dotted(a: nat, b: nat, c: nat, d: nat): string {
    Join([Print(a, 10), Print(b, 10), Print(c, 10), Print(d, 10)], '.')
  }

  const MAPPED_PREFIX := "::ffff:"

  predicate IsPrivateOrReservedIpv6(ip: string) {
    var lower := ToLower(ip);
    if MAPPED_PREFIX <= lower then MappedVerdict(lower[|MAPPED_PREFIX|..])
    else lower == "::1" || "fc" <= lower || "fd" <= lower || "fe80" <= lower
  }

  predicate MappedVerdict(suffix: string) {
    if '.' in suffix then !IsIPv4(suffix) || IsPrivateOrReservedIpv4(suffix)
    else
      var parts := Split(suffix, ':');
      if |parts| != 2 || ParseHex(parts[0]).None? || ParseHex(parts[1]).None? then true
      else
        var high, low := ParseHex(parts[0]).value, ParseHex(parts[1]).value;
        IsPrivateOrReservedIpv4(Dotted(high / 256 % 256, high % 256, low / 256 % 256, low % 256))
  }

  // ----- The ranges, on 32-bit values -------------------------------------------

  function Address(a: nat, b: nat, c: nat, d: nat): nat {
    a * 0x100_0000 + b * 0x1_0000 + c * 0x100 + d
  }

  datatype Range = Range(first: nat, last: nat)

  /** The addresses whose first octet is `net` and whose second lies in lo..hi. */
  datatype Span = Span(net: nat, lo: nat, hi: nat)

  function RangeOf(span: Span): Range {
    Range(Address(span.net, span.lo, 0, 0), Address(span.net, span.hi, 255, 255))
  }

  /** The three private blocks are those of section 3 of RFC 1918. */
  datatype Block = THIS_NETWORK | PRIVATE_24_BIT | LOOPBACK | LINK_LOCAL | PRIVATE_20_BIT | PRIVATE_16_BIT

  function SpanOf(block: Block): (span: Span)
    ensures span.lo <= span.hi <= 255
  {
    match block
    case THIS_NETWORK => Span(0, 0, 255)
    case PRIVATE_24_BIT => Span(10, 0, 255)
    case LOOPBACK => Span(127, 0, 255)
    case LINK_LOCAL => Span(169, 254, 254)
    case PRIVATE_20_BIT => Span(172, 16, 31)
    case PRIVATE_16_BIT => Span(192, 168, 168)
  }

  predicate InRange(address: nat, range: Range) {
    range.first <= address <= range.last
  }

  ghost predicate InListedRanges(address: nat) {
    exists block :: InRange(address, RangeOf(SpanOf(block)))
  }

  /** The address a dotted text denotes. */
  function AddressOf(s: string): nat
    requires IsIPv4(s)
  {
    var parts := Split(s, '.');
    Address(Value(parts[0], 10), Value(parts[1], 10), Value(parts[2], 10), Value(parts[3], 10))
  }

  // ----- Verdict = range membership ----------------------------------------------

  predicate InSpan(a: nat, b: nat, span: Span) { a == span.net && span.lo <= b <= span.hi }

  /** An address lies in a span's range as its first two octets lie in the span. */
  lemma RangeByOctets(a: nat, b: nat, c: nat, d: nat, span: Span)
    requires b <= 255 && c <= 255 && d <= 255 && span.lo <= span.hi <= 255
    ensures InRange(Address(a, b, c, d), RangeOf(span)) <==> InSpan(a, b, span)
  {
  }

  lemma BlockedByOctets(a: nat, b: nat)
    requires b <= 255
    ensures BlockedOctets(Some(a), Some(b)) <==> exists block :: InSpan(a, b, SpanOf(block))
  {
    assert InSpan(a, b, SpanOf(THIS_NETWORK)) <==> a == 0;
    assert InSpan(a, b, SpanOf(PRIVATE_24_BIT)) <==> a == 10;
    assert InSpan(a, b, SpanOf(LOOPBACK)) <==> a == 127;
    assert InSpan(a, b, SpanOf(LINK_LOCAL)) <==> a == 169 && b == 254;
    assert InSpan(a, b, SpanOf(PRIVATE_20_BIT)) <==> a == 172 && 16 <= b <= 31;
    assert InSpan(a, b, SpanOf(PRIVATE_16_BIT)) <==> a == 192 && b == 168;
  }

  lemma OctetsInRanges(a: nat, b: nat, c: nat, d: nat)
    requires b <= 255 && c <= 255 && d <= 255
    ensures InListedRanges(Address(a, b, c, d)) <==> BlockedOctets(Some(a), Some(b))
  {
    BlockedByOctets(a, b);
    forall block
      ensures InRange(Address(a, b, c, d), RangeOf(SpanOf(block))) <==> InSpan(a, b, SpanOf(block))
    {
      RangeByOctets(a, b, c, d, SpanOf(block));
    }
  }

  /** Every dotted text: blocked exactly when its 32-bit value is in a listed range. */
  lemma DottedVerdict(s: string)
    requires IsIPv4(s)
    ensures IsPrivateOrReservedIpv4(s) <==> InListedRanges(AddressOf(s))
  {
    var parts := Split(s, '.');
    assert IsOctet(parts[0]) && IsOctet(parts[1]) && IsOctet(parts[2]) && IsOctet(parts[3]);
    OctetsInRanges(Value(parts[0], 10), Value(parts[1], 10), Value(parts[2], 10), Value(parts[3], 10));
  }

  lemma PrintedOctet(n: nat)
    requires n <= 255
    ensures IsOctet(Print(n, 10)) && Value(Print(n, 10), 10) == n
  {
    ValueOfPrint(n, 10);
    if 10 <= n < 100 {
      assert Print(n, 10) == Print(n / 10, 10) + [DigitChar(n % 10)];
    } else if 100 <= n {
      assert Print(n, 10) == Print(n / 10, 10) + [DigitChar(n % 10)];
      assert Print(n / 10, 10) == Print(n / 10 / 10, 10) + [DigitChar(n / 10 % 10)];
    }
  }

  lemma SplitDotted(a: nat, b: nat, c: nat, d: nat)
    ensures Split(Dotted(a, b, c, d), '.') == [Print(a, 10), Print(b, 10), Print(c, 10), Print(d, 10)]
  {
    var parts := [Print(a, 10), Print(b, 10), Print(c, 10), Print(d, 10)];
    forall i | 0 <= i < 4
      ensures Without(parts[i], '.')
    {
      DigitsAreNotSeparators(parts[i], 10);
    }
    SplitOfJoin(parts, '.');
  }

  /** Printing four octets and reading them back. */
  lemma DottedRoundTrip(a: nat, b: nat, c: nat, d: nat)
    requires a <= 255 && b <= 255 && c <= 255 && d <= 255
    ensures IsIPv4(Dotted(a, b, c, d)) && AddressOf(Dotted(a, b, c, d)) == Address(a, b, c, d)
  {
    SplitDotted(a, b, c, d);
    PrintedOctet(a);
    PrintedOctet(b);
    PrintedOctet(c);
    PrintedOctet(d);
  }

  // ----- The mapped forms -----------------------------------------------------------

  predicate IsHexPair(suffix: string) {
    var parts := Split(suffix, ':');
    '.' !in suffix && |parts| == 2 && ParseHex(parts[0]).Some? && ParseHex(parts[1]).Some?
  }

  /** The low 16 bits of each group. */
  function HexPairAddress(suffix: string): nat
    requires IsHexPair(suffix)
  {
    var parts := Split(suffix, ':');
    ParseHex(parts[0]).value % 0x1_0000 * 0x1_0000 + ParseHex(parts[1]).value % 0x1_0000
  }

  lemma SplitGroup(n: nat)
    ensures n % 0x1_0000 == n / 256 % 256 * 256 + n % 256
  {
  }

  lemma HexPairVerdict(suffix: string)
    requires IsHexPair(suffix)
    ensures MappedVerdict(suffix) <==> InListedRanges(HexPairAddress(suffix))
  {
    var parts := Split(suffix, ':');
    var high, low := ParseHex(parts[0]).value, ParseHex(parts[1]).value;
    var a, b, c, d := high / 256 % 256, high % 256, low / 256 % 256, low % 256;
    DottedRoundTrip(a, b, c, d);
    DottedVerdict(Dotted(a, b, c, d));
    SplitGroup(high);
    SplitGroup(low);
    assert HexPairAddress(suffix) == Address(a, b, c, d);
  }

  /** A mapped text, in any letter case, is let through exactly when it is a
      dotted or a hex-pair form of an address outside every listed range. */
  lemma MappedTextVerdict(ip: string)
    requires MAPPED_PREFIX <= ToLower(ip)
    ensures var suffix := ToLower(ip)[|MAPPED_PREFIX|..];
      !IsPrivateOrReservedIpv6(ip) <==>
        || ('.' in suffix && IsIPv4(suffix) && !InListedRanges(AddressOf(suffix)))
        || (IsHexPair(suffix) && !InListedRanges(HexPairAddress(suffix)))
  {
    var suffix := ToLower(ip)[|MAPPED_PREFIX|..];
    if '.' in suffix {
      if IsIPv4(suffix) { DottedVerdict(suffix); }
    } else if IsHexPair(suffix) {
      HexPairVerdict(suffix);
    }
  }

  lemma ParseHexOfDigits(s: string)
    requires s != "" && AllDigits(s, 16)
    ensures ParseHex(s) == Some(Value(s, 16))
  {
    assert DigitPrefix(s, 16) == |s|;
    assert s[..|s|] == s;
  }

  lemma {:induction false} LowerIsStable(s: string)
    requires forall i :: 0 <= i < |s| ==> LowerChar(s[i]) == s[i]
    ensures ToLower(s) == s
    decreases s
  {
    if s != "" {
      LowerIsStable(s[1..]);
    }
  }

  lemma LowerMapped(suffix: string)
    requires forall i :: 0 <= i < |suffix| ==> LowerChar(suffix[i]) == suffix[i]
    ensures ToLower(MAPPED_PREFIX + suffix) == MAPPED_PREFIX + suffix
    ensures IsPrivateOrReservedIpv6(MAPPED_PREFIX + suffix) <==> MappedVerdict(suffix)
  {
    assert (MAPPED_PREFIX + suffix)[|MAPPED_PREFIX|..] == suffix;
    LowerIsStable(MAPPED_PREFIX + suffix);
  }

  lemma DottedIsLower(a: nat, b: nat, c: nat, d: nat)
    ensures var s := Dotted(a, b, c, d);
      '.' in s && forall i :: 0 <= i < |s| ==> LowerChar(s[i]) == s[i]
  {
    var p, q, r, t := Print(a, 10), Print(b, 10), Print(c, 10), Print(d, 10);
    assert [r, t][1..] == [t] && [q, r, t][1..] == [r, t] && [p, q, r, t][1..] == [q, r, t];
    assert Join([r, t], '.') == r + ['.'] + t;
    assert Join([q, r, t], '.') == q + ['.'] + Join([r, t], '.');
    assert Dotted(a, b, c, d) == p + ['.'] + Join([q, r, t], '.');
    assert Dotted(a, b, c, d)[|p|] == '.';
  }

  lemma MappedDottedVerdict(a: nat, b: nat, c: nat, d: nat)
    requires a <= 255 && b <= 255 && c <= 255 && d <= 255
    ensures IsPrivateOrReservedIpv6(MAPPED_PREFIX + Dotted(a, b, c, d)) <==> InListedRanges(Address(a, b, c, d))
  {
    DottedRoundTrip(a, b, c, d);
    DottedIsLower(a, b, c, d);
    LowerMapped(Dotted(a, b, c, d));
    DottedVerdict(Dotted(a, b, c, d));
  }

  function HexPair(high: nat, low: nat): string { Print(high, 16) + [':'] + Print(low, 16) }

  lemma SplitHexPair(high: nat, low: nat)
    ensures Split(HexPair(high, low), ':') == [Print(high, 16), Print(low, 16)] && '.' !in HexPair(high, low)
  {
    DigitsAreNotSeparators(Print(high, 16), 16);
    DigitsAreNotSeparators(Print(low, 16), 16);
    SplitFirst(Print(high, 16), ':', Print(low, 16));
    SplitNone(Print(low, 16), ':');
  }

  lemma HexPairRoundTrip(high: nat, low: nat)
    requires high < 0x1_0000 && low < 0x1_0000
    ensures IsHexPair(HexPair(high, low)) && HexPairAddress(HexPair(high, low)) == high * 0x1_0000 + low
  {
    SplitHexPair(high, low);
    ParseHexOfDigits(Print(high, 16));
    ParseHexOfDigits(Print(low, 16));
    ValueOfPrint(high, 16);
    ValueOfPrint(low, 16);
  }

  lemma HexPairIsLower(high: nat, low: nat)
    ensures var s := HexPair(high, low); forall i :: 0 <= i < |s| ==> LowerChar(s[i]) == s[i]
  {
  }

  /** Any lower-case hex pair, leading zeros included. */
  lemma MappedHexVerdict(pair: string)
    requires IsHexPair(pair) && forall i :: 0 <= i < |pair| ==> LowerChar(pair[i]) == pair[i]
    ensures IsPrivateOrReservedIpv6(MAPPED_PREFIX + pair) <==> InListedRanges(HexPairAddress(pair))
  {
    HexPairVerdict(pair);
    LowerMapped(pair);
  }

  lemma HexPairOfOctets(a: nat, b: nat, c: nat, d: nat)
    requires a <= 255 && b <= 255 && c <= 255 && d <= 255
    ensures var pair := HexPair(a * 256 + b, c * 256 + d);
      && IsHexPair(pair) && HexPairAddress(pair) == Address(a, b, c, d)
      && forall i :: 0 <= i < |pair| ==> LowerChar(pair[i]) == pair[i]
  {
    HexPairRoundTrip(a * 256 + b, c * 256 + d);
    HexPairIsLower(a * 256 + b, c * 256 + d);
  }

  /** For all octets the plain text, the mapped dotted form and the mapped hex
      form get the same verdict, and it is membership in the listed ranges. */
  lemma AllFormsAgree(a: nat, b: nat, c: nat, d: nat)
    requires a <= 255 && b <= 255 && c <= 255 && d <= 255
    ensures var blocked := InListedRanges(Address(a, b, c, d));
      && (IsPrivateOrReservedIpv4(Dotted(a, b, c, d)) <==> blocked)
      && (IsPrivateOrReservedIpv6(MAPPED_PREFIX + Dotted(a, b, c, d)) <==> blocked)
      && (IsPrivateOrReservedIpv6(MAPPED_PREFIX + HexPair(a * 256 + b, c * 256 + d)) <==> blocked)
  {
    DottedRoundTrip(a, b, c, d);
    DottedVerdict(Dotted(a, b, c, d));
    MappedDottedVerdict(a, b, c, d);
    HexPairOfOctets(a, b, c, d);
    MappedHexVerdict(HexPair(a * 256 + b, c * 256 + d));
  }

  // ----- Canonical texts ---------------------------------------------------------------

  /** An IPv4 text is the print of its octets, and of no others. */
  lemma IPv4IsItsOctets(s: string) returns (a: nat, b: nat, c: nat, d: nat)
    requires IsIPv4(s)
    ensures a <= 255 && b <= 255 && c <= 255 && d <= 255
    ensures s == Dotted(a, b, c, d) && AddressOf(s) == Address(a, b, c, d)
  {
    var parts := Split(s, '.');
    assert IsOctet(parts[0]) && IsOctet(parts[1]) && IsOctet(parts[2]) && IsOctet(parts[3]);
    a, b, c, d := Value(parts[0], 10), Value(parts[1], 10), Value(parts[2], 10), Value(parts[3], 10);
    PrintOfValue(parts[0]);
    PrintOfValue(parts[1]);
    PrintOfValue(parts[2]);
    PrintOfValue(parts[3]);
    assert parts == [Print(a, 10), Print(b, 10), Print(c, 10), Print(d, 10)];
    JoinOfSplit(s, '.');
  }

  lemma {:induction false} PrefixIsTheDigits(digits: string, rest: string)
    requires AllDigits(digits, 16) && (rest != "" ==> !IsDigit(rest[0], 16))
    ensures DigitPrefix(digits + rest, 16) == |digits|
    decreases digits
  {
    if digits == "" {
      assert digits + rest == rest;
    } else {
      PrefixIsTheDigits(digits[1..], rest);
      assert (digits + rest)[1..] == digits[1..] + rest;
    }
  }

  /** The value of a group is that of the digits it starts with. */
  lemma GroupIsItsDigits(digits: string, rest: string)
    requires digits != "" && AllDigits(digits, 16) && (rest != "" ==> !IsDigit(rest[0], 16))
    ensures ParseHex(digits + rest) == Some(Value(digits, 16))
  {
    PrefixIsTheDigits(digits, rest);
    assert (digits + rest)[..|digits|] == digits;
  }

  lemma NoGroupWithoutDigit(s: string)
    ensures ParseHex(s) == None <==> s == "" || !IsDigit(s[0], 16)
  {
    var n := DigitPrefix(s, 16);
    if n > 0 { assert s[..n][0] == s[0]; }
  }

  // ----- Letter case ----------------------------------------------------------------------

  const UPPER_LETTERS := "ABCDEFGHIJKLMNOPQRSTUVWXYZ"
  const LOWER_LETTERS := "abcdefghijklmnopqrstuvwxyz"

  /** The same character, or the same letter in the other case. */
  predicate SameLetter(c: char, d: char) {
    c == d || exists i :: 0 <= i < 26 && c in {UPPER_LETTERS[i], LOWER_LETTERS[i]} && d in {UPPER_LETTERS[i], LOWER_LETTERS[i]}
  }

  predicate SameLetters(s: string, t: string) {
    |s| == |t| && forall i :: 0 <= i < |s| ==> SameLetter(s[i], t[i])
  }

  lemma LettersAreTheirPlaces(i: nat)
    requires i < 26
    ensures UPPER_LETTERS[i] as int == 'A' as int + i && LOWER_LETTERS[i] as int == 'a' as int + i
  {
  }

  lemma SameLetterIffSameLower(c: char, d: char)
    ensures SameLetter(c, d) <==> LowerChar(c) == LowerChar(d)
  {
    if c != d && LowerChar(c) == LowerChar(d) {
      var i := LowerChar(c) as int - 'a' as int;
      LettersAreTheirPlaces(i);
      assert c in {UPPER_LETTERS[i], LOWER_LETTERS[i]} && d in {UPPER_LETTERS[i], LOWER_LETTERS[i]};
    }
    if c != d && SameLetter(c, d) {
      var i :| 0 <= i < 26 && c in {UPPER_LETTERS[i], LOWER_LETTERS[i]} && d in {UPPER_LETTERS[i], LOWER_LETTERS[i]};
      LettersAreTheirPlaces(i);
    }
  }

  lemma {:induction false} LowerAt(s: string, i: nat)
    requires i < |s|
    ensures ToLower(s)[i] == LowerChar(s[i])
    decreases s
  {
    if i > 0 { LowerAt(s[1..], i - 1); }
  }

  /** The verdict does not depend on letter case. */
  lemma VerdictIgnoresCase(s: string, t: string)
    requires SameLetters(s, t)
    ensures IsPrivateOrReservedIpv6(s) <==> IsPrivateOrReservedIpv6(t)
  {
    forall i | 0 <= i < |s|
      ensures ToLower(s)[i] == ToLower(t)[i]
    {
      SameLetterIffSameLower(s[i], t[i]);
      LowerAt(s, i);
      LowerAt(t, i);
    }
    assert ToLower(s) == ToLower(t);
  }

  lemma UpperIsListed(c: char)
    ensures 'A' <= c <= 'Z' ==> c in UPPER_LETTERS
  {
    if 'A' <= c <= 'Z' {
      LettersAreTheirPlaces(c as int - 'A' as int);
      assert UPPER_LETTERS[c as int - 'A' as int] == c;
    }
  }

  predicate NoUpper(s: string) { forall i :: 0 <= i < |s| ==> s[i] !in UPPER_LETTERS }

  lemma NoUpperIsStable(s: string)
    requires NoUpper(s)
    ensures ToLower(s) == s
  {
    forall i | 0 <= i < |s|
      ensures LowerChar(s[i]) == s[i]
    {
      UpperIsListed(s[i]);
    }
    LowerIsStable(s);
  }

  /** Of the unmapped texts, written in lower case, exactly the loopback address and
      those that start with `fc`, `fd` or `fe80` are blocked. */
  lemma UnmappedVerdict(ip: string)
    requires NoUpper(ip) && !("::ffff:" <= ip)
    ensures IsPrivateOrReservedIpv6(ip) <==>
      || ip == "::1"
      || (|ip| >= 2 && ip[..2] in {"fc", "fd"})
      || (|ip| >= 4 && ip[..4] == "fe80")
  {
    NoUpperIsStable(ip);
    assert "fc" <= ip <==> |ip| >= 2 && ip[..2] == "fc";
    assert "fd" <= ip <==> |ip| >= 2 && ip[..2] == "fd";
    assert "fe80" <= ip <==> |ip| >= 4 && ip[..4] == "fe80";
  }
}
