/** The canonical message of the OAuth callback HMAC: parameters without `hmac`
    and `signature`, sorted by key. The MAC itself is any function. */
module OAuthHmac {
  import opened Prelude
  import opened Sorting
  import opened Text

  datatype Param = Param(key: string, value: Option<string>)

  /** A query object in the order its keys were inserted; keys are distinct. */
  predicate DistinctKeys(q: seq<Param>) {
    forall i, j :: 0 <= i < j < |q| ==> q[i].key != q[j].key
  }

  // JavaScript's default string order is by UTF-16 code unit. A character here
  // is a Unicode scalar value, one or two code units.

  function CodeUnits(c: char): seq<int> {
    var n := c as int;
    if n < 0x1_0000 then [n] else [0xD800 + (n - 0x1_0000) / 0x400, 0xDC00 + (n - 0x1_0000) % 0x400]
  }

  /** Lexicographic order of code units. */
  predicate UnitsLess(a: seq<int>, b: seq<int>)
    decreases a
  {
    b != [] && (a == [] || a[0] < b[0] || (a[0] == b[0] && UnitsLess(a[1..], b[1..])))
  }

  /** A place in that order: the characters of two units, whose first unit is a
      surrogate, come between U+D7FF and U+E000. */
  function Rank(c: char): int {
    var n := c as int;
    if n < 0xD800 then n else if n >= 0x1_0000 then n - 0x1_0000 + 0xD800 else n - 0xE000 + 0x10_D800
  }

  lemma SurrogatesInRange(c: char)
    requires c as int >= 0x1_0000
    ensures |CodeUnits(c)| == 2 && 0xD800 <= CodeUnits(c)[0] < 0xDC00 && 0 <= CodeUnits(c)[1] - 0xDC00 < 0x400
    ensures Rank(c) == (CodeUnits(c)[0] - 0xD800) * 0x400 + (CodeUnits(c)[1] - 0xDC00) + 0xD800
  {
  }

  lemma PairsCompare(a: char, b: char)
    requires a as int >= 0x1_0000 && b as int >= 0x1_0000
    ensures Rank(a) < Rank(b) <==> UnitsLess(CodeUnits(a), CodeUnits(b))
  {
    SurrogatesInRange(a);
    SurrogatesInRange(b);
    var x, y := CodeUnits(a), CodeUnits(b);
    assert x == [x[0], x[1]] && y == [y[0], y[1]];
    assert x[1..] == [x[1]] && y[1..] == [y[1]] && x[1..][1..] == [] && y[1..][1..] == [];
    assert UnitsLess(x[1..], y[1..]) <==> x[1] < y[1];
  }

  lemma RankIsUtf16Order(a: char, b: char)
    ensures Rank(a) < Rank(b) <==> UnitsLess(CodeUnits(a), CodeUnits(b))
    ensures Rank(a) == Rank(b) <==> a == b
  {
    if a as int >= 0x1_0000 { SurrogatesInRange(a); }
    if b as int >= 0x1_0000 { SurrogatesInRange(b); }
    if a as int >= 0x1_0000 && b as int >= 0x1_0000 { PairsCompare(a, b); }
  }

  /** `a` comes before `b` or equals it. */
  predicate StringLeq(a: string, b: string)
    decreases a
  {
    a == "" || (b != "" && (Rank(a[0]) < Rank(b[0]) || (a[0] == b[0] && StringLeq(a[1..], b[1..]))))
  }

  function Units(s: string): seq<int>
    decreases s
  {
    if s == "" then [] else CodeUnits(s[0]) + Units(s[1..])
  }

  lemma {:induction false} CommonPrefix(p: seq<int>, x: seq<int>, y: seq<int>)
    ensures UnitsLess(p + x, p + y) <==> UnitsLess(x, y)
    decreases p
  {
    if p == [] {
      assert p + x == x && p + y == y;
    } else {
      CommonPrefix(p[1..], x, y);
      assert (p + x)[1..] == p[1..] + x && (p + y)[1..] == p[1..] + y;
    }
  }

  lemma FirstCharacterDecides(c: char, d: char, x: seq<int>, y: seq<int>)
    requires c != d
    ensures UnitsLess(CodeUnits(c) + x, CodeUnits(d) + y) <==> Rank(c) < Rank(d)
  {
    RankIsUtf16Order(c, d);
    if c as int >= 0x1_0000 { SurrogatesInRange(c); }
    if d as int >= 0x1_0000 { SurrogatesInRange(d); }
    var u, v := CodeUnits(c), CodeUnits(d);
    if u[0] == v[0] {
      assert |u| == 2 && |v| == 2;
      assert (u + x)[1..][0] == u[1] && (v + y)[1..][0] == v[1] && u[1] != v[1];
    }
  }

  /** `StringLeq` is lexicographic order by UTF-16 code unit. */
  lemma {:induction false} StringOrderIsUtf16(a: string, b: string)
    ensures StringLeq(a, b) <==> a == b || UnitsLess(Units(a), Units(b))
    decreases a
  {
    if a != "" && b != "" {
      if a[0] == b[0] {
        StringOrderIsUtf16(a[1..], b[1..]);
        CommonPrefix(CodeUnits(a[0]), Units(a[1..]), Units(b[1..]));
        assert a == [a[0]] + a[1..] && b == [b[0]] + b[1..];
      } else {
        FirstCharacterDecides(a[0], b[0], Units(a[1..]), Units(b[1..]));
      }
    }
  }

  function ByKey(): (Param, Param) -> bool {
    (p: Param, q: Param) => StringLeq(p.key, q.key)
  }

  lemma {:induction false} LeqIsTotal(a: string, b: string)
    ensures StringLeq(a, b) || StringLeq(b, a)
    decreases a
  {
    if a != "" && b != "" {
      RankIsUtf16Order(a[0], b[0]);
      if a[0] == b[0] { LeqIsTotal(a[1..], b[1..]); }
    }
  }

  lemma {:induction false} LeqIsAntisymmetric(a: string, b: string)
    requires StringLeq(a, b) && StringLeq(b, a)
    ensures a == b
    decreases a
  {
    if a != "" {
      LeqIsAntisymmetric(a[1..], b[1..]);
      assert a == [a[0]] + a[1..] && b == [b[0]] + b[1..];
    }
  }

  lemma {:induction false} LeqIsTransitive(a: string, b: string, c: string)
    requires StringLeq(a, b) && StringLeq(b, c)
    ensures StringLeq(a, c)
    decreases a
  {
    if a != "" && a[0] == b[0] && b[0] == c[0] { LeqIsTransitive(a[1..], b[1..], c[1..]); }
  }

  // ----- The canonical message ---------------------------------------------------

  function Lookup(q: seq<Param>, key: string): Option<string>
    decreases q
  {
    if q == [] then None else if q[0].key == key then q[0].value else Lookup(q[1..], key)
  }

  predicate IsSigned(p: Param) { p.key != "hmac" && p.key != "signature" }

  function Rest(q: seq<Param>): seq<Param>
    decreases q
  {
    if q == [] then [] else (if IsSigned(q[0]) then [q[0]] else []) + Rest(q[1..])
  }

  function Insert(p: Param, sorted: seq<Param>): seq<Param>
    decreases sorted
  {
    if sorted == [] || StringLeq(p.key, sorted[0].key) then [p] + sorted
    else [sorted[0]] + Insert(p, sorted[1..])
  }

  function Sort(q: seq<Param>): seq<Param>
    decreases q
  {
    if q == [] then [] else Insert(q[0], Sort(q[1..]))
  }

  function Joined(q: seq<Param>): string
    decreases q
  {
    if q == [] then ""
    else
      var first := q[0].key + "=" + q[0].value.GetOr("");
      if |q| == 1 then first else first + "&" + Joined(q[1..])
  }

  function Message(q: seq<Param>): string { Joined(Sort(Rest(q))) }

  /** `mac` is the keyed hash, hex encoded; its first argument is the secret. */
  predicate VerifyShopifyOAuthHmac(q: seq<Param>, secret: string, mac: (string, string) -> string) {
    var hmac := Lookup(q, "hmac");
    Truthy(hmac) && mac(secret, Message(q)) == hmac.value
  }

  // ----- The sort sorts -----------------------------------------------------------

  lemma {:induction false} InsertKeepsMembers(p: Param, sorted: seq<Param>)
    ensures multiset(Insert(p, sorted)) == multiset{p} + multiset(sorted)
    decreases sorted
  {
    if sorted != [] && !StringLeq(p.key, sorted[0].key) {
      InsertKeepsMembers(p, sorted[1..]);
      assert sorted == [sorted[0]] + sorted[1..];
    }
  }

  lemma PrependSorts(p: Param, sorted: seq<Param>)
    requires SortedBy(ByKey(), sorted) && forall q :: q in sorted ==> StringLeq(p.key, q.key)
    ensures SortedBy(ByKey(), [p] + sorted)
  {
  }

  lemma {:induction false} InsertSorts(p: Param, sorted: seq<Param>)
    requires SortedBy(ByKey(), sorted)
    ensures SortedBy(ByKey(), Insert(p, sorted))
    decreases sorted
  {
    if sorted == [] {
    } else if StringLeq(p.key, sorted[0].key) {
      forall i | 0 <= i < |sorted|
        ensures StringLeq(p.key, sorted[i].key)
      {
        assert i > 0 ==> ByKey()(sorted[0], sorted[i]);
        if i > 0 { LeqIsTransitive(p.key, sorted[0].key, sorted[i].key); }
      }
      PrependSorts(p, sorted);
    } else {
      InsertSorts(p, sorted[1..]);
      LeqIsTotal(p.key, sorted[0].key);
      FirstIsLeast(sorted);
      InsertKeepsMembers(p, sorted[1..]);
      forall q | q in Insert(p, sorted[1..])
        ensures StringLeq(sorted[0].key, q.key)
      {
        assert q in multiset(Insert(p, sorted[1..]));
        assert q == p || q in sorted[1..];
      }
      PrependSorts(sorted[0], Insert(p, sorted[1..]));
    }
  }

  lemma FirstIsLeast(sorted: seq<Param>)
    requires sorted != [] && SortedBy(ByKey(), sorted)
    ensures forall q :: q in sorted[1..] ==> StringLeq(sorted[0].key, q.key)
  {
    assert forall i :: 0 < i < |sorted| ==> ByKey()(sorted[0], sorted[i]);
  }

  lemma {:induction false} SortSorts(q: seq<Param>)
    ensures SortedBy(ByKey(), Sort(q)) && multiset(Sort(q)) == multiset(q)
    decreases q
  {
    if q != [] {
      SortSorts(q[1..]);
      InsertSorts(q[0], Sort(q[1..]));
      InsertKeepsMembers(q[0], Sort(q[1..]));
      assert q == [q[0]] + q[1..];
    }
  }

  // ----- What the verdict depends on -----------------------------------------------

  lemma {:induction false} RestOfPermutation(q: seq<Param>)
    ensures forall p :: multiset(Rest(q))[p] == if IsSigned(p) then multiset(q)[p] else 0
    decreases q
  {
    if q != [] {
      RestOfPermutation(q[1..]);
      assert q == [q[0]] + q[1..];
    }
  }

  lemma {:induction false} LookupByMembership(q: seq<Param>, p: Param)
    requires DistinctKeys(q) && p in q
    ensures Lookup(q, p.key) == p.value
    decreases q
  {
    if q[0] != p {
      LookupByMembership(q[1..], p);
    }
  }

  lemma {:induction false} LookupOfAbsent(q: seq<Param>, key: string)
    requires forall p :: p in q ==> p.key != key
    ensures Lookup(q, key) == None
    decreases q
  {
    if q != [] { LookupOfAbsent(q[1..], key); }
  }

  /** The parameters other than `signature`, as a bag. */
  ghost predicate SameButSignature(q: seq<Param>, q': seq<Param>) {
    forall p: Param :: p.key != "signature" ==> multiset(q)[p] == multiset(q')[p]
  }

  lemma DistinctKeysDoNotTie(q: seq<Param>)
    requires DistinctKeys(q)
    ensures NoTies(ByKey(), Sort(Rest(q)))
  {
    var s := Sort(Rest(q));
    SortSorts(Rest(q));
    RestOfPermutation(q);
    forall x, y | x in s && y in s && ByKey()(x, y) && ByKey()(y, x)
      ensures x == y
    {
      LeqIsAntisymmetric(x.key, y.key);
      assert x in multiset(s) && y in multiset(s);
      assert x in multiset(q) && y in multiset(q);
    }
  }

  lemma SameRest(q: seq<Param>, q': seq<Param>)
    requires SameButSignature(q, q')
    ensures multiset(Rest(q)) == multiset(Rest(q'))
  {
    RestOfPermutation(q);
    RestOfPermutation(q');
  }

  lemma SameMessage(q: seq<Param>, q': seq<Param>)
    requires DistinctKeys(q) && SameButSignature(q, q')
    ensures Message(q) == Message(q')
  {
    DistinctKeysDoNotTie(q);
    SameRest(q, q');
    SortSorts(Rest(q));
    SortSorts(Rest(q'));
    SortedArrangementIsUnique(ByKey(), Sort(Rest(q)), Sort(Rest(q')));
  }

  lemma SameHmac(q: seq<Param>, q': seq<Param>)
    requires DistinctKeys(q) && DistinctKeys(q') && SameButSignature(q, q')
    ensures Lookup(q, "hmac") == Lookup(q', "hmac")
  {
    if p :| p in q && p.key == "hmac" {
      assert p in multiset(q) && p in multiset(q');
      LookupByMembership(q, p);
      LookupByMembership(q', p);
    } else {
      assert forall p: Param :: p in q' && p.key == "hmac" ==> p in multiset(q') && multiset(q)[p] == multiset(q')[p];
      assert forall p: Param :: p in q <==> p in multiset(q);
      LookupOfAbsent(q, "hmac");
      LookupOfAbsent(q', "hmac");
    }
  }

  /** The verdict is the same for any order of the parameters, and with, without
      or with another `signature`. */
  lemma VerdictIgnoresOrderAndSignature(q: seq<Param>, q': seq<Param>, secret: string, mac: (string, string) -> string)
    requires DistinctKeys(q) && DistinctKeys(q') && SameButSignature(q, q')
    ensures VerifyShopifyOAuthHmac(q, secret, mac) <==> VerifyShopifyOAuthHmac(q', secret, mac)
  {
    SameMessage(q, q');
    SameHmac(q, q');
  }

  lemma AddingASignature(q: seq<Param>, value: Option<string>)
    requires DistinctKeys(q) && forall p :: p in q ==> p.key != "signature"
    ensures DistinctKeys(q + [Param("signature", value)]) && SameButSignature(q, q + [Param("signature", value)])
  {
  }

  // ----- What the message says ---------------------------------------------------------

  function Pair(p: Param): string { p.key + "=" + p.value.GetOr("") }

  function Pairs(q: seq<Param>): seq<string>
    decreases q
  {
    if q == [] then [] else [Pair(q[0])] + Pairs(q[1..])
  }

  /** A parameter whose text has no separator in the wrong place. */
  predicate Clean(p: Param) {
    Without(p.key, '=') && Without(Pair(p), '&')
  }

  lemma {:induction false} JoinedIsJoin(q: seq<Param>)
    requires q != []
    ensures |Pairs(q)| == |q| && Joined(q) == Join(Pairs(q), '&')
    decreases q
  {
    if |q| > 1 {
      JoinedIsJoin(q[1..]);
      assert Pairs(q)[1..] == Pairs(q[1..]);
    }
  }

  lemma {:induction false} PairsAt(q: seq<Param>, i: nat)
    requires i < |q|
    ensures |Pairs(q)| == |q| && Pairs(q)[i] == Pair(q[i])
    decreases q
  {
    if |q| > 1 { PairsAt(q[1..], if i > 0 then i - 1 else 0); }
  }

  /** Splitting the joined text at `&` gives its pairs back. */
  lemma SplitOfJoined(q: seq<Param>)
    requires q != [] && forall p :: p in q ==> Clean(p)
    ensures Split(Joined(q), '&') == Pairs(q)
  {
    JoinedIsJoin(q);
    forall i | 0 <= i < |Pairs(q)|
      ensures Without(Pairs(q)[i], '&')
    {
      PairsAt(q, i);
      assert q[i] in q;
    }
    SplitOfJoin(Pairs(q), '&');
  }

  lemma PairIsReadable(p: Param, p': Param)
    requires Clean(p) && Clean(p') && Pair(p) == Pair(p')
    ensures p.key == p'.key && p.value.GetOr("") == p'.value.GetOr("")
  {
    IndexOfFirst(p.key, '=', p.value.GetOr(""));
    IndexOfFirst(p'.key, '=', p'.value.GetOr(""));
    assert Pair(p) == p.key + ['='] + p.value.GetOr("") && Pair(p') == p'.key + ['='] + p'.value.GetOr("");
    assert Pair(p)[..|p.key|] == p.key && Pair(p')[..|p'.key|] == p'.key;
    assert Pair(p)[|p.key| + 1..] == p.value.GetOr("") && Pair(p')[|p'.key| + 1..] == p'.value.GetOr("");
  }

  lemma PairsAreReadable(q: seq<Param>, q': seq<Param>, i: nat)
    requires i < |q| && i < |q'| && Pairs(q) == Pairs(q') && Clean(q[i]) && Clean(q'[i])
    ensures q[i].key == q'[i].key && q[i].value.GetOr("") == q'[i].value.GetOr("")
  {
    PairsAt(q, i);
    PairsAt(q', i);
    PairIsReadable(q[i], q'[i]);
  }

  lemma JoinedIsReadable(q: seq<Param>, q': seq<Param>)
    requires (forall p :: p in q ==> Clean(p)) && (forall p :: p in q' ==> Clean(p)) && Joined(q) == Joined(q')
    ensures |q| == |q'|
    ensures forall i :: 0 <= i < |q| ==> q[i].key == q'[i].key && q[i].value.GetOr("") == q'[i].value.GetOr("")
  {
    JoinedIsEmpty(q);
    JoinedIsEmpty(q');
    if q != [] {
      SplitOfJoined(q);
      SplitOfJoined(q');
      JoinedIsJoin(q);
      JoinedIsJoin(q');
      forall i | 0 <= i < |q|
        ensures q[i].key == q'[i].key && q[i].value.GetOr("") == q'[i].value.GetOr("")
      {
        PairsAreReadable(q, q', i);
      }
    }
  }

  lemma JoinedIsEmpty(q: seq<Param>)
    ensures Joined(q) == "" <==> q == []
  {
  }

  predicate CleanSigned(q: seq<Param>) { forall p :: p in q && IsSigned(p) ==> Clean(p) }

  predicate Says(q: seq<Param>, key: string, value: string) {
    exists p :: p in q && IsSigned(p) && p.key == key && p.value.GetOr("") == value
  }

  lemma SortedRestMembers(q: seq<Param>)
    ensures forall p :: p in Sort(Rest(q)) <==> p in q && IsSigned(p)
  {
    SortSorts(Rest(q));
    RestOfPermutation(q);
    assert forall p :: p in Sort(Rest(q)) <==> p in multiset(Sort(Rest(q)));
    assert forall p :: p in q <==> p in multiset(q);
  }

  lemma MessageSaysNoLess(q: seq<Param>, q': seq<Param>, key: string, value: string)
    requires CleanSigned(q) && CleanSigned(q') && Message(q) == Message(q')
    requires Says(q, key, value)
    ensures Says(q', key, value)
  {
    SortedRestMembers(q);
    SortedRestMembers(q');
    JoinedIsReadable(Sort(Rest(q)), Sort(Rest(q')));
    var p :| p in q && IsSigned(p) && p.key == key && p.value.GetOr("") == value;
    var s, s' := Sort(Rest(q)), Sort(Rest(q'));
    var i :| 0 <= i < |s| && s[i] == p;
    assert s'[i] in s' && s'[i] in q';
  }

  /** Without separators in the wrong place, queries with one message carry the
      same signed parameters: the canonical form loses nothing. */
  lemma MessageSaysItAll(q: seq<Param>, q': seq<Param>, key: string, value: string)
    requires CleanSigned(q) && CleanSigned(q') && Message(q) == Message(q')
    ensures Says(q, key, value) <==> Says(q', key, value)
  {
    if Says(q, key, value) { MessageSaysNoLess(q, q', key, value); }
    if Says(q', key, value) { MessageSaysNoLess(q', q, key, value); }
  }

  // ----- What the verdict is --------------------------------------------------------------

  function KeyValue(p: Param): string { if p.value == None then p.key + "=" else p.key + "=" + p.value.value }

  /** The texts joined at `&`. */
  function AmpJoined(q: seq<Param>): string {
    if q == [] then "" else Join(seq(|q|, i requires 0 <= i < |q| => KeyValue(q[i])), '&')
  }

  /** The parameters other than `hmac` and `signature`, sorted by key in code unit order. */
  ghost predicate Arranges(sorted: seq<Param>, q: seq<Param>) {
    && (forall p :: multiset(sorted)[p] == if p.key == "hmac" || p.key == "signature" then 0 else multiset(q)[p])
    && (forall i, j :: 0 <= i < j < |sorted| ==>
          sorted[i].key == sorted[j].key || UnitsLess(Units(sorted[i].key), Units(sorted[j].key)))
  }

  lemma ArrangesIffSortedRest(sorted: seq<Param>, q: seq<Param>)
    ensures Arranges(sorted, q) <==> multiset(sorted) == multiset(Rest(q)) && SortedBy(ByKey(), sorted)
  {
    RestOfPermutation(q);
    forall i, j | 0 <= i < j < |sorted|
      ensures ByKey()(sorted[i], sorted[j]) <==>
        sorted[i].key == sorted[j].key || UnitsLess(Units(sorted[i].key), Units(sorted[j].key))
    {
      StringOrderIsUtf16(sorted[i].key, sorted[j].key);
    }
  }

  lemma OneArrangement(q: seq<Param>, sorted: seq<Param>)
    requires DistinctKeys(q) && Arranges(sorted, q)
    ensures sorted == Sort(Rest(q))
  {
    ArrangesIffSortedRest(sorted, q);
    SortSorts(Rest(q));
    DistinctKeysDoNotTie(q);
    SortedArrangementIsUnique(ByKey(), Sort(Rest(q)), sorted);
  }

  lemma AnArrangementExists(q: seq<Param>)
    ensures Arranges(Sort(Rest(q)), q)
  {
    SortSorts(Rest(q));
    ArrangesIffSortedRest(Sort(Rest(q)), q);
  }

  lemma JoinedIsAmpJoined(q: seq<Param>)
    ensures Joined(q) == AmpJoined(q)
  {
    if q != [] {
      JoinedIsJoin(q);
      var texts := seq(|q|, i requires 0 <= i < |q| => KeyValue(q[i]));
      forall i | 0 <= i < |q|
        ensures Pairs(q)[i] == texts[i]
      {
        PairsAt(q, i);
        ConcatNothing(q[i].key + "=");
      }
      assert Pairs(q) == texts;
    }
  }

  /** The hmac a query carries. */
  predicate Carries(q: seq<Param>, hmac: string) {
    hmac != "" && Param("hmac", Some(hmac)) in q
  }

  lemma LookupOfHmac(q: seq<Param>)
    requires DistinctKeys(q)
    ensures forall hmac :: Carries(q, hmac) <==> Truthy(Lookup(q, "hmac")) && Lookup(q, "hmac").value == hmac
  {
    if p :| p in q && p.key == "hmac" {
      LookupByMembership(q, p);
      assert forall p' :: p' in q && p'.key == "hmac" ==> p' == p;
    } else {
      LookupOfAbsent(q, "hmac");
    }
  }

  /** Accepted if and only if the query carries an hmac that is the keyed hash of
      its other parameters: `key=value` joined at `&`, in any key-sorted arrangement. */
  lemma AcceptedIffHashed(q: seq<Param>, sorted: seq<Param>, secret: string, mac: (string, string) -> string)
    requires DistinctKeys(q) && Arranges(sorted, q)
    ensures VerifyShopifyOAuthHmac(q, secret, mac) <==> Carries(q, mac(secret, AmpJoined(sorted)))
  {
    OneArrangement(q, sorted);
    JoinedIsAmpJoined(sorted);
    LookupOfHmac(q);
  }

  /** Under a hash without collisions one hmac vouches for one set of parameters. */
  lemma OneHmacOneMeaning(q: seq<Param>, q': seq<Param>, hmac: string, secret: string, mac: (string, string) -> string,
                          key: string, value: string)
    requires forall m, m' :: mac(secret, m) == mac(secret, m') ==> m == m'
    requires DistinctKeys(q) && DistinctKeys(q') && CleanSigned(q) && CleanSigned(q')
    requires Carries(q, hmac) && Carries(q', hmac)
    requires VerifyShopifyOAuthHmac(q, secret, mac) && VerifyShopifyOAuthHmac(q', secret, mac)
    ensures Says(q, key, value) <==> Says(q', key, value)
  {
    LookupOfHmac(q);
    LookupOfHmac(q');
    MessageSaysItAll(q, q', key, value);
  }
}
