/** The two stock checks, their early-exit loops, and the check that refreshes an
    expired token once and tries again. */
module Stock {
  import opened Prelude

  datatype Line = Line(sku: string, quantity: real)

  /** A provider's answer to one lookup; `Found(None)` lists no product. */
  datatype Reply = Expired | HttpError | Found(available: Option<real>)

  datatype Check = InStock(available: Option<real>) | OutOfStock(shortAt: real) | Unauthorized | BadGateway | NotFound | DatabaseFailed

  function OnHand(r: Reply): real
    requires r.Found?
  {
    r.available.GetOr(0.0)
  }

  predicate Covered(line: Line, r: Reply) { r.Found? && OnHand(r) >= line.quantity }

  /** `filter(item => item.sku)`. */
  function Checkable(items: seq<Line>): seq<Line>
    decreases items
  {
    if items == [] then [] else (if items[0].sku != "" then [items[0]] else []) + Checkable(items[1..])
  }

  ghost predicate AllCovered(lines: seq<Line>, replies: nat -> Reply) {
    forall i :: 0 <= i < |lines| ==> Covered(lines[i], replies(i))
  }

  /** Line `i` is the first that is not covered. */
  ghost predicate StopsAt(lines: seq<Line>, replies: nat -> Reply, i: nat) {
    i < |lines| && !Covered(lines[i], replies(i)) && forall j :: 0 <= j < i ==> Covered(lines[j], replies(j))
  }

  ghost predicate IsLeast(m: real, n: nat, replies: nat -> Reply)
    requires forall i :: 0 <= i < n ==> replies(i).Found?
  {
    && (exists i :: 0 <= i < n && m == OnHand(replies(i)))
    && (forall i :: 0 <= i < n ==> m <= OnHand(replies(i)))
  }

  function Total(n: nat, replies: nat -> Reply): real
    requires forall i :: 0 <= i < n ==> replies(i).Found?
  {
    if n == 0 then 0.0 else Total(n - 1, replies) + OnHand(replies(n - 1))
  }

  /** What the first uncovered line answers; Odoo has no expiry of its own. */
  function StopVerdict(r: Reply, zoho: bool): Check {
    match r
    case Found(_) => OutOfStock(OnHand(r))
    case HttpError => BadGateway
    case Expired => if zoho then Unauthorized else BadGateway
  }

  ghost predicate ZohoVerdict(items: seq<Line>, replies: nat -> Reply, r: Check) {
    var lines := Checkable(items);
    if AllCovered(lines, replies) then
      if lines == [] then r == InStock(None)
      else r.InStock? && r.available.Some? && IsLeast(r.available.value, |lines|, replies)
    else exists i :: StopsAt(lines, replies, i) && r == StopVerdict(replies(i), true)
  }

  ghost predicate OdooVerdict(items: seq<Line>, replies: nat -> Reply, r: Check) {
    if AllCovered(items, replies) then r == InStock(Some(Total(|items|, replies)))
    else exists i :: StopsAt(items, replies, i) && r == StopVerdict(replies(i), false)
  }

  // ----- The adapters ---------------------------------------------------------------

  method ZohoCheckInventory(items: seq<Line>, replies: nat -> Reply) returns (r: Check)
    ensures ZohoVerdict(items, replies, r)
  {
    var checkable := Checkable(items);
    if |checkable| == 0 { return InStock(None); }
    var minAvailable: Option<real> := None;
    for i := 0 to |checkable|
      invariant forall j :: 0 <= j < i ==> Covered(checkable[j], replies(j))
      invariant i == 0 ==> minAvailable.None?
      invariant i > 0 ==> minAvailable.Some? && IsLeast(minAvailable.value, i, replies)
    {
      var res := replies(i);
      assert !Covered(checkable[i], res) ==> StopsAt(checkable, replies, i);
      if res.Expired? { return Unauthorized; }
      if res.HttpError? { return BadGateway; }
      var available := if res.available.Some? then res.available.value else 0.0;
      minAvailable := if minAvailable.None? || available < minAvailable.value then Some(available) else minAvailable;
      if available < checkable[i].quantity { return OutOfStock(available); }
    }
    r := InStock(minAvailable);
  }

  /** `login` is how parsing the credential, the address guard and the session
      request went; only a usable session reaches the loop. */
  datatype Login = BadCredential | Refused | Session

  method OdooCheckInventory(items: seq<Line>, login: Login, replies: nat -> Reply) returns (r: Check)
    ensures login.BadCredential? ==> r == Unauthorized
    ensures login.Refused? ==> r == BadGateway
    ensures login.Session? ==> OdooVerdict(items, replies, r)
  {
    if login.BadCredential? { return Unauthorized; }
    if login.Refused? { return BadGateway; }
    var totalAvailable := 0.0;
    for i := 0 to |items|
      invariant forall j :: 0 <= j < i ==> Covered(items[j], replies(j))
      invariant totalAvailable == Total(i, replies)
    {
      var res := replies(i);
      assert !Covered(items[i], res) ==> StopsAt(items, replies, i);
      if !res.Found? { return BadGateway; }
      var onHand := if res.available.Some? then res.available.value else 0.0;
      totalAvailable := totalAvailable + onHand;
      if onHand < items[i].quantity { return OutOfStock(onHand); }
    }
    r := InStock(Some(totalAvailable));
  }

  /** There is one verdict, so the loops compute it and nothing else. */
  lemma VerdictIsUnique(items: seq<Line>, replies: nat -> Reply, r: Check, r': Check)
    ensures ZohoVerdict(items, replies, r) && ZohoVerdict(items, replies, r') ==> r == r'
    ensures OdooVerdict(items, replies, r) && OdooVerdict(items, replies, r') ==> r == r'
  {
  }

  lemma {:induction false} CheckableKeepsSkuLines(items: seq<Line>, line: Line)
    ensures multiset(Checkable(items))[line] == if line.sku != "" then multiset(items)[line] else 0
    decreases items
  {
    if items != [] {
      CheckableKeepsSkuLines(items[1..], line);
      assert items == [items[0]] + items[1..];
    }
  }

  lemma CheckableMembers(items: seq<Line>)
    ensures forall line :: line in Checkable(items) <==> line in items && line.sku != ""
  {
  }

  lemma CoveredByStock(lines: seq<Line>, stock: string -> Reply, replies: nat -> Reply)
    requires forall i :: 0 <= i < |lines| ==> replies(i) == stock(lines[i].sku)
    ensures AllCovered(lines, replies) <==> forall line :: line in lines ==> Covered(line, stock(line.sku))
  {
  }

  /** Zoho: in stock if and only if every line with a SKU is covered by its answer. */
  lemma ZohoInStockIffCovered(items: seq<Line>, stock: string -> Reply, replies: nat -> Reply, r: Check)
    requires forall i :: 0 <= i < |Checkable(items)| ==> replies(i) == stock(Checkable(items)[i].sku)
    requires ZohoVerdict(items, replies, r)
    ensures r.InStock? <==> forall line :: line in items && line.sku != "" ==> Covered(line, stock(line.sku))
  {
    CheckableMembers(items);
    CoveredByStock(Checkable(items), stock, replies);
  }

  /** Odoo, given the lines with a SKU: the same. */
  lemma OdooInStockIffCovered(items: seq<Line>, stock: string -> Reply, replies: nat -> Reply, r: Check)
    requires forall i :: 0 <= i < |Checkable(items)| ==> replies(i) == stock(Checkable(items)[i].sku)
    requires OdooVerdict(Checkable(items), replies, r)
    ensures r.InStock? <==> forall line :: line in items && line.sku != "" ==> Covered(line, stock(line.sku))
  {
    CheckableMembers(items);
    CoveredByStock(Checkable(items), stock, replies);
  }

  // ----- Read off the replies ----------------------------------------------------------

  /** The stock a reply shows: none if it lists no product. */
  function Shown(r: Reply): real
    requires r.Found?
  {
    if r.available == None then 0.0 else r.available.value
  }

  /** Every line before `i` is covered: by stock of at least its quantity. */
  predicate CoveredUpTo(lines: seq<Line>, replies: nat -> Reply, i: nat)
    requires i <= |lines|
  {
    forall j :: 0 <= j < i ==> replies(j).Found? && Shown(replies(j)) >= lines[j].quantity
  }

  /** Zoho, line by line: the first reply that is no stock, or too little, is the
      answer; if there is none, the least stock, or nothing to look up. */
  lemma ZohoAnswers(items: seq<Line>, replies: nat -> Reply, r: Check, i: nat)
    requires ZohoVerdict(items, replies, r) && i <= |Checkable(items)| && CoveredUpTo(Checkable(items), replies, i)
    ensures i < |Checkable(items)| ==>
      var reply := replies(i);
      && (reply.Expired? ==> r == Unauthorized)
      && (reply.HttpError? ==> r == BadGateway)
      && (reply.Found? && Shown(reply) < Checkable(items)[i].quantity ==> r == OutOfStock(Shown(reply)))
    ensures i == |Checkable(items)| == 0 ==> r == InStock(None)
    ensures i == |Checkable(items)| > 0 ==>
      && r.InStock? && r.available.Some?
      && (forall j :: 0 <= j < i ==> r.available.value <= Shown(replies(j)))
      && (exists j :: 0 <= j < i && r.available.value == Shown(replies(j)))
  {
    var lines := Checkable(items);
    assert forall j :: 0 <= j < i ==> Covered(lines[j], replies(j));
    if i < |lines| && !Covered(lines[i], replies(i)) {
      assert StopsAt(lines, replies, i);
      var k: nat :| StopsAt(lines, replies, k) && r == StopVerdict(replies(k), true);
      assert k == i;
    } else if i == |lines| {
      assert AllCovered(lines, replies);
    }
  }

  /** The stocks of the first replies, and their sum from the front. */
  function Stocks(n: nat, replies: nat -> Reply): seq<real>
    requires forall i :: 0 <= i < n ==> replies(i).Found?
  {
    seq(n, i requires 0 <= i < n => Shown(replies(i)))
  }

  function Sum(s: seq<real>): real
    decreases s
  {
    if s == [] then 0.0 else s[0] + Sum(s[1..])
  }

  lemma {:induction false} SumOfMore(s: seq<real>, x: real)
    ensures Sum(s + [x]) == Sum(s) + x
    decreases s
  {
    if s == [] {
      assert s + [x] == [x] && [x][1..] == [];
    } else {
      SumOfMore(s[1..], x);
      assert (s + [x])[1..] == s[1..] + [x];
    }
  }

  lemma {:induction false} TotalIsTheSum(n: nat, replies: nat -> Reply)
    requires forall i :: 0 <= i < n ==> replies(i).Found?
    ensures Total(n, replies) == Sum(Stocks(n, replies))
    decreases n
  {
    if n > 0 {
      TotalIsTheSum(n - 1, replies);
      SumOfMore(Stocks(n - 1, replies), Shown(replies(n - 1)));
      assert Stocks(n, replies) == Stocks(n - 1, replies) + [Shown(replies(n - 1))];
    }
  }

  /** Odoo, line by line: the first reply that is no stock, or too little, is the
      answer; if there is none, the sum of the stocks. */
  lemma OdooAnswers(items: seq<Line>, replies: nat -> Reply, r: Check, i: nat)
    requires OdooVerdict(items, replies, r) && i <= |items| && CoveredUpTo(items, replies, i)
    ensures i < |items| ==>
      var reply := replies(i);
      && (!reply.Found? ==> r == BadGateway)
      && (reply.Found? && Shown(reply) < items[i].quantity ==> r == OutOfStock(Shown(reply)))
    ensures i == |items| ==> r == InStock(Some(Sum(Stocks(i, replies))))
  {
    assert forall j :: 0 <= j < i ==> Covered(items[j], replies(j));
    if i < |items| && !Covered(items[i], replies(i)) {
      assert StopsAt(items, replies, i);
      var k: nat :| StopsAt(items, replies, k) && r == StopVerdict(replies(k), false);
      assert k == i;
    } else if i == |items| {
      assert AllCovered(items, replies);
      TotalIsTheSum(i, replies);
    }
  }

  /** The filter keeps the order of the lines. */
  lemma {:induction false} CheckableKeepsOrder(a: seq<Line>, b: seq<Line>)
    ensures Checkable(a + b) == Checkable(a) + Checkable(b)
    decreases a
  {
    if a == [] {
      assert a + b == b;
    } else {
      CheckableKeepsOrder(a[1..], b);
      assert (a + b)[0] == a[0] && (a + b)[1..] == a[1..] + b;
      ConcatAssociates(if a[0].sku != "" then [a[0]] else [], Checkable(a[1..]), Checkable(b));
    }
  }

  // ----- Refresh and retry --------------------------------------------------------------

  datatype ZohoCredential = ZohoCredential(accessToken: string, refreshToken: string, expiresAt: nat)

  datatype Grant = Grant(accessToken: string, expiresAt: nat)

  /** The refresh answer has no refresh token: the old one is carried forward. */
  function Refreshed(c: ZohoCredential, g: Grant): ZohoCredential {
    ZohoCredential(g.accessToken, c.refreshToken, g.expiresAt)
  }

  function RefreshedAll(c: ZohoCredential, grants: seq<Grant>): ZohoCredential
    decreases grants
  {
    if grants == [] then c else RefreshedAll(Refreshed(c, grants[0]), grants[1..])
  }

  lemma {:induction false} RefreshTokenIsKept(c: ZohoCredential, grants: seq<Grant>)
    ensures RefreshedAll(c, grants).refreshToken == c.refreshToken
    ensures grants != [] ==>
      var last := grants[|grants| - 1];
      RefreshedAll(c, grants).accessToken == last.accessToken && RefreshedAll(c, grants).expiresAt == last.expiresAt
    decreases grants
  {
    if grants != [] { RefreshTokenIsKept(Refreshed(c, grants[0]), grants[1..]); }
  }

  /** The tenant's live inventory provider, if the lookup finds one. */
  datatype Provider = NoProvider | Zoho | Odoo(login: Login)

  /** The stored Zoho credential of a tenant, and the checks made with it. */
  class IntegrationActionsService {
    var stored: ZohoCredential
    ghost var checkedWith: seq<ZohoCredential>
    ghost var refreshes: nat

    constructor (c: ZohoCredential)
      ensures stored == c && checkedWith == [] && refreshes == 0
    {
      stored, checkedWith, refreshes := c, [], 0;
    }

    /** `before` and `after` answer the first and the second check; `refresh` is
        `None` when the refresh call throws, and `store` is how storing its result
        goes. `first` is the first check's result. */
    method CheckInventory(provider: Provider, items: seq<Line>, before: nat -> Reply, refresh: Option<Grant>, store: Fate,
                          after: nat -> Reply)
      returns (r: Check, ghost first: Check)
      modifies this
      ensures provider.NoProvider? ==> r == NotFound
      ensures provider.Odoo? ==> r == first
      ensures provider.Odoo? && provider.login.Session? ==> OdooVerdict(Checkable(items), before, r)
      ensures provider.Zoho? ==> ZohoVerdict(Checkable(items), before, first)
      ensures provider.Zoho? && !first.Unauthorized? ==> r == first
      ensures provider.Zoho? && first.Unauthorized? ==>
        if refresh.None? then r == BadGateway
        else if !store.Heard? then r == DatabaseFailed
        else ZohoVerdict(Checkable(items), after, r)
      ensures var retries := provider.Zoho? && first.Unauthorized?;
        && refreshes == old(refreshes) + (if retries then 1 else 0)
        && stored == (if retries && refresh.Some? && !store.Aborted? then Refreshed(old(stored), refresh.value) else old(stored))
        && checkedWith == old(checkedWith) + (if provider.Zoho? then [old(stored)] else [])
                          + (if retries && refresh.Some? && store.Heard? then [stored] else [])
      ensures stored.refreshToken == old(stored.refreshToken)
    {
      var lines := Checkable(items);
      match provider
      case NoProvider => return NotFound, NotFound;
      case Odoo(login) =>
        r := OdooCheckInventory(lines, login, before);
        first := r;
      case Zoho =>
        checkedWith := checkedWith + [stored];
        r := ZohoCheckInventory(lines, before);
        first := r;
        if !r.Unauthorized? { return; }
        refreshes := refreshes + 1;
        if refresh.None? { return BadGateway, first; }
        var refreshed := ZohoCredential(refresh.value.accessToken, stored.refreshToken, refresh.value.expiresAt);
        if store.Aborted? { return DatabaseFailed, first; }
        stored := refreshed;
        if store.Unheard? { return DatabaseFailed, first; }
        checkedWith := checkedWith + [refreshed];
        r := ZohoCheckInventory(lines, after);
    }
  }
}
