/** What every run of connect, callback, test, disconnect and credential
    rotation keeps. */
module IntegrationLifecycle {
  import opened Prelude
  import opened IntegrationModel

  datatype Call =
    | DoConnect(slot: Slot, user: string, body: ConnectBody, found: Option<Provider>, configured: bool, now: nat)
    | DoShopifyCallback(q: Query, shopify: ShopifyReplies, now: nat)
    | DoZohoCallback(q: Query, zoho: ZohoReplies, now: nat)
    | DoTest(slot: Slot, health: Health, now: nat)
    | DoDisconnect(slot: Slot, user: string)
    | DoUpdateCredential(slot: Slot, secret: string)

  /** State tokens are fresh, and a group lookup answers as a database would. */
  ghost predicate Plausible(w: World, c: Call) {
    c.DoConnect? ==>
      && c.body.state != "" && c.body.state !in w.minted
      && (GroupOf(c.slot.provider).Some? ==> FirstLive(w.rows, c.slot.tenant, GroupOf(c.slot.provider).value, c.found))
  }

  /** Zoho's callback completes with a state token made for Shopify: the lookup is
      by token alone, and nothing in the callback asks for the row's provider. */
  ghost predicate Crossed(w: World, c: Call) {
    c.DoZohoCallback? &&
      var pending := FindByState(w.rows, c.q.state);
      && pending.Some? && pending.value.provider.SHOPIFY?
      && Truthy(c.q.code) && !Expired(w.rows[pending.value], c.now)
      && c.zoho.secret.Some? && Truthy(c.zoho.organizationId)
  }

  ghost predicate Legal(w: World, c: Call) { Plausible(w, c) && !Crossed(w, c) }

  ghost function Do(w: World, c: Call): World {
    match c
    case DoConnect(slot, user, body, found, configured, now) => Connect(w, slot, user, body, found, configured, now)
    case DoShopifyCallback(q, replies, now) => ShopifyCallback(w, q, replies, now)
    case DoZohoCallback(q, replies, now) => ZohoCallback(w, q, replies, now)
    case DoTest(slot, health, now) => Test(w, slot, health, now)
    case DoDisconnect(slot, user) => Disconnect(w, slot, user)
    case DoUpdateCredential(slot, secret) => UpdateCredential(w, slot, secret)
  }

  // ----- The invariant ----------------------------------------------------

  predicate RowGood(slot: Slot, row: Row) {
    && !row.status.DISCONNECTED?
    && (Live(row.status) ==> row.credential.Some?)
    && (row.status.CONNECTING? ==> row.oauthState.Some?)
    && (row.oauthState.Some? <==> row.expiresAt.Some?)
    && (row.oauthState.Some? && !row.status.CONNECTING? ==> row.credential.Some? && Live(row.status))
    && (!IsOAuth(slot.provider) ==> Live(row.status) && row.oauthState.None?)
    && (slot.provider.SHOPIFY? ==>
        && row.config.shop.Some?
        && (row.status.ACTIVE? ==> Truthy(row.config.orderWebhookId))
        && (row.oauthState.Some? ==> row.config.orderWebhookId.None?))
    && (slot.provider.ZOHO_INVENTORY? ==> row.config.shop.None?)
  }

  /** A row's token was minted for its provider and has not been exchanged. */
  predicate TokenGood(w: World, slot: Slot, token: Option<string>) {
    token.Some? ==>
      && token.value != "" && token.value in w.minted && w.minted[token.value] == slot.provider
      && token.value !in w.exchanges
  }

  predicate NoRepeats(s: seq<string>) {
    forall i, j :: 0 <= i < j < |s| ==> s[i] != s[j]
  }

  /** Groups whose members all connect by API key. */
  predicate KeyGroup(g: Option<Group>) { g.Some? && !g.value.INVENTORY? }

  predicate LiveIn(rows: Table, slot: Slot) { slot in rows && Live(rows[slot].status) }

  predicate Rivals(a: Slot, b: Slot) {
    a != b && a.tenant == b.tenant && GroupOf(a.provider).Some? && GroupOf(a.provider) == GroupOf(b.provider)
  }

  /** At most one provider of a mailer, alert or shipping group is live per tenant. */
  ghost predicate OneLivePerKeyGroup(rows: Table) {
    forall a, b :: Rivals(a, b) && KeyGroup(GroupOf(a.provider)) ==> !(LiveIn(rows, a) && LiveIn(rows, b))
  }

  ghost predicate TokensGood(w: World) {
    && (forall slot :: slot in w.rows ==> TokenGood(w, slot, w.rows[slot].oauthState))
    && UniqueStates(w.rows)
    && NoRepeats(w.exchanges)
    && (forall t :: t in w.exchanges ==> t in w.minted)
  }

  ghost predicate Good(w: World) {
    && (forall slot :: slot in w.rows ==> RowGood(slot, w.rows[slot]))
    && TokensGood(w)
    && OneLivePerKeyGroup(w.rows)
  }

  // ----- Each call keeps it -------------------------------------------------

  /** The history side of a row write: the token stays or goes, or is fresh, or
      is taken to an exchange and cleared. */
  ghost predicate TokenStep(w: World, w': World, slot: Slot, row: Row) {
    || (w'.minted == w.minted && w'.exchanges == w.exchanges
        && (row.oauthState.None? || (slot in w.rows && row.oauthState == w.rows[slot].oauthState)))
    || (row.oauthState.Some? && row.oauthState.value !in w.minted && row.oauthState.value != ""
        && w'.minted == w.minted[row.oauthState.value := slot.provider] && w'.exchanges == w.exchanges)
    || (row.oauthState.None? && w'.minted == w.minted && slot in w.rows && w.rows[slot].oauthState.Some?
        && w'.exchanges == w.exchanges + [w.rows[slot].oauthState.value])
  }

  lemma PutKeepsTokens(w: World, w': World, slot: Slot, row: Row)
    requires TokensGood(w) && w'.rows == w.rows[slot := row] && TokenStep(w, w', slot, row)
    ensures TokensGood(w')
  {
    assert slot in w.rows ==> TokenGood(w, slot, w.rows[slot].oauthState);
    forall s | s in w'.rows
      ensures TokenGood(w', s, w'.rows[s].oauthState)
    {
      if s != slot {
        assert s in w.rows && TokenGood(w, s, w.rows[s].oauthState);
        assert slot in w.rows && w.rows[slot].oauthState.Some? ==> w.rows[s].oauthState != w.rows[slot].oauthState;
      }
    }
  }

  lemma PutKeepsGood(w: World, w': World, slot: Slot, row: Row)
    requires Good(w) && w'.rows == w.rows[slot := row] && TokenStep(w, w', slot, row) && RowGood(slot, row)
    requires KeyGroup(GroupOf(slot.provider)) && !LiveIn(w.rows, slot) ==>
      forall other :: Rivals(slot, other) ==> !LiveIn(w.rows, other)
    ensures Good(w')
  {
    PutKeepsTokens(w, w', slot, row);
    forall a, b | Rivals(a, b) && KeyGroup(GroupOf(a.provider))
      ensures !(LiveIn(w'.rows, a) && LiveIn(w'.rows, b))
    {
      assert Rivals(b, a) && !(LiveIn(w.rows, a) && LiveIn(w.rows, b));
    }
  }

  lemma RemoveKeepsGood(w: World, w': World, slot: Slot)
    requires Good(w) && w'.rows == w.rows - {slot} && w'.minted == w.minted && w'.exchanges == w.exchanges
    ensures Good(w')
  {
  }

  lemma ConnectKeepsGood(w: World, c: Call)
    requires c.DoConnect? && Good(w) && Plausible(w, c)
    ensures Good(Do(w, c))
  {
    var w' := Do(w, c);
    if w' != w {
      forall other | KeyGroup(GroupOf(c.slot.provider)) && Rivals(c.slot, other)
        ensures !LiveIn(w.rows, other)
      {
        assert LiveIn(w.rows, other) ==>
          LiveMember(w.rows, c.slot.tenant, GroupOf(c.slot.provider).value, other.provider);
        if c.found.Some? { assert LiveIn(w.rows, c.slot); }
      }
      PutKeepsGood(w, w', c.slot, w'.rows[c.slot]);
    }
  }

  lemma FailKeepsGood(w: World, w0: World, slot: Slot, provider: Provider, why: Failure)
    requires Good(w) && slot in w.rows && w.rows[slot].oauthState.Some? && IsOAuth(slot.provider)
    requires w0 == w || w0 == w.(exchanges := w.exchanges + [w.rows[slot].oauthState.value])
    ensures Good(Fail(w0, slot, provider, why))
  {
    var w' := Fail(w0, slot, provider, why);
    PutKeepsGood(w, w', slot, w'.rows[slot]);
  }

  /** A callback finds a row of one of the two OAuth providers. */
  lemma FoundRow(w: World, state: Option<string>)
    requires Good(w) && FindByState(w.rows, state).Some?
    ensures var slot := FindByState(w.rows, state).value;
      Truthy(state) && slot in w.rows && w.rows[slot].oauthState == state && IsOAuth(slot.provider)
  {
  }

  lemma ShopifyCallbackKeepsGood(w: World, c: Call)
    requires c.DoShopifyCallback? && Good(w)
    ensures Good(Do(w, c))
  {
    var w', pending := Do(w, c), FindByState(w.rows, c.q.state);
    if pending.Some? && c.shopify.hmacOk {
      var slot := pending.value;
      FoundRow(w, c.q.state);
      var exchanged := w.(exchanges := w.exchanges + [c.q.state.value]);
      if !Truthy(c.q.shop) || !Truthy(c.q.code) || Expired(w.rows[slot], c.now) {
        if w' != w { RemoveKeepsGood(w, w', slot); }
      } else if w.rows[slot].config.shop != c.q.shop {
        FailKeepsGood(w, w, slot, SHOPIFY, ShopMismatch);
      } else if ShopTakenByOther(w.rows, slot, c.q.shop) {
        FailKeepsGood(w, w, slot, SHOPIFY, ShopTaken);
      } else if c.shopify.token.None? {
        FailKeepsGood(w, exchanged, slot, SHOPIFY, ExchangeFailed);
      } else {
        PutKeepsGood(w, w', slot, w'.rows[slot]);
      }
    }
  }

  lemma ZohoCallbackKeepsGood(w: World, c: Call)
    requires c.DoZohoCallback? && Good(w) && !Crossed(w, c)
    ensures Good(Do(w, c))
  {
    var w', pending := Do(w, c), FindByState(w.rows, c.q.state);
    if pending.Some? {
      var slot := pending.value;
      FoundRow(w, c.q.state);
      var exchanged := w.(exchanges := w.exchanges + [c.q.state.value]);
      if !Truthy(c.q.code) || Expired(w.rows[slot], c.now) {
        if w' != w { RemoveKeepsGood(w, w', slot); }
      } else if c.zoho.secret.None? {
        FailKeepsGood(w, exchanged, slot, ZOHO_INVENTORY, ExchangeFailed);
      } else if !Truthy(c.zoho.organizationId) {
        FailKeepsGood(w, exchanged, slot, ZOHO_INVENTORY, NoOrganization);
      } else {
        PutKeepsGood(w, w', slot, w'.rows[slot]);
      }
    }
  }

  /** A crossed callback leaves an ACTIVE Shopify row without shop or webhook. */
  lemma CrossedBreaksGood(w: World, c: Call)
    requires Good(w) && Crossed(w, c)
    ensures var slot, w' := FindByState(w.rows, c.q.state).value, Do(w, c);
      && slot in w'.rows && slot.provider.SHOPIFY? && w'.rows[slot].status.ACTIVE?
      && w'.rows[slot].config.orderWebhookId.None? && !Good(w')
  {
    var slot := FindByState(w.rows, c.q.state).value;
    FoundRow(w, c.q.state);
    assert !RowGood(slot, Do(w, c).rows[slot]);
  }

  /** Each call keeps the invariant, except exactly a crossed callback. */
  lemma CallKeepsGoodUnlessCrossed(w: World, c: Call)
    requires Good(w) && Plausible(w, c)
    ensures Good(Do(w, c)) <==> !Crossed(w, c)
  {
    if Crossed(w, c) { CrossedBreaksGood(w, c); } else { CallKeepsGood(w, c); }
  }

  lemma CallKeepsGood(w: World, c: Call)
    requires Good(w) && Legal(w, c)
    ensures Good(Do(w, c))
  {
    var w' := Do(w, c);
    match c
    case DoConnect(_, _, _, _, _, _) => ConnectKeepsGood(w, c);
    case DoShopifyCallback(_, _, _) => ShopifyCallbackKeepsGood(w, c);
    case DoZohoCallback(_, _, _) => ZohoCallbackKeepsGood(w, c);
    case DoTest(slot, _, _) =>
      if w' != w { PutKeepsGood(w, w', slot, w'.rows[slot]); }
    case DoDisconnect(slot, _) =>
      if w' != w { RemoveKeepsGood(w, w', slot); }
    case DoUpdateCredential(slot, _) =>
      if w' != w { PutKeepsGood(w, w', slot, w'.rows[slot]); }
  }

  // ----- Runs -------------------------------------------------------------

  ghost predicate ValidRun(w: World, calls: seq<Call>)
    decreases calls
  {
    calls == [] || (Legal(w, calls[0]) && ValidRun(Do(w, calls[0]), calls[1..]))
  }

  ghost function Run(w: World, calls: seq<Call>): World
    decreases calls
  {
    if calls == [] then w else Run(Do(w, calls[0]), calls[1..])
  }

  lemma {:induction false} RunKeepsGood(w: World, calls: seq<Call>)
    requires Good(w) && ValidRun(w, calls)
    ensures Good(Run(w, calls))
    decreases calls
  {
    if calls != [] {
      CallKeepsGood(w, calls[0]);
      RunKeepsGood(Do(w, calls[0]), calls[1..]);
    }
  }

  lemma {:induction false} RunMore(w: World, calls: seq<Call>, c: Call)
    requires ValidRun(w, calls) && Legal(Run(w, calls), c)
    ensures ValidRun(w, calls + [c]) && Run(w, calls + [c]) == Do(Run(w, calls), c)
    decreases calls
  {
    if calls == [] {
      assert calls + [c] == [c];
    } else {
      RunMore(Do(w, calls[0]), calls[1..], c);
      assert (calls + [c])[1..] == calls[1..] + [c];
    }
  }

  /** A connect to Shopify, and its token taken to the inventory callback. */
  lemma CallbacksCanCross() returns (calls: seq<Call>, c: Call)
    ensures ValidRun(EMPTY_WORLD, calls) && Plausible(Run(EMPTY_WORLD, calls), c) && Crossed(Run(EMPTY_WORLD, calls), c)
  {
    var slot := Slot("t", SHOPIFY);
    var connect := DoConnect(slot, "u", ConnectBody("s", Some("shop"), None, false), None, true, 0);
    RunMore(EMPTY_WORLD, [], connect);
    calls := [] + [connect];
    c := DoZohoCallback(Query(Some("s"), None, Some("code")), ZohoReplies(Some("z"), Some("org")), 0);
    assert HasState(Run(EMPTY_WORLD, calls).rows, slot, "s");
    assert FindByState(Run(EMPTY_WORLD, calls).rows, Some("s")) == Some(slot);
  }

  /** In every reachable state: an ACTIVE Shopify row has its order webhook, a
      live row has a credential, CONNECTING means a live token, a token on any
      other row means a credential and a live status, and ERROR has no token. */
  lemma ReachableRows(calls: seq<Call>, slot: Slot)
    requires ValidRun(EMPTY_WORLD, calls) && slot in Run(EMPTY_WORLD, calls).rows
    ensures var row := Run(EMPTY_WORLD, calls).rows[slot];
      && (slot.provider.SHOPIFY? && row.status.ACTIVE? ==> Truthy(row.config.orderWebhookId))
      && (Live(row.status) ==> row.credential.Some?)
      && (row.status.CONNECTING? ==> row.oauthState.Some? && row.expiresAt.Some?)
      && (row.oauthState.Some? && !row.status.CONNECTING? ==> row.credential.Some? && Live(row.status))
      && (row.status.ERROR? ==> row.oauthState.None?)
  {
    RunKeepsGood(EMPTY_WORLD, calls);
  }

  lemma ShopifyCallbackKeepsTokens(w: World, c: Call)
    requires TokensGood(w) && c.DoShopifyCallback?
    ensures TokensGood(Do(w, c))
  {
    var w', pending := Do(w, c), FindByState(w.rows, c.q.state);
    if pending.Some? && pending.value in w'.rows && w' != w {
      PutKeepsTokens(w, w', pending.value, w'.rows[pending.value]);
    }
  }

  lemma ZohoCallbackKeepsTokens(w: World, c: Call)
    requires TokensGood(w) && c.DoZohoCallback?
    ensures TokensGood(Do(w, c))
  {
    var w', pending := Do(w, c), FindByState(w.rows, c.q.state);
    if pending.Some? && pending.value in w'.rows && w' != w {
      PutKeepsTokens(w, w', pending.value, w'.rows[pending.value]);
    }
  }

  lemma CallKeepsTokens(w: World, c: Call)
    requires TokensGood(w) && Plausible(w, c)
    ensures TokensGood(Do(w, c))
  {
    var w' := Do(w, c);
    if c.DoShopifyCallback? {
      ShopifyCallbackKeepsTokens(w, c);
    } else if c.DoZohoCallback? {
      ZohoCallbackKeepsTokens(w, c);
    } else if w' != w && !c.DoDisconnect? {
      PutKeepsTokens(w, w', c.slot, w'.rows[c.slot]);
    }
  }

  ghost predicate PlausibleRun(w: World, calls: seq<Call>)
    decreases calls
  {
    calls == [] || (Plausible(w, calls[0]) && PlausibleRun(Do(w, calls[0]), calls[1..]))
  }

  lemma {:induction false} RunKeepsTokens(w: World, calls: seq<Call>)
    requires TokensGood(w) && PlausibleRun(w, calls)
    ensures TokensGood(Run(w, calls))
    decreases calls
  {
    if calls != [] {
      CallKeepsTokens(w, calls[0]);
      RunKeepsTokens(Do(w, calls[0]), calls[1..]);
    }
  }

  /** A state token is single use: over any run, crossed callbacks included, no
      token is exchanged twice, and an exchanged token is on no row. */
  lemma TokensAreSingleUse(calls: seq<Call>)
    requires PlausibleRun(EMPTY_WORLD, calls)
    ensures var w := Run(EMPTY_WORLD, calls);
      && NoRepeats(w.exchanges)
      && (forall t :: t in w.exchanges ==> t in w.minted)
      && (forall slot :: slot in w.rows && w.rows[slot].oauthState.Some? ==>
            w.rows[slot].oauthState.value !in w.exchanges)
  {
    var w := Run(EMPTY_WORLD, calls);
    RunKeepsTokens(EMPTY_WORLD, calls);
    forall slot | slot in w.rows && w.rows[slot].oauthState.Some?
      ensures w.rows[slot].oauthState.value !in w.exchanges
    {
      assert TokenGood(w, slot, w.rows[slot].oauthState);
    }
  }

  /** A mailer, alert or shipping lookup has at most one possible answer. */
  lemma GroupLookupIsUnique(calls: seq<Call>, tenant: string, g: Group, p: Option<Provider>, p': Option<Provider>)
    requires ValidRun(EMPTY_WORLD, calls) && !g.INVENTORY?
    requires FirstLive(Run(EMPTY_WORLD, calls).rows, tenant, g, p)
    requires FirstLive(Run(EMPTY_WORLD, calls).rows, tenant, g, p')
    ensures p == p'
  {
    RunKeepsGood(EMPTY_WORLD, calls);
    var rows := Run(EMPTY_WORLD, calls).rows;
    if p.Some? && p'.Some? && p != p' {
      assert Rivals(Slot(tenant, p.value), Slot(tenant, p'.value));
      assert LiveIn(rows, Slot(tenant, p.value)) && LiveIn(rows, Slot(tenant, p'.value));
    }
  }

  // ----- Credentials and stranded rows ------------------------------------

  predicate HasCredential(w: World, slot: Slot) { Connectable(w.rows, slot) }

  /** Only `disconnect` of that very slot makes a credential disappear. */
  lemma CredentialsOnlyLeaveByDisconnect(w: World, c: Call, slot: Slot)
    requires HasCredential(w, slot)
    ensures HasCredential(Do(w, c), slot) <==> !(c.DoDisconnect? && c.slot == slot)
  {
  }

  /** Over any run: a credential that is gone at the end was disconnected on the way. */
  lemma {:induction false} LostCredentialsWereDisconnected(w: World, calls: seq<Call>, slot: Slot)
    requires HasCredential(w, slot) && !HasCredential(Run(w, calls), slot)
    ensures exists i :: 0 <= i < |calls| && calls[i].DoDisconnect? && calls[i].slot == slot
    decreases calls
  {
    CredentialsOnlyLeaveByDisconnect(w, calls[0], slot);
    if HasCredential(Do(w, calls[0]), slot) {
      LostCredentialsWereDisconnected(Do(w, calls[0]), calls[1..], slot);
      var i :| 0 <= i < |calls[1..]| && calls[1..][i].DoDisconnect? && calls[1..][i].slot == slot;
      assert calls[i + 1] == calls[1..][i];
    }
  }

  /** A callback that cannot go on: no code (for Shopify also no shop), or too late. */
  ghost predicate CannotGoOn(w: World, c: Call, slot: Slot)
    requires slot in w.rows
  {
    match c
    case DoShopifyCallback(q, replies, now) =>
      replies.hmacOk && FindByState(w.rows, q.state) == Some(slot)
      && (!Truthy(q.shop) || !Truthy(q.code) || Expired(w.rows[slot], now))
    case DoZohoCallback(q, _, now) =>
      FindByState(w.rows, q.state) == Some(slot) && (!Truthy(q.code) || Expired(w.rows[slot], now))
    case _ => false
  }

  /** A row goes away exactly when it is disconnected, or its callback cannot go
      on while it is CONNECTING without a credential. */
  lemma RowsRemoved(w: World, c: Call, slot: Slot)
    requires Good(w) && slot in w.rows
    ensures slot !in Do(w, c).rows <==>
      || (c.DoDisconnect? && c.slot == slot)
      || (CannotGoOn(w, c, slot) && w.rows[slot].status.CONNECTING? && w.rows[slot].credential.None?)
  {
    if c.DoShopifyCallback? && FindByState(w.rows, c.q.state).Some? {
      FoundRow(w, c.q.state);
    } else if c.DoZohoCallback? && FindByState(w.rows, c.q.state).Some? {
      FoundRow(w, c.q.state);
    }
  }
}
