/** Two uniqueness rules the service keeps only up to a condition: one ACTIVE
    Shopify row per shop, and one live inventory provider per tenant. */
module IntegrationUniqueness {
  import opened Prelude
  import opened IntegrationModel
  import opened IntegrationLifecycle

  // ----- One ACTIVE Shopify row per shop ------------------------------------

  ghost predicate OneActivePerShop(rows: Table) {
    forall a, b :: a in rows && HoldsShop(rows, a, rows[a].config.shop) && HoldsShop(rows, b, rows[a].config.shop) ==> a == b
  }

  /** A passed test of a row that was not ACTIVE: it does not look for another
      holder of the shop, as the callback does. */
  ghost predicate PromotesIntoCollision(w: World, c: Call) {
    && c.DoTest? && c.slot.provider.SHOPIFY? && Connectable(w.rows, c.slot)
    && c.health.Answers? && TestPasses(SHOPIFY, w.rows[c.slot].config, c.health)
    && !w.rows[c.slot].status.ACTIVE?
    && ShopTakenByOther(w.rows, c.slot, w.rows[c.slot].config.shop)
  }

  /** `w'` differs from `w` in one slot, which if it is now an ACTIVE Shopify row
      either was one for the same shop or meets no other holder of its shop. */
  lemma PutKeepsOneActive(rows: Table, slot: Slot, row: Row)
    requires OneActivePerShop(rows)
    requires HoldsShop(rows[slot := row], slot, row.config.shop) ==>
      HoldsShop(rows, slot, row.config.shop) || !ShopTakenByOther(rows, slot, row.config.shop)
    ensures OneActivePerShop(rows[slot := row])
  {
    var rows' := rows[slot := row];
    forall a, b | a in rows' && HoldsShop(rows', a, rows'[a].config.shop) && HoldsShop(rows', b, rows'[a].config.shop)
      ensures a == b
    {
      if a != slot && b != slot {
        assert HoldsShop(rows, a, rows[a].config.shop) && HoldsShop(rows, b, rows[a].config.shop);
      } else if a != b {
        var other := if a == slot then b else a;
        assert HoldsShop(rows, other, row.config.shop);
      }
    }
  }

  lemma CallbackKeepsOneActive(w: World, c: Call)
    requires c.DoShopifyCallback? && Good(w) && Legal(w, c) && OneActivePerShop(w.rows)
    ensures OneActivePerShop(Do(w, c).rows)
  {
    var w', pending := Do(w, c), FindByState(w.rows, c.q.state);
    if pending.Some? && w'.rows != w.rows {
      var slot := pending.value;
      FoundRow(w, c.q.state);
      if slot in w'.rows {
        assert w'.rows == w.rows[slot := w'.rows[slot]];
        PutKeepsOneActive(w.rows, slot, w'.rows[slot]);
      } else {
        RemoveKeepsOneActive(w.rows, slot);
      }
    }
  }

  lemma RemoveKeepsOneActive(rows: Table, slot: Slot)
    requires OneActivePerShop(rows)
    ensures OneActivePerShop(rows - {slot})
  {
    var rows' := rows - {slot};
    forall a, b | a in rows' && HoldsShop(rows', a, rows'[a].config.shop) && HoldsShop(rows', b, rows'[a].config.shop)
      ensures a == b
    {
      assert HoldsShop(rows, a, rows[a].config.shop) && HoldsShop(rows, b, rows[a].config.shop);
    }
  }

  lemma ZohoKeepsOneActive(w: World, c: Call)
    requires c.DoZohoCallback? && Good(w) && Legal(w, c) && OneActivePerShop(w.rows)
    ensures OneActivePerShop(Do(w, c).rows)
  {
    var w', pending := Do(w, c), FindByState(w.rows, c.q.state);
    if pending.Some? && w'.rows != w.rows {
      var slot := pending.value;
      FoundRow(w, c.q.state);
      if slot in w'.rows {
        assert w'.rows == w.rows[slot := w'.rows[slot]];
        PutKeepsOneActive(w.rows, slot, w'.rows[slot]);
      } else {
        RemoveKeepsOneActive(w.rows, slot);
      }
    }
  }

  lemma TestAndOneActive(w: World, c: Call)
    requires c.DoTest? && Good(w) && OneActivePerShop(w.rows)
    ensures OneActivePerShop(Do(w, c).rows) <==> !PromotesIntoCollision(w, c)
  {
    var w' := Do(w, c);
    if PromotesIntoCollision(w, c) {
      var shop := w.rows[c.slot].config.shop;
      var other :| other != c.slot && HoldsShop(w.rows, other, shop);
      assert HoldsShop(w'.rows, other, shop) && HoldsShop(w'.rows, c.slot, shop);
      assert w'.rows[other].config.shop == shop;
    } else if w' != w {
      PutKeepsOneActive(w.rows, c.slot, w'.rows[c.slot]);
    }
  }

  /** Every call keeps at most one ACTIVE row per shop, except exactly a test
      that promotes a non-ACTIVE row while another tenant's row holds the shop. */
  lemma OneActivePerShopUnlessPromoted(w: World, c: Call)
    requires Good(w) && Legal(w, c) && OneActivePerShop(w.rows)
    ensures OneActivePerShop(Do(w, c).rows) <==> !PromotesIntoCollision(w, c)
  {
    var w' := Do(w, c);
    match c
    case DoConnect(slot, _, _, _, _, _) =>
      if w' != w { PutKeepsOneActive(w.rows, slot, w'.rows[slot]); }
    case DoShopifyCallback(_, _, _) => CallbackKeepsOneActive(w, c);
    case DoZohoCallback(_, _, _) => ZohoKeepsOneActive(w, c);
    case DoTest(_, _, _) => TestAndOneActive(w, c);
    case DoDisconnect(slot, _) => if w' != w { RemoveKeepsOneActive(w.rows, slot); }
    case DoUpdateCredential(slot, _) =>
      if w' != w { PutKeepsOneActive(w.rows, slot, w'.rows[slot]); }
  }

  /** Some call of the run promotes a row into a collision. */
  ghost predicate Promotes(w: World, calls: seq<Call>)
    decreases calls
  {
    calls != [] && (PromotesIntoCollision(w, calls[0]) || Promotes(Do(w, calls[0]), calls[1..]))
  }

  /** Two ACTIVE rows for one shop are always the work of such a promotion. */
  lemma {:induction false} RunKeepsOneActive(w: World, calls: seq<Call>)
    requires Good(w) && ValidRun(w, calls) && OneActivePerShop(w.rows) && !Promotes(w, calls)
    ensures OneActivePerShop(Run(w, calls).rows)
    decreases calls
  {
    if calls != [] {
      OneActivePerShopUnlessPromoted(w, calls[0]);
      CallKeepsGood(w, calls[0]);
      RunKeepsOneActive(Do(w, calls[0]), calls[1..]);
    }
  }

  // ----- One live inventory provider per tenant -----------------------------

  ghost predicate OneLiveInventory(rows: Table) {
    forall t :: !(LiveIn(rows, Slot(t, ZOHO_INVENTORY)) && LiveIn(rows, Slot(t, ODOO)))
  }

  /** Zoho becomes live while Odoo is: by a completed callback, or by any test
      that reaches Zoho, for a failed one still sets DEGRADED. Neither repeats
      the group check of `connect`. */
  ghost predicate JoinsLiveOdoo(w: World, c: Call) {
    match c
    case DoZohoCallback(q, replies, now) =>
      var pending := FindByState(w.rows, q.state);
      && pending.Some? && Truthy(q.code) && !Expired(w.rows[pending.value], now)
      && replies.secret.Some? && Truthy(replies.organizationId)
      && LiveIn(w.rows, Slot(pending.value.tenant, ODOO))
    case DoTest(slot, health, _) =>
      && slot.provider.ZOHO_INVENTORY? && Connectable(w.rows, slot) && health.Answers?
      && LiveIn(w.rows, Slot(slot.tenant, ODOO))
    case _ => false
  }

  lemma PutAndInventory(rows: Table, slot: Slot, row: Row)
    requires OneLiveInventory(rows)
    requires Live(row.status) && slot.provider.ZOHO_INVENTORY? ==> !LiveIn(rows, Slot(slot.tenant, ODOO))
    requires Live(row.status) && slot.provider.ODOO? && !LiveIn(rows, slot) ==>
      !LiveIn(rows, Slot(slot.tenant, ZOHO_INVENTORY))
    ensures OneLiveInventory(rows[slot := row])
  {
  }

  lemma RemoveKeepsInventory(rows: Table, slot: Slot)
    requires OneLiveInventory(rows)
    ensures OneLiveInventory(rows - {slot})
  {
  }

  lemma BothLive(rows: Table, t: string)
    requires LiveIn(rows, Slot(t, ZOHO_INVENTORY)) && LiveIn(rows, Slot(t, ODOO))
    ensures !OneLiveInventory(rows)
  {
  }

  lemma ConnectKeepsInventory(w: World, c: Call)
    requires c.DoConnect? && Good(w) && Legal(w, c) && OneLiveInventory(w.rows)
    ensures OneLiveInventory(Do(w, c).rows)
  {
    var w', slot := Do(w, c), c.slot;
    if w' != w {
      assert LiveIn(w.rows, Slot(slot.tenant, ZOHO_INVENTORY)) ==> LiveMember(w.rows, slot.tenant, INVENTORY, ZOHO_INVENTORY);
      PutAndInventory(w.rows, slot, w'.rows[slot]);
    }
  }

  lemma ZohoCallbackAndInventory(w: World, c: Call)
    requires c.DoZohoCallback? && Good(w) && Legal(w, c) && OneLiveInventory(w.rows)
    ensures OneLiveInventory(Do(w, c).rows) <==> !JoinsLiveOdoo(w, c)
  {
  }

  lemma ShopifyKeepsInventory(w: World, c: Call)
    requires c.DoShopifyCallback? && Good(w) && Legal(w, c) && OneLiveInventory(w.rows)
    ensures OneLiveInventory(Do(w, c).rows)
  {
    var w', pending := Do(w, c), FindByState(w.rows, c.q.state);
    if pending.Some? && w'.rows != w.rows {
      var slot := pending.value;
      FoundRow(w, c.q.state);
      if slot in w'.rows {
        assert w'.rows == w.rows[slot := w'.rows[slot]];
        PutAndInventory(w.rows, slot, w'.rows[slot]);
      } else {
        RemoveKeepsInventory(w.rows, slot);
      }
    }
  }

  /** One live inventory provider per tenant is kept by every call but exactly
      those that make Zoho live beside a live Odoo. */
  lemma OneLiveInventoryUnlessJoined(w: World, c: Call)
    requires Good(w) && Legal(w, c) && OneLiveInventory(w.rows)
    ensures OneLiveInventory(Do(w, c).rows) <==> !JoinsLiveOdoo(w, c)
  {
    var w' := Do(w, c);
    match c
    case DoConnect(_, _, _, _, _, _) => ConnectKeepsInventory(w, c);
    case DoShopifyCallback(_, _, _) => ShopifyKeepsInventory(w, c);
    case DoZohoCallback(_, _, _) => ZohoCallbackAndInventory(w, c);
    case DoTest(slot, _, _) =>
      if JoinsLiveOdoo(w, c) {
        assert LiveIn(w'.rows, slot) && LiveIn(w'.rows, Slot(slot.tenant, ODOO));
        BothLive(w'.rows, slot.tenant);
      } else if w' != w {
        PutAndInventory(w.rows, slot, w'.rows[slot]);
      }
    case DoDisconnect(slot, _) => if w' != w { RemoveKeepsInventory(w.rows, slot); }
    case DoUpdateCredential(slot, _) =>
      if w' != w { PutAndInventory(w.rows, slot, w'.rows[slot]); }
  }

  /** Some call of the run makes Zoho live beside a live Odoo. */
  ghost predicate Joins(w: World, calls: seq<Call>)
    decreases calls
  {
    calls != [] && (JoinsLiveOdoo(w, calls[0]) || Joins(Do(w, calls[0]), calls[1..]))
  }

  lemma {:induction false} RunKeepsOneLiveInventory(w: World, calls: seq<Call>)
    requires Good(w) && ValidRun(w, calls) && OneLiveInventory(w.rows) && !Joins(w, calls)
    ensures OneLiveInventory(Run(w, calls).rows)
    decreases calls
  {
    if calls != [] {
      OneLiveInventoryUnlessJoined(w, calls[0]);
      CallKeepsGood(w, calls[0]);
      RunKeepsOneLiveInventory(Do(w, calls[0]), calls[1..]);
    }
  }

  // ----- Both exceptions are reachable --------------------------------------

  const ZOHO_PENDING := DoConnect(Slot("t", ZOHO_INVENTORY), "u", ConnectBody("s", None, None, false), None, true, 0)
  const ODOO_CONNECTS := DoConnect(Slot("t", ODOO), "u", ConnectBody("x", None, Some(ApiKey("k", None)), true), None, true, 1)
  const ZOHO_RETURNS := DoZohoCallback(Query(Some("s"), None, Some("code")), ZohoReplies(Some("z"), Some("org")), 2)

  lemma OdooBesidePendingZoho()
    ensures ValidRun(EMPTY_WORLD, [ZOHO_PENDING, ODOO_CONNECTS])
    ensures var w := Run(EMPTY_WORLD, [ZOHO_PENDING, ODOO_CONNECTS]);
      && w.rows.Keys == {Slot("t", ZOHO_INVENTORY), Slot("t", ODOO)}
      && w.rows[Slot("t", ODOO)].status.ACTIVE? && w.rows[Slot("t", ODOO)].oauthState.None?
      && w.rows[Slot("t", ZOHO_INVENTORY)].oauthState == Some("s")
      && w.rows[Slot("t", ZOHO_INVENTORY)].expiresAt == Some(OAUTH_STATE_TTL_MS)
      && "s" in w.minted && w.minted["s"].ZOHO_INVENTORY?
  {
    RunMore(EMPTY_WORLD, [], ZOHO_PENDING);
    assert [] + [ZOHO_PENDING] == [ZOHO_PENDING];
    RunMore(EMPTY_WORLD, [ZOHO_PENDING], ODOO_CONNECTS);
    assert [ZOHO_PENDING] + [ODOO_CONNECTS] == [ZOHO_PENDING, ODOO_CONNECTS];
  }

  /** Zoho's consent is pending, Odoo connects, then Zoho's callback arrives. */
  lemma InventoryCanBreak() returns (calls: seq<Call>)
    ensures ValidRun(EMPTY_WORLD, calls) && !OneLiveInventory(Run(EMPTY_WORLD, calls).rows)
  {
    var before := [ZOHO_PENDING, ODOO_CONNECTS];
    OdooBesidePendingZoho();
    var w := Run(EMPTY_WORLD, before);
    assert HasState(w.rows, Slot("t", ZOHO_INVENTORY), "s");
    assert FindByState(w.rows, Some("s")) == Some(Slot("t", ZOHO_INVENTORY));
    RunMore(EMPTY_WORLD, before, ZOHO_RETURNS);
    calls := before + [ZOHO_RETURNS];
    BothLive(Run(EMPTY_WORLD, calls).rows, "t");
  }

  function Connecting(tenant: string, state: string): Call {
    DoConnect(Slot(tenant, SHOPIFY), "u", ConnectBody(state, Some("shop"), None, false), None, true, 0)
  }

  function Consented(state: string): Call {
    DoShopifyCallback(Query(Some(state), Some("shop"), Some("code")),
                      ShopifyReplies(true, Some("token"), Some("hook"), None), 0)
  }

  const CONNECTED_SHOP := Row(ACTIVE, Config(Some("shop"), Some("hook"), None, None, None), None, None, None, Some(0), Some("token"))

  /** A new tenant connects the shop while nobody else holds it. */
  lemma ConnectAndConsent(w: World, tenant: string, state: string)
    requires Good(w) && state != "" && state !in w.minted && Slot(tenant, SHOPIFY) !in w.rows
    requires !ShopTakenByOther(w.rows, Slot(tenant, SHOPIFY), Some("shop"))
    ensures var w1 := Do(w, Connecting(tenant, state));
      var w2 := Do(w1, Consented(state));
      && Legal(w, Connecting(tenant, state)) && Legal(w1, Consented(state))
      && w2.rows == w.rows[Slot(tenant, SHOPIFY) := CONNECTED_SHOP]
      && w2.minted == w.minted[state := SHOPIFY]
  {
    var slot := Slot(tenant, SHOPIFY);
    var w1 := Do(w, Connecting(tenant, state));
    ConnectKeepsGood(w, Connecting(tenant, state));
    assert HasState(w1.rows, slot, state) && FindByState(w1.rows, Some(state)) == Some(slot);
    forall other | other != slot
      ensures !HoldsShop(w1.rows, other, Some("shop"))
    {
      assert !HoldsShop(w.rows, other, Some("shop"));
    }
  }

  /** The same, at the end of a run. */
  lemma TenantConnects(calls: seq<Call>, tenant: string, state: string) returns (more: seq<Call>)
    requires ValidRun(EMPTY_WORLD, calls)
    requires var w := Run(EMPTY_WORLD, calls);
      && state != "" && state !in w.minted && Slot(tenant, SHOPIFY) !in w.rows
      && !ShopTakenByOther(w.rows, Slot(tenant, SHOPIFY), Some("shop"))
    ensures ValidRun(EMPTY_WORLD, more)
    ensures var w, w' := Run(EMPTY_WORLD, calls), Run(EMPTY_WORLD, more);
      && w'.rows == w.rows[Slot(tenant, SHOPIFY) := CONNECTED_SHOP]
      && w'.minted == w.minted[state := SHOPIFY]
  {
    RunKeepsGood(EMPTY_WORLD, calls);
    ConnectAndConsent(Run(EMPTY_WORLD, calls), tenant, state);
    RunMore(EMPTY_WORLD, calls, Connecting(tenant, state));
    RunMore(EMPTY_WORLD, calls + [Connecting(tenant, state)], Consented(state));
    more := calls + [Connecting(tenant, state)] + [Consented(state)];
  }

  function Tested(healthy: bool): Call {
    DoTest(Slot("a", SHOPIFY), Answers(healthy, true, true, "down"), 0)
  }

  lemma DegradedHolder() returns (calls: seq<Call>)
    ensures ValidRun(EMPTY_WORLD, calls)
    ensures var w := Run(EMPTY_WORLD, calls);
      && w.rows.Keys == {Slot("a", SHOPIFY)} && w.minted == map["sa" := SHOPIFY]
      && w.rows[Slot("a", SHOPIFY)].status.DEGRADED?
      && w.rows[Slot("a", SHOPIFY)].config == CONNECTED_SHOP.config
      && w.rows[Slot("a", SHOPIFY)].credential.Some?
  {
    calls := TenantConnects([], "a", "sa");
    RunMore(EMPTY_WORLD, calls, Tested(false));
    calls := calls + [Tested(false)];
  }

  /** Tenant A goes DEGRADED on a failed test, tenant B connects the same shop,
      then A's next test passes. */
  lemma ShopCanBreak() returns (calls: seq<Call>)
    ensures ValidRun(EMPTY_WORLD, calls) && !OneActivePerShop(Run(EMPTY_WORLD, calls).rows)
  {
    var a, b, shop := Slot("a", SHOPIFY), Slot("b", SHOPIFY), Some("shop");
    calls := DegradedHolder();
    calls := TenantConnects(calls, "b", "sb");
    assert HoldsShop(Run(EMPTY_WORLD, calls).rows, b, shop);
    RunMore(EMPTY_WORLD, calls, Tested(true));
    calls := calls + [Tested(true)];
    var rows := Run(EMPTY_WORLD, calls).rows;
    assert HoldsShop(rows, a, shop) && HoldsShop(rows, b, shop) && rows[a].config.shop == shop;
  }
}
