/** The integrations service: its calls as they are written, against the tables
    they update, each proved equal to its function in `IntegrationModel`. */
module IntegrationsService {
  import opened Prelude
  import opened IntegrationModel

  datatype ConnectResult = Authorize(state: string) | NowActive | NotSupported | Conflict | BadInput

  class Service {
    var rows: Table
    var notices: seq<Notice>
    var audits: seq<Audit>
    ghost var minted: map<string, Provider>
    ghost var exchanges: seq<string>

    ghost function World(): World
      reads this
    {
      IntegrationModel.World(rows, notices, audits, minted, exchanges)
    }

    /** The unique constraint on `oauthState`. */
    ghost predicate Valid()
      reads this
    {
      UniqueStates(rows)
    }

    constructor ()
      ensures Valid() && World() == EMPTY_WORLD
    {
      rows, notices, audits := map[], [], [];
      minted, exchanges := map[], [];
    }

    method InitConnect(slot: Slot, user: string, body: ConnectBody, configured: bool, now: nat)
      returns (r: ConnectResult, ghost found: Option<Provider>)
      requires Valid()
      requires forall s :: !HasState(rows, s, body.state)
      modifies this
      ensures Valid()
      ensures World() == Connect(old(World()), slot, user, body, found, configured, now)
      ensures GroupOf(slot.provider).Some? && !r.NotSupported? ==>
        FirstLive(old(rows), slot.tenant, GroupOf(slot.provider).value, found)
      ensures r.Conflict? <==> Conflicts(slot, found) && !r.NotSupported?
      ensures r.Authorize? ==> HasState(rows, slot, r.state) && r.state == body.state
      ensures r.NowActive? ==> slot in rows && rows[slot].status.ACTIVE? && rows[slot].credential.Some?
      ensures r.NotSupported? || r.Conflict? || r.BadInput? ==> World() == old(World())
    {
      found := None;
      if slot.provider.OPENAI? || (IsOAuth(slot.provider) && !configured) { return NotSupported, found; }
      if GroupOf(slot.provider).Some? {
        var existing := FindFirstLive(slot.tenant, GroupOf(slot.provider).value);
        found := existing;
        if existing.Some? && existing.value != slot.provider { return Conflict, found; }
      }
      if IsOAuth(slot.provider) {
        if slot.provider.SHOPIFY? && body.shop.None? { return BadInput, found; }
        UpsertConnecting(slot, body.state, if slot.provider.SHOPIFY? then body.shop else None, now);
        return Authorize(body.state), found;
      }
      if body.apiKey.None? || !body.keyAccepted { return BadInput, found; }
      UpsertActive(slot, user, body.apiKey.value);
      r := NowActive;
    }

    /** The OAuth branch of connect: the row waits for its callback. */
    method UpsertConnecting(slot: Slot, state: string, shop: Option<string>, now: nat)
      requires Valid()
      requires forall s :: !HasState(rows, s, state)
      modifies this
      ensures Valid() && World() == ConnectOAuth(old(World()), slot, state, shop, now)
    {
      var config := EMPTY_CONFIG.(shop := shop);
      var expiresAt := Some(now + OAUTH_STATE_TTL_MS);
      if slot in rows {
        rows := rows[slot := rows[slot].(status := CONNECTING, oauthState := Some(state),
                                         expiresAt := expiresAt, config := config, lastError := None)];
      } else {
        rows := rows[slot := Row(CONNECTING, config, Some(state), expiresAt, None, None, None)];
      }
      minted := minted[state := slot.provider];
      assert forall s :: s in old(rows) ==> !HasState(old(rows), s, state);
    }

    /** The API-key branch, one transaction: the row, then its credential. */
    method UpsertActive(slot: Slot, user: string, key: ApiKey)
      requires Valid()
      modifies this
      ensures Valid() && World() == ConnectApiKey(old(World()), slot, user, key)
    {
      if slot in rows {
        var row := rows[slot].(status := ACTIVE, lastError := None);
        if KeepsFromAddress(slot.provider) { row := row.(config := EMPTY_CONFIG.(fromAddress := key.fromAddress)); }
        rows := rows[slot := row];
      } else {
        var config := if KeepsFromAddress(slot.provider) then EMPTY_CONFIG.(fromAddress := key.fromAddress) else EMPTY_CONFIG;
        rows := rows[slot := Row(ACTIVE, config, None, None, None, None, None)];
      }
      rows := rows[slot := rows[slot].(credential := Some(key.secret))];
      audits := audits + [Audit(slot, Some(user), Connected)];
    }

    method FindFirstLive(tenant: string, g: Group) returns (found: Option<Provider>)
      ensures FirstLive(rows, tenant, g, found)
    {
      if slot :| slot in rows && slot.tenant == tenant && GroupOf(slot.provider) == Some(g) && Live(rows[slot].status) {
        return Some(slot.provider);
      }
      found := None;
    }

    method FindUniqueByState(state: Option<string>) returns (found: Option<Slot>)
      requires Valid()
      ensures found == FindByState(rows, state)
    {
      if state.None? || state.value == "" { return None; }
      if slot :| slot in rows && rows[slot].oauthState == state {
        assert HasState(rows, slot, state.value);
        return Some(slot);
      }
      found := None;
    }

    method ResolveIntegrationByState(state: Option<string>, now: nat) returns (found: Option<Slot>)
      requires Valid()
      ensures var pending := FindByState(rows, state);
        found == if pending.None? || Expired(rows[pending.value], now) then None else pending
    {
      found := FindUniqueByState(state);
      if found.Some? {
        var row := rows[found.value];
        if row.expiresAt.None? || row.expiresAt.value < now { found := None; }
      }
    }

    method AbandonPendingConnect(pending: Option<Slot>)
      requires Valid() && (pending.Some? ==> pending.value in rows)
      modifies this
      ensures Valid() && World() == Abandon(old(World()), pending)
    {
      if pending.None? || !rows[pending.value].status.CONNECTING? || rows[pending.value].credential.Some? { return; }
      rows := rows - {pending.value};
    }

    method FailIntegration(slot: Slot, provider: Provider, previous: Status, why: Failure)
      requires Valid() && slot in rows && rows[slot].status == previous
      modifies this
      ensures Valid() && World() == Fail(old(World()), slot, provider, why)
    {
      rows := rows[slot := rows[slot].(status := ERROR, lastError := Some(why), oauthState := None, expiresAt := None)];
      if !previous.ERROR? { notices := notices + [Notice(slot.tenant, provider, ERROR)]; }
    }

    method HandleShopifyCallback(q: Query, replies: ShopifyReplies, now: nat)
      requires Valid()
      modifies this
      ensures Valid() && World() == ShopifyCallback(old(World()), q, replies, now)
    {
      if !replies.hmacOk { return; }
      var pending := FindUniqueByState(q.state);
      if !Truthy(q.state) || !Truthy(q.shop) || !Truthy(q.code) {
        AbandonPendingConnect(pending);
        return;
      }
      var integration := ResolveIntegrationByState(q.state, now);
      if integration.None? {
        AbandonPendingConnect(pending);
        return;
      }
      var slot := integration.value;
      var previous := rows[slot].status;
      if rows[slot].config.shop != q.shop {
        FailIntegration(slot, SHOPIFY, previous, ShopMismatch);
        return;
      }
      if other :| other in rows && other != slot && other.provider.SHOPIFY?
                  && rows[other].status.ACTIVE? && rows[other].config.shop == q.shop {
        assert HoldsShop(rows, other, q.shop);
        FailIntegration(slot, SHOPIFY, previous, ShopTaken);
        return;
      }
      exchanges := exchanges + [q.state.value];
      if replies.token.None? {
        FailIntegration(slot, SHOPIFY, previous, ExchangeFailed);
        return;
      }
      StoreShopifyToken(slot, q.shop, replies, now);
    }

    /** Credential first, then the webhooks; without the order webhook the row
        is DEGRADED. */
    method StoreShopifyToken(slot: Slot, shop: Option<string>, replies: ShopifyReplies, now: nat)
      requires Valid() && slot in rows
      modifies this
      ensures Valid() && World() == FinishShopify(old(World()), slot, shop, replies, now)
    {
      rows := rows[slot := rows[slot].(credential := replies.token)];
      audits := audits + [Audit(slot, None, Connected)];
      if Truthy(replies.orderWebhookId) {
        var config := Config(shop, replies.orderWebhookId, replies.cartWebhookId, None, None);
        rows := rows[slot := rows[slot].(status := ACTIVE, oauthState := None, expiresAt := None, lastError := None,
                                         lastCheckedAt := Some(now), config := config)];
      } else {
        rows := rows[slot := rows[slot].(status := DEGRADED, oauthState := None, expiresAt := None,
                                         lastError := Some(NoOrderWebhook), config := EMPTY_CONFIG.(shop := shop))];
        notices := notices + [Notice(slot.tenant, SHOPIFY, DEGRADED)];
      }
    }

    method HandleZohoCallback(q: Query, replies: ZohoReplies, now: nat)
      requires Valid()
      modifies this
      ensures Valid() && World() == ZohoCallback(old(World()), q, replies, now)
    {
      var pending := FindUniqueByState(q.state);
      if !Truthy(q.state) || !Truthy(q.code) {
        AbandonPendingConnect(pending);
        return;
      }
      var integration := ResolveIntegrationByState(q.state, now);
      if integration.None? {
        AbandonPendingConnect(pending);
        return;
      }
      var slot := integration.value;
      var previous := rows[slot].status;
      exchanges := exchanges + [q.state.value];
      if replies.secret.None? {
        FailIntegration(slot, ZOHO_INVENTORY, previous, ExchangeFailed);
        return;
      }
      if !Truthy(replies.organizationId) {
        FailIntegration(slot, ZOHO_INVENTORY, previous, NoOrganization);
        return;
      }
      rows := rows[slot := rows[slot].(credential := replies.secret)];
      rows := rows[slot := rows[slot].(status := ACTIVE, oauthState := None, expiresAt := None, lastError := None,
                                       lastCheckedAt := Some(now),
                                       config := EMPTY_CONFIG.(organizationId := replies.organizationId))];
      audits := audits + [Audit(slot, None, Connected)];
    }

    /** Shopify's adapter: the shop, then the webhooks it should have. */
    method ShopifyTestConnection(config: Config, h: Health) returns (ok: bool)
      requires h.Answers?
      ensures ok <==> TestPasses(SHOPIFY, config, h)
    {
      if !h.up { return false; }
      if !Truthy(config.orderWebhookId) { return false; }
      if !h.orderWebhookUp { return false; }
      if Truthy(config.cartWebhookId) {
        if !h.cartWebhookUp { return false; }
      }
      ok := true;
    }

    /** `ok` is false when the call ends in an exception. */
    method RunTest(slot: Slot, h: Health, now: nat) returns (ok: bool)
      requires Valid()
      modifies this
      ensures Valid() && World() == Test(old(World()), slot, h, now)
      ensures ok <==> Connectable(old(rows), slot) && h.Answers? && TestPasses(slot.provider, old(rows)[slot].config, h)
    {
      if slot !in rows || rows[slot].credential.None? { return false; }
      var integration := rows[slot];
      if h.CircuitOpen? {
        rows := rows[slot := integration.(lastCheckedAt := Some(now))];
        return false;
      }
      var passes := h.up;
      if slot.provider.SHOPIFY? { passes := ShopifyTestConnection(integration.config, h); }
      if passes {
        rows := rows[slot := integration.(lastCheckedAt := Some(now), lastError := None, status := ACTIVE)];
        return true;
      }
      rows := rows[slot := integration.(lastCheckedAt := Some(now), status := DEGRADED,
                                        lastError := Some(TestFailed(h.message)))];
      if !integration.status.DEGRADED? {
        notices := notices + [Notice(slot.tenant, slot.provider, DEGRADED)];
      }
      ok := false;
    }

    method RunDisconnect(slot: Slot, user: string)
      requires Valid()
      modifies this
      ensures Valid() && World() == Disconnect(old(World()), slot, user)
    {
      if slot !in rows { return; }
      rows := rows - {slot};
      audits := audits + [Audit(slot, Some(user), Disconnected)];
    }

    method StoreCredential(slot: Slot, secret: string) returns (ok: bool)
      requires Valid()
      modifies this
      ensures Valid() && World() == UpdateCredential(old(World()), slot, secret)
      ensures ok <==> Connectable(old(rows), slot)
    {
      if slot !in rows || rows[slot].credential.None? { return false; }
      rows := rows[slot := rows[slot].(credential := Some(secret))];
      ok := true;
    }
  }
}
