/** Integration rows with their credentials and OAuth state tokens, and each
    call of the integrations service as a function from one world to the next. */
module IntegrationModel {
  import opened Prelude

  datatype Provider =
    SHOPIFY | ZOHO_INVENTORY | ODOO | EASYPOST | SHIPPO | RESEND | SENDGRID | MAILGUN | SLACK | DISCORD | OPENAI

  datatype Status = DISCONNECTED | CONNECTING | ACTIVE | DEGRADED | ERROR

  datatype Group = MAILERS | ALERTS | SHIPPERS | INVENTORY

  function GroupOf(p: Provider): Option<Group> {
    match p
    case RESEND | SENDGRID | MAILGUN => Some(MAILERS)
    case SLACK | DISCORD => Some(ALERTS)
    case EASYPOST | SHIPPO => Some(SHIPPERS)
    case ZOHO_INVENTORY | ODOO => Some(INVENTORY)
    case SHOPIFY | OPENAI => None
  }

  predicate IsOAuth(p: Provider) { p.SHOPIFY? || p.ZOHO_INVENTORY? }

  /** The status filter of every group lookup. */
  predicate Live(s: Status) { s.ACTIVE? || s.DEGRADED? }

  datatype Failure =
    | ShopMismatch | ShopTaken | ExchangeFailed | NoOrganization | NoOrderWebhook | TestFailed(message: string)

  datatype Config = Config(
    shop: Option<string>,
    orderWebhookId: Option<string>,
    cartWebhookId: Option<string>,
    organizationId: Option<string>,
    fromAddress: Option<string>)

  const EMPTY_CONFIG := Config(None, None, None, None, None)

  datatype Row = Row(
    status: Status,
    config: Config,
    oauthState: Option<string>,
    expiresAt: Option<nat>,
    lastError: Option<Failure>,
    lastCheckedAt: Option<nat>,
    credential: Option<string>)

  /** (tenantId, provider) is unique, so a slot names at most one row. */
  datatype Slot = Slot(tenant: string, provider: Provider)

  type Table = map<Slot, Row>

  datatype Notice = Notice(tenant: string, provider: Provider, status: Status)

  datatype AuditAction = Connected | Disconnected

  datatype Audit = Audit(slot: Slot, user: Option<string>, action: AuditAction)

  /** `minted` and `exchanges` are history: which provider each state token was
      made for, and which tokens have been taken to a code exchange. */
  datatype World = World(
    rows: Table,
    notices: seq<Notice>,
    audits: seq<Audit>,
    minted: map<string, Provider>,
    exchanges: seq<string>)

  const EMPTY_WORLD := World(map[], [], [], map[], [])

  const OAUTH_STATE_TTL_MS := 600000

  // ----- Lookups ----------------------------------------------------------

  predicate HasState(rows: Table, slot: Slot, state: string) {
    slot in rows && rows[slot].oauthState == Some(state)
  }

  ghost predicate UniqueStates(rows: Table) {
    forall a, b :: a in rows && b in rows && rows[a].oauthState.Some? && rows[a].oauthState == rows[b].oauthState ==> a == b
  }

  /** `findUnique` on the unique `oauthState` column. */
  ghost function FindByState(rows: Table, state: Option<string>): Option<Slot> {
    if Truthy(state) && exists slot :: HasState(rows, slot, state.value)
    then var slot :| HasState(rows, slot, state.value); Some(slot)
    else None
  }

  predicate Expired(row: Row, now: nat) {
    row.expiresAt.None? || row.expiresAt.value < now
  }

  /** A possible answer of `findFirst` over the tenant's live rows of a group. */
  ghost predicate FirstLive(rows: Table, tenant: string, g: Group, found: Option<Provider>) {
    match found
    case Some(p) => LiveMember(rows, tenant, g, p)
    case None => forall p :: !LiveMember(rows, tenant, g, p)
  }

  predicate LiveMember(rows: Table, tenant: string, g: Group, p: Provider) {
    GroupOf(p) == Some(g) && Slot(tenant, p) in rows && Live(rows[Slot(tenant, p)].status)
  }

  /** Another ACTIVE Shopify row, of any tenant, for the same shop. */
  predicate HoldsShop(rows: Table, slot: Slot, shop: Option<string>) {
    slot in rows && slot.provider.SHOPIFY? && rows[slot].status.ACTIVE? && rows[slot].config.shop == shop
  }

  ghost predicate ShopTakenByOther(rows: Table, slot: Slot, shop: Option<string>) {
    exists other :: other != slot && HoldsShop(rows, other, shop)
  }

  // ----- connect ----------------------------------------------------------

  datatype ApiKey = ApiKey(secret: string, fromAddress: Option<string>)

  /** A connect request after parsing: `shop` and `apiKey` are `None` when the
      body does not match the provider's schema; `state` is the fresh token. */
  datatype ConnectBody = ConnectBody(
    state: string, shop: Option<string>, apiKey: Option<ApiKey>, keyAccepted: bool)

  predicate Conflicts(slot: Slot, found: Option<Provider>) {
    GroupOf(slot.provider).Some? && found.Some? && found.value != slot.provider
  }

  function Connect(w: World, slot: Slot, user: string, body: ConnectBody, found: Option<Provider>,
                   configured: bool, now: nat): World {
    if slot.provider.OPENAI? || (IsOAuth(slot.provider) && !configured) || Conflicts(slot, found) then w
    else if IsOAuth(slot.provider) then
      if slot.provider.SHOPIFY? && body.shop.None? then w
      else ConnectOAuth(w, slot, body.state, if slot.provider.SHOPIFY? then body.shop else None, now)
    else if body.apiKey.None? || !body.keyAccepted then w
    else ConnectApiKey(w, slot, user, body.apiKey.value)
  }

  function ConnectOAuth(w: World, slot: Slot, state: string, shop: Option<string>, now: nat): World {
    var config := EMPTY_CONFIG.(shop := shop);
    var started := Row(CONNECTING, config, Some(state), Some(now + OAUTH_STATE_TTL_MS), None, None, None);
    var row := if slot in w.rows
               then started.(lastCheckedAt := w.rows[slot].lastCheckedAt, credential := w.rows[slot].credential)
               else started;
    w.(rows := w.rows[slot := row], minted := w.minted[state := slot.provider])
  }

  predicate KeepsFromAddress(p: Provider) { p.EASYPOST? || p.SHIPPO? }

  function ConnectApiKey(w: World, slot: Slot, user: string, key: ApiKey): World {
    var config := if KeepsFromAddress(slot.provider) then EMPTY_CONFIG.(fromAddress := key.fromAddress)
                  else if slot in w.rows then w.rows[slot].config else EMPTY_CONFIG;
    var row := if slot in w.rows
               then w.rows[slot].(status := ACTIVE, config := config, lastError := None, credential := Some(key.secret))
               else Row(ACTIVE, config, None, None, None, None, Some(key.secret));
    w.(rows := w.rows[slot := row], audits := w.audits + [Audit(slot, Some(user), Connected)])
  }

  // ----- callbacks --------------------------------------------------------

  datatype Query = Query(state: Option<string>, shop: Option<string>, code: Option<string>)

  /** What happens outside during a callback: `None` is a call that threw. */
  datatype ShopifyReplies = ShopifyReplies(
    hmacOk: bool, token: Option<string>, orderWebhookId: Option<string>, cartWebhookId: Option<string>)

  datatype ZohoReplies = ZohoReplies(secret: Option<string>, organizationId: Option<string>)

  ghost predicate Abandonable(rows: Table, pending: Option<Slot>) {
    && pending.Some? && pending.value in rows
    && rows[pending.value].status.CONNECTING? && rows[pending.value].credential.None?
  }

  ghost function Abandon(w: World, pending: Option<Slot>): World {
    if Abandonable(w.rows, pending) then w.(rows := w.rows - {pending.value}) else w
  }

  function Fail(w: World, slot: Slot, provider: Provider, why: Failure): World
    requires slot in w.rows
  {
    var row := w.rows[slot];
    w.(rows := w.rows[slot := row.(status := ERROR, lastError := Some(why), oauthState := None, expiresAt := None)],
       notices := w.notices + if row.status.ERROR? then [] else [Notice(slot.tenant, provider, ERROR)])
  }

  ghost function ShopifyCallback(w: World, q: Query, replies: ShopifyReplies, now: nat): World {
    var pending := FindByState(w.rows, q.state);
    if !replies.hmacOk then w
    else if pending.None? || !Truthy(q.shop) || !Truthy(q.code) || Expired(w.rows[pending.value], now) then
      Abandon(w, pending)
    else if w.rows[pending.value].config.shop != q.shop then Fail(w, pending.value, SHOPIFY, ShopMismatch)
    else if ShopTakenByOther(w.rows, pending.value, q.shop) then Fail(w, pending.value, SHOPIFY, ShopTaken)
    else
      var w' := w.(exchanges := w.exchanges + [q.state.value]);
      if replies.token.None? then Fail(w', pending.value, SHOPIFY, ExchangeFailed)
      else FinishShopify(w', pending.value, q.shop, replies, now)
  }

  function FinishShopify(w: World, slot: Slot, shop: Option<string>, replies: ShopifyReplies, now: nat): World
    requires slot in w.rows
  {
    var row := w.rows[slot].(credential := replies.token, oauthState := None, expiresAt := None);
    var audits := w.audits + [Audit(slot, None, Connected)];
    if Truthy(replies.orderWebhookId) then
      var config := Config(shop, replies.orderWebhookId, replies.cartWebhookId, None, None);
      w.(rows := w.rows[slot := row.(status := ACTIVE, config := config, lastError := None, lastCheckedAt := Some(now))],
         audits := audits)
    else
      w.(rows := w.rows[slot := row.(status := DEGRADED, config := EMPTY_CONFIG.(shop := shop),
                                     lastError := Some(NoOrderWebhook))],
         audits := audits,
         notices := w.notices + [Notice(slot.tenant, SHOPIFY, DEGRADED)])
  }

  ghost function ZohoCallback(w: World, q: Query, replies: ZohoReplies, now: nat): World {
    var pending := FindByState(w.rows, q.state);
    if pending.None? || !Truthy(q.code) || Expired(w.rows[pending.value], now) then Abandon(w, pending)
    else
      var slot := pending.value;
      var w' := w.(exchanges := w.exchanges + [q.state.value]);
      if replies.secret.None? then Fail(w', slot, ZOHO_INVENTORY, ExchangeFailed)
      else if !Truthy(replies.organizationId) then Fail(w', slot, ZOHO_INVENTORY, NoOrganization)
      else
        var row := w.rows[slot].(
          status := ACTIVE, credential := replies.secret, oauthState := None, expiresAt := None, lastError := None,
          lastCheckedAt := Some(now), config := EMPTY_CONFIG.(organizationId := replies.organizationId));
        w'.(rows := w.rows[slot := row], audits := w.audits + [Audit(slot, None, Connected)])
  }

  // ----- test, disconnect, rotate -----------------------------------------

  /** The provider's answers to a connection test. For Shopify `up` is the shop
      check and the other two the webhook checks; other providers have `up`. */
  datatype Health = CircuitOpen | Answers(up: bool, orderWebhookUp: bool, cartWebhookUp: bool, message: string)

  predicate TestPasses(p: Provider, config: Config, h: Health)
    requires h.Answers?
  {
    h.up && (p.SHOPIFY? ==>
      Truthy(config.orderWebhookId) && h.orderWebhookUp && (Truthy(config.cartWebhookId) ==> h.cartWebhookUp))
  }

  predicate Connectable(rows: Table, slot: Slot) {
    slot in rows && rows[slot].credential.Some?
  }

  function Test(w: World, slot: Slot, h: Health, now: nat): World {
    if !Connectable(w.rows, slot) then w
    else
      var row := w.rows[slot].(lastCheckedAt := Some(now));
      if h.CircuitOpen? then w.(rows := w.rows[slot := row])
      else if TestPasses(slot.provider, row.config, h) then
        w.(rows := w.rows[slot := row.(status := ACTIVE, lastError := None)])
      else
        w.(rows := w.rows[slot := row.(status := DEGRADED, lastError := Some(TestFailed(h.message)))],
           notices := w.notices + if row.status.DEGRADED? then [] else [Notice(slot.tenant, slot.provider, DEGRADED)])
  }

  function Disconnect(w: World, slot: Slot, user: string): World {
    if slot !in w.rows then w
    else w.(rows := w.rows - {slot}, audits := w.audits + [Audit(slot, Some(user), Disconnected)])
  }

  /** Storing a refreshed secret; the update throws when there is none to replace. */
  function UpdateCredential(w: World, slot: Slot, secret: string): World {
    if !Connectable(w.rows, slot) then w
    else w.(rows := w.rows[slot := w.rows[slot].(credential := Some(secret))])
  }
}
