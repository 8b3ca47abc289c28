/** What each call comes to, read off its inputs and the row it finds, and what
    the columns of a row say after any run of calls. */
module IntegrationColumns {
  import opened Prelude
  import opened IntegrationModel
  import opened IntegrationLifecycle

  // ----- Lookups ------------------------------------------------------------------

  const MAILER_PROVIDERS := [RESEND, SENDGRID, MAILGUN]
  const ALERT_PROVIDERS := [SLACK, DISCORD]
  const SHIPPING_PROVIDERS := [EASYPOST, SHIPPO]
  const INVENTORY_PROVIDERS := [ZOHO_INVENTORY, ODOO]

  function Providers(g: Group): seq<Provider> {
    match g
    case MAILERS => MAILER_PROVIDERS
    case ALERTS => ALERT_PROVIDERS
    case SHIPPERS => SHIPPING_PROVIDERS
    case INVENTORY => INVENTORY_PROVIDERS
  }

  lemma GroupsAreTheLists(p: Provider, g: Group)
    ensures GroupOf(p) == Some(g) <==> p in Providers(g)
  {
    assert [RESEND, SENDGRID, MAILGUN][1..] == [SENDGRID, MAILGUN];
  }

  predicate ActiveOrDegraded(rows: Table, slot: Slot) {
    slot in rows && rows[slot].status in {ACTIVE, DEGRADED}
  }

  /** In every reachable state: of the mailers, of the alert services, and of the
      shipping providers, a tenant has at most one that is ACTIVE or DEGRADED. */
  lemma OneProviderPerKeyGroup(calls: seq<Call>, tenant: string, g: Group, p: Provider, p': Provider)
    requires ValidRun(EMPTY_WORLD, calls) && g != INVENTORY && p in Providers(g) && p' in Providers(g)
    requires ActiveOrDegraded(Run(EMPTY_WORLD, calls).rows, Slot(tenant, p))
    requires ActiveOrDegraded(Run(EMPTY_WORLD, calls).rows, Slot(tenant, p'))
    ensures p == p'
  {
    RunKeepsGood(EMPTY_WORLD, calls);
    GroupsAreTheLists(p, g);
    GroupsAreTheLists(p', g);
    if p != p' { assert Rivals(Slot(tenant, p), Slot(tenant, p')); }
  }

  /** The state lookup finds a row if and only if it is the one with the token. */
  lemma FoundIffItHasTheToken(rows: Table, state: Option<string>, slot: Slot)
    requires UniqueStates(rows)
    ensures FindByState(rows, state) == Some(slot) <==>
      state.Some? && state.value != "" && slot in rows && rows[slot].oauthState == state
  {
    if state.Some? && state.value != "" && slot in rows && rows[slot].oauthState == state {
      assert HasState(rows, slot, state.value);
    }
  }

  // ----- What a call comes to --------------------------------------------------------

  datatype Came =
    | Nothing
    | Began(state: string, shop: Option<string>, until: nat)
    | KeyStored(user: string, secret: string, setup: Option<Config>)
    | Abandoned
    | Refused(provider: Provider, why: Failure, exchanged: bool)
    | Installed(secret: string, config: Config, now: nat)
    | HalfInstalled(secret: string, shop: Option<string>)
    | Passed(now: nat)
    | FailedTest(now: nat, message: string)
    | Unreached(now: nat)
    | Removed(user: string)
    | Rotated(secret: string)

  predicate Present(s: Option<string>) { s != None && s != Some("") }

  /** The row a call is about: the one it names, or the one with its state token. */
  ghost function About(w: World, c: Call): Option<Slot> {
    if c.DoShopifyCallback? || c.DoZohoCallback? then FindByState(w.rows, c.q.state) else Some(c.slot)
  }

  /** No row yet, or one whose consent is pending without a credential. */
  predicate Stranded(row: Row) { row.status == CONNECTING && row.credential == None }

  predicate InTime(row: Row, now: nat) { row.expiresAt.Some? && now <= row.expiresAt.value }

  function Connecting(slot: Slot, user: string, body: ConnectBody, found: Option<Provider>, configured: bool, now: nat): Came {
    var p := slot.provider;
    var rival := (exists g :: p in Providers(g)) && found.Some? && found != Some(p);
    if p == OPENAI || rival then Nothing
    else if p == SHOPIFY then
      if configured && body.shop.Some? then Began(body.state, body.shop, now + 10 * 60 * 1000) else Nothing
    else if p == ZOHO_INVENTORY then
      if configured then Began(body.state, None, now + 10 * 60 * 1000) else Nothing
    else if body.apiKey.None? || !body.keyAccepted then Nothing
    else KeyStored(user, body.apiKey.value.secret,
      if p in SHIPPING_PROVIDERS then Some(Config(None, None, None, None, body.apiKey.value.fromAddress)) else None)
  }

  ghost function ShopifyReturned(w: World, slot: Slot, q: Query, replies: ShopifyReplies, now: nat): Came
    requires slot in w.rows
  {
    var row := w.rows[slot];
    if !replies.hmacOk then Nothing
    else if !Present(q.shop) || !Present(q.code) || !InTime(row, now) then if Stranded(row) then Abandoned else Nothing
    else if row.config.shop != q.shop then Refused(SHOPIFY, ShopMismatch, false)
    else if exists other :: other in w.rows && other != slot && other.provider == SHOPIFY
                            && w.rows[other].status == ACTIVE && w.rows[other].config.shop == q.shop
    then Refused(SHOPIFY, ShopTaken, false)
    else if replies.token.None? then Refused(SHOPIFY, ExchangeFailed, true)
    else if Present(replies.orderWebhookId) then
      Installed(replies.token.value, Config(q.shop, replies.orderWebhookId, replies.cartWebhookId, None, None), now)
    else HalfInstalled(replies.token.value, q.shop)
  }

  function ZohoReturned(row: Row, q: Query, replies: ZohoReplies, now: nat): Came {
    if !Present(q.code) || !InTime(row, now) then if Stranded(row) then Abandoned else Nothing
    else if replies.secret.None? then Refused(ZOHO_INVENTORY, ExchangeFailed, true)
    else if !Present(replies.organizationId) then Refused(ZOHO_INVENTORY, NoOrganization, true)
    else Installed(replies.secret.value, Config(None, None, None, replies.organizationId, None), now)
  }

  /** Shopify's test asks for the shop, for a registered and live order webhook,
      and for a live cart webhook if one is registered; the others just answer. */
  function Tested(slot: Slot, row: Row, h: Health, now: nat): Came {
    if row.credential == None then Nothing
    else if h.CircuitOpen? then Unreached(now)
    else if h.up && (slot.provider != SHOPIFY ||
                     (Present(row.config.orderWebhookId) && h.orderWebhookUp
                      && (!Present(row.config.cartWebhookId) || h.cartWebhookUp)))
    then Passed(now) else FailedTest(now, h.message)
  }

  ghost function CameTo(w: World, c: Call): Came {
    var about := About(w, c);
    if c.DoConnect? then Connecting(c.slot, c.user, c.body, c.found, c.configured, c.now)
    else if about.None? || about.value !in w.rows then Nothing
    else
      var row := w.rows[about.value];
      match c
      case DoShopifyCallback(q, replies, now) => ShopifyReturned(w, about.value, q, replies, now)
      case DoZohoCallback(q, replies, now) => ZohoReturned(row, q, replies, now)
      case DoTest(slot, h, now) => Tested(slot, row, h, now)
      case DoDisconnect(_, user) => Removed(user)
      case DoUpdateCredential(_, secret) => if row.credential == None then Nothing else Rotated(secret)
      case _ => Nothing
  }

  // ----- What it leaves in each column -------------------------------------------------

  function StatusAfter(before: Option<Status>, came: Came): Option<Status> {
    match came
    case Began(_, _, _) => Some(CONNECTING)
    case KeyStored(_, _, _) => Some(ACTIVE)
    case Refused(_, _, _) => Some(ERROR)
    case Installed(_, _, _) => Some(ACTIVE)
    case HalfInstalled(_, _) => Some(DEGRADED)
    case Passed(_) => Some(ACTIVE)
    case FailedTest(_, _) => Some(DEGRADED)
    case Abandoned => None
    case Removed(_) => None
    case _ => before
  }

  /** The secret a call gives, if it gives one. */
  function SecretGiven(came: Came): Option<string> {
    match came
    case KeyStored(_, secret, _) => Some(secret)
    case Installed(secret, _, _) => Some(secret)
    case HalfInstalled(secret, _) => Some(secret)
    case Rotated(secret) => Some(secret)
    case _ => None
  }

  function ConfigAfter(row: Option<Row>, came: Came): Config {
    match came
    case Began(_, shop, _) => Config(shop, None, None, None, None)
    case KeyStored(_, _, setup) =>
      if setup.Some? then setup.value else if row.Some? then row.value.config else Config(None, None, None, None, None)
    case Installed(_, config, _) => config
    case HalfInstalled(_, shop) => Config(shop, None, None, None, None)
    case _ => if row.Some? then row.value.config else Config(None, None, None, None, None)
  }

  /** The state token and its expiry come and go together. */
  function TokenAfter(row: Option<Row>, came: Came): (Option<string>, Option<nat>) {
    match came
    case Began(state, _, until) => (Some(state), Some(until))
    case Refused(_, _, _) => (None, None)
    case Installed(_, _, _) => (None, None)
    case HalfInstalled(_, _) => (None, None)
    case _ => if row.Some? then (row.value.oauthState, row.value.expiresAt) else (None, None)
  }

  function ErrorAfter(row: Option<Row>, came: Came): Option<Failure> {
    match came
    case Refused(_, why, _) => Some(why)
    case HalfInstalled(_, _) => Some(NoOrderWebhook)
    case FailedTest(_, message) => Some(TestFailed(message))
    case Unreached(_) => if row.Some? then row.value.lastError else None
    case Rotated(_) => if row.Some? then row.value.lastError else None
    case Nothing => if row.Some? then row.value.lastError else None
    case _ => None
  }

  function CheckedAfter(row: Option<Row>, came: Came): Option<nat> {
    match came
    case Installed(_, _, now) => Some(now)
    case Passed(now) => Some(now)
    case FailedTest(now, _) => Some(now)
    case Unreached(now) => Some(now)
    case _ => if row.Some? then row.value.lastCheckedAt else None
  }

  function At(rows: Table, slot: Slot): Option<Row> { if slot in rows then Some(rows[slot]) else None }

  function StatusAt(rows: Table, slot: Slot): Option<Status> { if slot in rows then Some(rows[slot].status) else None }

  function SecretAt(rows: Table, slot: Slot): Option<string> { if slot in rows then rows[slot].credential else None }

  /** The row a call is about, column by column. */
  ghost predicate ColumnsTell(w: World, w': World, slot: Slot, came: Came) {
    var before, given := At(w.rows, slot), SecretGiven(came);
    && StatusAt(w'.rows, slot) == StatusAfter(StatusAt(w.rows, slot), came)
    && (slot in w'.rows ==>
          var row := w'.rows[slot];
          && row.credential == (if given.Some? then given else SecretAt(w.rows, slot))
          && row.config == ConfigAfter(before, came)
          && (row.oauthState, row.expiresAt) == TokenAfter(before, came)
          && row.lastError == ErrorAfter(before, came)
          && row.lastCheckedAt == CheckedAfter(before, came))
  }

  // ----- What it leaves beside the rows ---------------------------------------------

  /** Somebody is told of a row going to ERROR or DEGRADED, once each time. */
  function NoticesOf(slot: Slot, was: Option<Status>, came: Came): seq<Notice> {
    match came
    case Refused(provider, _, _) => if was == Some(ERROR) then [] else [Notice(slot.tenant, provider, ERROR)]
    case HalfInstalled(_, _) => [Notice(slot.tenant, SHOPIFY, DEGRADED)]
    case FailedTest(_, _) => if was == Some(DEGRADED) then [] else [Notice(slot.tenant, slot.provider, DEGRADED)]
    case _ => []
  }

  function AuditsOf(slot: Slot, came: Came): seq<Audit> {
    match came
    case KeyStored(user, _, _) => [Audit(slot, Some(user), Connected)]
    case Installed(_, _, _) => [Audit(slot, None, Connected)]
    case HalfInstalled(_, _) => [Audit(slot, None, Connected)]
    case Removed(user) => [Audit(slot, Some(user), AuditAction.Disconnected)]
    case _ => []
  }

  predicate Exchanges(came: Came) {
    came.Installed? || came.HalfInstalled? || (came.Refused? && came.exchanged)
  }

  ghost predicate BesidesTell(w: World, w': World, slot: Slot, came: Came, state: Option<string>) {
    && w'.notices == w.notices + NoticesOf(slot, StatusAt(w.rows, slot), came)
    && w'.audits == w.audits + AuditsOf(slot, came)
    && w'.minted == (if came.Began? then w.minted[came.state := slot.provider] else w.minted)
    && w'.exchanges == w.exchanges + (if Exchanges(came) && state.Some? then [state.value] else [])
  }

  function StateOf(c: Call): Option<string> {
    if c.DoShopifyCallback? || c.DoZohoCallback? then c.q.state else None
  }

  /** The call is what it came to: on the row it is about, on the other rows, and
      on notices, audits and history. */
  ghost predicate Tells(w: World, c: Call) {
    var w', about, came := Do(w, c), About(w, c), CameTo(w, c);
    if about.None? then w' == w
    else
      && (forall other :: other != about.value ==> At(w'.rows, other) == At(w.rows, other))
      && (if came == Nothing then w' == w
          else ColumnsTell(w, w', about.value, came) && BesidesTell(w, w', about.value, came, StateOf(c)))
  }

  lemma ConnectTells(w: World, c: Call)
    requires c.DoConnect?
    ensures Tells(w, c)
  {
    GroupsAreTheLists(c.slot.provider, MAILERS);
    GroupsAreTheLists(c.slot.provider, ALERTS);
    GroupsAreTheLists(c.slot.provider, SHIPPERS);
    GroupsAreTheLists(c.slot.provider, INVENTORY);
  }

  lemma TakenIffHeld(rows: Table, slot: Slot, shop: Option<string>)
    ensures ShopTakenByOther(rows, slot, shop) <==>
      exists other :: other in rows && other != slot && other.provider == SHOPIFY
                      && rows[other].status == ACTIVE && rows[other].config.shop == shop
  {
    if other :| other in rows && other != slot && other.provider == SHOPIFY
                && rows[other].status == ACTIVE && rows[other].config.shop == shop {
      assert HoldsShop(rows, other, shop);
    }
  }

  predicate GoesOn(row: Row, c: Call)
    requires c.DoShopifyCallback?
  {
    c.shopify.hmacOk && Present(c.q.shop) && Present(c.q.code) && InTime(row, c.now)
  }

  lemma ShopifyStopsTell(w: World, c: Call)
    requires c.DoShopifyCallback? && About(w, c).Some? && !GoesOn(w.rows[About(w, c).value], c)
    ensures Tells(w, c)
  {
  }

  lemma ShopifyRefusalTells(w: World, c: Call)
    requires c.DoShopifyCallback? && About(w, c).Some? && GoesOn(w.rows[About(w, c).value], c)
    requires CameTo(w, c).Refused?
    ensures Tells(w, c)
  {
    TakenIffHeld(w.rows, About(w, c).value, c.q.shop);
  }

  lemma ShopifyInstallTells(w: World, c: Call)
    requires c.DoShopifyCallback? && About(w, c).Some? && GoesOn(w.rows[About(w, c).value], c)
    requires CameTo(w, c).Installed? || CameTo(w, c).HalfInstalled?
    ensures Tells(w, c)
  {
    TakenIffHeld(w.rows, About(w, c).value, c.q.shop);
  }

  lemma ShopifyTells(w: World, c: Call)
    requires c.DoShopifyCallback?
    ensures Tells(w, c)
  {
    if About(w, c).Some? {
      if !GoesOn(w.rows[About(w, c).value], c) {
        ShopifyStopsTell(w, c);
      } else if CameTo(w, c).Refused? {
        ShopifyRefusalTells(w, c);
      } else {
        ShopifyInstallTells(w, c);
      }
    }
  }

  lemma ZohoTells(w: World, c: Call)
    requires c.DoZohoCallback?
    ensures Tells(w, c)
  {
  }

  /** Every call, in every world. */
  lemma CallTells(w: World, c: Call)
    ensures Tells(w, c)
  {
    match c
    case DoConnect(_, _, _, _, _, _) => ConnectTells(w, c);
    case DoShopifyCallback(_, _, _) => ShopifyTells(w, c);
    case DoZohoCallback(_, _, _) => ZohoTells(w, c);
    case _ =>
  }

  // ----- Over runs ---------------------------------------------------------------------

  /** The secret last given to a slot since it was last disconnected. */
  ghost function LastSecret(w: World, calls: seq<Call>, slot: Slot, before: Option<string>): Option<string>
    decreases calls
  {
    if calls == [] then before
    else
      var came := CameTo(w, calls[0]);
      LastSecret(Do(w, calls[0]), calls[1..], slot,
        if About(w, calls[0]) != Some(slot) then before
        else if came.Removed? then None
        else if SecretGiven(came).Some? then SecretGiven(came) else before)
  }

  /** Over any run, from any world: the stored credential is the last secret given,
      by a callback that passed its guards, an accepted connect, or a rotation. */
  lemma {:induction false} CredentialIsTheLastGiven(w: World, calls: seq<Call>, slot: Slot)
    ensures SecretAt(Run(w, calls).rows, slot) == LastSecret(w, calls, slot, SecretAt(w.rows, slot))
    decreases calls
  {
    if calls != [] {
      CallTells(w, calls[0]);
      assert About(w, calls[0]) != Some(slot) ==> At(Do(w, calls[0]).rows, slot) == At(w.rows, slot);
      AbandonedHadNone(w, calls[0]);
      CredentialIsTheLastGiven(Do(w, calls[0]), calls[1..], slot);
    }
  }

  lemma AbandonedHadNone(w: World, c: Call)
    ensures CameTo(w, c).Abandoned? ==> About(w, c).Some? && SecretAt(w.rows, About(w, c).value) == None
  {
  }

  ghost function LastStatus(w: World, calls: seq<Call>, slot: Slot, before: Option<Status>): Option<Status>
    decreases calls
  {
    if calls == [] then before
    else LastStatus(Do(w, calls[0]), calls[1..], slot,
      if About(w, calls[0]) == Some(slot) then StatusAfter(before, CameTo(w, calls[0])) else before)
  }

  /** And its status is that of the last call that came to one. */
  lemma {:induction false} StatusIsTheLastGiven(w: World, calls: seq<Call>, slot: Slot)
    ensures StatusAt(Run(w, calls).rows, slot) == LastStatus(w, calls, slot, StatusAt(w.rows, slot))
    decreases calls
  {
    if calls != [] {
      CallTells(w, calls[0]);
      assert About(w, calls[0]) != Some(slot) ==> At(Do(w, calls[0]).rows, slot) == At(w.rows, slot);
      StatusIsTheLastGiven(Do(w, calls[0]), calls[1..], slot);
    }
  }

  ghost function NoticesSaid(w: World, c: Call): seq<Notice> {
    var about := About(w, c);
    if about.None? then [] else NoticesOf(about.value, StatusAt(w.rows, about.value), CameTo(w, c))
  }

  ghost function AuditsSaid(w: World, c: Call): seq<Audit> {
    var about := About(w, c);
    if about.None? then [] else AuditsOf(about.value, CameTo(w, c))
  }

  lemma OneCallsLogs(w: World, c: Call)
    ensures Do(w, c).notices == w.notices + NoticesSaid(w, c)
    ensures Do(w, c).audits == w.audits + AuditsSaid(w, c)
  {
    CallTells(w, c);
    assert w.notices + [] == w.notices && w.audits + [] == w.audits;
  }

  ghost function NoticesOver(w: World, calls: seq<Call>): seq<Notice>
    decreases calls
  {
    if calls == [] then [] else NoticesSaid(w, calls[0]) + NoticesOver(Do(w, calls[0]), calls[1..])
  }

  ghost function AuditsOver(w: World, calls: seq<Call>): seq<Audit>
    decreases calls
  {
    if calls == [] then [] else AuditsSaid(w, calls[0]) + AuditsOver(Do(w, calls[0]), calls[1..])
  }

  /** The notices of a run are its transitions to ERROR and DEGRADED, in order. */
  lemma {:induction false} NoticesTellTheRun(w: World, calls: seq<Call>)
    ensures Run(w, calls).notices == w.notices + NoticesOver(w, calls)
    decreases calls
  {
    if calls == [] {
      ConcatNothing(w.notices);
    } else {
      var more, rest := NoticesSaid(w, calls[0]), NoticesOver(Do(w, calls[0]), calls[1..]);
      OneCallsLogs(w, calls[0]);
      NoticesTellTheRun(Do(w, calls[0]), calls[1..]);
      ConcatAssociates(w.notices, more, rest);
    }
  }

  /** Its audit rows are its connections and disconnections, in order. */
  lemma {:induction false} AuditsTellTheRun(w: World, calls: seq<Call>)
    ensures Run(w, calls).audits == w.audits + AuditsOver(w, calls)
    decreases calls
  {
    if calls == [] {
      ConcatNothing(w.audits);
    } else {
      var more, rest := AuditsSaid(w, calls[0]), AuditsOver(Do(w, calls[0]), calls[1..]);
      OneCallsLogs(w, calls[0]);
      AuditsTellTheRun(Do(w, calls[0]), calls[1..]);
      ConcatAssociates(w.audits, more, rest);
    }
  }
}
