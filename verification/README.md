# Automation platform backend: a verified model

This project models the parts of the order-automation backend whose correctness
depends on state that several callers change: the webhook inbox, the integration
lifecycle, membership roles, and the order, run and step records. It also covers
four self-contained algorithms: the n8n workflow conversion, the address guard,
the stock checks, and the OAuth callback HMAC.

Each stateful part has the same four layers.

1. *Service layer.* Classes whose methods follow the TypeScript services branch
   by branch and update tables held in fields. Each method is proved equal to a
   function from the old world to the new one.
2. *Model layer.* Those functions, over immutable worlds.
3. *History layer.* Lemmas about every sequence of calls, or every interleaving
   of statements, made of those functions.
4. *Column layer.* What each stored column says after any run, read off the calls'
   own inputs and guards: a second account of the same behaviour, which does not go
   through the model's definitions of the calls.

| part | service layer | model layer | history layer | column layer |
|---|---|---|---|---|
| webhook inbox | `InboxTable.dfy`, `InboxControllers.dfy` | `InboxTable.dfy` | `InboxProtocol.dfy` | `InboxColumns.dfy` |
| integrations | `IntegrationsService.dfy` | `IntegrationModel.dfy` | `IntegrationLifecycle.dfy`, `IntegrationUniqueness.dfy` | `IntegrationColumns.dfy` |
| memberships | `MembershipServices.dfy` | `MembershipModel.dfy` | `MembershipOwners.dfy`, `MembershipRaces.dfy`, `RoleSync.dfy` | `MembershipColumns.dfy` |
| records | `RecordsServices.dfy` | `RecordsModel.dfy` | `RecordsHistory.dfy`, `StepOrder.dfy` | `RecordsColumns.dfy` |

`N8nFlow.dfy`, `AddressGuard.dfy`, `Stock.dfy` and `OAuthHmac.dfy` stand alone;
`Text.dfy`, `Sorting.dfy` and `Prelude.dfy` are shared helpers.

`dafny verify dfyconfig.toml` checks everything.

## What holds, and what does not

**Webhook inbox.** Deliveries run as workers, interleaved one database statement
at a time. Any statement may abort, or commit while its answer is lost, and a worker
may crash at any point. Per event key the protocol refines a one-holder lease, so
mutual exclusion and claim conservation hold, and events do not interfere. Two
limits are exact:

- A claim lost to a crash, to a lost answer or to a final write that fails leaves its
  event PROCESSING for ever, and every redelivery is answered "received".
- PROCESSED is absorbing with one exception: the catch block writes FAILED without
  asking for a status (`apps/backend/src/webhooks/clerk-webhook.controller.ts:93-97`).
  A PROCESSED row is left if and only if its PROCESSED write committed but seemed to
  throw and that catch block then completes. The event can then be handled again.

**Integrations.** An ACTIVE Shopify row always has its order webhook, every live
row has a credential, and mailer, alert and shipping groups have at most one live
provider per tenant. Each call keeps this, except exactly one: a completed Zoho
callback for a state token made for Shopify, since the lookup is by token alone and
that callback asks neither for the row's provider nor for an HMAC. The theorems about
runs exclude that call; that state tokens are single use, and that a credential only
leaves by `disconnect`, holds with it too. Two uniqueness rules are kept
only up to a condition, which is proved exact, with a run that reaches it:

- One ACTIVE Shopify row per shop: broken exactly by a test that promotes a row
  that was not ACTIVE while another row holds the shop.
- One live inventory provider per tenant: broken exactly when Zoho becomes live
  beside a live Odoo, either by a completed callback or by a test. A *failed* test
  counts too, because it sets DEGRADED, which the group lookups treat as live.

The comment at `apps/backend/src/integrations/integrations.service.ts:333-335`
speaks of an "ACTIVE-or-better" row going DEGRADED; the code sets DEGRADED from any
status, CONNECTING included. The model follows the code.

**Memberships.** The metadata-before-role order of `updateRole` makes a role change
safe against every interleaving and duplication of the webhooks it causes. For
either order the exact condition is given: the change always ends with the new role
if and only if every snapshot in flight or still to come resolves to it. At most
one Owner per tenant is kept by every event except exactly a webhook that hints
`Owner` for a second seat. When the counts and upserts of several creation handlers
interleave, one Owner is certain if and only if no two seats of a tenant are Owner
already or would be made so if handled right now. An `updated` webhook without a hint
demotes an Owner to Admin or Operator, and no such webhook ever makes one again.

**Records.** Whatever the order of ingestions, internal calls and overrides, tenant
coherence holds, timelines are append-only, and attempts equal the step calls. Three
counts have a condition, because `createOrderEvent` accepts any event type and any
payload, and because a run update reads before it writes:

- The `order_received` entries of an order equal its completed ingestions if and only
  if n8n posted none under that type. Those with actor `shopify` always do.
- Timeline and audit log tell the same overrides if and only if n8n posted no
  `manual_override` entry. About every other actor they always agree, and a COMPLETED
  or CANCELED order always has its audit row and the entry that says the same.
- A run's failure notices equal its transitions to FAILED, once no notice is owed,
  if and only if as many transitions were missed as were notified twice. Both need a
  call whose read is out of date when it writes, which only another write to the same
  run in between can cause.

## Model

| member | source | states |
|---|---|---|
| InboxTable.WebhookInboundEvents.Create | apps/backend/src/webhooks/webhook-inbox-claim.util.ts:28-45 | the insert creates the row exactly when the unique key is free and it does not abort; its answer may be lost; every other row is left alone |
| InboxTable.WebhookInboundEvents.ReclaimFailed | apps/backend/src/webhooks/webhook-inbox-claim.util.ts:47-58 | the guarded update touches one row if and only if that row is FAILED; an undefined tenant leaves the column as it was; its answer may be lost |
| InboxTable.WebhookInboundEvents.SetFailed | apps/backend/src/webhooks/clerk-webhook.controller.ts:94-97 | the final FAILED write: throws on a missing row, may abort, or commit and throw |
| InboxTable.WebhookInboundEvents.SetProcessed | apps/backend/src/webhooks/clerk-webhook.controller.ts:88-91 | the final PROCESSED write: throws on a missing row, may abort, or commit and throw |
| InboxControllers.ClaimWebhookInboundEvent | apps/backend/src/webhooks/webhook-inbox-claim.util.ts:24-59 | the claim is won if and only if the key is new or FAILED and every statement answers; the table says what a claim that threw left behind |
| InboxControllers.RunHandler | apps/backend/src/webhooks/clerk-webhook.controller.ts:86-99 | the try/catch: PROCESSED and 2xx, or 5xx after a FAILED write that also follows a PROCESSED write whose answer was lost |
| InboxControllers.ClerkWebhookController.Handle | apps/backend/src/webhooks/clerk-webhook.controller.ts:38-102 | a malformed request, and no other, is a 4xx and changes nothing; otherwise answer and table are those of one delivery served alone, and the event's row is PROCESSED, FAILED or untouched as the statements and the handler go |
| InboxControllers.ShopifyWebhookController.VerifyAndResolve | apps/backend/src/webhooks/shopify-webhook.controller.ts:52-108 | processing goes on if and only if the claim is won and the integration exists, is ACTIVE and has the header's shop; a rejection is recorded as FAILED; a body that is not JSON or a lookup that throws ends before the claim |
| InboxControllers.ShopifyWebhookController.Handle | apps/backend/src/webhooks/shopify-webhook.controller.ts:110-200 | answer and table of a Shopify delivery in every branch; with a won claim and a missing, non-ACTIVE or other-shop integration the row is FAILED with a 2xx once that write is heard, and never PROCESSED |
| InboxControllers.GrantEnds | apps/backend/src/webhooks/shopify-webhook.controller.ts:98-150 | every way a granted claim can end is a valid tail of protocol steps |
| InboxControllers.ServeIsARun | apps/backend/src/webhooks/shopify-webhook.controller.ts:78-150 | what a controller does to the table is one run of the interleaving protocol by a new worker, so the theorems about runs apply to the controllers |
| InboxProtocol.OwnStep | apps/backend/src/webhooks/webhook-inbox-claim.util.ts:28-58 | a statement of a worker on its own key moves that key's lease legally |
| InboxProtocol.StepRefines | apps/backend/src/webhooks/webhook-inbox-claim.util.ts:24-59 | one statement of any worker keeps every key's lease in agreement with the row and the workers |
| InboxProtocol.RunRefinesLease | apps/backend/src/webhooks/webhook-inbox-claim.util.ts:13-23 | whatever the interleaving, faults, lost answers and crashes, the events of each key are a legal history of a one-holder lease |
| InboxProtocol.EveryRunKeepsTheLease | apps/backend/src/webhooks/webhook-inbox-claim.util.ts:13-23 | the same from the empty inbox |
| InboxProtocol.MutualExclusion | apps/backend/src/webhooks/clerk-webhook.controller.ts:66-84 | at most one worker per key is between its grant and its final write; meanwhile the row holds that worker's own delivery and is PROCESSING, or PROCESSED if its write was not heard |
| InboxProtocol.LeaseAccounts | apps/backend/src/webhooks/clerk-webhook.controller.ts:86-99 | along any legal lease history claims won balance endings, with at most one final PROCESSED and one abandonment |
| InboxProtocol.ClaimConservation | apps/backend/src/webhooks/clerk-webhook.controller.ts:76-99 | claims won = FAILED writes + final PROCESSED + claims in flight + claims lost while PROCESSING; PROCESSED is final at most once |
| InboxProtocol.FrameOfStep | apps/backend/src/webhooks/webhook-inbox-claim.util.ts:47-56 | a step on one key leaves every other key's row unchanged |
| InboxProtocol.KeysAreIndependent | apps/backend/src/webhooks/webhook-inbox-claim.util.ts:13-23 | dropping every step of the other events from a run leaves a valid run that does the same to this event's row and deliveries |
| InboxProtocol.FinalRowIsFrozen | apps/backend/src/webhooks/webhook-inbox-claim.util.ts:18-23 | after PROCESSED, or after a lost holder, no later step changes the row |
| InboxProtocol.FinalKeyIsNeverGranted | apps/backend/src/webhooks/webhook-inbox-claim.util.ts:18-23 | nor is the key granted again |
| InboxProtocol.ProcessedIsAbsorbing | apps/backend/src/webhooks/webhook-inbox-claim.util.ts:47-58 | if no PROCESSED write committed unheard, then in every continuation a PROCESSED row stays exactly as it is and is never claimed |
| InboxProtocol.ProcessedStepChanges | apps/backend/src/webhooks/clerk-webhook.controller.ts:93-97 | one statement changes a PROCESSED row if and only if it is the FAILED write of the worker that did not hear its PROCESSED write |
| InboxProtocol.ProcessedIsLeftIffUndone | apps/backend/src/webhooks/clerk-webhook.controller.ts:86-99 | in every continuation of every run a PROCESSED row is left if and only if such a catch block completes; otherwise the row stays and no claim is won |
| InboxProtocol.ProcessedCanBeUndone | apps/backend/src/webhooks/clerk-webhook.controller.ts:86-97 | a run that ends in a PROCESSED row and a catch block about to write FAILED |
| InboxProtocol.ProcessedCanBeGrantedAgain | apps/backend/src/webhooks/webhook-inbox-claim.util.ts:18-23 | that run goes on to grant the processed event to a second delivery |
| InboxProtocol.LostHolderBlocksForEver | apps/backend/src/webhooks/clerk-webhook.controller.ts:93-98 | a claim lost while PROCESSING, to a crash, a lost answer or a final write that failed, leaves the event so in every continuation |
| InboxProtocol.HolderCanBeLost | apps/backend/src/webhooks/clerk-webhook.controller.ts:76-88 | a run to such a lost claim |
| InboxProtocol.FreshDeliveryIsGranted | apps/backend/src/webhooks/webhook-inbox-claim.util.ts:18-23 | in every reachable state an undisturbed delivery is granted if and only if its event is new or FAILED |
| InboxColumns.OnlyMatchingDeliveriesAreHandled | apps/backend/src/webhooks/shopify-webhook.controller.ts:89-105 | in every run the handler is run and PROCESSED written only for a delivery whose integration exists, is ACTIVE and has the header's shop, and a rejection is written only for one that does not |
| InboxColumns.MatchDecides | apps/backend/src/webhooks/shopify-webhook.controller.ts:89-107 | after a grant those three checks alone decide between handler and rejection |
| InboxColumns.RunHandlesMatches | apps/backend/src/webhooks/shopify-webhook.controller.ts:89-150 | the invariant behind it, over every interleaving |
| InboxColumns.RowTellsItsHistory | apps/backend/src/webhooks/webhook-inbox-claim.util.ts:28-58 | after any run payload and headers are the last claim's, the tenant is the last one a claim named, the status is the last write's, and `processedAt` is the last success's since the last claim |
| IntegrationsService.Service.InitConnect | apps/backend/src/integrations/integrations.service.ts:162-263 | every outcome of connect and the exact new state; a refusal changes nothing, and the conflict check answers like the database |
| IntegrationsService.Service.UpsertConnecting | apps/backend/src/integrations/integrations.service.ts:197-229 | the OAuth upsert: a new token and expiry, the old credential kept |
| IntegrationsService.Service.UpsertActive | apps/backend/src/integrations/integrations.service.ts:237-262 | row and credential are written together; the config is replaced only for providers that supply one |
| IntegrationsService.Service.FindFirstLive | apps/backend/src/integrations/integrations.service.ts:183-189 | the group lookup returns some live member, or none if there is none |
| IntegrationsService.Service.FindUniqueByState | apps/backend/src/integrations/integrations.service.ts:435-440 | the lookup by state token finds the one row that has it |
| IntegrationsService.Service.ResolveIntegrationByState | apps/backend/src/integrations/integrations.service.ts:688-694 | found if and only if some row has the token and it has not expired |
| IntegrationsService.Service.AbandonPendingConnect | apps/backend/src/integrations/integrations.service.ts:736-752 | removes exactly a CONNECTING row without a credential |
| IntegrationsService.Service.FailIntegration | apps/backend/src/integrations/integrations.service.ts:807-829 | ERROR without a token, one notice per transition into ERROR, the credential kept |
| IntegrationsService.Service.HandleShopifyCallback | apps/backend/src/integrations/integrations.service.ts:413-582 | the new state in each branch: HMAC, missing fields, expiry, shop mismatch, collision, exchange, webhooks; what that state is, column by column, is `IntegrationColumns.CallTells` |
| IntegrationsService.Service.StoreShopifyToken | apps/backend/src/integrations/integrations.service.ts:516-579 | the exchanged token replaces the stored credential, on a reconnect too; then ACTIVE with the webhook id, or DEGRADED without one |
| IntegrationsService.Service.ShopifyTestConnection | apps/backend/src/integrations/adapters/shopify.adapter.ts:329-374 | passes if and only if the shop answers, an order webhook is registered and live, and a registered cart webhook is live |
| IntegrationsService.Service.HandleZohoCallback | apps/backend/src/integrations/integrations.service.ts:589-686 | the new state in each branch of Zoho's callback |
| IntegrationsService.Service.RunTest | apps/backend/src/integrations/integrations.service.ts:284-341 | ACTIVE if and only if the adapter's checks pass, DEGRADED otherwise, only the check time when the circuit is open |
| IntegrationsService.Service.RunDisconnect | apps/backend/src/integrations/integrations.service.ts:343-374 | removes the row with its credential, and is idempotent |
| IntegrationsService.Service.StoreCredential | apps/backend/src/integrations/integrations.service.ts:405-411 | replaces an existing secret and nothing else |
| IntegrationLifecycle.PutKeepsTokens | apps/backend/src/integrations/integrations.service.ts:198-227 | writing one row keeps tokens unique, minted and not yet exchanged |
| IntegrationLifecycle.RunKeepsTokens | apps/backend/src/integrations/integrations.service.ts:198-227 | every run of calls, crossed callbacks included, keeps the tokens so |
| IntegrationLifecycle.ConnectKeepsGood | apps/backend/src/integrations/integrations.service.ts:181-262 | connect keeps the invariant, group exclusivity included |
| IntegrationLifecycle.ShopifyCallbackKeepsGood | apps/backend/src/integrations/integrations.service.ts:413-582 | every branch of the Shopify callback keeps the invariant, whatever the token was made for |
| IntegrationLifecycle.ZohoCallbackKeepsGood | apps/backend/src/integrations/integrations.service.ts:589-686 | every branch of the Zoho callback keeps the invariant, unless it completes with a token made for Shopify |
| IntegrationLifecycle.CallKeepsGood | apps/backend/src/integrations/integrations.service.ts:162-411 | every other call keeps the invariant too |
| IntegrationLifecycle.CallKeepsGoodUnlessCrossed | apps/backend/src/integrations/integrations.service.ts:589-694 | a call keeps the invariant if and only if it is not a completed Zoho callback with a Shopify token |
| IntegrationLifecycle.CrossedBreaksGood | apps/backend/src/integrations/integrations.service.ts:615-679 | such a callback leaves a Shopify row ACTIVE without an order webhook |
| IntegrationLifecycle.CallbacksCanCross | apps/backend/src/integrations/integrations.service.ts:197-229 | a run from the empty state after which such a callback is possible |
| IntegrationLifecycle.RunKeepsGood | apps/backend/src/integrations/integrations.service.ts:162-829 | so does every run without such a callback |
| IntegrationLifecycle.ReachableRows | apps/backend/src/integrations/integrations.service.ts:302-332 | in every state such a run reaches: ACTIVE Shopify has its order webhook, live has a credential, CONNECTING has a token, a token elsewhere means a live row with a credential, ERROR has no token |
| IntegrationLifecycle.TokensAreSingleUse | apps/backend/src/integrations/integrations.service.ts:454-513 | over any run, crossed callbacks included, no state token reaches a code exchange twice, and an exchanged one is on no row (`state` of section 4.1.1 of RFC 6749) |
| IntegrationLifecycle.GroupLookupIsUnique | apps/backend/src/internal/integration-actions.service.ts:292-301 | in every state such a run reaches a mailer, alert or shipping lookup has one possible answer |
| IntegrationLifecycle.CredentialsOnlyLeaveByDisconnect | apps/backend/src/integrations/integrations.service.ts:736-752 | a stored credential survives a call if and only if the call is not the disconnect of that very row |
| IntegrationLifecycle.LostCredentialsWereDisconnected | apps/backend/src/integrations/integrations.service.ts:343-374 | over any run, a credential that is gone at the end was disconnected on the way |
| IntegrationLifecycle.RowsRemoved | apps/backend/src/integrations/integrations.service.ts:443-458 | a row disappears if and only if it is disconnected, or its callback lacks a code (or shop) or is late while it is CONNECTING without a credential |
| IntegrationUniqueness.OneActivePerShopUnlessPromoted | apps/backend/src/integrations/integrations.service.ts:478-495 | a call keeps at most one ACTIVE row per shop if and only if it is not a passed test of a non-ACTIVE row whose shop another row holds |
| IntegrationUniqueness.TestAndOneActive | apps/backend/src/integrations/integrations.service.ts:307-310 | the same for the test call alone, which repeats no collision check |
| IntegrationUniqueness.CallbackKeepsOneActive | apps/backend/src/integrations/integrations.service.ts:478-562 | the Shopify callback always keeps it |
| IntegrationUniqueness.RunKeepsOneActive | apps/backend/src/integrations/integrations.service.ts:478-562 | a run without such a promotion ends with at most one ACTIVE row per shop |
| IntegrationUniqueness.ShopCanBreak | apps/backend/src/integrations/integrations.service.ts:302-310 | a run from the empty state that ends with two ACTIVE rows for one shop |
| IntegrationUniqueness.OneLiveInventoryUnlessJoined | apps/backend/src/integrations/integrations.service.ts:669-679 | a call keeps one live inventory provider per tenant if and only if it does not make Zoho live beside a live Odoo |
| IntegrationUniqueness.ZohoCallbackAndInventory | apps/backend/src/integrations/integrations.service.ts:589-679 | the same for Zoho's callback alone, which repeats no group check |
| IntegrationUniqueness.RunKeepsOneLiveInventory | apps/backend/src/integrations/integrations.service.ts:181-195 | a run in which Zoho never becomes live beside a live Odoo ends with at most one live inventory provider per tenant |
| IntegrationUniqueness.InventoryCanBreak | apps/backend/src/integrations/integrations.service.ts:669-679 | a run from the empty state that ends with both inventory providers live |
| IntegrationColumns.GroupsAreTheLists | apps/backend/src/integrations/integrations.service.ts:33-62 | the group of a provider is the one whose list names it |
| IntegrationColumns.OneProviderPerKeyGroup | apps/backend/src/integrations/integrations.service.ts:181-195 | in every reachable state a tenant has at most one ACTIVE or DEGRADED provider of each of those lists but the inventory one |
| IntegrationColumns.FoundIffItHasTheToken | apps/backend/src/integrations/integrations.service.ts:435-440 | a state lookup finds a row if and only if the token is not empty and the row has it |
| IntegrationColumns.CallTells | apps/backend/src/integrations/integrations.service.ts:162-829 | every call, in every world: what it comes to, and from that every column of its row, the other rows, notices, audits, tokens and exchanges |
| IntegrationColumns.CredentialIsTheLastGiven | apps/backend/src/integrations/integrations.service.ts:516-522 | over any run the stored credential is the last secret given since the last disconnect: by a callback that passed its guards, an accepted connect, or a rotation |
| IntegrationColumns.StatusIsTheLastGiven | apps/backend/src/integrations/integrations.service.ts:210-227 | over any run a row's status is that of the last call that came to one |
| IntegrationColumns.NoticesTellTheRun | apps/backend/src/integrations/integrations.service.ts:333-338 | the notices of a run are its transitions to ERROR and DEGRADED, in order |
| IntegrationColumns.AuditsTellTheRun | apps/backend/src/integrations/integrations.service.ts:373-374 | its audit rows are its connections and disconnections, in order |
| MembershipServices.ClerkWebhookService.OnMembershipCreated | apps/backend/src/webhooks/clerk-webhook.service.ts:88-134 | throws on an unknown tenant or user, else upserts the resolved role as ACTIVE; nothing if the role was never seeded |
| MembershipServices.ClerkWebhookService.OnMembershipUpdated | apps/backend/src/webhooks/clerk-webhook.service.ts:136-162 | sets the role of an existing membership only |
| MembershipServices.ClerkWebhookService.OnMembershipDeleted | apps/backend/src/webhooks/clerk-webhook.service.ts:164-177 | marks the membership REMOVED, silently ignoring unknown ones; `MembershipColumns.StatusIsTheLastGiven` says what that comes to over runs |
| MembershipServices.ClerkBackend.UpdateMembershipMetadata | apps/backend/src/auth/clerk-backend.service.ts:60-69 | unless it aborts, Clerk's membership gets the new hint and a webhook with the new snapshot is caused, heard or not |
| MembershipServices.ClerkBackend.UpdateMembershipRole | apps/backend/src/auth/clerk-backend.service.ts:49-58 | unless it aborts, Clerk's membership gets the new role and a webhook with the new snapshot is caused, heard or not |
| MembershipServices.MembersService.Invite | apps/backend/src/tenants/members.service.ts:47-74 | the invitation carries the named role as hint; audited only when Clerk is known to have accepted it |
| MembershipServices.MembersService.UpdateRole | apps/backend/src/tenants/members.service.ts:76-127 | each outcome and the exact writes on both sides, wherever a call or a local write fails; every webhook it causes resolves to the new role |
| MembershipServices.MembersService.Remove | apps/backend/src/tenants/members.service.ts:129-150 | an Owner and a foreign membership are refused; the local row is marked only when Clerk's is gone, and stays unmarked although Clerk's is gone exactly when Clerk's answer is lost or the local write aborts |
| MembershipOwners.OwnerIsBorn | apps/backend/src/webhooks/clerk-webhook.service.ts:116-120 | without an Owner hint a seat becomes Owner if and only if it is created as organisation admin, unhinted, while its tenant has no membership row |
| MembershipOwners.OneOwnerUnlessHinted | apps/backend/src/webhooks/clerk-webhook.service.ts:202-214 | an event keeps at most one Owner per tenant if and only if it is not a webhook hinting Owner for a second seat |
| MembershipOwners.SecondOwnerCanBeHinted | apps/backend/src/webhooks/clerk-webhook.service.ts:116-133 | a run from the empty state after which a hinted creation makes a second Owner |
| MembershipOwners.AtMostOneOwner | apps/backend/src/webhooks/clerk-webhook.service.ts:116-133 | at most one Owner per tenant in every run of atomically handled events without an Owner hint |
| MembershipOwners.OwnersOnlyShrink | apps/backend/src/webhooks/clerk-webhook.service.ts:153-161 | once a tenant has a membership, a seat that is not Owner never becomes one over any unhinted run |
| MembershipOwners.DemotedOwnerStaysDemoted | apps/backend/src/webhooks/clerk-webhook.service.ts:153-161 | an `updated` webhook without a hint demotes an Owner, and no unhinted run makes that seat Owner again |
| MembershipOwners.ManagementLeavesOwners | apps/backend/src/tenants/members.service.ts:82-85 | role changes and removals leave every Owner row unchanged, and no role they or an invite can name resolves to Owner (`member-schemas.ts:3-12`) |
| MembershipColumns.ResolveSaysTheName | apps/backend/src/webhooks/clerk-webhook.service.ts:187-214 | the resolved role has the name the hint gives if it names one of the four roles, else the name of Clerk's coarse role |
| MembershipColumns.EventGives | apps/backend/src/webhooks/clerk-webhook.service.ts:88-177 | one event gives a seat exactly the status and role it is accepted to give |
| MembershipColumns.StatusIsTheLastGiven | apps/backend/src/webhooks/clerk-webhook.service.ts:173-176 | over any run a seat is REMOVED after the last accepted deletion or removal, ACTIVE after the last accepted creation, and otherwise what it was |
| MembershipColumns.RoleIsTheLastGiven | apps/backend/src/webhooks/clerk-webhook.service.ts:153-161 | over any run a seat's role is the one last named by an accepted webhook or role change |
| MembershipColumns.AuditsTellTheRun | apps/backend/src/tenants/members.service.ts:124-149 | the audit rows of a run are its accepted role changes and removals, in order |
| MembershipRaces.RacesKeepOneOwnerIff | apps/backend/src/webhooks/clerk-webhook.service.ts:116-133 | for any number of creations, one Owner per tenant at the end of every interleaving of their counts and upserts is certain if and only if no two seats of a tenant are Owner already or would be made so if handled right now |
| MembershipRaces.RunStaysTracked | apps/backend/src/webhooks/clerk-webhook.service.ts:116-133 | over any interleaving every Owner was one before or would have been made one at the start |
| MembershipRaces.BothCanOwn | apps/backend/src/webhooks/clerk-webhook.service.ts:116-133 | any two seats that may own have an interleaving that makes both Owner |
| MembershipRaces.UndisturbedIsAtomic | apps/backend/src/webhooks/clerk-webhook.service.ts:88-134 | a count followed at once by its upsert is the whole handler, its throwing and unseeded cases included |
| RoleSync.EndsWithIffSnapshotsResolve | apps/backend/src/tenants/members.service.ts:97-122 | for either order of the two Clerk calls: every complete run ends with the new role if and only if all snapshots in flight and to come resolve to it |
| RoleSync.GoodSnapshotsSuffice | apps/backend/src/webhooks/clerk-webhook.service.ts:153-161 | any interleaving and duplication of good snapshots ends with the new role |
| RoleSync.BadSnapshotIsDelivered | apps/backend/src/webhooks/clerk-webhook.service.ts:153-161 | any one bad snapshot has a run that ends with its role instead |
| RoleSync.CoarseRoleLosesViewer | apps/backend/src/webhooks/clerk-webhook.service.ts:189-214 | without the hint, Clerk's own role gives back every assignable role but Viewer |
| RoleSync.MetadataFirstIsSafe | apps/backend/src/tenants/members.service.ts:97-113 | metadata first: only snapshots already in flight can spoil the change |
| RoleSync.RoleFirstIsSafeOnlyIf | apps/backend/src/tenants/members.service.ts:97-103 | role first: safe if and only if the old hint already resolves to the new role |
| RoleSync.RoleFirstCanLoseViewer | apps/backend/src/tenants/members.service.ts:97-103 | an unhinted Operator becoming a Viewer: role first has a bad run, metadata first has none |
| RecordsServices.ShopifyWebhookService.HandleOrderCreated | apps/backend/src/webhooks/shopify-webhook.service.ts:13-53 | upsert then append, also when it stops between the two |
| RecordsServices.InternalService.CreateWorkflowRun | apps/backend/src/internal/internal.service.ts:45-73 | refused if and only if the named order is not the tenant's; otherwise one new RUNNING run |
| RecordsServices.InternalService.UpdateOrderStatus | apps/backend/src/internal/internal.service.ts:80-116 | the order is stored under the upper case of the text that was sent, and an `order_failed` entry is added exactly for a failure with a reason |
| RecordsServices.InternalService.UpdateWorkflowRun | apps/backend/src/internal/internal.service.ts:118-154 | read, write, notify: the final status, and a notice exactly when a failure is written over a status read as not FAILED; it may stop before the write or before the notice |
| RecordsServices.InternalService.UpsertWorkflowRunStep | apps/backend/src/internal/internal.service.ts:161-193 | one row per (run, step): attempt 1, then one more each call |
| RecordsServices.InternalService.CreateOrderEvent | apps/backend/src/internal/internal.service.ts:195-212 | the entry carries the order's own tenant, actor `n8n`, and whatever type and payload were sent |
| RecordsServices.OrdersService.OverrideStatus | apps/backend/src/orders/orders.service.ts:70-105 | status, timeline entry and audit row are written together, for an own order only; the status is stored under the text that was sent |
| RecordsModel.WireStatusIsItsText | apps/backend/src/internal/internal.service.ts:18-26 | every wire status is stored under the upper case of its text |
| RecordsModel.ManualStatusIsItsText | apps/backend/src/orders/dto/update-order-status.schema.ts:7-9 | every manual status is stored under its text |
| RecordsHistory.UpsertKeepsCoherence | apps/backend/src/webhooks/shopify-webhook.service.ts:23-40 | ingestion keeps one order per (tenant, Shopify order) and all tenants coherent |
| RecordsHistory.StatusWriteKeepsCoherence | apps/backend/src/internal/internal.service.ts:80-102 | n8n's status call, with its entry, keeps every parent's tenant |
| RecordsHistory.OverrideWriteKeepsCoherence | apps/backend/src/orders/orders.service.ts:70-95 | so does an override |
| RecordsHistory.EntryWriteKeepsCoherence | apps/backend/src/internal/internal.service.ts:195-212 | so do the appended entries of ingestions and event calls |
| RecordsHistory.RunUpdateKeepsCoherence | apps/backend/src/internal/internal.service.ts:118-151 | so does each statement of a run update |
| RecordsHistory.StartRunKeepsCoherence | apps/backend/src/internal/internal.service.ts:45-63 | so does a new run |
| RecordsHistory.RecordStepKeepsCoherence | apps/backend/src/internal/internal.service.ts:161-190 | so does a step call |
| RecordsHistory.StepKeepsCoherence | apps/backend/src/internal/internal.service.ts:45-212 | any one action keeps coherence and extends the history |
| RecordsHistory.HistoryKeepsCoherence | apps/backend/src/internal/internal.service.ts:45-212 | so does any sequence of actions: every run, step, entry and audit row has its parent's tenant |
| RecordsHistory.TimelineIsAppendOnly | apps/backend/src/orders/orders.service.ts:59-65 | what a reader saw of a timeline is a prefix of every later reading |
| RecordsHistory.StepAndEntries | apps/backend/src/webhooks/shopify-webhook.service.ts:42-50 | an `order_received` entry is added by the completion of an ingestion of that order or by an event call of that type, and by nothing else |
| RecordsHistory.ReceiptsAccount | apps/backend/src/webhooks/shopify-webhook.service.ts:42-50 | over any history the `order_received` entries of an order grow by its completed ingestions plus the accepted event calls of that type |
| RecordsHistory.PostedEntriesCount | apps/backend/src/internal/internal.service.ts:195-212 | in every state an event call adds an `order_received` entry without an ingestion, or a `manual_override` entry without an audit row |
| RecordsHistory.ReceiptsCountIngestions | apps/backend/src/webhooks/shopify-webhook.service.ts:42-50 | from the empty store, the `order_received` entries of an order equal its completed ingestions if and only if no event call posted one; those with actor `shopify` always equal them |
| RecordsHistory.ReplayIsStatusSafe | apps/backend/src/webhooks/shopify-webhook.service.ts:23-40 | a replayed delivery changes nothing of the order it made but the raw payload |
| RecordsHistory.StatusWriters | apps/backend/src/internal/internal.service.ts:86-87 | only n8n's status call and the override write a status, and each stores the text it was sent |
| RecordsHistory.StatusIsTheLastWritten | apps/backend/src/webhooks/shopify-webhook.service.ts:23-40 | over any history an order has the status whose text n8n or a human sent last, whatever deliveries are replayed in between |
| RecordsHistory.TrailsGrow | apps/backend/src/orders/orders.service.ts:74-95 | an override adds the same user and content to timeline and audit log, an event call of that type adds to the timeline alone, nothing else adds to either |
| RecordsHistory.TrailsAccount | apps/backend/src/orders/orders.service.ts:74-95 | over any history the timeline's override entries outnumber the audit rows by the posted ones; with none posted they stay equal, and without n8n's own they always stay equal |
| RecordsHistory.TrailsAgreeIffNonePosted | apps/backend/src/orders/orders.service.ts:74-95 | from the empty store, timeline and audit log tell the same overrides if and only if no event call posted one; about every actor but n8n they always agree |
| RecordsHistory.HistoryKeepsExplained | apps/backend/src/orders/orders.service.ts:67-95 | over any history the last audit row explains a COMPLETED or CANCELED status and the timeline has the same entry |
| RecordsHistory.TerminalStatusIsAudited | apps/backend/src/orders/orders.service.ts:67-95 | from the empty store, a COMPLETED or CANCELED order has as its last audit row one that set that status, and a `manual_override` entry by the same user with the same content |
| RecordsHistory.AttemptsCountCalls | apps/backend/src/internal/internal.service.ts:156-190 | over any history a step's attempt equals the calls for it and its status is the latest call's |
| RecordsHistory.StepAndSum | apps/backend/src/internal/internal.service.ts:184-189 | one step call adds one to the attempts of its run and none to any other run's |
| RecordsHistory.AttemptsSumToCalls | apps/backend/src/internal/internal.service.ts:156-190 | the attempts of a run sum to all its step calls |
| RecordsHistory.StepAndNotices | apps/backend/src/internal/internal.service.ts:141-151 | one statement changes notices sent, owed, missed and doubled as it changes the transitions to FAILED |
| RecordsHistory.NoticesAccount | apps/backend/src/internal/internal.service.ts:118-151 | statement by statement over any history: notices sent and owed, plus missed, equal transitions to FAILED plus doubled |
| RecordsHistory.NoticesCountTransitions | apps/backend/src/internal/internal.service.ts:141-151 | once no notice is owed, a run's failure notices equal its transitions to FAILED if and only if as many were missed as were doubled |
| RecordsHistory.ViewsStayFresh | apps/backend/src/internal/internal.service.ts:119-132 | a call's view of its run goes stale only by another call's write to that run |
| RecordsHistory.FreshWritesAreExact | apps/backend/src/internal/internal.service.ts:141-151 | a write with a fresh view neither doubles nor misses |
| RecordsHistory.OverlappingCallsNotifyTwice | apps/backend/src/internal/internal.service.ts:119-151 | from any state with a run that is not FAILED: two overlapping calls give one transition and two notices |
| RecordsColumns.TimelineTellsTheHistory | apps/backend/src/internal/internal.service.ts:92-209 | over any history the timeline gains exactly the rows of the calls, in order, with their type, actor and payload |
| RecordsColumns.AuditsTellTheHistory | apps/backend/src/orders/orders.service.ts:72-94 | and the audit log exactly the overrides, with from, to and reason |
| RecordsColumns.TimelineShowsTheOrdersRows | apps/backend/src/orders/orders.service.ts:59-65 | a reading shows each of the order's rows as often as it is stored, and no other |
| RecordsColumns.OrderIsAsDelivered | apps/backend/src/webhooks/shopify-webhook.service.ts:23-40 | over any history a shop order has the details of its first delivery and the payload of its latest |
| RecordsColumns.FoundIffItIs | apps/backend/src/webhooks/shopify-webhook.service.ts:23-26 | the upsert finds an order if and only if it has these keys |
| RecordsColumns.NewOrdersAreReceived | apps/backend/src/webhooks/shopify-webhook.service.ts:27-30 | a new order is RECEIVED |
| RecordsColumns.RunIsTheLastWritten | apps/backend/src/internal/internal.service.ts:55-132 | over any history a run is as it was started, RUNNING under the given or the default name, or as last written: SUCCEEDED or FAILED with that call's message |
| RecordsColumns.ReadIsRemembered | apps/backend/src/internal/internal.service.ts:118-124 | a run update keeps the status it read |
| RecordsColumns.NoticesTellTheHistory | apps/backend/src/internal/internal.service.ts:145-150 | notices go to the run's tenant, about its order, with the call's message |
| RecordsColumns.StepErrorIsTheLastGiven | apps/backend/src/internal/internal.service.ts:182-189 | a step shows the error of its latest call, and none if that had none |
| RecordsColumns.StepsAreNumberedInOrder | apps/backend/src/internal/dto/create-workflow-run-step.schema.ts:22-31 | each workflow's steps are numbered from 1 in their order, under their labels |
| StepOrder.ListingIgnoresArrival | apps/backend/src/internal/dto/create-workflow-run-step.schema.ts:22-31 | the steps of one workflow are listed in the same order however they arrived |
| StepOrder.MixedWorkflowsCanTie | apps/backend/src/internal/dto/create-workflow-run-step.schema.ts:22-31 | steps of both workflows in one run can tie, so the restriction to one workflow is needed |
| N8nFlow.N8nWorkflowToFlow | apps/frontend/lib/n8n-workflow.ts:57-104 | nodes keep count and order; the edges are those of the flat list of connections |
| N8nFlow.BuildIdByName | apps/frontend/lib/n8n-workflow.ts:58 | the map finds the last node of each name |
| N8nFlow.BuildOutputCounts | apps/frontend/lib/n8n-workflow.ts:64-68 | the map holds the largest port count of each source |
| N8nFlow.BuildNodes | apps/frontend/lib/n8n-workflow.ts:70-78 | node by node, in order |
| N8nFlow.SourceEdges | apps/frontend/lib/n8n-workflow.ts:80-101 | the outer loop, with its skip of dangling sources, refines the flat specification |
| N8nFlow.TargetEdges | apps/frontend/lib/n8n-workflow.ts:88-98 | the innermost loop, with its skip of dangling targets |
| N8nFlow.SourceRefsArePlaced | apps/frontend/lib/n8n-workflow.ts:82-88 | the flat list holds every connection exactly once in (source, type, port, target) order |
| N8nFlow.KeptIsFilteredOrder | apps/frontend/lib/n8n-workflow.ts:82-98 | the edges come from exactly the resolvable connections, each once, in that order |
| N8nFlow.NothingIsLost | apps/frontend/lib/n8n-workflow.ts:84-98 | edges plus dropped connections equal all connections |
| N8nFlow.EdgesAreAnchored | apps/frontend/lib/n8n-workflow.ts:60-98 | every produced edge ends at produced nodes, and some node with its source id renders the handle it leaves by, duplicate names included |
| N8nFlow.ResolvesToLastNode | apps/frontend/lib/n8n-workflow.ts:58-84 | a name resolves to an id if and only if its last node has that id and it is not empty |
| N8nFlow.NodesShowTheirSource | apps/frontend/lib/n8n-workflow.ts:64-78 | a produced node has the id, place, name and type of its own, and renders handle `p` if and only if `p` is 0 or an output port listed under its name |
| N8nFlow.EdgesSpellTheirConnection | apps/frontend/lib/n8n-workflow.ts:86-97 | a produced edge joins the resolved ends of one connection, and its id spells source, port, target and input |
| AddressGuard.DottedVerdict | apps/backend/src/common/security/ssrf-guard.util.ts:6-16 | any IPv4 text is blocked if and only if its 32-bit value is in a listed range (section 3 of RFC 1918 among them) |
| AddressGuard.DottedRoundTrip | apps/backend/src/common/security/ssrf-guard.util.ts:35-39 | printing four octets gives a valid IPv4 text that reads back as the same address |
| AddressGuard.HexPairVerdict | apps/backend/src/common/security/ssrf-guard.util.ts:30-41 | a hex pair is blocked if and only if the address of its low 16-bit groups is in a listed range |
| AddressGuard.MappedTextVerdict | apps/backend/src/common/security/ssrf-guard.util.ts:25-45 | any mapped text, in any letter case, is let through if and only if it is a dotted or hex form of an unlisted address; malformed ones are blocked |
| AddressGuard.MappedHexVerdict | apps/backend/src/common/security/ssrf-guard.util.ts:30-41 | any lower-case hex pair under the mapped prefix, leading zeros included |
| AddressGuard.HexPairRoundTrip | apps/backend/src/common/security/ssrf-guard.util.ts:30-38 | printing two 16-bit groups in hex reads back as the same address |
| AddressGuard.AllFormsAgree | apps/backend/src/common/security/ssrf-guard.util.ts:6-45 | for all octets the plain, mapped dotted and mapped hex forms (section 2.5.5.2 of RFC 4291) get one verdict, which is range membership |
| AddressGuard.IPv4IsItsOctets | apps/backend/src/common/security/ssrf-guard.util.ts:6-16 | an IPv4 text is the print of exactly one address |
| AddressGuard.GroupIsItsDigits | apps/backend/src/common/security/ssrf-guard.util.ts:30-33 | a hex group has the value of the digits it starts with |
| AddressGuard.NoGroupWithoutDigit | apps/backend/src/common/security/ssrf-guard.util.ts:34 | and none if and only if it starts with no digit |
| AddressGuard.VerdictIgnoresCase | apps/backend/src/common/security/ssrf-guard.util.ts:18-19 | texts that differ only in letter case get one verdict |
| AddressGuard.UnmappedVerdict | apps/backend/src/common/security/ssrf-guard.util.ts:47-52 | of the unmapped texts exactly `::1` and those that start with `fc`, `fd` or `fe80` are blocked |
| Stock.ZohoCheckInventory | apps/backend/src/integrations/adapters/zoho-inventory.adapter.ts:169-201 | the least stock when every SKU line is covered, else the first line that is not: its amount, expiry or upstream error |
| Stock.OdooCheckInventory | apps/backend/src/integrations/adapters/odoo.adapter.ts:53-113 | the summed stock when every line is covered, else the first line that is not |
| Stock.VerdictIsUnique | apps/backend/src/integrations/adapters/zoho-inventory.adapter.ts:180-200 | each verdict determines the result, so the loops can compute nothing else |
| Stock.ZohoInStockIffCovered | apps/backend/src/integrations/adapters/zoho-inventory.adapter.ts:175-200 | in stock if and only if every line with a SKU is covered by the provider's stock |
| Stock.OdooInStockIffCovered | apps/backend/src/integrations/adapters/odoo.adapter.ts:78-112 | the same for Odoo on the extracted lines |
| Stock.ZohoAnswers | apps/backend/src/integrations/adapters/zoho-inventory.adapter.ts:180-200 | line by line: the first reply that is no stock, or too little, is the answer; without one, the least stock |
| Stock.OdooAnswers | apps/backend/src/integrations/adapters/odoo.adapter.ts:78-112 | line by line: the first reply that is no stock, or too little, is the answer; without one, the sum of the stocks |
| Stock.CheckableKeepsOrder | apps/backend/src/internal/integration-actions.service.ts:436-441 | the filter keeps the order of the lines |
| Stock.CheckableKeepsSkuLines | apps/backend/src/internal/integration-actions.service.ts:436-441 | the filter keeps exactly the lines with a SKU, each as often as it occurs |
| Stock.RefreshTokenIsKept | apps/backend/src/integrations/adapters/zoho-inventory.adapter.ts:110-131 | over any number of refreshes the refresh token stays, and access token and expiry are the last ones granted |
| Stock.IntegrationActionsService.CheckInventory | apps/backend/src/internal/integration-actions.service.ts:111-161 | at most one refresh and two checks, the second with the refreshed and stored credential, only for Zoho and only after an expiry; storing it may abort, or commit and throw |
| OAuthHmac.SortSorts | apps/backend/src/integrations/adapters/shopify-hmac.util.ts:24-27 | the sort returns an ordered permutation |
| OAuthHmac.StringOrderIsUtf16 | apps/backend/src/integrations/adapters/shopify-hmac.util.ts:24-25 | the order of the sort is lexicographic by UTF-16 code unit |
| OAuthHmac.SameMessage | apps/backend/src/integrations/adapters/shopify-hmac.util.ts:22-27 | the canonical message depends only on the bag of parameters other than `hmac` and `signature` |
| OAuthHmac.MessageSaysItAll | apps/backend/src/integrations/adapters/shopify-hmac.util.ts:22-27 | for parameters without misplaced separators, equal messages mean the same signed keys and values |
| OAuthHmac.VerdictIgnoresOrderAndSignature | apps/backend/src/integrations/adapters/shopify-hmac.util.ts:18-30 | the verdict is the same for any order of the parameters and any `signature` |
| OAuthHmac.AcceptedIffHashed | apps/backend/src/integrations/adapters/shopify-hmac.util.ts:18-30 | a query is accepted if and only if it carries a non-empty hmac that is the keyed hash of its other parameters, `key=value` joined at `&` in any key-sorted arrangement |
| OAuthHmac.AnArrangementExists | apps/backend/src/integrations/adapters/shopify-hmac.util.ts:24-25 | there is such an arrangement |
| OAuthHmac.OneHmacOneMeaning | apps/backend/src/integrations/adapters/shopify-hmac.util.ts:22-29 | under a hash without collisions, accepted queries with one hmac say the same signed keys and values |
| OAuthHmac.AddingASignature | apps/backend/src/integrations/adapters/shopify-hmac.util.ts:22 | appending a `signature` stays within that equivalence |

## Left out

Assumptions of the stateful models:

- InboxControllers.ShopifyWebhookController.Handle: the order and the cart route differ only in the handler they call, so one method stands for both; the handler's own effects are an outcome here and are modelled in the records part.
- IntegrationsService.Service.InitConnect: each service call is one atomic step and state tokens are fresh; provider-name parsing, authorize URLs and redirects are not modelled.
- IntegrationsService.Service.HandleShopifyCallback: encryption, display hints and the wording of most error messages are not modelled; a secret stands for its ciphertext.
- IntegrationsService.Service.RunDisconnect: the best-effort removal of webhooks at Shopify does not change local state and is not modelled.
- MembershipServices.ClerkBackend.UpdateMembershipRole: Clerk is taken to emit one snapshot per change; the `deleted` webhook a removal causes is an event of its own in the runs.
- MembershipOwners.AtMostOneOwner: organisation and user webhooks are reduced to the set of known tenants and users; names, plans and statuses of tenants are not modelled.
- RecordsServices.InternalService.UpdateOrderStatus: the lookup and the writes of the call are one step; ingestion and run updates are split into their statements.
- RecordsServices.OrdersService.OverrideStatus: the lookup and the transaction are one step, so the `from` of an override is never out of date here.
- RecordsServices.InternalService.UpdateWorkflowRun: one notice stands for the notification of every active member; `finishedAt` and the other timestamps are not modelled, so the timeline is in creation order.
- RecordsServices.ShopifyWebhookService.HandleOrderCreated: the customer and amount fields of a delivery are taken as given; how they are picked from the payload is not modelled.
- N8nFlow.N8nWorkflowToFlow: connections come in the order `Object.entries` lists them, and a connection index is an integer.
- AddressGuard.HexPairVerdict: a group that `parseInt` reads through a sign, a space or `0x`, or rounds beyond 2^53, is not modelled; an IPv6 text has none of these.
- AddressGuard.VerdictIgnoresCase: letter case is that of the 26 Latin letters; an IPv6 text has no others.
- AddressGuard.DottedVerdict: numerals `Number` accepts beyond decimal digits are not modelled; an IPv4 text has none.
- Stock.ZohoCheckInventory: quantities are reals; the HTTP exchange is an oracle that answers each lookup.
- Stock.IntegrationActionsService.CheckInventory: the order lookup that precedes the check, and an open circuit, are not modelled; the live provider is an input.
- OAuthHmac.VerdictIgnoresOrderAndSignature: the keyed hash is any function and the constant-time comparison is equality; unpaired surrogates are not modelled.

Not modelled at all:

- DNS lookup and URL parsing around the address guard.
- The circuit breaker, throttling, realtime publishing and the fan-out of notifications.
- `createShipment` and its tracking fields, and the mail, alert and Shopify write-back actions: calls to providers with little local state.
- List endpoints, pagination, seeds and the Clerk synchronisation script.
- The user interface apart from the n8n conversion.
