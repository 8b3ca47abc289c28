/** Orders, their timeline, workflow runs and run steps: one store that the
    webhook ingestion, the internal API and the dashboard all write. */
module RecordsModel {
  import opened Prelude

  datatype OrderStatus =
    | RECEIVED | VALIDATING | VALIDATED | VALIDATION_FAILED | INVENTORY_CHECKED
    | SHIPMENT_CREATED | FULFILLED | NOTIFIED | COMPLETED | FAILED | CANCELED

  /** The statuses n8n may send, and those a human may set. */
  datatype WireStatus =
    | Validated | ValidationFailed | InventoryChecked | ShipmentCreated | Fulfilled | Notified | Failed

  datatype ManualStatus = ToFulfilled | ToNotified | ToCompleted | ToCanceled

  function FromWire(s: WireStatus): OrderStatus {
    match s
    case Validated => VALIDATED
    case ValidationFailed => VALIDATION_FAILED
    case InventoryChecked => INVENTORY_CHECKED
    case ShipmentCreated => SHIPMENT_CREATED
    case Fulfilled => FULFILLED
    case Notified => NOTIFIED
    case Failed => FAILED
  }

  function FromManual(s: ManualStatus): OrderStatus {
    match s
    case ToFulfilled => FULFILLED
    case ToNotified => NOTIFIED
    case ToCompleted => COMPLETED
    case ToCanceled => CANCELED
  }

  datatype Details = Details(email: Option<string>, name: Option<string>, currency: Option<string>, total: Option<string>)

  datatype Order = Order(tenant: string, shopifyOrderId: string, status: OrderStatus, details: Details, rawPayload: string)

  function StatusName(s: OrderStatus): string {
    match s
    case RECEIVED => "RECEIVED"
    case VALIDATING => "VALIDATING"
    case VALIDATED => "VALIDATED"
    case VALIDATION_FAILED => "VALIDATION_FAILED"
    case INVENTORY_CHECKED => "INVENTORY_CHECKED"
    case SHIPMENT_CREATED => "SHIPMENT_CREATED"
    case FULFILLED => "FULFILLED"
    case NOTIFIED => "NOTIFIED"
    case COMPLETED => "COMPLETED"
    case FAILED => "FAILED"
    case CANCELED => "CANCELED"
  }

  // The texts of the two requests, and the enum names they are stored under.

  function WireText(s: WireStatus): string {
    match s
    case Validated => "validated"
    case ValidationFailed => "validation_failed"
    case InventoryChecked => "inventory_checked"
    case ShipmentCreated => "shipment_created"
    case Fulfilled => "fulfilled"
    case Notified => "notified"
    case Failed => "failed"
  }

  function ManualText(s: ManualStatus): string {
    match s
    case ToFulfilled => "FULFILLED"
    case ToNotified => "NOTIFIED"
    case ToCompleted => "COMPLETED"
    case ToCanceled => "CANCELED"
  }

  function UpperChar(c: char): char {
    if 'a' <= c <= 'z' then (c as int - 32) as char else c
  }

  predicate IsUpperOf(name: string, text: string) {
    |name| == |text| && forall i :: 0 <= i < |text| ==> name[i] == UpperChar(text[i])
  }

  lemma LongTexts()
    ensures IsUpperOf("VALIDATION_FAILED", "validation_failed")
    ensures IsUpperOf("INVENTORY_CHECKED", "inventory_checked")
    ensures IsUpperOf("SHIPMENT_CREATED", "shipment_created")
  {
  }

  lemma ShortTexts()
    ensures IsUpperOf("VALIDATED", "validated") && IsUpperOf("FULFILLED", "fulfilled")
    ensures IsUpperOf("NOTIFIED", "notified") && IsUpperOf("FAILED", "failed")
  {
  }

  /** n8n's status is stored under the upper case of its text. */
  lemma WireStatusIsItsText(s: WireStatus)
    ensures IsUpperOf(StatusName(FromWire(s)), WireText(s))
  {
    LongTexts();
    ShortTexts();
  }

  /** A manual status is stored under its own text. */
  lemma ManualStatusIsItsText(s: ManualStatus)
    ensures StatusName(FromManual(s)) == ManualText(s)
  {
  }

  /** No two statuses share a name. */
  lemma NamesDiffer(s: OrderStatus, t: OrderStatus)
    ensures StatusName(s) == StatusName(t) <==> s == t
  {
    var a, b := StatusName(s), StatusName(t);
    assert a == b ==> |a| == |b| && a[0] == b[0] && a[|a| - 1] == b[|b| - 1] && a[2] == b[2] && a[3] == b[3];
  }

  /** The untyped column type of payloads and metadata. */
  datatype Json =
    | JNull
    | JBool(truth: bool)
    | JNumber(number: real)
    | JString(text: string)
    | JArray(items: seq<Json>)
    | JObject(fields: map<string, Json>)

  /** A timeline row as it is stored; who wrote it shows only in its columns. */
  datatype OrderEvent = OrderEvent(order: nat, tenant: string, eventType: string, actor: string, payload: Option<Json>)

  /** An audit row with action `order.status_override`. */
  datatype OverrideAudit = OverrideAudit(tenant: string, user: string, order: nat, metadata: Json)

  /** What an override stores, in the timeline and in the audit log alike. */
  function OverrideMetadata(from: OrderStatus, to: OrderStatus, reason: Option<string>): Json {
    JObject(map["from" := JString(StatusName(from)), "to" := JString(StatusName(to)),
                "reason" := if reason.Some? then JString(reason.value) else JNull])
  }

  datatype RunStatus = RunPending | RunRunning | RunSucceeded | RunFailed | RunCanceled

  datatype Run = Run(tenant: string, order: Option<nat>, correlationId: string, workflowName: string,
                     status: RunStatus, error: Option<string>)

  datatype StepKey =
    | ValidateOrder | CheckInventory | CreateShipment | UpdateShopify
    | NotifySlack | NotifyEmail | CheckCartCheckout | SendCartReminder

  function Sequence(k: StepKey): nat {
    match k
    case ValidateOrder => 1
    case CheckInventory => 2
    case CreateShipment => 3
    case UpdateShopify => 4
    case NotifySlack => 5
    case NotifyEmail => 6
    case CheckCartCheckout => 1
    case SendCartReminder => 2
  }

  function Label(k: StepKey): string {
    match k
    case ValidateOrder => "Validate Order"
    case CheckInventory => "Check Inventory"
    case CreateShipment => "Create Shipment"
    case UpdateShopify => "Update Shopify Order"
    case NotifySlack => "Notify Slack"
    case NotifyEmail => "Notify Email"
    case CheckCartCheckout => "Check Cart Checkout"
    case SendCartReminder => "Send Cart Reminder"
  }

  datatype StepStatus = StepSucceeded | StepFailed | StepSkipped

  datatype Step = Step(tenant: string, caption: string, sequence: nat, status: StepStatus, attempt: nat, error: Option<string>)

  datatype StepId = StepId(run: nat, key: StepKey)

  datatype RunNotice = RunNotice(run: nat, tenant: string, order: Option<nat>, message: Option<string>)

  /** A delivery between its order upsert and its event append. */
  datatype Ingestion = Ingestion(order: nat, tenant: string, shopifyOrderId: string)

  /** A run update between its statements: the status it read, and whether it
      has written and still owes the notification. */
  datatype Finish = Finish(run: nat, completed: bool, message: Option<string>, before: RunStatus, owes: bool)

  datatype World = World(
    orders: map<nat, Order>,
    events: seq<OrderEvent>,
    audits: seq<OverrideAudit>,
    runs: map<nat, Run>,
    steps: map<StepId, Step>,
    notices: seq<RunNotice>,
    nextId: nat,
    ingesting: map<nat, Ingestion>,
    finishing: map<nat, Finish>)

  const EMPTY_WORLD := World(map[], [], [], map[], map[], [], 0, map[], map[])

  // ----- Order ingestion ----------------------------------------------------

  predicate IsOrder(orders: map<nat, Order>, o: nat, tenant: string, shopifyOrderId: string) {
    o in orders && orders[o].tenant == tenant && orders[o].shopifyOrderId == shopifyOrderId
  }

  predicate SameShopOrder(a: Order, b: Order) { a.tenant == b.tenant && a.shopifyOrderId == b.shopifyOrderId }

  /** The unique constraint on (tenantId, shopifyOrderId). */
  ghost predicate UniqueOrders(orders: map<nat, Order>) {
    forall a, b :: a in orders && b in orders && SameShopOrder(orders[a], orders[b]) ==> a == b
  }

  ghost function FindOrder(orders: map<nat, Order>, tenant: string, shopifyOrderId: string): Option<nat> {
    if exists o :: IsOrder(orders, o, tenant, shopifyOrderId)
    then var o :| IsOrder(orders, o, tenant, shopifyOrderId); Some(o)
    else None
  }

  /** The upsert: an order that exists keeps everything but its raw payload. */
  ghost function IngestUpsert(w: World, delivery: nat, tenant: string, shopifyOrderId: string,
                              details: Details, rawPayload: string): World {
    var found := FindOrder(w.orders, tenant, shopifyOrderId);
    var o := found.GetOr(w.nextId);
    var order := if found.Some? && o in w.orders then w.orders[o].(rawPayload := rawPayload)
                 else Order(tenant, shopifyOrderId, RECEIVED, details, rawPayload);
    w.(orders := w.orders[o := order], nextId := if found.Some? then w.nextId else w.nextId + 1,
       ingesting := w.ingesting[delivery := Ingestion(o, tenant, shopifyOrderId)])
  }

  const ORDER_RECEIVED := "order_received"
  const MANUAL_OVERRIDE := "manual_override"
  const SHOPIFY_ACTOR := "shopify"
  const N8N_ACTOR := "n8n"

  function ReceiptPayload(shopifyOrderId: string): Json { JObject(map["shopifyOrderId" := JString(shopifyOrderId)]) }

  function IngestAppend(w: World, delivery: nat): World
    requires delivery in w.ingesting
  {
    var i := w.ingesting[delivery];
    w.(events := w.events + [OrderEvent(i.order, i.tenant, ORDER_RECEIVED, SHOPIFY_ACTOR, Some(ReceiptPayload(i.shopifyOrderId)))],
       ingesting := w.ingesting - {delivery})
  }

  // ----- The internal API ---------------------------------------------------

  predicate OwnsOrder(w: World, tenant: string, o: nat) { o in w.orders && w.orders[o].tenant == tenant }

  function CreateRun(w: World, tenant: string, order: Option<nat>, correlationId: string, name: Option<string>): World {
    if order.Some? && !OwnsOrder(w, tenant, order.value) then w
    else w.(runs := w.runs[w.nextId := Run(tenant, order, correlationId, name.GetOr("order-validation"), RunRunning, None)],
            nextId := w.nextId + 1)
  }

  function UpdateOrderStatus(w: World, o: nat, status: WireStatus, reason: Option<string>): World {
    if o !in w.orders then w
    else
      var order := w.orders[o];
      var note := if status.Failed? && Truthy(reason)
                  then [OrderEvent(o, order.tenant, "order_failed", N8N_ACTOR, Some(JObject(map["reason" := JString(reason.value)])))] else [];
      w.(orders := w.orders[o := order.(status := FromWire(status))], events := w.events + note)
  }

  // A run update in three statements: read the run, write it, notify.

  function ReadRun(w: World, call: nat, r: nat, completed: bool, message: Option<string>): World {
    if r !in w.runs then w
    else w.(finishing := w.finishing[call := Finish(r, completed, message, w.runs[r].status, false)])
  }

  /** The decision to notify looks at the status that was read. */
  function WriteRun(w: World, call: nat): World
    requires call in w.finishing && w.finishing[call].run in w.runs
  {
    var f := w.finishing[call];
    var run := w.runs[f.run].(status := if f.completed then RunSucceeded else RunFailed,
                              error := if Truthy(f.message) then f.message else None);
    w.(runs := w.runs[f.run := run],
       finishing := if !f.completed && !f.before.RunFailed? then w.finishing[call := f.(owes := true)]
                    else w.finishing - {call})
  }

  function NotifyRun(w: World, call: nat): World
    requires call in w.finishing && w.finishing[call].run in w.runs
  {
    var f := w.finishing[call];
    w.(notices := w.notices + [RunNotice(f.run, w.runs[f.run].tenant, w.runs[f.run].order, f.message)],
       finishing := w.finishing - {call})
  }

  function UpsertStep(w: World, r: nat, key: StepKey, status: StepStatus, error: Option<string>): World {
    if r !in w.runs then w
    else
      var id := StepId(r, key);
      var step := if id in w.steps then w.steps[id].(status := status, attempt := w.steps[id].attempt + 1, error := error)
                  else Step(w.runs[r].tenant, Label(key), Sequence(key), status, 1, error);
      w.(steps := w.steps[id := step])
  }

  function Posted(json: Option<map<string, Json>>): Option<Json> {
    if json.Some? then Some(JObject(json.value)) else None
  }

  function CreateOrderEvent(w: World, o: nat, eventType: string, json: Option<map<string, Json>>): World {
    if o !in w.orders then w
    else w.(events := w.events + [OrderEvent(o, w.orders[o].tenant, eventType, N8N_ACTOR, Posted(json))])
  }

  // ----- The dashboard ------------------------------------------------------

  function OverrideStatus(w: World, tenant: string, o: nat, user: string, to: ManualStatus, reason: Option<string>): World {
    if !OwnsOrder(w, tenant, o) then w
    else
      var metadata := OverrideMetadata(w.orders[o].status, FromManual(to), reason);
      w.(orders := w.orders[o := w.orders[o].(status := FromManual(to))],
         events := w.events + [OrderEvent(o, tenant, MANUAL_OVERRIDE, user, Some(metadata))],
         audits := w.audits + [OverrideAudit(tenant, user, o, metadata)])
  }

  /** The order's events, oldest first. */
  function Timeline(events: seq<OrderEvent>, tenant: string, o: nat): seq<OrderEvent>
    decreases events
  {
    if events == [] then []
    else
      var last := events[|events| - 1];
      Timeline(events[..|events| - 1], tenant, o) + if last.order == o && last.tenant == tenant then [last] else []
  }
}
