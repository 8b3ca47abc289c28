/** What the rows of the record store say after any history, column by column,
    read off the calls' own inputs. */
module RecordsColumns {
  import opened Prelude
  import opened RecordsModel
  import opened RecordsHistory

  // ----- Timeline and audit log -------------------------------------------------------

  /** The timeline row an action appends. */
  function Appended(w: World, a: Action): seq<OrderEvent> {
    match a
    case Append(d) =>
      if d !in w.ingesting then [] else
      var i := w.ingesting[d];
      [OrderEvent(i.order, i.tenant, "order_received", "shopify",
                  Some(JObject(map["shopifyOrderId" := JString(i.shopifyOrderId)])))]
    case SetStatus(o, wire, reason) =>
      if o in w.orders && WireText(wire) == "failed" && reason != None && reason != Some("") then
        [OrderEvent(o, w.orders[o].tenant, "order_failed", "n8n", Some(JObject(map["reason" := JString(reason.value)])))]
      else []
    case AddEvent(o, eventType, json) =>
      if o in w.orders then
        [OrderEvent(o, w.orders[o].tenant, eventType, "n8n", if json.Some? then Some(JObject(json.value)) else None)]
      else []
    case Override(tenant, o, user, to, reason) =>
      if o in w.orders && w.orders[o].tenant == tenant then
        [OrderEvent(o, tenant, "manual_override", user, Some(Metadata(w.orders[o].status, to, reason)))]
      else []
    case _ => []
  }

  function Metadata(from: OrderStatus, to: ManualStatus, reason: Option<string>): Json {
    JObject(map["from" := JString(StatusName(from)), "to" := JString(ManualText(to)),
                "reason" := if reason == None then JNull else JString(reason.value)])
  }

  function Audited(w: World, a: Action): seq<OverrideAudit> {
    if a.Override? && a.o in w.orders && w.orders[a.o].tenant == a.tenant then
      [OverrideAudit(a.tenant, a.user, a.o, Metadata(w.orders[a.o].status, a.to, a.reason))]
    else []
  }

  lemma FailedText(wire: WireStatus)
    ensures WireText(wire) == "failed" <==> wire == Failed
  {
    assert wire != Failed ==> |WireText(wire)| > 6;
  }

  lemma ActionAppends(w: World, a: Action)
    requires Enabled(w, a)
    ensures Do(w, a).events == w.events + Appended(w, a)
  {
    ConcatNothing(w.events);
    if a.SetStatus? { FailedText(a.wire); }
    if a.Override? { ManualStatusIsItsText(a.to); }
  }

  lemma ActionAudits(w: World, a: Action)
    requires Enabled(w, a)
    ensures Do(w, a).audits == w.audits + Audited(w, a)
  {
    ConcatNothing(w.audits);
    if a.Override? { ManualStatusIsItsText(a.to); }
  }

  ghost function AppendedOver(w: World, acts: seq<Action>): seq<OrderEvent>
    requires Valid(w, acts)
    decreases acts
  {
    if acts == [] then [] else Appended(w, acts[0]) + AppendedOver(Do(w, acts[0]), acts[1..])
  }

  ghost function AuditedOver(w: World, acts: seq<Action>): seq<OverrideAudit>
    requires Valid(w, acts)
    decreases acts
  {
    if acts == [] then [] else Audited(w, acts[0]) + AuditedOver(Do(w, acts[0]), acts[1..])
  }

  /** Over any history the timeline gains exactly the rows of the calls, in order,
      with their type, actor and payload. */
  lemma {:induction false} TimelineTellsTheHistory(w: World, acts: seq<Action>)
    requires Valid(w, acts)
    ensures Exec(w, acts).events == w.events + AppendedOver(w, acts)
    decreases acts
  {
    if acts == [] {
      ConcatNothing(w.events);
    } else {
      var more, rest := Appended(w, acts[0]), AppendedOver(Do(w, acts[0]), acts[1..]);
      ActionAppends(w, acts[0]);
      TimelineTellsTheHistory(Do(w, acts[0]), acts[1..]);
      ConcatAssociates(w.events, more, rest);
    }
  }

  /** And the audit log gains exactly the overrides. */
  lemma {:induction false} AuditsTellTheHistory(w: World, acts: seq<Action>)
    requires Valid(w, acts)
    ensures Exec(w, acts).audits == w.audits + AuditedOver(w, acts)
    decreases acts
  {
    if acts == [] {
      ConcatNothing(w.audits);
    } else {
      var more, rest := Audited(w, acts[0]), AuditedOver(Do(w, acts[0]), acts[1..]);
      ActionAudits(w, acts[0]);
      AuditsTellTheHistory(Do(w, acts[0]), acts[1..]);
      ConcatAssociates(w.audits, more, rest);
    }
  }

  /** A reading of the timeline shows each of the order's rows as often as it is
      stored, and no other row; with the prefix law, in the order of storing. */
  lemma {:induction false} TimelineShowsTheOrdersRows(events: seq<OrderEvent>, tenant: string, o: nat, e: OrderEvent)
    ensures multiset(Timeline(events, tenant, o))[e]
            == if e.order == o && e.tenant == tenant then multiset(events)[e] else 0
    decreases events
  {
    if events != [] {
      TimelineShowsTheOrdersRows(events[..|events| - 1], tenant, o, e);
      assert events == events[..|events| - 1] + [events[|events| - 1]];
    }
  }

  // ----- Orders -------------------------------------------------------------------------

  datatype Content = Content(details: Details, rawPayload: string)

  ghost function ContentOf(w: World, tenant: string, shopifyOrderId: string): Option<Content> {
    var o := FindOrder(w.orders, tenant, shopifyOrderId);
    if o.Some? && o.value in w.orders then Some(Content(w.orders[o.value].details, w.orders[o.value].rawPayload)) else None
  }

  /** The first delivery's details with the latest delivery's payload. */
  function Delivered(a: Action, tenant: string, shopifyOrderId: string, before: Option<Content>): Option<Content> {
    if a.Upsert? && a.tenant == tenant && a.shopifyOrderId == shopifyOrderId then
      Some(Content(if before.Some? then before.value.details else a.details, a.rawPayload))
    else before
  }

  /** A lookup finds an order if and only if it is the one with these keys. */
  lemma FoundIffItIs(w: World, tenant: string, shopifyOrderId: string, o: nat)
    requires Coherent(w)
    ensures FindOrder(w.orders, tenant, shopifyOrderId) == Some(o) <==>
      o in w.orders && w.orders[o].tenant == tenant && w.orders[o].shopifyOrderId == shopifyOrderId
  {
    if o in w.orders && w.orders[o].tenant == tenant && w.orders[o].shopifyOrderId == shopifyOrderId {
      assert IsOrder(w.orders, o, tenant, shopifyOrderId);
      assert forall x :: IsOrder(w.orders, x, tenant, shopifyOrderId) ==> SameShopOrder(w.orders[x], w.orders[o]);
    }
  }

  lemma OthersKeepContent(w: World, a: Action, o: nat)
    requires Coherent(w) && Enabled(w, a) && o in w.orders
    requires a.Upsert? ==> a.tenant != w.orders[o].tenant || a.shopifyOrderId != w.orders[o].shopifyOrderId
    ensures o in Do(w, a).orders && Do(w, a).orders[o].details == w.orders[o].details
            && Do(w, a).orders[o].rawPayload == w.orders[o].rawPayload
  {
    if a.Upsert? {
      var found := FindOrder(w.orders, a.tenant, a.shopifyOrderId);
      assert found.Some? ==> IsOrder(w.orders, found.value, a.tenant, a.shopifyOrderId);
    }
  }

  lemma StepAndContent(w: World, a: Action, tenant: string, shopifyOrderId: string)
    requires Coherent(w) && Enabled(w, a)
    ensures ContentOf(Do(w, a), tenant, shopifyOrderId) == Delivered(a, tenant, shopifyOrderId, ContentOf(w, tenant, shopifyOrderId))
  {
    var w', found := Do(w, a), FindOrder(w.orders, tenant, shopifyOrderId);
    StepKeepsCoherence(w, a);
    if found.Some? {
      FindStays(w, w', tenant, shopifyOrderId);
      if !(a.Upsert? && a.tenant == tenant && a.shopifyOrderId == shopifyOrderId) { OthersKeepContent(w, a, found.value); }
    } else if a.Upsert? && a.tenant == tenant && a.shopifyOrderId == shopifyOrderId {
      FoundIffItIs(w', tenant, shopifyOrderId, w.nextId);
    } else {
      var found' := FindOrder(w'.orders, tenant, shopifyOrderId);
      if found'.Some? {
        assert IsOrder(w'.orders, found'.value, tenant, shopifyOrderId);
        assert !IsOrder(w.orders, found'.value, tenant, shopifyOrderId);
        OnlyUpsertsMakeOrders(w, a, found'.value);
      }
    }
  }

  function LastContent(acts: seq<Action>, tenant: string, shopifyOrderId: string, before: Option<Content>): Option<Content>
    decreases acts
  {
    if acts == [] then before
    else LastContent(acts[1..], tenant, shopifyOrderId, Delivered(acts[0], tenant, shopifyOrderId, before))
  }

  /** Over any history a shop order exists if it was delivered, with the details of
      its first delivery and the payload of its latest. */
  lemma {:induction false} OrderIsAsDelivered(w: World, acts: seq<Action>, tenant: string, shopifyOrderId: string)
    requires Coherent(w) && Valid(w, acts)
    ensures ContentOf(Exec(w, acts), tenant, shopifyOrderId)
            == LastContent(acts, tenant, shopifyOrderId, ContentOf(w, tenant, shopifyOrderId))
    decreases acts
  {
    if acts != [] {
      StepKeepsCoherence(w, acts[0]);
      StepAndContent(w, acts[0], tenant, shopifyOrderId);
      OrderIsAsDelivered(Do(w, acts[0]), acts[1..], tenant, shopifyOrderId);
    }
  }

  /** A new order starts as RECEIVED. */
  lemma NewOrdersAreReceived(w: World, a: Action, o: nat)
    requires Coherent(w) && Enabled(w, a) && o !in w.orders && o in Do(w, a).orders
    ensures a.Upsert? && StatusName(Do(w, a).orders[o].status) == "RECEIVED"
  {
  }

  // ----- Runs and steps ------------------------------------------------------------------

  function RunAt(w: World, r: nat): Option<Run> { if r in w.runs then Some(w.runs[r]) else None }

  /** A run starts RUNNING, under the name it was given or the default one; a write
      leaves SUCCEEDED or FAILED and the call's message, and nothing else. */
  function RunAfter(w: World, a: Action, r: nat, before: Option<Run>): Option<Run> {
    if a.StartRun? && r == w.nextId && (a.order.Some? ==> a.order.value in w.orders && w.orders[a.order.value].tenant == a.tenant) then
      Some(Run(a.tenant, a.order, a.correlationId, if a.name == None then "order-validation" else a.name.value, RunRunning, None))
    else if a.WriteStatus? && a.call in w.finishing && w.finishing[a.call].run == r && before.Some? then
      var f := w.finishing[a.call];
      Some(Run(before.value.tenant, before.value.order, before.value.correlationId, before.value.workflowName,
               if f.completed then RunSucceeded else RunFailed, if f.message == Some("") then None else f.message))
    else before
  }

  ghost function LastRun(w: World, acts: seq<Action>, r: nat, before: Option<Run>): Option<Run>
    requires Valid(w, acts)
    decreases acts
  {
    if acts == [] then before else LastRun(Do(w, acts[0]), acts[1..], r, RunAfter(w, acts[0], r, before))
  }

  lemma {:induction false} RunIsTheLastWritten(w: World, acts: seq<Action>, r: nat)
    requires Valid(w, acts)
    ensures RunAt(Exec(w, acts), r) == LastRun(w, acts, r, RunAt(w, r))
    decreases acts
  {
    if acts != [] {
      StepAndRun(w, acts[0], r);
      RunIsTheLastWritten(Do(w, acts[0]), acts[1..], r);
    }
  }

  lemma StepAndRun(w: World, a: Action, r: nat)
    requires Enabled(w, a)
    ensures RunAt(Do(w, a), r) == RunAfter(w, a, r, RunAt(w, r))
  {
  }

  /** What a run update read is what it writes and notifies. */
  lemma ReadIsRemembered(w: World, a: Action, call: nat)
    requires Enabled(w, a) && a.ReadStatus? && a.call == call
    ensures if a.r in w.runs
            then call in Do(w, a).finishing
                 && Do(w, a).finishing[call] == Finish(a.r, a.completed, a.message, w.runs[a.r].status, false)
            else Do(w, a) == w
  {
  }

  function Noticed(w: World, a: Action): seq<RunNotice> {
    if a.Notify? && a.call in w.finishing && w.finishing[a.call].run in w.runs then
      var f := w.finishing[a.call];
      [RunNotice(f.run, w.runs[f.run].tenant, w.runs[f.run].order, f.message)]
    else []
  }

  ghost function NoticedOver(w: World, acts: seq<Action>): seq<RunNotice>
    requires Valid(w, acts)
    decreases acts
  {
    if acts == [] then [] else Noticed(w, acts[0]) + NoticedOver(Do(w, acts[0]), acts[1..])
  }

  /** Notices go to the run's tenant, about its order, with the call's message. */
  lemma {:induction false} NoticesTellTheHistory(w: World, acts: seq<Action>)
    requires Valid(w, acts)
    ensures Exec(w, acts).notices == w.notices + NoticedOver(w, acts)
    decreases acts
  {
    if acts == [] {
      ConcatNothing(w.notices);
    } else {
      var more, rest := Noticed(w, acts[0]), NoticedOver(Do(w, acts[0]), acts[1..]);
      ActionNotices(w, acts[0]);
      NoticesTellTheHistory(Do(w, acts[0]), acts[1..]);
      ConcatAssociates(w.notices, more, rest);
    }
  }

  lemma ActionNotices(w: World, a: Action)
    requires Enabled(w, a)
    ensures Do(w, a).notices == w.notices + Noticed(w, a)
  {
    assert w.notices + [] == w.notices;
  }

  function ErrorAt(w: World, id: StepId): Option<Option<string>> { if id in w.steps then Some(w.steps[id].error) else None }

  ghost function LastError(w: World, acts: seq<Action>, id: StepId, before: Option<Option<string>>): Option<Option<string>>
    requires Valid(w, acts)
    decreases acts
  {
    if acts == [] then before
    else LastError(Do(w, acts[0]), acts[1..], id,
      if acts[0].RecordStep? && acts[0].r == id.run && acts[0].key == id.key && id.run in w.runs then Some(acts[0].error) else before)
  }

  /** A step shows the error of its latest call, and none if that had none. */
  lemma {:induction false} StepErrorIsTheLastGiven(w: World, acts: seq<Action>, id: StepId)
    requires Valid(w, acts)
    ensures ErrorAt(Exec(w, acts), id) == LastError(w, acts, id, ErrorAt(w, id))
    decreases acts
  {
    if acts != [] {
      StepAndError(w, acts[0], id);
      StepErrorIsTheLastGiven(Do(w, acts[0]), acts[1..], id);
    }
  }

  lemma StepAndError(w: World, a: Action, id: StepId)
    requires Enabled(w, a)
    ensures ErrorAt(Do(w, a), id)
      == if a.RecordStep? && a.r == id.run && a.key == id.key && id.run in w.runs then Some(a.error) else ErrorAt(w, id)
  {
  }

  // ----- The step table --------------------------------------------------------------------

  const ORDER_WORKFLOW := [ValidateOrder, CheckInventory, CreateShipment, UpdateShopify, NotifySlack, NotifyEmail]
  const CART_WORKFLOW := [CheckCartCheckout, SendCartReminder]
  const ORDER_LABELS := ["Validate Order", "Check Inventory", "Create Shipment", "Update Shopify Order", "Notify Slack", "Notify Email"]
  const CART_LABELS := ["Check Cart Checkout", "Send Cart Reminder"]

  /** Each workflow's steps are numbered from 1 in their order. */
  lemma StepsAreNumberedInOrder(i: nat)
    ensures i < |ORDER_WORKFLOW| ==> Sequence(ORDER_WORKFLOW[i]) == i + 1 && Label(ORDER_WORKFLOW[i]) == ORDER_LABELS[i]
    ensures i < |CART_WORKFLOW| ==> Sequence(CART_WORKFLOW[i]) == i + 1 && Label(CART_WORKFLOW[i]) == CART_LABELS[i]
  {
  }
}
