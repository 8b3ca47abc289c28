/** The writers of the record store as they are written. */
module RecordsServices {
  import opened Prelude
  import opened RecordsModel

  class Database {
    var orders: map<nat, Order>
    var events: seq<OrderEvent>
    var audits: seq<OverrideAudit>
    var runs: map<nat, Run>
    var steps: map<StepId, Step>
    var notices: seq<RunNotice>
    var nextId: nat
    ghost var ingesting: map<nat, Ingestion>
    ghost var finishing: map<nat, Finish>

    ghost function World(): World
      reads this
    {
      RecordsModel.World(orders, events, audits, runs, steps, notices, nextId, ingesting, finishing)
    }

    ghost predicate Valid()
      reads this
    {
      UniqueOrders(orders) && (forall o :: o in orders ==> o < nextId)
    }

    constructor ()
      ensures Valid() && World() == EMPTY_WORLD
    {
      orders, events, audits := map[], [], [];
      runs, steps, notices, nextId := map[], map[], [], 0;
      ingesting, finishing := map[], map[];
    }
  }

  class ShopifyWebhookService {
    const db: Database

    constructor (db: Database)
      ensures this.db == db
    {
      this.db := db;
    }

    /** The two statements of `handleOrderCreated`; `fault` stops after the first.
        `delivery` only names this call in the history. */
    method HandleOrderCreated(ghost delivery: nat, tenant: string, shopifyOrderId: string, details: Details,
                              rawPayload: string, fault: bool) returns (order: Option<nat>)
      requires db.Valid()
      modifies db
      ensures db.Valid()
      ensures var upserted := IngestUpsert(old(db.World()), delivery, tenant, shopifyOrderId, details, rawPayload);
        && db.World() == (if fault then upserted else IngestAppend(upserted, delivery))
        && (order.None? <==> fault)
        && (order.Some? ==> IsOrder(db.orders, order.value, tenant, shopifyOrderId))
    {
      var o;
      if existing :| existing in db.orders && db.orders[existing].tenant == tenant
                     && db.orders[existing].shopifyOrderId == shopifyOrderId {
        o := existing;
        assert IsOrder(db.orders, o, tenant, shopifyOrderId);
        db.orders := db.orders[o := db.orders[o].(rawPayload := rawPayload)];
      } else {
        assert forall x :: !IsOrder(db.orders, x, tenant, shopifyOrderId);
        o := db.nextId;
        db.orders := db.orders[o := Order(tenant, shopifyOrderId, RECEIVED, details, rawPayload)];
        db.nextId := db.nextId + 1;
      }
      db.ingesting := db.ingesting[delivery := Ingestion(o, tenant, shopifyOrderId)];
      if fault { return None; }
      db.events := db.events + [OrderEvent(o, tenant, ORDER_RECEIVED, SHOPIFY_ACTOR,
                                          Some(JObject(map["shopifyOrderId" := JString(shopifyOrderId)])))];
      db.ingesting := db.ingesting - {delivery};
      order := Some(o);
    }
  }

  datatype FinishFault = NoFault | WriteThrows | NotifyThrows

  datatype FinishOutcome = Updated | NotFound | Threw

  class InternalService {
    const db: Database

    constructor (db: Database)
      ensures this.db == db
    {
      this.db := db;
    }

    method CreateWorkflowRun(tenant: string, order: Option<nat>, correlationId: string, name: Option<string>)
      returns (run: Option<nat>)
      requires db.Valid()
      modifies db
      ensures db.Valid() && db.World() == CreateRun(old(db.World()), tenant, order, correlationId, name)
      ensures run == if order.Some? && !OwnsOrder(old(db.World()), tenant, order.value) then None else Some(old(db.nextId))
    {
      if order.Some? {
        if order.value !in db.orders || db.orders[order.value].tenant != tenant { return None; }
      }
      var id := db.nextId;
      var workflowName := "order-validation";
      if name.Some? { workflowName := name.value; }
      db.runs := db.runs[id := Run(tenant, order, correlationId, workflowName, RunRunning, None)];
      db.nextId := id + 1;
      run := Some(id);
    }

    method UpdateOrderStatus(o: nat, status: WireStatus, reason: Option<string>) returns (found: bool)
      requires db.Valid()
      modifies db
      ensures db.Valid() && db.World() == RecordsModel.UpdateOrderStatus(old(db.World()), o, status, reason)
      ensures found <==> o in old(db.orders)
      ensures found ==> o in db.orders && IsUpperOf(StatusName(db.orders[o].status), WireText(status))
    {
      WireStatusIsItsText(status);
      if o !in db.orders { return false; }
      var order := db.orders[o];
      db.orders := db.orders[o := order.(status := FromWire(status))];
      if status.Failed? && Truthy(reason) {
        db.events := db.events + [OrderEvent(o, order.tenant, "order_failed", N8N_ACTOR,
                                            Some(JObject(map["reason" := JString(reason.value)])))];
      }
      found := true;
    }

    /** `fault` stops before the write or before the notification; `call` only
        names this call in the history. */
    method UpdateWorkflowRun(ghost call: nat, r: nat, completed: bool, message: Option<string>, fault: FinishFault)
      returns (o: FinishOutcome)
      requires db.Valid() && call !in db.finishing
      modifies db
      ensures db.Valid()
      ensures var w := old(db.World());
        var read := ReadRun(w, call, r, completed, message);
        if r !in w.runs then o.NotFound? && db.World() == w
        else if fault.WriteThrows? then o.Threw? && db.World() == read
        else
          var written := WriteRun(read, call);
          if completed || w.runs[r].status.RunFailed? then o.Updated? && db.World() == written
          else if fault.NotifyThrows? then o.Threw? && db.World() == written
          else o.Updated? && db.World() == NotifyRun(written, call)
    {
      if r !in db.runs { return NotFound; }
      var run := db.runs[r];
      db.finishing := db.finishing[call := Finish(r, completed, message, run.status, false)];
      if fault.WriteThrows? { return Threw; }
      var newStatus := if completed then RunSucceeded else RunFailed;
      db.runs := db.runs[r := run.(status := newStatus, error := if Truthy(message) then message else None)];
      if newStatus.RunFailed? && !run.status.RunFailed? {
        db.finishing := db.finishing[call := Finish(r, completed, message, run.status, true)];
        if fault.NotifyThrows? { return Threw; }
        db.notices := db.notices + [RunNotice(r, run.tenant, run.order, message)];
      }
      db.finishing := db.finishing - {call};
      o := Updated;
    }

    method UpsertWorkflowRunStep(r: nat, key: StepKey, status: StepStatus, error: Option<string>) returns (found: bool)
      requires db.Valid()
      modifies db
      ensures db.Valid() && db.World() == UpsertStep(old(db.World()), r, key, status, error)
      ensures found <==> r in old(db.runs)
    {
      if r !in db.runs { return false; }
      var id := StepId(r, key);
      if id in db.steps {
        var step := db.steps[id];
        db.steps := db.steps[id := step.(status := status, attempt := step.attempt + 1, error := error)];
      } else {
        db.steps := db.steps[id := Step(db.runs[r].tenant, Label(key), Sequence(key), status, 1, error)];
      }
      found := true;
    }

    method CreateOrderEvent(o: nat, eventType: string, json: Option<map<string, Json>>) returns (found: bool)
      requires db.Valid()
      modifies db
      ensures db.Valid() && db.World() == RecordsModel.CreateOrderEvent(old(db.World()), o, eventType, json)
      ensures found <==> o in old(db.orders)
    {
      if o !in db.orders { return false; }
      var payload := if json.Some? then Some(JObject(json.value)) else None;
      db.events := db.events + [OrderEvent(o, db.orders[o].tenant, eventType, N8N_ACTOR, payload)];
      found := true;
    }
  }

  class OrdersService {
    const db: Database

    constructor (db: Database)
      ensures this.db == db
    {
      this.db := db;
    }

    /** One transaction: the status, the timeline entry and the audit row. */
    method OverrideStatus(tenant: string, o: nat, user: string, to: ManualStatus, reason: Option<string>) returns (found: bool)
      requires db.Valid()
      modifies db
      ensures db.Valid() && db.World() == RecordsModel.OverrideStatus(old(db.World()), tenant, o, user, to, reason)
      ensures found <==> OwnsOrder(old(db.World()), tenant, o)
      ensures found ==> o in db.orders && StatusName(db.orders[o].status) == ManualText(to)
    {
      ManualStatusIsItsText(to);
      if o !in db.orders || db.orders[o].tenant != tenant { return false; }
      var note := if reason.Some? then JString(reason.value) else JNull;
      var metadata := JObject(map["from" := JString(StatusName(db.orders[o].status)),
                                  "to" := JString(StatusName(FromManual(to))), "reason" := note]);
      db.orders := db.orders[o := db.orders[o].(status := FromManual(to))];
      db.events := db.events + [OrderEvent(o, tenant, MANUAL_OVERRIDE, user, Some(metadata))];
      db.audits := db.audits + [OverrideAudit(tenant, user, o, metadata)];
      found := true;
    }
  }
}
