/** What every history of the record store keeps: tenant coherence, append-only
    timelines, idempotent ingestion, and counters that agree with the calls. */
module RecordsHistory {
  import opened Prelude
  import opened RecordsModel

  datatype Action =
    | Upsert(delivery: nat, tenant: string, shopifyOrderId: string, details: Details, rawPayload: string)
    | Append(delivery: nat)
    | StartRun(tenant: string, order: Option<nat>, correlationId: string, name: Option<string>)
    | SetStatus(o: nat, wire: WireStatus, reason: Option<string>)
    | ReadStatus(call: nat, r: nat, completed: bool, message: Option<string>)
    | WriteStatus(call: nat)
    | Notify(call: nat)
    | RecordStep(r: nat, key: StepKey, status: StepStatus, error: Option<string>)
    | AddEvent(o: nat, eventType: string, json: Option<map<string, Json>>)
    | Override(tenant: string, o: nat, user: string, to: ManualStatus, reason: Option<string>)

  predicate UnderWay(w: World, call: nat) { call in w.finishing && w.finishing[call].run in w.runs }

  /** The statements of one ingestion, and of one run update, come in order;
      between them anything may happen. Other calls are one action. */
  predicate Enabled(w: World, a: Action) {
    match a
    case Upsert(delivery, _, _, _, _) => delivery !in w.ingesting
    case Append(delivery) => delivery in w.ingesting
    case ReadStatus(call, _, _, _) => call !in w.finishing
    case WriteStatus(call) => UnderWay(w, call) && !w.finishing[call].owes
    case Notify(call) => UnderWay(w, call) && w.finishing[call].owes
    case _ => true
  }

  ghost function Do(w: World, a: Action): World
    requires Enabled(w, a)
  {
    match a
    case Upsert(d, tenant, id, details, raw) => IngestUpsert(w, d, tenant, id, details, raw)
    case Append(d) => IngestAppend(w, d)
    case StartRun(tenant, order, correlationId, name) => CreateRun(w, tenant, order, correlationId, name)
    case SetStatus(o, wire, reason) => UpdateOrderStatus(w, o, wire, reason)
    case ReadStatus(call, r, completed, message) => ReadRun(w, call, r, completed, message)
    case WriteStatus(call) => WriteRun(w, call)
    case Notify(call) => NotifyRun(w, call)
    case RecordStep(r, key, status, error) => UpsertStep(w, r, key, status, error)
    case AddEvent(o, eventType, json) => CreateOrderEvent(w, o, eventType, json)
    case Override(tenant, o, user, to, reason) => OverrideStatus(w, tenant, o, user, to, reason)
  }

  ghost predicate Valid(w: World, acts: seq<Action>)
    decreases acts
  {
    acts == [] || (Enabled(w, acts[0]) && Valid(Do(w, acts[0]), acts[1..]))
  }

  ghost function Exec(w: World, acts: seq<Action>): World
    requires Valid(w, acts)
    decreases acts
  {
    if acts == [] then w else Exec(Do(w, acts[0]), acts[1..])
  }

  // ----- Coherence ----------------------------------------------------------

  predicate EventGood(w: World, e: OrderEvent) { OwnsOrder(w, e.tenant, e.order) }

  predicate RunGood(w: World, run: Run) { run.order.Some? ==> OwnsOrder(w, run.tenant, run.order.value) }

  predicate StepGood(w: World, id: StepId, step: Step) {
    && id.run in w.runs && step.tenant == w.runs[id.run].tenant
    && step.caption == Label(id.key) && step.sequence == Sequence(id.key) && step.attempt >= 1
  }

  /** Every event, run, step and audit row carries the tenant of its parent. */
  ghost predicate Coherent(w: World) {
    && UniqueOrders(w.orders)
    && (forall o :: o in w.orders ==> o < w.nextId)
    && (forall r :: r in w.runs ==> r < w.nextId)
    && (forall i :: 0 <= i < |w.events| ==> EventGood(w, w.events[i]))
    && (forall i :: 0 <= i < |w.audits| ==> OwnsOrder(w, w.audits[i].tenant, w.audits[i].order))
    && (forall r :: r in w.runs ==> RunGood(w, w.runs[r]))
    && (forall id :: id in w.steps ==> StepGood(w, id, w.steps[id]))
    && (forall d :: d in w.ingesting ==>
          IsOrder(w.orders, w.ingesting[d].order, w.ingesting[d].tenant, w.ingesting[d].shopifyOrderId))
    && (forall c :: c in w.finishing ==> w.finishing[c].run in w.runs)
  }

  /** Orders and runs keep their identity and their owner, and the timeline and
      the audit log only grow. */
  ghost predicate Extends(w: World, w': World) {
    && (forall o :: o in w.orders ==> IsOrder(w'.orders, o, w.orders[o].tenant, w.orders[o].shopifyOrderId))
    && (forall r :: r in w.runs ==> r in w'.runs && w'.runs[r].tenant == w.runs[r].tenant && w'.runs[r].order == w.runs[r].order)
    && w.events <= w'.events
    && w.audits <= w'.audits
    && w.notices <= w'.notices
  }

  /** One action appends at most one event and one audit row. */
  lemma AppendedEntries(w: World, a: Action)
    requires Enabled(w, a)
    ensures var w' := Do(w, a);
      && (w'.events == w.events || (|w'.events| == |w.events| + 1 && w'.events[..|w.events|] == w.events))
      && (w'.audits == w.audits || (|w'.audits| == |w.audits| + 1 && w'.audits[..|w.audits|] == w.audits))
      && (w'.notices == w.notices || (|w'.notices| == |w.notices| + 1 && w'.notices[..|w.notices|] == w.notices))
  {
  }

  lemma OrdersStay(w: World, a: Action, o: nat)
    requires Enabled(w, a) && o in w.orders
    ensures IsOrder(Do(w, a).orders, o, w.orders[o].tenant, w.orders[o].shopifyOrderId) || (a.Upsert? && o == w.nextId)
  {
  }

  lemma RunsStay(w: World, a: Action, r: nat)
    requires Enabled(w, a) && r in w.runs && r < w.nextId
    ensures r in Do(w, a).runs
    ensures Do(w, a).runs[r].tenant == w.runs[r].tenant && Do(w, a).runs[r].order == w.runs[r].order
  {
  }

  lemma StepExtends(w: World, a: Action)
    requires Coherent(w) && Enabled(w, a)
    ensures Extends(w, Do(w, a))
  {
    AppendedEntries(w, a);
    forall o | o in w.orders
      ensures IsOrder(Do(w, a).orders, o, w.orders[o].tenant, w.orders[o].shopifyOrderId)
    {
      OrdersStay(w, a, o);
    }
    forall r | r in w.runs
      ensures r in Do(w, a).runs && Do(w, a).runs[r].tenant == w.runs[r].tenant && Do(w, a).runs[r].order == w.runs[r].order
    {
      RunsStay(w, a, r);
    }
  }

  lemma OldEntriesStayGood(w: World, w': World)
    requires Coherent(w) && Extends(w, w')
    ensures forall e :: EventGood(w, e) ==> EventGood(w', e)
    ensures forall i :: 0 <= i < |w.events| ==> EventGood(w', w.events[i])
    ensures forall i :: 0 <= i < |w.audits| ==> OwnsOrder(w', w.audits[i].tenant, w.audits[i].order)
    ensures forall r :: r in w.runs ==> RunGood(w', w.runs[r])
    ensures forall id :: id in w.steps ==> StepGood(w', id, w.steps[id])
    ensures forall d :: d in w.ingesting ==>
      IsOrder(w'.orders, w.ingesting[d].order, w.ingesting[d].tenant, w.ingesting[d].shopifyOrderId)
  {
  }

  lemma UpsertKeepsCoherence(w: World, a: Action)
    requires a.Upsert? && Coherent(w) && Enabled(w, a)
    ensures Coherent(Do(w, a))
  {
    var w' := Do(w, a);
    StepExtends(w, a);
    OldEntriesStayGood(w, w');
    if FindOrder(w.orders, a.tenant, a.shopifyOrderId).None? {
      forall o | o in w.orders
        ensures !SameShopOrder(w.orders[o], w'.orders[w.nextId])
      {
        assert !IsOrder(w.orders, o, a.tenant, a.shopifyOrderId);
      }
    }
  }

  /** Orders may change in all but their identity, and what is appended is good. */
  lemma AppendingKeepsCoherence(w: World, w': World)
    requires Coherent(w) && Extends(w, w')
    requires w'.orders.Keys == w.orders.Keys && w'.nextId == w.nextId && w'.ingesting.Keys <= w.ingesting.Keys
    requires forall d :: d in w'.ingesting ==> w'.ingesting[d] == w.ingesting[d]
    requires w'.runs == w.runs && w'.steps == w.steps && w'.finishing == w.finishing
    requires forall i :: |w.events| <= i < |w'.events| ==> EventGood(w, w'.events[i])
    requires forall i :: |w.audits| <= i < |w'.audits| ==> OwnsOrder(w, w'.audits[i].tenant, w'.audits[i].order)
    ensures Coherent(w')
  {
    OldEntriesStayGood(w, w');
    forall a, b | a in w'.orders && b in w'.orders && SameShopOrder(w'.orders[a], w'.orders[b])
      ensures a == b
    {
      assert SameShopOrder(w.orders[a], w.orders[b]);
    }
  }

  lemma EntryWriteKeepsCoherence(w: World, a: Action)
    requires (a.AddEvent? || a.Append?) && Coherent(w) && Enabled(w, a)
    ensures Coherent(Do(w, a))
  {
    StepExtends(w, a);
    AppendingKeepsCoherence(w, Do(w, a));
  }

  lemma StatusWriteKeepsCoherence(w: World, a: Action)
    requires a.SetStatus? && Coherent(w) && Enabled(w, a)
    ensures Coherent(Do(w, a))
  {
    StepExtends(w, a);
    AppendingKeepsCoherence(w, Do(w, a));
  }

  lemma OverrideWriteKeepsCoherence(w: World, a: Action)
    requires a.Override? && Coherent(w) && Enabled(w, a)
    ensures Coherent(Do(w, a))
  {
    StepExtends(w, a);
    AppendingKeepsCoherence(w, Do(w, a));
  }

  lemma RunUpdateKeepsCoherence(w: World, a: Action)
    requires (a.ReadStatus? || a.WriteStatus? || a.Notify?) && Coherent(w) && Enabled(w, a)
    ensures Coherent(Do(w, a))
  {
    StepExtends(w, a);
    OldEntriesStayGood(w, Do(w, a));
  }

  lemma StartRunKeepsCoherence(w: World, a: Action)
    requires a.StartRun? && Coherent(w) && Enabled(w, a)
    ensures Coherent(Do(w, a))
  {
    StepExtends(w, a);
    OldEntriesStayGood(w, Do(w, a));
  }

  lemma RecordStepKeepsCoherence(w: World, a: Action)
    requires a.RecordStep? && Coherent(w) && Enabled(w, a)
    ensures Coherent(Do(w, a))
  {
    StepExtends(w, a);
    OldEntriesStayGood(w, Do(w, a));
  }

  lemma StepKeepsCoherence(w: World, a: Action)
    requires Coherent(w) && Enabled(w, a)
    ensures Coherent(Do(w, a)) && Extends(w, Do(w, a))
  {
    StepExtends(w, a);
    match a
    case Upsert(_, _, _, _, _) => UpsertKeepsCoherence(w, a);
    case StartRun(_, _, _, _) => StartRunKeepsCoherence(w, a);
    case RecordStep(_, _, _, _) => RecordStepKeepsCoherence(w, a);
    case SetStatus(_, _, _) => StatusWriteKeepsCoherence(w, a);
    case Override(_, _, _, _, _) => OverrideWriteKeepsCoherence(w, a);
    case Append(_) => EntryWriteKeepsCoherence(w, a);
    case AddEvent(_, _, _) => EntryWriteKeepsCoherence(w, a);
    case _ => RunUpdateKeepsCoherence(w, a);
  }

  lemma {:induction false} HistoryKeepsCoherence(w: World, acts: seq<Action>)
    requires Coherent(w) && Valid(w, acts)
    ensures Coherent(Exec(w, acts)) && Extends(w, Exec(w, acts))
    decreases acts
  {
    if acts != [] {
      StepKeepsCoherence(w, acts[0]);
      HistoryKeepsCoherence(Do(w, acts[0]), acts[1..]);
    }
  }

  lemma {:induction false} TimelineGrows(events: seq<OrderEvent>, more: seq<OrderEvent>, tenant: string, o: nat)
    ensures Timeline(events, tenant, o) <= Timeline(events + more, tenant, o)
    decreases more
  {
    if more == [] {
      assert events + more == events;
    } else {
      assert (events + more)[..|events + more| - 1] == events + more[..|more| - 1];
      TimelineGrows(events, more[..|more| - 1], tenant, o);
    }
  }

  /** What a reader has seen of a timeline stays its beginning for ever. */
  lemma TimelineIsAppendOnly(w: World, acts: seq<Action>, tenant: string, o: nat)
    requires Coherent(w) && Valid(w, acts)
    ensures Timeline(w.events, tenant, o) <= Timeline(Exec(w, acts).events, tenant, o)
  {
    HistoryKeepsCoherence(w, acts);
    var events' := Exec(w, acts).events;
    assert events' == w.events + events'[|w.events|..];
    TimelineGrows(w.events, events'[|w.events|..], tenant, o);
  }

  // ----- Ingestion ----------------------------------------------------------

  predicate IsEntry(e: OrderEvent, o: nat, eventType: string) { e.order == o && e.eventType == eventType }

  /** The timeline rows of an order with an event type, whoever wrote them. */
  function Entries(events: seq<OrderEvent>, o: nat, eventType: string): nat
    decreases events
  {
    if events == [] then 0
    else Entries(events[..|events| - 1], o, eventType) + if IsEntry(events[|events| - 1], o, eventType) then 1 else 0
  }

  /** Those of them with a given actor. */
  function EntriesBy(events: seq<OrderEvent>, o: nat, eventType: string, actor: string): nat
    decreases events
  {
    if events == [] then 0
    else
      var last := events[|events| - 1];
      EntriesBy(events[..|events| - 1], o, eventType, actor)
      + if IsEntry(last, o, eventType) && last.actor == actor then 1 else 0
  }

  /** The rows of one event type of a shop order, of which there may be none yet. */
  ghost function EntriesOf(w: World, tenant: string, shopifyOrderId: string, eventType: string): nat {
    var o := FindOrder(w.orders, tenant, shopifyOrderId);
    if o.None? then 0 else Entries(w.events, o.value, eventType)
  }

  ghost function ShopifyReceipts(w: World, tenant: string, shopifyOrderId: string): nat {
    var o := FindOrder(w.orders, tenant, shopifyOrderId);
    if o.None? then 0 else EntriesBy(w.events, o.value, ORDER_RECEIVED, SHOPIFY_ACTOR)
  }

  predicate CompletesOne(w: World, a: Action, tenant: string, shopifyOrderId: string)
    requires Enabled(w, a)
  {
    a.Append? && w.ingesting[a.delivery].tenant == tenant && w.ingesting[a.delivery].shopifyOrderId == shopifyOrderId
  }

  /** n8n posts an entry of that type for that order, and the order exists. */
  predicate PostsOne(w: World, a: Action, tenant: string, shopifyOrderId: string, eventType: string) {
    a.AddEvent? && a.eventType == eventType && IsOrder(w.orders, a.o, tenant, shopifyOrderId)
  }

  /** The ingestions of one shop order that ran to their end in a history. */
  ghost function Completed(w: World, acts: seq<Action>, tenant: string, shopifyOrderId: string): nat
    requires Valid(w, acts)
    decreases acts
  {
    if acts == [] then 0
    else (if CompletesOne(w, acts[0], tenant, shopifyOrderId) then 1 else 0)
         + Completed(Do(w, acts[0]), acts[1..], tenant, shopifyOrderId)
  }

  /** The accepted event calls of one type for one shop order in a history. */
  ghost function PostedCalls(w: World, acts: seq<Action>, tenant: string, shopifyOrderId: string, eventType: string): nat
    requires Valid(w, acts)
    decreases acts
  {
    if acts == [] then 0
    else (if PostsOne(w, acts[0], tenant, shopifyOrderId, eventType) then 1 else 0)
         + PostedCalls(Do(w, acts[0]), acts[1..], tenant, shopifyOrderId, eventType)
  }

  lemma FindStays(w: World, w': World, tenant: string, shopifyOrderId: string)
    requires Coherent(w) && Coherent(w') && Extends(w, w') && FindOrder(w.orders, tenant, shopifyOrderId).Some?
    ensures FindOrder(w'.orders, tenant, shopifyOrderId) == FindOrder(w.orders, tenant, shopifyOrderId)
  {
  }

  lemma {:induction false} NoEntriesYet(w: World, events: seq<OrderEvent>, o: nat, eventType: string)
    requires o !in w.orders && forall i :: 0 <= i < |events| ==> EventGood(w, events[i])
    ensures Entries(events, o, eventType) == 0 && EntriesBy(events, o, eventType, SHOPIFY_ACTOR) == 0
    decreases events
  {
    if events != [] {
      assert EventGood(w, events[|events| - 1]);
      NoEntriesYet(w, events[..|events| - 1], o, eventType);
    }
  }

  lemma IngestionsMatchOrders(w: World, a: Action, o: nat)
    requires Coherent(w) && Enabled(w, a) && o in w.orders
    ensures a.Append? ==>
      (CompletesOne(w, a, w.orders[o].tenant, w.orders[o].shopifyOrderId) <==> w.ingesting[a.delivery].order == o)
    ensures a.AddEvent? && a.o in w.orders ==>
      (IsOrder(w.orders, a.o, w.orders[o].tenant, w.orders[o].shopifyOrderId) <==> a.o == o)
  {
    if a.Append? {
      var i := w.ingesting[a.delivery];
      assert IsOrder(w.orders, i.order, i.tenant, i.shopifyOrderId);
      assert SameShopOrder(w.orders[i.order], w.orders[o]) <==> i.order == o;
    }
    assert a.AddEvent? && a.o in w.orders ==> (SameShopOrder(w.orders[a.o], w.orders[o]) <==> a.o == o);
  }

  /** Per order: an ingestion's append and an event call each add one entry. */
  lemma StepAndEntriesOfOrder(w: World, a: Action, o: nat)
    requires Coherent(w) && Enabled(w, a) && o in w.orders
    ensures var order, events' := w.orders[o], Do(w, a).events;
      var done := if CompletesOne(w, a, order.tenant, order.shopifyOrderId) then 1 else 0;
      && Entries(events', o, ORDER_RECEIVED) == Entries(w.events, o, ORDER_RECEIVED) + done
           + (if PostsOne(w, a, order.tenant, order.shopifyOrderId, ORDER_RECEIVED) then 1 else 0)
      && EntriesBy(events', o, ORDER_RECEIVED, SHOPIFY_ACTOR) == EntriesBy(w.events, o, ORDER_RECEIVED, SHOPIFY_ACTOR) + done
  {
    AppendedEntries(w, a);
    IngestionsMatchOrders(w, a, o);
  }

  lemma StepAndEntries(w: World, a: Action, tenant: string, shopifyOrderId: string)
    requires Coherent(w) && Enabled(w, a)
    ensures var w' := Do(w, a);
      var done := if CompletesOne(w, a, tenant, shopifyOrderId) then 1 else 0;
      && EntriesOf(w', tenant, shopifyOrderId, ORDER_RECEIVED) == EntriesOf(w, tenant, shopifyOrderId, ORDER_RECEIVED) + done
           + (if PostsOne(w, a, tenant, shopifyOrderId, ORDER_RECEIVED) then 1 else 0)
      && ShopifyReceipts(w', tenant, shopifyOrderId) == ShopifyReceipts(w, tenant, shopifyOrderId) + done
  {
    var w' := Do(w, a);
    var before, after := FindOrder(w.orders, tenant, shopifyOrderId), FindOrder(w'.orders, tenant, shopifyOrderId);
    if before.Some? {
      StepKeepsCoherence(w, a);
      FindStays(w, w', tenant, shopifyOrderId);
      StepAndEntriesOfOrder(w, a, before.value);
    } else {
      if a.Append? {
        var i := w.ingesting[a.delivery];
        assert IsOrder(w.orders, i.order, i.tenant, i.shopifyOrderId);
      }
      if after.Some? {
        assert IsOrder(w'.orders, after.value, tenant, shopifyOrderId);
        assert !IsOrder(w.orders, after.value, tenant, shopifyOrderId);
        OnlyUpsertsMakeOrders(w, a, after.value);
        NoEntriesYet(w, w.events, after.value, ORDER_RECEIVED);
      }
    }
  }

  lemma OnlyUpsertsMakeOrders(w: World, a: Action, o: nat)
    requires Enabled(w, a) && o in Do(w, a).orders
    requires !(o in w.orders && SameShopOrder(w.orders[o], Do(w, a).orders[o]))
    ensures a.Upsert? && Do(w, a).events == w.events
    ensures Coherent(w) ==> o !in w.orders
  {
  }

  /** Over any history the `order_received` entries of an order are its completed
      ingestions plus the entries n8n posted under that type. */
  lemma {:induction false} ReceiptsAccount(w: World, acts: seq<Action>, tenant: string, shopifyOrderId: string)
    requires Coherent(w) && Valid(w, acts)
    ensures EntriesOf(Exec(w, acts), tenant, shopifyOrderId, ORDER_RECEIVED)
            == EntriesOf(w, tenant, shopifyOrderId, ORDER_RECEIVED) + Completed(w, acts, tenant, shopifyOrderId)
               + PostedCalls(w, acts, tenant, shopifyOrderId, ORDER_RECEIVED)
    ensures ShopifyReceipts(Exec(w, acts), tenant, shopifyOrderId)
            == ShopifyReceipts(w, tenant, shopifyOrderId) + Completed(w, acts, tenant, shopifyOrderId)
    decreases acts
  {
    if acts != [] {
      StepKeepsCoherence(w, acts[0]);
      StepAndEntries(w, acts[0], tenant, shopifyOrderId);
      ReceiptsAccount(Do(w, acts[0]), acts[1..], tenant, shopifyOrderId);
    }
  }

  /** From the empty store: the entries equal the completed ingestions if and
      only if n8n never posted one; those with actor `shopify` always do. */
  lemma ReceiptsCountIngestions(acts: seq<Action>, tenant: string, shopifyOrderId: string)
    requires Valid(EMPTY_WORLD, acts)
    ensures var w, done := Exec(EMPTY_WORLD, acts), Completed(EMPTY_WORLD, acts, tenant, shopifyOrderId);
      && (EntriesOf(w, tenant, shopifyOrderId, ORDER_RECEIVED) == done <==>
            PostedCalls(EMPTY_WORLD, acts, tenant, shopifyOrderId, ORDER_RECEIVED) == 0)
      && ShopifyReceipts(w, tenant, shopifyOrderId) == done
  {
    ReceiptsAccount(EMPTY_WORLD, acts, tenant, shopifyOrderId);
  }

  /** In every state: one accepted event call adds an `order_received` entry, or
      an override entry, without an ingestion and without an audit row. */
  lemma PostedEntriesCount(w: World, o: nat, json: Option<map<string, Json>>)
    requires o in w.orders
    ensures var order, w' := w.orders[o], Do(w, AddEvent(o, ORDER_RECEIVED, json));
      && !CompletesOne(w, AddEvent(o, ORDER_RECEIVED, json), order.tenant, order.shopifyOrderId)
      && Entries(w'.events, o, ORDER_RECEIVED) == Entries(w.events, o, ORDER_RECEIVED) + 1
    ensures var w' := Do(w, AddEvent(o, MANUAL_OVERRIDE, json));
      && w'.audits == w.audits
      && TimelineTrail(w'.events, o) == TimelineTrail(w.events, o) + [Said(N8N_ACTOR, Posted(json))]
  {
    AppendedEntries(w, AddEvent(o, ORDER_RECEIVED, json));
    AppendedEntries(w, AddEvent(o, MANUAL_OVERRIDE, json));
  }

  /** A replayed delivery finds the order it made and changes nothing of it but
      the raw payload; in particular never its status. */
  lemma ReplayIsStatusSafe(w: World, a: Action, o: nat)
    requires Coherent(w) && Enabled(w, a) && (a.Upsert? || a.Append?) && o in w.orders
    ensures o in Do(w, a).orders
    ensures Do(w, a).orders[o] == w.orders[o].(rawPayload := Do(w, a).orders[o].rawPayload)
    ensures a.Upsert? && IsOrder(w.orders, o, a.tenant, a.shopifyOrderId) ==>
      Do(w, a).orders == w.orders[o := w.orders[o].(rawPayload := a.rawPayload)]
  {
  }

  // ----- Overrides ----------------------------------------------------------

  /** Who said what: a row's actor or user, and its payload or metadata. */
  datatype Saying = Said(who: string, what: Option<Json>)

  /** The override entries of an order, as its timeline stores them. */
  function TimelineTrail(events: seq<OrderEvent>, o: nat): seq<Saying>
    decreases events
  {
    if events == [] then []
    else
      var e := events[|events| - 1];
      TimelineTrail(events[..|events| - 1], o) + if IsEntry(e, o, MANUAL_OVERRIDE) then [Said(e.actor, e.payload)] else []
  }

  /** The override rows of an order, as the audit log stores them. */
  function AuditTrail(audits: seq<OverrideAudit>, o: nat): seq<Saying>
    decreases audits
  {
    if audits == [] then []
    else
      var audit := audits[|audits| - 1];
      AuditTrail(audits[..|audits| - 1], o) + if audit.order == o then [Said(audit.user, Some(audit.metadata))] else []
  }

  /** Without the sayings of n8n. */
  function Human(trail: seq<Saying>): seq<Saying>
    decreases trail
  {
    if trail == [] then []
    else Human(trail[..|trail| - 1]) + if trail[|trail| - 1].who != N8N_ACTOR then [trail[|trail| - 1]] else []
  }

  lemma HumanOfMore(trail: seq<Saying>, more: seq<Saying>)
    requires |more| <= 1
    ensures Human(trail + more) == Human(trail) + Human(more)
  {
    if more == [] {
      assert trail + more == trail;
    } else {
      assert (trail + more)[..|trail|] == trail;
    }
  }

  predicate OnlyHuman(s: OrderStatus) { s.COMPLETED? || s.CANCELED? }

  /** The saying is an override that sets `status`. */
  predicate Sets(said: Saying, status: OrderStatus) {
    && said.what.Some? && said.what.value.JObject?
    && "to" in said.what.value.fields && said.what.value.fields["to"] == JString(StatusName(status))
  }

  /** A status only a human can set is what the last audit row set, and the
      timeline has the same entry by the same user. */
  predicate TrailsExplain(timeline: seq<Saying>, audit: seq<Saying>, status: OrderStatus) {
    OnlyHuman(status) ==> audit != [] && Sets(audit[|audit| - 1], status) && audit[|audit| - 1] in timeline
  }

  ghost predicate Explained(w: World, o: nat) {
    o in w.orders ==> TrailsExplain(TimelineTrail(w.events, o), AuditTrail(w.audits, o), w.orders[o].status)
  }

  lemma StatusChanges(w: World, a: Action, o: nat)
    requires Coherent(w) && Enabled(w, a) && o in w.orders
    ensures o in Do(w, a).orders
    ensures Do(w, a).orders[o].status == if a.SetStatus? && a.o == o then FromWire(a.wire)
      else if a.Override? && a.o == o && OwnsOrder(w, a.tenant, o) then FromManual(a.to) else w.orders[o].status
  {
    if a.Upsert? { ReplayIsStatusSafe(w, a, o); }
  }

  /** Only n8n's call and the override write a status, and each stores the text it
      was sent; every other action leaves an order's status alone. */
  lemma StatusWriters(w: World, a: Action, o: nat)
    requires Coherent(w) && Enabled(w, a) && o in w.orders
    ensures o in Do(w, a).orders
    ensures var status := Do(w, a).orders[o].status;
      if a.SetStatus? && a.o == o then IsUpperOf(StatusName(status), WireText(a.wire))
      else if a.Override? && a.o == o && w.orders[o].tenant == a.tenant then StatusName(status) == ManualText(a.to)
      else status == w.orders[o].status
  {
    StatusChanges(w, a, o);
    if a.SetStatus? { WireStatusIsItsText(a.wire); }
    if a.Override? { ManualStatusIsItsText(a.to); }
  }

  /** The last text an order's status was set to: n8n's, or a human's. */
  datatype StatusText = Wire(text: string) | Manual(text: string)

  ghost function LastText(w: World, acts: seq<Action>, o: nat): Option<StatusText>
    requires Valid(w, acts)
    decreases acts
  {
    if acts == [] then None
    else
      var later := LastText(Do(w, acts[0]), acts[1..], o);
      if later.Some? then later
      else if acts[0].SetStatus? && acts[0].o == o then Some(Wire(WireText(acts[0].wire)))
      else if acts[0].Override? && acts[0].o == o && o in w.orders && w.orders[o].tenant == acts[0].tenant
      then Some(Manual(ManualText(acts[0].to)))
      else None
  }

  predicate IsStored(status: OrderStatus, text: StatusText) {
    match text
    case Wire(t) => IsUpperOf(StatusName(status), t)
    case Manual(t) => StatusName(status) == t
  }

  /** Over any history an order has the status whose text n8n or a human sent last;
      no number of replayed deliveries in between changes it. */
  lemma {:induction false} StatusIsTheLastWritten(w: World, acts: seq<Action>, o: nat)
    requires Coherent(w) && Valid(w, acts) && o in w.orders
    ensures o in Exec(w, acts).orders
    ensures var last, status := LastText(w, acts, o), Exec(w, acts).orders[o].status;
      if last.Some? then IsStored(status, last.value) else status == w.orders[o].status
    decreases acts
  {
    if acts != [] {
      StepKeepsCoherence(w, acts[0]);
      StatusWriters(w, acts[0], o);
      StatusIsTheLastWritten(Do(w, acts[0]), acts[1..], o);
    }
  }

  predicate Overrides(w: World, a: Action, o: nat) { a.Override? && a.o == o && OwnsOrder(w, a.tenant, o) }

  function OverrideSaid(w: World, a: Action, o: nat): seq<Saying>
    requires o in w.orders || !Overrides(w, a, o)
  {
    if Overrides(w, a, o) then [Said(a.user, Some(OverrideMetadata(w.orders[o].status, FromManual(a.to), a.reason)))] else []
  }

  predicate PostsOverride(w: World, a: Action, o: nat) { a.AddEvent? && a.o == o && a.eventType == MANUAL_OVERRIDE && o in w.orders }

  /** An override adds the same saying to both trails, an event call of that
      type adds one to the timeline alone, and nothing else adds any. */
  lemma TrailsGrow(w: World, a: Action, o: nat)
    requires Enabled(w, a)
    ensures var w' := Do(w, a);
      && AuditTrail(w'.audits, o) == AuditTrail(w.audits, o) + OverrideSaid(w, a, o)
      && TimelineTrail(w'.events, o) == TimelineTrail(w.events, o) + OverrideSaid(w, a, o)
           + if PostsOverride(w, a, o) then [Said(N8N_ACTOR, Posted(a.json))] else []
  {
    AuditTrailGrows(w, a, o);
    TimelineTrailGrows(w, a, o);
  }

  lemma AuditTrailGrows(w: World, a: Action, o: nat)
    requires Enabled(w, a)
    ensures AuditTrail(Do(w, a).audits, o) == AuditTrail(w.audits, o) + OverrideSaid(w, a, o)
  {
    if a.Override? { AppendedEntries(w, a); }
  }

  lemma TimelineTrailGrows(w: World, a: Action, o: nat)
    requires Enabled(w, a)
    ensures TimelineTrail(Do(w, a).events, o) == TimelineTrail(w.events, o) + OverrideSaid(w, a, o)
      + if PostsOverride(w, a, o) then [Said(N8N_ACTOR, Posted(a.json))] else []
  {
    if a.Append? || a.SetStatus? || a.AddEvent? || a.Override? { AppendedEntries(w, a); }
  }

  /** The accepted event calls that post an override of an order. */
  ghost function PostedOverrides(w: World, acts: seq<Action>, o: nat): nat
    requires Valid(w, acts)
    decreases acts
  {
    if acts == [] then 0
    else (if PostsOverride(w, acts[0], o) then 1 else 0) + PostedOverrides(Do(w, acts[0]), acts[1..], o)
  }

  /** Over any history the timeline trail outgrows the audit trail by the posted
      overrides; if there are none they stay equal; without n8n's sayings they
      always stay equal. */
  lemma {:induction false} TrailsAccount(w: World, acts: seq<Action>, o: nat)
    requires Valid(w, acts)
    ensures var w' := Exec(w, acts);
      var posted := PostedOverrides(w, acts, o);
      && |TimelineTrail(w'.events, o)| - |AuditTrail(w'.audits, o)|
         == |TimelineTrail(w.events, o)| - |AuditTrail(w.audits, o)| + posted
      && (posted == 0 && TimelineTrail(w.events, o) == AuditTrail(w.audits, o) ==>
            TimelineTrail(w'.events, o) == AuditTrail(w'.audits, o))
      && (Human(TimelineTrail(w.events, o)) == Human(AuditTrail(w.audits, o)) ==>
            Human(TimelineTrail(w'.events, o)) == Human(AuditTrail(w'.audits, o)))
    decreases acts
  {
    if acts != [] {
      TrailsGrow(w, acts[0], o);
      if Human(TimelineTrail(w.events, o)) == Human(AuditTrail(w.audits, o)) { StepKeepsHumanTrails(w, acts[0], o); }
      TrailsAccount(Do(w, acts[0]), acts[1..], o);
    }
  }

  lemma StepKeepsHumanTrails(w: World, a: Action, o: nat)
    requires Enabled(w, a) && Human(TimelineTrail(w.events, o)) == Human(AuditTrail(w.audits, o))
    ensures Human(TimelineTrail(Do(w, a).events, o)) == Human(AuditTrail(Do(w, a).audits, o))
  {
    TrailsGrow(w, a, o);
    var timeline, said := TimelineTrail(w.events, o), OverrideSaid(w, a, o);
    if PostsOverride(w, a, o) {
      var posted := [Said(N8N_ACTOR, Posted(a.json))];
      HumanOfMore(timeline, posted);
      assert posted[..0] == [] && Human(posted) == [];
      assert timeline + [] + posted == timeline + posted;
      assert AuditTrail(w.audits, o) + [] == AuditTrail(w.audits, o);
    } else {
      HumanOfMore(AuditTrail(w.audits, o), said);
      HumanOfMore(timeline, said);
      assert timeline + said + [] == timeline + said;
    }
  }

  /** From the empty store: timeline and audit log tell the same overrides if and
      only if n8n never posted one; about everybody else they always agree. */
  lemma TrailsAgreeIffNonePosted(acts: seq<Action>, o: nat)
    requires Valid(EMPTY_WORLD, acts)
    ensures var w := Exec(EMPTY_WORLD, acts);
      && (TimelineTrail(w.events, o) == AuditTrail(w.audits, o) <==> PostedOverrides(EMPTY_WORLD, acts, o) == 0)
      && Human(TimelineTrail(w.events, o)) == Human(AuditTrail(w.audits, o))
  {
    TrailsAccount(EMPTY_WORLD, acts, o);
  }

  lemma MoreExplain(timeline: seq<Saying>, audit: seq<Saying>, said: seq<Saying>, more: seq<Saying>,
                    status: OrderStatus, status': OrderStatus)
    requires TrailsExplain(timeline, audit, status)
    requires if said == [] then status' == status || !OnlyHuman(status')
             else |said| == 1 && Sets(said[0], status')
    ensures TrailsExplain(timeline + said + more, audit + said, status')
  {
    if said == [] { assert audit + said == audit; }
  }

  lemma StepKeepsExplained(w: World, a: Action, o: nat)
    requires Coherent(w) && Enabled(w, a) && Explained(w, o)
    ensures Explained(Do(w, a), o)
  {
    if o in w.orders {
      TrailsGrow(w, a, o);
      StatusChanges(w, a, o);
      MoreExplain(TimelineTrail(w.events, o), AuditTrail(w.audits, o), OverrideSaid(w, a, o),
                  if PostsOverride(w, a, o) then [Said(N8N_ACTOR, Posted(a.json))] else [],
                  w.orders[o].status, Do(w, a).orders[o].status);
    } else if o in Do(w, a).orders {
      OnlyUpsertsMakeOrders(w, a, o);
    }
  }

  lemma {:induction false} HistoryKeepsExplained(w: World, acts: seq<Action>, o: nat)
    requires Coherent(w) && Valid(w, acts) && Explained(w, o)
    ensures Explained(Exec(w, acts), o)
    decreases acts
  {
    if acts != [] {
      StepKeepsCoherence(w, acts[0]);
      StepKeepsExplained(w, acts[0], o);
      HistoryKeepsExplained(Do(w, acts[0]), acts[1..], o);
    }
  }

  /** From the empty store: a COMPLETED or CANCELED order has an audit row that
      set that status, the last one, and an override entry that says the same. */
  lemma TerminalStatusIsAudited(acts: seq<Action>, o: nat)
    requires Valid(EMPTY_WORLD, acts)
    ensures Explained(Exec(EMPTY_WORLD, acts), o)
  {
    HistoryKeepsExplained(EMPTY_WORLD, acts, o);
  }

  // ----- Step attempts --------------------------------------------------------

  /** The accepted step calls for one step of one run, oldest first. */
  ghost function StepCalls(w: World, acts: seq<Action>, id: StepId): seq<StepStatus>
    requires Valid(w, acts)
    decreases acts
  {
    if acts == [] then []
    else (if acts[0].RecordStep? && StepId(acts[0].r, acts[0].key) == id && id.run in w.runs then [acts[0].status] else [])
         + StepCalls(Do(w, acts[0]), acts[1..], id)
  }

  function Attempt(w: World, id: StepId): nat {
    if id in w.steps then w.steps[id].attempt else 0
  }

  lemma StepAndAttempt(w: World, a: Action, id: StepId)
    requires Enabled(w, a)
    ensures var w' := Do(w, a);
      if a.RecordStep? && StepId(a.r, a.key) == id && id.run in w.runs
      then id in w'.steps && w'.steps[id].attempt == Attempt(w, id) + 1 && w'.steps[id].status == a.status
      else (id in w'.steps <==> id in w.steps) && (id in w.steps ==> w'.steps[id] == w.steps[id])
  {
  }

  /** One row per step: its attempt is the number of calls for it and its status
      is the latest call's. */
  lemma {:induction false} AttemptsCountCalls(w: World, acts: seq<Action>, id: StepId)
    requires Valid(w, acts)
    ensures var calls := StepCalls(w, acts, id);
      var w' := Exec(w, acts);
      && Attempt(w', id) == Attempt(w, id) + |calls|
      && (calls != [] ==> id in w'.steps && w'.steps[id].status == calls[|calls| - 1])
      && (calls == [] && id in w.steps ==> id in w'.steps && w'.steps[id] == w.steps[id])
    decreases acts
  {
    if acts != [] {
      StepAndAttempt(w, acts[0], id);
      AttemptsCountCalls(Do(w, acts[0]), acts[1..], id);
    }
  }

  const STEP_KEYS: seq<StepKey> :=
    [ValidateOrder, CheckInventory, CreateShipment, UpdateShopify, NotifySlack, NotifyEmail, CheckCartCheckout, SendCartReminder]

  function AttemptSum(w: World, run: nat, keys: seq<StepKey>): nat
    decreases keys
  {
    if keys == [] then 0 else Attempt(w, StepId(run, keys[0])) + AttemptSum(w, run, keys[1..])
  }

  ghost function RunCalls(w: World, acts: seq<Action>, run: nat): nat
    requires Valid(w, acts)
    decreases acts
  {
    if acts == [] then 0
    else (if acts[0].RecordStep? && acts[0].r == run && run in w.runs then 1 else 0)
         + RunCalls(Do(w, acts[0]), acts[1..], run)
  }

  predicate Distinct(keys: seq<StepKey>) {
    forall i, j :: 0 <= i < j < |keys| ==> keys[i] != keys[j]
  }

  lemma {:induction false} StepAndSum(w: World, a: Action, run: nat, keys: seq<StepKey>)
    requires Enabled(w, a) && Distinct(keys)
    ensures AttemptSum(Do(w, a), run, keys) == AttemptSum(w, run, keys)
      + if a.RecordStep? && a.r == run && run in w.runs && a.key in keys then 1 else 0
    decreases keys
  {
    if keys != [] {
      StepAndSum(w, a, run, keys[1..]);
      assert keys[0] !in keys[1..];
      StepAndAttempt(w, a, StepId(run, keys[0]));
      assert Attempt(Do(w, a), StepId(run, keys[0])) == Attempt(w, StepId(run, keys[0]))
        + if a.RecordStep? && a.r == run && run in w.runs && a.key == keys[0] then 1 else 0;
    }
  }

  lemma EveryKeyIsListed(k: StepKey)
    ensures k in STEP_KEYS && Distinct(STEP_KEYS)
  {
  }

  /** The attempts of a run's steps sum to all the step calls of the run. */
  lemma {:induction false} AttemptsSumToCalls(w: World, acts: seq<Action>, run: nat)
    requires Valid(w, acts)
    ensures AttemptSum(Exec(w, acts), run, STEP_KEYS) == AttemptSum(w, run, STEP_KEYS) + RunCalls(w, acts, run)
    decreases acts
  {
    if acts != [] {
      EveryKeyIsListed(if acts[0].RecordStep? then acts[0].key else ValidateOrder);
      StepAndSum(w, acts[0], run, STEP_KEYS);
      AttemptsSumToCalls(Do(w, acts[0]), acts[1..], run);
    }
  }

  // ----- Failure notifications ------------------------------------------------

  predicate IsFailed(w: World, run: nat) { run in w.runs && w.runs[run].status.RunFailed? }

  function Notices(notices: seq<RunNotice>, run: nat): nat
    decreases notices
  {
    if notices == [] then 0
    else Notices(notices[..|notices| - 1], run) + if notices[|notices| - 1].run == run then 1 else 0
  }

  /** How often the run went from any other status to FAILED. */
  ghost function Transitions(w: World, acts: seq<Action>, run: nat): nat
    requires Valid(w, acts)
    decreases acts
  {
    if acts == [] then 0
    else (if !IsFailed(w, run) && IsFailed(Do(w, acts[0]), run) then 1 else 0) + Transitions(Do(w, acts[0]), acts[1..], run)
  }

  /** The step writes FAILED to the run. */
  predicate WritesFailure(w: World, a: Action, run: nat)
    requires Enabled(w, a)
  {
    a.WriteStatus? && w.finishing[a.call].run == run && !w.finishing[a.call].completed
  }

  /** It read another status than FAILED, but the run is FAILED by now. */
  predicate Doubles(w: World, a: Action, run: nat)
    requires Enabled(w, a)
  {
    WritesFailure(w, a, run) && !w.finishing[a.call].before.RunFailed? && IsFailed(w, run)
  }

  /** It read FAILED, but the run is not FAILED any more. */
  predicate Misses(w: World, a: Action, run: nat)
    requires Enabled(w, a)
  {
    WritesFailure(w, a, run) && w.finishing[a.call].before.RunFailed? && !IsFailed(w, run)
  }

  ghost function Doubled(w: World, acts: seq<Action>, run: nat): nat
    requires Valid(w, acts)
    decreases acts
  {
    if acts == [] then 0 else (if Doubles(w, acts[0], run) then 1 else 0) + Doubled(Do(w, acts[0]), acts[1..], run)
  }

  ghost function Missed(w: World, acts: seq<Action>, run: nat): nat
    requires Valid(w, acts)
    decreases acts
  {
    if acts == [] then 0 else (if Misses(w, acts[0], run) then 1 else 0) + Missed(Do(w, acts[0]), acts[1..], run)
  }

  /** The calls that wrote a failure and have not notified yet. */
  ghost function Owing(w: World, run: nat): set<nat> {
    set c | c in w.finishing && w.finishing[c].run == run && w.finishing[c].owes
  }

  lemma StepAndOwing(w: World, a: Action, run: nat)
    requires Enabled(w, a)
    ensures var w', call := Do(w, a), if a.WriteStatus? || a.Notify? then a.call else 0;
      && (a.Notify? && w.finishing[call].run == run ==>
            Owing(w, run) == Owing(w', run) + {call} && call !in Owing(w', run))
      && (WritesFailure(w, a, run) && !w.finishing[call].before.RunFailed? ==>
            Owing(w', run) == Owing(w, run) + {call} && call !in Owing(w, run))
      && ((a.Notify? && w.finishing[call].run == run) || (WritesFailure(w, a, run) && !w.finishing[call].before.RunFailed?)
          || Owing(w', run) == Owing(w, run))
  {
  }

  lemma StepAndNotices(w: World, a: Action, run: nat)
    requires Enabled(w, a) && forall r :: r in w.runs ==> r < w.nextId
    ensures var w' := Do(w, a);
      Notices(w'.notices, run) + |Owing(w', run)| + (if Misses(w, a, run) then 1 else 0)
      == Notices(w.notices, run) + |Owing(w, run)| + (if Doubles(w, a, run) then 1 else 0)
         + if !IsFailed(w, run) && IsFailed(w', run) then 1 else 0
  {
    StepAndOwing(w, a, run);
    StepAndNoticeLog(w, a, run);
    StepAndFailed(w, a, run);
  }

  lemma StepAndNoticeLog(w: World, a: Action, run: nat)
    requires Enabled(w, a)
    ensures Notices(Do(w, a).notices, run)
            == Notices(w.notices, run) + if a.Notify? && w.finishing[a.call].run == run then 1 else 0
  {
    AppendedEntries(w, a);
  }

  lemma StepAndFailed(w: World, a: Action, run: nat)
    requires Enabled(w, a) && forall r :: r in w.runs ==> r < w.nextId
    ensures !IsFailed(w, run) && IsFailed(Do(w, a), run) <==> WritesFailure(w, a, run) && !IsFailed(w, run)
  {
  }

  /** Statement by statement, over any history: notices sent and owed, plus those
      missed, are the transitions to FAILED plus those notified twice. */
  lemma {:induction false} NoticesAccount(w: World, acts: seq<Action>, run: nat)
    requires Coherent(w) && Valid(w, acts)
    ensures var w' := Exec(w, acts);
      Notices(w'.notices, run) + |Owing(w', run)| + Missed(w, acts, run)
      == Notices(w.notices, run) + |Owing(w, run)| + Transitions(w, acts, run) + Doubled(w, acts, run)
    decreases acts
  {
    if acts != [] {
      StepKeepsCoherence(w, acts[0]);
      StepAndNotices(w, acts[0], run);
      NoticesAccount(Do(w, acts[0]), acts[1..], run);
    }
  }

  /** From the empty store, once every call has ended: a run's notices equal its
      transitions to FAILED if and only if as many were missed as were doubled. */
  lemma NoticesCountTransitions(acts: seq<Action>, run: nat)
    requires Valid(EMPTY_WORLD, acts) && Owing(Exec(EMPTY_WORLD, acts), run) == {}
    ensures Notices(Exec(EMPTY_WORLD, acts).notices, run) == Transitions(EMPTY_WORLD, acts, run) <==>
            Missed(EMPTY_WORLD, acts, run) == Doubled(EMPTY_WORLD, acts, run)
  {
    NoticesAccount(EMPTY_WORLD, acts, run);
  }

  /** The call's view of its run is still right about FAILED. */
  predicate Fresh(w: World, call: nat) {
    UnderWay(w, call) && (w.finishing[call].before.RunFailed? <==> IsFailed(w, w.finishing[call].run))
  }

  /** Only another call's write to the same run makes a view stale: calls that do
      not overlap notify exactly once per transition. */
  lemma ViewsStayFresh(w: World, a: Action, call: nat)
    requires Coherent(w) && Enabled(w, a) && Fresh(w, call) && call in Do(w, a).finishing
    requires !(a.WriteStatus? && w.finishing[a.call].run == w.finishing[call].run)
    ensures Fresh(Do(w, a), call)
  {
  }

  lemma FreshWritesAreExact(w: World, call: nat, run: nat)
    requires Enabled(w, WriteStatus(call)) && Fresh(w, call)
    ensures !Doubles(w, WriteStatus(call), run) && !Misses(w, WriteStatus(call), run)
  {
  }

  lemma OneMore(w: World, a: Action, rest: seq<Action>, run: nat)
    requires Enabled(w, a) && Valid(Do(w, a), rest)
    ensures Valid(w, [a] + rest) && Exec(w, [a] + rest) == Exec(Do(w, a), rest)
    ensures Transitions(w, [a] + rest, run)
            == (if !IsFailed(w, run) && IsFailed(Do(w, a), run) then 1 else 0) + Transitions(Do(w, a), rest, run)
  {
    assert ([a] + rest)[1..] == rest;
  }

  lemma TwoNotices(w: World, run: nat, c: nat, d: nat)
    requires Enabled(w, Notify(c)) && Enabled(w, Notify(d)) && c != d && IsFailed(w, run)
    requires w.finishing[c].run == run && w.finishing[d].run == run
    ensures var acts := [Notify(c)] + ([Notify(d)] + []);
      && Valid(w, acts) && Transitions(w, acts, run) == 0
      && Notices(Exec(w, acts).notices, run) == Notices(w.notices, run) + 2
  {
    var w' := Do(w, Notify(c));
    StepAndNoticeLog(w, Notify(c), run);
    StepAndNoticeLog(w', Notify(d), run);
    OneMore(w', Notify(d), [], run);
    OneMore(w, Notify(c), [Notify(d)] + [], run);
  }

  lemma TwoWrites(w: World, run: nat, c: nat, d: nat)
    requires Enabled(w, WriteStatus(c)) && Enabled(w, WriteStatus(d)) && c != d && !IsFailed(w, run)
    requires WritesFailure(w, WriteStatus(c), run) && WritesFailure(w, WriteStatus(d), run)
    requires !w.finishing[c].before.RunFailed? && !w.finishing[d].before.RunFailed?
    ensures var acts := [WriteStatus(c)] + ([WriteStatus(d)] + ([Notify(c)] + ([Notify(d)] + [])));
      && Valid(w, acts) && Transitions(w, acts, run) == 1
      && Notices(Exec(w, acts).notices, run) == Notices(w.notices, run) + 2
  {
    var w1 := Do(w, WriteStatus(c));
    var w2 := Do(w1, WriteStatus(d));
    assert IsFailed(w1, run) && IsFailed(w2, run) && w2.notices == w.notices;
    TwoNotices(w2, run, c, d);
    OneMore(w1, WriteStatus(d), [Notify(c)] + ([Notify(d)] + []), run);
    OneMore(w, WriteStatus(c), [WriteStatus(d)] + ([Notify(c)] + ([Notify(d)] + [])), run);
  }

  /** Two failing calls that both read before either writes: one transition, two notices. */
  lemma OverlappingCallsNotifyTwice(w: World, run: nat, c: nat, d: nat) returns (acts: seq<Action>)
    requires run in w.runs && !IsFailed(w, run) && c != d && c !in w.finishing && d !in w.finishing
    ensures Valid(w, acts) && Transitions(w, acts, run) == 1
    ensures Notices(Exec(w, acts).notices, run) == Notices(w.notices, run) + 2
  {
    var a, b := ReadStatus(c, run, false, None), ReadStatus(d, run, false, None);
    var w1 := Do(w, a);
    TwoWrites(Do(w1, b), run, c, d);
    var rest := [WriteStatus(c)] + ([WriteStatus(d)] + ([Notify(c)] + ([Notify(d)] + [])));
    OneMore(w1, b, rest, run);
    OneMore(w, a, [b] + rest, run);
    acts := [a] + ([b] + rest);
  }
}
