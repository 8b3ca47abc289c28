/** The claim utility and the two webhook controllers as they are written, one
    delivery at a time, and their place among the runs of `InboxProtocol`. */
module InboxControllers {
  import opened Prelude
  import opened InboxTable
  import opened InboxProtocol

  /** What the outside world does to one delivery: how each statement goes,
      whether the handler returns, and the time of the final write. */
  datatype World = World(insert: Fate, reclaim: Fate, handlerOk: bool, complete: Fate, fail: Fate, now: nat)

  datatype Claim = Won | Denied | Threw

  function ClaimResult(t: Table, k: Key, world: World): Claim {
    if !world.insert.Heard? then Threw
    else if k !in t then Won
    else if !world.reclaim.Heard? then Threw
    else if t[k].status == FAILED then Won else Denied
  }

  /** The table after the claim; a claim that threw may have left a claimed row. */
  function ClaimedTable(t: Table, d: Delivery, world: World): Table {
    if d.key !in t then if world.insert.Aborted? then t else Inserted(t, d)
    else if !world.insert.Heard? || world.reclaim.Aborted? || t[d.key].status != FAILED then t
    else Reclaimed(t, d)
  }

  method ClaimWebhookInboundEvent(db: WebhookInboundEvents, d: Delivery, world: World) returns (claim: Claim)
    modifies db
    ensures claim == ClaimResult(old(db.rows), d.key, world)
    ensures db.rows == ClaimedTable(old(db.rows), d, world)
  {
    var insert := db.Create(d, world.insert);
    match insert
    case Created => return Won;
    case InsertFault => return Threw;
    case UniqueViolation =>
      var count := db.ReclaimFailed(d, world.reclaim);
      if count.None? { return Threw; }
      return if count.value == 1 then Won else Denied;
  }

  /** How one delivery that nobody interleaves with ends. */
  datatype Served = Served(rows: Table, answer: Answer)

  /** The table after the final FAILED write. */
  function FailedTable(t: Table, k: Key, world: World): Table
    requires k in t
  {
    if world.fail.Aborted? then t else MarkedFailed(t, k)
  }

  /** Table and answer after the handler and the final writes. */
  function Finish(t: Table, k: Key, world: World): Served
    requires k in t
  {
    var written := if world.handlerOk && !world.complete.Aborted? then MarkedProcessed(t, k, world.now) else t;
    if world.handlerOk && world.complete.Heard? then Served(written, Received)
    else Served(FailedTable(written, k, world), ServerError)
  }

  function Serve(t: Table, route: Route, d: Delivery, world: World): Served {
    var claimed := ClaimedTable(t, d, world);
    match ClaimResult(t, d.key, world)
    case Threw => Served(claimed, ServerError)
    case Denied => Served(claimed, Received)
    case Won =>
      if Rejected(route) then
        Served(FailedTable(claimed, d.key, world), if world.fail.Heard? then Received else ServerError)
      else Finish(claimed, d.key, world)
  }

  datatype Http = Ok | BadRequest | Error5xx

  /** What one delivery of event `k` must come to, read off the statements' fates:
      `matches` says whether its integration lets it through to the handler. */
  ghost predicate Settles(before: Table, after: Table, k: Key, payload: string, matches: bool, world: World, http: Http) {
    var won := world.insert == Heard && (k !in before || (world.reclaim == Heard && before[k].status == FAILED));
    var processed := world.handlerOk && world.complete == Heard;
    && (forall other :: other != k ==> (other in after <==> other in before) && (other in before ==> after[other] == before[other]))
    && (won ==> k in after && after[k].payload == payload)
    && (won && matches && processed ==>
          http == Ok && after[k].status == PROCESSED && after[k].processedAt == Some(world.now))
    && (won && matches && !processed ==> http == Error5xx && (world.fail != Aborted ==> after[k].status == FAILED))
    && (won && !matches ==>
          && after[k].status == (if world.fail != Aborted then FAILED else PROCESSING)
          && http == (if world.fail == Heard then Ok else Error5xx))
    && (!won ==> http == if world.insert == Heard && world.reclaim == Heard then Ok else Error5xx)
    && (!won && k in before && (before[k].status != FAILED || world.insert != Heard || world.reclaim == Aborted) ==> after == before)
  }

  function ToHttp(a: Answer): Http {
    match a case Received => Ok case ServerError => Error5xx
  }

  /** The `try`/`catch` both controllers wrap around their handler. */
  method RunHandler(db: WebhookInboundEvents, k: Key, world: World) returns (http: Http)
    requires k in db.rows
    modifies db
    ensures http == ToHttp(Finish(old(db.rows), k, world).answer)
    ensures db.rows == Finish(old(db.rows), k, world).rows
  {
    if world.handlerOk {
      var done := db.SetProcessed(k, world.now, world.complete);
      if done { return Ok; }
    }
    var _ := db.SetFailed(k, world.fail);
    http := Error5xx;
  }

  // ----- Clerk ------------------------------------------------------------

  datatype ClerkRequest = ClerkRequest(
    rawBody: Option<string>, svixId: Option<string>, svixTimestamp: Option<string>, svixSignature: Option<string>)

  predicate WellFormedClerk(req: ClerkRequest, signatureValid: bool) {
    req.rawBody.Some? && req.svixId.Some? && req.svixTimestamp.Some? && req.svixSignature.Some? && signatureValid
  }

  function ClerkDelivery(req: ClerkRequest): Delivery
    requires req.rawBody.Some? && req.svixId.Some? && req.svixTimestamp.Some?
  {
    Delivery(Key(CLERK, req.svixId.value), None, req.rawBody.value, req.svixId.value + "," + req.svixTimestamp.value)
  }

  class ClerkWebhookController {
    const prisma: WebhookInboundEvents

    constructor (prisma: WebhookInboundEvents)
      ensures this.prisma == prisma
    {
      this.prisma := prisma;
    }

    method Handle(req: ClerkRequest, signatureValid: bool, world: World) returns (http: Http)
      modifies prisma
      ensures !WellFormedClerk(req, signatureValid) ==> http == BadRequest && prisma.rows == old(prisma.rows)
      ensures WellFormedClerk(req, signatureValid) ==>
        var served := Serve(old(prisma.rows), Clerk, ClerkDelivery(req), world);
        http == ToHttp(served.answer) && prisma.rows == served.rows
      ensures http == BadRequest <==>
        req.rawBody.None? || req.svixId.None? || req.svixTimestamp.None? || req.svixSignature.None? || !signatureValid
      ensures http != BadRequest ==>
        Settles(old(prisma.rows), prisma.rows, Key(CLERK, req.svixId.value), req.rawBody.value, true, world, http)
    {
      if req.rawBody.None? { return BadRequest; }
      if req.svixId.None? || req.svixTimestamp.None? || req.svixSignature.None? { return BadRequest; }
      if !signatureValid { return BadRequest; }
      var d := ClerkDelivery(req);
      var claim := ClaimWebhookInboundEvent(prisma, d, world);
      if claim.Threw? { return Error5xx; }
      if claim.Denied? { return Ok; }
      http := RunHandler(prisma, d.key, world);
    }
  }

  // ----- Shopify ----------------------------------------------------------

  datatype ShopifyRequest = ShopifyRequest(
    rawBody: Option<string>, hmac: Option<string>, shop: Option<string>, webhookId: Option<string>)

  predicate WellFormedShopify(req: ShopifyRequest, signatureValid: bool) {
    req.rawBody.Some? && req.hmac.Some? && req.shop.Some? && req.webhookId.Some? && signatureValid
  }

  function ShopifyDelivery(req: ShopifyRequest, integration: Option<Integration>): Delivery
    requires req.rawBody.Some? && req.shop.Some? && req.webhookId.Some?
  {
    Delivery(Key(SHOPIFY, req.webhookId.value),
             if integration.Some? then Some(integration.value.tenantId) else None,
             req.rawBody.value, req.shop.value + "," + req.webhookId.value)
  }

  /** What comes between the signature check and the claim. */
  datatype Lookup = NotJson | LookupThrew | Resolved(integration: Option<Integration>)

  class ShopifyWebhookController {
    const prisma: WebhookInboundEvents

    constructor (prisma: WebhookInboundEvents)
      ensures this.prisma == prisma
    {
      this.prisma := prisma;
    }

    /** `None`: go on with the handler; otherwise the answer is already known.
        A body that is not JSON, or a lookup that throws, ends before the claim. */
    method VerifyAndResolve(req: ShopifyRequest, signatureValid: bool, lookup: Lookup, world: World)
      returns (known: Option<Http>)
      modifies prisma
      ensures !WellFormedShopify(req, signatureValid) ==>
        known == Some(BadRequest) && prisma.rows == old(prisma.rows)
      ensures WellFormedShopify(req, signatureValid) && !lookup.Resolved? ==>
        known == Some(Error5xx) && prisma.rows == old(prisma.rows)
      ensures WellFormedShopify(req, signatureValid) && lookup.Resolved? ==>
        var d := ShopifyDelivery(req, lookup.integration);
        var route := Shopify(lookup.integration, req.shop.value);
        var won := ClaimResult(old(prisma.rows), d.key, world).Won?;
        && (known.None? <==> won && !Rejected(route))
        && (known.None? ==> lookup.integration.Some? && lookup.integration.value.active && lookup.integration.value.shop == req.shop)
        && (known.None? ==> prisma.rows == ClaimedTable(old(prisma.rows), d, world))
        && (known.Some? ==>
            var served := Serve(old(prisma.rows), route, d, world);
            known == Some(ToHttp(served.answer)) && prisma.rows == served.rows)
    {
      if req.rawBody.None? { return Some(BadRequest); }
      if req.hmac.None? || req.shop.None? || req.webhookId.None? { return Some(BadRequest); }
      if !signatureValid { return Some(BadRequest); }
      if lookup.NotJson? { return Some(Error5xx); }
      if lookup.LookupThrew? { return Some(Error5xx); }
      var integration := lookup.integration;
      var d := ShopifyDelivery(req, integration);
      var claim := ClaimWebhookInboundEvent(prisma, d, world);
      if claim.Threw? { return Some(Error5xx); }
      if claim.Denied? { return Some(Ok); }
      if integration.None? || !integration.value.active || integration.value.shop != req.shop {
        var written := prisma.SetFailed(d.key, world.fail);
        return Some(if written then Ok else Error5xx);
      }
      known := None;
    }

    /** Both the order route and the cart route; they differ in the handler. */
    method Handle(req: ShopifyRequest, signatureValid: bool, lookup: Lookup, world: World) returns (http: Http)
      modifies prisma
      ensures !WellFormedShopify(req, signatureValid) ==> http == BadRequest && prisma.rows == old(prisma.rows)
      ensures WellFormedShopify(req, signatureValid) && !lookup.Resolved? ==>
        http == Error5xx && prisma.rows == old(prisma.rows)
      ensures WellFormedShopify(req, signatureValid) && lookup.Resolved? ==>
        var served := Serve(old(prisma.rows), Shopify(lookup.integration, req.shop.value),
                            ShopifyDelivery(req, lookup.integration), world);
        http == ToHttp(served.answer) && prisma.rows == served.rows
      ensures http == BadRequest <==>
        req.rawBody.None? || req.hmac.None? || req.shop.None? || req.webhookId.None? || !signatureValid
      ensures http != BadRequest && lookup.Resolved? ==>
        var matches := lookup.integration.Some? && lookup.integration.value.active && lookup.integration.value.shop == req.shop;
        Settles(old(prisma.rows), prisma.rows, Key(SHOPIFY, req.webhookId.value), req.rawBody.value, matches, world, http)
    {
      var known := VerifyAndResolve(req, signatureValid, lookup, world);
      if known.Some? { return known.value; }
      http := RunHandler(prisma, Key(SHOPIFY, req.webhookId.value), world);
    }
  }

  // ----- One delivery served alone is one run of the protocol ---------------

  /** The statements worker `w` issues when the delivery is served alone. */
  function Script(t: Table, w: nat, route: Route, d: Delivery, world: World): seq<Action> {
    [Arrive(w, route, d), Insert(w, world.insert)]
    + (if world.insert.Heard? && d.key in t then [Reclaim(w, world.reclaim)] else [])
    + if ClaimResult(t, d.key, world).Won? then AfterGrant(w, route, world) else []
  }

  function AfterGrant(w: nat, route: Route, world: World): seq<Action> {
    if Rejected(route) then [Reject(w, world.fail)]
    else if !world.handlerOk then [Handle(w, false), Fail(w, world.fail)]
    else [Handle(w, true), Complete(w, world.now, world.complete)]
         + if !world.complete.Heard? then [Fail(w, world.fail)] else []
  }

  lemma Step(s: State, a: Action, rest: seq<Action>)
    requires Enabled(s, a) && ValidFrom(Apply(s, a), rest)
    ensures ValidFrom(s, [a] + rest) && Exec(s, [a] + rest) == Exec(Apply(s, a), rest)
  {
  }

  /** The run gives this table and this answer; a worker that got lost answers
      with an error, and `held` says whether it left the row PROCESSING. */
  predicate EndsAs(s: State, acts: seq<Action>, w: nat, k: Key, served: Served) {
    && ValidFrom(s, acts)
    && Exec(s, acts).rows == served.rows
    && w in Exec(s, acts).workers
    && (var pc := Exec(s, acts).workers[w].pc;
        || pc == Answered(served.answer)
        || (served.answer.ServerError? && k in served.rows && pc == Lost(served.rows[k].status == PROCESSING)))
  }

  /** The statements after a won claim. */
  lemma GrantEnds(s: State, w: nat, world: World)
    requires w in s.workers && s.workers[w].pc.Granted?
    requires s.workers[w].delivery.key in s.rows && s.rows[s.workers[w].delivery.key].status == PROCESSING
    ensures var me := s.workers[w];
      EndsAs(s, AfterGrant(w, me.route, world), w, me.delivery.key,
        if Rejected(me.route) then
          Served(FailedTable(s.rows, me.delivery.key, world), if world.fail.Heard? then Received else ServerError)
        else Finish(s.rows, me.delivery.key, world))
  {
    var tail := AfterGrant(w, s.workers[w].route, world);
    if Rejected(s.workers[w].route) {
      Step(s, tail[0], []);
      assert tail == [tail[0]] + [];
    } else {
      var s1 := Apply(s, tail[0]);
      var s2 := Apply(s1, tail[1]);
      if world.handlerOk && !world.complete.Heard? {
        Step(s2, tail[2], []);
        assert tail[2..] == [tail[2]] + [];
      }
      Step(s1, tail[1], tail[2..]);
      assert tail[1..] == [tail[1]] + tail[2..];
      Step(s, tail[0], tail[1..]);
      assert tail == [tail[0]] + tail[1..];
    }
  }

  /** What a controller does to the table is what its statements do, issued in
      order by a new worker: so every theorem about runs is about controllers. */
  lemma ServeIsARun(s: State, w: nat, route: Route, d: Delivery, world: World)
    requires w !in s.workers
    ensures EndsAs(s, Script(s.rows, w, route, d, world), w, d.key, Serve(s.rows, route, d, world))
  {
    var script := Script(s.rows, w, route, d, world);
    var s1 := Apply(s, script[0]);
    var s2 := Apply(s1, script[1]);
    var won := ClaimResult(s.rows, d.key, world).Won?;
    if world.insert.Heard? && d.key in s.rows {
      var s3 := Apply(s2, script[2]);
      if won { GrantEnds(s3, w, world); assert script[3..] == AfterGrant(w, route, world); } else { assert script[3..] == []; }
      Step(s2, script[2], script[3..]);
      assert script[2..] == [script[2]] + script[3..];
    } else if won {
      GrantEnds(s2, w, world);
      assert script[2..] == AfterGrant(w, route, world);
    } else {
      assert script[2..] == [];
    }
    Step(s1, script[1], script[2..]);
    assert script[1..] == [script[1]] + script[2..];
    Step(s, script[0], script[1..]);
    assert script == [script[0]] + script[1..];
  }
}
