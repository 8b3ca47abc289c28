/** What the columns of an inbound event say after any run, and which deliveries
    reach a handler, read off the statements and the lookups themselves. */
module InboxColumns {
  import opened Prelude
  import opened InboxTable
  import opened InboxProtocol

  // ----- The row is the history of its writes -----------------------------------

  datatype Write = Claimed(d: Delivery) | Failure | Success(now: nat)

  /** The write of one statement to the row of `k`: a claim takes effect on a
      missing or FAILED row, a final write on any. */
  function Written(s: State, a: Action, k: Key): seq<Write>
    requires Enabled(s, a)
  {
    if a.Arrive? || s.workers[a.w].delivery.key != k then []
    else
      match a
      case Insert(w, fate) => if fate != Aborted && k !in s.rows then [Claimed(s.workers[w].delivery)] else []
      case Reclaim(w, fate) =>
        if fate != Aborted && k in s.rows && s.rows[k].status == FAILED then [Claimed(s.workers[w].delivery)] else []
      case Reject(_, fate) => if fate != Aborted && k in s.rows then [Failure] else []
      case Fail(_, fate) => if fate != Aborted && k in s.rows then [Failure] else []
      case Complete(_, now, fate) => if fate != Aborted && k in s.rows then [Success(now)] else []
      case _ => []
  }

  function History(s: State, acts: seq<Action>, k: Key): seq<Write>
    requires ValidFrom(s, acts)
    decreases acts
  {
    if acts == [] then [] else Written(s, acts[0], k) + History(Apply(s, acts[0]), acts[1..], k)
  }

  /** The last claim's delivery. */
  function LastClaim(h: seq<Write>): Option<Delivery>
    decreases h
  {
    if h == [] then None else if h[|h| - 1].Claimed? then Some(h[|h| - 1].d) else LastClaim(h[..|h| - 1])
  }

  /** The last tenant that a claim named. */
  function LastTenant(h: seq<Write>): Option<string>
    decreases h
  {
    if h == [] then None
    else if h[|h| - 1].Claimed? && h[|h| - 1].d.tenantId.Some? then h[|h| - 1].d.tenantId
    else LastTenant(h[..|h| - 1])
  }

  /** The time of the last success since the last claim. */
  function LastTime(h: seq<Write>): Option<nat>
    decreases h
  {
    if h == [] || h[|h| - 1].Claimed? then None
    else if h[|h| - 1].Success? then Some(h[|h| - 1].now) else LastTime(h[..|h| - 1])
  }

  function StatusOf(w: Write): Status {
    match w case Claimed(_) => PROCESSING case Failure => FAILED case Success(_) => PROCESSED
  }

  ghost predicate Tells(h: seq<Write>, rows: Table, k: Key) {
    && (k in rows <==> h != [])
    && (k in rows ==>
          && LastClaim(h).Some?
          && rows[k].payload == LastClaim(h).value.payload && rows[k].headers == LastClaim(h).value.headers
          && rows[k].signatureValid
          && rows[k].status == StatusOf(h[|h| - 1])
          && rows[k].tenantId == LastTenant(h)
          && rows[k].processedAt == LastTime(h))
  }

  lemma StepTells(s: State, a: Action, h: seq<Write>, k: Key)
    requires Enabled(s, a) && Tells(h, s.rows, k)
    ensures Tells(h + Written(s, a, k), Apply(s, a).rows, k)
  {
    var more := Written(s, a, k);
    if more == [] {
      assert h + more == h;
    } else {
      assert (h + more)[..|h|] == h;
    }
  }

  lemma {:induction false} RunTells(s: State, acts: seq<Action>, h: seq<Write>, k: Key)
    requires ValidFrom(s, acts) && Tells(h, s.rows, k)
    ensures Tells(h + History(s, acts, k), Exec(s, acts).rows, k)
    decreases acts
  {
    if acts == [] {
      assert h + [] == h;
    } else {
      var first, rest := Written(s, acts[0], k), History(Apply(s, acts[0]), acts[1..], k);
      StepTells(s, acts[0], h, k);
      RunTells(Apply(s, acts[0]), acts[1..], h + first, k);
      assert h + first + rest == h + (first + rest);
    }
  }

  /** After any run: payload and headers are those of the last claim, the tenant is
      the last one a claim named, the status is that of the last write, and
      `processedAt` is the time of the last success since the last claim. */
  lemma RowTellsItsHistory(acts: seq<Action>, k: Key)
    requires ValidFrom(INIT, acts)
    ensures Tells(History(INIT, acts, k), Exec(INIT, acts).rows, k)
  {
    RunTells(INIT, acts, [], k);
    assert [] + History(INIT, acts, k) == History(INIT, acts, k);
  }

  // ----- Which deliveries reach a handler -----------------------------------------

  /** The integration behind a Shopify delivery is there, ACTIVE, and connected to
      the shop the header names. */
  predicate Matches(route: Route) {
    route.Shopify? ==>
      && route.integration.Some? && route.integration.value.active
      && route.integration.value.shop == Some(route.shopHeader)
  }

  predicate PastHandler(pc: Pc) { pc.Completing? || pc.Failing? }

  /** After a grant the match alone decides between handler and rejection. */
  lemma MatchDecides(s: State, w: nat, ok: bool, fate: Fate)
    requires w in s.workers && s.workers[w].pc.Granted?
    ensures Enabled(s, Handle(w, ok)) <==> Matches(s.workers[w].route)
    ensures Enabled(s, Reject(w, fate)) <==> !Matches(s.workers[w].route)
  {
  }

  ghost predicate OnlyMatchesHandled(s: State) {
    forall w :: w in s.workers && PastHandler(s.workers[w].pc) ==> Matches(s.workers[w].route)
  }

  lemma StepHandlesMatches(s: State, a: Action)
    requires Enabled(s, a) && OnlyMatchesHandled(s)
    ensures OnlyMatchesHandled(Apply(s, a))
    ensures a.Handle? || a.Complete? || a.Fail? ==> Matches(s.workers[a.w].route)
    ensures a.Reject? ==> !Matches(s.workers[a.w].route)
  {
    Footprint(s, a);
  }

  lemma {:induction false} RunHandlesMatches(s: State, acts: seq<Action>, n: nat)
    requires ValidFrom(s, acts) && OnlyMatchesHandled(s) && n <= |acts|
    ensures ValidFrom(s, acts[..n]) && OnlyMatchesHandled(Exec(s, acts[..n]))
    ensures n < |acts| ==> Enabled(Exec(s, acts[..n]), acts[n])
    decreases acts
  {
    if n > 0 {
      StepHandlesMatches(s, acts[0]);
      RunHandlesMatches(Apply(s, acts[0]), acts[1..], n - 1);
      assert acts[..n][1..] == acts[1..][..n - 1];
    }
  }

  /** In every run: the handler is run, and PROCESSED written, only for a delivery
      whose integration matches; a rejection is written only for one that does not. */
  lemma OnlyMatchingDeliveriesAreHandled(acts: seq<Action>, n: nat)
    requires ValidFrom(INIT, acts) && n < |acts| && !acts[n].Arrive?
    ensures ValidFrom(INIT, acts[..n]) && Enabled(Exec(INIT, acts[..n]), acts[n])
    ensures var worker := Exec(INIT, acts[..n]).workers[acts[n].w];
      && (acts[n].Handle? || acts[n].Complete? ==> Matches(worker.route))
      && (acts[n].Reject? ==> !Matches(worker.route))
  {
    RunHandlesMatches(INIT, acts, n);
    StepHandlesMatches(Exec(INIT, acts[..n]), acts[n]);
  }
}
