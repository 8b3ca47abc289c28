/** Concurrent deliveries of webhook events, interleaved one database statement
    at a time, and the one-holder lease each event key is meant to obey. */
module InboxProtocol {
  import opened Prelude
  import opened InboxTable

  // ----- Deliveries as workers -------------------------------------------

  datatype Integration = Integration(tenantId: string, active: bool, shop: Option<string>)

  /** Where a delivery came in, with the integration row Shopify's controller
      read before claiming. */
  datatype Route = Clerk | Shopify(integration: Option<Integration>, shopHeader: string)

  /** Shopify's check after the claim; Clerk has none. */
  predicate Rejected(route: Route) {
    match route
    case Clerk => false
    case Shopify(integration, shopHeader) =>
      integration.None? || !integration.value.active || integration.value.shop != Some(shopHeader)
  }

  datatype Answer = Received | ServerError

  /** The next statement a worker will issue, or how it ended. `Failing` is in
      the catch block; `written` if the PROCESSED write took effect all the same.
      `Lost` is a crash or a statement that threw with nothing to run after it;
      `held` if it left the row PROCESSING. */
  datatype Pc =
    | Creating | Reclaiming | Granted | Completing | Failing(written: bool)
    | Answered(answer: Answer)
    | Lost(held: bool)

  datatype Worker = Worker(route: Route, delivery: Delivery, pc: Pc)

  predicate Holds(w: Worker, k: Key) {
    w.delivery.key == k && (w.pc.Granted? || w.pc.Completing? || w.pc.Failing?)
  }

  /** It holds a row that is still PROCESSING. */
  predicate Owes(w: Worker) { w.pc.Granted? || w.pc.Completing? || w.pc == Failing(false) }

  predicate Orphaned(w: Worker, k: Key) {
    w.delivery.key == k && w.pc == Lost(true)
  }

  datatype State = State(rows: Table, workers: map<nat, Worker>)

  const INIT := State(map[], map[])

  datatype Action =
    | Arrive(w: nat, route: Route, delivery: Delivery)
    | Insert(w: nat, fate: Fate)
    | Reclaim(w: nat, fate: Fate)
    | Reject(w: nat, fate: Fate)
    | Handle(w: nat, ok: bool)
    | Complete(w: nat, now: nat, fate: Fate)
    | Fail(w: nat, fate: Fate)
    | Crash(w: nat)

  predicate MayIssue(me: Worker, a: Action) {
    match a
    case Arrive(_, _, _) => false
    case Insert(_, _) => me.pc.Creating?
    case Reclaim(_, _) => me.pc.Reclaiming?
    case Reject(_, _) => me.pc.Granted? && Rejected(me.route)
    case Handle(_, _) => me.pc.Granted? && !Rejected(me.route)
    case Complete(_, _, _) => me.pc.Completing?
    case Fail(_, _) => me.pc.Failing?
    case Crash(_) => !me.pc.Answered? && !me.pc.Lost?
  }

  predicate Enabled(s: State, a: Action) {
    if a.Arrive? then a.w !in s.workers else a.w in s.workers && MayIssue(s.workers[a.w], a)
  }

  function Goto(s: State, w: nat, pc: Pc): State
    requires w in s.workers
  {
    s.(workers := s.workers[w := s.workers[w].(pc := pc)])
  }

  function Apply(s: State, a: Action): State
    requires Enabled(s, a)
  {
    if a.Arrive? then s.(workers := s.workers[a.w := Worker(a.route, a.delivery, Creating)])
    else
      var d := s.workers[a.w].delivery;
      match a
      case Insert(w, fate) =>
        if fate.Aborted? || (fate.Unheard? && d.key in s.rows) then Goto(s, w, Answered(ServerError))
        else if d.key in s.rows then Goto(s, w, Reclaiming)
        else Goto(s.(rows := Inserted(s.rows, d)), w, if fate.Heard? then Granted else Lost(true))
      case Reclaim(w, fate) =>
        if fate.Aborted? || (fate.Unheard? && !Reclaimable(s.rows, d.key)) then Goto(s, w, Answered(ServerError))
        else if !Reclaimable(s.rows, d.key) then Goto(s, w, Answered(Received))
        else Goto(s.(rows := Reclaimed(s.rows, d)), w, if fate.Heard? then Granted else Lost(true))
      case Reject(w, fate) =>
        if fate.Aborted? || d.key !in s.rows then Goto(s, w, Lost(true))
        else Goto(s.(rows := MarkedFailed(s.rows, d.key)), w, Answered(if fate.Heard? then Received else ServerError))
      case Handle(w, ok) => Goto(s, w, if ok then Completing else Failing(false))
      case Complete(w, now, fate) =>
        if fate.Aborted? || d.key !in s.rows then Goto(s, w, Failing(false))
        else Goto(s.(rows := MarkedProcessed(s.rows, d.key, now)), w,
                  if fate.Heard? then Answered(Received) else Failing(true))
      case Fail(w, fate) =>
        if fate.Aborted? || d.key !in s.rows then Goto(s, w, Lost(!s.workers[w].pc.written))
        else Goto(s.(rows := MarkedFailed(s.rows, d.key)), w, Answered(ServerError))
      case Crash(w) => Goto(s, w, Lost(Owes(s.workers[w])))
      case Arrive(_, _, _) => s
  }

  predicate ValidFrom(s: State, acts: seq<Action>)
    decreases acts
  {
    acts == [] || (Enabled(s, acts[0]) && ValidFrom(Apply(s, acts[0]), acts[1..]))
  }

  function Exec(s: State, acts: seq<Action>): State
    requires ValidFrom(s, acts)
    decreases acts
  {
    if acts == [] then s else Exec(Apply(s, acts[0]), acts[1..])
  }

  // ----- The lease of one key --------------------------------------------

  /** `Unsettled` is a PROCESSED write whose answer was lost: its holder goes on
      to the catch block. `Settled` is that holder ending without undoing it.
      `Stranded` is a claim that was lost in the moment it was won. */
  datatype Kind = GrantK | FailedK | ProcessedK | OrphanK | StrandedK | UnsettledK | SettledK

  datatype Event = Event(key: Key, worker: nat, kind: Kind)

  function KindOf(before: Pc, after: Pc): Option<Kind>
    requires !before.Answered? && !before.Lost?
  {
    match after
    case Granted => Some(GrantK)
    case Lost(held) =>
      if before.Creating? || before.Reclaiming? then if held then Some(StrandedK) else None
      else if before == Failing(true) then Some(SettledK) else Some(OrphanK)
    case Failing(written) => if written then Some(UnsettledK) else None
    case Answered(_) =>
      if before.Completing? then Some(ProcessedK)
      else if before.Granted? || before.Failing? then Some(FailedK) else None
    case _ => None
  }

  /** The protocol event an action amounts to, if any. */
  function Emit(s: State, a: Action): (log: seq<Event>)
    requires Enabled(s, a)
    ensures |log| <= 1
    ensures log != [] ==> !a.Arrive? && log[0].worker == a.w && log[0].key == s.workers[a.w].delivery.key
  {
    if a.Arrive? then []
    else
      var kind := KindOf(s.workers[a.w].pc, Apply(s, a).workers[a.w].pc);
      if kind.None? then [] else [Event(s.workers[a.w].delivery.key, a.w, kind.value)]
  }

  function Log(s: State, acts: seq<Action>): seq<Event>
    requires ValidFrom(s, acts)
    decreases acts
  {
    if acts == [] then [] else Emit(s, acts[0]) + Log(Apply(s, acts[0]), acts[1..])
  }

  datatype Lease = Absent | Held(w: nat) | Unsettled(w: nat) | Free | Done | Stuck(w: nat) | Broken

  /** The sequential protocol: a key is granted when new or after a failure,
      only its holder may end the grant, and `Done` and `Stuck` are final. A
      holder that did not hear its PROCESSED write may still undo it. */
  function Next(l: Lease, e: Event): Lease {
    match e.kind
    case GrantK => if l.Absent? || l.Free? then Held(e.worker) else Broken
    case StrandedK => if l.Absent? || l.Free? then Stuck(e.worker) else Broken
    case FailedK => if l == Held(e.worker) || l == Unsettled(e.worker) then Free else Broken
    case ProcessedK => if l == Held(e.worker) then Done else Broken
    case UnsettledK => if l == Held(e.worker) then Unsettled(e.worker) else Broken
    case SettledK => if l == Unsettled(e.worker) then Done else Broken
    case OrphanK => if l == Held(e.worker) then Stuck(e.worker) else Broken
  }

  function Replay(l: Lease, log: seq<Event>, k: Key): Lease
    decreases log
  {
    if log == [] then l
    else Replay(if log[0].key == k then Next(l, log[0]) else l, log[1..], k)
  }

  /** What lease state `l` of key `k` says about the database and the workers. */
  ghost predicate Agrees(s: State, k: Key, l: Lease) {
    && (forall w :: w in s.workers && Holds(s.workers[w], k) ==> l == LeaseOf(w, s.workers[w].pc))
    && (forall w :: w in s.workers && Orphaned(s.workers[w], k) ==> l == Stuck(w))
    && Describes(l, s, k)
  }

  /** The lease of a holder. */
  function LeaseOf(w: nat, pc: Pc): Lease { if pc == Failing(true) then Unsettled(w) else Held(w) }

  ghost predicate Describes(l: Lease, s: State, k: Key) {
    && (k in s.rows ==> s.rows[k].signatureValid
                        && (s.rows[k].status == PROCESSED ==> s.rows[k].processedAt.Some?)
                        && (s.rows[k].status == PROCESSING ==> s.rows[k].processedAt.None?))
    && match l
       case Absent => k !in s.rows
       case Free => k in s.rows && s.rows[k].status == FAILED
       case Done => k in s.rows && s.rows[k].status == PROCESSED
       case Held(w) => k in s.rows && s.rows[k].status == PROCESSING && HeldBy(l, s, k)
       case Unsettled(w) => k in s.rows && s.rows[k].status == PROCESSED && HeldBy(l, s, k)
       case Stuck(w) =>
         && k in s.rows && s.rows[k].status == PROCESSING
         && w in s.workers && Orphaned(s.workers[w], k)
       case Broken => false
  }

  ghost predicate HeldBy(l: Lease, s: State, k: Key)
    requires (l.Held? || l.Unsettled?) && k in s.rows
  {
    l.w in s.workers && Holds(s.workers[l.w], k) && l == LeaseOf(l.w, s.workers[l.w].pc)
    && OwnData(s.rows[k], s.workers[l.w].delivery)
  }

  predicate OwnData(row: Row, d: Delivery) {
    row.payload == d.payload && row.headers == d.headers && (d.tenantId.Some? ==> row.tenantId == d.tenantId)
  }

  lemma ReplayShort(l: Lease, log: seq<Event>, k: Key)
    requires |log| <= 1
    ensures Replay(l, log, k) == if log == [] || log[0].key != k then l else Next(l, log[0])
  {
  }

  // ----- Every interleaving refines the lease ------------------------------

  /** A step touches one worker and at most that worker's row. */
  lemma Footprint(s: State, a: Action)
    requires Enabled(s, a)
    ensures var s' := Apply(s, a);
      && s'.workers.Keys == s.workers.Keys + {a.w}
      && (forall w :: w in s.workers && w != a.w ==> s'.workers[w] == s.workers[w])
      && s'.workers[a.w].delivery == (if a.Arrive? then a.delivery else s.workers[a.w].delivery)
      && (a.Arrive? ==> s'.workers[a.w].pc.Creating? && s'.rows == s.rows)
  {
  }

  /** `Agrees` looks only at the row of `k` and at the workers on `k`. */
  lemma AgreesFrame(s: State, s': State, k: Key, l: Lease, v: nat)
    requires Agrees(s, k, l)
    requires k in s'.rows <==> k in s.rows
    requires k in s.rows ==> s'.rows[k] == s.rows[k]
    requires s'.workers.Keys == s.workers.Keys + {v}
    requires forall w :: w in s.workers && w != v ==> s'.workers[w] == s.workers[w]
    requires v in s.workers ==> !Holds(s.workers[v], k) && !Orphaned(s.workers[v], k)
    requires !Holds(s'.workers[v], k) && !Orphaned(s'.workers[v], k)
    ensures Agrees(s', k, l)
  {
  }

  lemma ElsewhereRefines(s: State, a: Action, k: Key, l: Lease)
    requires Enabled(s, a) && Agrees(s, k, l)
    requires a.Arrive? || s.workers[a.w].delivery.key != k
    ensures Agrees(Apply(s, a), k, Replay(l, Emit(s, a), k))
  {
    Footprint(s, a);
    FrameOfStep(s, a, k);
    AgreesFrame(s, Apply(s, a), k, l, a.w);
    ReplayShort(l, Emit(s, a), k);
  }

  lemma AgreesOwn(s: State, s': State, k: Key, l: Lease, l': Lease, v: nat)
    requires Agrees(s, k, l) && Describes(l', s', k)
    requires s'.workers.Keys == s.workers.Keys && v in s.workers
    requires forall w :: w in s.workers && w != v ==> s'.workers[w] == s.workers[w]
    requires ((l.Held? || l.Unsettled?) && l.w != v) || l.Stuck? ==> l' == l
    requires Holds(s'.workers[v], k) ==> l' == LeaseOf(v, s'.workers[v].pc)
    requires Orphaned(s'.workers[v], k) ==> l' == Stuck(v)
    ensures Agrees(s', k, l')
  {
  }

  /** A worker's step on its own key moves the lease from `l` legally. */
  ghost predicate MovesLegally(s: State, a: Action, k: Key, l: Lease)
    requires Enabled(s, a)
  {
    var s' := Apply(s, a);
    var l' := if Emit(s, a) == [] then l else Next(l, Emit(s, a)[0]);
    && a.w in s'.workers
    && Describes(l', s', k)
    && (((l.Held? || l.Unsettled?) && l.w != a.w) || l.Stuck? ==> l' == l)
    && (Holds(s'.workers[a.w], k) ==> l' == LeaseOf(a.w, s'.workers[a.w].pc))
    && (Orphaned(s'.workers[a.w], k) ==> l' == Stuck(a.w))
  }

  lemma OwnClaim(s: State, a: Action, k: Key, l: Lease)
    requires Enabled(s, a) && (a.Insert? || a.Reclaim?) && s.workers[a.w].delivery.key == k
    requires Holds(s.workers[a.w], k) <==> l == LeaseOf(a.w, s.workers[a.w].pc)
    requires Describes(l, s, k)
    ensures MovesLegally(s, a, k, l)
  {
  }

  lemma OwnStep(s: State, a: Action, k: Key, l: Lease)
    requires Enabled(s, a) && !a.Arrive? && s.workers[a.w].delivery.key == k
    requires Holds(s.workers[a.w], k) <==> l == LeaseOf(a.w, s.workers[a.w].pc)
    requires Describes(l, s, k)
    ensures MovesLegally(s, a, k, l)
  {
    if a.Insert? || a.Reclaim? { OwnClaim(s, a, k, l); }
  }

  lemma OwnKeyRefines(s: State, a: Action, k: Key, l: Lease)
    requires Enabled(s, a) && Agrees(s, k, l)
    requires !a.Arrive? && s.workers[a.w].delivery.key == k
    ensures Agrees(Apply(s, a), k, Replay(l, Emit(s, a), k))
  {
    Footprint(s, a);
    OwnStep(s, a, k, l);
    ReplayShort(l, Emit(s, a), k);
    AgreesOwn(s, Apply(s, a), k, l, Replay(l, Emit(s, a), k), a.w);
  }

  lemma StepRefines(s: State, a: Action, k: Key, l: Lease)
    requires Enabled(s, a) && Agrees(s, k, l)
    ensures Agrees(Apply(s, a), k, Replay(l, Emit(s, a), k))
  {
    if a.Arrive? || s.workers[a.w].delivery.key != k {
      ElsewhereRefines(s, a, k, l);
    } else {
      OwnKeyRefines(s, a, k, l);
    }
  }

  lemma {:induction false} ReplayConcat(l: Lease, a: seq<Event>, b: seq<Event>, k: Key)
    ensures Replay(l, a + b, k) == Replay(Replay(l, a, k), b, k)
    decreases a
  {
    if a == [] {
      assert a + b == b;
    } else {
      assert (a + b)[1..] == a[1..] + b;
      ReplayConcat(if a[0].key == k then Next(l, a[0]) else l, a[1..], b, k);
    }
  }

  /** Whatever the interleaving, the faults and the crashes, the events of each
      key form a legal history of its lease, and the lease it ends in
      describes the row and the workers. */
  lemma {:induction false} RunRefinesLease(s: State, acts: seq<Action>, k: Key, l: Lease)
    requires ValidFrom(s, acts) && Agrees(s, k, l)
    ensures Agrees(Exec(s, acts), k, Replay(l, Log(s, acts), k))
    decreases acts
  {
    if acts != [] {
      StepRefines(s, acts[0], k, l);
      RunRefinesLease(Apply(s, acts[0]), acts[1..], k, Replay(l, Emit(s, acts[0]), k));
      ReplayConcat(l, Emit(s, acts[0]), Log(Apply(s, acts[0]), acts[1..]), k);
    }
  }

  lemma EveryRunKeepsTheLease(acts: seq<Action>, k: Key)
    requires ValidFrom(INIT, acts)
    ensures Agrees(Exec(INIT, acts), k, Replay(Absent, Log(INIT, acts), k))
  {
    RunRefinesLease(INIT, acts, k, Absent);
  }

  // ----- Consequences ----------------------------------------------------

  /** At most one worker is between a grant and its final write. Meanwhile the row
      carries that worker's own delivery and is PROCESSING; or PROCESSED, if the
      worker is in the catch block after a PROCESSED write it did not hear of. */
  lemma MutualExclusion(acts: seq<Action>, k: Key, v: nat, w: nat)
    requires ValidFrom(INIT, acts)
    requires var s := Exec(INIT, acts);
      v in s.workers && Holds(s.workers[v], k) && w in s.workers && Holds(s.workers[w], k)
    ensures v == w
    ensures var s := Exec(INIT, acts);
      k in s.rows && OwnData(s.rows[k], s.workers[w].delivery)
      && s.rows[k].status == if s.workers[w].pc == Failing(true) then PROCESSED else PROCESSING
  {
    EveryRunKeepsTheLease(acts, k);
  }

  function Count(log: seq<Event>, k: Key, kind: Kind): nat {
    if log == [] then 0
    else (if log[0].key == k && log[0].kind == kind then 1 else 0) + Count(log[1..], k, kind)
  }

  function Owing(l: Lease): nat { if l.Held? || l.Unsettled? then 1 else 0 }

  /** Claims won; claims lost with the row PROCESSING; claims that ended with the
      row PROCESSED for good. */
  function Won(log: seq<Event>, k: Key): nat { Count(log, k, GrantK) + Count(log, k, StrandedK) }

  function Abandoned(log: seq<Event>, k: Key): nat { Count(log, k, OrphanK) + Count(log, k, StrandedK) }

  function Finished(log: seq<Event>, k: Key): nat { Count(log, k, ProcessedK) + Count(log, k, SettledK) }

  lemma CountOne(log: seq<Event>, k: Key)
    requires |log| == 1
    ensures forall kind :: Count(log, k, kind) == if log[0].key == k && log[0].kind == kind then 1 else 0
  {
    assert log[1..] == [];
  }

  function One(b: bool): nat { if b then 1 else 0 }

  /** One legal move of the lease. */
  lemma MoveAccounts(l: Lease, e: Event)
    requires !Next(l, e).Broken?
    ensures var end, kind := Next(l, e), e.kind;
      && Owing(l) + One(kind.GrantK? || kind.StrandedK?)
         == One(!kind.GrantK? && !kind.UnsettledK?) + Owing(end)
      && One(kind.ProcessedK? || kind.SettledK?) + One(l.Done?) == One(end.Done?)
      && One(kind.OrphanK? || kind.StrandedK?) + One(l.Stuck?) == One(end.Stuck?)
      && !l.Broken? && !l.Done? && !l.Stuck?
  {
  }

  lemma {:induction false} BrokenStaysBroken(log: seq<Event>, k: Key)
    ensures Replay(Broken, log, k).Broken?
    decreases log
  {
    if log != [] { BrokenStaysBroken(log[1..], k); }
  }

  /** Replaying from `Broken` or from a final state never leaves it legally. */
  lemma {:induction false} LeaseAccounts(l: Lease, log: seq<Event>, k: Key)
    requires !Replay(l, log, k).Broken?
    ensures var end := Replay(l, log, k);
      && Owing(l) + Won(log, k) == Count(log, k, FailedK) + Finished(log, k) + Abandoned(log, k) + Owing(end)
      && Finished(log, k) + One(l.Done?) == One(end.Done?)
      && Abandoned(log, k) + One(l.Stuck?) == One(end.Stuck?)
      && (l.Done? || l.Stuck? ==> end == l && Won(log, k) == 0)
      && !l.Broken?
    decreases log
  {
    if log != [] {
      if log[0].key == k {
        if Next(l, log[0]).Broken? { BrokenStaysBroken(log[1..], k); }
        MoveAccounts(l, log[0]);
        LeaseAccounts(Next(l, log[0]), log[1..], k);
      } else {
        LeaseAccounts(l, log[1..], k);
      }
    }
  }

  ghost function Holders(s: State, k: Key): set<nat> {
    set w | w in s.workers && Holds(s.workers[w], k)
  }

  ghost function Orphans(s: State, k: Key): set<nat> {
    set w | w in s.workers && Orphaned(s.workers[w], k)
  }

  /** What a lease says about the numbers. */
  lemma HoldersOfLease(s: State, k: Key, l: Lease)
    requires Agrees(s, k, l)
    ensures |Holders(s, k)| == Owing(l) && |Orphans(s, k)| == One(l.Stuck?)
    ensures l.Unsettled? <==> exists w :: w in Holders(s, k) && s.workers[w].pc == Failing(true)
  {
    assert Holders(s, k) == if l.Held? || l.Unsettled? then {l.w} else {};
    assert Orphans(s, k) == if l.Stuck? then {l.w} else {};
  }

  /** Claims won = FAILED writes + PROCESSED endings + claims in flight + claims
      lost with the row PROCESSING. */
  lemma ClaimConservation(acts: seq<Action>, k: Key)
    requires ValidFrom(INIT, acts)
    ensures var s, log := Exec(INIT, acts), Log(INIT, acts);
      && Won(log, k) == Count(log, k, FailedK) + Finished(log, k) + |Holders(s, k)| + |Orphans(s, k)|
      && |Holders(s, k)| + |Orphans(s, k)| + Finished(log, k) <= 1
      && (k in s.rows && s.rows[k].status == PROCESSED <==>
            Finished(log, k) == 1 || exists w :: w in Holders(s, k) && s.workers[w].pc == Failing(true))
  {
    var l := Replay(Absent, Log(INIT, acts), k);
    EveryRunKeepsTheLease(acts, k);
    LeaseAccounts(Absent, Log(INIT, acts), k);
    HoldersOfLease(Exec(INIT, acts), k, l);
    StatusOfLease(Exec(INIT, acts), k, l);
  }

  lemma StatusOfLease(s: State, k: Key, l: Lease)
    requires Agrees(s, k, l)
    ensures k in s.rows && s.rows[k].status == PROCESSED <==> l.Done? || l.Unsettled?
  {
  }

  lemma FrameOfStep(s: State, a: Action, k: Key)
    requires Enabled(s, a)
    requires a.Arrive? || s.workers[a.w].delivery.key != k
    ensures k in Apply(s, a).rows <==> k in s.rows
    ensures k in s.rows ==> Apply(s, a).rows[k] == s.rows[k]
  {
  }

  predicate Concerns(s: State, a: Action, k: Key)
    requires Enabled(s, a)
  {
    if a.Arrive? then a.delivery.key == k else s.workers[a.w].delivery.key == k
  }

  /** The steps of a run that are taken by deliveries of `k`. */
  function Projected(s: State, acts: seq<Action>, k: Key): seq<Action>
    requires ValidFrom(s, acts)
    decreases acts
  {
    if acts == [] then []
    else (if Concerns(s, acts[0], k) then [acts[0]] else []) + Projected(Apply(s, acts[0]), acts[1..], k)
  }

  predicate SameRow(s: State, t: State, k: Key) {
    (k in s.rows <==> k in t.rows) && (k in s.rows ==> s.rows[k] == t.rows[k])
  }

  /** `t` is what a world with no other key than `k` would look like. */
  ghost predicate SameFor(s: State, t: State, k: Key) {
    && SameRow(s, t, k)
    && (forall w :: w in t.workers <==> w in s.workers && s.workers[w].delivery.key == k)
    && (forall w :: w in t.workers ==> t.workers[w] == s.workers[w])
  }

  /** A step reads its own worker and the row of its own key, and no more. */
  lemma StepReadsItsOwn(s: State, t: State, a: Action, k: Key)
    requires Enabled(s, a) && !a.Arrive? && s.workers[a.w].delivery.key == k
    requires a.w in t.workers && t.workers[a.w] == s.workers[a.w] && SameRow(s, t, k)
    ensures Enabled(t, a) && Apply(t, a).workers[a.w] == Apply(s, a).workers[a.w]
    ensures SameRow(Apply(s, a), Apply(t, a), k)
  {
  }

  lemma FootprintSameFor(s: State, t: State, s': State, t': State, k: Key, v: nat)
    requires SameFor(s, t, k) && SameRow(s', t', k)
    requires s'.workers.Keys == s.workers.Keys + {v}
    requires forall w :: w in s.workers && w != v ==> s'.workers[w] == s.workers[w]
    requires t' == t || t'.workers.Keys == t.workers.Keys + {v}
    requires forall w :: w in t.workers && w != v ==> t'.workers[w] == t.workers[w]
    requires v in t'.workers <==> s'.workers[v].delivery.key == k
    requires v in t'.workers ==> t'.workers[v] == s'.workers[v]
    ensures SameFor(s', t', k)
  {
  }

  lemma StepSameFor(s: State, t: State, a: Action, k: Key)
    requires Enabled(s, a) && SameFor(s, t, k)
    ensures Concerns(s, a, k) ==> Enabled(t, a) && SameFor(Apply(s, a), Apply(t, a), k)
    ensures !Concerns(s, a, k) ==> SameFor(Apply(s, a), t, k)
  {
    Footprint(s, a);
    if Concerns(s, a, k) {
      if !a.Arrive? { StepReadsItsOwn(s, t, a, k); }
      Footprint(t, a);
      FootprintSameFor(s, t, Apply(s, a), Apply(t, a), k, a.w);
    } else {
      FrameOfStep(s, a, k);
      FootprintSameFor(s, t, Apply(s, a), t, k, a.w);
    }
  }

  /** Keys do not interfere: dropping every step of the other events' deliveries
      leaves a run that does the same to `k` and to the deliveries of `k`. */
  lemma {:induction false} KeysAreIndependent(s: State, t: State, acts: seq<Action>, k: Key)
    requires ValidFrom(s, acts) && SameFor(s, t, k)
    ensures ValidFrom(t, Projected(s, acts, k))
    ensures SameFor(Exec(s, acts), Exec(t, Projected(s, acts, k)), k)
    decreases acts
  {
    if acts != [] {
      var s', rest := Apply(s, acts[0]), Projected(Apply(s, acts[0]), acts[1..], k);
      StepSameFor(s, t, acts[0], k);
      if Concerns(s, acts[0], k) {
        KeysAreIndependent(s', Apply(t, acts[0]), acts[1..], k);
        assert ([acts[0]] + rest)[1..] == rest;
      } else {
        KeysAreIndependent(s', t, acts[1..], k);
        assert [] + rest == rest;
      }
    }
  }

  lemma StepOfNonHolder(s: State, a: Action, k: Key)
    requires Enabled(s, a) && k in s.rows && s.rows[k].status != FAILED
    requires !a.Arrive? && s.workers[a.w].delivery.key == k ==> !Holds(s.workers[a.w], k)
    ensures k in Apply(s, a).rows && Apply(s, a).rows[k] == s.rows[k]
    ensures Emit(s, a) == [] || Emit(s, a)[0].key != k
  {
  }

  /** A final lease freezes the row: no later step of any worker changes it. */
  lemma {:induction false} FinalRowIsFrozen(s: State, more: seq<Action>, k: Key, l: Lease)
    requires ValidFrom(s, more) && Agrees(s, k, l) && (l.Done? || l.Stuck?)
    ensures k in s.rows && k in Exec(s, more).rows && Exec(s, more).rows[k] == s.rows[k]
    decreases more
  {
    if more != [] {
      var s' := Apply(s, more[0]);
      StepOfNonHolder(s, more[0], k);
      StepRefines(s, more[0], k, l);
      ReplayShort(l, Emit(s, more[0]), k);
      FinalRowIsFrozen(s', more[1..], k, l);
    }
  }

  lemma FinalKeyIsNeverGranted(s: State, more: seq<Action>, k: Key, l: Lease)
    requires ValidFrom(s, more) && Agrees(s, k, l) && (l.Done? || l.Stuck?)
    ensures Won(Log(s, more), k) == 0
  {
    RunRefinesLease(s, more, k, l);
    LeaseAccounts(l, Log(s, more), k);
  }

  // A PROCESSED write that commits but seems to throw leads to the catch block,
  // whose FAILED write asks for no particular status.

  predicate Undoes(s: State, a: Action, k: Key)
    requires Enabled(s, a)
  {
    a.Fail? && !a.fate.Aborted? && s.workers[a.w].delivery.key == k && s.workers[a.w].pc == Failing(true)
  }

  /** One step takes a PROCESSED row out of its state exactly when it undoes. */
  lemma ProcessedStepChanges(s: State, a: Action, k: Key, l: Lease)
    requires Enabled(s, a) && Agrees(s, k, l) && k in s.rows && s.rows[k].status == PROCESSED
    ensures k in Apply(s, a).rows
    ensures Undoes(s, a, k) ==> Apply(s, a).rows[k] == s.rows[k].(status := FAILED)
    ensures !Undoes(s, a, k) ==> Apply(s, a).rows[k] == s.rows[k]
    ensures !Undoes(s, a, k) ==> Won(Emit(s, a), k) == 0
  {
    if a.Arrive? || s.workers[a.w].delivery.key != k { FrameOfStep(s, a, k); }
    if Emit(s, a) != [] { CountOne(Emit(s, a), k); }
  }

  predicate Undone(s: State, more: seq<Action>, k: Key)
    requires ValidFrom(s, more)
    decreases more
  {
    more != [] && (Undoes(s, more[0], k) || Undone(Apply(s, more[0]), more[1..], k))
  }

  /** Somewhere along the run the row is not PROCESSED. */
  predicate Leaves(s: State, more: seq<Action>, k: Key)
    requires ValidFrom(s, more)
    decreases more
  {
    if k !in s.rows || s.rows[k].status != PROCESSED then true
    else more != [] && Leaves(Apply(s, more[0]), more[1..], k)
  }

  lemma {:induction false} LeftIffUndone(s: State, more: seq<Action>, k: Key, l: Lease)
    requires ValidFrom(s, more) && Agrees(s, k, l) && k in s.rows && s.rows[k].status == PROCESSED
    ensures Leaves(s, more, k) <==> Undone(s, more, k)
    ensures !Undone(s, more, k) ==>
      k in Exec(s, more).rows && Exec(s, more).rows[k] == s.rows[k] && Won(Log(s, more), k) == 0
    decreases more
  {
    if more != [] {
      var s' := Apply(s, more[0]);
      ProcessedStepChanges(s, more[0], k, l);
      StepRefines(s, more[0], k, l);
      if !Undoes(s, more[0], k) {
        LeftIffUndone(s', more[1..], k, Replay(l, Emit(s, more[0]), k));
        CountConcat(Emit(s, more[0]), Log(s', more[1..]), k, GrantK);
        CountConcat(Emit(s, more[0]), Log(s', more[1..]), k, StrandedK);
      }
    }
  }

  lemma {:induction false} CountConcat(a: seq<Event>, b: seq<Event>, k: Key, kind: Kind)
    ensures Count(a + b, k, kind) == Count(a, k, kind) + Count(b, k, kind)
    decreases a
  {
    if a == [] {
      assert a + b == b;
    } else {
      assert (a + b)[1..] == a[1..] + b;
      CountConcat(a[1..], b, k, kind);
    }
  }

  /** In every continuation of every run: a PROCESSED row is left if and only if
      the worker that wrote it, not having heard of it, completes its catch
      block. Otherwise row and `processedAt` stay and no claim is won. */
  lemma ProcessedIsLeftIffUndone(acts: seq<Action>, more: seq<Action>, k: Key)
    requires ValidFrom(INIT, acts) && ValidFrom(Exec(INIT, acts), more)
    requires k in Exec(INIT, acts).rows && Exec(INIT, acts).rows[k].status == PROCESSED
    ensures var s := Exec(INIT, acts);
      && (Leaves(s, more, k) <==> Undone(s, more, k))
      && (!Undone(s, more, k) ==>
            k in Exec(s, more).rows && Exec(s, more).rows[k] == s.rows[k] && Won(Log(s, more), k) == 0)
  {
    EveryRunKeepsTheLease(acts, k);
    LeftIffUndone(Exec(INIT, acts), more, k, Replay(Absent, Log(INIT, acts), k));
  }

  /** Every PROCESSED write that took effect was heard. */
  predicate Heeded(acts: seq<Action>) { forall i :: 0 <= i < |acts| && acts[i].Complete? ==> !acts[i].fate.Unheard? }

  predicate NobodyUndoes(s: State) { forall w :: w in s.workers ==> s.workers[w].pc != Failing(true) }

  lemma {:induction false} HeededRuns(s: State, acts: seq<Action>)
    requires ValidFrom(s, acts) && Heeded(acts) && NobodyUndoes(s)
    ensures NobodyUndoes(Exec(s, acts))
    decreases acts
  {
    if acts != [] {
      Footprint(s, acts[0]);
      assert !(acts[0].Complete? && acts[0].fate.Unheard?);
      HeededRuns(Apply(s, acts[0]), acts[1..]);
    }
  }

  /** As long as no such answer was lost, PROCESSED is absorbing, whatever is lost
      later: the row never changes again and no claim of the event is won. */
  lemma ProcessedIsAbsorbing(acts: seq<Action>, more: seq<Action>, k: Key)
    requires ValidFrom(INIT, acts) && ValidFrom(Exec(INIT, acts), more) && Heeded(acts)
    requires k in Exec(INIT, acts).rows && Exec(INIT, acts).rows[k].status == PROCESSED
    ensures k in Exec(Exec(INIT, acts), more).rows
    ensures Exec(Exec(INIT, acts), more).rows[k] == Exec(INIT, acts).rows[k]
    ensures Won(Log(Exec(INIT, acts), more), k) == 0
  {
    EveryRunKeepsTheLease(acts, k);
    HeededRuns(INIT, acts);
    FinalRowIsFrozen(Exec(INIT, acts), more, k, Replay(Absent, Log(INIT, acts), k));
    FinalKeyIsNeverGranted(Exec(INIT, acts), more, k, Replay(Absent, Log(INIT, acts), k));
  }

  /** The price of a lost holder: its event stays PROCESSING for ever. */
  lemma LostHolderBlocksForEver(acts: seq<Action>, more: seq<Action>, k: Key, w: nat)
    requires ValidFrom(INIT, acts) && ValidFrom(Exec(INIT, acts), more)
    requires w in Exec(INIT, acts).workers && Orphaned(Exec(INIT, acts).workers[w], k)
    ensures k in Exec(Exec(INIT, acts), more).rows
    ensures Exec(Exec(INIT, acts), more).rows[k].status == PROCESSING
    ensures Won(Log(Exec(INIT, acts), more), k) == 0
  {
    EveryRunKeepsTheLease(acts, k);
    FinalRowIsFrozen(Exec(INIT, acts), more, k, Replay(Absent, Log(INIT, acts), k));
    FinalKeyIsNeverGranted(Exec(INIT, acts), more, k, Replay(Absent, Log(INIT, acts), k));
  }

  lemma {:induction false} RunMore(s: State, acts: seq<Action>, a: Action)
    requires ValidFrom(s, acts) && Enabled(Exec(s, acts), a)
    ensures ValidFrom(s, acts + [a]) && Exec(s, acts + [a]) == Apply(Exec(s, acts), a)
    decreases acts
  {
    if acts == [] {
      assert acts + [a] == [a];
    } else {
      RunMore(Apply(s, acts[0]), acts[1..], a);
      assert (acts + [a])[1..] == acts[1..] + [a];
    }
  }

  /** A run to a lost holder: the process dies right after its claim. */
  lemma HolderCanBeLost(d: Delivery) returns (acts: seq<Action>)
    ensures ValidFrom(INIT, acts) && 0 in Exec(INIT, acts).workers && Orphaned(Exec(INIT, acts).workers[0], d.key)
  {
    acts := [];
    RunMore(INIT, acts, Arrive(0, Clerk, d));
    acts := acts + [Arrive(0, Clerk, d)];
    RunMore(INIT, acts, Insert(0, Heard));
    acts := acts + [Insert(0, Heard)];
    RunMore(INIT, acts, Crash(0));
    acts := acts + [Crash(0)];
  }

  /** A delivery of a new event that processes it, does not hear of its PROCESSED
      write, and writes FAILED over it. */
  lemma ProcessedCanBeUndone(d: Delivery) returns (acts: seq<Action>, done: State)
    ensures ValidFrom(INIT, acts) && |acts| > 0 && done == Exec(INIT, acts)
    ensures d.key in done.rows && done.rows[d.key].status == PROCESSED
    ensures done.workers == map[0 := Worker(Clerk, d, Failing(true))]
    ensures Enabled(done, Fail(0, Heard)) && Apply(done, Fail(0, Heard)).rows[d.key].status == FAILED
  {
    acts := [];
    RunMore(INIT, acts, Arrive(0, Clerk, d));
    acts := acts + [Arrive(0, Clerk, d)];
    RunMore(INIT, acts, Insert(0, Heard));
    acts := acts + [Insert(0, Heard)];
    RunMore(INIT, acts, Handle(0, true));
    acts := acts + [Handle(0, true)];
    RunMore(INIT, acts, Complete(0, 1, Unheard));
    acts := acts + [Complete(0, 1, Unheard)];
    done := Exec(INIT, acts);
  }

  /** And the next delivery of it is granted: the event is handled twice. */
  lemma ProcessedCanBeGrantedAgain(d: Delivery) returns (acts: seq<Action>)
    ensures ValidFrom(INIT, acts) && 1 in Exec(INIT, acts).workers && Exec(INIT, acts).workers[1].pc.Granted?
    ensures exists n :: 0 < n < |acts| && ValidFrom(INIT, acts[..n]) && d.key in Exec(INIT, acts[..n]).rows
                        && Exec(INIT, acts[..n]).rows[d.key].status == PROCESSED
  {
    var before, done := ProcessedCanBeUndone(d);
    RunMore(INIT, before, Fail(0, Heard));
    acts := before + [Fail(0, Heard)];
    RunMore(INIT, acts, Arrive(1, Clerk, d));
    acts := acts + [Arrive(1, Clerk, d)];
    RunMore(INIT, acts, Insert(1, Heard));
    acts := acts + [Insert(1, Heard)];
    RunMore(INIT, acts, Reclaim(1, Heard));
    acts := acts + [Reclaim(1, Heard)];
    assert acts[..|before|] == before;
  }

  lemma RunOfTwo(s: State, a: Action, b: Action)
    requires Enabled(s, a) && Enabled(Apply(s, a), b)
    ensures ValidFrom(s, [a, b]) && Exec(s, [a, b]) == Apply(Apply(s, a), b)
  {
    assert [a, b][1..] == [b] && [b][1..] == [];
    assert ValidFrom(Apply(s, a), [b]) && Exec(Apply(s, a), [b]) == Apply(Apply(s, a), b);
  }

  lemma RunOfThree(s: State, a: Action, b: Action, c: Action)
    requires Enabled(s, a) && ValidFrom(Apply(s, a), [b, c])
    ensures ValidFrom(s, [a, b, c]) && Exec(s, [a, b, c]) == Exec(Apply(s, a), [b, c])
  {
  }

  /** The claim statements of one worker run back to back without a fault. */
  function ClaimActions(s: State, w: nat, route: Route, d: Delivery): seq<Action> {
    if d.key in s.rows then [Arrive(w, route, d), Insert(w, Heard), Reclaim(w, Heard)]
    else [Arrive(w, route, d), Insert(w, Heard)]
  }

  /** A fresh delivery that is left alone is granted exactly when the event is
      new or its row is FAILED, which in a reachable state is exactly when its
      lease is `Absent` or `Free`. */
  lemma FreshDeliveryIsGranted(acts: seq<Action>, w: nat, route: Route, d: Delivery)
    requires ValidFrom(INIT, acts) && w !in Exec(INIT, acts).workers
    ensures var s := Exec(INIT, acts);
      var l := Replay(Absent, Log(INIT, acts), d.key);
      && ValidFrom(s, ClaimActions(s, w, route, d))
      && var s' := Exec(s, ClaimActions(s, w, route, d));
         && w in s'.workers
         && (s'.workers[w].pc.Granted? <==> l.Absent? || l.Free?)
         && (!s'.workers[w].pc.Granted? ==> s'.workers[w].pc == Answered(Received) && s'.rows == s.rows)
  {
    var s := Exec(INIT, acts);
    EveryRunKeepsTheLease(acts, d.key);
    var s1 := Apply(s, Arrive(w, route, d));
    var s2 := Apply(s1, Insert(w, Heard));
    if d.key in s.rows {
      RunOfTwo(s1, Insert(w, Heard), Reclaim(w, Heard));
      RunOfThree(s, Arrive(w, route, d), Insert(w, Heard), Reclaim(w, Heard));
    } else {
      RunOfTwo(s, Arrive(w, route, d), Insert(w, Heard));
    }
  }
}
