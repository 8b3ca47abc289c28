/** What a membership row and the audit log say after any run of events, read off
    the events, the known tenants and users, and the seeded roles. */
module MembershipColumns {
  import opened Prelude
  import opened MembershipModel
  import opened MembershipOwners

  // ----- What a webhook says ------------------------------------------------------

  const APP_ROLES := ["Owner", "Admin", "Operator", "Viewer"]

  /** The role name of a snapshot: its hint if that names one of the four roles,
      else what Clerk's coarse role stands for. */
  function SaidName(s: Snapshot, isFirst: bool): string {
    if s.hint.Some? && s.hint.value in APP_ROLES then s.hint.value
    else if s.orgRole != "org:admin" then "Operator"
    else if isFirst then "Owner" else "Admin"
  }

  lemma ResolveSaysTheName(s: Snapshot, isFirst: bool)
    ensures RoleName(Resolve(s, isFirst)) == SaidName(s, isFirst)
  {
    assert APP_ROLES[0] == "Owner" && APP_ROLES[1] == "Admin" && APP_ROLES[2] == "Operator" && APP_ROLES[3] == "Viewer";
  }

  lemma NamesDiffer(r: Role, r': Role)
    ensures RoleName(r) == RoleName(r') <==> r == r'
  {
    assert RoleName(r)[0] == RoleName(r')[0] ==> (|RoleName(r)| == |RoleName(r')| <==> r == r');
  }

  predicate Seeded(seeded: set<Role>, name: string) { exists r :: r in seeded && RoleName(r) == name }

  predicate NoRowsOf(w: World, tenant: string) { forall seat :: seat in w.members ==> seat.tenant != tenant }

  // ----- Which events are accepted for a seat ---------------------------------------

  predicate CreationAccepted(w: World, seeded: set<Role>, e: Event, seat: Seat) {
    && e.Created? && e.seat == seat && seat.tenant in w.tenants && seat.user in w.users
    && Seeded(seeded, SaidName(e.s, NoRowsOf(w, seat.tenant)))
  }

  predicate UpdateAccepted(w: World, seeded: set<Role>, e: Event, seat: Seat) {
    && e.Updated? && e.seat == seat && seat.tenant in w.tenants && seat.user in w.users && seat in w.members
    && Seeded(seeded, SaidName(e.s, false))
  }

  predicate DeletionAccepted(w: World, e: Event, seat: Seat) {
    seat in w.members && e.Deleted? && e.seat == seat && seat.tenant in w.tenants && seat.user in w.users
  }

  predicate RemovalAccepted(w: World, e: Event, seat: Seat) {
    seat in w.members && e.Remove? && e.seat == seat && seat.tenant == e.tenant && w.members[seat].role != Owner
  }

  predicate ChangeAccepted(w: World, e: Event, seat: Seat) {
    e.UpdateRole? && e.seat == seat && seat.tenant == e.tenant && seat in w.members && w.members[seat].role != Owner
  }

  function StatusAt(w: World, seat: Seat): Option<MemberStatus> {
    if seat in w.members then Some(w.members[seat].status) else None
  }

  function NameAt(w: World, seat: Seat): Option<string> {
    if seat in w.members then Some(RoleName(w.members[seat].role)) else None
  }

  function AssignedName(r: Assignable): string {
    match r case ToAdmin => "Admin" case ToOperator => "Operator" case ToViewer => "Viewer"
  }

  // ----- One event -------------------------------------------------------------------

  function StatusGiven(w: World, seeded: set<Role>, e: Event, seat: Seat): Option<MemberStatus> {
    if CreationAccepted(w, seeded, e, seat) then Some(ACTIVE)
    else if DeletionAccepted(w, e, seat) || RemovalAccepted(w, e, seat) then Some(REMOVED) else None
  }

  function NameGiven(w: World, seeded: set<Role>, e: Event, seat: Seat): Option<string> {
    if CreationAccepted(w, seeded, e, seat) then Some(SaidName(e.s, NoRowsOf(w, seat.tenant)))
    else if UpdateAccepted(w, seeded, e, seat) then Some(SaidName(e.s, false))
    else if ChangeAccepted(w, e, seat) then Some(AssignedName(e.r)) else None
  }

  function Saying(given: Option<string>, otherwise: Option<string>): Option<string> { if given.Some? then given else otherwise }

  lemma SeededIff(seeded: set<Role>, s: Snapshot, isFirst: bool)
    ensures Seeded(seeded, SaidName(s, isFirst)) <==> Resolve(s, isFirst) in seeded
  {
    ResolveSaysTheName(s, isFirst);
    forall r
      ensures RoleName(r) == RoleName(Resolve(s, isFirst)) <==> r == Resolve(s, isFirst)
    {
      NamesDiffer(r, Resolve(s, isFirst));
    }
  }

  /** One event gives a seat the status and the role name it is accepted to give. */
  lemma EventGives(w: World, seeded: set<Role>, e: Event, seat: Seat)
    ensures var w', status := Do(w, seeded, e), StatusGiven(w, seeded, e, seat);
      && StatusAt(w', seat) == (if status.Some? then status else StatusAt(w, seat))
      && NameAt(w', seat) == Saying(NameGiven(w, seeded, e, seat), NameAt(w, seat))
  {
    if e.Created? || e.Updated? {
      var isFirst := e.Created? && IsFirst(w.members, e.seat.tenant);
      SeededIff(seeded, e.s, isFirst);
      ResolveSaysTheName(e.s, isFirst);
    }
  }

  // ----- Over runs -----------------------------------------------------------------------

  function LastStatus(w: World, seeded: set<Role>, events: seq<Event>, seat: Seat, before: Option<MemberStatus>): Option<MemberStatus>
    decreases events
  {
    if events == [] then before
    else
      var given := StatusGiven(w, seeded, events[0], seat);
      LastStatus(Do(w, seeded, events[0]), seeded, events[1..], seat, if given.Some? then given else before)
  }

  function LastName(w: World, seeded: set<Role>, events: seq<Event>, seat: Seat, before: Option<string>): Option<string>
    decreases events
  {
    if events == [] then before
    else LastName(Do(w, seeded, events[0]), seeded, events[1..], seat, Saying(NameGiven(w, seeded, events[0], seat), before))
  }

  /** Over any run: a seat is REMOVED after the last accepted deletion or removal,
      ACTIVE after the last accepted creation, and otherwise what it was. */
  lemma {:induction false} StatusIsTheLastGiven(w: World, seeded: set<Role>, events: seq<Event>, seat: Seat)
    ensures StatusAt(Run(w, seeded, events), seat) == LastStatus(w, seeded, events, seat, StatusAt(w, seat))
    decreases events
  {
    if events != [] {
      EventGives(w, seeded, events[0], seat);
      StatusIsTheLastGiven(Do(w, seeded, events[0]), seeded, events[1..], seat);
    }
  }

  /** And its role is the one last named by an accepted webhook or role change. */
  lemma {:induction false} RoleIsTheLastGiven(w: World, seeded: set<Role>, events: seq<Event>, seat: Seat)
    ensures NameAt(Run(w, seeded, events), seat) == LastName(w, seeded, events, seat, NameAt(w, seat))
    decreases events
  {
    if events != [] {
      EventGives(w, seeded, events[0], seat);
      RoleIsTheLastGiven(Do(w, seeded, events[0]), seeded, events[1..], seat);
    }
  }

  function Recorded(w: World, e: Event): seq<Audit> {
    if (e.UpdateRole? || e.Remove?) && e.seat in w.members && e.seat.tenant == e.tenant && w.members[e.seat].role != Owner then
      [Audit(e.tenant, e.actor, Some(e.seat), if e.UpdateRole? then RoleChanged(e.r) else MemberRemoved)]
    else []
  }

  function RecordedOver(w: World, seeded: set<Role>, events: seq<Event>): seq<Audit>
    decreases events
  {
    if events == [] then [] else Recorded(w, events[0]) + RecordedOver(Do(w, seeded, events[0]), seeded, events[1..])
  }

  lemma EventRecords(w: World, seeded: set<Role>, e: Event)
    ensures Do(w, seeded, e).audits == w.audits + Recorded(w, e)
    ensures Do(w, seeded, e).tenants == w.tenants + (if e.TenantCreated? then {e.tenant} else {})
    ensures Do(w, seeded, e).users == w.users + (if e.UserUpserted? then {e.user} else {})
  {
    assert w.audits + [] == w.audits;
  }

  /** The audit rows of a run are its accepted role changes and removals, in order. */
  lemma {:induction false} AuditsTellTheRun(w: World, seeded: set<Role>, events: seq<Event>)
    ensures Run(w, seeded, events).audits == w.audits + RecordedOver(w, seeded, events)
    decreases events
  {
    if events == [] {
      ConcatNothing(w.audits);
    } else {
      var more, rest := Recorded(w, events[0]), RecordedOver(Do(w, seeded, events[0]), seeded, events[1..]);
      EventRecords(w, seeded, events[0]);
      AuditsTellTheRun(Do(w, seeded, events[0]), seeded, events[1..]);
      ConcatAssociates(w.audits, more, rest);
    }
  }
}
