/** Who can be Owner: over every run of atomically handled events without an
    Owner hint a tenant has at most one, and it is only ever its first member. */
module MembershipOwners {
  import opened Prelude
  import opened MembershipModel

  datatype Event =
    | TenantCreated(tenant: string)
    | UserUpserted(user: string)
    | Created(seat: Seat, s: Snapshot)
    | Updated(seat: Seat, s: Snapshot)
    | Deleted(seat: Seat)
    | UpdateRole(tenant: string, actor: string, seat: Seat, r: Assignable)
    | Remove(tenant: string, actor: string, seat: Seat)

  predicate NoOwnerHint(e: Event) {
    e.Created? || e.Updated? ==> !HintsOwner(e.s)
  }

  function Do(w: World, seeded: set<Role>, e: Event): World {
    match e
    case TenantCreated(t) => w.(tenants := w.tenants + {t})
    case UserUpserted(u) => w.(users := w.users + {u})
    case Created(seat, s) => OnCreated(w, seeded, seat, s)
    case Updated(seat, s) => OnUpdated(w, seeded, seat, s)
    case Deleted(seat) => OnDeleted(w, seat)
    case UpdateRole(t, actor, seat, r) => if Manageable(w, t, seat) then RoleChangedLocally(w, actor, seat, r) else w
    case Remove(t, actor, seat) => if Manageable(w, t, seat) then RemovedLocally(w, actor, seat) else w
  }

  function Run(w: World, seeded: set<Role>, events: seq<Event>): World
    decreases events
  {
    if events == [] then w else Run(Do(w, seeded, events[0]), seeded, events[1..])
  }

  predicate IsOwner(w: World, seat: Seat) { seat in w.members && w.members[seat].role.Owner? }

  ghost predicate OneOwner(w: World) {
    forall a, b :: IsOwner(w, a) && IsOwner(w, b) && a.tenant == b.tenant ==> a == b
  }

  /** A seat becomes Owner in one step exactly when it is created as an
      organisation admin while its tenant has no membership row at all. */
  lemma OwnerIsBorn(w: World, seeded: set<Role>, e: Event, seat: Seat)
    requires NoOwnerHint(e) && !IsOwner(w, seat)
    ensures IsOwner(Do(w, seeded, e), seat) <==>
      && e.Created? && e.seat == seat && Known(w, seat) && Owner in seeded
      && IsFirst(w.members, seat.tenant)
      && Resolve(e.s, false) == Admin && e.s.orgRole == ORG_ADMIN
      && (e.s.hint.None? || AppRole(e.s.hint.value).None?)
  {
  }

  /** A webhook hinting Owner for one seat while another of its tenant is Owner:
      the hint is taken without a look at the other memberships. */
  ghost predicate HintsSecondOwner(w: World, seeded: set<Role>, e: Event) {
    && (e.Created? || e.Updated?) && HintsOwner(e.s)
    && Known(w, e.seat) && Owner in seeded && (e.Updated? ==> e.seat in w.members)
    && exists other :: IsOwner(w, other) && other.tenant == e.seat.tenant && other != e.seat
  }

  /** One event, whatever it says, keeps at most one Owner per tenant, except
      exactly the hint for a second one. */
  lemma OneOwnerUnlessHinted(w: World, seeded: set<Role>, e: Event)
    requires OneOwner(w)
    ensures OneOwner(Do(w, seeded, e)) <==> !HintsSecondOwner(w, seeded, e)
  {
  }

  lemma {:induction false} AtMostOneOwner(w: World, seeded: set<Role>, events: seq<Event>)
    requires OneOwner(w) && forall e :: e in events ==> NoOwnerHint(e)
    ensures OneOwner(Run(w, seeded, events))
    decreases events
  {
    if events != [] {
      assert NoOwnerHint(events[0]);
      OneOwnerUnlessHinted(w, seeded, events[0]);
      AtMostOneOwner(Do(w, seeded, events[0]), seeded, events[1..]);
    }
  }

  /** Rows are never deleted, so once a tenant has any membership its set of
      Owners only shrinks: a lost Owner never comes back without a hint. */
  lemma {:induction false} OwnersOnlyShrink(w: World, seeded: set<Role>, events: seq<Event>, seat: Seat)
    requires !IsFirst(w.members, seat.tenant) && !IsOwner(w, seat)
    requires forall e :: e in events ==> NoOwnerHint(e)
    ensures !IsOwner(Run(w, seeded, events), seat)
    decreases events
  {
    if events != [] {
      var w' := Do(w, seeded, events[0]);
      var other :| other in w.members && other.tenant == seat.tenant;
      assert other in w'.members;
      OwnerIsBorn(w, seeded, events[0], seat);
      OwnersOnlyShrink(w', seeded, events[1..], seat);
    }
  }

  /** An update webhook without a hint demotes an Owner for good. */
  lemma DemotedOwnerStaysDemoted(w: World, seeded: set<Role>, seat: Seat, s: Snapshot, events: seq<Event>)
    requires IsOwner(w, seat) && Known(w, seat) && s.hint.None? && Resolve(s, false) in seeded
    requires forall e :: e in events ==> NoOwnerHint(e)
    ensures !IsOwner(Run(Do(w, seeded, Updated(seat, s)), seeded, events), seat)
  {
    OwnersOnlyShrink(Do(w, seeded, Updated(seat, s)), seeded, events, seat);
  }

  /** The member-management calls never touch an Owner's row, and no role they
      can name resolves to Owner on any webhook. */
  lemma ManagementLeavesOwners(w: World, seeded: set<Role>, e: Event, owner: Seat, r: Assignable, orgRole: string, first: bool)
    requires IsOwner(w, owner) && (e.UpdateRole? || e.Remove?)
    ensures owner in Do(w, seeded, e).members && Do(w, seeded, e).members[owner] == w.members[owner]
    ensures Resolve(Snapshot(orgRole, Some(RoleName(RoleOf(r)))), first) == RoleOf(r) != Owner
  {
  }

  lemma RunOne(w: World, seeded: set<Role>, e: Event, rest: seq<Event>)
    ensures Run(w, seeded, [e] + rest) == Run(Do(w, seeded, e), seeded, rest)
  {
    assert ([e] + rest)[1..] == rest;
  }

  /** A run to a second Owner: the creator of a tenant, then a hinted member. */
  lemma SecondOwnerCanBeHinted(seeded: set<Role>) returns (events: seq<Event>, last: Event)
    requires Owner in seeded
    ensures var w := Run(World({}, {}, map[], []), seeded, events);
      OneOwner(w) && HintsSecondOwner(w, seeded, last) && !OneOwner(Do(w, seeded, last))
  {
    var a, b := Seat("t", "a"), Seat("t", "b");
    var e0, e1, e2, e3 := TenantCreated("t"), UserUpserted("a"), UserUpserted("b"), Created(a, Snapshot(ORG_ADMIN, None));
    last := Created(b, Snapshot(ORG_MEMBER, Some("Owner")));
    var w := World({}, {}, map[], []);
    var w3 := Do(Do(Do(w, seeded, e0), seeded, e1), seeded, e2);
    RunOne(w3, seeded, e3, []);
    RunOne(Do(Do(w, seeded, e0), seeded, e1), seeded, e2, [e3] + []);
    RunOne(Do(w, seeded, e0), seeded, e1, [e2] + ([e3] + []));
    RunOne(w, seeded, e0, [e1] + ([e2] + ([e3] + [])));
    events := [e0] + ([e1] + ([e2] + ([e3] + [])));
    assert w3.members == map[] && IsOwner(Do(w3, seeded, e3), a);
    OneOwnerUnlessHinted(Do(w3, seeded, e3), seeded, last);
  }
}
