/** Tenant memberships as both sides see them: the local table, and the snapshot
    of a Clerk membership that a webhook carries. */
module MembershipModel {
  import opened Prelude

  datatype Role = Owner | Admin | Operator | Viewer

  datatype MemberStatus = INVITED | ACTIVE | SUSPENDED | REMOVED

  datatype Member = Member(role: Role, status: MemberStatus)

  datatype Seat = Seat(tenant: string, user: string)

  /** What a membership webhook says: Clerk's own role and `public_metadata.appRole`. */
  datatype Snapshot = Snapshot(orgRole: string, hint: Option<string>)

  /** The roles an invite or a role change may name; Owner is not one. */
  datatype Assignable = ToAdmin | ToOperator | ToViewer

  function RoleOf(r: Assignable): Role {
    match r case ToAdmin => Admin case ToOperator => Operator case ToViewer => Viewer
  }

  function RoleName(r: Role): string {
    match r case Owner => "Owner" case Admin => "Admin" case Operator => "Operator" case Viewer => "Viewer"
  }

  const ORG_ADMIN := "org:admin"
  const ORG_MEMBER := "org:member"

  /** `APP_ROLE_TO_CLERK_ROLE`. */
  function ToOrgRole(r: Assignable): string {
    if r.ToAdmin? then ORG_ADMIN else ORG_MEMBER
  }

  function AppRole(name: string): Option<Role> {
    if name == "Owner" then Some(Owner) else if name == "Admin" then Some(Admin)
    else if name == "Operator" then Some(Operator) else if name == "Viewer" then Some(Viewer) else None
  }

  /** `resolveRoleName`: a known hint decides, else Clerk's coarse role does. */
  function Resolve(s: Snapshot, isFirst: bool): Role {
    if s.hint.Some? && AppRole(s.hint.value).Some? then AppRole(s.hint.value).value
    else if s.orgRole == ORG_ADMIN then (if isFirst then Owner else Admin)
    else Operator
  }

  predicate HintsOwner(s: Snapshot) { s.hint == Some("Owner") }

  datatype Action = MemberInvited(email: string, role: Assignable) | RoleChanged(role: Assignable) | MemberRemoved

  datatype Audit = Audit(tenant: string, actor: string, seat: Option<Seat>, action: Action)

  datatype World = World(tenants: set<string>, users: set<string>, members: map<Seat, Member>, audits: seq<Audit>)

  predicate Known(w: World, seat: Seat) { seat.tenant in w.tenants && seat.user in w.users }

  predicate IsFirst(members: map<Seat, Member>, tenant: string) {
    forall seat :: seat in members ==> seat.tenant != tenant
  }

  // Webhook handlers. Created and Updated throw on an unknown tenant or user,
  // and do nothing when the role was never seeded.

  function OnCreated(w: World, seeded: set<Role>, seat: Seat, s: Snapshot): World {
    var role := Resolve(s, IsFirst(w.members, seat.tenant));
    if Known(w, seat) && role in seeded then w.(members := w.members[seat := Member(role, ACTIVE)]) else w
  }

  function OnUpdated(w: World, seeded: set<Role>, seat: Seat, s: Snapshot): World {
    var role := Resolve(s, false);
    if Known(w, seat) && role in seeded && seat in w.members then
      w.(members := w.members[seat := w.members[seat].(role := role)])
    else w
  }

  function OnDeleted(w: World, seat: Seat): World {
    if Known(w, seat) && seat in w.members then
      w.(members := w.members[seat := w.members[seat].(status := REMOVED)])
    else w
  }

  /** Service calls name a membership of the caller's own tenant. */
  predicate Manageable(w: World, tenant: string, seat: Seat) {
    seat in w.members && seat.tenant == tenant && !w.members[seat].role.Owner?
  }

  function RoleChangedLocally(w: World, actor: string, seat: Seat, r: Assignable): World
    requires seat in w.members
  {
    w.(members := w.members[seat := w.members[seat].(role := RoleOf(r))],
       audits := w.audits + [Audit(seat.tenant, actor, Some(seat), RoleChanged(r))])
  }

  function RemovedLocally(w: World, actor: string, seat: Seat): World
    requires seat in w.members
  {
    w.(members := w.members[seat := w.members[seat].(status := REMOVED)],
       audits := w.audits + [Audit(seat.tenant, actor, Some(seat), MemberRemoved)])
  }
}
