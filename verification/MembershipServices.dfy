/** The Clerk webhook service and the members service as they are written, over
    the local tables and Clerk's own state. */
module MembershipServices {
  import opened Prelude
  import opened MembershipModel
  import RoleSync

  class Database {
    var tenants: set<string>
    var users: set<string>
    var members: map<Seat, Member>
    var audits: seq<Audit>

    ghost function World(): World
      reads this
    {
      MembershipModel.World(tenants, users, members, audits)
    }

    constructor ()
      ensures World() == MembershipModel.World({}, {}, map[], [])
    {
      tenants, users, members, audits := {}, {}, map[], [];
    }
  }

  class ClerkWebhookService {
    const db: Database
    const seeded: set<Role>

    constructor (db: Database, seeded: set<Role>)
      ensures this.db == db && this.seeded == seeded
    {
      this.db, this.seeded := db, seeded;
    }

    /** `ok` is false when the handler throws, which marks the event FAILED. */
    method OnMembershipCreated(seat: Seat, s: Snapshot) returns (ok: bool)
      modifies db
      ensures db.World() == OnCreated(old(db.World()), seeded, seat, s)
      ensures ok <==> Known(old(db.World()), seat)
    {
      if seat.tenant !in db.tenants { return false; }
      if seat.user !in db.users { return false; }
      var isFirst := forall other :: other in db.members ==> other.tenant != seat.tenant;
      var role := Resolve(s, isFirst);
      if role !in seeded { return true; }
      if seat in db.members {
        db.members := db.members[seat := db.members[seat].(role := role, status := ACTIVE)];
      } else {
        db.members := db.members[seat := Member(role, ACTIVE)];
      }
      ok := true;
    }

    method OnMembershipUpdated(seat: Seat, s: Snapshot) returns (ok: bool)
      modifies db
      ensures db.World() == OnUpdated(old(db.World()), seeded, seat, s)
      ensures ok <==> Known(old(db.World()), seat)
    {
      if seat.tenant !in db.tenants || seat.user !in db.users { return false; }
      var role := Resolve(s, false);
      if role !in seeded { return true; }
      if seat in db.members { db.members := db.members[seat := db.members[seat].(role := role)]; }
      ok := true;
    }

    method OnMembershipDeleted(seat: Seat)
      modifies db
      ensures db.World() == OnDeleted(old(db.World()), seat)
    {
      if seat.tenant !in db.tenants || seat.user !in db.users { return; }
      if seat in db.members { db.members := db.members[seat := db.members[seat].(status := REMOVED)]; }
    }
  }

  datatype Invitation = Invitation(tenant: string, email: string, snapshot: Snapshot)

  /** Clerk: its memberships, the invitations sent, and the webhooks its calls
      cause. A call may take effect although its caller sees it fail. */
  class ClerkBackend {
    var memberships: map<Seat, Snapshot>
    var invitations: seq<Invitation>
    var emitted: seq<(Seat, Snapshot)>

    constructor ()
      ensures memberships == map[] && invitations == [] && emitted == []
    {
      memberships, invitations, emitted := map[], [], [];
    }

    method UpdateMembershipMetadata(seat: Seat, appRole: string, fate: Fate) returns (ok: bool)
      modifies this
      ensures ok == (fate.Heard? && seat in old(memberships))
      ensures invitations == old(invitations)
      ensures var done := !fate.Aborted? && seat in old(memberships);
        && memberships == (if done then old(memberships)[seat := old(memberships)[seat].(hint := Some(appRole))]
                           else old(memberships))
        && emitted == old(emitted) + if done then [(seat, memberships[seat])] else []
    {
      if fate.Aborted? || seat !in memberships { return false; }
      memberships := memberships[seat := memberships[seat].(hint := Some(appRole))];
      emitted := emitted + [(seat, memberships[seat])];
      ok := fate.Heard?;
    }

    method UpdateMembershipRole(seat: Seat, orgRole: string, fate: Fate) returns (ok: bool)
      modifies this
      ensures ok == (fate.Heard? && seat in old(memberships))
      ensures invitations == old(invitations)
      ensures var done := !fate.Aborted? && seat in old(memberships);
        && memberships == (if done then old(memberships)[seat := old(memberships)[seat].(orgRole := orgRole)]
                           else old(memberships))
        && emitted == old(emitted) + if done then [(seat, memberships[seat])] else []
    {
      if fate.Aborted? || seat !in memberships { return false; }
      memberships := memberships[seat := memberships[seat].(orgRole := orgRole)];
      emitted := emitted + [(seat, memberships[seat])];
      ok := fate.Heard?;
    }

    method RemoveMembership(seat: Seat, fate: Fate) returns (ok: bool)
      modifies this
      ensures ok == (fate.Heard? && seat in old(memberships))
      ensures memberships == if fate.Aborted? then old(memberships) else old(memberships) - {seat}
      ensures invitations == old(invitations) && emitted == old(emitted)
    {
      if fate.Aborted? || seat !in memberships { return false; }
      memberships := memberships - {seat};
      ok := fate.Heard?;
    }

    method CreateInvitation(i: Invitation, fate: Fate) returns (ok: bool)
      modifies this
      ensures ok == fate.Heard?
      ensures invitations == old(invitations) + if fate.Aborted? then [] else [i]
      ensures memberships == old(memberships) && emitted == old(emitted)
    {
      if fate.Aborted? { return false; }
      invitations := invitations + [i];
      ok := fate.Heard?;
    }
  }

  datatype Outcome = Succeeded | NotFound | Forbidden | UpstreamFailed | DatabaseFailed

  /** How the local writes of one call go. */
  datatype Local = Local(write: Fate, audit: Fate)

  class MembersService {
    const db: Database
    const clerk: ClerkBackend
    const seeded: set<Role>

    constructor (db: Database, clerk: ClerkBackend, seeded: set<Role>)
      ensures this.db == db && this.clerk == clerk && this.seeded == seeded
    {
      this.db, this.clerk, this.seeded := db, clerk, seeded;
    }

    method WriteMember(seat: Seat, member: Member, fate: Fate) returns (ok: bool)
      modifies db
      ensures ok == fate.Heard?
      ensures db.World() == if fate.Aborted? then old(db.World())
                            else old(db.World()).(members := old(db.members)[seat := member])
    {
      if fate.Aborted? { return false; }
      db.members := db.members[seat := member];
      ok := fate.Heard?;
    }

    method WriteAudit(audit: Audit, fate: Fate) returns (ok: bool)
      modifies db
      ensures ok == fate.Heard?
      ensures db.World() == old(db.World()).(audits := old(db.audits) + if fate.Aborted? then [] else [audit])
    {
      if fate.Aborted? { return false; }
      db.audits := db.audits + [audit];
      ok := fate.Heard?;
    }

    /** An invitation carries the hint of the role it names, which resolves to
        that role whatever Clerk role the accepted membership has. */
    method Invite(tenant: string, actor: string, email: string, r: Assignable, fate: Fate, audit: Fate) returns (o: Outcome)
      modifies db, clerk
      ensures o == if tenant !in old(db.tenants) then NotFound else if !fate.Heard? then UpstreamFailed
                   else if audit.Heard? then Succeeded else DatabaseFailed
      ensures clerk.invitations == old(clerk.invitations) + if o.NotFound? || fate.Aborted? then [] else
        [Invitation(tenant, email, Snapshot(ToOrgRole(r), Some(RoleName(RoleOf(r)))))]
      ensures db.World() == old(db.World()).(audits := old(db.audits) +
        if o.NotFound? || !fate.Heard? || audit.Aborted? then [] else [Audit(tenant, actor, None, MemberInvited(email, r))])
      ensures clerk.memberships == old(clerk.memberships) && clerk.emitted == old(clerk.emitted)
    {
      if tenant !in db.tenants { return NotFound; }
      var invitation := Invitation(tenant, email, Snapshot(ToOrgRole(r), Some(RoleName(RoleOf(r)))));
      var sent := clerk.CreateInvitation(invitation, fate);
      if !sent { return UpstreamFailed; }
      var audited := WriteAudit(Audit(tenant, actor, None, MemberInvited(email, r)), audit);
      o := if audited then Succeeded else DatabaseFailed;
    }

    /** Metadata before role: every webhook these calls cause carries the new
        hint, also when a call fails, or fails only in the eyes of its caller. */
    method UpdateRole(tenant: string, actor: string, seat: Seat, r: Assignable, metadata: Fate, role: Fate, local: Local)
      returns (o: Outcome)
      modifies db, clerk
      ensures var refused := !Manageable(old(db.World()), tenant, seat);
        var asked := !refused && RoleOf(r) in seeded && seat in old(clerk.memberships);
        var told := asked && metadata.Heard? && role.Heard?;
        && o == (if seat !in old(db.members) || seat.tenant != tenant then NotFound
                 else if old(db.members)[seat].role.Owner? then Forbidden
                 else if RoleOf(r) !in seeded then DatabaseFailed
                 else if !told then UpstreamFailed
                 else if local.write.Heard? && local.audit.Heard? then Succeeded else DatabaseFailed)
        && db.members == (if told && !local.write.Aborted? then RoleChangedLocally(old(db.World()), actor, seat, r).members
                          else old(db.members))
        && db.audits == old(db.audits) + (if told && local.write.Heard? && !local.audit.Aborted?
                                          then [Audit(tenant, actor, Some(seat), RoleChanged(r))] else [])
        && (!asked || metadata.Aborted? ==> clerk.memberships == old(clerk.memberships) && clerk.emitted == old(clerk.emitted))
        && (asked && !metadata.Aborted? ==>
              var first := RoleSync.ClerkAfter(RoleSync.MetadataFirst, r, old(clerk.memberships)[seat], 0);
              var second := RoleSync.ClerkAfter(RoleSync.MetadataFirst, r, first, 1);
              if metadata.Heard? && !role.Aborted? then
                && clerk.memberships == old(clerk.memberships)[seat := second]
                && clerk.emitted == old(clerk.emitted) + [(seat, first), (seat, second)]
              else
                && clerk.memberships == old(clerk.memberships)[seat := first]
                && clerk.emitted == old(clerk.emitted) + [(seat, first)])
      ensures db.tenants == old(db.tenants) && db.users == old(db.users)
      ensures old(clerk.emitted) <= clerk.emitted && clerk.invitations == old(clerk.invitations)
      ensures forall i :: |old(clerk.emitted)| <= i < |clerk.emitted| ==>
        clerk.emitted[i].0 == seat && Resolve(clerk.emitted[i].1, false) == RoleOf(r)
    {
      if seat !in db.members || seat.tenant != tenant { return NotFound; }
      if db.members[seat].role.Owner? { return Forbidden; }
      if RoleOf(r) !in seeded { return DatabaseFailed; }
      var wroteMetadata := clerk.UpdateMembershipMetadata(seat, RoleName(RoleOf(r)), metadata);
      if !wroteMetadata { return UpstreamFailed; }
      var wroteRole := clerk.UpdateMembershipRole(seat, ToOrgRole(r), role);
      if !wroteRole { return UpstreamFailed; }
      var written := WriteMember(seat, db.members[seat].(role := RoleOf(r)), local.write);
      if !written { return DatabaseFailed; }
      var audited := WriteAudit(Audit(tenant, actor, Some(seat), RoleChanged(r)), local.audit);
      o := if audited then Succeeded else DatabaseFailed;
    }

    /** Clerk first: the local row is marked only when Clerk has said it is gone. */
    method Remove(tenant: string, actor: string, seat: Seat, fate: Fate, local: Local) returns (o: Outcome)
      modifies db, clerk
      ensures var asked := Manageable(old(db.World()), tenant, seat);
        var told := asked && fate.Heard? && seat in old(clerk.memberships);
        && o == (if seat !in old(db.members) || seat.tenant != tenant then NotFound
                 else if old(db.members)[seat].role.Owner? then Forbidden
                 else if !told then UpstreamFailed
                 else if local.write.Heard? && local.audit.Heard? then Succeeded else DatabaseFailed)
        && clerk.memberships == (if asked && !fate.Aborted? then old(clerk.memberships) - {seat} else old(clerk.memberships))
        && db.members == (if told && !local.write.Aborted? then RemovedLocally(old(db.World()), actor, seat).members
                          else old(db.members))
        && db.audits == old(db.audits) + (if told && local.write.Heard? && !local.audit.Aborted?
                                          then [Audit(tenant, actor, Some(seat), MemberRemoved)] else [])
      ensures db.tenants == old(db.tenants) && db.users == old(db.users)
      ensures var gone := seat in old(clerk.memberships) && seat !in clerk.memberships;
        var marked := db.members != old(db.members);
        && (marked ==> gone)
        && (gone && seat in old(db.members) && old(db.members)[seat].status != REMOVED ==>
              (marked <==> fate.Heard? && !local.write.Aborted?))
      ensures clerk.emitted == old(clerk.emitted) && clerk.invitations == old(clerk.invitations)
    {
      if seat !in db.members || seat.tenant != tenant { return NotFound; }
      if db.members[seat].role.Owner? { return Forbidden; }
      var removed := clerk.RemoveMembership(seat, fate);
      if !removed { return UpstreamFailed; }
      var written := WriteMember(seat, db.members[seat].(status := REMOVED), local.write);
      if !written { return DatabaseFailed; }
      var audited := WriteAudit(Audit(tenant, actor, Some(seat), MemberRemoved), local.audit);
      o := if audited then Succeeded else DatabaseFailed;
    }
  }
}
