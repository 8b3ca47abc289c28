/** One role change against the webhooks in flight: `updateRole` makes two Clerk
    calls and one local write, while webhook snapshots are delivered in any
    order, any number of times, at any point. */
module RoleSync {
  import opened Prelude
  import opened MembershipModel

  /** The order of the two Clerk calls. The service uses `MetadataFirst`. */
  datatype Plan = MetadataFirst | RoleFirst

  datatype State = State(clerk: Snapshot, local: Role, flight: set<Snapshot>, callsDone: nat)

  datatype Action = Call | Deliver(s: Snapshot)

  predicate Enabled(s: State, a: Action) {
    match a
    case Call => s.callsDone < 3
    case Deliver(snapshot) => snapshot in s.flight
  }

  function ClerkAfter(plan: Plan, r: Assignable, clerk: Snapshot, call: nat): Snapshot {
    if (call == 0) == plan.MetadataFirst? then clerk.(hint := Some(RoleName(RoleOf(r))))
    else clerk.(orgRole := ToOrgRole(r))
  }

  /** A Clerk call emits a snapshot of what Clerk then holds; a delivered
      snapshot stays in flight, for it may be delivered again. */
  function Apply(plan: Plan, r: Assignable, s: State, a: Action): State
    requires Enabled(s, a)
  {
    match a
    case Deliver(snapshot) => s.(local := Resolve(snapshot, false))
    case Call =>
      if s.callsDone == 2 then s.(local := RoleOf(r), callsDone := 3)
      else
        var clerk := ClerkAfter(plan, r, s.clerk, s.callsDone);
        s.(clerk := clerk, flight := s.flight + {clerk}, callsDone := s.callsDone + 1)
  }

  predicate Valid(plan: Plan, r: Assignable, s: State, acts: seq<Action>)
    decreases acts
  {
    acts == [] || (Enabled(s, acts[0]) && Valid(plan, r, Apply(plan, r, s, acts[0]), acts[1..]))
  }

  function Run(plan: Plan, r: Assignable, s: State, acts: seq<Action>): State
    requires Valid(plan, r, s, acts)
    decreases acts
  {
    if acts == [] then s else Run(plan, r, Apply(plan, r, s, acts[0]), acts[1..])
  }

  /** Every complete run, whatever is delivered when, ends with role `r`. */
  ghost predicate AlwaysEndsWith(plan: Plan, r: Assignable, s: State) {
    forall acts :: Valid(plan, r, s, acts) && Run(plan, r, s, acts).callsDone == 3 ==>
      Run(plan, r, s, acts).local == RoleOf(r)
  }

  /** The snapshots the remaining Clerk calls will emit. */
  function ToCome(plan: Plan, r: Assignable, s: State): set<Snapshot> {
    if s.callsDone >= 2 then {}
    else
      var first := ClerkAfter(plan, r, s.clerk, s.callsDone);
      if s.callsDone == 1 then {first} else {first, ClerkAfter(plan, r, first, 1)}
  }

  predicate AllResolve(snapshots: set<Snapshot>, r: Assignable) {
    forall snapshot :: snapshot in snapshots ==> Resolve(snapshot, false) == RoleOf(r)
  }

  /** Why the hint is needed: Clerk's own role gives back every role but Viewer. */
  lemma CoarseRoleLosesViewer(r: Assignable)
    ensures Resolve(Snapshot(ToOrgRole(r), None), false) == RoleOf(r) <==> !r.ToViewer?
  {
  }

  lemma {:induction false} GoodSnapshotsSuffice(plan: Plan, r: Assignable, s: State, acts: seq<Action>)
    requires s.callsDone <= 3 && Valid(plan, r, s, acts)
    requires AllResolve(s.flight + ToCome(plan, r, s), r)
    requires s.callsDone == 3 ==> s.local == RoleOf(r)
    ensures Run(plan, r, s, acts).callsDone == 3 ==> Run(plan, r, s, acts).local == RoleOf(r)
    decreases acts
  {
    if acts != [] {
      var s' := Apply(plan, r, s, acts[0]);
      assert s'.flight + ToCome(plan, r, s') <= s.flight + ToCome(plan, r, s);
      GoodSnapshotsSuffice(plan, r, s', acts[1..]);
    }
  }

  /** The whole request first, then one stale snapshot. */
  lemma BadSnapshotIsDelivered(plan: Plan, r: Assignable, s: State, bad: Snapshot) returns (acts: seq<Action>)
    requires s.callsDone == 0 && bad in s.flight + ToCome(plan, r, s)
    ensures Valid(plan, r, s, acts) && Run(plan, r, s, acts).callsDone == 3
    ensures Run(plan, r, s, acts).local == Resolve(bad, false)
  {
    acts := [Call, Call, Call, Deliver(bad)];
    var s1 := Apply(plan, r, s, Call);
    var s2 := Apply(plan, r, s1, Call);
    var s3 := Apply(plan, r, s2, Call);
    assert bad in s3.flight;
    assert acts[1..] == [Call, Call, Deliver(bad)] && acts[1..][1..] == [Call, Deliver(bad)];
    assert acts[1..][1..][1..] == [Deliver(bad)] && acts[1..][1..][1..][1..] == [];
    assert Valid(plan, r, s3, [Deliver(bad)]) && Run(plan, r, s3, [Deliver(bad)]) == Apply(plan, r, s3, Deliver(bad));
    assert Valid(plan, r, s2, [Call, Deliver(bad)]) && Run(plan, r, s2, [Call, Deliver(bad)]) == Run(plan, r, s3, [Deliver(bad)]);
    assert Valid(plan, r, s1, acts[1..]) && Run(plan, r, s1, acts[1..]) == Run(plan, r, s2, [Call, Deliver(bad)]);
    assert Run(plan, r, s, acts) == Run(plan, r, s1, acts[1..]);
  }

  /** Whichever the order: all runs end with `r` if and only if every snapshot
      in flight, and every one the two calls emit, resolves to `r`. */
  lemma EndsWithIffSnapshotsResolve(plan: Plan, r: Assignable, s: State)
    requires s.callsDone == 0
    ensures AlwaysEndsWith(plan, r, s) <==> AllResolve(s.flight + ToCome(plan, r, s), r)
  {
    if AllResolve(s.flight + ToCome(plan, r, s), r) {
      forall acts | Valid(plan, r, s, acts) && Run(plan, r, s, acts).callsDone == 3
        ensures Run(plan, r, s, acts).local == RoleOf(r)
      {
        GoodSnapshotsSuffice(plan, r, s, acts);
      }
    } else {
      var bad :| bad in s.flight + ToCome(plan, r, s) && Resolve(bad, false) != RoleOf(r);
      var acts := BadSnapshotIsDelivered(plan, r, s, bad);
      assert Valid(plan, r, s, acts);
    }
  }

  /** Metadata first: only snapshots already in flight can spoil the change. */
  lemma MetadataFirstIsSafe(r: Assignable, s: State)
    requires s.callsDone == 0
    ensures AlwaysEndsWith(MetadataFirst, r, s) <==> AllResolve(s.flight, r)
  {
    EndsWithIffSnapshotsResolve(MetadataFirst, r, s);
    assert AllResolve(ToCome(MetadataFirst, r, s), r);
  }

  /** Role first: the first webhook still carries the old hint, so the change is
      safe only if the old hint already resolves to the new role. */
  lemma RoleFirstIsSafeOnlyIf(r: Assignable, s: State)
    requires s.callsDone == 0 && s.flight == {}
    ensures AlwaysEndsWith(RoleFirst, r, s) <==> Resolve(Snapshot(ToOrgRole(r), s.clerk.hint), false) == RoleOf(r)
  {
    EndsWithIffSnapshotsResolve(RoleFirst, r, s);
    var first := ClerkAfter(RoleFirst, r, s.clerk, 0);
    assert first in s.flight + ToCome(RoleFirst, r, s);
    assert s.flight + ToCome(RoleFirst, r, s) == {first, ClerkAfter(RoleFirst, r, first, 1)};
  }

  /** An Operator who never had a hint becomes a Viewer: role first has a run
      that leaves the Operator role in place, metadata first has none. */
  lemma RoleFirstCanLoseViewer(orgRole: string)
    ensures var s := State(Snapshot(orgRole, None), Operator, {}, 0);
      AlwaysEndsWith(MetadataFirst, ToViewer, s) && !AlwaysEndsWith(RoleFirst, ToViewer, s)
  {
    var s := State(Snapshot(orgRole, None), Operator, {}, 0);
    MetadataFirstIsSafe(ToViewer, s);
    RoleFirstIsSafeOnlyIf(ToViewer, s);
  }
}
