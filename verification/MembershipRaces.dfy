/** Creation webhooks handled at the same time: each handler first counts the
    tenant's memberships and later upserts, and the halves of any number of
    handlers interleave. */
module MembershipRaces {
  import opened Prelude
  import opened MembershipModel
  import opened MembershipOwners

  datatype Creation = Creation(seat: Seat, s: Snapshot)

  datatype Half = Count(i: nat) | Put(i: nat)

  /** `chosen` holds the role each handler under way has settled on. */
  datatype State = State(w: World, chosen: map<nat, Role>)

  predicate Enabled(creations: seq<Creation>, r: State, h: Half) {
    h.i < |creations| && (h.Put? ==> h.i in r.chosen)
  }

  /** A handler that throws, or whose role was never seeded, ends at the count. */
  function Apply(creations: seq<Creation>, seeded: set<Role>, r: State, h: Half): State
    requires Enabled(creations, r, h)
  {
    var c := creations[h.i];
    match h
    case Count(i) =>
      var role := Resolve(c.s, IsFirst(r.w.members, c.seat.tenant));
      if Known(r.w, c.seat) && role in seeded then r.(chosen := r.chosen[i := role]) else r
    case Put(i) =>
      State(r.w.(members := r.w.members[c.seat := Member(r.chosen[i], ACTIVE)]), r.chosen - {i})
  }

  predicate Valid(creations: seq<Creation>, seeded: set<Role>, r: State, halves: seq<Half>)
    decreases halves
  {
    halves == []
    || (Enabled(creations, r, halves[0]) && Valid(creations, seeded, Apply(creations, seeded, r, halves[0]), halves[1..]))
  }

  function Exec(creations: seq<Creation>, seeded: set<Role>, r: State, halves: seq<Half>): State
    requires Valid(creations, seeded, r, halves)
    decreases halves
  {
    if halves == [] then r else Exec(creations, seeded, Apply(creations, seeded, r, halves[0]), halves[1..])
  }

  function Idle(w: World): State { State(w, map[]) }

  /** One Owner per tenant at the end of every interleaving of the halves. */
  ghost predicate AlwaysOneOwner(w: World, seeded: set<Role>, creations: seq<Creation>) {
    forall halves :: Valid(creations, seeded, Idle(w), halves) ==> OneOwner(Exec(creations, seeded, Idle(w), halves).w)
  }

  /** Handled right now, the creation would make its seat Owner. */
  predicate WouldOwn(w: World, seeded: set<Role>, c: Creation) {
    Known(w, c.seat) && Owner in seeded && Resolve(c.s, IsFirst(w.members, c.seat.tenant)).Owner?
  }

  predicate MayOwn(w: World, seeded: set<Role>, creations: seq<Creation>, seat: Seat) {
    IsOwner(w, seat) || exists i :: 0 <= i < |creations| && creations[i].seat == seat && WouldOwn(w, seeded, creations[i])
  }

  // ----- The two halves, one after the other ---------------------------------

  lemma HalfThen(creations: seq<Creation>, seeded: set<Role>, r: State, h: Half, rest: seq<Half>)
    requires Enabled(creations, r, h) && Valid(creations, seeded, Apply(creations, seeded, r, h), rest)
    ensures Valid(creations, seeded, r, [h] + rest)
    ensures Exec(creations, seeded, r, [h] + rest) == Exec(creations, seeded, Apply(creations, seeded, r, h), rest)
  {
    assert ([h] + rest)[1..] == rest;
  }

  /** Undisturbed, the halves of one creation are the atomic handler. */
  lemma UndisturbedIsAtomic(w: World, seeded: set<Role>, creations: seq<Creation>, i: nat) returns (halves: seq<Half>)
    requires i < |creations|
    ensures Valid(creations, seeded, Idle(w), halves)
    ensures Exec(creations, seeded, Idle(w), halves) == Idle(OnCreated(w, seeded, creations[i].seat, creations[i].s))
  {
    var r := Apply(creations, seeded, Idle(w), Count(i));
    if i in r.chosen {
      HalfThen(creations, seeded, r, Put(i), []);
      HalfThen(creations, seeded, Idle(w), Count(i), [Put(i)] + []);
      halves := [Count(i)] + ([Put(i)] + []);
    } else {
      HalfThen(creations, seeded, Idle(w), Count(i), []);
      halves := [Count(i)] + [];
    }
  }

  // ----- When every interleaving is safe ---------------------------------------

  /** Rows are only added, and Owners come only from creations that would have
      made one at the start. */
  ghost predicate Tracked(w: World, seeded: set<Role>, creations: seq<Creation>, r: State) {
    && r.w.tenants == w.tenants && r.w.users == w.users
    && w.members.Keys <= r.w.members.Keys
    && (forall seat :: IsOwner(r.w, seat) ==> MayOwn(w, seeded, creations, seat))
    && (forall i :: i in r.chosen && r.chosen[i].Owner? ==> i < |creations| && WouldOwn(w, seeded, creations[i]))
  }

  lemma CountStaysTracked(w: World, seeded: set<Role>, creations: seq<Creation>, r: State, i: nat)
    requires Tracked(w, seeded, creations, r) && Enabled(creations, r, Count(i))
    ensures Tracked(w, seeded, creations, Apply(creations, seeded, r, Count(i)))
  {
    var c := creations[i];
    if IsFirst(r.w.members, c.seat.tenant) {
      assert forall seat :: seat in w.members ==> seat in r.w.members;
      assert IsFirst(w.members, c.seat.tenant);
    }
  }

  lemma PutStaysTracked(w: World, seeded: set<Role>, creations: seq<Creation>, r: State, i: nat)
    requires Tracked(w, seeded, creations, r) && Enabled(creations, r, Put(i))
    ensures Tracked(w, seeded, creations, Apply(creations, seeded, r, Put(i)))
  {
    var r' := Apply(creations, seeded, r, Put(i));
    forall seat | IsOwner(r'.w, seat)
      ensures MayOwn(w, seeded, creations, seat)
    {
      if seat != creations[i].seat { assert IsOwner(r.w, seat); }
    }
  }

  lemma {:induction false} RunStaysTracked(w: World, seeded: set<Role>, creations: seq<Creation>, r: State, halves: seq<Half>)
    requires Tracked(w, seeded, creations, r) && Valid(creations, seeded, r, halves)
    ensures Tracked(w, seeded, creations, Exec(creations, seeded, r, halves))
    decreases halves
  {
    if halves != [] {
      match halves[0] {
        case Count(i) => CountStaysTracked(w, seeded, creations, r, i);
        case Put(i) => PutStaysTracked(w, seeded, creations, r, i);
      }
      RunStaysTracked(w, seeded, creations, Apply(creations, seeded, r, halves[0]), halves[1..]);
    }
  }

  /** Both count, then both upsert. */
  lemma BothBecomeOwner(w: World, seeded: set<Role>, creations: seq<Creation>, i: nat, j: nat) returns (halves: seq<Half>)
    requires i < |creations| && j < |creations| && creations[i].seat != creations[j].seat
    requires WouldOwn(w, seeded, creations[i]) && WouldOwn(w, seeded, creations[j])
    ensures Valid(creations, seeded, Idle(w), halves)
    ensures var w' := Exec(creations, seeded, Idle(w), halves).w;
      IsOwner(w', creations[i].seat) && IsOwner(w', creations[j].seat)
  {
    var r1 := Apply(creations, seeded, Idle(w), Count(i));
    var r2 := Apply(creations, seeded, r1, Count(j));
    var r3 := Apply(creations, seeded, r2, Put(i));
    HalfThen(creations, seeded, r3, Put(j), []);
    HalfThen(creations, seeded, r2, Put(i), [Put(j)] + []);
    HalfThen(creations, seeded, r1, Count(j), [Put(i)] + ([Put(j)] + []));
    HalfThen(creations, seeded, Idle(w), Count(i), [Count(j)] + ([Put(i)] + ([Put(j)] + [])));
    halves := [Count(i)] + ([Count(j)] + ([Put(i)] + ([Put(j)] + [])));
  }

  lemma BothCanOwn(w: World, seeded: set<Role>, creations: seq<Creation>, a: Seat, b: Seat) returns (halves: seq<Half>)
    requires MayOwn(w, seeded, creations, a) && MayOwn(w, seeded, creations, b) && a != b
    ensures Valid(creations, seeded, Idle(w), halves)
    ensures IsOwner(Exec(creations, seeded, Idle(w), halves).w, a) && IsOwner(Exec(creations, seeded, Idle(w), halves).w, b)
  {
    if IsOwner(w, a) && IsOwner(w, b) {
      halves := [];
    } else if IsOwner(w, a) {
      var j: nat :| j < |creations| && creations[j].seat == b && WouldOwn(w, seeded, creations[j]);
      halves := UndisturbedIsAtomic(w, seeded, creations, j);
    } else {
      var i: nat :| i < |creations| && creations[i].seat == a && WouldOwn(w, seeded, creations[i]);
      if IsOwner(w, b) {
        halves := UndisturbedIsAtomic(w, seeded, creations, i);
      } else {
        var j: nat :| j < |creations| && creations[j].seat == b && WouldOwn(w, seeded, creations[j]);
        halves := BothBecomeOwner(w, seeded, creations, i, j);
      }
    }
  }

  /** Any number of creations, handled in any interleaving, any half repeated: at
      most one Owner per tenant is certain if and only if no two seats of a
      tenant are Owner already or would be made so if handled right now. */
  lemma RacesKeepOneOwnerIff(w: World, seeded: set<Role>, creations: seq<Creation>)
    ensures AlwaysOneOwner(w, seeded, creations) <==>
      forall a, b :: MayOwn(w, seeded, creations, a) && MayOwn(w, seeded, creations, b) && a.tenant == b.tenant ==> a == b
  {
    if a, b :| MayOwn(w, seeded, creations, a) && MayOwn(w, seeded, creations, b) && a.tenant == b.tenant && a != b {
      var halves := BothCanOwn(w, seeded, creations, a, b);
      assert !OneOwner(Exec(creations, seeded, Idle(w), halves).w);
    } else {
      forall halves | Valid(creations, seeded, Idle(w), halves)
        ensures OneOwner(Exec(creations, seeded, Idle(w), halves).w)
      {
        RunStaysTracked(w, seeded, creations, Idle(w), halves);
      }
    }
  }
}
