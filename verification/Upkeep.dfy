/** The sweeps that open every transaction always produce an admissible snapshot, so they
    are never what makes a transaction fail; and every commit keeps the schema. */
module Upkeep {
  import opened Basics
  import opened Authority
  import opened Lifecycle
  import opened Records
  import E = Enrollment
  import I = Integration
  import opened Transitions

  lemma SpoilingValid(before: map<Id, Request>, after: map<Id, Request>)
    requires EnrollmentValid(before) && after.Keys == before.Keys
    requires forall k :: k in before ==>
      after[k] == before[k] || after[k] == Spoil(before[k], RequestState.Stale)
    ensures EnrollmentValid(after)
  {}

  lemma InvalidateValid(requests: map<Id, Request>, ids: set<Id>)
    requires EnrollmentValid(requests)
    ensures EnrollmentValid(InvalidateApprovals(requests, ids))
  {
    SpoilingValid(requests, InvalidateApprovals(requests, ids));
  }

  lemma MarkStaleAdmissible(s: Snapshot, now: real, origin: Id)
    requires Schema(s)
    ensures Admissible(s, E.MarkStale(s, now, origin))
  {
    hide E.Detached, GrantsBound, GrantsValid, HasCapacity, LifecycleValid, EnrollmentValid;
    var t := E.MarkStale(s, now, origin);
    SpoilingValid(s.requests, t.requests);
    assert LifecycleValid(t) by { LifecycleSame(s, t); }
    assert HasCapacity(t) by { CapacitySame(s, t); }
    SameIdentitiesValid(s.records, t.records);
  }

  lemma LifecycleSame(s: Snapshot, t: Snapshot)
    requires LifecycleValid(s) && t == s.(requests := t.requests, grants := t.grants)
    ensures LifecycleValid(t)
  {}

  lemma CapacitySame(s: Snapshot, t: Snapshot)
    requires HasCapacity(s) && t == s.(requests := t.requests, grants := t.grants)
    ensures HasCapacity(t)
  {}

  lemma SweepOpsValid(s: Snapshot, now: real, origin: Id)
    requires forall k :: k in s.operations ==> OperationValid(s.operations[k])
    ensures var t := Sweep(s, now, origin);
            && |t.operations| == |s.operations| && Unfinished(t.operations) <= Unfinished(s.operations)
            && forall k :: k in t.operations ==> OperationValid(t.operations[k])
  {
    hide VerifiersOf, Disable, InvalidateApprovals, SweptIds, LivePointers;
    var t := Sweep(s, now, origin);
    assert t.operations.Keys == s.operations.Keys;
    forall k | k in Unfinished(t.operations) ensures k in Unfinished(s.operations) {
      assert k in s.operations && t.operations[k] == SweepOp(s.operations[k], s.owner.generation, now, origin);
    }
    forall k | k in t.operations ensures OperationValid(t.operations[k]) {
      assert OperationValid(s.operations[k]);
    }
  }

  lemma SweepRecoveryValid(s: Snapshot, now: real, origin: Id)
    requires LifecycleValid(s)
    ensures var t := Sweep(s, now, origin);
            && |t.operations| == |s.operations| && |t.recovery| <= |s.recovery|
            && Unfinished(t.operations) <= Unfinished(s.operations)
            && RecoveryValid(t.operations, t.bindings, t.recovery)
            && forall k :: k in t.operations ==> OperationValid(t.operations[k])
  {
    hide VerifiersOf, Disable, InvalidateApprovals, SweptIds, OperationValid, Unfinished;
    var t := Sweep(s, now, origin);
    SubsetSize(t.recovery.Keys, s.recovery.Keys);
    SweepOpsValid(s, now, origin);
  }

  lemma SweepAdmissible(s: Snapshot, now: real, origin: Id)
    requires Schema(s)
    ensures Admissible(s, Sweep(s, now, origin))
  {
    hide EnrollmentValid, GrantsValid, GrantsBound, RecordsValid, HasCapacity, RecoveryValid,
      OperationValid, IdsImmutable, SweptIds, SweepOps, LivePointers, Disable, VerifiersOf,
      InvalidateApprovals;
    var t := Sweep(s, now, origin);
    var ids := SweptIds(s, now, origin);
    RetireShape(s, ids);
    SameIdentitiesValid(s.records, t.records);
    GrantsBoundExtends(s.grants, s.records, t.records);
    InvalidateValid(s.requests, ids);
    SweepRecoveryValid(s, now, origin);
    CapacityKept(s, t);
  }

  lemma SweptGrantsValid(s: Snapshot, now: real, origin: Id)
    requires GrantsValid(s.grants) && GrantsBound(s.grants, s.records)
    ensures var t := I.SweepGrants(s, now, origin);
            GrantsValid(t.grants) && GrantsBound(t.grants, s.records)
  {
    hide I.SweepGrant, I.LapsedIds, VerifiersOf, Disable;
    var t := I.SweepGrants(s, now, origin);
    assert t.grants.Keys == s.grants.Keys;
  }

  lemma SweepGrantsAdmissible(s: Snapshot, now: real, origin: Id)
    requires Schema(s)
    ensures Admissible(s, I.SweepGrants(s, now, origin))
  {
    hide EnrollmentValid, GrantsValid, GrantsBound, RecordsValid, HasCapacity, RecoveryValid,
      OperationValid, IdsImmutable, I.LapsedIds, I.SweepGrant, Disable, VerifiersOf;
    var t := I.SweepGrants(s, now, origin);
    RetireShape(s, I.LapsedIds(s, now, origin));
    SameIdentitiesValid(s.records, t.records);
    SweptGrantsValid(s, now, origin);
    GrantsBoundExtends(t.grants, s.records, t.records);
    CapacityKept(s, t);
  }

  /** Every transaction, cut anywhere, leaves a snapshot that satisfies the schema. */
  lemma AfterSchema(s: Snapshot, now: real, tx: Tx, cut: nat)
    requires Schema(s)
    ensures Schema(After(s, now, tx, cut))
  {
    hide WellFormed, HasCapacity, IdsImmutable, Sweep, E.MarkStale, I.SweepGrants, Controlled;
    match tx
    case LifecycleTx(origin, principal, command) =>
      SweepAdmissible(s, now, origin);
      ActSchema(Sweep(s, now, origin), now, origin, principal, command);
    case EnrollmentTx(origin, principal, move) =>
      SweepAdmissible(s, now, origin);
      MarkStaleAdmissible(Sweep(s, now, origin), now, origin);
      PairSchema(E.MarkStale(Sweep(s, now, origin), now, origin), now, origin, principal, move);
    case IntegrationTx(origin, principal, call) =>
      SweepGrantsAdmissible(s, now, origin);
      MarkStaleAdmissible(I.SweepGrants(s, now, origin), now, origin);
      ServeSchema(I.SweepGrants(s, now, origin), now, origin, principal, call);
    case HousekeepingTx(origin) => MarkStaleAdmissible(s, now, origin);
    case OwnerTx(owner) => OwnerSchema(s, owner);
  }

  lemma OwnerSchema(s: Snapshot, owner: Owner)
    requires Schema(s)
    ensures Schema(s.(owner := owner))
  {
    hide RecordsValid, EnrollmentValid, GrantsValid, GrantsBound, RecoveryValid, OperationValid;
  }

  lemma ActSchema(s: Snapshot, now: real, origin: Id, principal: Option<Principal>, c: Command)
    requires Schema(s)
    ensures Schema(Act(s, now, origin, principal, c).after)
  {
    hide Schema, IdsImmutable, Controlled, Acked, Handover, RemovesLiability, AnyUsable, IsOwner, Current;
  }

  lemma PairSchema(s: Snapshot, now: real, origin: Id, principal: Option<Principal>, m: E.Move)
    requires Schema(s)
    ensures Schema(E.Pair(s, now, origin, principal, m).after)
  {
    hide Schema, IdsImmutable, E.Opened, E.Redeemed, E.Live, E.ControllerError, E.UnownedError,
      E.ResolvesTo, E.DeviceBusy, E.Unexpired;
  }

  lemma ServeSchema(s: Snapshot, now: real, origin: Id, principal: Option<Principal>, c: I.Call)
    requires Schema(s)
    ensures Schema(I.Serve(s, now, origin, principal, c).after)
  {
    hide Schema, IdsImmutable, E.MarkIfStale, E.MarkStale, I.Presents, I.Activated, I.Issued;
    if c.Applying? { MarkStaleAdmissible(s, now, origin); }
  }
}
