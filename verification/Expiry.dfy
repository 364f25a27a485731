/** Lazy expiry against the eager sweep: what the sweep changes about who is usable, when it
    changes nothing, and that sweeping twice is sweeping once. */
module Expiry {
  import opened Authority
  import opened Lifecycle
  import opened Records
  import opened Upkeep
  import LT = Latch

  /** The sweep takes away exactly the ids it retires, and gives nothing back, at any time. */
  lemma SweepTakesExactly(s: Snapshot, now: real, origin: Id, r: Credential, later: real)
    requires RecordsValid(s.records) && r in s.records
    ensures var ids := SweptIds(s, now, origin);
      && DisabledIf(r, ids) in Sweep(s, now, origin).records
      && (Usable(Sweep(s, now, origin), DisabledIf(r, ids), later) <==> Usable(s, r, later) && r.id !in ids)
  {
    hide InvalidateApprovals, LivePointers, HasCapacity;
    var ids := SweptIds(s, now, origin);
    var t := Sweep(s, now, origin);
    var i :| 0 <= i < |s.records| && s.records[i] == r;
    assert t.records[i] == DisabledIf(r, ids);
    if r.id !in ids {
      TombstonesOnlyTheirs(s, ids, r);
      WithdrawsSame(s, now, origin, r.id, later);
    }
  }

  lemma TombstonesOnlyTheirs(s: Snapshot, ids: set<Id>, r: Credential)
    requires RecordsValid(s.records) && r in s.records && r.id !in ids
    ensures r.verifier in Retire(s, ids).blocked <==> r.verifier in s.blocked
  {}

  lemma WithdrawsSame(s: Snapshot, now: real, origin: Id, id: Id, later: real)
    requires id !in SweptIds(s, now, origin)
    ensures Withdrawn(Sweep(s, now, origin).operations, id, later) <==> Withdrawn(s.operations, id, later)
  {
    var t := Sweep(s, now, origin);
    forall k | k in s.operations
      ensures Withdraws(t.operations[k], id, later) <==> Withdraws(s.operations[k], id, later)
    {
      if Due(s.operations[k], s.owner.generation, now, origin) { assert id !in Exposed(s.operations[k]); }
    }
  }

  /** Live operations belong to this owner generation and origin, delivered ones have a
      deadline, and queued and pending ones hold no credential. */
  ghost predicate Timely(s: Snapshot, origin: Id) {
    forall k :: k in s.operations && !TerminalOp(s.operations[k].state) ==>
      && s.operations[k].generation == s.owner.generation && s.operations[k].origin == origin
      && (s.operations[k].state.Delivered? ==> 0.0 < s.operations[k].overlapUntil)
      && (s.operations[k].state.Queued? || s.operations[k].state.Pending? ==> s.operations[k].credentialId == NONE)
  }

  lemma SweptAlreadyUnusable(s: Snapshot, now: real, origin: Id, r: Credential, later: real)
    requires Schema(s) && Timely(s, origin) && now <= later
    requires r in s.records && r.id in SweptIds(s, now, origin)
    ensures !Usable(s, r, later)
  {
    hide HasCapacity, GrantsBound, GrantsValid, EnrollmentValid;
    var k :| k in s.operations && Due(s.operations[k], s.owner.generation, now, origin)
        && r.id in Exposed(s.operations[k]);
    assert OperationValid(s.operations[k]);
    assert r.id != NONE;
    assert !Usable(s, r, later) by {
      if !s.operations[k].action.Revoke? { assert Withdraws(s.operations[k], r.id, later); }
    }
  }

  /** On a timely snapshot the sweep is invisible: at every later time each credential is
      usable after it exactly if it was before. */
  lemma LazyExpiryAgrees(s: Snapshot, now: real, origin: Id, r: Credential, later: real)
    requires Schema(s) && Timely(s, origin) && now <= later && r in s.records
    ensures Usable(Sweep(s, now, origin), DisabledIf(r, SweptIds(s, now, origin)), later) <==> Usable(s, r, later)
  {
    hide HasCapacity, GrantsBound, GrantsValid, EnrollmentValid, LifecycleValid, Timely, Usable, SweptIds,
      Sweep;
    SweepTakesExactly(s, now, origin, r, later);
    if r.id in SweptIds(s, now, origin) { SweptAlreadyUnusable(s, now, origin, r, later); }
  }

  /** Exactly when the sweep is invisible, on any snapshot that satisfies the schema: when no
      operation it ends exposes a credential that is usable at the time of the sweep. */
  lemma AgreesExactlyWhen(s: Snapshot, now: real, origin: Id)
    requires Schema(s)
    ensures
      (forall r, later :: r in s.records && now <= later ==>
         (Usable(Sweep(s, now, origin), DisabledIf(r, SweptIds(s, now, origin)), later) <==> Usable(s, r, later)))
      <==>
      (forall k, r ::
         k in s.operations && Due(s.operations[k], s.owner.generation, now, origin)
         && r in s.records && r.id in Exposed(s.operations[k])
         ==> !Usable(s, r, now))
  {
    hide HasCapacity, GrantsBound, GrantsValid, EnrollmentValid, LifecycleValid, Usable, Sweep, Exposed,
      RecordsValid;
    var ids := SweptIds(s, now, origin);
    forall r, later | r in s.records
      ensures Usable(Sweep(s, now, origin), DisabledIf(r, ids), later) <==> Usable(s, r, later) && r.id !in ids
      ensures now <= later && Usable(s, r, later) ==> Usable(s, r, now)
    {
      SweepTakesExactly(s, now, origin, r, later);
      if now <= later { UsableEarlier(s, r, now, later); }
    }
    forall r | r in s.records
      ensures r.id in ids <==>
        exists k :: k in s.operations && Due(s.operations[k], s.owner.generation, now, origin)
            && r.id in Exposed(s.operations[k])
    {}
  }

  /** In one snapshot usability is only ever lost as time passes. */
  lemma UsableEarlier(s: Snapshot, r: Credential, now: real, later: real)
    requires now <= later
    ensures Usable(s, r, later) ==> Usable(s, r, now)
  {}

  lemma SweepTwiceTombstones(s: Snapshot, now: real, origin: Id)
    ensures SweptIds(Sweep(s, now, origin), now, origin) == {}
  {
    hide VerifiersOf, Disable, InvalidateApprovals, LivePointers;
  }

  lemma SweepIsIdempotent(s: Snapshot, now: real, origin: Id)
    ensures Sweep(Sweep(s, now, origin), now, origin) == Sweep(s, now, origin)
  {
    hide VerifiersOf, SweptIds, Disavow;
    var t := Sweep(s, now, origin);
    SweepTwiceTombstones(s, now, origin);
    LT.RetireNothing(t);
    assert InvalidateApprovals(t.requests, {}) == t.requests by { InvalidateNothing(t.requests); }
    assert forall k :: k in s.operations ==>
      SweepOp(t.operations[k], t.owner.generation, now, origin) == t.operations[k];
    assert LivePointers(t.recovery, t.operations) == t.recovery;
  }

  lemma InvalidateNothing(requests: map<Id, Request>)
    ensures InvalidateApprovals(requests, {}) == requests
  {
    assert forall k :: k in requests ==> Disavow(requests[k], {}) == requests[k];
  }

  /** Whatever the sweep has or has not done: what an expired, revoked or overdue operation issued
      is unusable, and so is what an overdue one replaces. */
  lemma EndedIsUnusable(s: Snapshot, now: real, k: Id, r: Credential)
    requires k in s.operations
    ensures var op := s.operations[k]; var overdue := op.state.Delivered? && op.overlapUntil <= now;
      && (r.id == op.credentialId && !op.action.Revoke? && (op.state.Expired? || op.state.Revoked? || overdue) ==>
            !Usable(s, r, now))
      && (r.id in op.oldIds && overdue ==> !Usable(s, r, now))
  {
    assert Withdraws(s.operations[k], r.id, now) ==> Withdrawn(s.operations, r.id, now);
  }
}
