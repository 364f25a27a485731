/** Usability is a one-way latch: once a credential that was usable stops being usable, no
    transaction of any service ever makes it usable again. */
module Latch {
  import opened Basics
  import opened Authority
  import opened Lifecycle
  import E = Enrollment
  import I = Integration
  import opened Records
  import opened Transitions

  /** Live operations that were delivered have a deadline (the schema alone allows zero). */
  ghost predicate DeadlinesSet(operations: map<Id, Operation>) {
    forall k :: k in operations && operations[k].state.Delivered? ==> 0.0 < operations[k].overlapUntil
  }

  /** The credential was activated: it is enabled and its integration grant, if it has one,
      is completed, unless it has been tombstoned since. */
  ghost predicate Born(s: Snapshot, id: Id) {
    exists i ::
      && 0 <= i < |s.records| && s.records[i].id == id
      && (s.records[i].verifier in s.blocked || (s.records[i].enabled && !Withheld(s.grants, id)))
  }

  ghost predicate Dead(s: Snapshot, id: Id, now: real) {
    exists i ::
      && 0 <= i < |s.records| && s.records[i].id == id
      && (s.records[i].verifier in s.blocked || Withdrawn(s.operations, id, now))
  }

  lemma UsableIffBornAndNotDead(s: Snapshot, id: Id, now: real)
    requires RecordsValid(s.records)
    ensures UsableId(s, id, now) <==> Born(s, id) && !Dead(s, id, now)
  {}

  // ---- What one step must not do ----

  /** Tombstones stay, and every operation goes on withdrawing what it withdrew, or what it
      withdrew is now tombstoned. */
  ghost predicate KeepsDead(s: Snapshot, t: Snapshot, now: real) {
    && Extends(s.records, t.records)
    && s.blocked <= t.blocked
    && (forall i, k :: 0 <= i < |s.records| && k in s.operations && Withdraws(s.operations[k], s.records[i].id, now) ==>
          s.records[i].verifier in t.blocked || (k in t.operations && Withdraws(t.operations[k], s.records[i].id, now)))
  }

  ghost predicate KeepsBorn(s: Snapshot, t: Snapshot) {
    && Extends(s.records, t.records)
    && s.blocked <= t.blocked
    && (forall i :: 0 <= i < |s.records| && s.records[i].enabled ==>
        t.records[i].enabled || t.records[i].verifier in t.blocked)
    && (forall i :: 0 <= i < |s.records| && Withheld(t.grants, s.records[i].id) ==>
          Withheld(s.grants, s.records[i].id) || s.records[i].verifier in t.blocked)
  }

  lemma DeadStays(s: Snapshot, t: Snapshot, id: Id, now: real)
    requires KeepsDead(s, t, now) && Dead(s, id, now)
    ensures Dead(t, id, now)
  {}

  lemma BornStays(s: Snapshot, t: Snapshot, id: Id)
    requires KeepsBorn(s, t) && Born(s, id)
    ensures Born(t, id)
  {}

  lemma DeadLater(s: Snapshot, id: Id, now: real, later: real)
    requires now <= later && Dead(s, id, now)
    ensures Dead(s, id, later)
  {}

  // ---- Every step keeps both ----

  /** After a sweep, operations that are still live are in time, and every recovery pointer
      names one of them. */
  ghost predicate Swept(s: Snapshot, now: real) {
    && (forall k :: k in s.operations && !TerminalOp(s.operations[k].state) ==>
          && !s.operations[k].state.Acknowledged? && now < s.operations[k].expiresAt
          && (s.operations[k].state.Delivered? ==> now < s.operations[k].overlapUntil))
    && (forall d :: d in s.recovery ==>
          s.recovery[d].operationId in s.operations && !TerminalOp(s.operations[s.recovery[d].operationId].state))
  }

  lemma SweepSettles(s: Snapshot, now: real, origin: Id)
    requires LifecycleValid(s) && DeadlinesSet(s.operations)
    ensures Swept(Sweep(s, now, origin), now)
  {}

  lemma SweepKeeps(s: Snapshot, now: real, origin: Id)
    requires LifecycleValid(s) && DeadlinesSet(s.operations)
    ensures KeepsDead(s, Sweep(s, now, origin), now) && KeepsBorn(s, Sweep(s, now, origin))
    ensures DeadlinesSet(Sweep(s, now, origin).operations)
  {
    var t := Sweep(s, now, origin);
    RetireShape(s, SweptIds(s, now, origin));
    forall i, k | 0 <= i < |s.records| && k in s.operations && Withdraws(s.operations[k], s.records[i].id, now)
      ensures s.records[i].verifier in t.blocked
          || (k in t.operations && Withdraws(t.operations[k], s.records[i].id, now))
    {
      assert OperationValid(s.operations[k]);
      if Due(s.operations[k], s.owner.generation, now, origin) && s.operations[k].state.Delivered? {
        assert s.records[i].id in Exposed(s.operations[k]);
        assert s.records[i] in s.records;
      }
    }
    forall i | 0 <= i < |s.records| && s.records[i].enabled
      ensures t.records[i].enabled || t.records[i].verifier in t.blocked
    {
      assert s.records[i] in s.records;
    }
  }

  /** A step that retires some ids, perhaps adds a credential, and leaves the grants and every
      finished operation alone. */
  lemma RetiringKeeps(s: Snapshot, ids: set<Id>, t: Snapshot, now: real)
    requires Swept(s, now)
    requires t.blocked == Retire(s, ids).blocked && t.grants == s.grants
    requires |s.records| <= |t.records| && t.records[..|s.records|] == Retire(s, ids).records
    requires forall k :: k in s.operations && TerminalOp(s.operations[k].state) ==>
        k in t.operations && t.operations[k] == s.operations[k]
    ensures KeepsDead(s, t, now) && KeepsBorn(s, t)
  {}

  lemma RetireNothing(s: Snapshot)
    ensures Retire(s, {}) == s
  {}

  lemma ControlledKeeps(s: Snapshot, now: real, origin: Id, action: Action, opId: Id, role: Role, subject: Subject)
    requires Swept(s, now) && DeadlinesSet(s.operations) && opId !in s.operations
    ensures var t := Controlled(s, now, origin, action, opId, role, subject);
            KeepsDead(s, t, now) && KeepsBorn(s, t) && DeadlinesSet(t.operations)
  {
    hide KeepsDead, KeepsBorn, VerifiersOf, Disable, MatchingIds, InvalidateApprovals, AbandonPairing;
    var t := Controlled(s, now, origin, action, opId, role, subject);
    RetireNothing(s);
    RetiringKeeps(s, if action.Rotate? then {} else MatchingIds(s.records, role, subject), t, now);
  }

  lemma ActKeeps(s: Snapshot, now: real, origin: Id, principal: Option<Principal>, c: Command)
    requires Swept(s, now) && DeadlinesSet(s.operations) && 0.0 <= now
    ensures var t := Act(s, now, origin, principal, c).after;
            KeepsDead(s, t, now) && KeepsBorn(s, t) && DeadlinesSet(t.operations)
  {
    hide Commit, Admissible, KeepsDead, KeepsBorn, Controlled, VerifiersOf, Disable, InvalidateApprovals,
      MatchingIds, RemovesLiability, AnyUsable;
    var t := Act(s, now, origin, principal, c).after;
    RetireNothing(s);
    if t == s {
      RetiringKeeps(s, {}, s, now);
    } else {
      match c
      case Ordered(action, opId, role, subject) => ControlledKeeps(s, now, origin, action, opId, role, subject);
      case Polling(found) => RetiringKeeps(s, {}, t, now);
      case Inquiry(opId) =>
      case Delivery(opId, id, verifier) => RetiringKeeps(s, {}, t, now);
      case Receipt(opId, saved) => RetiringKeeps(s, s.operations[opId].oldIds, t, now);
    }
  }

  lemma RedeemedKeeps(s: Snapshot, now: real, q: Id, id: Id, verifier: Id)
    requires Swept(s, now) && DeadlinesSet(s.operations) && 0.0 <= now && q in s.requests
    ensures var t := E.Redeemed(s, q, id, verifier);
            KeepsDead(s, t, now) && KeepsBorn(s, t) && DeadlinesSet(t.operations)
  {
    hide KeepsDead, KeepsBorn, VerifiersOf, Disable, MatchingIds;
    var ids := MatchingIds(s.records, DeviceRole, s.requests[q].device);
    RetireShape(s, ids);
    RetiringKeeps(s, ids, E.Redeemed(s, q, id, verifier), now);
  }

  lemma OpenedKeeps(s: Snapshot, now: real, origin: Id, binding: Binding, device: Subject, q: Id)
    requires Swept(s, now) && DeadlinesSet(s.operations)
    ensures var t := E.Opened(s, now, origin, binding, device, q);
            KeepsDead(s, t, now) && KeepsBorn(s, t) && DeadlinesSet(t.operations)
  {
    hide KeepsDead, KeepsBorn, VerifiersOf, Disable, E.Unexpired;
    RetireNothing(s);
    RetiringKeeps(s, {}, E.Opened(s, now, origin, binding, device, q), now);
  }

  /** Pairing changes nothing but requests, except when a request is opened or redeemed. */
  lemma PairShape(s: Snapshot, now: real, origin: Id, principal: Option<Principal>, m: E.Move)
    ensures var t := E.Pair(s, now, origin, principal, m).after;
            || t == s.(requests := t.requests)
            || (m.Asking? && t == E.Opened(s, now, origin, m.binding, m.device, m.requestId))
            || (m.Redeeming? && m.q in s.requests && t == E.Redeemed(s, m.q, m.id, m.verifier))
  {
    hide E.Open, E.Failure, E.Proceed, E.Opened, E.Redeemed, E.Live, E.ControllerError;
  }

  lemma PairKeeps(s: Snapshot, now: real, origin: Id, principal: Option<Principal>, m: E.Move)
    requires Swept(s, now) && DeadlinesSet(s.operations) && 0.0 <= now
    ensures var t := E.Pair(s, now, origin, principal, m).after;
            KeepsDead(s, t, now) && KeepsBorn(s, t) && DeadlinesSet(t.operations)
  {
    hide KeepsDead, KeepsBorn, VerifiersOf, Disable, E.Pair, E.Opened, E.Redeemed;
    var t := E.Pair(s, now, origin, principal, m).after;
    PairShape(s, now, origin, principal, m);
    if t == s.(requests := t.requests) {
      RetireNothing(s);
      RetiringKeeps(s, {}, t, now);
    } else if m.Asking? {
      OpenedKeeps(s, now, origin, m.binding, m.device, m.requestId);
    } else {
      RedeemedKeeps(s, now, m.q, m.id, m.verifier);
    }
  }

  lemma RevokedIsBlocked(s: Snapshot, k: Id, now: real, origin: Id)
    requires k in s.grants && s.grants[k].state.Completed?
    requires !I.SweepGrant(s, k, s.grants[k], now, origin).state.Completed?
    ensures I.AllBlocked(s, k)
  {
    hide I.AllBlocked;
  }

  lemma BoundIsBlocked(s: Snapshot, k: Id, r: Credential)
    requires GrantsBound(s.grants, s.records) && RecordsValid(s.records) && r in s.records
    requires k in s.grants && s.grants[k].state.Completed? && s.grants[k].credentialId == r.id
    requires I.AllBlocked(s, k)
    ensures r.verifier in s.blocked
  {
    var q :| q in s.records && q.id == s.grants[k].credentialId && q.role.IntegrationRole? && q.subject == Agent(k);
  }

  lemma GrantSweepWithholds(s: Snapshot, now: real, origin: Id, r: Credential)
    requires GrantsBound(s.grants, s.records) && RecordsValid(s.records) && r in s.records
    requires Withheld(I.SweepGrants(s, now, origin).grants, r.id)
    ensures Withheld(s.grants, r.id) || r.verifier in s.blocked
  {
    hide VerifiersOf, Disable, I.LapsedIds, GrantsBound, RecordsValid, I.AllBlocked, Retire;
    var t := I.SweepGrants(s, now, origin);
    var k :| k in t.grants && t.grants[k].credentialId == r.id && !t.grants[k].state.Completed?;
    if s.grants[k].state.Completed? {
      RevokedIsBlocked(s, k, now, origin);
      BoundIsBlocked(s, k, r);
    }
  }

  lemma GrantSweepKeeps(s: Snapshot, now: real, origin: Id)
    requires GrantsBound(s.grants, s.records) && RecordsValid(s.records)
    ensures KeepsDead(s, I.SweepGrants(s, now, origin), now) && KeepsBorn(s, I.SweepGrants(s, now, origin))
  {
    hide Withheld, GrantsBound, RecordsValid, I.LapsedIds, I.SweepGrant;
    var t := I.SweepGrants(s, now, origin);
    RetireShape(s, I.LapsedIds(s, now, origin));
    forall i | 0 <= i < |s.records|
      ensures s.records[i].enabled ==> t.records[i].enabled || t.records[i].verifier in t.blocked
      ensures Withheld(t.grants, s.records[i].id) ==>
          Withheld(s.grants, s.records[i].id) || s.records[i].verifier in t.blocked
    {
      assert s.records[i] in s.records;
      if Withheld(t.grants, s.records[i].id) { GrantSweepWithholds(s, now, origin, s.records[i]); }
    }
  }

  lemma IssuedKeeps(s: Snapshot, now: real, k: Id, id: Id, verifier: Id)
    requires k in s.grants && !s.grants[k].state.Completed? && Admissible(s, I.Issued(s, k, id, verifier))
    ensures KeepsDead(s, I.Issued(s, k, id, verifier), now) && KeepsBorn(s, I.Issued(s, k, id, verifier))
  {
    hide HasCapacity, LifecycleValid, EnrollmentValid, GrantsValid, GrantsBound, IdsImmutable;
    var t := I.Issued(s, k, id, verifier);
    forall i | 0 <= i < |s.records| && Withheld(t.grants, s.records[i].id)
      ensures Withheld(s.grants, s.records[i].id)
    {
      assert t.records[i] == s.records[i] && t.records[|s.records|].id == id;
      var j :| j in t.grants && t.grants[j].credentialId == s.records[i].id && !t.grants[j].state.Completed?;
      assert j != k;
      assert s.grants[j] == t.grants[j];
    }
  }

  /** Rows that hold a credential keep it, no row becomes completed and none changes once it
      is, and a row that has not been delivered holds none. */
  ghost predicate GrantsMove(before: map<Id, Grant>, after: map<Id, Grant>) {
    && (forall k :: k in after && after[k].credentialId != NONE ==>
          k in before && before[k].credentialId == after[k].credentialId)
    && (forall k :: k in before && before[k].credentialId != NONE ==>
        k in after && after[k].credentialId == before[k].credentialId)
    && (forall k :: k in after && after[k].state.Completed? ==> k in before && before[k] == after[k])
    && (forall k :: k in before && k in after && before[k].state.Completed? ==> after[k] == before[k])
    && (forall k ::
          k in after && (after[k].state.Pending? || after[k].state.Approved?) && after[k].credentialId != NONE ==>
          k in before && (before[k].state.Pending? || before[k].state.Approved?))
  }

  lemma GrantMoveKeeps(s: Snapshot, ids: set<Id>, t: Snapshot, now: real)
    requires t.blocked == Retire(s, ids).blocked && t.records == Retire(s, ids).records && t.operations == s.operations
    requires GrantsMove(s.grants, t.grants) && RecordsValid(s.records)
    ensures KeepsDead(s, t, now) && KeepsBorn(s, t)
  {
    RetireShape(s, ids);
    forall i | 0 <= i < |s.records|
      ensures s.records[i].enabled ==> t.records[i].enabled || t.records[i].verifier in t.blocked
      ensures Withheld(t.grants, s.records[i].id) ==> Withheld(s.grants, s.records[i].id)
    {
      assert s.records[i] in s.records;
    }
  }

  lemma ActivatedKeeps(s: Snapshot, now: real, k: Id)
    requires k in s.grants
    ensures KeepsDead(s, I.Activated(s, k), now) && KeepsBorn(s, I.Activated(s, k))
  {}

  /** One row changes, without completing and without touching its credential. */
  lemma RowMoves(grants: map<Id, Grant>, k: Id, g: Grant)
    requires k in grants && !grants[k].state.Completed? && !g.state.Completed?
        && g.credentialId == grants[k].credentialId
    requires g.state.Pending? || g.state.Approved? ==> grants[k].state.Pending? || grants[k].state.Approved?
    ensures GrantsMove(grants, grants[k := g])
  {}

  lemma ApplyShape(s: Snapshot, now: real, origin: Id, k: Id, secret: Id, code: Id, name: Id, expiresAt: real)
    requires k !in s.grants
    ensures var t := I.Apply(s, now, origin, k, secret, code, name, expiresAt).after;
            t == s.(requests := t.requests, grants := t.grants) && GrantsMove(s.grants, t.grants)
  {
    hide Admissible, E.MarkIfStale;
  }

  lemma EndedShape(s: Snapshot, k: Id, target: GrantState)
    requires k in s.grants && TerminalGrant(target) && !target.Completed?
    ensures var t := I.Ended(s, k, target).after;
            t == s || (!TerminalGrant(s.grants[k].state)
                       && t == Retire(s, {s.grants[k].credentialId}).(grants := t.grants)
                           && GrantsMove(s.grants, t.grants))
  {
    hide Admissible, VerifiersOf, Disable, GrantsMove;
    if !TerminalGrant(s.grants[k].state) {
      RowMoves(s.grants, k, s.grants[k].(state := target));
    }
  }

  lemma ApprovalShape(s: Snapshot, k: Id, presented: Id)
    requires k in s.grants
    ensures var t := I.Approval(s, k, presented).after;
            t == s.(grants := t.grants) && GrantsMove(s.grants, t.grants)
  {
    hide Admissible, GrantsMove;
    NoneMove(s.grants);
    var g := s.grants[k];
    if g.state.Pending? || g.state.Approved? {
      RowMoves(s.grants, k, g.(attempts := g.attempts + 1));
      RowMoves(s.grants, k, g.(attempts := g.attempts + 1, state := GrantState.Failed));
      RowMoves(s.grants, k, g.(state := GrantState.Approved));
    }
  }

  lemma NoneMove(grants: map<Id, Grant>)
    ensures GrantsMove(grants, grants)
  {}

  /** What a request to the integration service may leave on disk. */
  lemma ServeShape(s: Snapshot, now: real, origin: Id, principal: Option<Principal>, c: I.Call)
    ensures var t := I.Serve(s, now, origin, principal, c).after;
            || (t == s.(requests := t.requests, grants := t.grants) && GrantsMove(s.grants, t.grants))
            || (c.k in s.grants && !TerminalGrant(s.grants[c.k].state)
                && t == Retire(s, {s.grants[c.k].credentialId}).(grants := t.grants) && GrantsMove(s.grants, t.grants))
            || (c.Saving? && c.k in s.grants && s.grants[c.k].state.Delivered? && t == I.Activated(s, c.k)
                && I.Presents(s, s.grants[c.k], c.verifier))
            || (c.Collecting? && c.k in s.grants && s.grants[c.k].state.Approved?
                && t == I.Issued(s, c.k, c.id, c.verifier) && Admissible(s, t))
  {
    hide Admissible, Retire, GrantsMove, I.Apply, I.Approval, I.Ended, I.Activated, I.Issued, I.Presents,
      IsOwner;
    NoneMove(s.grants);
    if c.Applying? {
      if c.k !in s.grants { ApplyShape(s, now, origin, c.k, c.secret, c.code, c.name, c.expiresAt); }
    } else if c.k in s.grants {
      EndedShape(s, c.k, GrantState.Denied);
      EndedShape(s, c.k, GrantState.Cancelled);
      if c.Approving? { ApprovalShape(s, c.k, c.presented); }
    }
  }

  lemma ServeKeeps(s: Snapshot, now: real, origin: Id, principal: Option<Principal>, c: I.Call)
    requires RecordsValid(s.records)
    ensures var t := I.Serve(s, now, origin, principal, c).after;
            KeepsDead(s, t, now) && KeepsBorn(s, t) && DeadlinesSet(s.operations) == DeadlinesSet(t.operations)
  {
    hide KeepsDead, KeepsBorn, VerifiersOf, Disable, RecordsValid, GrantsMove, I.Presents, I.Serve, Admissible;
    var t := I.Serve(s, now, origin, principal, c).after;
    ServeShape(s, now, origin, principal, c);
    RetireNothing(s);
    if t == s.(requests := t.requests, grants := t.grants) && GrantsMove(s.grants, t.grants) {
      GrantMoveKeeps(s, {}, t, now);
    } else if c.Saving? && t == I.Activated(s, c.k) {
      ActivatedKeeps(s, now, c.k);
    } else if c.Collecting? && t == I.Issued(s, c.k, c.id, c.verifier) {
      IssuedKeeps(s, now, c.k, c.id, c.verifier);
    } else {
      GrantMoveKeeps(s, {s.grants[c.k].credentialId}, t, now);
    }
  }
}
