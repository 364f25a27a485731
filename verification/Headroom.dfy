/** Revocation headroom: capacity reserves enough room that an owner can always revoke what
    is left to revoke, one subject after another, in any order. */
module Headroom {
  import opened Basics
  import opened Authority
  import opened Lifecycle
  import opened Records
  import opened Transitions
  import opened Upkeep

  /** Nothing is left to revoke: every verifier of the subject is tombstoned, no operation on
      it is unfinished and no recovery of it is open. */
  ghost predicate Quelled(s: Snapshot, role: Role, subject: Subject) {
    && (forall r :: r in s.records && Matches(r, role, subject) ==> r.verifier in s.blocked)
    && !HasActive(s.operations, subject)
    && subject !in s.recovery
  }

  /** What a revocation leaves besides: credentials disabled, no live pairing request. */
  ghost predicate Silenced(s: Snapshot, role: Role, subject: Subject) {
    && Quelled(s, role, subject)
    && (forall r :: r in s.records && Matches(r, role, subject) ==> !r.enabled)
    && (forall q :: q in s.requests && s.requests[q].device == subject ==> TerminalRequest(s.requests[q].state))
  }

  function Ended(operations: map<Id, Operation>, subject: Subject, opId: Id, row: Operation): map<Id, Operation> {
    RevokeActive(operations, subject)[opId := row]
  }

  lemma EndedSize(operations: map<Id, Operation>, subject: Subject, opId: Id, row: Operation)
    requires opId !in operations
    ensures |Ended(operations, subject, opId, row)| == |operations| + 1
  {
    var t := Ended(operations, subject, opId, row);
    assert t.Keys == operations.Keys + {opId};
    assert |t.Keys| == |operations.Keys| + 1;
  }

  lemma EndedUnfinished(operations: map<Id, Operation>, subject: Subject, opId: Id, row: Operation, k: Id)
    requires opId !in operations && TerminalOp(row.state)
    ensures k in Unfinished(Ended(operations, subject, opId, row)) <==>
            k in Unfinished(operations) && !ActiveFor(operations[k], subject)
  {}

  lemma EndedNoneActive(operations: map<Id, Operation>, subject: Subject, opId: Id, row: Operation)
    requires opId !in operations && TerminalOp(row.state)
    ensures !HasActive(Ended(operations, subject, opId, row), subject)
  {}

  lemma EndedRowsValid(operations: map<Id, Operation>, subject: Subject, opId: Id, row: Operation)
    requires OperationValid(row) && forall k :: k in operations ==> OperationValid(operations[k])
    ensures forall k :: k in Ended(operations, subject, opId, row) ==>
        OperationValid(Ended(operations, subject, opId, row)[k])
  {}

  lemma EndedRecoveryValid(operations: map<Id, Operation>, bindings: map<Subject, Binding>, recovery: map<Subject,
                           Recovery>,
                           subject: Subject, opId: Id, row: Operation)
    requires RecoveryValid(operations, bindings, recovery) && opId !in operations
    ensures RecoveryValid(Ended(operations, subject, opId, row), bindings, recovery - {subject})
    ensures |recovery - {subject}| <= |recovery|
  {}

  /** Retiring the subject's credentials removes exactly their verifiers from the unblocked
      ones. */
  lemma RetiredDigests(s: Snapshot, role: Role, subject: Subject)
    ensures var t := Retire(s, MatchingIds(s.records, role, subject));
      && s.blocked <= t.blocked <= s.blocked + Digests(s.records)
      && (forall r :: r in s.records && Matches(r, role, subject) ==> r.verifier in t.blocked)
      && (forall r :: r in t.records && Matches(r, role, subject) ==> r.verifier in t.blocked && !r.enabled)
  {}

  lemma ProperSubsetSize<T>(a: set<T>, b: set<T>, x: T)
    requires a <= b && x in b && x !in a
    ensures |a| < |b|
  {
    SubsetSize(a, b - {x});
  }

  /** One more operation fits when a reserved place is freed: an unfinished operation, or an
      unblocked verifier. */
  lemma OneMoreFits(s: Snapshot, t: Snapshot)
    requires HasCapacity(s)
    requires |t.records| == |s.records| && Digests(t.records) == Digests(s.records)
    requires s.blocked <= t.blocked <= s.blocked + Digests(s.records)
    requires |t.operations| == |s.operations| + 1 && Unfinished(t.operations) <= Unfinished(s.operations)
    requires || (exists k :: k in Unfinished(s.operations) && k !in Unfinished(t.operations))
             || (exists v :: v in Digests(s.records) && v !in s.blocked && v in t.blocked)
    ensures HasCapacity(t) && |t.blocked| <= TOMBSTONE_LIMIT && |t.operations| <= OPERATION_LIMIT
  {
    hide Digests, Unfinished;
    var before, after := Digests(s.records) - s.blocked, Digests(t.records) - t.blocked;
    assert t.blocked + Digests(t.records) == s.blocked + Digests(s.records);
    SubsetSize(t.blocked, s.blocked + Digests(s.records));
    SubsetSize(after, before);
    SubsetSize(Unfinished(t.operations), Unfinished(s.operations));
    if k :| k in Unfinished(s.operations) && k !in Unfinished(t.operations) {
      ProperSubsetSize(Unfinished(t.operations), Unfinished(s.operations), k);
    } else {
      var v :| v in Digests(s.records) && v !in s.blocked && v in t.blocked;
      ProperSubsetSize(after, before, v);
    }
  }

  lemma RevokedCapacity(s: Snapshot, now: real, origin: Id, opId: Id, role: Role, subject: Subject)
    requires HasCapacity(s) && opId !in s.operations && RemovesLiability(s, role, subject)
    ensures var t := Controlled(s, now, origin, Revoke, opId, role, subject);
      HasCapacity(t) && |t.blocked| <= TOMBSTONE_LIMIT && |t.operations| <= OPERATION_LIMIT
  {
    hide HasCapacity, Disable, VerifiersOf, InvalidateApprovals, AbandonPairing, MatchingIds, RevokeActive;
    var t := Controlled(s, now, origin, Revoke, opId, role, subject);
    var row := NewOperation(s, now, origin, Revoke, role, subject);
    EndedSize(s.operations, subject, opId, row);
    forall k ensures k in Unfinished(t.operations) <==>
        k in Unfinished(s.operations) && k in s.operations && !ActiveFor(s.operations[k], subject) {
      EndedUnfinished(s.operations, subject, opId, row, k);
    }
    RetiredDigests(s, role, subject);
    RetireShape(s, MatchingIds(s.records, role, subject));
    if k :| k in s.operations && ActiveFor(s.operations[k], subject) {
      assert k in Unfinished(s.operations) && k !in Unfinished(t.operations);
    } else {
      var r :| r in s.records && Matches(r, role, subject) && r.verifier !in s.blocked;
      assert r.verifier in Digests(s.records) && r.verifier in t.blocked;
    }
    OneMoreFits(s, t);
  }

  lemma RevokedSilences(s: Snapshot, now: real, origin: Id, opId: Id, role: Role, subject: Subject)
    requires opId !in s.operations
    ensures Silenced(Controlled(s, now, origin, Revoke, opId, role, subject), role, subject)
  {
    hide Disable, VerifiersOf, MatchingIds, RevokeActive, Unfinished, InvalidateApprovals;
    EndedNoneActive(s.operations, subject, opId, NewOperation(s, now, origin, Revoke, role, subject));
    RetiredDigests(s, role, subject);
  }

  lemma AbandonValid(requests: map<Id, Request>, device: Subject)
    requires EnrollmentValid(requests)
    ensures EnrollmentValid(AbandonPairing(requests, device))
  {
    SpoilingValid(requests, AbandonPairing(requests, device));
  }

  lemma RevokedWellFormed(s: Snapshot, now: real, origin: Id, opId: Id, role: Role, subject: Subject)
    requires Schema(s) && opId !in s.operations && 0.0 <= now && !role.OwnerRole?
    requires RemovesLiability(s, role, subject)
    ensures Admissible(s, Controlled(s, now, origin, Revoke, opId, role, subject))
  {
    hide RecordsValid, EnrollmentValid, GrantsValid, GrantsBound, HasCapacity, RecoveryValid, IdsImmutable,
      Disable, VerifiersOf, MatchingIds, RevokeActive, RemovesLiability, InvalidateApprovals,
      AbandonPairing, OperationValid, Digests, Unfinished;
    var ids := MatchingIds(s.records, role, subject);
    var t := Controlled(s, now, origin, Revoke, opId, role, subject);
    RevokedCapacity(s, now, origin, opId, role, subject);
    var row := NewOperation(s, now, origin, Revoke, role, subject);
    EndedRowsValid(s.operations, subject, opId, row);
    EndedRecoveryValid(s.operations, s.bindings, s.recovery, subject, opId, row);
    RetireShape(s, ids);
    SameIdentitiesValid(s.records, t.records);
    GrantsBoundExtends(s.grants, s.records, t.records);
    InvalidateValid(s.requests, ids);
    AbandonValid(InvalidateApprovals(s.requests, ids), subject);
  }

  /** From any snapshot that satisfies the schema, a revocation with a fresh id that removes a
      liability is carried out, keeps the schema and its headroom, and leaves the subject with
      nothing to act with. */
  lemma RevocationNeverLacksRoom(s: Snapshot, now: real, origin: Id, opId: Id, role: Role, subject: Subject)
    requires Schema(s) && opId !in s.operations && 0.0 <= now && !role.OwnerRole?
    requires HasMatching(s.records, role, subject) && RemovesLiability(s, role, subject)
    ensures var e := Control(s, now, origin, Revoke, opId, role, subject);
      e.reply == Done && Schema(e.after) && Silenced(e.after, role, subject)
      && e.after == Controlled(s, now, origin, Revoke, opId, role, subject)
  {
    hide Schema, Silenced, IdsImmutable, Controlled, RemovesLiability, MatchingIds;
    RevokedWellFormed(s, now, origin, opId, role, subject);
    RevokedSilences(s, now, origin, opId, role, subject);
  }

  // ---- Draining every subject ----

  datatype Order = Order(now: real, origin: Id, opId: Id, role: Role, subject: Subject)

  function OwnerOf(s: Snapshot): Principal {
    Principal(OwnerRole, OWNER_NAME, s.owner.generation, NONE)
  }

  /** One revocation asked for by the owner, as the service carries it out: sweep, then act. */
  function Revocation(s: Snapshot, o: Order): Effect {
    Act(Sweep(s, o.now, o.origin), o.now, o.origin, Some(OwnerOf(s)), Ordered(Revoke, o.opId, o.role, o.subject))
  }

  function RevokeAll(s: Snapshot, orders: seq<Order>): Snapshot
    decreases |orders|
  {
    if orders == [] then s else RevokeAll(Revocation(s, orders[0]).after, orders[1..])
  }

  /** Operation ids that are new and distinct, and subjects that have credentials. */
  ghost predicate Fresh(s: Snapshot, orders: seq<Order>) {
    && (forall i :: 0 <= i < |orders| ==>
          orders[i].opId !in s.operations && !orders[i].role.OwnerRole? && 0.0 <= orders[i].now
          && exists j :: 0 <= j < |s.records| && Matches(s.records[j], orders[i].role, orders[i].subject))
    && (forall i, j :: 0 <= i < j < |orders| ==> orders[i].opId != orders[j].opId)
  }

  lemma SweepQuells(s: Snapshot, now: real, origin: Id, role: Role, subject: Subject)
    ensures Quelled(s, role, subject) ==> Quelled(Sweep(s, now, origin), role, subject)
    ensures Extends(s.records, Sweep(s, now, origin).records)
        && Sweep(s, now, origin).operations.Keys == s.operations.Keys
  {
    hide VerifiersOf, InvalidateApprovals, SweptIds;
  }

  /** A revocation never undoes another subject's. */
  lemma ControlledQuells(s: Snapshot, now: real, origin: Id, opId: Id, role: Role, subject: Subject, otherRole: Role,
                         other: Subject)
    requires Quelled(s, otherRole, other) && opId !in s.operations
    ensures Quelled(Controlled(s, now, origin, Revoke, opId, role, subject), otherRole, other)
  {
    hide VerifiersOf, InvalidateApprovals, MatchingIds, AbandonPairing;
  }

  lemma SweptStart(s: Snapshot, o: Order)
    requires exists j :: 0 <= j < |s.records| && Matches(s.records[j], o.role, o.subject)
    ensures var t := Sweep(s, o.now, o.origin);
      t.owner == s.owner && HasMatching(t.records, o.role, o.subject)
  {
    hide VerifiersOf, InvalidateApprovals, SweptIds, LivePointers, SweepOps;
    var t := Sweep(s, o.now, o.origin);
    var j :| 0 <= j < |s.records| && Matches(s.records[j], o.role, o.subject);
    assert t.records[j] in t.records;
  }

  lemma NoLiabilityQuelled(s: Snapshot, now: real, origin: Id, role: Role, subject: Subject)
    requires var t := Sweep(s, now, origin);
      RecoveryValid(t.operations, t.bindings, t.recovery) && !RemovesLiability(t, role, subject)
    ensures Quelled(Sweep(s, now, origin), role, subject)
  {
    hide VerifiersOf, Disable, InvalidateApprovals, SweptIds, SweepOps;
  }

  lemma OrderedEffect(s: Snapshot, o: Order)
    requires s.owner.active && !o.role.OwnerRole?
    ensures Act(s, o.now, o.origin, Some(OwnerOf(s)), Ordered(Revoke, o.opId, o.role, o.subject))
         == Control(s, o.now, o.origin, Revoke, o.opId, o.role, o.subject)
  {
    hide Control, Current;
  }

  /** What is left behind by a revocation that the service reaches, admitted or not. */
  lemma ControlQuells(s: Snapshot, o: Order, role: Role, subject: Subject)
    requires Schema(s) && o.opId !in s.operations && !o.role.OwnerRole? && 0.0 <= o.now
    requires HasMatching(s.records, o.role, o.subject)
    requires !RemovesLiability(s, o.role, o.subject) ==> Quelled(s, o.role, o.subject)
    ensures var e := Control(s, o.now, o.origin, Revoke, o.opId, o.role, o.subject); var t := e.after;
      && Schema(t) && (t == s || t == Controlled(s, o.now, o.origin, Revoke, o.opId, o.role, o.subject))
      && Quelled(t, o.role, o.subject)
      && (Quelled(s, role, subject) ==> Quelled(t, role, subject))
      && (RemovesLiability(s, o.role, o.subject) ==> e.reply == Done && Silenced(t, o.role, o.subject))
  {
    hide Schema, Controlled, RemovesLiability, Quelled, HasMatching, MatchingIds;
    if RemovesLiability(s, o.role, o.subject) {
      RevocationNeverLacksRoom(s, o.now, o.origin, o.opId, o.role, o.subject);
    }
    RevokedSilences(s, o.now, o.origin, o.opId, o.role, o.subject);
    if Quelled(s, role, subject) {
      ControlledQuells(s, o.now, o.origin, o.opId, o.role, o.subject, role, subject);
    }
  }

  lemma ControlledKeepsRows(s: Snapshot, now: real, origin: Id, opId: Id, role: Role, subject: Subject)
    ensures var t := Controlled(s, now, origin, Revoke, opId, role, subject);
      t.owner == s.owner && Extends(s.records, t.records) && t.operations.Keys == s.operations.Keys + {opId}
  {
    hide MatchingIds, VerifiersOf, InvalidateApprovals, AbandonPairing;
  }

  /** What one revocation of the drain does for its own subject and for those before it. */
  lemma OrderQuells(s: Snapshot, o: Order, role: Role, subject: Subject)
    requires Schema(s) && s.owner.active && o.opId !in s.operations && !o.role.OwnerRole? && 0.0 <= o.now
    requires exists j :: 0 <= j < |s.records| && Matches(s.records[j], o.role, o.subject)
    ensures var e := Revocation(s, o); var t := e.after;
      && Schema(t) && t.owner == s.owner && Extends(s.records, t.records)
      && t.operations.Keys <= s.operations.Keys + {o.opId}
      && Quelled(t, o.role, o.subject)
      && (Quelled(s, role, subject) ==> Quelled(t, role, subject))
      && (RemovesLiability(Sweep(s, o.now, o.origin), o.role, o.subject) ==>
          e.reply == Done && Silenced(t, o.role, o.subject))
  {
    hide Schema, Act, Control, Controlled, Sweep, RemovesLiability, Quelled, IdsImmutable, HasMatching,
      Silenced, Extends;
    var swept := Sweep(s, o.now, o.origin);
    SweepAdmissible(s, o.now, o.origin);
    SweepQuells(s, o.now, o.origin, role, subject);
    SweptStart(s, o);
    OrderedEffect(swept, o);
    SchemaPointers(swept);
    if !RemovesLiability(swept, o.role, o.subject) {
      NoLiabilityQuelled(s, o.now, o.origin, o.role, o.subject);
    }
    ControlQuells(swept, o, role, subject);
    ControlledKeepsRows(swept, o.now, o.origin, o.opId, o.role, o.subject);
    ExtendsOn(s.records, swept.records, Controlled(swept, o.now, o.origin, Revoke, o.opId, o.role, o.subject).records);
  }

  lemma SchemaPointers(s: Snapshot)
    requires Schema(s)
    ensures RecoveryValid(s.operations, s.bindings, s.recovery)
  {}

  /** Whatever the order of the revocations and whenever each is asked for, all of them
      together leave every listed subject without a usable credential, an unfinished operation
      or an open recovery; nothing already withdrawn comes back on the way. */
  lemma {:induction false} RevokeAllDrains(s: Snapshot, orders: seq<Order>, role: Role, subject: Subject)
    requires Schema(s) && s.owner.active && Fresh(s, orders)
    requires Quelled(s, role, subject)
             || exists i :: 0 <= i < |orders| && orders[i].role == role && orders[i].subject == subject
    ensures Schema(RevokeAll(s, orders)) && Quelled(RevokeAll(s, orders), role, subject)
    decreases |orders|
  {
    hide Schema, Quelled, Silenced, Revocation, RemovesLiability;
    if orders != [] {
      var o, rest := orders[0], orders[1..];
      var t := Revocation(s, o).after;
      OrderQuells(s, o, role, subject);
      forall i | 0 <= i < |rest|
        ensures rest[i].opId !in t.operations
        ensures exists j :: 0 <= j < |t.records| && Matches(t.records[j], rest[i].role, rest[i].subject)
      {
        assert rest[i] == orders[i + 1];
        var j :| 0 <= j < |s.records| && Matches(s.records[j], orders[i + 1].role, orders[i + 1].subject);
        assert SameIdentity(s.records[j], t.records[j]);
        assert Matches(t.records[j], rest[i].role, rest[i].subject);
      }
      if !Quelled(t, role, subject) {
        var i :| 0 <= i < |orders| && orders[i].role == role && orders[i].subject == subject;
        assert rest[i - 1] == orders[i];
      }
      RevokeAllDrains(t, rest, role, subject);
    }
  }
}
