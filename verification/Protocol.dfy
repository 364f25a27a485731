/** The protocol that lifecycle operations follow over every run: finished operations never
    move again, a subject has at most one unfinished operation, and recovery pointers name
    exactly the unfinished recoveries, so pairing can never revive a finished one. */
module Protocol {
  import opened Basics
  import opened Authority
  import opened Lifecycle
  import opened Transitions
  import opened Upkeep
  import opened Records
  import E = Enrollment
  import I = Integration
  import LT = Latch

  predicate LiveOp(operations: map<Id, Operation>, k: Id) {
    k in operations && !TerminalOp(operations[k].state)
  }

  ghost predicate OneLive(operations: map<Id, Operation>) {
    forall j, k ::
      LiveOp(operations, j) && LiveOp(operations, k) && operations[j].subject == operations[k].subject ==> j == k
  }

  ghost predicate PointersLive(operations: map<Id, Operation>, recovery: map<Subject, Recovery>) {
    forall d :: d in recovery ==>
      LiveOp(operations, recovery[d].operationId) && operations[recovery[d].operationId].subject == d
  }

  ghost predicate RecoveriesPointed(operations: map<Id, Operation>, recovery: map<Subject, Recovery>) {
    forall k :: LiveOp(operations, k) && operations[k].action.Recover? ==>
      operations[k].subject in recovery && recovery[operations[k].subject].operationId == k
  }

  /** A rotation holds a credential only once delivered. */
  ghost predicate RotationsUnissued(operations: map<Id, Operation>) {
    forall k ::
      k in operations && operations[k].action.Rotate? && (operations[k].state.Queued? || operations[k].state.Pending?)
      ==> operations[k].credentialId == NONE
  }

  ghost predicate Orderly(operations: map<Id, Operation>, recovery: map<Subject, Recovery>) {
    OneLive(operations) && PointersLive(operations, recovery) && RecoveriesPointed(operations, recovery)
    && RotationsUnissued(operations)
  }

  /** Operations are never forgotten or reassigned, and finished ones never change. */
  ghost predicate Advances(before: map<Id, Operation>, after: map<Id, Operation>) {
    forall k :: k in before ==>
      && k in after
      && (TerminalOp(before[k].state) ==> after[k] == before[k])
      && after[k].role == before[k].role && after[k].subject == before[k].subject
      && after[k].action == before[k].action && after[k].oldIds == before[k].oldIds
  }

  lemma SweepOrderly(s: Snapshot, now: real, origin: Id)
    requires Orderly(s.operations, s.recovery)
    ensures var t := Sweep(s, now, origin); Orderly(t.operations, t.recovery) && Advances(s.operations, t.operations)
  {
    hide VerifiersOf, Disable, InvalidateApprovals, SweptIds;
  }

  lemma RotateOrderly(s: Snapshot, k: Id, row: Operation)
    requires Orderly(s.operations, s.recovery) && k !in s.operations && row.action.Rotate? && row.credentialId == NONE
    requires !HasActive(s.operations, row.subject)
    ensures Orderly(s.operations[k := row], s.recovery) && Advances(s.operations, s.operations[k := row])
  {}

  lemma QuellOrderly(s: Snapshot, k: Id, row: Operation, recovery: map<Subject, Recovery>)
    requires Orderly(s.operations, s.recovery) && k !in s.operations
    requires (row.action.Revoke? && TerminalOp(row.state) && recovery == s.recovery - {row.subject})
             || (row.action.Recover? && !TerminalOp(row.state)
                 && recovery == s.recovery[row.subject := Recovery(k, NONE)])
    ensures var t := RevokeActive(s.operations, row.subject)[k := row];
            Orderly(t, recovery) && Advances(s.operations, t)
  {}

  lemma ControlledOrderly(s: Snapshot, now: real, origin: Id, action: Action, opId: Id, role: Role, subject: Subject)
    requires Orderly(s.operations, s.recovery) && opId !in s.operations
    requires action.Rotate? ==> !HasActive(s.operations, subject)
    ensures var t := Controlled(s, now, origin, action, opId, role, subject);
            Orderly(t.operations, t.recovery) && Advances(s.operations, t.operations)
  {
    hide Orderly, Advances, VerifiersOf, Disable, InvalidateApprovals, MatchingIds, AbandonPairing,
      RevokeActive, HasActive;
    var row := NewOperation(s, now, origin, action, role, subject);
    if action.Rotate? {
      RotateOrderly(s, opId, row);
    } else {
      QuellOrderly(s, opId, row, Controlled(s, now, origin, action, opId, role, subject).recovery);
    }
  }

  /** One operation moves between states, keeping who and what it is for. */
  lemma MoveOrderly(s: Snapshot, k: Id, op: Operation, recovery: map<Subject, Recovery>)
    requires Orderly(s.operations, s.recovery) && LiveOp(s.operations, k)
    requires !TerminalOp(op.state) && op.role == s.operations[k].role && op.subject == s.operations[k].subject
    requires op.action == s.operations[k].action && op.oldIds == s.operations[k].oldIds
    requires op.action.Rotate? && (op.state.Queued? || op.state.Pending?) ==> op.credentialId == NONE
    requires recovery.Keys == s.recovery.Keys && forall d :: d in recovery ==>
        recovery[d].operationId == s.recovery[d].operationId
    ensures Orderly(s.operations[k := op], recovery) && Advances(s.operations, s.operations[k := op])
  {}

  lemma ActOrderly(s: Snapshot, now: real, origin: Id, principal: Option<Principal>, c: Command)
    requires Orderly(s.operations, s.recovery)
    requires c.Polling? && principal.Some? ==> FindsRotation(s, principal.value, c.found)
    ensures var t := Act(s, now, origin, principal, c).after;
            Orderly(t.operations, t.recovery) && Advances(s.operations, t.operations)
  {
    hide Commit, Admissible, Controlled, Orderly, VerifiersOf, Disable, MatchingIds, RemovesLiability,
      AnyUsable, IsOwner, Current, InvalidateApprovals;
    var t := Act(s, now, origin, principal, c).after;
    if t != s {
      match c
      case Ordered(action, opId, role, subject) => ControlledOrderly(s, now, origin, action, opId, role, subject);
      case Polling(found) =>
        RotationsIn(s);
        MoveOrderly(s, found.value, s.operations[found.value].(state := OpState.Pending), s.recovery);
      case Inquiry(opId) =>
      case Delivery(opId, id, verifier) => MoveOrderly(s, opId, t.operations[opId], s.recovery);
      case Receipt(opId, saved) => MoveOrderly(s, opId, t.operations[opId], s.recovery);
    }
  }

  lemma RotationsIn(s: Snapshot)
    requires Orderly(s.operations, s.recovery)
    ensures RotationsUnissued(s.operations)
  {}

  lemma OpenedOrderly(s: Snapshot, now: real, origin: Id, binding: Binding, device: Subject, q: Id)
    requires Orderly(s.operations, s.recovery) && RecoveryValid(s.operations, s.bindings, s.recovery)
    ensures var t := E.Opened(s, now, origin, binding, device, q);
            Orderly(t.operations, t.recovery) && Advances(s.operations, t.operations)
  {
    hide E.Unexpired, Orderly, Advances;
    AdvancesNothing(s.operations);
    if device in s.recovery && s.recovery[device].operationId in s.operations {
      var k := s.recovery[device].operationId;
      PointerLive(s, device);
      MoveOrderly(s, k, s.operations[k].(state := OpState.Pending), s.recovery[device := Recovery(k, q)]);
    }
  }

  lemma PointerLive(s: Snapshot, d: Subject)
    requires Orderly(s.operations, s.recovery) && RecoveryValid(s.operations, s.bindings, s.recovery) && d in s.recovery
    ensures LiveOp(s.operations, s.recovery[d].operationId) && s.operations[s.recovery[d].operationId].action.Recover?
  {}

  lemma RedeemedOrderly(s: Snapshot, q: Id, id: Id, verifier: Id)
    requires Orderly(s.operations, s.recovery) && RecoveryValid(s.operations, s.bindings, s.recovery) && q in s.requests
    ensures var t := E.Redeemed(s, q, id, verifier);
            Orderly(t.operations, t.recovery) && Advances(s.operations, t.operations)
  {
    hide VerifiersOf, Disable, MatchingIds;
  }

  lemma PairOrderly(s: Snapshot, now: real, origin: Id, principal: Option<Principal>, m: E.Move)
    requires Orderly(s.operations, s.recovery) && RecoveryValid(s.operations, s.bindings, s.recovery)
    ensures var t := E.Pair(s, now, origin, principal, m).after;
            Orderly(t.operations, t.recovery) && Advances(s.operations, t.operations)
  {
    hide Orderly, E.Pair, E.Opened, E.Redeemed;
    LT.PairShape(s, now, origin, principal, m);
    if m.Asking? { OpenedOrderly(s, now, origin, m.binding, m.device, m.requestId); }
    if m.Redeeming? && m.q in s.requests { RedeemedOrderly(s, m.q, m.id, m.verifier); }
  }

  lemma StepOrderly(s: Snapshot, now: real, tx: Tx, cut: nat)
    requires Schema(s) && Orderly(s.operations, s.recovery) && Faithful(s, now, tx)
    ensures var t := After(s, now, tx, cut);
            Orderly(t.operations, t.recovery) && Advances(s.operations, t.operations)
  {
    hide Orderly, Advances, Act, E.Pair, I.Serve, WellFormed, HasCapacity, IdsImmutable, Sweep, FindsRotation;
    AdvancesNothing(s.operations);
    match tx
    case LifecycleTx(origin, principal, command) =>
      SweepOrderly(s, now, origin);
      if cut > 1 {
        var swept := Sweep(s, now, origin);
        ActOrderly(swept, now, origin, principal, command);
        AdvancesOn(s.operations, swept.operations, After(s, now, tx, cut).operations);
      }
    case EnrollmentTx(origin, principal, move) =>
      SweepOrderly(s, now, origin);
      var swept := Sweep(s, now, origin);
      if cut > 2 {
        var marked := E.MarkStale(swept, now, origin);
        SweepAdmissible(s, now, origin);
        MarkStaleAdmissible(swept, now, origin);
        SchemaRecovery(marked);
        PairOrderly(marked, now, origin, principal, move);
        AdvancesOn(s.operations, swept.operations, After(s, now, tx, cut).operations);
      }
    case IntegrationTx(origin, principal, call) =>
      GrantsLeaveOperations(s, now, origin, principal, call, cut);
    case HousekeepingTx(origin) =>
    case OwnerTx(owner) =>
  }

  lemma SchemaRecovery(s: Snapshot)
    requires Schema(s)
    ensures RecoveryValid(s.operations, s.bindings, s.recovery)
  {}

  lemma GrantsLeaveOperations(s: Snapshot, now: real, origin: Id, principal: Option<Principal>, call: I.Call, cut: nat)
    ensures var t := After(s, now, IntegrationTx(origin, principal, call), cut);
            t.operations == s.operations && t.recovery == s.recovery && t.bindings == s.bindings
  {
    hide I.Serve, I.SweepGrants, VerifiersOf, Disable, I.Presents, LT.GrantsMove, Admissible, I.Enable;
    SweptGrantsLeave(s, now, origin);
    LT.ServeShape(I.SweepGrants(s, now, origin), now, origin, principal, call);
  }

  lemma SweptGrantsLeave(s: Snapshot, now: real, origin: Id)
    ensures var t := I.SweepGrants(s, now, origin);
            t.operations == s.operations && t.recovery == s.recovery && t.bindings == s.bindings
  {
    hide VerifiersOf, Disable, I.LapsedIds, I.SweepGrant;
  }

  lemma AdvancesNothing(operations: map<Id, Operation>)
    ensures Advances(operations, operations)
  {}

  lemma AdvancesOn(a: map<Id, Operation>, b: map<Id, Operation>, c: map<Id, Operation>)
    requires Advances(a, b) && Advances(b, c)
    ensures Advances(a, c)
  {}
}
