/** The owner's orders: exactly when one is carried out, that repeating one is harmless, and that
    only revocations outgrow the history. */
module Orders {
  import opened Basics
  import opened Authority
  import opened Transitions
  import opened Records
  import opened Upkeep
  import opened Runs
  import opened Protocol
  import opened Permission
  import opened Operations
  import opened Headroom
  import L = Lifecycle

  // ----- There is always room -----

  lemma DigestsSize(records: seq<Credential>)
    ensures |Digests(records)| <= |records|
  {
    if records != [] {
      var n := |records| - 1;
      DigestsSize(records[..n]);
      assert records == records[..n] + [records[n]];
      assert Digests(records) == Digests(records[..n]) + {records[n].verifier};
    } else {
      assert Digests(records) == {};
    }
  }

  lemma UnfinishedSize(operations: map<Id, Operation>)
    ensures |Unfinished(operations)| <= |operations|
  {
    SubsetSize(Unfinished(operations), operations.Keys);
  }

  /** While the history is short, no order can outgrow the schema. */
  lemma ShortHistoryFits(s: Snapshot, t: Snapshot)
    requires HasCapacity(s) && |s.operations| < LIMIT && |t.operations| <= |s.operations| + 1
    requires |t.records| == |s.records| && Digests(t.records) == Digests(s.records)
    requires s.blocked <= t.blocked <= s.blocked + Digests(s.records)
    ensures HasCapacity(t) && |t.blocked| <= TOMBSTONE_LIMIT && |t.operations| <= OPERATION_LIMIT
  {
    hide Digests, Unfinished;
    UnfinishedSize(t.operations);
    DigestsSize(t.records);
    SubsetSize(Digests(t.records) - t.blocked, Digests(t.records));
    assert t.blocked + Digests(t.records) == s.blocked + Digests(s.records);
    SubsetSize(t.blocked, s.blocked + Digests(s.records));
  }

  lemma AddedSize(operations: map<Id, Operation>, k: Id, row: Operation)
    requires k !in operations
    ensures |operations[k := row]| == |operations| + 1
  {
    assert operations[k := row].Keys == operations.Keys + {k};
    assert |operations[k := row].Keys| == |operations.Keys| + 1;
  }

  lemma RotatedLifecycle(s: Snapshot, k: Id, row: Operation)
    requires LifecycleValid(s) && k !in s.operations && OperationValid(row) && |s.operations| < OPERATION_LIMIT
    ensures LifecycleValid(s.(operations := s.operations[k := row]))
  {
    hide OperationValid;
    AddedSize(s.operations, k, row);
  }

  lemma RotationFits(s: Snapshot, now: real, origin: Id, k: Id, role: Role, subject: Subject)
    requires Schema(s) && k !in s.operations && 0.0 <= now && !role.OwnerRole? && |s.operations| < LIMIT
    ensures Admissible(s, L.Controlled(s, now, origin, Rotate, k, role, subject))
  {
    hide RecordsValid, EnrollmentValid, GrantsValid, GrantsBound, HasCapacity, LifecycleValid, IdsImmutable, Digests,
      OperationValid, L.NewOperation;
    var t := L.Controlled(s, now, origin, Rotate, k, role, subject);
    NewValid(s, now, origin, Rotate, role, subject);
    RotatedLifecycle(s, k, t.operations[k]);
    AddedSize(s.operations, k, t.operations[k]);
    ShortHistoryFits(s, t);
    SameIdentitiesValid(s.records, t.records);
  }

  lemma PointersSize(operations: map<Id, Operation>, bindings: map<Subject, Binding>, recovery: map<Subject, Recovery>)
    requires RecoveryValid(operations, bindings, recovery)
    ensures |recovery| <= |bindings|
  {
    SubsetSize(recovery.Keys, bindings.Keys);
  }

  lemma QuelledRecoveryValid(s: Snapshot, k: Id, row: Operation, recovery: map<Subject, Recovery>)
    requires RecoveryValid(s.operations, s.bindings, s.recovery) && k !in s.operations
    requires recovery == s.recovery - {row.subject}
             || (recovery == s.recovery[row.subject := Recovery(k, NONE)] && row.subject in s.bindings
                 && row.role.DeviceRole? && row.action.Recover?)
    ensures RecoveryValid(L.RevokeActive(s.operations, row.subject)[k := row], s.bindings, recovery)
  {}

  lemma QuelledCapacity(s: Snapshot, now: real, origin: Id, action: Action, k: Id, role: Role, subject: Subject)
    requires HasCapacity(s) && k !in s.operations && |s.operations| < LIMIT && !action.Rotate?
    ensures var t := L.Controlled(s, now, origin, action, k, role, subject);
      HasCapacity(t) && |t.blocked| <= TOMBSTONE_LIMIT && |t.operations| <= OPERATION_LIMIT
  {
    hide HasCapacity, Disable, VerifiersOf, L.MatchingIds, L.RevokeActive, InvalidateApprovals, L.AbandonPairing,
      Digests, L.NewOperation;
    EndedSize(s.operations, subject, k, L.NewOperation(s, now, origin, action, role, subject));
    RetireShape(s, L.MatchingIds(s.records, role, subject));
    ShortHistoryFits(s, L.Controlled(s, now, origin, action, k, role, subject));
  }

  lemma QuelledParts(s: Snapshot, now: real, origin: Id, action: Action, k: Id, role: Role, subject: Subject)
    requires !action.Rotate?
    ensures var t := L.Controlled(s, now, origin, action, k, role, subject);
      var row := L.NewOperation(s, now, origin, action, role, subject);
      && row.action == action && row.role == role && row.subject == subject
      && t.operations == Ended(s.operations, subject, k, row) && t.bindings == s.bindings
      && t.recovery == if action.Revoke? then s.recovery - {subject} else s.recovery[subject := Recovery(k, NONE)]
  {
    hide Disable, VerifiersOf, L.MatchingIds, L.RevokeActive, InvalidateApprovals, L.AbandonPairing;
  }

  lemma QuelledLifecycle(s: Snapshot, now: real, origin: Id, action: Action, k: Id, role: Role, subject: Subject)
    requires Schema(s) && k !in s.operations && 0.0 <= now && !role.OwnerRole? && |s.operations| < LIMIT
    requires action.Revoke? || (action.Recover? && role.DeviceRole? && subject in s.bindings)
    ensures var t := L.Controlled(s, now, origin, action, k, role, subject); LifecycleValid(t) && HasCapacity(t)
  {
    hide RecordsValid, EnrollmentValid, GrantsValid, GrantsBound, HasCapacity, RecoveryValid, OperationValid,
      L.Controlled, L.NewOperation, L.RevokeActive;
    var t := L.Controlled(s, now, origin, action, k, role, subject);
    var row := L.NewOperation(s, now, origin, action, role, subject);
    NewValid(s, now, origin, action, role, subject);
    QuelledParts(s, now, origin, action, k, role, subject);
    EndedRowsValid(s.operations, subject, k, row);
    QuelledRecoveryValid(s, k, row, t.recovery);
    PointersSize(t.operations, t.bindings, t.recovery);
    QuelledCapacity(s, now, origin, action, k, role, subject);
  }

  lemma QuellingFits(s: Snapshot, now: real, origin: Id, action: Action, k: Id, role: Role, subject: Subject)
    requires Schema(s) && k !in s.operations && 0.0 <= now && !role.OwnerRole? && |s.operations| < LIMIT
    requires action.Revoke? || (action.Recover? && role.DeviceRole? && subject in s.bindings)
    ensures Admissible(s, L.Controlled(s, now, origin, action, k, role, subject))
  {
    hide RecordsValid, EnrollmentValid, GrantsValid, GrantsBound, HasCapacity, LifecycleValid, IdsImmutable, Disable,
      VerifiersOf, L.MatchingIds, L.RevokeActive, InvalidateApprovals, L.AbandonPairing;
    var ids := L.MatchingIds(s.records, role, subject);
    var t := L.Controlled(s, now, origin, action, k, role, subject);
    QuelledLifecycle(s, now, origin, action, k, role, subject);
    RetireShape(s, ids);
    SameIdentitiesValid(s.records, t.records);
    GrantsBoundExtends(s.grants, s.records, t.records);
    InvalidateValid(s.requests, ids);
    AbandonValid(InvalidateApprovals(s.requests, ids), subject);
  }

  lemma NewValid(s: Snapshot, now: real, origin: Id, action: Action, role: Role, subject: Subject)
    requires 0.0 <= now && !role.OwnerRole?
    ensures OperationValid(L.NewOperation(s, now, origin, action, role, subject))
  {}

  // ----- When an order is carried out -----

  ghost predicate HasCredential(s: Snapshot, role: Role, subject: Subject) {
    exists r :: r in s.records && r.role == role && r.subject == subject
  }

  ghost predicate HasUsable(s: Snapshot, role: Role, subject: Subject, now: real) {
    exists r :: r in s.records && r.role == role && r.subject == subject && Usable(s, r, now)
  }

  ghost predicate HasUnblocked(s: Snapshot, role: Role, subject: Subject) {
    exists r :: r in s.records && r.role == role && r.subject == subject && r.verifier !in s.blocked
  }

  ghost predicate HasUnfinished(s: Snapshot, subject: Subject) {
    exists k :: LiveOp(s.operations, k) && s.operations[k].subject == subject
  }

  /** What an order with a new id needs. Past 1024 operations only a revocation with something
      left to revoke is admitted. */
  ghost predicate CarriedOut(s: Snapshot, now: real, action: Action, role: Role, subject: Subject) {
    && role != OwnerRole && HasCredential(s, role, subject)
    && (|s.operations| < 1024
        || (action.Revoke? && (HasUnfinished(s, subject) || HasUnblocked(s, role, subject))))
    && (action.Rotate? ==> !HasUnfinished(s, subject) && HasUsable(s, role, subject, now))
    && (action.Recover? ==> role == DeviceRole && subject in s.bindings)
  }

  lemma OrderFits(s: Snapshot, now: real, origin: Id, action: Action, k: Id, role: Role, subject: Subject)
    requires Schema(s) && k !in s.operations && 0.0 <= now && CarriedOut(s, now, action, role, subject)
    ensures Admissible(s, L.Controlled(s, now, origin, action, k, role, subject))
  {
    hide Schema, Admissible, L.Controlled, HasUsable, HasCredential;
    if |s.operations| < LIMIT {
      if action.Rotate? {
        RotationFits(s, now, origin, k, role, subject);
      } else {
        QuellingFits(s, now, origin, action, k, role, subject);
      }
    } else {
      RevokedWellFormed(s, now, origin, k, role, subject);
    }
  }

  lemma ControlDoneExactlyWhen(s: Snapshot, now: real, origin: Id, action: Action, k: Id, role: Role, subject: Subject)
    requires Schema(s) && k !in s.operations && 0.0 <= now
    ensures L.Control(s, now, origin, action, k, role, subject).reply.Done? <==>
              CarriedOut(s, now, action, role, subject)
  {
    hide Schema, Admissible, L.Controlled, Usable;
    if CarriedOut(s, now, action, role, subject) { OrderFits(s, now, origin, action, k, role, subject); }
  }

  /** An order with a new id is carried out exactly when the owner gives it and what it needs is
      there: nothing else, and never a lack of room, refuses it. */
  lemma OrderCarriedOutExactlyWhen(s: Snapshot, now: real, tx: Tx)
    requires Inv(s) && 0.0 <= now && tx.LifecycleTx? && tx.command.Ordered? && tx.command.opId !in s.operations
    ensures var swept, c := After(s, now, tx, 1), tx.command;
      ReplyTo(s, now, tx).Done? <==>
        OwnerSpeaks(swept.owner, tx.principal) && CarriedOut(swept, now, c.action, c.role, c.subject)
  {
    hide Inv, Schema, L.Sweep, L.Control, Current, CarriedOut;
    var swept, c := L.Sweep(s, now, tx.origin), tx.command;
    SweptKeys(s, now, tx.origin);
    InvIsSchema(s);
    SweepAdmissible(s, now, tx.origin);
    ControlDoneExactlyWhen(swept, now, tx.origin, c.action, c.opId, c.role, c.subject);
  }

  lemma InvIsSchema(s: Snapshot)
    requires Inv(s)
    ensures Schema(s)
  {}

  // ----- Repeating an order -----

  lemma KnownOrder(s: Snapshot, now: real, tx: Tx, cut: nat)
    requires tx.LifecycleTx? && tx.command.Ordered? && tx.command.opId in s.operations
    ensures OnlyUpkeep(s, After(s, now, tx, cut), now, tx)
    ensures var op, c := s.operations[tx.command.opId], tx.command;
      ReplyTo(s, now, tx).Done? <==>
        && OwnerSpeaks(s.owner, tx.principal) && c.role != OwnerRole
        && c.action == op.action && c.role == op.role && c.subject == op.subject
  {
    hide L.Sweep, Current, OnlyUpkeep, Swept;
    SweptStep(s, now, tx.origin, tx.command.opId);
    if cut <= 1 { UpToUpkeep(s, now, tx, cut); } else { UpToUpkeep(s, now, tx, 1); }
  }

  /** An order id is used once for good: at any later moment of the run, whatever became of the
      operation, the same order is answered as done and another one under its id refused, and
      neither does anything beyond the sweep. */
  lemma RepeatedOrderIsHarmless(run: seq<Moment>, j: nat, k: Id) returns (i: nat)
    requires IsRun(run) && Inv(run[0].s) && 0 < j < |run| && k !in run[0].s.operations && k in run[j - 1].s.operations
    requires run[j].tx.LifecycleTx? && run[j].tx.command.Ordered? && run[j].tx.command.opId == k
    requires OwnerSpeaks(run[j - 1].s.owner, run[j].tx.principal)
    ensures i < j && OrderedAt(run, i, k) && run[i].tx.LifecycleTx? && run[i].tx.command.Ordered?
    ensures OnlyUpkeep(run[j - 1].s, run[j].s, run[j].now, run[j].tx)
    ensures run[j].tx.command.role != OwnerRole ==>
      (ReplyTo(run[j - 1].s, run[j].now, run[j].tx).Done? <==> run[j].tx.command == run[i].tx.command)
  {
    hide Inv, After, Faithful, OnlyUpkeep, ReplyTo;
    assert Follows(run[j - 1], run[j]);
    i := OrderedSince(run, j - 1, k);
    KnownOrder(run[j - 1].s, run[j].now, run[j].tx, run[j].cut);
  }

  // ----- The history -----

  function Lasting(operations: map<Id, Operation>): set<Id> {
    set k | k in operations && !operations[k].action.Revoke?
  }

  lemma LastingFew(operations: map<Id, Operation>)
    ensures |Lasting(operations)| <= |operations|
  {
    SubsetSize(Lasting(operations), operations.Keys);
  }

  lemma OneNewOperation(s: Snapshot, now: real, tx: Tx, cut: nat, k: Id)
    requires Inv(s) && Faithful(s, now, tx) && 0.0 <= now
    ensures var t := After(s, now, tx, cut);
      && (k in s.operations ==> k in t.operations && t.operations[k].action == s.operations[k].action)
      && (k !in s.operations && k in t.operations ==>
            tx.LifecycleTx? && tx.command.Ordered? && tx.command.opId == k
            && (t.operations[k].action.Revoke? || |s.operations| < 1024))
  {
    hide Inv, After, Faithful, OpStep, OwnerSpeaks;
    TransactionOp(s, now, tx, cut, k);
    var t := After(s, now, tx, cut);
    if k in s.operations {
      StepKept(s.operations[k], t.operations[k], now, s.owner, tx, cut, k);
    } else if k in t.operations && !t.operations[k].action.Revoke? {
      NewNeedsRoom(s, now, tx, cut, k);
    }
  }

  lemma LastingGrows(before: map<Id, Operation>, after: map<Id, Operation>, j: Id)
    requires |Lasting(before)| <= 1024
    requires forall k :: k in before ==> k in after && after[k].action == before[k].action
    requires forall k :: k in after && k !in before ==> k == j && (after[k].action.Revoke? || |before| < 1024)
    ensures |Lasting(after)| <= 1024
  {
    if j in after && j !in before && !after[j].action.Revoke? {
      forall k ensures k in after.Keys <==> k in before.Keys + {j} {
        assert k in after && k !in before ==> k == j;
      }
      assert after.Keys == before.Keys + {j};
      assert |after.Keys| == |before.Keys| + 1;
      LastingFew(after);
    } else {
      forall k | k in Lasting(after) ensures k in Lasting(before) {
        assert k in before;
      }
      SubsetSize(Lasting(after), Lasting(before));
    }
  }

  lemma StepHistory(s: Snapshot, now: real, tx: Tx, cut: nat)
    requires Inv(s) && Faithful(s, now, tx) && 0.0 <= now && |Lasting(s.operations)| <= 1024
    ensures |Lasting(After(s, now, tx, cut).operations)| <= 1024
  {
    hide *;
    var t := After(s, now, tx, cut);
    var j := if tx.LifecycleTx? && tx.command.Ordered? then tx.command.opId else NONE;
    forall k ensures k in s.operations ==> k in t.operations && t.operations[k].action == s.operations[k].action
             ensures k !in s.operations && k in t.operations ==>
               k == j && (t.operations[k].action.Revoke? || |s.operations| < 1024)
    {
      OneNewOperation(s, now, tx, cut, k);
    }
    LastingGrows(s.operations, t.operations, j);
  }

  lemma StepKept(a: Operation, b: Operation, now: real, owner: Owner, tx: Tx, cut: nat, k: Id)
    requires OpStep(a, b, now, owner, tx, cut, k)
    ensures Kept(a, b)
  {}

  lemma NewNeedsRoom(s: Snapshot, now: real, tx: Tx, cut: nat, k: Id)
    requires Inv(s) && 0.0 <= now && k !in s.operations
    requires tx.LifecycleTx? && tx.command.Ordered? && tx.command.opId == k
    requires k in After(s, now, tx, cut).operations && !tx.command.action.Revoke?
    ensures |s.operations| < 1024
  {
    hide Inv, Schema, L.Sweep, L.Controlled, Current, Admissible;
    SweptKeys(s, now, tx.origin);
    assert |L.Sweep(s, now, tx.origin).operations.Keys| == |s.operations.Keys|;
  }

  lemma EmptyHistory()
    ensures |Lasting(EMPTY.operations)| <= 1024
  {
    LastingFew(EMPTY.operations);
  }

  /** At every moment of a run there are at most 1024 rotations and recoveries on record; whatever
      else there is are revocations. */
  lemma {:induction false} HistoryIsShort(run: seq<Moment>, i: nat)
    requires IsRun(run) && Inv(run[0].s) && |Lasting(run[0].s.operations)| <= 1024 && i < |run|
    ensures |Lasting(run[i].s.operations)| <= 1024
  {
    hide Inv, After, Faithful;
    if i > 0 {
      HistoryIsShort(run, i - 1);
      assert Follows(run[i - 1], run[i]);
      RunInv(run, i - 1);
      RunInv(run, i);
      StepHistory(run[i - 1].s, run[i].now, run[i].tx, run[i].cut);
    }
  }
}
