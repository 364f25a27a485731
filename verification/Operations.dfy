/** One operation through whole runs: who moves it, in which order, and within which time. Every
    step happens under the owner generation and origin that the operation was ordered under. */
module Operations {
  import opened Basics
  import opened Authority
  import opened Transitions
  import opened Upkeep
  import opened Protocol
  import opened Runs
  import opened Permission
  import L = Lifecycle
  import E = Enrollment
  import I = Integration
  import LT = Latch

  // ----- One operation through one transaction -----

  /** What never changes. */
  ghost predicate Kept(a: Operation, b: Operation) {
    && a.role == b.role && a.subject == b.subject && a.action == b.action && a.oldIds == b.oldIds
    && a.generation == b.generation && a.origin == b.origin && a.expiresAt == b.expiresAt
  }

  /** Neither too late nor started under another owner generation or at another origin. */
  ghost predicate InTime(op: Operation, now: real, owner: Owner, origin: Id) {
    && now < op.expiresAt && (op.overlapUntil != 0.0 ==> now < op.overlapUntil)
    && op.generation == owner.generation && op.origin == origin
  }

  ghost predicate Swept(a: Operation, b: Operation, now: real, owner: Owner, origin: Id) {
    if a.state.Acknowledged? then b.state.Completed?
    else if TerminalOp(a.state) || InTime(a, now, owner, origin) then b.state == a.state
    else b.state.Expired?
  }

  /** The step of the protocol that the command stands for. */
  ghost predicate CommandStep(a: Operation, b: Operation, now: real, c: L.Command, k: Id) {
    match c
    case Ordered(action, _, _, subject) => !action.Rotate? && subject == a.subject && b == a.(state := OpState.Revoked)
    case Polling(_) => a.action.Rotate? && a.state.Queued? && b == a.(state := OpState.Pending)
    case Delivery(opId, id, _) =>
      && opId == k && a.action.Rotate? && a.state.Pending? && b.state.Delivered? && b.credentialId == id
      && b.overlapUntil == if now + 300.0 <= a.expiresAt then now + 300.0 else a.expiresAt
    case Receipt(opId, saved) => opId == k && saved && a.state.Delivered? && b == a.(state := Acknowledged)
    case Inquiry(_) => false
  }

  /** A pairing request of a device in recovery re-opens its recovery, and its redemption
      delivers it. */
  ghost predicate MoveStep(a: Operation, b: Operation, m: E.Move) {
    && a.action.Recover?
    && match m
       case Asking(_, _, device, _, _) => a.subject == device && b == a.(state := OpState.Pending)
       case Redeeming(_, _, id, _) => b.state.Delivered? && b.credentialId == id && b.overlapUntil == a.expiresAt
       case _ => false
  }

  /** The transactions whose first commit sweeps the operations. */
  predicate Sweeps(tx: Tx, cut: nat) { 0 < cut && (tx.LifecycleTx? || tx.EnrollmentTx?) }

  ghost predicate Settled(op: Operation, now: real, owner: Owner, tx: Tx, cut: nat) {
    Sweeps(tx, cut) ==> TerminalOp(op.state) || (!op.state.Acknowledged? && InTime(op, now, owner, tx.origin))
  }

  /** An operation is swept at most, or moved by a call while it is live and in time; and if it
      is left alone although the transaction swept, it is over or in time. */
  ghost predicate OpStep(a: Operation, b: Operation, now: real, owner: Owner, tx: Tx, cut: nat, k: Id) {
    && Kept(a, b)
    && (|| (b == a && Settled(a, now, owner, tx, cut))
        || (!tx.OwnerTx? && b == a.(state := b.state) && Swept(a, b, now, owner, tx.origin))
        || (!tx.OwnerTx? && !TerminalOp(a.state) && InTime(a, now, owner, tx.origin) && ByCall(a, b, now, tx, k)))
  }

  ghost predicate ByCall(a: Operation, b: Operation, now: real, tx: Tx, k: Id) {
    || (tx.LifecycleTx? && CommandStep(a, b, now, tx.command, k))
    || (tx.EnrollmentTx? && MoveStep(a, b, tx.move))
  }

  /** A new operation is the owner's order, and records under what it was given. */
  ghost predicate Ordered(op: Operation, now: real, owner: Owner, tx: Tx, k: Id) {
    && tx.LifecycleTx? && tx.command.Ordered? && tx.command.opId == k && OwnerSpeaks(owner, tx.principal)
    && op.action == tx.command.action && op.role == tx.command.role && op.subject == tx.command.subject
    && op.generation == owner.generation && op.origin == tx.origin
    && op.expiresAt == now + (if op.action.Recover? then 300.0 else 86400.0) && op.overlapUntil == 0.0
    && op.credentialId == NONE && op.state == if op.action.Revoke? then OpState.Revoked else Queued
  }

  lemma SweptStep(s: Snapshot, now: real, origin: Id, k: Id)
    requires k in s.operations
    ensures var t := L.Sweep(s, now, origin); var a, b := s.operations[k], t.operations[k];
      && t.owner == s.owner && t.operations.Keys == s.operations.Keys
      && Kept(a, b) && b == a.(state := b.state) && Swept(a, b, now, s.owner, origin)
      && (!TerminalOp(b.state) ==> b == a && InTime(a, now, s.owner, origin))
  {
    hide VerifiersOf, Disable, InvalidateApprovals, L.SweptIds, L.LivePointers;
  }

  lemma ActStep(s: Snapshot, now: real, origin: Id, principal: Option<Principal>, c: L.Command, k: Id)
    requires c.Polling? && principal.Some? ==> L.FindsRotation(s, principal.value, c.found)
    requires k in s.operations
    ensures var t := L.Act(s, now, origin, principal, c).after;
      && k in t.operations && Kept(s.operations[k], t.operations[k])
      && (t.operations[k] == s.operations[k]
          || (!TerminalOp(s.operations[k].state) && CommandStep(s.operations[k], t.operations[k], now, c, k)))
  {
    hide Admissible, VerifiersOf, Disable, L.Controlled, L.RemovesLiability, L.AnyUsable, IsOwner, Current,
      InvalidateApprovals, L.HasActive, L.HasMatching;
    if c.Ordered? && c.opId !in s.operations {
      ControlledStep(s, now, origin, c.action, c.opId, c.role, c.subject, k);
    }
  }

  lemma ControlledStep(s: Snapshot, now: real, origin: Id, action: Action, opId: Id, role: Role, subject: Subject,
                       k: Id)
    requires opId !in s.operations && k in s.operations
    ensures var t := L.Controlled(s, now, origin, action, opId, role, subject); var a := s.operations[k];
      && k in t.operations
      && (t.operations[k] == a
          || (!TerminalOp(a.state) && a.subject == subject && !action.Rotate?
              && t.operations[k] == a.(state := OpState.Revoked)))
  {
    hide VerifiersOf, Disable, L.MatchingIds, InvalidateApprovals, L.AbandonPairing;
  }

  lemma ActOrders(s: Snapshot, now: real, origin: Id, principal: Option<Principal>, c: L.Command, k: Id)
    requires k !in s.operations && k in L.Act(s, now, origin, principal, c).after.operations
    ensures Ordered(L.Act(s, now, origin, principal, c).after.operations[k], now, s.owner,
              LifecycleTx(origin, principal, c), k)
  {
    hide Admissible, VerifiersOf, Disable, L.MatchingIds, L.RemovesLiability, L.AnyUsable, Current,
      InvalidateApprovals, L.AbandonPairing, L.HasActive, L.HasMatching;
  }

  lemma PairStep(s: Snapshot, now: real, origin: Id, principal: Option<Principal>, m: E.Move, k: Id)
    requires Orderly(s.operations, s.recovery) && RecoveryValid(s.operations, s.bindings, s.recovery)
    ensures var t := E.Pair(s, now, origin, principal, m).after;
      && t.operations.Keys == s.operations.Keys
      && (k in s.operations ==>
            && Kept(s.operations[k], t.operations[k])
            && (t.operations[k] == s.operations[k]
                || (!TerminalOp(s.operations[k].state) && MoveStep(s.operations[k], t.operations[k], m))))
  {
    hide E.Pair, Retire, E.Unexpired, L.MatchingIds, Orderly;
    LT.PairShape(s, now, origin, principal, m);
    forall d | d in s.recovery
      ensures LiveOp(s.operations, s.recovery[d].operationId) && s.operations[s.recovery[d].operationId].action.Recover?
    {
      PointerLive(s, d);
    }
  }

  /** What a transaction may do to an operation. */
  lemma TransactionOp(s: Snapshot, now: real, tx: Tx, cut: nat, k: Id)
    requires Inv(s) && Faithful(s, now, tx) && 0.0 <= now
    ensures var t := After(s, now, tx, cut);
      && (k in s.operations ==> k in t.operations && OpStep(s.operations[k], t.operations[k], now, s.owner, tx, cut, k))
      && (k !in s.operations && k in t.operations ==> Ordered(t.operations[k], now, s.owner, tx, k))
  {
    hide Inv, Schema, L.Sweep, L.Act, E.Pair, I.Serve, I.SweepGrants, L.FindsRotation, CommandStep, MoveStep, Swept,
      Orderly, RecoveryValid;
    match tx
    case LifecycleTx(origin, principal, command) =>
      var swept := L.Sweep(s, now, origin);
      SweptKeys(s, now, origin);
      if k in s.operations {
        SweptStep(s, now, origin, k);
        ActStep(swept, now, origin, principal, command, k);
      } else if k in After(s, now, tx, cut).operations {
        ActOrders(swept, now, origin, principal, command, k);
      }
    case EnrollmentTx(origin, principal, move) =>
      var marked := E.MarkStale(L.Sweep(s, now, origin), now, origin);
      SweptKeys(s, now, origin);
      if k in s.operations { SweptStep(s, now, origin, k); }
      StepInv(s, now, tx, 2);
      OrderlyParts(marked);
      PairStep(marked, now, origin, principal, move, k);
    case IntegrationTx(origin, principal, call) => GrantsLeaveOperations(s, now, origin, principal, call, cut);
    case HousekeepingTx(origin) =>
    case OwnerTx(owner) =>
  }

  lemma SweptKeys(s: Snapshot, now: real, origin: Id)
    ensures var t := L.Sweep(s, now, origin); t.owner == s.owner && t.operations.Keys == s.operations.Keys
  {
    hide VerifiersOf, Disable, InvalidateApprovals, L.SweptIds, L.LivePointers;
    assert L.SweepOps(s.operations, s.owner.generation, now, origin).Keys == s.operations.Keys;
  }

  lemma OrderlyParts(s: Snapshot)
    requires Inv(s)
    ensures Orderly(s.operations, s.recovery) && RecoveryValid(s.operations, s.bindings, s.recovery)
  {
    hide HasCapacity, Orderly;
  }

  // ----- Runs -----

  lemma RunOp(run: seq<Moment>, j: nat, k: Id)
    requires IsRun(run) && Inv(run[0].s) && 0 < j < |run|
    ensures k in run[j - 1].s.operations ==> k in run[j].s.operations
    ensures k in run[j - 1].s.operations ==>
      OpStep(run[j - 1].s.operations[k], run[j].s.operations[k], run[j].now, run[j - 1].s.owner, run[j].tx, run[j].cut,
        k)
    ensures k !in run[j - 1].s.operations && k in run[j].s.operations ==>
      Ordered(run[j].s.operations[k], run[j].now, run[j - 1].s.owner, run[j].tx, k)
  {
    hide Inv, After, Faithful, OpStep, Ordered;
    RunInv(run, j - 1);
    RunInv(run, j);
    assert Follows(run[j - 1], run[j]);
    TransactionOp(run[j - 1].s, run[j].now, run[j].tx, run[j].cut, k);
  }

  /** After every lifecycle or pairing transaction the operations that are not over are in time
      and of the owner and origin in force, whatever else happened before. */
  lemma LiveIsInTime(run: seq<Moment>, j: nat, k: Id)
    requires IsRun(run) && Inv(run[0].s) && 0 < j < |run| && Sweeps(run[j].tx, run[j].cut)
    requires LiveOp(run[j].s.operations, k) && !run[j].s.operations[k].state.Acknowledged?
    ensures InTime(run[j].s.operations[k], run[j].now, run[j - 1].s.owner, run[j].tx.origin)
  {
    hide IsRun, Inv;
    RunOp(run, j, k);
  }

  /** The operation was ordered with the `i`-th transaction. */
  ghost predicate OrderedAt(run: seq<Moment>, i: int, k: Id) {
    0 < i < |run| && k !in run[i - 1].s.operations && k in run[i].s.operations
  }

  lemma {:induction false} OrderedSince(run: seq<Moment>, j: nat, k: Id) returns (i: nat)
    requires IsRun(run) && Inv(run[0].s) && j < |run| && k !in run[0].s.operations && k in run[j].s.operations
    ensures i <= j && OrderedAt(run, i, k) && run[i].now <= run[j].now
    ensures Ordered(run[i].s.operations[k], run[i].now, run[i - 1].s.owner, run[i].tx, k)
    ensures Kept(run[i].s.operations[k], run[j].s.operations[k])
  {
    hide Inv, After, Faithful, Ordered;
    assert Follows(run[j - 1], run[j]);
    RunOp(run, j, k);
    if k in run[j - 1].s.operations {
      i := OrderedSince(run, j - 1, k);
    } else {
      i := j;
    }
  }

  /** A call moves the operation with the `j`-th transaction. */
  ghost predicate CalledAt(run: seq<Moment>, j: int, k: Id) {
    && 0 < j < |run| && k in run[j - 1].s.operations && k in run[j].s.operations
    && ByCall(run[j - 1].s.operations[k], run[j].s.operations[k], run[j].now, run[j].tx, k)
    && run[j].s.operations[k] != run[j - 1].s.operations[k]
  }

  /** The operation enters the state with the `j`-th transaction. */
  ghost predicate Enters(run: seq<Moment>, j: int, k: Id, state: OpState) {
    && 0 < j < |run| && k in run[j].s.operations && run[j].s.operations[k].state == state
    && (k in run[j - 1].s.operations ==> run[j - 1].s.operations[k].state != state)
  }

  /** Whatever a call does to an operation, it does in the time that the order gave it, a day for
      a rotation and five minutes for a recovery, at the origin and under the owner generation of
      the order. */
  lemma HandledAsOrdered(run: seq<Moment>, j: nat, k: Id) returns (i: nat)
    requires IsRun(run) && Inv(run[0].s) && k !in run[0].s.operations && CalledAt(run, j, k)
    ensures 0 < i < j && OrderedAt(run, i, k) && run[i].tx.LifecycleTx? && run[i].tx.command.Ordered?
    ensures OwnerSpeaks(run[i - 1].s.owner, run[i].tx.principal)
    ensures !run[j].tx.OwnerTx? && run[j].tx.origin == run[i].tx.origin
    ensures run[j - 1].s.owner.generation == run[i - 1].s.owner.generation
    ensures run[j].now < run[i].now + if run[i].tx.command.action.Recover? then 300.0 else 86400.0
  {
    hide IsRun, Inv;
    RunOp(run, j, k);
    i := OrderedSince(run, j - 1, k);
  }

  /** What is delivered now was delivered by a call, and has not been touched since. */
  lemma {:induction false} DeliveredSince(run: seq<Moment>, j: nat, k: Id) returns (d: nat)
    requires IsRun(run) && Inv(run[0].s) && j < |run| && k !in run[0].s.operations
    requires k in run[j].s.operations && run[j].s.operations[k].state.Delivered?
    ensures d <= j && CalledAt(run, d, k) && run[d].now <= run[j].now
    ensures run[d].s.operations[k] == run[j].s.operations[k]
  {
    hide Inv, After, Faithful;
    assert Follows(run[j - 1], run[j]);
    RunOp(run, j, k);
    if k in run[j - 1].s.operations && run[j - 1].s.operations[k] == run[j].s.operations[k] {
      d := DeliveredSince(run, j - 1, k);
    } else {
      d := j;
    }
  }

  /** Delivered with the `d`-th transaction: a rotation to its subject, a recovery by redeeming a
      pairing. */
  ghost predicate Delivers(run: seq<Moment>, d: int, k: Id) {
    && CalledAt(run, d, k)
    && var op, tx := run[d].s.operations[k], run[d].tx;
       && op.state.Delivered?
       && if op.action.Rotate?
          then tx.LifecycleTx? && tx.command.Delivery? && tx.command.opId == k && op.credentialId == tx.command.id
          else tx.EnrollmentTx? && tx.move.Redeeming? && op.credentialId == tx.move.id
  }

  /** Acknowledged with the `j`-th transaction by the subject, with the credential that was
      delivered. */
  ghost predicate Acknowledges(run: seq<Moment>, j: int, k: Id) {
    && CalledAt(run, j, k)
    && var op, tx := run[j - 1].s.operations[k], run[j].tx;
       && tx.LifecycleTx? && tx.command == L.Receipt(k, true) && tx.principal.Some?
       && var p := tx.principal.value;
          p.credentialId == op.credentialId && p.role == op.role && p.subject == op.subject
  }

  ghost predicate Ceremony(run: seq<Moment>, i: int, d: int, j: int, k: Id) {
    && i < d < j && OrderedAt(run, i, k)
    && Ordered(run[i].s.operations[k], run[i].now, run[i - 1].s.owner, run[i].tx, k)
    && Delivers(run, d, k) && Acknowledges(run, j, k)
    && run[d].s.operations[k] == run[j - 1].s.operations[k]
    && run[j].now < 300.0 + if run[d].s.operations[k].action.Rotate? then run[d].now else run[i].now
  }

  /** Every rotation and recovery that is acknowledged was ordered by the owner, then delivered,
      then acknowledged by its subject with the credential that was delivered; a rotation within
      five minutes of its delivery, a recovery within five minutes of its order. */
  lemma AcknowledgedAfterCeremony(run: seq<Moment>, j: nat, k: Id) returns (i: nat, d: nat)
    requires IsRun(run) && Inv(run[0].s) && k !in run[0].s.operations && Enters(run, j, k, Acknowledged)
    ensures Ceremony(run, i, d, j, k)
  {
    hide Inv, After, Faithful, OwnerSpeaks;
    assert Follows(run[j - 1], run[j]);
    RunOp(run, j, k);
    d := DeliveredSince(run, j - 1, k);
    RunOp(run, d, k);
    i := OrderedSince(run, d - 1, k);
    RunInv(run, j - 1);
    RunInv(run, d);
    ReceiptBySubject(run[j - 1].s, run[j].now, run[j].tx, run[j].cut, k);
  }

  lemma ReceiptBySubject(s: Snapshot, now: real, tx: Tx, cut: nat, k: Id)
    requires Inv(s) && Faithful(s, now, tx) && tx.LifecycleTx? && tx.command.Receipt? && tx.command.opId == k
    requires k in s.operations && s.operations[k].state.Delivered?
    requires k in After(s, now, tx, cut).operations && After(s, now, tx, cut).operations[k].state.Acknowledged?
    ensures tx.command.saved && tx.principal.Some?
    ensures var p, op := tx.principal.value, s.operations[k];
      p.credentialId == op.credentialId && p.role == op.role && p.subject == op.subject
  {
    hide Inv, Faithful, L.Sweep, L.Act, InForce;
    SweptStep(s, now, tx.origin, k);
    SubjectsActForThemselves(s, now, tx, cut);
  }
}
