/** Rotation, revocation and recovery of a subject's credentials, as functions from one
    committed snapshot to the next. */
module Lifecycle {
  import opened Basics
  import opened Authority

  const QUEUE_SECONDS := 86400.0
  const OVERLAP_SECONDS := 300.0

  function Min(a: real, b: real): real { if a <= b then a else b }

  // ---- The sweep ----

  function Deadline(op: Operation): real {
    Min(op.expiresAt, if op.overlapUntil == 0.0 then op.expiresAt else op.overlapUntil)
  }

  /** A live operation that the sweep ends: too late, or started under another owner
      generation or origin. */
  predicate Due(op: Operation, generation: Id, now: real, origin: Id) {
    && !TerminalOp(op.state) && !op.state.Acknowledged?
    && (Deadline(op) <= now || op.generation != generation || op.origin != origin)
  }

  function Exposed(op: Operation): set<Id> {
    {op.credentialId} + if op.state.Delivered? then op.oldIds else {}
  }

  function SweepOp(op: Operation, generation: Id, now: real, origin: Id): Operation {
    if op.state.Acknowledged? then op.(state := OpState.Completed)
    else if Due(op, generation, now, origin) then op.(state := OpState.Expired)
    else op
  }

  function SweepOps(operations: map<Id, Operation>, generation: Id, now: real, origin: Id): map<Id, Operation> {
    map k | k in operations :: SweepOp(operations[k], generation, now, origin)
  }

  function SweptIds(s: Snapshot, now: real, origin: Id): set<Id> {
    set k, id | k in s.operations && Due(s.operations[k], s.owner.generation, now, origin)
                && id in Exposed(s.operations[k]) :: id
  }

  function LivePointers(recovery: map<Subject, Recovery>, operations: map<Id, Operation>): map<Subject, Recovery> {
    map d | d in recovery && recovery[d].operationId in operations
            && !TerminalOp(operations[recovery[d].operationId].state) :: recovery[d]
  }

  function Sweep(s: Snapshot, now: real, origin: Id): Snapshot {
    var ids := SweptIds(s, now, origin);
    var operations := SweepOps(s.operations, s.owner.generation, now, origin);
    Retire(s, ids).(
      operations := operations,
      recovery := LivePointers(s.recovery, operations),
      requests := InvalidateApprovals(s.requests, ids))
  }

  // ---- Owner control: rotate, revoke, recover ----

  predicate Matches(r: Credential, role: Role, subject: Subject) {
    r.role == role && r.subject == subject
  }

  function MatchingIds(records: seq<Credential>, role: Role, subject: Subject): set<Id> {
    set r | r in records && Matches(r, role, subject) :: r.id
  }

  predicate HasMatching(records: seq<Credential>, role: Role, subject: Subject) {
    exists r :: r in records && Matches(r, role, subject)
  }

  predicate ActiveFor(op: Operation, subject: Subject) {
    op.subject == subject && !TerminalOp(op.state)
  }

  predicate HasActive(operations: map<Id, Operation>, subject: Subject) {
    exists k :: k in operations && ActiveFor(operations[k], subject)
  }

  predicate AnyUnblocked(s: Snapshot, role: Role, subject: Subject) {
    exists r :: r in s.records && Matches(r, role, subject) && r.verifier !in s.blocked
  }

  predicate AnyUsable(s: Snapshot, role: Role, subject: Subject, now: real) {
    exists r :: r in s.records && Matches(r, role, subject) && Usable(s, r, now)
  }

  function RevokeActive(operations: map<Id, Operation>, subject: Subject): map<Id, Operation> {
    map k | k in operations ::
      if ActiveFor(operations[k], subject) then operations[k].(state := OpState.Revoked)
      else operations[k]
  }

  /** Pairing requests for a device that is being revoked or recovered become stale. */
  function AbandonPairing(requests: map<Id, Request>, device: Subject): map<Id, Request> {
    map k | k in requests ::
      if requests[k].device == device && !TerminalRequest(requests[k].state) then Spoil(requests[k], RequestState.Stale)
      else requests[k]
  }

  function NewOperation(s: Snapshot, now: real, origin: Id, action: Action, role: Role, subject: Subject): Operation {
    Operation(
      role, subject, action, if action.Revoke? then OpState.Revoked else Queued,
      now + if action.Recover? then OVERLAP_SECONDS else QUEUE_SECONDS, 0.0, NONE,
      MatchingIds(s.records, role, subject), s.owner.generation, origin)
  }

  function Controlled(s: Snapshot, now: real, origin: Id, action: Action, opId: Id, role: Role,
                      subject: Subject): Snapshot {
    var row := NewOperation(s, now, origin, action, role, subject);
    if action.Rotate? then s.(operations := s.operations[opId := row])
    else
      var ids := MatchingIds(s.records, role, subject);
      Retire(s, ids).(
        operations := RevokeActive(s.operations, subject)[opId := row],
        requests := AbandonPairing(InvalidateApprovals(s.requests, ids), subject),
        recovery := if action.Revoke? then s.recovery - {subject} else s.recovery[subject := Recovery(opId, NONE)])
  }

  /** Past LIMIT operations only a revoke that removes a liability is admitted. */
  predicate RemovesLiability(s: Snapshot, role: Role, subject: Subject) {
    HasActive(s.operations, subject) || AnyUnblocked(s, role, subject)
  }

  function Control(s: Snapshot, now: real, origin: Id, action: Action, opId: Id, role: Role, subject: Subject): Effect {
    if role.OwnerRole? then Effect(s, Refuse(InvalidRequest))
    else if opId in s.operations then
      var existing := s.operations[opId];
      Effect(s, if existing.action == action && existing.role == role && existing.subject == subject then Done
                else Refuse(Conflict))
    else if !HasMatching(s.records, role, subject) then Effect(s, Refuse(NotFound))
    else if |s.operations| >= LIMIT && !(action.Revoke? && RemovesLiability(s, role, subject)) then
      Effect(s, Refuse(OverCapacity))
    else if action.Rotate? && (HasActive(s.operations, subject) || !AnyUsable(s, role, subject, now)) then
      Effect(s, Refuse(Conflict))
    else if action.Recover? && (!role.DeviceRole? || subject !in s.bindings) then
      Effect(s, Refuse(RecoveryUnavailable))
    else Commit(s, Controlled(s, now, origin, action, opId, role, subject))
  }

  // ---- The subject's side: poll, deliver, acknowledge ----

  predicate LiveRotation(op: Operation, p: Principal) {
    op.role == p.role && op.subject == p.subject && op.action.Rotate? && !TerminalOp(op.state)
  }

  /** `found` is what iterating over the operations comes across first. */
  predicate FindsRotation(s: Snapshot, p: Principal, found: Option<Id>) {
    match found
    case Some(k) => k in s.operations && LiveRotation(s.operations[k], p)
    case None => forall k :: k in s.operations ==> !LiveRotation(s.operations[k], p)
  }

  function Poll(s: Snapshot, p: Principal, found: Option<Id>): Effect {
    if p.role.OwnerRole? then Effect(s, Refuse(Forbidden))
    else if found.Some? && found.value in s.operations && s.operations[found.value].state.Queued? then
      var k := found.value;
      Commit(s, s.(operations := s.operations[k := s.operations[k].(state := OpState.Pending)]))
    else Effect(s, Done)
  }

  predicate OwnsOperation(s: Snapshot, p: Principal, k: Id) {
    k in s.operations && s.operations[k].role == p.role && s.operations[k].subject == p.subject
  }

  function Acked(s: Snapshot, k: Id): Snapshot
    requires k in s.operations
  {
    var op := s.operations[k];
    Retire(s, op.oldIds).(
      operations := s.operations[k := op.(state := Acknowledged)],
      requests := InvalidateApprovals(s.requests, op.oldIds))
  }

  function Ack(s: Snapshot, p: Principal, k: Id, saved: bool): Effect {
    if k !in s.operations then Effect(s, Refuse(NotFound))
    else if !OwnsOperation(s, p, k) then Effect(s, Refuse(Forbidden))
    else if !saved || p.credentialId != s.operations[k].credentialId then Effect(s, Refuse(InvalidAck))
    else if s.operations[k].state.Acknowledged? || s.operations[k].state.Completed? then Effect(s, Done)
    else if !s.operations[k].state.Delivered? then Effect(s, Refuse(Unavailable))
    else Commit(s, Acked(s, k))
  }

  function Handover(s: Snapshot, now: real, k: Id, id: Id, verifier: Id): Snapshot
    requires k in s.operations
  {
    var op := s.operations[k];
    s.(records := s.records + [Credential(id, op.role, op.subject, verifier, true)],
       operations := s.operations[k := op.(state := OpState.Delivered, credentialId := id,
                                           overlapUntil := Min(now + OVERLAP_SECONDS, op.expiresAt))])
  }

  function Deliver(s: Snapshot, now: real, p: Principal, k: Id, id: Id, verifier: Id): Effect {
    if k !in s.operations then Effect(s, Refuse(NotFound))
    else if !OwnsOperation(s, p, k) then Effect(s, Refuse(Forbidden))
    else if !s.operations[k].state.Pending? || !s.operations[k].action.Rotate? then Effect(s, Refuse(Unavailable))
    else if |s.records| >= LIMIT then Effect(s, Refuse(OverCapacity))
    else Commit(s, Handover(s, now, k, id, verifier))
  }

  datatype Command =
    | Ordered(action: Action, opId: Id, role: Role, subject: Subject)
    | Polling(found: Option<Id>)
    | Inquiry(opId: Id)
    | Delivery(opId: Id, id: Id, verifier: Id)
    | Receipt(opId: Id, saved: bool)

  /** One request to the lifecycle service, against the swept snapshot. */
  function Act(s: Snapshot, now: real, origin: Id, principal: Option<Principal>, c: Command): Effect {
    if principal.None? then Effect(s, Refuse(Unauthorized))
    else
      var p := principal.value;
      if !IsOwner(s, p) && !Current(s, p, now) then Effect(s, Refuse(Unauthorized))
      else match c
        case Ordered(action, opId, role, subject) =>
          if !IsOwner(s, p) then Effect(s, Refuse(Forbidden))
          else Control(s, now, origin, action, opId, role, subject)
        case Polling(found) => Poll(s, p, found)
        case Inquiry(opId) =>
          Effect(s, if opId !in s.operations then Refuse(NotFound)
                    else if OwnsOperation(s, p, opId) || IsOwner(s, p) then Done else Refuse(Forbidden))
        case Delivery(opId, id, verifier) => Deliver(s, now, p, opId, id, verifier)
        case Receipt(opId, saved) => Ack(s, p, opId, saved)
  }
}
