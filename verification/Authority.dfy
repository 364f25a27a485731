/** The credential snapshot shared by the four services (authz.json), and the questions
    that are asked of it: which credentials are usable, who is current, and whether the
    snapshot satisfies the schema that every durable write is checked against.

    Identifiers, verifiers, origins and generations are strings that the program only
    compares for equality, so they are integers here; `NONE` stands for the empty string.
    A credential generation is an injective digest of the verifier, so the verifier itself
    stands for it. Timestamps are reals. */
module Authority {
  import opened Basics

  type Id = int
  const NONE: Id := 0

  const LIMIT := 1024
  const OPERATION_LIMIT := 3 * LIMIT
  const TOMBSTONE_LIMIT := 65536
  const MAX_REQUESTS := 64
  const MAX_ATTEMPTS := 5

  datatype Role = OwnerRole | IntegrationRole | DeviceRole

  /** A principal's name. Integration agents are named `int_` plus their request id. */
  datatype Subject = Named(name: Id) | Agent(request: Id)

  datatype Credential = Credential(id: Id, role: Role, subject: Subject, verifier: Id, enabled: bool)

  datatype Principal = Principal(role: Role, subject: Subject, credentialId: Id, generation: Id)

  datatype Owner = Owner(active: bool, generation: Id)

  datatype Action = Rotate | Revoke | Recover
  datatype OpState = Queued | Pending | Delivered | Acknowledged | Completed | Expired | Revoked

  datatype Operation = Operation(
    role: Role, subject: Subject, action: Action, state: OpState,
    expiresAt: real, overlapUntil: real, credentialId: Id, oldIds: set<Id>,
    generation: Id, origin: Id)

  datatype Kind = Physical | Browser
  datatype Binding = Binding(publicKey: Id, kind: Kind)
  datatype Recovery = Recovery(operationId: Id, requestId: Id)

  datatype RequestState =
    | Challenge | Ready | Initiated | Approved
    | Consumed | Denied | Cancelled | Failed | Stale

  datatype Request = Request(
    binding: Binding, device: Subject, expiresAt: real, generation: Id, origin: Id,
    state: RequestState, attempts: nat, codeHash: Id,
    initiator: Option<Principal>, approver: Option<Principal>)

  datatype GrantState =
    | Pending | Approved | Delivered | Completed
    | Denied | Cancelled | Failed | Expired | Stale | Revoked

  /** One integration enrollment request, kept under its request id. */
  datatype Grant = Grant(
    expiresAt: real, generation: Id, origin: Id, name: Id, state: GrantState,
    attempts: nat, secretHash: Id, codeHash: Id, credentialId: Id)

  datatype Snapshot = Snapshot(
    records: seq<Credential>, owner: Owner,
    requests: map<Id, Request>,
    operations: map<Id, Operation>, blocked: set<Id>,
    bindings: map<Subject, Binding>, recovery: map<Subject, Recovery>,
    grants: map<Id, Grant>)

  const EMPTY := Snapshot([], Owner(false, NONE), map[], map[], {}, map[], map[], map[])

  const OWNER_NAME := Named(1)

  datatype Error =
    | InvalidRequest | Unauthorized | Forbidden | NotFound | Conflict | OverCapacity
    | RecoveryUnavailable | InvalidAck | Unavailable | InvalidProof | InvalidCode
    | AlreadyOwned | Corrupt | Interrupted

  datatype Reply = Done | Refuse(error: Error)

  /** What a transaction leaves on disk, and what it answers. */
  datatype Effect = Effect(after: Snapshot, reply: Reply)

  // ---- Operations, requests and grants that can still move ----

  predicate TerminalOp(state: OpState) {
    state.Completed? || state.Expired? || state.Revoked?
  }

  predicate TerminalRequest(state: RequestState) {
    state.Consumed? || state.Denied? || state.Cancelled? || state.Failed? || state.Stale?
  }

  predicate TerminalGrant(state: GrantState) {
    !(state.Pending? || state.Approved? || state.Delivered?)
  }

  // ---- Usability ----

  /** A delivered operation past its overlap deadline withdraws the ids it replaces; a
      rotation or recovery withdraws the id it issued once it expired, was revoked, or was
      delivered and never acknowledged in time. */
  predicate Withdraws(op: Operation, id: Id, now: real) {
    || (op.state.Delivered? && op.overlapUntil <= now && id in op.oldIds)
    || (op.credentialId == id && !op.action.Revoke? &&
        (op.state.Expired? || op.state.Revoked? || (op.state.Delivered? && op.overlapUntil <= now)))
  }

  predicate Withheld(grants: map<Id, Grant>, id: Id) {
    exists k :: k in grants && grants[k].credentialId == id && !grants[k].state.Completed?
  }

  predicate Withdrawn(operations: map<Id, Operation>, id: Id, now: real) {
    exists k :: k in operations && Withdraws(operations[k], id, now)
  }

  predicate Usable(s: Snapshot, r: Credential, now: real) {
    && r.enabled
    && r.verifier !in s.blocked
    && !Withheld(s.grants, r.id)
    && !Withdrawn(s.operations, r.id, now)
  }

  predicate UsableId(s: Snapshot, id: Id, now: real) {
    exists r :: r in s.records && r.id == id && Usable(s, r, now)
  }

  predicate Current(s: Snapshot, p: Principal, now: real) {
    exists r ::
      && r in s.records && r.id == p.credentialId && r.role == p.role && r.subject == p.subject
      && r.verifier == p.generation && Usable(s, r, now)
  }

  predicate IsOwner(s: Snapshot, p: Principal) {
    p.role.OwnerRole? && p.subject == OWNER_NAME && p.credentialId == s.owner.generation && s.owner.active
  }

  /** An actor recorded on a pairing request still holds the authority it used. */
  predicate ActorCurrent(s: Snapshot, p: Principal, now: real) {
    if p.role.OwnerRole? then s.owner.active && p.credentialId == s.owner.generation
    else Current(s, p, now)
  }

  // ---- Schema and capacity, checked by every load and every durable write ----

  function Digests(records: seq<Credential>): set<Id> {
    set r | r in records :: r.verifier
  }

  function Unfinished(operations: map<Id, Operation>): set<Id> {
    set k | k in operations && !TerminalOp(operations[k].state)
  }

  /** One tombstone is reserved per admitted verifier and one operation per liability. */
  predicate HasCapacity(s: Snapshot) {
    && |s.records| <= LIMIT
    && |s.blocked + Digests(s.records)| <= TOMBSTONE_LIMIT
    && |s.operations| + |Digests(s.records) - s.blocked| + |Unfinished(s.operations)| <= OPERATION_LIMIT
  }

  predicate RecordsValid(records: seq<Credential>) {
    && (forall r :: r in records ==> r.id != NONE)
    && (forall i, j :: 0 <= i < j < |records| ==>
          records[i].id != records[j].id && records[i].verifier != records[j].verifier)
    && (forall r, q :: r in records && q in records && r.subject == q.subject ==> r.role == q.role)
    && (forall r, q :: r in records && q in records && r.role.OwnerRole? && q.role.OwnerRole? ==>
        r.subject == q.subject)
  }

  predicate OperationValid(op: Operation) {
    && 0.0 <= op.overlapUntil <= op.expiresAt
    && !op.role.OwnerRole?
    && (op.state.Delivered? || op.state.Acknowledged? || op.state.Completed? ==> op.credentialId != NONE)
    && (op.action.Revoke? ==> op.state.Revoked?)
  }

  predicate RecoveryValid(operations: map<Id, Operation>, bindings: map<Subject, Binding>, recovery: map<Subject,
                          Recovery>) {
    forall d :: d in recovery ==>
      && d in bindings
      && recovery[d].operationId in operations
      && operations[recovery[d].operationId].subject == d
      && operations[recovery[d].operationId].role.DeviceRole?
      && operations[recovery[d].operationId].action.Recover?
  }

  predicate LifecycleValid(s: Snapshot) {
    && |s.blocked| <= TOMBSTONE_LIMIT
    && |s.operations| <= OPERATION_LIMIT && |s.bindings| <= LIMIT && |s.recovery| <= LIMIT
    && (forall k :: k in s.operations ==> OperationValid(s.operations[k]))
    && RecoveryValid(s.operations, s.bindings, s.recovery)
  }

  predicate RequestValid(row: Request) {
    && row.attempts <= MAX_ATTEMPTS
    && (!row.state.Challenge? ==> row.codeHash != NONE)
    && (row.state.Initiated? || row.state.Approved? || row.state.Consumed? ==> row.initiator.Some?)
    && (row.state.Approved? || row.state.Consumed? ==> row.approver.Some?)
  }

  predicate EnrollmentValid(requests: map<Id, Request>) {
    |requests| <= MAX_REQUESTS && forall k :: k in requests ==> RequestValid(requests[k])
  }

  predicate GrantsValid(grants: map<Id, Grant>) {
    && |grants| <= LIMIT
    && (forall k :: k in grants ==>
          && grants[k].attempts <= MAX_ATTEMPTS
          && (grants[k].state.Delivered? || grants[k].state.Completed? ==> grants[k].credentialId != NONE))
  }

  predicate GrantsBound(grants: map<Id, Grant>, records: seq<Credential>) {
    forall k :: k in grants && grants[k].credentialId != NONE ==>
      exists r :: r in records && r.id == grants[k].credentialId && r.role.IntegrationRole? && r.subject == Agent(k)
  }

  predicate WellFormed(s: Snapshot) {
    && RecordsValid(s.records)
    && EnrollmentValid(s.requests)
    && LifecycleValid(s)
    && GrantsValid(s.grants)
    && GrantsBound(s.grants, s.records)
  }

  predicate Schema(s: Snapshot) {
    WellFormed(s) && HasCapacity(s)
  }

  predicate IdsImmutable(before: seq<Credential>, after: seq<Credential>) {
    forall r, q :: r in before && q in after && r.id == q.id ==>
      r.role == q.role && r.subject == q.subject && r.verifier == q.verifier
  }

  predicate Admissible(before: Snapshot, after: Snapshot) {
    IdsImmutable(before.records, after.records) && Schema(after)
  }

  /** The durable schema boundary: an inadmissible snapshot is refused and the one on disk
      is kept. */
  function Commit(before: Snapshot, after: Snapshot): (e: Effect)
    ensures e.reply == Done <==> Admissible(before, after)
    ensures e.reply == Done ==> e.after == after
    ensures e.reply != Done ==> e.after == before
  {
    if Admissible(before, after) then Effect(after, Done)
    else if IdsImmutable(before.records, after.records) && WellFormed(after) then Effect(before, Refuse(OverCapacity))
    else Effect(before, Refuse(Corrupt))
  }

  // ---- Retirement ----

  function VerifiersOf(records: seq<Credential>, ids: set<Id>): set<Id> {
    set r | r in records && r.id in ids :: r.verifier
  }

  function DisabledIf(r: Credential, ids: set<Id>): Credential {
    if r.id in ids then r.(enabled := false) else r
  }

  function Disable(records: seq<Credential>, ids: set<Id>): (out: seq<Credential>)
    ensures |out| == |records|
    ensures forall i :: 0 <= i < |records| ==> out[i] == DisabledIf(records[i], ids)
  {
    seq(|records|, i requires 0 <= i < |records| => DisabledIf(records[i], ids))
  }

  /** Tombstone and disable: the only way a credential is ever withdrawn for good. */
  function Retire(s: Snapshot, ids: set<Id>): Snapshot {
    s.(blocked := s.blocked + VerifiersOf(s.records, ids), records := Disable(s.records, ids))
  }

  const SENTINEL: Id := -1

  function Spoil(row: Request, state: RequestState): Request {
    row.(state := state, codeHash := if row.codeHash == NONE then SENTINEL else row.codeHash)
  }

  predicate Names(actor: Option<Principal>, ids: set<Id>) {
    actor.Some? && actor.value.credentialId in ids
  }

  /** Pairing requests that a withdrawn credential started or approved become stale. */
  function Disavow(row: Request, ids: set<Id>): Request {
    if !TerminalRequest(row.state) && (Names(row.initiator, ids)
        || Names(row.approver, ids)) then Spoil(row, RequestState.Stale)
    else row
  }

  function InvalidateApprovals(requests: map<Id, Request>, ids: set<Id>): map<Id, Request> {
    map k | k in requests :: Disavow(requests[k], ids)
  }
}
