/** Device pairing: challenge, prove, initiate, approve, redeem. Signatures and code digests
    are inputs (a signature that verifies or not, the digest of the code presented). */
module Enrollment {
  import opened Basics
  import opened Authority
  import opened Lifecycle

  const TTL := 300

  // ---- Status ----

  /** Authority the request depends on has moved: another owner generation or origin, or an
      actor recorded on it is no longer current. */
  predicate Detached(s: Snapshot, row: Request, now: real, origin: Id) {
    || row.generation != s.owner.generation || row.origin != origin
    || (row.initiator.Some? && !ActorCurrent(s, row.initiator.value, now))
    || (row.approver.Some? && !ActorCurrent(s, row.approver.value, now))
  }

  /** The request's effective status is none of the terminal ones, `expired` and `stale`
      included. */
  predicate Live(s: Snapshot, row: Request, now: real, origin: Id) {
    !TerminalRequest(row.state) && now < row.expiresAt && !Detached(s, row, now, origin)
  }

  function MarkIfStale(s: Snapshot, row: Request, now: real, origin: Id): Request {
    if !TerminalRequest(row.state) && now < row.expiresAt && Detached(s, row, now, origin)
    then Spoil(row, RequestState.Stale) else row
  }

  /** Every transaction first makes stale requests durably so. */
  function MarkStale(s: Snapshot, now: real, origin: Id): Snapshot {
    s.(requests := map k | k in s.requests :: MarkIfStale(s, s.requests[k], now, origin))
  }

  // ---- Opening a request ----

  function UnownedError(s: Snapshot, device: Subject, binding: Binding): Option<Error> {
    if |s.records| >= LIMIT then Some(OverCapacity)
    else if device in s.bindings then
      if s.bindings[device] != binding then Some(AlreadyOwned) else None
    else if exists r :: r in s.records && r.subject == device then Some(AlreadyOwned)
    else None
  }

  /** The device id of a key: the id it is bound to, else the id of a pending request with
      that key, else the id derived from the key's digest. `derived` is arbitrary: digest
      prefixes may collide and their configured length may change. */
  predicate ResolvesTo(bindings: map<Subject, Binding>, pool: map<Id, Request>, binding: Binding, derived: Id,
                       device: Subject) {
    if exists d :: d in bindings && bindings[d] == binding then
      forall d :: d in bindings && bindings[d] == binding ==> d == device
    else if exists k :: k in pool && pool[k].binding == binding then
      exists k :: k in pool && pool[k].binding == binding && pool[k].device == device
    else device == Named(derived)
  }

  function Unexpired(requests: map<Id, Request>, now: real): map<Id, Request> {
    map k | k in requests && now.Floor as real < requests[k].expiresAt :: requests[k]
  }

  predicate DeviceBusy(s: Snapshot, requests: map<Id, Request>, device: Subject, now: real, origin: Id) {
    exists k :: k in requests && requests[k].device == device && Live(s, requests[k], now, origin)
  }

  function NewRequest(s: Snapshot, now: real, origin: Id, binding: Binding, device: Subject): Request {
    Request(binding, device, (now.Floor + TTL) as real, s.owner.generation, origin, Challenge, 0, NONE, None, None)
  }

  function Opened(s: Snapshot, now: real, origin: Id, binding: Binding, device: Subject, q: Id): Snapshot {
    var requests := Unexpired(s.requests, now)[q := NewRequest(s, now, origin, binding, device)];
    if device in s.recovery && s.recovery[device].operationId in s.operations then
      var k := s.recovery[device].operationId;
      s.(requests := requests,
         recovery := s.recovery[device := Recovery(k, q)],
         operations := s.operations[k := s.operations[k].(state := OpState.Pending)])
    else s.(requests := requests)
  }

  /** `aliased` says whether the requests consulted for the device id were already pruned:
      they are when marking stale requests replaced the stored ones in the same call. */
  function Open(s: Snapshot, now: real, origin: Id, binding: Binding, derived: Id, device: Subject, aliased: bool,
                q: Id): (e: Effect)
    ensures e.after == s || (e.reply.Done? && e.after == Opened(s, now, origin, binding, device, q))
  {
    hide Admissible;
    if origin == NONE || !s.owner.active then Effect(s, Refuse(Unavailable))
    else if |Unexpired(s.requests, now)| >= MAX_REQUESTS then Effect(s, Refuse(OverCapacity))
    else if !ResolvesTo(s.bindings, if aliased then Unexpired(s.requests, now)
        else s.requests, binding, derived, device) then Effect(s, Refuse(Conflict))
    else if UnownedError(s, device, binding).Some? then Effect(s, Refuse(UnownedError(s, device, binding).value))
    else if DeviceBusy(s, Unexpired(s.requests, now), device, now, origin) then Effect(s, Refuse(Conflict))
    else Commit(s, Opened(s, now, origin, binding, device, q))
  }

  // ---- The ceremony ----

  function With(s: Snapshot, q: Id, row: Request): Snapshot {
    s.(requests := s.requests[q := row])
  }

  /** A bad signature or code costs an attempt, and the fifth one the request. */
  function Charged(row: Request): Request {
    var attempts := if row.attempts >= MAX_ATTEMPTS - 1 then MAX_ATTEMPTS else row.attempts + 1;
    var charged := row.(attempts := attempts);
    if attempts == MAX_ATTEMPTS then Spoil(charged, RequestState.Failed) else charged
  }

  function Failure(s: Snapshot, q: Id, live: bool): (e: Effect)
    requires q in s.requests
    ensures e.reply.Refuse? && (e.after == s || (live && e.after == With(s, q, Charged(s.requests[q]))))
  {
    hide Admissible;
    if live then Effect(Commit(s, With(s, q, Charged(s.requests[q]))).after, Refuse(InvalidProof))
    else Effect(s, Refuse(InvalidProof))
  }

  function ControllerError(s: Snapshot, principal: Option<Principal>, kind: Kind, now: real): Option<Error> {
    if principal.None? then Some(Unauthorized)
    else
      var p := principal.value;
      if p.role.DeviceRole? || !ActorCurrent(s, p, now) || (kind.Browser? && !p.role.OwnerRole?)
      then Some(Forbidden) else None
  }

  function Redeemed(s: Snapshot, q: Id, id: Id, verifier: Id): Snapshot
    requires q in s.requests
  {
    var row := s.requests[q];
    var device := row.device;
    var retired := Retire(s, MatchingIds(s.records, DeviceRole, device));
    retired.(
      records := retired.records + [Credential(id, DeviceRole, device, verifier, true)],
      bindings := s.bindings[device := row.binding],
      requests := s.requests[q := row.(state := Consumed)],
      operations :=
        if device in s.recovery && s.recovery[device].operationId in s.operations then
          var k := s.recovery[device].operationId;
          s.operations[k := s.operations[k].(state := OpState.Delivered, credentialId := id,
                                             overlapUntil := s.operations[k].expiresAt)]
        else s.operations)
  }

  function Redeem(s: Snapshot, q: Id, id: Id, verifier: Id): (e: Effect)
    requires q in s.requests
    ensures e.after == s || (e.reply.Done? && e.after == Redeemed(s, q, id, verifier))
  {
    hide Admissible;
    var row := s.requests[q];
    var owned := UnownedError(s, row.device, row.binding);
    if owned.Some? then Effect(s, Refuse(owned.value))
    else if row.device !in s.bindings && |s.bindings| >= LIMIT then Effect(s, Refuse(OverCapacity))
    else Commit(s, Redeemed(s, q, id, verifier))
  }

  datatype Move =
    | Asking(binding: Binding, derived: Id, device: Subject, aliased: bool, requestId: Id)
    | Proving(q: Id, signed: bool, codeHash: Id)
    | Redeeming(q: Id, signed: bool, id: Id, verifier: Id)
    | Cancelling(q: Id, signed: bool)
    | Checking(q: Id, signed: bool)
    | Initiating(q: Id, presented: Id)
    | Approving(q: Id, presented: Id)
    | Denying(q: Id)

  predicate Signed(m: Move)
    requires !m.Asking?
  {
    m.Initiating? || m.Approving? || m.Denying? || m.signed
  }

  predicate NeedsController(m: Move) { m.Initiating? || m.Approving? || m.Denying? }

  function Endorsed(row: Request, p: Principal, initiating: bool): Request {
    if initiating then row.(initiator := Some(p), state := Initiated)
    else row.(approver := Some(p), state := RequestState.Approved)
  }

  predicate AwaitsEndorsement(row: Request, presented: Id, initiating: bool) {
    (if initiating then row.state.Ready? else row.state.Initiated?) && presented == row.codeHash && presented != NONE
  }

  /** Initiation and approval: the right phase, the right code, a controller with current
      authority, and a device nobody else owns. The pairing policy permits owners and
      integrations alike once the code is verified. */
  function Confirm(s: Snapshot, p: Principal, q: Id, presented: Id, initiating: bool): (e: Effect)
    requires q in s.requests
    ensures || e.after == s || e.after == With(s, q, Charged(s.requests[q]))
            || (AwaitsEndorsement(s.requests[q], presented, initiating)
                && e.after == With(s, q, Endorsed(s.requests[q], p, initiating)))
  {
    hide Admissible;
    var row := s.requests[q];
    if !(if initiating then row.state.Ready? else row.state.Initiated?) then Effect(s, Refuse(Unavailable))
    else if presented == NONE || presented != row.codeHash then Failure(s, q, true)
    else
      var owned := UnownedError(s, row.device, row.binding);
      if owned.Some? then Effect(s, Refuse(owned.value))
      else Commit(s, With(s, q, Endorsed(row, p, initiating)))
  }

  function Proceed(s: Snapshot, principal: Option<Principal>, m: Move): (e: Effect)
    requires !m.Asking? && m.q in s.requests
    requires NeedsController(m) ==> principal.Some?
    ensures e.after == s.(requests := e.after.requests)
            || (m.Redeeming? && e.after == Redeemed(s, m.q, m.id, m.verifier))
    ensures m.Checking? ==> e.after == s
  {
    hide Admissible, Redeemed, UnownedError;
    var row := s.requests[m.q];
    match m
    case Proving(q, _, codeHash) =>
      if row.state.Challenge? then Commit(s, With(s, q, row.(state := Ready, codeHash := codeHash)))
      else Effect(s, Refuse(Unavailable))
    case Initiating(q, presented) => Confirm(s, principal.value, q, presented, true)
    case Approving(q, presented) => Confirm(s, principal.value, q, presented, false)
    case Redeeming(q, _, id, verifier) =>
      if row.state.Approved? then Redeem(s, q, id, verifier) else Effect(s, Refuse(Unavailable))
    case Cancelling(q, _) => Commit(s, With(s, q, Spoil(row, RequestState.Cancelled)))
    case Denying(q) => Commit(s, With(s, q, Spoil(row, RequestState.Denied)))
    case Checking(_, _) => Effect(s, Done)
  }

  /** One request to the pairing service, against the swept and stale-marked snapshot. */
  function Pair(s: Snapshot, now: real, origin: Id, principal: Option<Principal>, m: Move): Effect {
    if m.Asking? then
      var refused := if m.binding.kind.Browser? then ControllerError(s, principal, Browser, now) else None;
      if refused.Some? then Effect(s, Refuse(refused.value))
      else Open(s, now, origin, m.binding, m.derived, m.device, m.aliased, m.requestId)
    else if m.q !in s.requests then Effect(s, Refuse(NotFound))
    else
      var row := s.requests[m.q];
      var refused := if NeedsController(m) then ControllerError(s, principal, row.binding.kind, now) else None;
      var live := Live(s, row, now, origin);
      if refused.Some? then Effect(s, Refuse(refused.value))
      else if !live && !m.Checking? then Effect(s, Refuse(Unavailable))
      else if !Signed(m) then Failure(s, m.q, live)
      else Proceed(s, principal, m)
  }
}
