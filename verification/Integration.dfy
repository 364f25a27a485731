/** Integration enrollment: an owner-approved request whose credential is delivered disabled
    and becomes usable only with the acknowledgement that it was saved. */
module Integration {
  import opened Basics
  import opened Authority
  import opened Enrollment

  const GRANT_TTL := 300.0
  const MAX_UNISSUED := 64

  // ---- The sweep ----

  predicate AllBlocked(s: Snapshot, k: Id) {
    && (exists r :: r in s.records && r.subject == Agent(k))
    && (forall r :: r in s.records && r.subject == Agent(k) ==> r.verifier in s.blocked)
  }

  predicate IssuedBlocked(s: Snapshot, g: Grant) {
    exists r :: r in s.records && r.id == g.credentialId && r.verifier in s.blocked
  }

  function SweepGrant(s: Snapshot, k: Id, g: Grant, now: real, origin: Id): (h: Grant)
    ensures h == g.(state := h.state)
    ensures h.state == g.state || h.state.Revoked? || h.state.Expired? || h.state.Stale?
  {
    if g.state.Completed? then
      if AllBlocked(s, k) then g.(state := GrantState.Revoked) else g
    else if TerminalGrant(g.state) then g
    else if IssuedBlocked(s, g) then g.(state := GrantState.Revoked)
    else if g.expiresAt <= now then g.(state := GrantState.Expired)
    else if g.generation != s.owner.generation || g.origin != origin then g.(state := GrantState.Stale)
    else g
  }

  /** Credentials of grants that the sweep ends before they were completed. */
  function LapsedIds(s: Snapshot, now: real, origin: Id): set<Id> {
    set k | k in s.grants && !TerminalGrant(s.grants[k].state)
            && SweepGrant(s, k, s.grants[k], now, origin) != s.grants[k] :: s.grants[k].credentialId
  }

  function SweepGrants(s: Snapshot, now: real, origin: Id): Snapshot {
    Retire(s, LapsedIds(s, now, origin)).(
      grants := map k | k in s.grants :: SweepGrant(s, k, s.grants[k], now, origin))
  }

  // ---- Requests ----

  function Retained(grants: map<Id, Grant>, now: real): map<Id, Grant> {
    map k | k in grants && (grants[k].credentialId != NONE || now < grants[k].expiresAt) :: grants[k]
  }

  function Unissued(grants: map<Id, Grant>): set<Id> {
    set k | k in grants && grants[k].credentialId == NONE
  }

  function WithGrant(s: Snapshot, k: Id, g: Grant): Snapshot {
    s.(grants := s.grants[k := g])
  }

  function Apply(s: Snapshot, now: real, origin: Id, k: Id, secret: Id, code: Id, name: Id, expiresAt: real): Effect {
    var kept := Retained(s.grants, now);
    if !(now < expiresAt <= now + GRANT_TTL) then Effect(s, Refuse(Unavailable))
    else if |Unissued(kept)| >= MAX_UNISSUED then Effect(s, Refuse(OverCapacity))
    else if !s.owner.active then Effect(s, Refuse(Unavailable))
    else if |kept| >= LIMIT then Effect(s, Refuse(OverCapacity))
    else
      var g := Grant(expiresAt, s.owner.generation, origin, name, GrantState.Pending, 0, secret, code, NONE);
      var marked := MarkStale(s, now, origin);  // committed on its own before the request is
      Commit(marked, marked.(grants := kept[k := g]))
  }

  function EnableIf(r: Credential, id: Id): Credential {
    if r.id == id then r.(enabled := true) else r
  }

  function Enable(records: seq<Credential>, id: Id): (out: seq<Credential>)
    ensures |out| == |records|
    ensures forall i :: 0 <= i < |records| ==> out[i] == EnableIf(records[i], id)
  {
    seq(|records|, i requires 0 <= i < |records| => EnableIf(records[i], id))
  }

  /** The completed proof and the enabled credential are committed together. */
  function Activated(s: Snapshot, k: Id): Snapshot
    requires k in s.grants
  {
    WithGrant(s, k, s.grants[k].(state := GrantState.Completed)).(records := Enable(s.records,
        s.grants[k].credentialId))
  }

  predicate Presents(s: Snapshot, g: Grant, verifier: Id) {
    exists r :: r in s.records && r.id == g.credentialId && r.verifier == verifier && r.verifier !in s.blocked
  }

  function Confirmed(s: Snapshot, k: Id, verifier: Id, saved: bool): Effect
    requires k in s.grants
  {
    var g := s.grants[k];
    if !saved || !Presents(s, g, verifier) then Effect(s, Refuse(InvalidAck))
    else if g.state.Completed? then Effect(s, Done)
    else if !g.state.Delivered? then Effect(s, Refuse(Unavailable))
    else Commit(s, Activated(s, k))
  }

  function Approval(s: Snapshot, k: Id, presented: Id): Effect
    requires k in s.grants
  {
    var g := s.grants[k];
    if !(g.state.Pending? || g.state.Approved?) then Effect(s, Refuse(Unavailable))
    else if presented != g.codeHash then
      var tried := g.(attempts := g.attempts + 1);
      Effect(Commit(s, WithGrant(s, k, if tried.attempts >= MAX_ATTEMPTS then tried.(state := GrantState.Failed)
          else tried)).after,
             Refuse(InvalidCode))
    else Commit(s, WithGrant(s, k, g.(state := GrantState.Approved)))
  }

  function Ended(s: Snapshot, k: Id, target: GrantState): Effect
    requires k in s.grants
  {
    var g := s.grants[k];
    if g.state == target then Effect(s, Done)
    else if TerminalGrant(g.state) then Effect(s, Refuse(Unavailable))
    else Commit(s, WithGrant(Retire(s, {g.credentialId}), k, g.(state := target)))
  }

  function Issued(s: Snapshot, k: Id, id: Id, verifier: Id): Snapshot
    requires k in s.grants
  {
    WithGrant(s, k, s.grants[k].(state := GrantState.Delivered, credentialId := id)).(
      records := s.records + [Credential(id, IntegrationRole, Agent(k), verifier, false)])
  }

  function Issue(s: Snapshot, k: Id, id: Id, verifier: Id): Effect
    requires k in s.grants
  {
    if !s.grants[k].state.Approved? then Effect(s, Refuse(Unavailable))
    else Commit(s, Issued(s, k, id, verifier))
  }

  datatype Call =
    | Applying(k: Id, secret: Id, origin: Id, name: Id, code: Id, expiresAt: real)
    | Querying(k: Id, secret: Id)
    | Collecting(k: Id, secret: Id, id: Id, verifier: Id)
    | Withdrawing(k: Id, secret: Id)
    | Saving(k: Id, secret: Id, verifier: Id, saved: bool)
    | Approving(k: Id, presented: Id)
    | Denying(k: Id)

  predicate ByOwner(c: Call) { c.Approving? || c.Denying? }

  /** One request to the integration service, against the swept snapshot. */
  function Serve(s: Snapshot, now: real, origin: Id, principal: Option<Principal>, c: Call): Effect {
    if ByOwner(c) && principal.None? then Effect(s, Refuse(Unauthorized))
    else if ByOwner(c) && !IsOwner(s, principal.value) then Effect(s, Refuse(Forbidden))
    else if c.Applying? && c.origin != origin then Effect(s, Refuse(InvalidRequest))
    else if c.Applying? && c.k !in s.grants then
      Apply(s, now, origin, c.k, c.secret, c.code, c.name, c.expiresAt)
    else if c.k !in s.grants then Effect(s, Refuse(NotFound))
    else if !ByOwner(c) && c.secret != s.grants[c.k].secretHash then Effect(s, Refuse(Unauthorized))
    else
      var g := s.grants[c.k];
      match c
      case Applying(k, _, _, name, _, expiresAt) =>
        Effect(s, if g.name == name && g.origin == origin && g.expiresAt == expiresAt then Done else Refuse(Conflict))
      case Querying(_, _) => Effect(s, Done)
      case Saving(k, _, verifier, saved) => Confirmed(s, k, verifier, saved)
      case Approving(k, presented) => Approval(s, k, presented)
      case Denying(k) => Ended(s, k, GrantState.Denied)
      case Withdrawing(k, _) => Ended(s, k, GrantState.Cancelled)
      case Collecting(k, _, id, verifier) => Issue(s, k, id, verifier)
  }
}
