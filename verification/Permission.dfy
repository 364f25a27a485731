/** Who may do what. Whatever a call leaves on disk beyond the upkeep that every call does
    first traces to a principal with the authority for it, which is read off the fields of the
    snapshot. */
module Permission {
  import opened Basics
  import opened Authority
  import opened Transitions
  import opened Upkeep
  import opened Runs
  import L = Lifecycle
  import E = Enrollment
  import I = Integration
  import LT = Latch

  // ----- Authority -----

  /** The one owner, under the generation in force. */
  ghost predicate OwnerSpeaks(owner: Owner, principal: Option<Principal>) {
    principal.Some? && var p := principal.value;
      p.role == OwnerRole && p.subject == OWNER_NAME && owner.active && p.credentialId == owner.generation
  }

  /** The principal's credential is in the list, is its own, and is usable. */
  ghost predicate InForce(s: Snapshot, p: Principal, now: real) {
    exists r :: r in s.records && r.id == p.credentialId && r.role == p.role && r.subject == p.subject
                && r.verifier == p.generation && Usable(s, r, now)
  }

  /** The owner under the generation in force, or the bearer of a usable credential. */
  ghost predicate Holds(s: Snapshot, p: Principal, now: real) {
    && (p.role == OwnerRole ==> s.owner.active && p.credentialId == s.owner.generation)
    && (p.role != OwnerRole ==> InForce(s, p, now))
  }

  /** Who may open, initiate, approve or deny a pairing: never a device; for a browser only
      the owner; and whoever it is holds that authority now. */
  ghost predicate ControllerSpeaks(s: Snapshot, principal: Option<Principal>, kind: Kind, now: real) {
    principal.Some? && var p := principal.value;
      && p.role != DeviceRole
      && (kind == Browser ==> p.role == OwnerRole)
      && Holds(s, p, now)
  }

  /** What a transaction leaves before its own commit: every call first sweeps, and pairing and
      enrollment calls then mark stale requests. */
  function UpkeepCommits(tx: Tx): nat {
    match tx
    case LifecycleTx(_, _, _) => 1
    case EnrollmentTx(_, _, _) => 2
    case IntegrationTx(_, _, _) => 2
    case HousekeepingTx(_) => 1
    case OwnerTx(_) => 0
  }

  ghost predicate OnlyUpkeep(s: Snapshot, t: Snapshot, now: real, tx: Tx) {
    exists cut: nat :: cut <= UpkeepCommits(tx) && t == After(s, now, tx, cut)
  }

  lemma UpToUpkeep(s: Snapshot, now: real, tx: Tx, cut: nat)
    requires cut <= UpkeepCommits(tx)
    ensures OnlyUpkeep(s, After(s, now, tx, cut), now, tx)
  {
    hide After;
  }

  // ----- Rotation, revocation and recovery -----

  /** Orders come from the owner: whoever else gives one is refused, and nothing but the sweep
      is done. */
  lemma OrdersNeedTheOwner(s: Snapshot, now: real, tx: Tx, cut: nat)
    requires tx.LifecycleTx? && tx.command.Ordered?
    requires ReplyTo(s, now, tx).Done? || !OnlyUpkeep(s, After(s, now, tx, cut), now, tx)
    ensures OwnerSpeaks(After(s, now, tx, 1).owner, tx.principal)
  {
    hide L.Sweep, L.Control, OnlyUpkeep, Current;
    if cut <= 1 { UpToUpkeep(s, now, tx, cut); } else { UpToUpkeep(s, now, tx, 1); }
  }

  /** The operation that a subject's call is about. */
  function Concerns(c: L.Command): Option<Id> {
    match c
    case Polling(found) => found
    case Delivery(k, _, _) => Some(k)
    case Receipt(k, _) => Some(k)
    case _ => None
  }

  /** Polls, deliveries and acknowledgements come from the subject itself: a change beyond the
      sweep, and any answer about an operation other than a refusal, needs a principal with a
      usable credential whose role and subject are the operation's. */
  lemma SubjectsActForThemselves(s: Snapshot, now: real, tx: Tx, cut: nat)
    requires Inv(s) && Faithful(s, now, tx)
    requires tx.LifecycleTx? && !tx.command.Ordered? && !tx.command.Inquiry?
    requires !OnlyUpkeep(s, After(s, now, tx, cut), now, tx)
             || (ReplyTo(s, now, tx).Done? && Concerns(tx.command).Some?)
    ensures tx.principal.Some? && Concerns(tx.command).Some?
    ensures var swept, p, k := After(s, now, tx, 1), tx.principal.value, Concerns(tx.command).value;
      && InForce(swept, p, now)
      && k in swept.operations && swept.operations[k].role == p.role && swept.operations[k].subject == p.subject
      && (tx.command.Receipt? ==> tx.command.saved && p.credentialId == swept.operations[k].credentialId)
  {
    hide Inv, Schema, L.Sweep, L.Handover, L.Acked, Admissible, OnlyUpkeep, Usable;
    if cut <= 1 { UpToUpkeep(s, now, tx, cut); } else { UpToUpkeep(s, now, tx, 1); }
    SweptOperations(s, now, tx.origin);
  }

  lemma SweptOperations(s: Snapshot, now: real, origin: Id)
    requires Inv(s)
    ensures var t := L.Sweep(s, now, origin); forall k :: k in t.operations ==> !t.operations[k].role.OwnerRole?
  {
    hide L.Sweep;
    SweepAdmissible(s, now, origin);
    assert LifecycleValid(L.Sweep(s, now, origin));
  }

  /** A question about an operation changes nothing, and only its subject or the owner gets
      an answer. */
  lemma InquiriesOnlyAnswer(s: Snapshot, now: real, tx: Tx, cut: nat)
    requires tx.LifecycleTx? && tx.command.Inquiry?
    ensures OnlyUpkeep(s, After(s, now, tx, cut), now, tx)
    ensures ReplyTo(s, now, tx).Done? ==>
      var swept, k := After(s, now, tx, 1), tx.command.opId;
      && k in swept.operations && tx.principal.Some?
      && (OwnerSpeaks(swept.owner, tx.principal)
          || (InForce(swept, tx.principal.value, now) && swept.operations[k].role == tx.principal.value.role
              && swept.operations[k].subject == tx.principal.value.subject))
  {
    hide L.Sweep, OnlyUpkeep, Usable;
    if cut <= 1 { UpToUpkeep(s, now, tx, cut); } else { UpToUpkeep(s, now, tx, 1); }
  }

  // ----- Pairing -----

  /** The calls that only a controller may make. */
  predicate Controls(m: E.Move) {
    match m
    case Asking(binding, _, _, _, _) => binding.kind.Browser?
    case Initiating(_, _) => true
    case Approving(_, _) => true
    case Denying(_) => true
    case _ => false
  }

  /** Opening a browser pairing and initiating, approving or denying any come from a controller
      of that kind: nobody else gets further than the upkeep, or learns whether a code is right. */
  lemma PairingNeedsAController(s: Snapshot, now: real, tx: Tx, cut: nat)
    requires tx.EnrollmentTx? && Controls(tx.move)
    requires || ReplyTo(s, now, tx).Done? || ReplyTo(s, now, tx) == Refuse(InvalidProof)
             || !OnlyUpkeep(s, After(s, now, tx, cut), now, tx)
    ensures var marked, m := After(s, now, tx, 2), tx.move;
      && (!m.Asking? ==> m.q in marked.requests)
      && ControllerSpeaks(marked, tx.principal, if m.Asking? then Browser else marked.requests[m.q].binding.kind, now)
  {
    hide L.Sweep, E.MarkStale, E.Open, E.Live, E.Proceed, OnlyUpkeep, Usable;
    if cut <= 2 { UpToUpkeep(s, now, tx, cut); } else { UpToUpkeep(s, now, tx, 2); }
  }

  /** The same authority, read off the snapshot that the call leaves. */
  lemma StillAController(s: Snapshot, now: real, tx: Tx, cut: nat, kind: Kind)
    requires tx.EnrollmentTx? && Controls(tx.move) && 2 <= cut
    requires tx.move.Asking? ==> kind.Browser?
    requires ControllerSpeaks(After(s, now, tx, 2), tx.principal, kind, now)
    ensures ControllerSpeaks(After(s, now, tx, cut), tx.principal, kind, now)
  {
    hide L.Sweep, E.MarkStale, E.Pair, E.Unexpired, Usable;
    var marked := After(s, now, tx, 2);
    LT.PairShape(marked, now, tx.origin, tx.principal, tx.move);
    var t := After(s, now, tx, cut);
    if t == marked.(requests := t.requests) && tx.principal.value.role == IntegrationRole {
      RequestsApart(marked, t.requests, tx.principal.value, now);
    }
  }

  lemma RequestsApart(s: Snapshot, requests: map<Id, Request>, p: Principal, now: real)
    requires InForce(s, p, now)
    ensures InForce(s.(requests := requests), p, now)
  {
    var r :| r in s.records && r.id == p.credentialId && r.role == p.role && r.subject == p.subject
             && r.verifier == p.generation && Usable(s, r, now);
    assert Usable(s.(requests := requests), r, now);
  }

  // ----- Integration enrollment -----

  /** Approving and denying come from the owner; nobody else gets further than the upkeep, or
      learns whether a code is right. */
  lemma IntegrationNeedsTheOwner(s: Snapshot, now: real, tx: Tx, cut: nat)
    requires tx.IntegrationTx? && (tx.call.Approving? || tx.call.Denying?)
    requires || ReplyTo(s, now, tx).Done? || ReplyTo(s, now, tx) == Refuse(InvalidCode)
             || !OnlyUpkeep(s, After(s, now, tx, cut), now, tx)
    ensures OwnerSpeaks(After(s, now, tx, cut).owner, tx.principal)
  {
    hide I.SweepGrants, E.MarkStale, I.Approval, I.Ended, OnlyUpkeep;
    if cut <= 2 { UpToUpkeep(s, now, tx, cut); } else { UpToUpkeep(s, now, tx, 1); }
    SameOwner(s, now, tx, cut);
  }

  lemma SameOwner(s: Snapshot, now: real, tx: Tx, cut: nat)
    requires tx.IntegrationTx?
    ensures After(s, now, tx, cut).owner == s.owner == I.SweepGrants(s, now, tx.origin).owner
  {
    hide I.Serve, LT.GrantsMove, Admissible, I.Presents;
    LT.ServeShape(I.SweepGrants(s, now, tx.origin), now, tx.origin, tx.principal, tx.call);
  }

  /** Everything else about an existing request takes the secret it was opened with, and opening
      one takes an active owner, this server's origin and a deadline at most five minutes off. */
  lemma ApplicantsKnowTheSecret(s: Snapshot, now: real, tx: Tx, cut: nat)
    requires tx.IntegrationTx? && !tx.call.Approving? && !tx.call.Denying?
    requires ReplyTo(s, now, tx).Done? || !OnlyUpkeep(s, After(s, now, tx, cut), now, tx)
    ensures var swept, c := After(s, now, tx, 1), tx.call;
      && (c.k in swept.grants ==> c.secret == swept.grants[c.k].secretHash)
      && (c.Applying? ==> c.origin == tx.origin)
      && (c.k !in swept.grants ==>
            c.Applying? && swept.owner.active && now < c.expiresAt <= now + 300.0)
  {
    hide I.SweepGrants, E.MarkStale, OnlyUpkeep, I.Ended, I.Confirmed, I.Issue;
    if cut <= 2 { UpToUpkeep(s, now, tx, cut); } else { UpToUpkeep(s, now, tx, 1); UpToUpkeep(s, now, tx, 2); }
  }
}
