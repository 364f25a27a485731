/** What a call that is answered as done has done, once all its writes have: the row is in the
    state that was asked for, the credential that was to be issued is there, and what was to be
    withdrawn is tombstoned. */
module Effects {
  import opened Basics
  import opened Authority
  import opened Transitions
  import opened Permission
  import L = Lifecycle
  import E = Enrollment
  import I = Integration

  /** Every credential of the subject is tombstoned and disabled, apart from those added since. */
  ghost predicate Silent(s: Snapshot, t: Snapshot, role: Role, subject: Subject) {
    |s.records| <= |t.records| && forall i :: 0 <= i < |s.records| && L.Matches(s.records[i], role, subject) ==>
      t.records[i].verifier in t.blocked && !t.records[i].enabled && t.records[i].verifier == s.records[i].verifier
  }

  /** A credential was added at the end, and nothing else of it is new. */
  ghost predicate Added(s: Snapshot, t: Snapshot, c: Credential) {
    |t.records| == |s.records| + 1 && t.records[|s.records|] == c
  }

  // ----- Pairing -----

  ghost predicate PairEffect(s: Snapshot, t: Snapshot, tx: Tx)
    requires tx.EnrollmentTx?
  {
    match tx.move
    case Asking(binding, _, device, _, q) =>
      q in t.requests && t.requests[q].state.Challenge? && t.requests[q].binding == binding
      && t.requests[q].device == device
    case Proving(q, _, codeHash) => q in t.requests && t.requests[q].state.Ready? && t.requests[q].codeHash == codeHash
    case Initiating(q, _) =>
      q in t.requests && t.requests[q].state.Initiated? && t.requests[q].initiator == tx.principal
    case Approving(q, _) =>
      q in t.requests && t.requests[q].state.Approved? && t.requests[q].approver == tx.principal
    case Denying(q) => q in t.requests && t.requests[q].state.Denied?
    case Cancelling(q, _) => q in t.requests && t.requests[q].state.Cancelled?
    case Checking(_, _) => t == s
    case Redeeming(q, _, id, verifier) =>
      q in s.requests && q in t.requests && t.requests[q].state.Consumed?
      && RedeemEffect(s, t, s.requests[q], id, verifier)
  }

  /** The device has the new credential and no other, its id is bound to the key, and its open
      recovery is delivered. */
  ghost predicate RedeemEffect(s: Snapshot, t: Snapshot, row: Request, id: Id, verifier: Id) {
    && Added(s, t, Credential(id, DeviceRole, row.device, verifier, true)) && Silent(s, t, DeviceRole, row.device)
    && row.device in t.bindings && t.bindings[row.device] == row.binding
    && (row.device in s.recovery && s.recovery[row.device].operationId in s.operations ==>
          var k := s.recovery[row.device].operationId;
          k in t.operations && t.operations[k].state.Delivered? && t.operations[k].credentialId == id)
  }

  lemma RedeemedEffect(s: Snapshot, q: Id, id: Id, verifier: Id)
    requires q in s.requests
    ensures RedeemEffect(s, E.Redeemed(s, q, id, verifier), s.requests[q], id, verifier)
  {}

  lemma PairDone(s: Snapshot, now: real, tx: Tx)
    requires tx.EnrollmentTx? && E.Pair(s, now, tx.origin, tx.principal, tx.move).reply.Done?
    ensures PairEffect(s, E.Pair(s, now, tx.origin, tx.principal, tx.move).after, tx)
  {
    hide Admissible, E.Live, E.ControllerError, E.UnownedError, E.ResolvesTo, E.DeviceBusy, E.Unexpired, E.Charged,
      RedeemEffect, E.Redeemed;
    var m := tx.move;
    if m.Redeeming? && m.q in s.requests {
      RedeemedEffect(s, m.q, m.id, m.verifier);
      RedeemedRow(s, m.q, m.id, m.verifier);
    }
    ControllerNamed(s, tx.principal, now);
  }

  lemma RedeemedRow(s: Snapshot, q: Id, id: Id, verifier: Id)
    requires q in s.requests
    ensures var t := E.Redeemed(s, q, id, verifier); q in t.requests && t.requests[q].state.Consumed?
  {}

  lemma ControllerNamed(s: Snapshot, principal: Option<Principal>, now: real)
    ensures forall kind :: E.ControllerError(s, principal, kind, now).None? ==> principal.Some?
  {}

  /** A pairing call that is answered as done has had its effect. */
  lemma PairingDone(s: Snapshot, now: real, tx: Tx, cut: nat)
    requires tx.EnrollmentTx? && 2 < cut && ReplyTo(s, now, tx).Done?
    ensures PairEffect(After(s, now, tx, 2), After(s, now, tx, cut), tx)
  {
    hide L.Sweep, E.MarkStale, E.Pair, PairEffect;
    PairDone(After(s, now, tx, 2), now, tx);
  }

  // ----- Integration enrollment -----

  ghost predicate GrantEffect(s: Snapshot, t: Snapshot, tx: Tx)
    requires tx.IntegrationTx?
  {
    var k := tx.call.k;
    && k in t.grants
    && match tx.call
       case Applying(_, secret, _, _, _, _) => t.grants[k].secretHash == secret
       case Querying(_, _) => t == s
       case Collecting(_, _, id, verifier) =>
         && t.grants[k].state.Delivered? && t.grants[k].credentialId == id
         && Added(s, t, Credential(id, IntegrationRole, Agent(k), verifier, false))
       case Withdrawing(_, _) => t.grants[k].state.Cancelled? && (t == s || Gone(s, t, t.grants[k].credentialId))
       case Denying(_) => t.grants[k].state.Denied? && (t == s || Gone(s, t, t.grants[k].credentialId))
       case Saving(_, _, _, _) => t.grants[k].state.Completed? && (t == s || Enabled(s, t, t.grants[k].credentialId))
       case Approving(_, _) => t.grants[k].state.Approved?
  }

  ghost predicate Gone(s: Snapshot, t: Snapshot, id: Id) {
    |t.records| == |s.records| && forall i :: 0 <= i < |s.records| && s.records[i].id == id ==>
      t.records[i].verifier == s.records[i].verifier && t.records[i].verifier in t.blocked && !t.records[i].enabled
  }

  ghost predicate Enabled(s: Snapshot, t: Snapshot, id: Id) {
    |t.records| == |s.records| && forall i :: 0 <= i < |s.records| ==>
      t.records[i] == if s.records[i].id == id then s.records[i].(enabled := true) else s.records[i]
  }

  lemma EndedGone(s: Snapshot, k: Id, g: Grant)
    requires k in s.grants
    ensures Gone(s, I.WithGrant(Retire(s, {s.grants[k].credentialId}), k, g), s.grants[k].credentialId)
  {}

  lemma ServeDone(s: Snapshot, now: real, tx: Tx)
    requires tx.IntegrationTx? && I.Serve(s, now, tx.origin, tx.principal, tx.call).reply.Done?
    ensures GrantEffect(s, I.Serve(s, now, tx.origin, tx.principal, tx.call).after, tx)
  {
    hide Admissible, Retire, Gone, I.Presents, I.Retained, I.Unissued, E.MarkIfStale;
    var k := tx.call.k;
    if k in s.grants {
      EndedGone(s, k, s.grants[k].(state := GrantState.Denied));
      EndedGone(s, k, s.grants[k].(state := GrantState.Cancelled));
    }
  }

  /** An integration call that is answered as done has had its effect. */
  lemma IntegrationDone(s: Snapshot, now: real, tx: Tx, cut: nat)
    requires tx.IntegrationTx? && 2 < cut && ReplyTo(s, now, tx).Done?
    ensures GrantEffect(After(s, now, tx, 1), After(s, now, tx, cut), tx)
  {
    hide I.SweepGrants, E.MarkStale, I.Serve, GrantEffect;
    ServeDone(After(s, now, tx, 1), now, tx);
  }

  // ----- Rotation, revocation and recovery -----

  ghost predicate CommandEffect(s: Snapshot, t: Snapshot, tx: Tx)
    requires tx.LifecycleTx?
  {
    match tx.command
    case Ordered(action, k, role, subject) =>
      && k in t.operations && (k in s.operations ==> t == s)
      && (k !in s.operations ==> OrderEffect(s, t, action, k, role, subject))
    case Polling(found) => found.Some? && found.value in s.operations ==>
      found.value in t.operations && !t.operations[found.value].state.Queued?
    case Inquiry(_) => t == s
    case Delivery(k, id, verifier) =>
      && k in t.operations && t.operations[k].state.Delivered? && t.operations[k].credentialId == id
      && Added(s, t, Credential(id, t.operations[k].role, t.operations[k].subject, verifier, true))
      && t.blocked == s.blocked && t.records[..|s.records|] == s.records
    case Receipt(k, _) =>
      && k in s.operations && k in t.operations
      && (t.operations[k].state.Acknowledged? || t.operations[k].state.Completed?)
      && (s.operations[k].state.Delivered? ==> Replaced(s, t, s.operations[k].oldIds))
  }

  ghost predicate Replaced(s: Snapshot, t: Snapshot, ids: set<Id>) {
    |t.records| == |s.records| && forall i :: 0 <= i < |s.records| && s.records[i].id in ids ==>
      t.records[i].verifier == s.records[i].verifier && t.records[i].verifier in t.blocked && !t.records[i].enabled
  }

  /** A rotation withdraws nothing yet; a revocation or recovery withdraws at once, ends what was
      unfinished and what was being paired, and a recovery opens the subject's pairing. */
  ghost predicate OrderEffect(s: Snapshot, t: Snapshot, action: Action, k: Id, role: Role, subject: Subject) {
    && k in t.operations && t.operations[k].subject == subject && t.operations[k].role == role
    && t.operations[k].action == action
    && (forall id :: id in t.operations[k].oldIds <==>
          exists r :: r in s.records && r.role == role && r.subject == subject && r.id == id)
    && (action.Rotate? ==> t == s.(operations := t.operations) && t.operations[k].state.Queued?)
    && (!action.Rotate? ==>
          && Silent(s, t, role, subject)
          && (forall j :: j in s.operations && s.operations[j].subject == subject ==>
                j in t.operations && TerminalOp(t.operations[j].state))
          && (forall q :: q in t.requests && t.requests[q].device == subject ==> TerminalRequest(t.requests[q].state)))
    && (action.Revoke? ==> subject !in t.recovery && t.operations[k].state.Revoked?)
    && (action.Recover? ==>
          subject in t.recovery && t.recovery[subject].operationId == k && t.operations[k].state.Queued?)
  }

  lemma ControlledSilent(s: Snapshot, now: real, origin: Id, action: Action, k: Id, role: Role, subject: Subject)
    requires !action.Rotate?
    ensures Silent(s, L.Controlled(s, now, origin, action, k, role, subject), role, subject)
  {
    hide InvalidateApprovals, L.AbandonPairing, L.RevokeActive;
    forall i | 0 <= i < |s.records| && L.Matches(s.records[i], role, subject)
      ensures s.records[i].id in L.MatchingIds(s.records, role, subject)
    {
      assert s.records[i] in s.records;
    }
  }

  lemma ControlledEffect(s: Snapshot, now: real, origin: Id, action: Action, k: Id, role: Role, subject: Subject)
    requires k !in s.operations
    ensures OrderEffect(s, L.Controlled(s, now, origin, action, k, role, subject), action, k, role, subject)
  {
    hide Disable, VerifiersOf, Silent, Disavow;
    if !action.Rotate? { ControlledSilent(s, now, origin, action, k, role, subject); }
  }

  lemma AckedReplaced(s: Snapshot, k: Id)
    requires k in s.operations
    ensures Replaced(s, L.Acked(s, k), s.operations[k].oldIds)
  {
    hide InvalidateApprovals;
  }

  lemma ActDone(s: Snapshot, now: real, tx: Tx)
    requires tx.LifecycleTx? && L.Act(s, now, tx.origin, tx.principal, tx.command).reply.Done?
    ensures CommandEffect(s, L.Act(s, now, tx.origin, tx.principal, tx.command).after, tx)
  {
    hide Admissible, L.Controlled, OrderEffect, Replaced, Retire, IsOwner, Current, L.HasActive, L.HasMatching,
      L.AnyUsable, L.RemovesLiability, InvalidateApprovals;
    match tx.command
    case Ordered(action, k, role, subject) =>
      if k !in s.operations {
        ControlledEffect(s, now, tx.origin, action, k, role, subject);
        OrderedThere(s, L.Controlled(s, now, tx.origin, action, k, role, subject), action, k, role, subject);
      }
    case Receipt(k, _) => if k in s.operations { AckedReplaced(s, k); }
    case _ =>
  }

  lemma OrderedThere(s: Snapshot, t: Snapshot, action: Action, k: Id, role: Role, subject: Subject)
    requires OrderEffect(s, t, action, k, role, subject)
    ensures k in t.operations
  {}

  /** A lifecycle call that is answered as done has had its effect. */
  lemma LifecycleDone(s: Snapshot, now: real, tx: Tx, cut: nat)
    requires tx.LifecycleTx? && 1 < cut && ReplyTo(s, now, tx).Done?
    ensures CommandEffect(After(s, now, tx, 1), After(s, now, tx, cut), tx)
  {
    hide L.Sweep, L.Act, CommandEffect;
    ActDone(After(s, now, tx, 1), now, tx);
  }

  // ----- Refusals -----

  /** A call that is refused leaves what its upkeep leaves, unless it was a wrong signature or
      code, which is counted. */
  lemma RefusalsChangeNothing(s: Snapshot, now: real, tx: Tx, cut: nat)
    requires ReplyTo(s, now, tx).Refuse?
    requires !ReplyTo(s, now, tx).error.InvalidProof? && !ReplyTo(s, now, tx).error.InvalidCode?
    ensures OnlyUpkeep(s, After(s, now, tx, cut), now, tx)
  {
    hide OnlyUpkeep, L.Sweep, L.Act, E.MarkStale, E.Pair, I.SweepGrants, I.Serve;
    if cut <= UpkeepCommits(tx) {
      UpToUpkeep(s, now, tx, cut);
    } else {
      UpToUpkeep(s, now, tx, 1);
      UpToUpkeep(s, now, tx, UpkeepCommits(tx));
      match tx
      case LifecycleTx(_, _, _) => ActRefused(After(s, now, tx, 1), now, tx);
      case EnrollmentTx(_, _, _) => PairRefused(After(s, now, tx, 2), now, tx);
      case IntegrationTx(_, _, _) => ServeRefused(After(s, now, tx, 1), now, tx);
      case HousekeepingTx(_) =>
      case OwnerTx(_) =>
    }
  }

  lemma ActRefused(s: Snapshot, now: real, tx: Tx)
    requires tx.LifecycleTx? && L.Act(s, now, tx.origin, tx.principal, tx.command).reply.Refuse?
    ensures L.Act(s, now, tx.origin, tx.principal, tx.command).after == s
  {
    hide Admissible, L.Controlled, L.Acked, L.Handover, IsOwner, Current, L.HasActive, L.HasMatching, L.AnyUsable,
      L.RemovesLiability;
  }

  lemma PairRefused(s: Snapshot, now: real, tx: Tx)
    requires tx.EnrollmentTx?
    requires var e := E.Pair(s, now, tx.origin, tx.principal, tx.move).reply; e.Refuse? && !e.error.InvalidProof?
    ensures E.Pair(s, now, tx.origin, tx.principal, tx.move).after == s
  {
    hide Admissible, E.Live, E.ControllerError, E.UnownedError, E.ResolvesTo, E.DeviceBusy, E.Unexpired, E.Charged,
      E.Redeemed, E.Opened;
  }

  lemma ServeRefused(s: Snapshot, now: real, tx: Tx)
    requires tx.IntegrationTx?
    requires var e := I.Serve(s, now, tx.origin, tx.principal, tx.call).reply; e.Refuse? && !e.error.InvalidCode?
    ensures var t := I.Serve(s, now, tx.origin, tx.principal, tx.call).after;
      t == s || t == E.MarkStale(s, now, tx.origin)
  {
    hide Admissible, Retire, I.Presents, I.Retained, I.Unissued, E.MarkIfStale, I.Activated, I.Issued;
  }
}
