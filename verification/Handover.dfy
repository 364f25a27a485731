/** Rotation: the old credentials and the new one overlap until the new one is acknowledged,
    after which it alone is left; if it is not acknowledged in time, none is. */
module Handover {
  import opened Basics
  import opened Authority
  import opened Transitions
  import opened Records
  import opened Upkeep
  import opened LatchRuns
  import opened Protocol
  import opened Linked
  import opened Runs
  import opened Identity
  import L = Lifecycle
  import E = Enrollment
  import I = Integration
  import LT = Latch
  import Expiry

  // ---- Where credentials come from ----

  datatype Source = Rotation(k: Id) | Pairing(q: Id) | Granting(k: Id)

  ghost predicate Mints(s: Snapshot, t: Snapshot, source: Source) {
    && |t.records| == |s.records| + 1
    && var c := t.records[|s.records|];
       match source
       case Rotation(k) =>
         && k in s.operations && k in t.operations && s.operations[k].action.Rotate? && s.operations[k].state.Pending?
         && t.operations[k].credentialId == c.id && t.operations[k].state.Delivered?
         && L.Matches(c, s.operations[k].role, s.operations[k].subject)
       case Pairing(q) =>
         && q in s.requests && q in t.requests && s.requests[q].state.Approved? && t.requests[q].state.Consumed?
         && L.Matches(c, DeviceRole, s.requests[q].device)
       case Granting(k) =>
         && k in s.grants && s.grants[k].state.Approved? && k in t.grants && t.grants[k].credentialId == c.id
         && L.Matches(c, IntegrationRole, Agent(k)) && !c.enabled
  }

  lemma ActMints(s: Snapshot, now: real, origin: Id, principal: Option<Principal>, c: L.Command)
    ensures var t := L.Act(s, now, origin, principal, c).after;
            Extends(s.records, t.records) && (|t.records| == |s.records|
                || (c.Delivery? && Mints(s, t, Rotation(c.opId))))
  {
    hide Admissible, VerifiersOf, L.NewOperation, L.RevokeActive, L.MatchingIds, L.RemovesLiability,
      L.AnyUsable, L.HasMatching, IsOwner, Current, L.AbandonPairing, InvalidateApprovals;
  }

  lemma PairMints(s: Snapshot, now: real, origin: Id, principal: Option<Principal>, m: E.Move)
    ensures var t := E.Pair(s, now, origin, principal, m).after;
            Extends(s.records, t.records) && (|t.records| == |s.records| || (m.Redeeming? && Mints(s, t, Pairing(m.q))))
  {
    hide E.Pair, VerifiersOf, L.MatchingIds, E.Unexpired;
    LT.PairShape(s, now, origin, principal, m);
    RedeemsApproved(s, now, origin, principal, m);
  }

  lemma RedeemsApproved(s: Snapshot, now: real, origin: Id, principal: Option<Principal>, m: E.Move)
    ensures var t := E.Pair(s, now, origin, principal, m).after;
            |t.records| != |s.records| && m.Redeeming? && m.q in s.requests ==> s.requests[m.q].state.Approved?
  {
    hide Admissible, VerifiersOf, Disable, E.Live, E.UnownedError;
  }

  lemma ServeMints(s: Snapshot, now: real, origin: Id, principal: Option<Principal>, c: I.Call)
    ensures var t := I.Serve(s, now, origin, principal, c).after;
            Extends(s.records, t.records) && (|t.records| == |s.records|
                || (c.Collecting? && Mints(s, t, Granting(c.k))))
  {
    hide I.Serve, VerifiersOf, LT.GrantsMove, I.Presents, Admissible;
    LT.ServeShape(s, now, origin, principal, c);
  }

  /** Every credential there is was minted by delivering a pending rotation of its subject, by
      redeeming an approved pairing request of its device, or by delivering an approved grant
      of its agent; at most one per transaction, and none is ever removed or renamed. */
  lemma CredentialsAreMinted(s: Snapshot, now: real, tx: Tx, cut: nat)
    ensures var t := After(s, now, tx, cut);
            && Extends(s.records, t.records)
            && (|t.records| == |s.records|
                || (tx.LifecycleTx? && tx.command.Delivery? && Mints(s, t, Rotation(tx.command.opId)))
                || (tx.EnrollmentTx? && tx.move.Redeeming? && Mints(s, t, Pairing(tx.move.q)))
                || (tx.IntegrationTx? && tx.call.Collecting? && Mints(s, t, Granting(tx.call.k))))
  {
    hide L.Act, E.Pair, I.Serve, VerifiersOf, Disable, L.SweptIds, I.LapsedIds, L.LivePointers, L.Due,
      E.Detached, I.AllBlocked, I.IssuedBlocked;
    match tx
    case LifecycleTx(origin, principal, command) =>
      RetireShape(s, L.SweptIds(s, now, origin));
      ActMints(L.Sweep(s, now, origin), now, origin, principal, command);
    case EnrollmentTx(origin, principal, move) =>
      RetireShape(s, L.SweptIds(s, now, origin));
      PairMints(E.MarkStale(L.Sweep(s, now, origin), now, origin), now, origin, principal, move);
    case IntegrationTx(origin, principal, call) =>
      RetireShape(s, I.LapsedIds(s, now, origin));
      ServeMints(I.SweepGrants(s, now, origin), now, origin, principal, call);
    case HousekeepingTx(origin) =>
    case OwnerTx(owner) =>
  }

  // ---- Delivery ----

  /** Nothing in a linked snapshot mentions an id that is not a credential yet. */
  lemma UnmintedUnmentioned(s: Snapshot, id: Id)
    requires AllLinked(s) && GrantsBound(s.grants, s.records) && id != NONE
    requires forall i :: 0 <= i < |s.records| ==> s.records[i].id != id
    ensures forall k :: k in s.operations ==> s.operations[k].credentialId != id && id !in s.operations[k].oldIds
    ensures !Withheld(s.grants, id)
  {
    hide AgentsGranted, GrantsUnissued;
  }

  lemma HandoverUsable(s: Snapshot, now: real, k: Id, id: Id, verifier: Id, r: Credential)
    requires k in s.operations && LT.Swept(s, now) && LiveOp(s.operations, k) && s.operations[k].action.Rotate?
    requires s.operations[k].state.Pending? && s.operations[k].credentialId == NONE
    requires r.id != id && r.id != NONE
    ensures Usable(L.Handover(s, now, k, id, verifier), r, now) <==> Usable(s, r, now)
  {
    var t := L.Handover(s, now, k, id, verifier);
    forall j | j in s.operations ensures Withdraws(t.operations[j], r.id, now) <==>
        Withdraws(s.operations[j], r.id, now) {}
  }

  lemma HandedUsable(s: Snapshot, now: real, k: Id, id: Id, verifier: Id)
    requires k in s.operations && LT.Swept(s, now) && LiveOp(s.operations, k)
    requires AllLinked(s) && GrantsBound(s.grants, s.records) && id != NONE && verifier !in s.blocked
    requires forall i :: 0 <= i < |s.records| ==> s.records[i].id != id
    ensures var t := L.Handover(s, now, k, id, verifier); Usable(t, t.records[|s.records|], now)
  {
    hide AllLinked, GrantsBound;
    UnmintedUnmentioned(s, id);
    var t := L.Handover(s, now, k, id, verifier);
    forall j | j in t.operations ensures !Withdraws(t.operations[j], id, now) {}
  }

  /** Delivering a rotation takes nothing away: afterwards exactly the credentials that were
      usable and the new one are. */
  lemma DeliveryAddsOne(s: Snapshot, now: real, p: Principal, k: Id, id: Id, verifier: Id, x: Id)
    requires Inv(s) && LT.Swept(s, now) && 0.0 <= now && verifier !in s.blocked
    requires var e := L.Deliver(s, now, p, k, id, verifier); e.reply.Done? && e.after != s
    ensures var t := L.Deliver(s, now, p, k, id, verifier).after;
            && (UsableId(t, x, now) <==> UsableId(s, x, now) || x == id)
            && !(exists i :: 0 <= i < |s.records| && s.records[i].id == id)
            && k in t.operations && t.operations[k].state.Delivered? && t.operations[k].credentialId == id
            && now < t.operations[k].overlapUntil
  {
    hide HasCapacity, EnrollmentValid, GrantsValid, LifecycleValid, IdsImmutable, Orderly, AllLinked,
      Identified, Usable, LT.DeadlinesSet, GrantsBound;
    var t := L.Deliver(s, now, p, k, id, verifier).after;
    assert t == L.Handover(s, now, k, id, verifier);
    assert t.records[|s.records|].id == id;
    forall i | 0 <= i < |s.records| ensures s.records[i].id != id && s.records[i].id != NONE {
      assert t.records[i] == s.records[i] && t.records[i] in t.records;
    }
    PendingUnissued(s, k);
    HandedUsable(s, now, k, id, verifier);
    forall r | r in s.records ensures Usable(t, r, now) <==> Usable(s, r, now) {
      HandoverUsable(s, now, k, id, verifier, r);
    }
    assert t.records[|s.records|] in t.records;
  }

  lemma PendingUnissued(s: Snapshot, k: Id)
    requires Orderly(s.operations, s.recovery) && k in s.operations
    requires s.operations[k].state.Pending? && s.operations[k].action.Rotate?
    ensures s.operations[k].credentialId == NONE
  {}

  // ---- Acknowledgement ----

  /** Every credential of the operation's subject is one it replaces or the one it issued. */
  ghost predicate Covered(s: Snapshot, k: Id) {
    k in s.operations && forall i ::
      0 <= i < |s.records| && L.Matches(s.records[i], s.operations[k].role, s.operations[k].subject) ==>
        s.records[i].id in s.operations[k].oldIds || s.records[i].id == s.operations[k].credentialId
  }

  /** An acknowledgement takes away exactly the replaced credentials, whatever else there is:
      a credential the operation does not replace stays as usable as it was. */
  lemma AckTakesExactly(s: Snapshot, now: real, k: Id, r: Credential)
    requires RecordsValid(s.records) && AllLinked(s) && k in s.operations && LT.Swept(s, now)
    requires s.operations[k].state.Delivered? && r in s.records
    ensures var t := L.Acked(s, k); var olds := s.operations[k].oldIds;
            && DisabledIf(r, olds) in t.records
            && (Usable(t, DisabledIf(r, olds), now) <==> Usable(s, r, now) && r.id !in olds)
  {
    hide RecordsValid, InvalidateApprovals, AllLinked;
    var t := L.Acked(s, k);
    var olds := s.operations[k].oldIds;
    var i :| 0 <= i < |s.records| && s.records[i] == r;
    assert t.records[i] == DisabledIf(r, olds);
    if r.id !in olds { Expiry.TombstonesOnlyTheirs(s, olds, r); }
    forall j | j in t.operations ensures r.id !in olds ==>
        (Withdraws(t.operations[j], r.id, now) <==> Withdraws(s.operations[j], r.id, now)) {}
  }

  /** Whether the acknowledged credential is all that is left: exactly when no other credential
      of the subject is usable that the operation does not replace. */
  ghost predicate AloneIsLeft(s: Snapshot, t: Snapshot, k: Id, now: real) {
    k in s.operations && forall r :: r in s.records && L.Matches(r, s.operations[k].role, s.operations[k].subject) ==>
      (Usable(t, DisabledIf(r, s.operations[k].oldIds), now) <==> r.id == s.operations[k].credentialId)
  }

  ghost predicate NoOutsider(s: Snapshot, k: Id, now: real) {
    k in s.operations && forall r ::
      r in s.records && L.Matches(r, s.operations[k].role, s.operations[k].subject) && Usable(s, r, now) ==>
        r.id in s.operations[k].oldIds || r.id == s.operations[k].credentialId
  }

  lemma AcknowledgedAloneExactlyWhen(s: Snapshot, now: real, p: Principal, k: Id, saved: bool)
    requires Inv(s) && LT.Swept(s, now) && k in s.operations && s.operations[k].state.Delivered? && Current(s, p, now)
    requires L.Ack(s, p, k, saved).reply.Done?
    ensures AloneIsLeft(s, L.Ack(s, p, k, saved).after, k, now) <==> NoOutsider(s, k, now)
  {
    hide HasCapacity, EnrollmentValid, GrantsValid, LifecycleValid, GrantsBound, IdsImmutable, Orderly,
      AllLinked,
      Identified, Usable, LT.DeadlinesSet, LT.Swept, VerifiersOf, InvalidateApprovals;
    LinkedOp(s, k);
    forall r | r in s.records && L.Matches(r, s.operations[k].role, s.operations[k].subject)
      ensures Usable(L.Acked(s, k), DisabledIf(r, s.operations[k].oldIds), now) <==>
              Usable(s, r, now) && r.id !in s.operations[k].oldIds
      ensures r.id == s.operations[k].credentialId ==> Usable(s, r, now) && r.id !in s.operations[k].oldIds
    {
      AckTakesExactly(s, now, k, r);
      HolderIs(s, now, p, r);
    }
  }

  /** A current principal's credential is the record with its id. */
  lemma HolderIs(s: Snapshot, now: real, p: Principal, r: Credential)
    requires RecordsValid(s.records) && Current(s, p, now) && r in s.records
    ensures r.id != NONE && (r.id == p.credentialId ==> Usable(s, r, now))
  {
    hide Usable;
    var c :| c in s.records && c.id == p.credentialId && Usable(s, c, now);
    var i :| 0 <= i < |s.records| && s.records[i] == r;
    var j :| 0 <= j < |s.records| && s.records[j] == c;
    assert r.id == c.id ==> i == j;
  }

  /** Right after the acknowledgement of a rotation that covers its subject, the acknowledged
      credential is the only usable one of that subject. */
  lemma AcknowledgedAloneIsLeft(s: Snapshot, now: real, p: Principal, k: Id, saved: bool, r: Credential)
    requires Inv(s) && LT.Swept(s, now) && Covered(s, k) && s.operations[k].state.Delivered? && Current(s, p, now)
    requires L.Ack(s, p, k, saved).reply.Done? && r in s.records
    requires L.Matches(r, s.operations[k].role, s.operations[k].subject)
    ensures var t := L.Ack(s, p, k, saved).after;
            Usable(t, DisabledIf(r, s.operations[k].oldIds), now) <==> r.id == s.operations[k].credentialId
  {
    hide Inv, Usable, LT.Swept, Current, L.Ack;
    AcknowledgedAloneExactlyWhen(s, now, p, k, saved);
    CoveredNoOutsider(s, k, now);
    assert AloneIsLeft(s, L.Ack(s, p, k, saved).after, k, now);
  }

  lemma CoveredNoOutsider(s: Snapshot, k: Id, now: real)
    requires Covered(s, k)
    ensures NoOutsider(s, k, now)
  {
    hide Usable;
    forall r | r in s.records && L.Matches(r, s.operations[k].role, s.operations[k].subject)
      ensures r.id in s.operations[k].oldIds || r.id == s.operations[k].credentialId
    {
      var i :| 0 <= i < |s.records| && s.records[i] == r;
    }
  }

  lemma LinkedOp(s: Snapshot, k: Id)
    requires AllLinked(s) && k in s.operations
    ensures OpLinked(s.records, s.operations[k])
    ensures s.operations[k].credentialId !in s.operations[k].oldIds || s.operations[k].credentialId == NONE
  {}

  // ---- From the order to the acknowledgement ----

  /** The transaction does not redeem a pairing request of this subject. */
  ghost predicate SparesDevice(s: Snapshot, tx: Tx, subject: Subject) {
    tx.EnrollmentTx? && tx.move.Redeeming? && tx.move.q in s.requests ==> s.requests[tx.move.q].device != subject
  }

  lemma OrderCovers(s: Snapshot, now: real, origin: Id, k: Id, role: Role, subject: Subject)
    requires k !in s.operations
    ensures Covered(L.Controlled(s, now, origin, Rotate, k, role, subject), k)
  {}

  /** The credential an unfinished rotation has issued is never replaced by another. */
  lemma RotationKeepsCredential(s: Snapshot, now: real, tx: Tx, cut: nat, k: Id)
    requires Inv(s) && Faithful(s, now, tx) && LiveOp(s.operations, k) && s.operations[k].action.Rotate?
    ensures var t := After(s, now, tx, cut);
            k in t.operations && (s.operations[k].credentialId != NONE ==>
                t.operations[k].credentialId == s.operations[k].credentialId)
  {
    hide Schema, Orderly, AllLinked, Identified, LT.DeadlinesSet, L.Act, E.Pair, I.Serve, VerifiersOf,
      Disable, L.SweptIds, Faithful, E.MarkIfStale, InvalidateApprovals;
    InvOrderly(s);
    match tx
    case LifecycleTx(origin, principal, command) =>
      var swept := L.Sweep(s, now, origin);
      ActKeepsIssued(swept, now, origin, principal, command, k);
    case EnrollmentTx(origin, principal, move) =>
      var marked := E.MarkStale(L.Sweep(s, now, origin), now, origin);
      StepOrderly(s, now, tx, 2);
      SweepAdmissible(s, now, origin);
      MarkStaleAdmissible(L.Sweep(s, now, origin), now, origin);
      SchemaParts(marked);
      PairKeepsIssued(marked, now, origin, principal, move, k);
    case IntegrationTx(origin, principal, call) => GrantsLeaveOperations(s, now, origin, principal, call, cut);
    case HousekeepingTx(origin) =>
    case OwnerTx(owner) =>
  }

  lemma InvOrderly(s: Snapshot)
    requires Inv(s)
    ensures RotationsUnissued(s.operations) && OneLive(s.operations)
  {}

  lemma ActKeepsIssued(s: Snapshot, now: real, origin: Id, principal: Option<Principal>, c: L.Command, k: Id)
    requires k in s.operations
    requires c.Delivery? && c.opId == k && s.operations[k].state.Pending? && s.operations[k].action.Rotate? ==>
      s.operations[k].credentialId == NONE
    ensures var t := L.Act(s, now, origin, principal, c).after;
            k in t.operations && (s.operations[k].credentialId != NONE ==>
                t.operations[k].credentialId == s.operations[k].credentialId)
  {
    hide Admissible, VerifiersOf, Disable, L.NewOperation, L.MatchingIds, L.RemovesLiability, L.AnyUsable,
      L.HasMatching, IsOwner, Current, L.AbandonPairing, InvalidateApprovals;
  }

  lemma PairKeepsIssued(s: Snapshot, now: real, origin: Id, principal: Option<Principal>, m: E.Move, k: Id)
    requires k in s.operations && s.operations[k].action.Rotate? && RecoveryValid(s.operations, s.bindings, s.recovery)
    ensures var t := E.Pair(s, now, origin, principal, m).after;
            k in t.operations && t.operations[k].credentialId == s.operations[k].credentialId
  {
    hide E.Pair, VerifiersOf, Disable, L.MatchingIds, E.Unexpired;
    LT.PairShape(s, now, origin, principal, m);
  }

  lemma StepCovered(s: Snapshot, now: real, tx: Tx, cut: nat, k: Id)
    requires Inv(s) && Faithful(s, now, tx) && 0.0 <= now
    requires Covered(s, k) && LiveOp(s.operations, k) && s.operations[k].action.Rotate?
    requires SparesDevice(s, tx, s.operations[k].subject)
    ensures Covered(After(s, now, tx, cut), k)
  {
    hide Schema, Orderly, AllLinked, Identified, LT.DeadlinesSet, After, Faithful, RecordsValid;
    var t := After(s, now, tx, cut);
    RotationKeepsCredential(s, now, tx, cut, k);
    StepOrderly(s, now, tx, cut);
    CredentialsAreMinted(s, now, tx, cut);
    var op := s.operations[k];
    forall i | 0 <= i < |t.records| && L.Matches(t.records[i], op.role, op.subject)
      ensures t.records[i].id in op.oldIds || t.records[i].id == t.operations[k].credentialId
    {
      if i < |s.records| {
        assert SameIdentity(s.records[i], t.records[i]);
        NoneIsNoRecord(s, i);
      } else {
        MintedForRotation(s, t, tx, k);
      }
    }
  }

  lemma NoneIsNoRecord(s: Snapshot, i: nat)
    requires Inv(s) && i < |s.records|
    ensures s.records[i].id != NONE
  {}

  /** A credential minted for the subject of an unfinished rotation is that rotation's. */
  lemma MintedForRotation(s: Snapshot, t: Snapshot, tx: Tx, k: Id)
    requires Inv(s) && LiveOp(s.operations, k) && s.operations[k].action.Rotate? && k in t.operations
    requires |t.records| == |s.records| + 1 && t.records[|s.records|].subject == s.operations[k].subject
    requires SparesDevice(s, tx, s.operations[k].subject)
    requires || (tx.LifecycleTx? && tx.command.Delivery? && Mints(s, t, Rotation(tx.command.opId)))
             || (tx.EnrollmentTx? && tx.move.Redeeming? && Mints(s, t, Pairing(tx.move.q)))
             || (tx.IntegrationTx? && tx.call.Collecting? && Mints(s, t, Granting(tx.call.k)))
    ensures t.records[|s.records|].id == t.operations[k].credentialId
  {
    hide Schema, PointersLive, RecoveriesPointed, RotationsUnissued, Identified, LT.DeadlinesSet;
  }

  /** From the moment a rotation is ordered until it is finished, and as long as its device is
      not paired again, every credential of its subject is one it replaces or the one it
      issued. `RotationHandsOver` draws the conclusion. */
  lemma {:induction false} RotationCovers(run: seq<Moment>, i: nat, j: nat, k: Id)
    requires IsRun(run) && Inv(run[0].s) && i <= j < |run|
    requires Covered(run[i].s, k) && run[i].s.operations[k].action.Rotate?
    requires k in run[j].s.operations && !TerminalOp(run[j].s.operations[k].state)
    requires forall m :: i < m <= j ==> SparesDevice(run[m - 1].s, run[m].tx, run[i].s.operations[k].subject)
    ensures Covered(run[j].s, k)
    decreases j - i
  {
    hide Inv, After, Faithful, Covered, Mints;
    if i < j {
      CoveredIn(run[i].s, k);
      RunInv(run, i);
      assert Follows(run[i], run[i + 1]);
      RunPersists(run, i, j);
      RunPersists(run, i, i + 1);
      StillLive(run[i].s, run[j].s, k);
      StepCovered(run[i].s, run[i + 1].now, run[i + 1].tx, run[i + 1].cut, k);
      SameOperation(run[i].s, run[i + 1].s, k);
      RotationCovers(run, i + 1, j, k);
    }
  }

  lemma CoveredIn(s: Snapshot, k: Id)
    requires Covered(s, k)
    ensures k in s.operations
  {}

  lemma StillLive(s: Snapshot, t: Snapshot, k: Id)
    requires Persists(s, t) && k in s.operations && LiveOp(t.operations, k)
    ensures LiveOp(s.operations, k)
  {}

  lemma SameOperation(s: Snapshot, t: Snapshot, k: Id)
    requires Persists(s, t) && k in s.operations
    ensures k in t.operations && t.operations[k].action == s.operations[k].action
        && t.operations[k].subject == s.operations[k].subject
  {}

  // ---- The whole handover ----

  /** The transaction orders the rotation `k`, and the order is accepted. */
  ghost predicate OrdersRotation(s: Snapshot, t: Snapshot, tx: Tx, k: Id) {
    && tx.LifecycleTx? && tx.command.Ordered? && tx.command.action.Rotate? && tx.command.opId == k
    && k !in s.operations && k in t.operations
  }

  /** The transaction acknowledges operation `k`, and the acknowledgement is accepted. */
  ghost predicate Acknowledges(s: Snapshot, t: Snapshot, tx: Tx, k: Id) {
    && tx.LifecycleTx? && tx.command.Receipt? && tx.command.opId == k
    && k in s.operations && !s.operations[k].state.Acknowledged?
    && k in t.operations && t.operations[k].state.Acknowledged?
  }

  lemma OrderedCovers(s: Snapshot, now: real, tx: Tx, cut: nat, k: Id)
    requires OrdersRotation(s, After(s, now, tx, cut), tx, k)
    ensures var t := After(s, now, tx, cut);
      Covered(t, k) && t.operations[k].action.Rotate? && t.operations[k].state.Queued?
      && t.operations[k].subject == tx.command.subject
  {
    hide Admissible, VerifiersOf, Disable, L.SweptIds, L.LivePointers, InvalidateApprovals, L.HasMatching,
      L.AnyUsable,
      L.HasActive, L.RemovesLiability, L.MatchingIds, Current, IsOwner, Covered;
    var swept := L.Sweep(s, now, tx.origin);
    OrderCovers(swept, now, tx.origin, k, tx.command.role, tx.command.subject);
  }

  lemma AcknowledgedFrom(s: Snapshot, now: real, tx: Tx, cut: nat, k: Id)
    requires Schema(s) && Acknowledges(s, After(s, now, tx, cut), tx, k)
    ensures tx.principal.Some?
    ensures var swept, p := L.Sweep(s, now, tx.origin), tx.principal.value;
      && k in swept.operations && swept.operations[k] == s.operations[k] && swept.operations[k].state.Delivered?
      && Current(swept, p, now) && L.Ack(swept, p, k, tx.command.saved).reply.Done?
      && After(s, now, tx, cut) == L.Ack(swept, p, k, tx.command.saved).after == L.Acked(swept, k)
  {
    hide Admissible, WellFormed, HasCapacity, Retire, L.SweptIds, L.LivePointers, InvalidateApprovals, Current;
    NotTheOwners(s, k);
  }

  lemma NotTheOwners(s: Snapshot, k: Id)
    requires Schema(s) && k in s.operations
    ensures !s.operations[k].role.OwnerRole?
  {
    hide HasCapacity, RecordsValid, EnrollmentValid, GrantsValid, GrantsBound, RecoveryValid;
    assert OperationValid(s.operations[k]);
  }

  /** In every run, when a rotation is acknowledged, the acknowledged credential is the only
      usable one of its subject exactly when no other credential is usable that the rotation does
      not replace. */
  lemma ReceiptLeavesOneExactlyWhen(run: seq<Moment>, j: nat, k: Id)
    requires IsRun(run) && Inv(run[0].s) && 0 < j < |run|
    requires Acknowledges(run[j - 1].s, run[j].s, run[j].tx, k)
    ensures var now, swept := run[j].now, L.Sweep(run[j - 1].s, run[j].now, run[j].tx.origin);
      AloneIsLeft(swept, run[j].s, k, now) <==> NoOutsider(swept, k, now)
  {
    hide Inv, After, L.Sweep, AloneIsLeft, NoOutsider, L.Ack, L.Acked, Current;
    var s, now, tx := run[j - 1].s, run[j].now, run[j].tx;
    assert Follows(run[j - 1], run[j]);
    RunInv(run, j - 1);
    RunInv(run, j);
    SweptInv(s, now, tx);
    AcknowledgedFrom(s, now, tx, run[j].cut, k);
    AcknowledgedAloneExactlyWhen(L.Sweep(s, now, tx.origin), now, tx.principal.value, k, tx.command.saved);
  }

  lemma SweptInv(s: Snapshot, now: real, tx: Tx)
    requires Inv(s) && 0.0 <= now && tx.LifecycleTx? && tx.command.Receipt?
    ensures Schema(s) && Inv(L.Sweep(s, now, tx.origin)) && LT.Swept(L.Sweep(s, now, tx.origin), now)
    ensures After(s, now, tx, 1) == L.Sweep(s, now, tx.origin)
  {
    hide WellFormed, HasCapacity, LT.DeadlinesSet, Orderly, Identified, AllLinked, L.Sweep, LT.Swept;
    SweepLatched(s, now, tx.origin);
    StepInv(s, now, tx, 1);
  }

  /** The whole handover, in every run: a rotation is ordered, its device is not paired again,
      and its acknowledgement is accepted. Then of all the credentials of its subject exactly the
      acknowledged one is usable. */
  lemma RotationHandsOver(run: seq<Moment>, i: nat, j: nat, k: Id)
    requires IsRun(run) && Inv(run[0].s) && 0 < i < j < |run|
    requires OrdersRotation(run[i - 1].s, run[i].s, run[i].tx, k)
    requires forall m :: i < m <= j ==> SparesDevice(run[m - 1].s, run[m].tx, run[i].tx.command.subject)
    requires Acknowledges(run[j - 1].s, run[j].s, run[j].tx, k)
    ensures var t := run[j].s; forall r ::
      r in t.records && L.Matches(r, t.operations[k].role, t.operations[k].subject) ==>
      (Usable(t, r, run[j].now) <==> r.id == t.operations[k].credentialId)
  {
    hide Inv, After, L.Sweep, AloneIsLeft, NoOutsider, Covered, L.Ack, L.Acked, Current, Usable, Faithful;
    assert Follows(run[i - 1], run[i]) && Follows(run[j - 1], run[j]);
    var s, now, tx := run[j - 1].s, run[j].now, run[j].tx;
    OrderedCovers(run[i - 1].s, run[i].now, run[i].tx, run[i].cut, k);
    RunInv(run, j - 1);
    RunInv(run, j);
    RunPersists(run, i, j - 1);
    RunPersists(run, j - 1, j);
    CoveredIn(run[i].s, k);
    StillRotation(run[i].s, s, run[j].s, k);
    RotationCovers(run, i, j - 1, k);
    SweptInv(s, now, tx);
    StepCovered(s, now, tx, 1, k);
    CoveredNoOutsider(L.Sweep(s, now, tx.origin), k, now);
    ReceiptLeavesOneExactlyWhen(run, j, k);
    AcknowledgedFrom(s, now, tx, run[j].cut, k);
    AloneInRecords(L.Sweep(s, now, tx.origin), k, now);
  }

  lemma StillRotation(a: Snapshot, s: Snapshot, t: Snapshot, k: Id)
    requires Persists(a, s) && Persists(s, t) && k in a.operations && a.operations[k].action.Rotate?
    requires k in t.operations && t.operations[k].state.Acknowledged? && k in s.operations
        && !s.operations[k].state.Acknowledged?
    ensures LiveOp(s.operations, k) && s.operations[k].action.Rotate?
        && s.operations[k].subject == a.operations[k].subject
  {}

  lemma AloneInRecords(s: Snapshot, k: Id, now: real)
    requires k in s.operations && AloneIsLeft(s, L.Acked(s, k), k, now)
    ensures var t := L.Acked(s, k);
      && t.operations[k].role == s.operations[k].role && t.operations[k].subject == s.operations[k].subject
      && t.operations[k].credentialId == s.operations[k].credentialId
      && forall r :: r in t.records && L.Matches(r, s.operations[k].role, s.operations[k].subject) ==>
           (Usable(t, r, now) <==> r.id == s.operations[k].credentialId)
  {
    hide Usable, VerifiersOf, InvalidateApprovals;
    var t := L.Acked(s, k);
    forall r | r in t.records && L.Matches(r, s.operations[k].role, s.operations[k].subject)
      ensures Usable(t, r, now) <==> r.id == s.operations[k].credentialId
    {
      var i :| 0 <= i < |t.records| && t.records[i] == r;
      assert s.records[i] in s.records && r == DisabledIf(s.records[i], s.operations[k].oldIds);
    }
  }

  /** If a delivered rotation or recovery is still unacknowledged when its deadline passes,
      neither the credential it issued nor any it replaces is ever usable again. */
  lemma MissedDeadlineIsFinal(run: seq<Moment>, i: nat, j: nat, ti: real, tj: real, k: Id, id: Id)
    requires IsRun(run) && Inv(run[0].s) && i <= j && InForce(run, i, ti) && InForce(run, j, tj) && ti <= tj
    requires k in run[i].s.operations && run[i].s.operations[k].state.Delivered?
        && run[i].s.operations[k].overlapUntil <= ti
    requires id == run[i].s.operations[k].credentialId || id in run[i].s.operations[k].oldIds
    ensures !UsableId(run[j].s, id, tj)
  {
    hide HasCapacity, RecordsValid, EnrollmentValid, GrantsValid, GrantsBound, Orderly, Identified, IsRun,
      UsableId, LT.Dead, LT.Born, LT.DeadlinesSet, RecoveryValid;
    RunInv(run, 0);
    RunInv(run, i);
    RunInv(run, j);
    WithdrawnIsDead(run[i].s, k, id, ti);
    DeadAlong(run, i, j, id, ti, tj);
    UsableHere(run[j].s, id, tj);
  }

  lemma WithdrawnIsDead(s: Snapshot, k: Id, id: Id, now: real)
    requires LifecycleValid(s) && AllLinked(s) && k in s.operations
    requires s.operations[k].state.Delivered? && s.operations[k].overlapUntil <= now
    requires id == s.operations[k].credentialId || id in s.operations[k].oldIds
    ensures LT.Dead(s, id, now)
  {}
}
