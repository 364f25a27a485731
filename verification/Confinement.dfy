/** A call touches nobody but the subject that it is about: beyond the upkeep, the credentials,
    operations, bindings, recoveries and requests of everybody else stay as they are, and so does
    the usability of their credentials, now and later. */
module Confinement {
  import opened Basics
  import opened Authority
  import opened Transitions
  import opened Records
  import opened Upkeep
  import opened Protocol
  import opened Linked
  import opened Runs
  import opened Permission
  import L = Lifecycle
  import E = Enrollment
  import I = Integration
  import LT = Latch
  import Registry

  /** Only `subject` is touched. */
  ghost predicate Apart(s: Snapshot, t: Snapshot, subject: Subject) {
    && t.owner == s.owner
    && |s.records| <= |t.records|
    && (forall i :: 0 <= i < |s.records| && s.records[i].subject != subject ==> t.records[i] == s.records[i])
    && (forall i :: |s.records| <= i < |t.records| ==> t.records[i].subject == subject)
    && s.blocked <= t.blocked
    && (forall v :: v in t.blocked && v !in s.blocked ==> OwnVerifier(s.records, v, subject))
    && (forall k :: k in s.operations && s.operations[k].subject != subject ==>
          k in t.operations && t.operations[k] == s.operations[k])
    && (forall k :: k in t.operations && t.operations[k].subject != subject ==>
          k in s.operations && t.operations[k] == s.operations[k])
    && (forall d :: d != subject ==> (d in t.bindings <==> d in s.bindings) && (d in t.recovery <==> d in s.recovery))
    && (forall d :: d != subject && d in s.bindings ==> t.bindings[d] == s.bindings[d])
    && (forall d :: d != subject && d in s.recovery ==> t.recovery[d] == s.recovery[d])
  }

  ghost predicate OwnVerifier(records: seq<Credential>, v: Id, subject: Subject) {
    exists i :: 0 <= i < |records| && records[i].verifier == v && records[i].subject == subject
  }

  /** Other agents' requests stay, except that applying drops those that expired unissued. */
  ghost predicate GrantsApart(before: map<Id, Grant>, after: map<Id, Grant>, subject: Subject) {
    && (forall k :: k in after && Agent(k) != subject ==> k in before && after[k] == before[k])
    && (forall k :: k in before && Agent(k) != subject && before[k].credentialId != NONE ==> k in after)
  }

  /** Every verifier that retiring tombstones is of a credential with one of the ids. */
  lemma RetiredOwn(s: Snapshot, ids: set<Id>, subject: Subject)
    requires forall i :: 0 <= i < |s.records| && s.records[i].id in ids ==> s.records[i].subject == subject
    ensures var t := Retire(s, ids);
      && (forall i :: 0 <= i < |s.records| && s.records[i].subject != subject ==> t.records[i] == s.records[i])
      && (forall v :: v in t.blocked && v !in s.blocked ==> OwnVerifier(s.records, v, subject))
  {}

  lemma MatchingOwn(records: seq<Credential>, role: Role, subject: Subject)
    requires RecordsValid(records)
    ensures forall i :: 0 <= i < |records| && records[i].id in L.MatchingIds(records, role, subject) ==>
      records[i].subject == subject
  {
    forall i | 0 <= i < |records| && records[i].id in L.MatchingIds(records, role, subject)
      ensures records[i].subject == subject
    {
      var r :| r in records && L.Matches(r, role, subject) && r.id == records[i].id;
      var j :| 0 <= j < |records| && records[j] == r;
      assert i == j;
    }
  }

  lemma ReplacedOwn(s: Snapshot, k: Id)
    requires RecordsValid(s.records) && OpsLinked(s.records, s.operations) && k in s.operations
    ensures forall i :: 0 <= i < |s.records| && s.records[i].id in s.operations[k].oldIds ==>
      s.records[i].subject == s.operations[k].subject
  {
    assert OpLinked(s.records, s.operations[k]);
    forall i | 0 <= i < |s.records| && s.records[i].id in s.operations[k].oldIds
      ensures s.records[i].subject == s.operations[k].subject
    {
      var j :| 0 <= j < |s.records| && s.records[j].id == s.records[i].id
               && s.records[j].subject == s.operations[k].subject;
      assert i == j;
    }
  }

  // ----- The subject of a call -----

  /** Whom a call is about, in the snapshot that its upkeep left. */
  function About(s: Snapshot, tx: Tx): Option<Subject> {
    match tx
    case LifecycleTx(_, _, Ordered(_, _, _, subject)) => Some(subject)
    case LifecycleTx(_, _, Polling(found)) => if found.Some? then OperationOf(s, found.value) else None
    case LifecycleTx(_, _, Delivery(k, _, _)) => OperationOf(s, k)
    case LifecycleTx(_, _, Receipt(k, _)) => OperationOf(s, k)
    case EnrollmentTx(_, _, Asking(_, _, device, _, _)) => Some(device)
    case EnrollmentTx(_, _, Redeeming(q, _, _, _)) => if q in s.requests then Some(s.requests[q].device) else None
    case IntegrationTx(_, _, call) => Some(Agent(call.k))
    case _ => None
  }

  function OperationOf(s: Snapshot, k: Id): Option<Subject> {
    if k in s.operations then Some(s.operations[k].subject) else None
  }

  /** The snapshot from `s` to `t` changed for that subject at most. */
  ghost predicate Confined(s: Snapshot, t: Snapshot, about: Option<Subject>) {
    || t == s.(requests := t.requests)
    || (about.Some? && Apart(s, t, about.value) && GrantsApart(s.grants, t.grants, about.value))
  }

  lemma ControlledApart(s: Snapshot, now: real, origin: Id, action: Action, k: Id, role: Role, subject: Subject)
    requires RecordsValid(s.records) && k !in s.operations
    ensures Apart(s, L.Controlled(s, now, origin, action, k, role, subject), subject)
  {
    hide RecordsValid, L.MatchingIds, Disable, VerifiersOf, InvalidateApprovals, L.AbandonPairing, OwnVerifier;
    MatchingOwn(s.records, role, subject);
    RetiredOwn(s, L.MatchingIds(s.records, role, subject), subject);
  }

  lemma AckedApart(s: Snapshot, k: Id)
    requires RecordsValid(s.records) && OpsLinked(s.records, s.operations) && k in s.operations
    ensures Apart(s, L.Acked(s, k), s.operations[k].subject)
  {
    hide RecordsValid, OpsLinked, Disable, VerifiersOf, InvalidateApprovals, OwnVerifier;
    ReplacedOwn(s, k);
    RetiredOwn(s, s.operations[k].oldIds, s.operations[k].subject);
  }

  lemma HandoverApart(s: Snapshot, now: real, k: Id, id: Id, verifier: Id)
    requires k in s.operations
    ensures Apart(s, L.Handover(s, now, k, id, verifier), s.operations[k].subject)
  {
    hide OwnVerifier;
  }

  lemma StateApart(s: Snapshot, k: Id, state: OpState)
    requires k in s.operations
    ensures Apart(s, s.(operations := s.operations[k := s.operations[k].(state := state)]), s.operations[k].subject)
  {
    hide OwnVerifier;
  }

  lemma ActApart(s: Snapshot, now: real, tx: Tx)
    requires tx.LifecycleTx? && RecordsValid(s.records) && OpsLinked(s.records, s.operations)
    ensures Confined(s, L.Act(s, now, tx.origin, tx.principal, tx.command).after, About(s, tx))
  {
    hide RecordsValid, OpsLinked, Admissible, L.Controlled, L.RemovesLiability, L.AnyUsable, IsOwner, Current, L.Acked,
      L.Handover, L.HasActive, L.HasMatching, Apart, GrantsApart;
    var c := tx.command;
    Registry.ActGrants(s, now, tx.origin, tx.principal, c);
    match c
    case Ordered(action, k, role, subject) =>
      SameGrants(s.grants, subject);
      if k !in s.operations { ControlledApart(s, now, tx.origin, action, k, role, subject); }
    case Polling(found) =>
      if found.Some? && found.value in s.operations {
        SameGrants(s.grants, s.operations[found.value].subject);
        StateApart(s, found.value, OpState.Pending);
      }
    case Inquiry(_) =>
    case Delivery(k, id, verifier) =>
      if k in s.operations {
        SameGrants(s.grants, s.operations[k].subject);
        HandoverApart(s, now, k, id, verifier);
      }
    case Receipt(k, _) =>
      if k in s.operations {
        SameGrants(s.grants, s.operations[k].subject);
        AckedApart(s, k);
      }
  }

  lemma SameGrants(grants: map<Id, Grant>, subject: Subject)
    ensures GrantsApart(grants, grants, subject)
  {}

  lemma OpenedApart(s: Snapshot, now: real, origin: Id, binding: Binding, device: Subject, q: Id)
    requires PointersLive(s.operations, s.recovery)
    ensures Apart(s, E.Opened(s, now, origin, binding, device, q), device)
  {
    hide E.Unexpired, E.NewRequest, OwnVerifier;
  }

  lemma RedeemedApart(s: Snapshot, q: Id, id: Id, verifier: Id)
    requires q in s.requests && RecordsValid(s.records) && PointersLive(s.operations, s.recovery)
    ensures Apart(s, E.Redeemed(s, q, id, verifier), s.requests[q].device)
  {
    hide RecordsValid, L.MatchingIds, Disable, VerifiersOf, OwnVerifier;
    var device := s.requests[q].device;
    MatchingOwn(s.records, DeviceRole, device);
    RetiredOwn(s, L.MatchingIds(s.records, DeviceRole, device), device);
  }

  lemma PairApart(s: Snapshot, now: real, tx: Tx)
    requires tx.EnrollmentTx? && RecordsValid(s.records) && PointersLive(s.operations, s.recovery)
    ensures Confined(s, E.Pair(s, now, tx.origin, tx.principal, tx.move).after, About(s, tx))
  {
    hide RecordsValid, PointersLive, E.Pair, E.Opened, E.Redeemed, Apart, GrantsApart;
    var m := tx.move;
    Registry.PairGrants(s, now, tx.origin, tx.principal, m);
    if About(s, tx).Some? { SameGrants(s.grants, About(s, tx).value); }
    LT.PairShape(s, now, tx.origin, tx.principal, m);
    if m.Asking? { OpenedApart(s, now, tx.origin, m.binding, m.device, m.requestId); }
    if m.Redeeming? && m.q in s.requests { RedeemedApart(s, m.q, m.id, m.verifier); }
  }

  // ----- Integration -----

  lemma IssuedByOwn(s: Snapshot, k: Id)
    requires RecordsValid(s.records) && GrantsBound(s.grants, s.records) && k in s.grants
    ensures forall i :: 0 <= i < |s.records| && s.records[i].id == s.grants[k].credentialId ==>
      s.records[i].subject == Agent(k)
  {
    forall i | 0 <= i < |s.records| && s.records[i].id == s.grants[k].credentialId
      ensures s.records[i].subject == Agent(k)
    {
      assert s.records[i] in s.records;
      var r :| r in s.records && r.id == s.grants[k].credentialId && r.subject == Agent(k);
      var j :| 0 <= j < |s.records| && s.records[j] == r;
      assert i == j;
    }
  }

  lemma EndedApart(s: Snapshot, k: Id, target: GrantState)
    requires RecordsValid(s.records) && GrantsBound(s.grants, s.records) && k in s.grants
    ensures var t := I.Ended(s, k, target).after; Apart(s, t, Agent(k)) && GrantsApart(s.grants, t.grants, Agent(k))
  {
    hide RecordsValid, GrantsBound, Admissible, Retire, Apart;
    EndingApart(s, k, s.grants[k].(state := target));
    RowsApart(s, s, Agent(k));
  }

  lemma EndingApart(s: Snapshot, k: Id, g: Grant)
    requires RecordsValid(s.records) && GrantsBound(s.grants, s.records) && k in s.grants
    ensures var t := I.WithGrant(Retire(s, {s.grants[k].credentialId}), k, g);
      Apart(s, t, Agent(k)) && t.grants == s.grants[k := g]
  {
    hide RecordsValid, GrantsBound, Disable, VerifiersOf, OwnVerifier;
    IssuedByOwn(s, k);
    RetiredOwn(s, {s.grants[k].credentialId}, Agent(k));
  }

  lemma ActivatedApart(s: Snapshot, k: Id)
    requires RecordsValid(s.records) && GrantsBound(s.grants, s.records) && k in s.grants
    ensures var t := I.Activated(s, k); Apart(s, t, Agent(k)) && GrantsApart(s.grants, t.grants, Agent(k))
  {
    hide RecordsValid, GrantsBound, OwnVerifier;
    IssuedByOwn(s, k);
  }

  lemma IssuedApart(s: Snapshot, k: Id, id: Id, verifier: Id)
    requires k in s.grants
    ensures var t := I.Issued(s, k, id, verifier); Apart(s, t, Agent(k)) && GrantsApart(s.grants, t.grants, Agent(k))
  {
    hide OwnVerifier;
  }

  lemma RowsApart(s: Snapshot, t: Snapshot, subject: Subject)
    requires t == s.(requests := t.requests, grants := t.grants)
    ensures Apart(s, t, subject)
  {
    hide OwnVerifier;
  }

  lemma ApprovalApart(s: Snapshot, k: Id, presented: Id)
    requires k in s.grants
    ensures var t := I.Approval(s, k, presented).after;
      Apart(s, t, Agent(k)) && GrantsApart(s.grants, t.grants, Agent(k))
  {
    hide Apart, Admissible;
    RowsApart(s, I.Approval(s, k, presented).after, Agent(k));
  }

  lemma ApplyApart(s: Snapshot, now: real, origin: Id, c: I.Call)
    requires c.Applying? && c.k !in s.grants
    ensures var t := I.Apply(s, now, origin, c.k, c.secret, c.code, c.name, c.expiresAt).after;
      Apart(s, t, Agent(c.k)) && GrantsApart(s.grants, t.grants, Agent(c.k))
  {
    hide Apart, Admissible, E.MarkIfStale, I.Unissued;
    RowsApart(s, I.Apply(s, now, origin, c.k, c.secret, c.code, c.name, c.expiresAt).after, Agent(c.k));
  }

  lemma ServeApart(s: Snapshot, now: real, tx: Tx)
    requires tx.IntegrationTx? && RecordsValid(s.records) && GrantsBound(s.grants, s.records)
    ensures Confined(s, I.Serve(s, now, tx.origin, tx.principal, tx.call).after, About(s, tx))
  {
    hide RecordsValid, GrantsBound, Admissible, I.Apply, I.Approval, I.Ended, I.Activated, I.Issued, I.Presents,
      IsOwner, Apart, GrantsApart;
    var c := tx.call;
    if c.Applying? {
      if c.k !in s.grants { ApplyApart(s, now, tx.origin, c); }
    } else if c.k in s.grants {
      match c
      case Querying(_, _) =>
      case Collecting(k, _, id, verifier) => IssuedApart(s, k, id, verifier);
      case Withdrawing(k, _) => EndedApart(s, k, GrantState.Cancelled);
      case Saving(k, _, _, _) => ActivatedApart(s, k);
      case Approving(k, presented) => ApprovalApart(s, k, presented);
      case Denying(k) => EndedApart(s, k, GrantState.Denied);
    }
  }

  // ----- Everybody else -----

  /** What the call itself finds: the snapshot that its upkeep left. */
  function Prepared(s: Snapshot, now: real, tx: Tx): Snapshot {
    After(s, now, tx, if tx.EnrollmentTx? then 2 else 1)
  }

  predicate IsCall(tx: Tx) { tx.LifecycleTx? || tx.EnrollmentTx? || tx.IntegrationTx? }

  lemma CallConfined(s: Snapshot, now: real, tx: Tx, cut: nat)
    requires Inv(s) && Faithful(s, now, tx) && 0.0 <= now && IsCall(tx) && UpkeepCommits(tx) < cut
    ensures Confined(Prepared(s, now, tx), After(s, now, tx, cut), About(Prepared(s, now, tx), tx))
    ensures Inv(Prepared(s, now, tx)) && Inv(After(s, now, tx, cut))
  {
    hide Inv, Confined, L.Sweep, E.MarkStale, I.SweepGrants, L.Act, E.Pair, I.Serve, L.FindsRotation, About,
      RecordsValid, GrantsBound, OpsLinked, PointersLive;
    var before := Prepared(s, now, tx);
    StepInv(s, now, tx, if tx.EnrollmentTx? then 2 else 1);
    StepInv(s, now, tx, cut);
    Parts(before);
    match tx
    case LifecycleTx(_, _, _) => ActApart(before, now, tx);
    case EnrollmentTx(_, _, _) => PairApart(before, now, tx);
    case IntegrationTx(_, _, _) => ServeApart(before, now, tx);
  }

  lemma Parts(s: Snapshot)
    requires Inv(s)
    ensures RecordsValid(s.records) && GrantsBound(s.grants, s.records) && OpsLinked(s.records, s.operations)
    ensures PointersLive(s.operations, s.recovery)
  {
    hide RecordsValid, GrantsBound, OpsLinked, HasCapacity, LifecycleValid, PointersLive;
  }

  /** An operation only ever withdraws credentials of its own subject. */
  lemma WithdrawsOwn(s: Snapshot, k: Id, i: nat, now: real)
    requires RecordsValid(s.records) && OpsLinked(s.records, s.operations) && k in s.operations && i < |s.records|
    requires Withdraws(s.operations[k], s.records[i].id, now)
    ensures s.records[i].subject == s.operations[k].subject
  {
    assert OpLinked(s.records, s.operations[k]);
    assert s.records[i] in s.records;
    var j :| 0 <= j < |s.records| && s.records[j].id == s.records[i].id
             && s.records[j].subject == s.operations[k].subject;
    assert i == j;
  }

  lemma WithdrawnAlike(s: Snapshot, t: Snapshot, subject: Subject, i: nat, now: real)
    requires Parted(s, t, subject) && i < |s.records| && s.records[i].subject != subject
    ensures Withdrawn(t.operations, s.records[i].id, now) <==> Withdrawn(s.operations, s.records[i].id, now)
  {
    hide RecordsValid, OpsLinked, GrantsBound, GrantsApart, OwnVerifier, Withdraws;
    var id := s.records[i].id;
    if k :| k in t.operations && Withdraws(t.operations[k], id, now) { WithdrawsOwn(t, k, i, now); }
    if k :| k in s.operations && Withdraws(s.operations[k], id, now) { WithdrawsOwn(s, k, i, now); }
  }

  lemma WithheldAlike(s: Snapshot, t: Snapshot, subject: Subject, i: nat)
    requires Parted(s, t, subject) && i < |s.records| && s.records[i].subject != subject
    ensures Withheld(t.grants, s.records[i].id) <==> Withheld(s.grants, s.records[i].id)
  {
    hide RecordsValid, OpsLinked, GrantsBound, OwnVerifier;
    var id := s.records[i].id;
    NamedId(s, i);
    assert t.records[i] == s.records[i];
    if k :| k in t.grants && t.grants[k].credentialId == id && !t.grants[k].state.Completed? {
      IssuedByOwn(t, k);
      assert t.records[i].subject == Agent(k);
    }
    if k :| k in s.grants && s.grants[k].credentialId == id && !s.grants[k].state.Completed? {
      IssuedByOwn(s, k);
      assert s.records[i].subject == Agent(k) && t.grants[k] == s.grants[k];
    }
  }

  lemma NamedId(s: Snapshot, i: nat)
    requires RecordsValid(s.records) && i < |s.records|
    ensures s.records[i].id != NONE
  {
    assert s.records[i] in s.records;
  }

  ghost predicate Parted(s: Snapshot, t: Snapshot, subject: Subject) {
    && Apart(s, t, subject) && GrantsApart(s.grants, t.grants, subject)
    && RecordsValid(s.records) && GrantsBound(s.grants, s.records) && OpsLinked(s.records, s.operations)
    && RecordsValid(t.records) && GrantsBound(t.grants, t.records) && OpsLinked(t.records, t.operations)
  }

  lemma UnblockedAlike(s: Snapshot, t: Snapshot, subject: Subject, i: nat)
    requires Parted(s, t, subject) && i < |s.records| && s.records[i].subject != subject
    ensures s.records[i].verifier in t.blocked <==> s.records[i].verifier in s.blocked
  {
    hide OpsLinked, GrantsBound, GrantsApart;
  }

  lemma UsableAlike(s: Snapshot, t: Snapshot, subject: Subject, i: nat, now: real)
    requires Parted(s, t, subject) && i < |s.records| && s.records[i].subject != subject
    ensures i < |t.records| && t.records[i] == s.records[i]
    ensures Usable(t, t.records[i], now) <==> Usable(s, s.records[i], now)
  {
    hide RecordsValid, OpsLinked, GrantsBound, GrantsApart, OwnVerifier, Withdrawn, Withheld;
    WithdrawnAlike(s, t, subject, i, now);
    WithheldAlike(s, t, subject, i);
    UnblockedAlike(s, t, subject, i);
  }

  /** In every run, a call changes no credential of anybody but the subject it is about, nor
      whether it is usable at any later time. */
  lemma OthersUnaffected(run: seq<Moment>, j: nat, i: nat, later: real)
    requires IsRun(run) && Inv(run[0].s) && 0 < j < |run| && IsCall(run[j].tx) && UpkeepCommits(run[j].tx) < run[j].cut
    requires var before := Prepared(run[j - 1].s, run[j].now, run[j].tx);
      i < |before.records| && About(before, run[j].tx) != Some(before.records[i].subject)
    ensures var before := Prepared(run[j - 1].s, run[j].now, run[j].tx);
      && i < |run[j].s.records| && run[j].s.records[i] == before.records[i]
      && (Usable(run[j].s, before.records[i], later) <==> Usable(before, before.records[i], later))
  {
    hide Inv, After, Faithful, About, Apart, GrantsApart, Usable;
    RunInv(run, j - 1);
    RunInv(run, j);
    assert Follows(run[j - 1], run[j]);
    var before, tx := Prepared(run[j - 1].s, run[j].now, run[j].tx), run[j].tx;
    CallConfined(run[j - 1].s, run[j].now, tx, run[j].cut);
    Parts(before);
    Parts(run[j].s);
    if run[j].s == before.(requests := run[j].s.requests) {
      RequestsAlike(before, run[j].s.requests, before.records[i], later);
    } else {
      UsableAlike(before, run[j].s, About(before, tx).value, i, later);
    }
  }

  lemma RequestsAlike(s: Snapshot, requests: map<Id, Request>, r: Credential, now: real)
    ensures Usable(s.(requests := requests), r, now) <==> Usable(s, r, now)
  {}

  // ----- Other devices' pairing requests -----

  /** The actor acted with a credential of this subject. */
  ghost predicate ActedAs(s: Snapshot, actor: Option<Principal>, subject: Subject) {
    actor.Some? && exists i :: 0 <= i < |s.records| && s.records[i].id == actor.value.credentialId
                               && s.records[i].subject == subject
  }

  lemma DisavowsOwn(s: Snapshot, ids: set<Id>, subject: Subject, row: Request)
    requires forall id :: id in ids ==> HasRecord(s.records, id, DeviceRole, subject)
                                        || HasRecord(s.records, id, IntegrationRole, subject)
    requires !ActedAs(s, row.initiator, subject) && !ActedAs(s, row.approver, subject)
    ensures Disavow(row, ids) == row
  {}

  lemma OwnIds(s: Snapshot, c: L.Command, k: Id)
    requires OpsLinked(s.records, s.operations) && (forall j :: j in s.operations ==> !s.operations[j].role.OwnerRole?)
    requires c.Receipt? && c.opId in s.operations
    ensures forall id :: id in s.operations[c.opId].oldIds ==>
      HasRecord(s.records, id, DeviceRole, s.operations[c.opId].subject)
      || HasRecord(s.records, id, IntegrationRole, s.operations[c.opId].subject)
  {
    assert OpLinked(s.records, s.operations[c.opId]);
  }

  lemma ControlledRow(s: Snapshot, now: real, origin: Id, c: L.Command, q: Id)
    requires c.Ordered? && q in s.requests && s.requests[q].device != c.subject
    requires Disavow(s.requests[q], L.MatchingIds(s.records, c.role, c.subject)) == s.requests[q]
    ensures var t := L.Controlled(s, now, origin, c.action, c.opId, c.role, c.subject);
      q in t.requests && t.requests[q] == s.requests[q]
  {
    hide L.MatchingIds, Disable, VerifiersOf, L.RevokeActive, Disavow;
  }

  /** An order or acknowledgement ends only pairing requests of the device it is about and those
      in the name of a credential of its subject. */
  lemma OtherRequestsStay(s: Snapshot, now: real, tx: Tx, q: Id)
    requires Schema(s) && OpsLinked(s.records, s.operations) && tx.LifecycleTx? && q in s.requests
    requires About(s, tx).Some? ==> var subject := About(s, tx).value;
      && s.requests[q].device != subject
      && !ActedAs(s, s.requests[q].initiator, subject) && !ActedAs(s, s.requests[q].approver, subject)
    ensures var t := L.Act(s, now, tx.origin, tx.principal, tx.command).after;
      q in t.requests && t.requests[q] == s.requests[q]
  {
    hide RecordsValid, OpsLinked, Admissible, L.RemovesLiability, L.AnyUsable, IsOwner, Current, L.HasActive,
      L.HasMatching, L.MatchingIds, Retire, L.RevokeActive, Disavow, ActedAs, HasRecord, HasCapacity, L.Controlled;
    var c, row := tx.command, s.requests[q];
    if c.Ordered? && !c.role.OwnerRole? {
      MatchingLinked(s.records, c.role, c.subject);
      DisavowsOwn(s, L.MatchingIds(s.records, c.role, c.subject), c.subject, row);
      ControlledRow(s, now, tx.origin, c, q);
    }
    if c.Receipt? && c.opId in s.operations {
      forall j | j in s.operations ensures !s.operations[j].role.OwnerRole? { assert OperationValid(s.operations[j]); }
      OwnIds(s, c, c.opId);
      DisavowsOwn(s, s.operations[c.opId].oldIds, s.operations[c.opId].subject, row);
    }
  }
}
