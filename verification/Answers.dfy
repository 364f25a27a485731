/** Exactly when a subject's, a pairing or an integration call is carried out, and that repeating
    one that was is harmless. Beyond what each call needs, nothing refuses it. */
module Answers {
  import opened Basics
  import opened Authority
  import opened Transitions
  import opened Records
  import opened Upkeep
  import opened Permission
  import opened Protocol
  import opened Runs
  import opened Operations
  import L = Lifecycle
  import E = Enrollment
  import I = Integration
  import G = Grants
  import Issuance
  import Guesses

  // ----- The subject's calls -----

  ghost predicate Owns(s: Snapshot, p: Principal, k: Id) {
    k in s.operations && s.operations[k].role == p.role && s.operations[k].subject == p.subject
  }

  /** What a poll, question, delivery or acknowledgement needs of the swept snapshot. */
  ghost predicate CommandHolds(s: Snapshot, now: real, tx: Tx)
    requires tx.LifecycleTx? && !tx.command.Ordered?
  {
    && tx.principal.Some?
    && var p := tx.principal.value;
       match tx.command
       case Polling(_) => p.role != OwnerRole && InForce(s, p, now)
       case Inquiry(k) =>
         k in s.operations && (OwnerSpeaks(s.owner, tx.principal) || (InForce(s, p, now) && Owns(s, p, k)))
       case Delivery(k, id, verifier) =>
         && InForce(s, p, now) && Owns(s, p, k) && |s.records| < 1024
         && s.operations[k].state.Pending? && s.operations[k].action.Rotate?
         && Admissible(s, L.Handover(s, now, k, id, verifier))
       case Receipt(k, saved) =>
         && InForce(s, p, now) && Owns(s, p, k) && saved && p.credentialId == s.operations[k].credentialId
         && (s.operations[k].state.Delivered? || s.operations[k].state.Acknowledged?
             || s.operations[k].state.Completed?)
  }

  /** An operation that moves between unfinished states needs no room. */
  lemma MovedOperationFits(s: Snapshot, k: Id, state: OpState)
    requires Schema(s) && LiveOp(s.operations, k) && !TerminalOp(state) && !state.Delivered?
    requires state.Acknowledged? ==> s.operations[k].credentialId != NONE
    ensures Admissible(s, s.(operations := s.operations[k := s.operations[k].(state := state)]))
  {
    hide RecordsValid, EnrollmentValid, GrantsValid, GrantsBound, IdsImmutable, Digests;
    var t := s.(operations := s.operations[k := s.operations[k].(state := state)]);
    assert t.operations.Keys == s.operations.Keys;
    assert Unfinished(t.operations) == Unfinished(s.operations);
    SameIdentitiesValid(s.records, t.records);
  }

  lemma RequestsFit(s: Snapshot, requests: map<Id, Request>)
    requires Schema(s) && EnrollmentValid(requests)
    ensures Schema(s.(requests := requests))
  {
    hide RecordsValid, EnrollmentValid, GrantsValid, GrantsBound;
    LifecycleSame(s, s.(requests := requests));
    CapacitySame(s, s.(requests := requests));
  }

  lemma RowsValid(s: Snapshot)
    requires Schema(s)
    ensures EnrollmentValid(s.requests)
  {}

  lemma AckFits(s: Snapshot, k: Id)
    requires Schema(s) && k in s.operations && s.operations[k].state.Delivered?
    ensures Admissible(s, L.Acked(s, k))
  {
    hide Disable, VerifiersOf, Schema, EnrollmentValid, IdsImmutable, InvalidateApprovals;
    var op := s.operations[k];
    var retired := Retire(s, op.oldIds);
    DeliveredIssued(s, k);
    RetiredFits(s, op.oldIds);
    MovedOperationFits(retired, k, Acknowledged);
    RowsValid(s);
    InvalidateValid(s.requests, op.oldIds);
    RequestsFit(retired.(operations := s.operations[k := op.(state := Acknowledged)]),
      InvalidateApprovals(s.requests, op.oldIds));
  }

  lemma DeliveredIssued(s: Snapshot, k: Id)
    requires Schema(s) && k in s.operations && s.operations[k].state.Delivered?
    ensures s.operations[k].credentialId != NONE
  {
    assert OperationValid(s.operations[k]);
  }

  lemma NeverTheOwners(s: Snapshot, p: Principal, k: Id)
    requires Schema(s) && Owns(s, p, k)
    ensures !p.role.OwnerRole?
  {
    assert OperationValid(s.operations[k]);
  }

  lemma ActDoneExactlyWhen(s: Snapshot, now: real, tx: Tx)
    requires Schema(s) && tx.LifecycleTx? && !tx.command.Ordered?
    requires tx.command.Polling? && tx.principal.Some? ==>
      L.FindsRotation(s, tx.principal.value, tx.command.found)
    ensures L.Act(s, now, tx.origin, tx.principal, tx.command).reply.Done? <==> CommandHolds(s, now, tx)
  {
    hide Schema, Admissible, Usable, L.Acked, L.Handover;
    if tx.principal.Some? {
      var p := tx.principal.value;
      match tx.command
      case Polling(found) =>
        if found.Some? && s.operations[found.value].state.Queued? {
          MovedOperationFits(s, found.value, OpState.Pending);
        }
      case Inquiry(k) =>
      case Delivery(k, _, _) => if Owns(s, p, k) { NeverTheOwners(s, p, k); }
      case Receipt(k, _) =>
        if Owns(s, p, k) {
          NeverTheOwners(s, p, k);
          if s.operations[k].state.Delivered? { AckFits(s, k); }
        }
    }
  }

  /** A poll, question, delivery or acknowledgement is carried out exactly when what it needs
      holds. */
  lemma CommandDoneExactlyWhen(s: Snapshot, now: real, tx: Tx)
    requires Schema(s) && Faithful(s, now, tx) && tx.LifecycleTx? && !tx.command.Ordered?
    ensures ReplyTo(s, now, tx).Done? <==> CommandHolds(After(s, now, tx, 1), now, tx)
  {
    hide Schema, L.Sweep, L.Act, CommandHolds, L.FindsRotation, IdsImmutable;
    SweepAdmissible(s, now, tx.origin);
    ActDoneExactlyWhen(L.Sweep(s, now, tx.origin), now, tx);
  }

  // ----- Pairing -----

  /** Nobody else has the device: its id is bound to this key, or to none and has no credential. */
  ghost predicate Unowned(s: Snapshot, device: Subject, binding: Binding) {
    && |s.records| < 1024
    && (device in s.bindings ==> s.bindings[device] == binding)
    && (device !in s.bindings ==> forall r :: r in s.records ==> r.subject != device)
  }

  ghost predicate Endorsable(s: Snapshot, tx: Tx, now: real, q: Id, presented: Id, phase: RequestState)
    requires tx.EnrollmentTx? && q in s.requests
  {
    var row := s.requests[q];
    && row.state == phase && presented != NONE && presented == row.codeHash
    && ControllerSpeaks(s, tx.principal, row.binding.kind, now) && Unowned(s, row.device, row.binding)
  }

  ghost predicate Redeemable(s: Snapshot, q: Id, id: Id, verifier: Id)
    requires q in s.requests
  {
    var row := s.requests[q];
    && row.state.Approved? && Unowned(s, row.device, row.binding)
    && (row.device !in s.bindings ==> |s.bindings| < 1024) && Admissible(s, E.Redeemed(s, q, id, verifier))
  }

  /** What a call about a pairing request needs of the swept and marked snapshot. */
  ghost predicate PairCallHolds(s: Snapshot, now: real, tx: Tx)
    requires tx.EnrollmentTx? && !tx.move.Asking? && tx.move.q in s.requests
  {
    var row := s.requests[tx.move.q];
    && (Issuance.Pending(row, now) || tx.move.Checking?)
    && match tx.move
       case Proving(_, signed, codeHash) => signed && row.state.Challenge? && codeHash != NONE
       case Redeeming(q, signed, id, verifier) => signed && Redeemable(s, q, id, verifier)
       case Cancelling(_, signed) => signed
       case Checking(_, signed) => signed
       case Initiating(q, presented) => Endorsable(s, tx, now, q, presented, Ready)
       case Approving(q, presented) => Endorsable(s, tx, now, q, presented, Initiated)
       case Denying(_) => ControllerSpeaks(s, tx.principal, row.binding.kind, now)
  }

  lemma RowFits(s: Snapshot, q: Id, row: Request)
    requires Schema(s) && q in s.requests
    ensures Admissible(s, E.With(s, q, row)) <==> RequestValid(row)
  {
    hide GrantsValid, GrantsBound, HasCapacity, LifecycleValid, RequestValid;
    var t := E.With(s, q, row);
    assert t.requests.Keys == s.requests.Keys;
    assert t.requests[q] == row;
    LifecycleSame(s, t);
    CapacitySame(s, t);
    SameIdentitiesValid(s.records, t.records);
  }

  lemma RowValid(s: Snapshot, q: Id)
    requires Schema(s) && q in s.requests
    ensures RequestValid(s.requests[q])
  {}

  lemma UnownedExactlyWhen(s: Snapshot, device: Subject, binding: Binding)
    ensures E.UnownedError(s, device, binding).None? <==> Unowned(s, device, binding)
  {}

  lemma ControllerExactlyWhen(s: Snapshot, principal: Option<Principal>, kind: Kind, now: real)
    ensures E.ControllerError(s, principal, kind, now).None? <==> ControllerSpeaks(s, principal, kind, now)
  {
    hide Usable;
  }

  lemma ProceedDoneExactlyWhen(s: Snapshot, principal: Option<Principal>, m: E.Move)
    requires Schema(s) && !m.Asking? && m.q in s.requests && (E.NeedsController(m) ==> principal.Some?)
    ensures var row := s.requests[m.q];
      E.Proceed(s, principal, m).reply.Done? <==>
        match m
        case Proving(_, _, codeHash) => row.state.Challenge? && codeHash != NONE
        case Redeeming(q, _, id, verifier) => Redeemable(s, q, id, verifier)
        case Cancelling(_, _) => true
        case Checking(_, _) => true
        case Initiating(_, presented) =>
          row.state.Ready? && presented != NONE && presented == row.codeHash && Unowned(s, row.device, row.binding)
        case Approving(_, presented) =>
          row.state.Initiated? && presented != NONE && presented == row.codeHash && Unowned(s, row.device, row.binding)
        case Denying(_) => true
  {
    hide Schema, Admissible, E.UnownedError, Unowned, E.Redeemed, E.Charged;
    var row := s.requests[m.q];
    RowValid(s, m.q);
    UnownedExactlyWhen(s, row.device, row.binding);
    match m
    case Proving(q, _, codeHash) => RowFits(s, q, row.(state := Ready, codeHash := codeHash));
    case Redeeming(q, _, id, verifier) =>
    case Cancelling(q, _) => RowFits(s, q, Spoil(row, RequestState.Cancelled));
    case Checking(_, _) =>
    case Initiating(q, presented) => RowFits(s, q, E.Endorsed(row, principal.value, true));
    case Approving(q, presented) => RowFits(s, q, E.Endorsed(row, principal.value, false));
    case Denying(q) => RowFits(s, q, Spoil(row, RequestState.Denied));
  }

  lemma PairDoneExactlyWhen(s: Snapshot, now: real, tx: Tx)
    requires Schema(s) && tx.EnrollmentTx? && !tx.move.Asking? && tx.move.q in s.requests
    requires forall p :: p in s.requests ==>
      (Issuance.Pending(s.requests[p], now) <==> E.Live(s, s.requests[p], now, tx.origin))
    ensures E.Pair(s, now, tx.origin, tx.principal, tx.move).reply.Done? <==> PairCallHolds(s, now, tx)
  {
    hide Schema, E.Live, E.Proceed, E.ControllerError, ControllerSpeaks, Unowned, Redeemable, E.Charged, Admissible;
    var m := tx.move;
    ControllerExactlyWhen(s, tx.principal, s.requests[m.q].binding.kind, now);
    ControllerIsSome(s, tx.principal, s.requests[m.q].binding.kind, now);
    if E.NeedsController(m) ==> tx.principal.Some? { ProceedDoneExactlyWhen(s, tx.principal, m); }
  }

  lemma ControllerIsSome(s: Snapshot, principal: Option<Principal>, kind: Kind, now: real)
    ensures ControllerSpeaks(s, principal, kind, now) ==> principal.Some?
  {}

  /** A call about a pairing request is carried out exactly when what it needs holds. */
  lemma PairCallDoneExactlyWhen(s: Snapshot, now: real, tx: Tx)
    requires Schema(s) && tx.EnrollmentTx? && !tx.move.Asking? && tx.move.q in s.requests
    ensures tx.move.q in After(s, now, tx, 2).requests
    ensures ReplyTo(s, now, tx).Done? <==> PairCallHolds(After(s, now, tx, 2), now, tx)
  {
    hide Schema, L.Sweep, E.MarkStale, E.Pair, E.Live, PairCallHolds;
    AfterSchema(s, now, tx, 2);
    Issuance.UpkeepQuiet(s, now, tx, tx.move.q);
    Guesses.MarkedLive(s, now, tx);
    PairDoneExactlyWhen(After(s, now, tx, 2), now, tx);
  }

  // ----- Opening a pairing -----

  /** The requests that an opening keeps: those not yet expired, finished ones included. */
  ghost function Kept(requests: map<Id, Request>, now: real): set<Id> {
    set q | q in requests && now.Floor as real < requests[q].expiresAt
  }

  /** What opening a request needs: `ResolvesTo` says which device id the key has. */
  ghost predicate OpenHolds(s: Snapshot, now: real, tx: Tx)
    requires tx.EnrollmentTx? && tx.move.Asking?
  {
    var m := tx.move;
    && tx.origin != NONE && s.owner.active
    && (m.binding.kind.Browser? ==> ControllerSpeaks(s, tx.principal, Browser, now))
    && |Kept(s.requests, now)| < 64
    && E.ResolvesTo(s.bindings, if m.aliased then E.Unexpired(s.requests, now) else s.requests, m.binding, m.derived,
         m.device)
    && Unowned(s, m.device, m.binding)
    && !(exists q :: q in s.requests && s.requests[q].device == m.device && Issuance.Pending(s.requests[q], now))
  }

  lemma KeptSize(requests: map<Id, Request>, now: real)
    ensures |E.Unexpired(requests, now)| == |Kept(requests, now)|
  {
    assert E.Unexpired(requests, now).Keys == Kept(requests, now);
  }

  lemma AddedRequestValid(requests: map<Id, Request>, now: real, q: Id, row: Request)
    requires EnrollmentValid(requests) && |Kept(requests, now)| < 64 && RequestValid(row)
    ensures EnrollmentValid(E.Unexpired(requests, now)[q := row])
  {
    hide Kept, RequestValid;
    KeptSize(requests, now);
    assert E.Unexpired(requests, now)[q := row].Keys == E.Unexpired(requests, now).Keys + {q};
  }

  lemma OpenedRequestsValid(s: Snapshot, now: real, origin: Id, binding: Binding, device: Subject, q: Id)
    requires EnrollmentValid(s.requests) && |Kept(s.requests, now)| < 64
    ensures EnrollmentValid(E.Opened(s, now, origin, binding, device, q).requests)
  {
    hide EnrollmentValid, Kept, E.Unexpired;
    AddedRequestValid(s.requests, now, q, E.NewRequest(s, now, origin, binding, device));
  }

  lemma OpenedLifecycleValid(s: Snapshot, now: real, origin: Id, binding: Binding, device: Subject, q: Id)
    requires LifecycleValid(s) && HasCapacity(s) && Orderly(s.operations, s.recovery)
    ensures var t := E.Opened(s, now, origin, binding, device, q); LifecycleValid(t) && HasCapacity(t)
  {
    hide E.Unexpired, Orderly, E.NewRequest;
    var t := E.Opened(s, now, origin, binding, device, q);
    if device in s.recovery {
      PointerLive(s, device);
      assert t.operations.Keys == s.operations.Keys;
      assert t.recovery.Keys == s.recovery.Keys;
      assert Unfinished(t.operations) == Unfinished(s.operations);
    }
  }

  lemma OpeningFits(s: Snapshot, now: real, origin: Id, binding: Binding, device: Subject, q: Id)
    requires Schema(s) && Orderly(s.operations, s.recovery) && |Kept(s.requests, now)| < 64
    ensures Admissible(s, E.Opened(s, now, origin, binding, device, q))
  {
    hide LifecycleValid, HasCapacity, Orderly, EnrollmentValid, GrantsValid, GrantsBound, Kept;
    OpenedRequestsValid(s, now, origin, binding, device, q);
    OpenedLifecycleValid(s, now, origin, binding, device, q);
    SameIdentitiesValid(s.records, s.records);
  }

  lemma BusyExactlyWhen(s: Snapshot, now: real, origin: Id, device: Subject)
    requires forall q :: q in s.requests ==>
      (Issuance.Pending(s.requests[q], now) <==> E.Live(s, s.requests[q], now, origin))
    ensures E.DeviceBusy(s, E.Unexpired(s.requests, now), device, now, origin) <==>
      exists q :: q in s.requests && s.requests[q].device == device && Issuance.Pending(s.requests[q], now)
  {
    hide E.Detached;
    forall q | q in s.requests && Issuance.Pending(s.requests[q], now) ensures q in E.Unexpired(s.requests, now) {}
  }

  lemma OpenDoneExactlyWhen(s: Snapshot, now: real, tx: Tx)
    requires Schema(s) && Orderly(s.operations, s.recovery) && tx.EnrollmentTx? && tx.move.Asking?
    requires forall q :: q in s.requests ==>
      (Issuance.Pending(s.requests[q], now) <==> E.Live(s, s.requests[q], now, tx.origin))
    ensures E.Pair(s, now, tx.origin, tx.principal, tx.move).reply.Done? <==> OpenHolds(s, now, tx)
  {
    hide Schema, Orderly, Admissible, E.Live, E.Opened, E.DeviceBusy, E.ResolvesTo, E.UnownedError, Unowned, Kept,
      E.Unexpired, E.ControllerError, ControllerSpeaks;
    var m := tx.move;
    KeptSize(s.requests, now);
    BusyExactlyWhen(s, now, tx.origin, m.device);
    UnownedExactlyWhen(s, m.device, m.binding);
    ControllerExactlyWhen(s, tx.principal, Browser, now);
    if |Kept(s.requests, now)| < 64 { OpeningFits(s, now, tx.origin, m.binding, m.device, m.requestId); }
  }

  /** A request is opened exactly when what that needs holds: nothing else, and never a lack of
      room in the schema, refuses it. */
  lemma OpenedExactlyWhen(s: Snapshot, now: real, tx: Tx)
    requires Inv(s) && 0.0 <= now && tx.EnrollmentTx? && tx.move.Asking?
    ensures ReplyTo(s, now, tx).Done? <==> OpenHolds(After(s, now, tx, 2), now, tx)
  {
    hide Inv, Schema, Orderly, RecoveryValid, L.Sweep, E.MarkStale, E.Pair, E.Live, OpenHolds;
    StepInv(s, now, tx, 2);
    InvSchema(After(s, now, tx, 2));
    OrderlyParts(After(s, now, tx, 2));
    Guesses.MarkedLive(s, now, tx);
    OpenDoneExactlyWhen(After(s, now, tx, 2), now, tx);
  }

  lemma InvSchema(s: Snapshot)
    requires Inv(s)
    ensures Schema(s)
  {}

  // ----- Integration enrollment -----

  ghost predicate Collectable(s: Snapshot, k: Id, id: Id, verifier: Id) {
    k in s.grants && Admissible(s, I.Issued(s, k, id, verifier))
  }

  /** What a call about an integration request needs of the swept snapshot. */
  ghost predicate GrantCallHolds(s: Snapshot, tx: Tx)
    requires tx.IntegrationTx? && tx.call.k in s.grants
  {
    var g := s.grants[tx.call.k];
    match tx.call
    case Applying(_, secret, origin, name, _, expiresAt) =>
      secret == g.secretHash && origin == tx.origin == g.origin && name == g.name && expiresAt == g.expiresAt
    case Querying(_, secret) => secret == g.secretHash
    case Collecting(k, secret, id, verifier) =>
      secret == g.secretHash && g.state.Approved? && Collectable(s, k, id, verifier)
    case Withdrawing(_, secret) => secret == g.secretHash && (g.state.Cancelled? || !TerminalGrant(g.state))
    case Saving(_, secret, verifier, saved) =>
      && saved && secret == g.secretHash && (g.state.Delivered? || g.state.Completed?)
      && exists r :: r in s.records && r.id == g.credentialId && r.verifier == verifier && verifier !in s.blocked
    case Approving(_, presented) =>
      OwnerSpeaks(s.owner, tx.principal) && (g.state.Pending? || g.state.Approved?) && presented == g.codeHash
    case Denying(_) => OwnerSpeaks(s.owner, tx.principal) && (g.state.Denied? || !TerminalGrant(g.state))
  }

  lemma GrantFits(s: Snapshot, k: Id, g: Grant)
    requires Schema(s) && k in s.grants && g.attempts <= 5 && g.credentialId == s.grants[k].credentialId
    requires g.state.Delivered? || g.state.Completed? ==> s.grants[k].state.Delivered?
    ensures Admissible(s, I.WithGrant(s, k, g))
  {
    hide EnrollmentValid, HasCapacity, LifecycleValid;
    var t := I.WithGrant(s, k, g);
    assert t.grants.Keys == s.grants.Keys;
    LifecycleSame(s, t);
    CapacitySame(s, t);
    SameIdentitiesValid(s.records, t.records);
  }

  lemma RetiredFits(s: Snapshot, ids: set<Id>)
    requires Schema(s)
    ensures Admissible(s, Retire(s, ids))
  {
    hide EnrollmentValid, GrantsValid, GrantsBound, RecordsValid, HasCapacity, RecoveryValid, OperationValid,
      IdsImmutable, Disable, VerifiersOf;
    var t := Retire(s, ids);
    RetireShape(s, ids);
    SameIdentitiesValid(s.records, t.records);
    GrantsBoundExtends(s.grants, s.records, t.records);
    CapacityKept(s, t);
  }

  lemma EndingFits(s: Snapshot, k: Id, target: GrantState)
    requires Schema(s) && k in s.grants && !target.Delivered? && !target.Completed?
    ensures var g := s.grants[k];
      Admissible(s, I.WithGrant(Retire(s, {g.credentialId}), k, g.(state := target)))
  {
    hide Schema, Disable, VerifiersOf, IdsImmutable;
    var g := s.grants[k];
    var retired := Retire(s, {g.credentialId});
    RetiredFits(s, {g.credentialId});
    assert g.attempts <= 5 by { AttemptsFew(s, k); }
    GrantFits(retired, k, g.(state := target));
  }

  lemma AttemptsFew(s: Snapshot, k: Id)
    requires Schema(s) && k in s.grants
    ensures s.grants[k].attempts <= 5
  {}

  lemma ActivationFits(s: Snapshot, k: Id)
    requires Schema(s) && k in s.grants && s.grants[k].state.Delivered?
    ensures Admissible(s, I.Activated(s, k))
  {
    hide EnrollmentValid, RecordsValid, HasCapacity, RecoveryValid, OperationValid, IdsImmutable, LifecycleValid,
      GrantsBound, GrantsValid;
    var t := I.Activated(s, k);
    var g := s.grants[k].(state := GrantState.Completed);
    AttemptsFew(s, k);
    GrantFits(s, k, g);
    EnabledSame(s.records, g.credentialId);
    SameIdentitiesValid(s.records, t.records);
    GrantsBoundExtends(t.grants, s.records, t.records);
    EnabledCapacity(I.WithGrant(s, k, g), t);
  }

  lemma EnabledSame(records: seq<Credential>, id: Id)
    ensures Extends(records, I.Enable(records, id)) && Digests(I.Enable(records, id)) == Digests(records)
  {
    var out := I.Enable(records, id);
    forall v ensures v in Digests(out) <==> v in Digests(records) {
      if v in Digests(records) {
        var i :| 0 <= i < |records| && records[i].verifier == v;
        assert out[i] in out;
      }
      if v in Digests(out) {
        var i :| 0 <= i < |out| && out[i].verifier == v;
        assert records[i] in records;
      }
    }
  }

  lemma EnabledCapacity(s: Snapshot, t: Snapshot)
    requires HasCapacity(s) && LifecycleValid(s) && t == s.(records := t.records)
    requires |t.records| == |s.records| && Digests(t.records) == Digests(s.records)
    ensures HasCapacity(t) && LifecycleValid(t)
  {
    hide Digests;
  }

  lemma ServeDoneExactlyWhen(s: Snapshot, now: real, tx: Tx)
    requires Schema(s) && tx.IntegrationTx? && tx.call.k in s.grants
    ensures I.Serve(s, now, tx.origin, tx.principal, tx.call).reply.Done? <==> GrantCallHolds(s, tx)
  {
    hide Schema, Admissible, Retire, I.Activated, I.Issued;
    var k, g := tx.call.k, s.grants[tx.call.k];
    AttemptsFew(s, k);
    if g.state.Delivered? { ActivationFits(s, k); }
    GrantFits(s, k, g.(state := GrantState.Approved));
    EndingFits(s, k, GrantState.Denied);
    EndingFits(s, k, GrantState.Cancelled);
  }

  /** A call about an integration request is carried out exactly when what it needs holds. */
  lemma GrantCallDoneExactlyWhen(s: Snapshot, now: real, tx: Tx)
    requires Schema(s) && tx.IntegrationTx? && tx.call.k in s.grants
    ensures tx.call.k in After(s, now, tx, 1).grants
    ensures ReplyTo(s, now, tx).Done? <==> GrantCallHolds(After(s, now, tx, 1), tx)
  {
    hide Schema, I.SweepGrants, I.Serve, GrantCallHolds, IdsImmutable;
    G.SweptRow(s, now, tx.origin, tx.call.k);
    SweepGrantsAdmissible(s, now, tx.origin);
    ServeDoneExactlyWhen(I.SweepGrants(s, now, tx.origin), now, tx);
  }

  /** Applying again, and acknowledging, denying or withdrawing what already was, changes nothing
      beyond the sweep. */
  lemma RepeatedGrantCallIsHarmless(s: Snapshot, now: real, tx: Tx, cut: nat)
    requires tx.IntegrationTx? && tx.call.k in s.grants
    requires var g, c := After(s, now, tx, 1).grants, tx.call;
      || c.Applying? || c.Querying?
      || (c.k in g && ((c.Saving? && g[c.k].state.Completed?) || (c.Denying? && g[c.k].state.Denied?)
                       || (c.Withdrawing? && g[c.k].state.Cancelled?)))
    ensures OnlyUpkeep(s, After(s, now, tx, cut), now, tx)
  {
    hide I.SweepGrants, E.MarkStale, OnlyUpkeep, Admissible, I.Presents;
    G.SweptRow(s, now, tx.origin, tx.call.k);
    if cut <= 2 { UpToUpkeep(s, now, tx, cut); } else { UpToUpkeep(s, now, tx, 1); }
  }

  /** Acknowledging a rotation or recovery again, too. */
  lemma RepeatedReceiptIsHarmless(s: Snapshot, now: real, tx: Tx, cut: nat)
    requires tx.LifecycleTx? && tx.command.Receipt? && tx.command.opId in s.operations
    requires var op := s.operations[tx.command.opId]; op.state.Acknowledged? || op.state.Completed?
    ensures OnlyUpkeep(s, After(s, now, tx, cut), now, tx)
    ensures tx.principal.Some? && InForce(After(s, now, tx, 1), tx.principal.value, now) ==>
      var op, p := s.operations[tx.command.opId], tx.principal.value;
      ReplyTo(s, now, tx).Done? <==>
        tx.command.saved && p.role == op.role && p.subject == op.subject && p.credentialId == op.credentialId
  {
    hide L.Sweep, OnlyUpkeep, Usable, L.Acked;
    SweptStep(s, now, tx.origin, tx.command.opId);
    if cut <= 1 { UpToUpkeep(s, now, tx, cut); } else { UpToUpkeep(s, now, tx, 1); }
  }

  // ----- Applying -----

  /** The requests that an application keeps: those that hold a credential or are in time. */
  ghost function KeptGrants(grants: map<Id, Grant>, now: real): set<Id> {
    set k | k in grants && (grants[k].credentialId != NONE || now < grants[k].expiresAt)
  }

  ghost predicate ApplyHolds(s: Snapshot, now: real, tx: Tx)
    requires tx.IntegrationTx? && tx.call.Applying?
  {
    && tx.call.origin == tx.origin && s.owner.active && now < tx.call.expiresAt <= now + 300.0
    && |KeptGrants(s.grants, now)| < 1024
    && |set k | k in KeptGrants(s.grants, now) && s.grants[k].credentialId == NONE| < 64
  }

  lemma KeptGrantsSize(grants: map<Id, Grant>, now: real)
    ensures |I.Retained(grants, now)| == |KeptGrants(grants, now)|
    ensures |I.Unissued(I.Retained(grants, now))| ==
            |set k | k in KeptGrants(grants, now) && grants[k].credentialId == NONE|
  {
    assert I.Retained(grants, now).Keys == KeptGrants(grants, now);
    assert I.Unissued(I.Retained(grants, now)) ==
           set k | k in KeptGrants(grants, now) && grants[k].credentialId == NONE;
  }

  lemma ApplicationFits(s: Snapshot, now: real, k: Id, g: Grant)
    requires Schema(s) && k !in s.grants && |KeptGrants(s.grants, now)| < 1024
    requires g.attempts == 0 && g.state.Pending? && g.credentialId == NONE
    ensures Admissible(s, s.(grants := I.Retained(s.grants, now)[k := g]))
  {
    hide EnrollmentValid, HasCapacity, LifecycleValid;
    var t := s.(grants := I.Retained(s.grants, now)[k := g]);
    KeptGrantsSize(s.grants, now);
    assert t.grants.Keys == I.Retained(s.grants, now).Keys + {k};
    LifecycleSame(s, t);
    CapacitySame(s, t);
    SameIdentitiesValid(s.records, t.records);
  }

  lemma ApplyDoneExactlyWhen(s: Snapshot, now: real, tx: Tx)
    requires Schema(s) && tx.IntegrationTx? && tx.call.Applying? && tx.call.k !in s.grants
    ensures I.Serve(s, now, tx.origin, tx.principal, tx.call).reply.Done? <==> ApplyHolds(s, now, tx)
  {
    hide Schema, Admissible, I.Retained, I.Unissued, KeptGrants, E.MarkIfStale, IdsImmutable;
    KeptGrantsSize(s.grants, now);
    var c := tx.call;
    MarkStaleAdmissible(s, now, tx.origin);
    AdmissibleSchema(s, E.MarkStale(s, now, tx.origin));
    if |KeptGrants(s.grants, now)| < 1024 {
      ApplicationFits(E.MarkStale(s, now, tx.origin), now, c.k,
        Grant(c.expiresAt, s.owner.generation, tx.origin, c.name, GrantState.Pending, 0, c.secret, c.code, NONE));
    }
  }

  lemma AdmissibleSchema(s: Snapshot, t: Snapshot)
    requires Admissible(s, t)
    ensures Schema(t)
  {}

  /** A new integration request is opened exactly when what that needs holds. */
  lemma AppliedExactlyWhen(s: Snapshot, now: real, tx: Tx)
    requires Schema(s) && tx.IntegrationTx? && tx.call.Applying? && tx.call.k !in s.grants
    ensures ReplyTo(s, now, tx).Done? <==> ApplyHolds(After(s, now, tx, 1), now, tx)
  {
    hide Schema, I.SweepGrants, I.Serve, ApplyHolds, IdsImmutable;
    G.SweptRow(s, now, tx.origin, tx.call.k);
    SweepGrantsAdmissible(s, now, tx.origin);
    ApplyDoneExactlyWhen(I.SweepGrants(s, now, tx.origin), now, tx);
  }
}
