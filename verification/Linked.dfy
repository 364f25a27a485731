/** Operations and grants only name credentials that exist and belong to their subject. */
module Linked {
  import opened Basics
  import opened Authority
  import opened Lifecycle
  import opened Records
  import opened Transitions
  import opened Upkeep
  import E = Enrollment
  import I = Integration
  import LT = Latch
  import Identity

  ghost predicate OpLinked(records: seq<Credential>, op: Operation) {
    && (exists id :: id in op.oldIds)
    && (forall id :: id in op.oldIds ==> HasRecord(records, id, op.role, op.subject))
    && (op.credentialId != NONE ==>
          HasRecord(records, op.credentialId, op.role, op.subject) && op.credentialId !in op.oldIds)
  }

  ghost predicate OpsLinked(records: seq<Credential>, operations: map<Id, Operation>) {
    forall k :: k in operations ==> OpLinked(records, operations[k])
  }

  /** An agent has credentials only once its grant issued one. */
  ghost predicate AgentsGranted(records: seq<Credential>, grants: map<Id, Grant>) {
    forall i :: 0 <= i < |records| && records[i].subject.Agent? ==>
      records[i].subject.request in grants && grants[records[i].subject.request].credentialId != NONE
  }

  ghost predicate GrantsUnissued(grants: map<Id, Grant>) {
    forall k :: k in grants && (grants[k].state.Pending? || grants[k].state.Approved?) ==>
        grants[k].credentialId == NONE
  }

  ghost predicate AllLinked(s: Snapshot) {
    OpsLinked(s.records, s.operations) && AgentsGranted(s.records, s.grants) && GrantsUnissued(s.grants)
  }

  lemma OpLinkedExtends(before: seq<Credential>, after: seq<Credential>, op: Operation)
    requires Extends(before, after) && OpLinked(before, op)
    ensures OpLinked(after, op)
  {}

  lemma SameRecordsAgents(before: seq<Credential>, after: seq<Credential>, grants: map<Id, Grant>)
    requires Extends(before, after) && |before| == |after| && AgentsGranted(before, grants)
    ensures AgentsGranted(after, grants)
  {}

  /** Operations change state at most; no credential is added and no grant is touched. */
  lemma StatesOnlyLinked(s: Snapshot, t: Snapshot)
    requires AllLinked(s) && Extends(s.records, t.records) && |t.records| == |s.records| && t.grants == s.grants
    requires forall k :: k in t.operations ==>
      k in s.operations && t.operations[k] == s.operations[k].(state := t.operations[k].state)
    ensures AllLinked(t)
  {
    hide OpLinked, Extends, HasRecord;
    SameRecordsAgents(s.records, t.records, s.grants);
    forall k | k in t.operations ensures OpLinked(t.records, t.operations[k]) {
      OpLinkedExtends(s.records, t.records, s.operations[k]);
      StateUnlinked(t.records, s.operations[k], t.operations[k].state);
    }
  }

  lemma StateUnlinked(records: seq<Credential>, op: Operation, state: OpState)
    ensures OpLinked(records, op) <==> OpLinked(records, op.(state := state))
  {}

  lemma SweepLinked(s: Snapshot, now: real, origin: Id)
    requires AllLinked(s)
    ensures AllLinked(Sweep(s, now, origin))
  {
    hide AllLinked, VerifiersOf, InvalidateApprovals, LivePointers, SweptIds;
    RetireShape(s, SweptIds(s, now, origin));
    StatesOnlyLinked(s, Sweep(s, now, origin));
  }

  lemma MatchingLinked(records: seq<Credential>, role: Role, subject: Subject)
    ensures forall id :: id in MatchingIds(records, role, subject) ==> HasRecord(records, id, role, subject)
    ensures HasMatching(records, role, subject) ==> exists id :: id in MatchingIds(records, role, subject)
  {
    if r :| r in records && Matches(r, role, subject) { assert r.id in MatchingIds(records, role, subject); }
    forall id | id in MatchingIds(records, role, subject) ensures HasRecord(records, id, role, subject) {
      var r :| r in records && Matches(r, role, subject) && r.id == id;
      var i :| 0 <= i < |records| && records[i] == r;
    }
  }

  lemma ControlledLinked(s: Snapshot, now: real, origin: Id, action: Action, opId: Id, role: Role, subject: Subject)
    requires AllLinked(s) && opId !in s.operations && HasMatching(s.records, role, subject)
    ensures AllLinked(Controlled(s, now, origin, action, opId, role, subject))
  {
    hide OpLinked, VerifiersOf, Disable, InvalidateApprovals, AbandonPairing, MatchingIds;
    var ids := MatchingIds(s.records, role, subject);
    var t := Controlled(s, now, origin, action, opId, role, subject);
    RetireShape(s, ids);
    SameRecordsAgents(s.records, t.records, s.grants);
    forall k | k in t.operations ensures OpLinked(t.records, t.operations[k]) {
      if k == opId {
        NewLinked(s, now, origin, action, role, subject);
        OpLinkedExtends(s.records, t.records, t.operations[k]);
      } else {
        OpLinkedExtends(s.records, t.records, s.operations[k]);
        StateUnlinked(t.records, s.operations[k], t.operations[k].state);
      }
    }
  }

  lemma NewLinked(s: Snapshot, now: real, origin: Id, action: Action, role: Role, subject: Subject)
    requires HasMatching(s.records, role, subject)
    ensures OpLinked(s.records, NewOperation(s, now, origin, action, role, subject))
  {
    MatchingLinked(s.records, role, subject);
  }

  /** A credential is issued to operation `k`, whose subject it is for. */
  lemma IssueLinked(s: Snapshot, t: Snapshot, k: Id, c: Credential)
    requires AllLinked(s) && k in s.operations && t.operations.Keys == s.operations.Keys && t.grants == s.grants
    requires |t.records| == |s.records| + 1 && Extends(s.records, t.records) && t.records[|s.records|] == c
    requires RecordsValid(t.records) && c.role == s.operations[k].role && c.subject == s.operations[k].subject
    requires forall j :: j in s.operations && j != k ==> t.operations[j] == s.operations[j]
    requires t.operations[k].credentialId == c.id && t.operations[k].oldIds == s.operations[k].oldIds
    requires t.operations[k].role == c.role && t.operations[k].subject == c.subject
    ensures AllLinked(t)
  {
    hide OpLinked;
    forall j | j in s.operations ensures OpLinked(t.records, s.operations[j]) {
      OpLinkedExtends(s.records, t.records, s.operations[j]);
    }
    IssuedLinked(s, t, k, c);
    AgentsIssued(s, t, k, c);
  }

  lemma IssuedLinked(s: Snapshot, t: Snapshot, k: Id, c: Credential)
    requires k in s.operations && OpLinked(s.records, s.operations[k]) && k in t.operations
    requires |t.records| == |s.records| + 1 && Extends(s.records, t.records) && t.records[|s.records|] == c
    requires RecordsValid(t.records)
    requires t.operations[k].credentialId == c.id && t.operations[k].oldIds == s.operations[k].oldIds
    requires t.operations[k].role == c.role == s.operations[k].role
    requires t.operations[k].subject == c.subject == s.operations[k].subject
    ensures OpLinked(t.records, t.operations[k])
  {}

  lemma AgentsIssued(s: Snapshot, t: Snapshot, k: Id, c: Credential)
    requires AgentsGranted(s.records, s.grants) && OpsLinked(s.records, s.operations) && k in s.operations
    requires |t.records| == |s.records| + 1 && Extends(s.records, t.records) && t.records[|s.records|] == c
    requires c.subject == s.operations[k].subject
    ensures AgentsGranted(t.records, s.grants)
  {}

  lemma ActLinked(s: Snapshot, now: real, origin: Id, principal: Option<Principal>, c: Command)
    requires AllLinked(s)
    ensures AllLinked(Act(s, now, origin, principal, c).after)
  {
    hide AllLinked, WellFormed, HasCapacity, IdsImmutable, Controlled, VerifiersOf, Disable, MatchingIds,
      RemovesLiability, AnyUsable, IsOwner, Current, InvalidateApprovals;
    var t := Act(s, now, origin, principal, c).after;
    if t != s {
      match c
      case Ordered(action, opId, role, subject) => ControlledLinked(s, now, origin, action, opId, role, subject);
      case Polling(found) => StatesOnlyLinked(s, t);
      case Inquiry(opId) =>
      case Delivery(opId, id, verifier) =>
        AdmissibleRecords(s, t);
        IssueLinked(s, t, opId, t.records[|s.records|]);
      case Receipt(opId, saved) =>
        RetireShape(s, s.operations[opId].oldIds);
        StatesOnlyLinked(s, t);
    }
  }

  lemma AdmissibleRecords(s: Snapshot, t: Snapshot)
    requires Admissible(s, t)
    ensures RecordsValid(t.records)
  {}

  lemma OpenedLinked(s: Snapshot, now: real, origin: Id, binding: Binding, device: Subject, q: Id)
    requires AllLinked(s)
    ensures AllLinked(E.Opened(s, now, origin, binding, device, q))
  {
    hide AllLinked, E.Unexpired;
    StatesOnlyLinked(s, E.Opened(s, now, origin, binding, device, q));
  }

  lemma RedeemedLinked(s: Snapshot, q: Id, id: Id, verifier: Id)
    requires AllLinked(s) && q in s.requests && s.requests[q].device.Named?
    requires RecoveryValid(s.operations, s.bindings, s.recovery)
    requires RecordsValid(E.Redeemed(s, q, id, verifier).records)
    ensures AllLinked(E.Redeemed(s, q, id, verifier))
  {
    hide OpLinked, VerifiersOf, Disable, MatchingIds, RecordsValid;
    var device := s.requests[q].device;
    var t := E.Redeemed(s, q, id, verifier);
    var c := t.records[|s.records|];
    RetireShape(s, MatchingIds(s.records, DeviceRole, device));
    assert Extends(s.records, t.records);
    if device in s.recovery && s.recovery[device].operationId in s.operations {
      IssueLinked(s, t, s.recovery[device].operationId, c);
    } else {
      forall j | j in s.operations ensures OpLinked(t.records, s.operations[j]) {
        OpLinkedExtends(s.records, t.records, s.operations[j]);
      }
      forall i | 0 <= i < |s.records| ensures t.records[i].subject == s.records[i].subject {
        assert SameIdentity(s.records[i], t.records[i]);
      }
    }
  }

  lemma PairLinked(s: Snapshot, now: real, origin: Id, principal: Option<Principal>, m: E.Move)
    requires AllLinked(s) && RecoveryValid(s.operations, s.bindings, s.recovery)
    requires Identity.DevicesNamed(s.requests, s.bindings) && RecordsValid(s.records)
    ensures AllLinked(E.Pair(s, now, origin, principal, m).after)
  {
    hide AllLinked, E.Pair, E.Opened, E.Redeemed, RecoveryValid, WellFormed, HasCapacity;
    var t := E.Pair(s, now, origin, principal, m).after;
    LT.PairShape(s, now, origin, principal, m);
    if t == s.(requests := t.requests) {
      StatesOnlyLinked(s, t);
    } else if m.Asking? {
      OpenedLinked(s, now, origin, m.binding, m.device, m.requestId);
    } else {
      RedeemedAdmissible(s, now, origin, principal, m);
      RedeemedLinked(s, m.q, m.id, m.verifier);
    }
  }

  lemma RedeemedAdmissible(s: Snapshot, now: real, origin: Id, principal: Option<Principal>, m: E.Move)
    requires m.Redeeming? && m.q in s.requests
    requires E.Pair(s, now, origin, principal,
        m).after != s.(requests := E.Pair(s, now, origin, principal, m).after.requests)
    ensures RecordsValid(E.Redeemed(s, m.q, m.id, m.verifier).records)
  {
    hide RecordsValid, HasCapacity, EnrollmentValid, LifecycleValid, GrantsValid, GrantsBound, IdsImmutable,
      E.Redeemed, E.Live, E.UnownedError;
  }

  lemma SweepGrantsLinked(s: Snapshot, now: real, origin: Id)
    requires AllLinked(s)
    ensures AllLinked(I.SweepGrants(s, now, origin))
  {
    hide OpLinked, I.LapsedIds, I.SweepGrant, VerifiersOf, Disable;
    var t := I.SweepGrants(s, now, origin);
    RetireShape(s, I.LapsedIds(s, now, origin));
    SameRecordsAgents(s.records, t.records, s.grants);
    forall k | k in t.operations ensures OpLinked(t.records, t.operations[k]) {
      OpLinkedExtends(s.records, t.records, s.operations[k]);
    }
  }

  lemma ServeLinked(s: Snapshot, now: real, origin: Id, principal: Option<Principal>, c: I.Call)
    requires AllLinked(s)
    ensures AllLinked(I.Serve(s, now, origin, principal, c).after)
  {
    hide OpsLinked, AgentsGranted, Extends, GrantsUnissued, I.Serve;
    var t := I.Serve(s, now, origin, principal, c).after;
    ServeRecords(s, now, origin, principal, c);
    ServeGrants(s, now, origin, principal, c);
    RegrantedLinked(s, t);
  }

  lemma ServeRecords(s: Snapshot, now: real, origin: Id, principal: Option<Principal>, c: I.Call)
    ensures var t := I.Serve(s, now, origin, principal, c).after;
            t.operations == s.operations && Extends(s.records, t.records)
            && (|t.records| == |s.records| || (|t.records| == |s.records| + 1
                && t.records[|s.records|].subject == Agent(c.k)
                                               && c.k in t.grants && t.grants[c.k].credentialId != NONE))
  {
    hide I.Serve, VerifiersOf, LT.GrantsMove, I.Presents, RecordsValid, EnrollmentValid, LifecycleValid,
      GrantsBound, HasCapacity, IdsImmutable;
    LT.ServeShape(s, now, origin, principal, c);
  }

  lemma ServeGrants(s: Snapshot, now: real, origin: Id, principal: Option<Principal>, c: I.Call)
    requires GrantsUnissued(s.grants)
    ensures var t := I.Serve(s, now, origin, principal, c).after;
            GrantsUnissued(t.grants)
            && forall k :: k in s.grants && s.grants[k].credentialId != NONE ==>
                k in t.grants && t.grants[k].credentialId != NONE
  {
    hide I.Serve, VerifiersOf, Disable, I.Presents, Admissible, I.Enable;
    LT.ServeShape(s, now, origin, principal, c);
  }

  lemma RegrantedLinked(s: Snapshot, t: Snapshot)
    requires AllLinked(s) && t.operations == s.operations && Extends(s.records, t.records) && GrantsUnissued(t.grants)
    requires forall k :: k in s.grants && s.grants[k].credentialId != NONE ==>
        k in t.grants && t.grants[k].credentialId != NONE
    requires forall i :: |s.records| <= i < |t.records| && t.records[i].subject.Agent? ==>
      t.records[i].subject.request in t.grants && t.grants[t.records[i].subject.request].credentialId != NONE
    ensures AllLinked(t)
  {
    hide OpLinked;
    forall k | k in t.operations ensures OpLinked(t.records, t.operations[k]) {
      OpLinkedExtends(s.records, t.records, s.operations[k]);
    }
    forall i | 0 <= i < |s.records| ensures t.records[i].subject == s.records[i].subject {
      assert SameIdentity(s.records[i], t.records[i]);
    }
  }
}
