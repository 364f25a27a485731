/** The credential store as the services use it: fields changed in place inside a transaction,
    then flushed to the file or reloaded from it. Every method is proved against the function
    on snapshots that the theorems are about. */
module Store {
  import opened Basics
  import opened Authority
  import opened Records
  import opened Transitions
  import opened Upkeep
  import L = Lifecycle
  import E = Enrollment
  import I = Integration
  import Expiry
  import LT = Latch

  /** A durable write succeeds, fails before the rename, or fails after it (the directory
      sync), when the new file is already visible. */
  datatype Write = Written | FailedBefore | FailedAfter

  lemma RetireTwice(s: Snapshot, a: set<Id>, b: set<Id>)
    ensures Retire(Retire(s, a), b) == Retire(s, a + b)
  {}

  lemma SomeMember(s: set<Id>)
    ensures s == {} || exists k :: k in s
  {
    if forall k :: k !in s { assert s == {}; }
  }

  // ----- The sweep half way -----

  /** All operations but those still to do are swept, and `retired` is what the swept ones
      exposed. */
  ghost predicate SweptBut(before: map<Id, Operation>, after: map<Id, Operation>, todo: set<Id>, retired: set<Id>,
                           generation: Id, now: real, origin: Id)
  {
    && todo <= before.Keys == after.Keys
    && (forall k :: k in todo ==> after[k] == before[k])
    && (forall k :: k in after && k !in todo ==> after[k] == L.SweepOp(before[k], generation, now, origin))
    && (forall id :: id in retired <==> ExposedIn(before, before.Keys - todo, id, generation, now, origin))
  }

  ghost predicate ExposedIn(operations: map<Id, Operation>, done: set<Id>, id: Id, generation: Id, now: real,
                            origin: Id)
    requires done <= operations.Keys
  {
    exists k :: k in done && L.Due(operations[k], generation, now, origin) && id in L.Exposed(operations[k])
  }

  lemma SweptNext(before: map<Id, Operation>, after: map<Id, Operation>, todo: set<Id>, retired: set<Id>, k: Id,
                  generation: Id, now: real, origin: Id)
    requires SweptBut(before, after, todo, retired, generation, now, origin) && k in todo
    ensures k in after && after[k] == before[k]
    ensures SweptBut(before, after[k := L.SweepOp(after[k], generation, now, origin)], todo - {k},
              retired + (if L.Due(after[k], generation, now, origin) then L.Exposed(after[k]) else {}),
              generation, now, origin)
    ensures after[k := after[k]] == after
  {
    hide L.SweepOp, L.Due, L.Exposed;
    assert before.Keys - (todo - {k}) == before.Keys - todo + {k};
  }

  lemma SweptRow(row: Operation, generation: Id, now: real, origin: Id)
    ensures row.state.Acknowledged? ==> !L.Due(row, generation, now, origin)
    ensures L.SweepOp(row, generation, now, origin) ==
            if row.state.Acknowledged? then row.(state := OpState.Completed)
            else if L.Due(row, generation, now, origin) then row.(state := OpState.Expired)
            else row
  {}

  lemma SweptAll(s: Snapshot, after: map<Id, Operation>, retired: set<Id>, now: real, origin: Id)
    requires SweptBut(s.operations, after, {}, retired, s.owner.generation, now, origin)
    ensures after == L.SweepOps(s.operations, s.owner.generation, now, origin)
    ensures retired == L.SweptIds(s, now, origin)
  {
    hide L.SweepOp, L.Due, L.Exposed;
    assert s.operations.Keys - {} == s.operations.Keys;
    forall k | k in after ensures after[k] == L.SweepOps(s.operations, s.owner.generation, now, origin)[k] {}
    forall id ensures id in retired <==> id in L.SweptIds(s, now, origin) {}
  }

  class CredentialStore {
    var disk: Snapshot
    var records: seq<Credential>
    var owner: Owner
    var requests: map<Id, Request>
    var operations: map<Id, Operation>
    var blocked: set<Id>
    var bindings: map<Subject, Binding>
    var recovery: map<Subject, Recovery>
    var grants: map<Id, Grant>

    function View(): Snapshot
      reads this
    {
      Snapshot(records, owner, requests, operations, blocked, bindings, recovery, grants)
    }

    /** Outside a transaction memory holds what the file holds, and the file is valid. */
    ghost predicate Valid()
      reads this
    {
      View() == disk && Schema(disk)
    }

    method Load()
      modifies this
      ensures disk == old(disk) && View() == disk
    {
      records, owner, requests, operations := disk.records, disk.owner, disk.requests, disk.operations;
      blocked, bindings, recovery, grants := disk.blocked, disk.bindings, disk.recovery, disk.grants;
    }

    constructor (file: Snapshot)
      requires Schema(file)
      ensures Valid() && disk == file
    {
      disk := file;
      new;
      Load();
    }

    /** Validate what was staged and write it, or go back to what the file holds. Whatever
        happens, the file holds the whole old or the whole new snapshot and memory equals it. */
    method Flush(write: Write) returns (reply: Reply)
      requires Schema(disk)
      modifies this
      ensures Valid()
      ensures disk == if write.FailedBefore? then old(disk) else Commit(old(disk), old(View())).after
      ensures write.Written? ==> reply == Commit(old(disk), old(View())).reply
      ensures !write.Written? ==> reply.Refuse?
    {
      hide WellFormed, HasCapacity, IdsImmutable;
      if !Admissible(disk, View()) {
        reply := if IdsImmutable(disk.records, records) && WellFormed(View()) then Refuse(OverCapacity)
            else Refuse(Corrupt);
        if !write.Written? { reply := Refuse(Interrupted); }
        Load();
      } else {
        match write
        case Written => disk := View(); reply := Done;
        case FailedBefore => Load(); reply := Refuse(Interrupted);
        case FailedAfter => disk := View(); Load(); reply := Refuse(Interrupted);
      }
    }

    /** Only the holder of a token that no tombstone covers is let in, and gets the identity
        that the token was issued for. */
    method Authenticate(digest: Id, now: real) returns (p: Option<Principal>)
      requires RecordsValid(records)
      ensures p.Some? <==> exists r :: r in records && r.verifier == digest && Usable(View(), r, now)
      ensures p.Some? ==> Current(View(), p.value, now) && p.value.generation == digest
      ensures digest in blocked ==> p.None?
    {
      hide RecordsValid;
      p := None;
      var i := 0;
      while i < |records|
        invariant 0 <= i <= |records|
        invariant p.None?
        invariant forall j :: 0 <= j < i ==> records[j].verifier != digest || !Usable(View(), records[j], now)
      {
        var r := records[i];
        if r.verifier == digest && Usable(View(), r, now) {
          p := Some(Principal(r.role, r.subject, r.id, r.verifier));
          return;
        }
        i := i + 1;
      }
    }

    // ---- Retirement and approvals ----

    method RetireIds(ids: set<Id>)
      modifies `records, `blocked
      ensures View() == Retire(old(View()), ids)
    {
      var i := 0;
      while i < |records|
        invariant 0 <= i <= |records| == |old(records)|
        invariant forall j :: 0 <= j < i ==> records[j] == DisabledIf(old(records)[j], ids)
        invariant forall j :: i <= j < |records| ==> records[j] == old(records)[j]
        invariant blocked == old(blocked) + VerifiersOf(old(records)[..i], ids)
      {
        var r := records[i];
        assert old(records)[..i + 1] == old(records)[..i] + [r];
        if r.id in ids {
          blocked := blocked + {r.verifier};
          records := records[i := r.(enabled := false)];
        }
        i := i + 1;
      }
      assert old(records)[..i] == old(records);
      assert records == Disable(old(records), ids);
    }

    method InvalidateApprovalsOf(ids: set<Id>)
      modifies `requests
      ensures requests == InvalidateApprovals(old(requests), ids)
    {
      var todo := requests.Keys;
      while todo != {}
        invariant todo <= old(requests).Keys == requests.Keys
        invariant forall k :: k in todo ==> requests[k] == old(requests)[k]
        invariant forall k :: k in requests && k !in todo ==> requests[k] == Disavow(old(requests)[k], ids)
        decreases todo
      {
        SomeMember(todo);
        var k :| k in todo;
        var row := requests[k];
        if !TerminalRequest(row.state) && (Names(row.initiator, ids) || Names(row.approver, ids)) {
          requests := requests[k := Spoil(row, RequestState.Stale)];
        }
        todo := todo - {k};
      }
      forall k | k in requests ensures requests[k] == InvalidateApprovals(old(requests), ids)[k] {}
    }

    // ---- Lifecycle ----

    /** An overdue operation ends, and withdraws what it exposes. */
    method Expire(k: Id, ghost s: Snapshot, ghost retired: set<Id>)
      requires k in operations && View() == Retire(s, retired).(operations := operations)
      modifies `operations, `records, `blocked
      ensures View() == Retire(s, retired + L.Exposed(old(operations)[k])).(operations := operations)
      ensures operations == old(operations)[k := old(operations)[k].(state := OpState.Expired)]
    {
      hide Retire;
      var ids := L.Exposed(operations[k]);
      RetireTwice(s, retired, ids);
      RetireFrames(s, retired, ids, operations);
      RetireIds(ids);
      operations := operations[k := operations[k].(state := OpState.Expired)];
    }

    /** The operations part of the sweep: one pass, retiring as it goes. */
    method SweepOperations(now: real, origin: Id) returns (retired: set<Id>)
      modifies `operations, `records, `blocked
      ensures retired == L.SweptIds(old(View()), now, origin)
      ensures View() == Retire(old(View()), retired).(operations := L.SweepOps(old(operations), owner.generation,
          now, origin))
    {
      hide Retire, L.SweepOp, L.SweepOps, L.SweptIds;
      ghost var s := View();
      retired := {};
      LT.RetireNothing(s);
      var todo := operations.Keys;
      while todo != {}
        invariant SweptBut(s.operations, operations, todo, retired, owner.generation, now, origin)
        invariant View() == Retire(s, retired).(operations := operations)
        decreases todo
      {
        hide SweptBut, L.Exposed;
        SomeMember(todo);
        var k :| k in todo;
        SweptNext(s.operations, operations, todo, retired, k, owner.generation, now, origin);
        var row := operations[k];
        SweptRow(row, owner.generation, now, origin);
        if row.state.Acknowledged? {
          operations := operations[k := row.(state := OpState.Completed)];
        } else if L.Due(row, owner.generation, now, origin) {
          var ids := L.Exposed(row);
          Expire(k, s, retired);
          retired := retired + ids;
        }
        todo := todo - {k};
      }
      SweptAll(s, operations, retired, now, origin);
    }

    method DropFinishedPointers()
      modifies `recovery
      ensures recovery == L.LivePointers(old(recovery), operations)
    {
      var todo := recovery.Keys;
      while todo != {}
        invariant todo <= old(recovery).Keys
        invariant recovery.Keys <= old(recovery).Keys && todo <= recovery.Keys
        invariant forall d :: d in recovery ==> recovery[d] == old(recovery)[d]
        invariant forall d :: d in old(recovery) && d !in todo ==>
            (d in recovery <==> d in L.LivePointers(old(recovery), operations))
        decreases todo
      {
        SomeSubject(todo);
        var d :| d in todo;
        var k := recovery[d].operationId;
        if k !in operations || TerminalOp(operations[k].state) {
          recovery := recovery - {d};
        }
        todo := todo - {d};
      }
      forall d | d in recovery ensures recovery[d] == L.LivePointers(old(recovery), operations)[d] {}
      assert recovery.Keys == L.LivePointers(old(recovery), operations).Keys;
    }

    /** Ends overdue operations and withdraws what they expose, and writes only if that
        changed anything. A failed write leaves the old or the swept snapshot. */
    method Sweep(now: real, origin: Id, write: Write) returns (ok: bool)
      requires Valid()
      modifies this
      ensures Valid()
      ensures disk == old(disk) || disk == L.Sweep(old(disk), now, origin)
      ensures ok ==> disk == L.Sweep(old(disk), now, origin)
      ensures write.Written? ==> ok
    {
      hide Schema, Retire, L.SweptIds, L.SweepOps, L.LivePointers, InvalidateApprovals;
      SweepAdmissible(disk, now, origin);
      var retired := SweepOperations(now, origin);
      DropFinishedPointers();
      InvalidateApprovalsOf(retired);
      SweepStaged(old(disk), now, origin, View());
      ok := true;
      if View() != disk {
        var reply := Flush(write);
        ok := reply == Done;
      }
    }

    // ---- Owner control ----

    method RevokeActiveFor(subject: Subject)
      modifies `operations
      ensures operations == L.RevokeActive(old(operations), subject)
    {
      var todo := operations.Keys;
      while todo != {}
        invariant todo <= old(operations).Keys == operations.Keys
        invariant forall k :: k in todo ==> operations[k] == old(operations)[k]
        invariant forall k :: k in operations && k !in todo ==>
            operations[k] == L.RevokeActive(old(operations), subject)[k]
        decreases todo
      {
        SomeMember(todo);
        var k :| k in todo;
        if L.ActiveFor(operations[k], subject) {
          operations := operations[k := operations[k].(state := OpState.Revoked)];
        }
        todo := todo - {k};
      }
      forall k | k in operations ensures operations[k] == L.RevokeActive(old(operations), subject)[k] {}
    }

    method AbandonPairingOf(device: Subject)
      modifies `requests
      ensures requests == L.AbandonPairing(old(requests), device)
    {
      var todo := requests.Keys;
      while todo != {}
        invariant todo <= old(requests).Keys == requests.Keys
        invariant forall k :: k in todo ==> requests[k] == old(requests)[k]
        invariant forall k :: k in requests && k !in todo ==> requests[k] == L.AbandonPairing(old(requests), device)[k]
        decreases todo
      {
        SomeMember(todo);
        var k :| k in todo;
        if requests[k].device == device && !TerminalRequest(requests[k].state) {
          requests := requests[k := Spoil(requests[k], RequestState.Stale)];
        }
        todo := todo - {k};
      }
      forall k | k in requests ensures requests[k] == L.AbandonPairing(old(requests), device)[k] {}
    }

    /** An order of the owner, once the sweep is done. */
    method OrderRow(now: real, origin: Id, action: Action, opId: Id, role: Role, subject: Subject, write: Write)
      returns (reply: Reply)
      requires Valid()
      modifies this
      ensures var e := L.Control(old(disk), now, origin, action, opId, role, subject);
        && Valid() && (disk == old(disk) || disk == e.after)
        && (!write.FailedBefore? ==> disk == e.after)
        && (write.Written? ==> reply == e.reply)
    {
      hide Schema, L.Controlled, L.MatchingIds, L.RemovesLiability, L.AnyUsable, L.HasMatching,
        L.HasActive, Commit;
      if role.OwnerRole? { return Refuse(InvalidRequest); }
      if opId in operations {
        var existing := operations[opId];
        return if existing.action == action && existing.role == role && existing.subject == subject then Done
            else Refuse(Conflict);
      }
      if !L.HasMatching(records, role, subject) { return Refuse(NotFound); }
      if |operations| >= LIMIT && !(action.Revoke?
          && L.RemovesLiability(View(), role, subject)) { return Refuse(OverCapacity); }
      if action.Rotate? && (L.HasActive(operations, subject)
          || !L.AnyUsable(View(), role, subject, now)) { return Refuse(Conflict); }
      if action.Recover? && (!role.DeviceRole? || subject !in bindings) { return Refuse(RecoveryUnavailable); }
      StageOrder(now, origin, action, opId, role, subject);
      reply := Flush(write);
    }

    /** Stages what an admitted order does, without writing it. */
    method StageOrder(now: real, origin: Id, action: Action, opId: Id, role: Role, subject: Subject)
      modifies this
      ensures disk == old(disk) && View() == L.Controlled(old(View()), now, origin, action, opId, role, subject)
    {
      hide VerifiersOf, Disable, InvalidateApprovals, L.AbandonPairing, L.RevokeActive, L.MatchingIds;
      var row := L.NewOperation(View(), now, origin, action, role, subject);
      if !action.Rotate? {
        var ids := L.MatchingIds(records, role, subject);
        RetireIds(ids);
        InvalidateApprovalsOf(ids);
        RevokeActiveFor(subject);
        recovery := if action.Revoke? then recovery - {subject} else recovery[subject := Recovery(opId, NONE)];
        AbandonPairingOf(subject);
      }
      operations := operations[opId := row];
    }

    method Order(now: real, origin: Id, principal: Option<Principal>, action: Action, opId: Id, role: Role,
                 subject: Subject,
                 w1: Write, w2: Write) returns (reply: Reply)
      requires Valid()
      modifies this
      ensures Valid()
      ensures var tx := LifecycleTx(origin, principal, L.Ordered(action, opId, role, subject));
        && CutShort(old(disk), disk, now, tx)
        && (w1.Written? && w2.Written? ==> disk == After(old(disk), now, tx, 2) && reply == ReplyTo(old(disk), now, tx))
    {
      hide Schema, L.Sweep, L.Control, IsOwner, Current;
      ghost var tx := LifecycleTx(origin, principal, L.Ordered(action, opId, role, subject));
      ghost var start := disk;
      var swept := Sweep(now, origin, w1);
      assert disk == After(start, now, tx, 0) || disk == After(start, now, tx, 1);
      if !swept { return Refuse(Interrupted); }
      if principal.None? { return Refuse(Unauthorized); }
      var owned := IsOwner(View(), principal.value);
      if !owned && !Current(View(), principal.value, now) { return Refuse(Unauthorized); }
      if !owned { return Refuse(Forbidden); }
      reply := OrderRow(now, origin, action, opId, role, subject, w2);
      assert disk == After(start, now, tx, 0) || disk == After(start, now, tx, 1) || disk == After(start, now, tx, 2);
    }

    // ---- The subject's side ----

    method FindRotation(p: Principal) returns (found: Option<Id>)
      ensures L.FindsRotation(View(), p, found)
    {
      found := None;
      var todo := operations.Keys;
      while todo != {}
        invariant todo <= operations.Keys
        invariant found.None? && forall k :: k in operations && k !in todo ==> !L.LiveRotation(operations[k], p)
        decreases todo
      {
        SomeMember(todo);
        var k :| k in todo;
        if L.LiveRotation(operations[k], p) { return Some(k); }
        todo := todo - {k};
      }
    }

    method Poll(now: real, origin: Id, principal: Option<Principal>, w1: Write, w2: Write)
      returns (reply: Reply, found: Option<Id>)
      requires Valid()
      modifies this
      ensures Valid()
      ensures var tx := LifecycleTx(origin, principal, L.Polling(found));
        && CutShort(old(disk), disk, now, tx)
        && (w1.Written? && w2.Written? ==>
              Faithful(old(disk), now, tx) && disk == After(old(disk), now, tx, 2)
                  && reply == ReplyTo(old(disk), now, tx))
    {
      hide Schema, L.Sweep, IsOwner, Current, Commit, L.LiveRotation;
      ghost var start := disk;
      found := None;
      var swept := Sweep(now, origin, w1);
      assert disk == After(start, now, LifecycleTx(origin, principal, L.Polling(found)), 0)
             || disk == After(start, now, LifecycleTx(origin, principal, L.Polling(found)), 1);
      if !swept { return Refuse(Interrupted), None; }
      if principal.None? { return Refuse(Unauthorized), None; }
      found := FindRotation(principal.value);
      assert disk == After(start, now, LifecycleTx(origin, principal, L.Polling(found)), 1);
      if !IsOwner(View(), principal.value) && !Current(View(), principal.value, now) { return Refuse(Unauthorized),
          found; }
      if principal.value.role.OwnerRole? { return Refuse(Forbidden), found; }
      reply := Done;
      if found.Some? && operations[found.value].state.Queued? {
        operations := operations[found.value := operations[found.value].(state := OpState.Pending)];
        reply := Flush(w2);
        assert w2.FailedBefore? || disk == After(start, now, LifecycleTx(origin, principal, L.Polling(found)), 2);
      }
    }

    method Deliver(now: real, origin: Id, principal: Option<Principal>, k: Id, id: Id, verifier: Id, w1: Write,
                   w2: Write)
      returns (reply: Reply)
      requires Valid()
      modifies this
      ensures Valid()
      ensures var tx := LifecycleTx(origin, principal, L.Delivery(k, id, verifier));
        && CutShort(old(disk), disk, now, tx)
        && (w1.Written? && w2.Written? ==> disk == After(old(disk), now, tx, 2) && reply == ReplyTo(old(disk), now, tx))
    {
      hide Schema, L.Sweep, IsOwner, Current, Commit;
      ghost var tx := LifecycleTx(origin, principal, L.Delivery(k, id, verifier));
      ghost var start := disk;
      var swept := Sweep(now, origin, w1);
      assert disk == After(start, now, tx, 0) || disk == After(start, now, tx, 1);
      if !swept { return Refuse(Interrupted); }
      if principal.None? { return Refuse(Unauthorized); }
      var p := principal.value;
      if !IsOwner(View(), p) && !Current(View(), p, now) { return Refuse(Unauthorized); }
      if k !in operations { return Refuse(NotFound); }
      var row := operations[k];
      if p.role != row.role || p.subject != row.subject { return Refuse(Forbidden); }
      if !row.state.Pending? || !row.action.Rotate? { return Refuse(Unavailable); }
      if |records| >= LIMIT { return Refuse(OverCapacity); }
      row := row.(state := OpState.Delivered, credentialId := id,
          overlapUntil := L.Min(now + L.OVERLAP_SECONDS, row.expiresAt));
      operations := operations[k := row];
      records := records + [Credential(id, p.role, p.subject, verifier, true)];
      reply := Flush(w2);
      assert w2.FailedBefore? || disk == After(start, now, tx, 2);
    }

    method Acknowledge(now: real, origin: Id, principal: Option<Principal>, k: Id, saved: bool, w1: Write, w2: Write)
      returns (reply: Reply)
      requires Valid()
      modifies this
      ensures Valid()
      ensures var tx := LifecycleTx(origin, principal, L.Receipt(k, saved));
        && CutShort(old(disk), disk, now, tx)
        && (w1.Written? && w2.Written? ==> disk == After(old(disk), now, tx, 2) && reply == ReplyTo(old(disk), now, tx))
    {
      hide Schema, L.Sweep, IsOwner, Current, Commit, VerifiersOf, Disable, InvalidateApprovals;
      ghost var tx := LifecycleTx(origin, principal, L.Receipt(k, saved));
      ghost var start := disk;
      var swept := Sweep(now, origin, w1);
      assert disk == After(start, now, tx, 0) || disk == After(start, now, tx, 1);
      if !swept { return Refuse(Interrupted); }
      if principal.None? { return Refuse(Unauthorized); }
      var p := principal.value;
      if !IsOwner(View(), p) && !Current(View(), p, now) { return Refuse(Unauthorized); }
      if k !in operations { return Refuse(NotFound); }
      var row := operations[k];
      if p.role != row.role || p.subject != row.subject { return Refuse(Forbidden); }
      if !saved || p.credentialId != row.credentialId { return Refuse(InvalidAck); }
      if row.state.Acknowledged? || row.state.Completed? { return Done; }
      if !row.state.Delivered? { return Refuse(Unavailable); }
      RetireIds(row.oldIds);
      InvalidateApprovalsOf(row.oldIds);
      operations := operations[k := row.(state := OpState.Acknowledged)];
      reply := Flush(w2);
      assert w2.FailedBefore? || disk == After(start, now, tx, 2);
    }

    // ---- Pairing ----

    /** Makes stale requests durably so, and writes only if there are any. */
    method MarkStale(now: real, origin: Id, write: Write) returns (ok: bool)
      requires Valid()
      modifies this
      ensures Valid()
      ensures disk == old(disk) || disk == E.MarkStale(old(disk), now, origin)
      ensures ok ==> disk == E.MarkStale(old(disk), now, origin)
      ensures write.Written? ==> ok
    {
      hide Schema, Admissible, Commit, IdsImmutable, E.Detached;
      ghost var s := View();
      MarkStaleAdmissible(s, now, origin);
      var seen := View();
      var changed := false;
      var todo := requests.Keys;
      while todo != {}
        invariant todo <= s.requests.Keys == requests.Keys && View() == s.(requests := requests) && disk == s
            && seen == s
        invariant forall k :: k in todo ==> requests[k] == s.requests[k]
        invariant forall k :: k in requests && k !in todo ==>
            requests[k] == E.MarkIfStale(s, s.requests[k], now, origin)
        invariant !changed ==> requests == s.requests
        decreases todo
      {
        SomeMember(todo);
        var k :| k in todo;
        var row := requests[k];
        if !TerminalRequest(row.state) && now < row.expiresAt && E.Detached(seen, row, now, origin) {
          requests := requests[k := Spoil(row, RequestState.Stale)];
          changed := true;
        }
        todo := todo - {k};
      }
      forall k | k in requests ensures requests[k] == E.MarkStale(s, now, origin).requests[k] {}
      assert View() == E.MarkStale(s, now, origin);
      ok := true;
      if changed {
        var reply := Flush(write);
        ok := reply == Done;
      }
    }

    method DropExpired(now: real)
      modifies `requests
      ensures requests == E.Unexpired(old(requests), now)
    {
      var kept := map[];
      var todo := requests.Keys;
      while todo != {}
        invariant todo <= requests.Keys && requests == old(requests)
        invariant forall k :: k in kept ==> k in requests && k !in todo && kept[k] == requests[k]
        invariant forall k :: k in requests && k !in todo ==> (k in kept <==> now.Floor as real < requests[k].expiresAt)
        decreases todo
      {
        SomeMember(todo);
        var k :| k in todo;
        if now.Floor as real < requests[k].expiresAt { kept := kept[k := requests[k]]; }
        todo := todo - {k};
      }
      forall k ensures k in kept <==> k in E.Unexpired(old(requests), now) {}
      forall k | k in kept ensures kept[k] == E.Unexpired(old(requests), now)[k] {}
      requests := kept;
    }

    /** The device id of a key: every binding is looked at, since two are a conflict, and the
        first pending request with the key decides when there is none. */
    method FindDevice(pool: map<Id, Request>, binding: Binding, derived: Id) returns (device: Option<Subject>)
      ensures device.Some? ==> E.ResolvesTo(bindings, pool, binding, derived, device.value)
      ensures device.None? ==> forall d :: !E.ResolvesTo(bindings, pool, binding, derived, d)
    {
      device := None;
      var left := bindings.Keys;
      while left != {}
        invariant left <= bindings.Keys
        invariant device.Some? ==>
          device.value in bindings && device.value !in left && bindings[device.value] == binding
        invariant forall d :: d in bindings && d !in left && bindings[d] == binding ==> device == Some(d)
        decreases left
      {
        SomeSubject(left);
        var d :| d in left;
        if bindings[d] == binding {
          if device.Some? {
            assert device.value != d;
            return None;
          }
          device := Some(d);
        }
        left := left - {d};
      }
      if device.Some? { return; }
      var todo := pool.Keys;
      while todo != {}
        invariant todo <= pool.Keys
        invariant forall k :: k in pool && k !in todo ==> pool[k].binding != binding
        decreases todo
      {
        SomeMember(todo);
        var k :| k in todo;
        if pool[k].binding == binding { return Some(pool[k].device); }
        todo := todo - {k};
      }
      device := Some(Named(derived));
    }

    /** What every pairing call starts with. */
    method Prepare(now: real, origin: Id, w1: Write, w2: Write) returns (ok: bool)
      requires Valid()
      modifies this
      ensures Valid()
      ensures disk == old(disk) || disk == L.Sweep(old(disk), now, origin)
          || disk == E.MarkStale(L.Sweep(old(disk), now, origin), now, origin)
      ensures ok ==> disk == E.MarkStale(L.Sweep(old(disk), now, origin), now, origin)
      ensures w1.Written? && w2.Written? ==> ok
    {
      hide Schema, L.Sweep, E.MarkStale;
      ok := Sweep(now, origin, w1);
      if ok { ok := MarkStale(now, origin, w2); }
    }

    /** Stages a new request; an open recovery of the device starts over with it. */
    method StageOpening(now: real, origin: Id, binding: Binding, device: Subject, q: Id)
      modifies this
      ensures disk == old(disk) && View() == E.Opened(old(View()), now, origin, binding, device, q)
    {
      hide E.Unexpired;
      var row := E.NewRequest(View(), now, origin, binding, device);
      DropExpired(now);
      if device in recovery && recovery[device].operationId in operations {
        var k := recovery[device].operationId;
        recovery := recovery[device := Recovery(k, q)];
        operations := operations[k := operations[k].(state := OpState.Pending)];
      }
      requests := requests[q := row];
    }

    method Open(now: real, origin: Id, binding: Binding, derived: Id, aliased: bool, q: Id, write: Write)
      returns (reply: Reply, ghost device: Subject)
      requires Valid()
      modifies this
      ensures Valid()
      ensures var e := E.Open(old(disk), now, origin, binding, derived, device, aliased, q);
        && (disk == old(disk) || disk == e.after)
        && (write.Written? ==> disk == e.after && reply == e.reply)
    {
      hide Schema, Admissible, Commit, E.Opened, E.UnownedError, E.DeviceBusy, E.ResolvesTo, E.Unexpired;
      device := Named(derived);
      if origin == NONE || !owner.active { return Refuse(Unavailable), device; }
      var stored := requests;
      DropExpired(now);
      var kept := requests;
      requests := stored;
      if |kept| >= MAX_REQUESTS { return Refuse(OverCapacity), device; }
      var resolved := FindDevice(if aliased then kept else stored, binding, derived);
      if resolved.None? { return Refuse(Conflict), device; }
      device := resolved.value;
      var owned := E.UnownedError(View(), resolved.value, binding);
      if owned.Some? { return Refuse(owned.value), device; }
      if E.DeviceBusy(View(), kept, resolved.value, now, origin) { return Refuse(Conflict), device; }
      StageOpening(now, origin, binding, resolved.value, q);
      reply := Flush(write);
    }

    method Ask(now: real, origin: Id, principal: Option<Principal>, binding: Binding, derived: Id, aliased: bool, q: Id,
               w1: Write, w2: Write, w3: Write)
      returns (reply: Reply, ghost device: Subject)
      requires Valid()
      modifies this
      ensures Valid()
      ensures var tx := EnrollmentTx(origin, principal, E.Asking(binding, derived, device, aliased, q));
        && CutShort(old(disk), disk, now, tx)
        && (w1.Written? && w2.Written? && w3.Written? ==>
            disk == After(old(disk), now, tx, 3) && reply == ReplyTo(old(disk), now, tx))
    {
      hide Schema, L.Sweep, E.MarkStale, E.ControllerError, E.Open;
      ghost var start := disk;
      device := Named(derived);
      var ok := Prepare(now, origin, w1, w2);
      ghost var tx0 := EnrollmentTx(origin, principal, E.Asking(binding, derived, device, aliased, q));
      assert disk == After(start, now, tx0, 0) || disk == After(start, now, tx0, 1)
          || disk == After(start, now, tx0, 2);
      if !ok { return Refuse(Interrupted), device; }
      if binding.kind.Browser? {
        var refused := E.ControllerError(View(), principal, Browser, now);
        if refused.Some? { return Refuse(refused.value), device; }
      }
      reply, device := Open(now, origin, binding, derived, aliased, q, w3);
      ghost var tx := EnrollmentTx(origin, principal, E.Asking(binding, derived, device, aliased, q));
      assert disk == After(start, now, tx, 2) || disk == After(start, now, tx, 3);
    }

    method StageRedemption(q: Id, id: Id, verifier: Id)
      requires q in requests
      modifies this
      ensures disk == old(disk) && View() == E.Redeemed(old(View()), q, id, verifier)
    {
      hide VerifiersOf, Disable, L.MatchingIds;
      var row := requests[q];
      bindings := bindings[row.device := row.binding];
      RetireIds(L.MatchingIds(records, DeviceRole, row.device));
      records := records + [Credential(id, DeviceRole, row.device, verifier, true)];
      if row.device in recovery && recovery[row.device].operationId in operations {
        var k := recovery[row.device].operationId;
        operations := operations[k := operations[k].(state := OpState.Delivered, credentialId := id,
            overlapUntil := operations[k].expiresAt)];
      }
      requests := requests[q := row.(state := Consumed)];
    }

    /** Redemption: bind the key, retire every older credential of the device, issue the new
        one, deliver it to an open recovery, and consume the request, in one commit. */
    method Redeem(now: real, origin: Id, principal: Option<Principal>, q: Id, signed: bool, id: Id, verifier: Id,
                  w1: Write, w2: Write, w3: Write)
      returns (reply: Reply)
      requires Valid()
      modifies this
      ensures Valid()
      ensures var tx := EnrollmentTx(origin, principal, E.Redeeming(q, signed, id, verifier));
        && CutShort(old(disk), disk, now, tx)
        && (w1.Written? && w2.Written? && w3.Written? ==>
            disk == After(old(disk), now, tx, 3) && reply == ReplyTo(old(disk), now, tx))
    {
      hide Schema, Admissible, L.Sweep, E.MarkStale, Commit, E.Redeemed, E.UnownedError, E.Detached,
        E.Open, E.Confirm;
      ghost var tx := EnrollmentTx(origin, principal, E.Redeeming(q, signed, id, verifier));
      ghost var start := disk;
      var ok := Prepare(now, origin, w1, w2);
      assert disk == After(start, now, tx, 0) || disk == After(start, now, tx, 1) || disk == After(start, now, tx, 2);
      if !ok { return Refuse(Interrupted); }
      ghost var s := View();
      assert s == After(start, now, tx, 2);
      if q !in requests { return Refuse(NotFound); }
      var row := requests[q];
      if !E.Live(View(), row, now, origin) { return Refuse(Unavailable); }
      if !signed {
        reply := Fail(q, w3);
        assert disk == After(start, now, tx, 2) || disk == After(start, now, tx, 3);
        return;
      }
      if !row.state.Approved? { return Refuse(Unavailable); }
      var owned := E.UnownedError(View(), row.device, row.binding);
      if owned.Some? { return Refuse(owned.value); }
      if row.device !in bindings && |bindings| >= LIMIT { return Refuse(OverCapacity); }
      StageRedemption(q, id, verifier);
      reply := Flush(w3);
      assert w3.FailedBefore? || disk == After(start, now, tx, 3);
    }

    /** Charges a failed proof to a live request. */
    method Fail(q: Id, write: Write) returns (reply: Reply)
      requires Valid() && q in requests
      modifies this
      ensures Valid() && reply.Refuse?
      ensures disk == old(disk) || disk == E.Failure(old(disk), q, true).after
      ensures write.Written? ==>
        disk == E.Failure(old(disk), q, true).after && reply == E.Failure(old(disk), q, true).reply
      ensures !write.FailedBefore? ==> disk == E.Failure(old(disk), q, true).after
    {
      hide Schema, Commit;
      var row := requests[q];
      row := row.(attempts := if row.attempts + 1 <= MAX_ATTEMPTS then row.attempts + 1 else MAX_ATTEMPTS);
      if row.attempts == MAX_ATTEMPTS { row := Spoil(row, RequestState.Failed); }
      requests := requests[q := row];
      var flushed := Flush(write);
      reply := if write.Written? then Refuse(InvalidProof) else Refuse(Interrupted);
    }

    /** Initiation or approval of a live request by a controller. */
    method EndorseRow(p: Principal, q: Id, presented: Id, initiating: bool, write: Write) returns (reply: Reply)
      requires Valid() && q in requests
      modifies this
      ensures var e := E.Confirm(old(disk), p, q, presented, initiating);
        && Valid() && (disk == old(disk) || disk == e.after)
        && (!write.FailedBefore? ==> disk == e.after)
        && (write.Written? ==> reply == e.reply)
    {
      hide Schema, Admissible, Commit, E.UnownedError, E.Failure;
      ghost var s := View();
      var row := requests[q];
      if !(if initiating then row.state.Ready? else row.state.Initiated?) { return Refuse(Unavailable); }
      if presented == NONE || presented != row.codeHash {
        reply := Fail(q, write);
        return;
      }
      var owned := E.UnownedError(View(), row.device, row.binding);
      if owned.Some? { return Refuse(owned.value); }
      if initiating {
        row := row.(initiator := Some(p), state := Initiated);
      } else {
        row := row.(approver := Some(p), state := RequestState.Approved);
      }
      requests := requests[q := row];
      assert View() == E.With(s, q, E.Endorsed(s.requests[q], p, initiating));
      reply := Flush(write);
    }

    /** Initiation or approval, once sweeping and marking are done. */
    method Endorse(now: real, origin: Id, principal: Option<Principal>, q: Id, presented: Id, initiating: bool,
                   write: Write)
      returns (reply: Reply)
      requires Valid()
      modifies this
      ensures
        var m := if initiating then E.Initiating(q, presented) else E.Approving(q, presented);
        var e := E.Pair(old(disk), now, origin, principal, m);
        && Valid() && (disk == old(disk) || disk == e.after)
        && (!write.FailedBefore? ==> disk == e.after)
        && (write.Written? ==> reply == e.reply)
    {
      hide Schema, E.Confirm, E.Detached, ActorCurrent, E.Open, E.Live, E.Failure;
      if q !in requests { return Refuse(NotFound); }
      var row := requests[q];
      var refused := E.ControllerError(View(), principal, row.binding.kind, now);
      if refused.Some? { return Refuse(refused.value); }
      if !E.Live(View(), row, now, origin) { return Refuse(Unavailable); }
      reply := EndorseRow(principal.value, q, presented, initiating, write);
    }

    /** Initiation (`initiating`) or approval by an owner or an integration that repeats the
        code. */
    method Confirm(now: real, origin: Id, principal: Option<Principal>, q: Id, presented: Id, initiating: bool,
                   w1: Write, w2: Write, w3: Write)
      returns (reply: Reply)
      requires Valid()
      modifies this
      ensures Valid()
      ensures var tx := EnrollmentTx(origin, principal, if initiating then E.Initiating(q, presented)
          else E.Approving(q, presented));
        && CutShort(old(disk), disk, now, tx)
        && (w1.Written? && w2.Written? && w3.Written? ==>
            disk == After(old(disk), now, tx, 3) && reply == ReplyTo(old(disk), now, tx))
    {
      hide Schema, L.Sweep, E.MarkStale, E.Pair;
      ghost var tx := EnrollmentTx(origin, principal, if initiating then E.Initiating(q, presented)
          else E.Approving(q, presented));
      ghost var start := disk;
      var ok := Prepare(now, origin, w1, w2);
      assert disk == After(start, now, tx, 0) || disk == After(start, now, tx, 1) || disk == After(start, now, tx, 2);
      if !ok { return Refuse(Interrupted); }
      assert disk == After(start, now, tx, 2);
      reply := Endorse(now, origin, principal, q, presented, initiating, w3);
      assert disk == After(start, now, tx, 2) || disk == After(start, now, tx, 3);
    }

    method Prove(now: real, origin: Id, principal: Option<Principal>, q: Id, signed: bool, codeHash: Id,
                 w1: Write, w2: Write, w3: Write)
      returns (reply: Reply)
      requires Valid()
      modifies this
      ensures Valid()
      ensures var tx := EnrollmentTx(origin, principal, E.Proving(q, signed, codeHash));
        && CutShort(old(disk), disk, now, tx)
        && (w1.Written? && w2.Written? && w3.Written? ==>
            disk == After(old(disk), now, tx, 3) && reply == ReplyTo(old(disk), now, tx))
    {
      hide Schema, Admissible, L.Sweep, E.MarkStale, Commit, E.Detached, E.Open, E.Confirm, E.Redeem;
      ghost var tx := EnrollmentTx(origin, principal, E.Proving(q, signed, codeHash));
      ghost var start := disk;
      var ok := Prepare(now, origin, w1, w2);
      assert disk == After(start, now, tx, 0) || disk == After(start, now, tx, 1) || disk == After(start, now, tx, 2);
      if !ok { return Refuse(Interrupted); }
      ghost var s := View();
      assert s == After(start, now, tx, 2);
      if q !in requests { return Refuse(NotFound); }
      var row := requests[q];
      if !E.Live(View(), row, now, origin) { return Refuse(Unavailable); }
      if !signed {
        reply := Fail(q, w3);
        assert disk == After(start, now, tx, 2) || disk == After(start, now, tx, 3);
        return;
      }
      if !row.state.Challenge? { return Refuse(Unavailable); }
      requests := requests[q := row.(state := Ready, codeHash := codeHash)];
      assert View() == E.With(s, q, row.(state := Ready, codeHash := codeHash));
      reply := Flush(w3);
      assert w3.FailedBefore? || disk == After(start, now, tx, 3);
    }

    /** Denial or withdrawal, once sweeping and marking are done. */
    method SettleRow(now: real, origin: Id, principal: Option<Principal>, q: Id, signed: bool, denial: bool,
                     write: Write)
      returns (reply: Reply)
      requires Valid()
      modifies this
      ensures
        var e := E.Pair(old(disk), now, origin, principal, if denial then E.Denying(q) else E.Cancelling(q, signed));
        && Valid() && (disk == old(disk) || disk == e.after)
        && (!write.FailedBefore? ==> disk == e.after)
        && (write.Written? ==> reply == e.reply)
    {
      hide Schema, Admissible, Commit, E.Detached, ActorCurrent, E.Open, E.Confirm, E.Redeem, E.Live, E.Failure;
      ghost var s := View();
      if q !in requests { return Refuse(NotFound); }
      var row := requests[q];
      if denial {
        var refused := E.ControllerError(View(), principal, row.binding.kind, now);
        if refused.Some? { return Refuse(refused.value); }
      }
      if !E.Live(View(), row, now, origin) { return Refuse(Unavailable); }
      if !denial && !signed {
        reply := Fail(q, write);
        return;
      }
      row := Spoil(row, if denial then RequestState.Denied else RequestState.Cancelled);
      requests := requests[q := row];
      assert View() == E.With(s, q, row);
      reply := Flush(write);
    }

    /** Denial by a controller, or withdrawal by whoever holds the request's key. */
    method Settle(now: real, origin: Id, principal: Option<Principal>, q: Id, signed: bool, denial: bool,
                  w1: Write, w2: Write, w3: Write)
      returns (reply: Reply)
      requires Valid()
      modifies this
      ensures Valid()
      ensures var tx := EnrollmentTx(origin, principal, if denial then E.Denying(q) else E.Cancelling(q, signed));
        && CutShort(old(disk), disk, now, tx)
        && (w1.Written? && w2.Written? && w3.Written? ==>
            disk == After(old(disk), now, tx, 3) && reply == ReplyTo(old(disk), now, tx))
    {
      hide Schema, L.Sweep, E.MarkStale, E.Pair;
      ghost var tx := EnrollmentTx(origin, principal, if denial then E.Denying(q) else E.Cancelling(q, signed));
      ghost var start := disk;
      var ok := Prepare(now, origin, w1, w2);
      assert disk == After(start, now, tx, 0) || disk == After(start, now, tx, 1) || disk == After(start, now, tx, 2);
      if !ok { return Refuse(Interrupted); }
      assert disk == After(start, now, tx, 2);
      reply := SettleRow(now, origin, principal, q, signed, denial, w3);
      assert disk == After(start, now, tx, 2) || disk == After(start, now, tx, 3);
    }

    // ---- Integration enrollment ----

    /** Ends lapsed grants one by one, retiring what each had issued as it goes. */
    method SweepGrantRows(now: real, origin: Id) returns (changed: bool)
      requires RecordsValid(records) && GrantsBound(grants, records)
      modifies `records, `blocked, `grants
      ensures View() == I.SweepGrants(old(View()), now, origin)
      ensures !changed ==> View() == old(View())
    {
      hide Retire, GrantsBound, RecordsValid, I.SweepGrant;
      ghost var s := View();
      ghost var retired := {};
      LT.RetireNothing(s);
      changed := false;
      var todo := grants.Keys;
      while todo != {}
        invariant todo <= s.grants.Keys == grants.Keys
        invariant View() == Retire(s, retired).(grants := grants)
        invariant forall k :: k in todo ==> grants[k] == s.grants[k]
        invariant forall k :: k in grants && k !in todo ==> grants[k] == I.SweepGrant(s, k, s.grants[k], now, origin)
        invariant forall id :: id in retired <==>
            exists k :: k in s.grants && k !in todo && Lapses(s, k, now, origin, id)
        invariant !changed ==> View() == s
        decreases todo
      {
        SomeMember(todo);
        var k :| k in todo;
        var g := grants[k];
        retired := SweepGrantRow(k, now, origin, s, retired);
        changed := changed || grants[k] != g;
        todo := todo - {k};
      }
      forall id ensures id in retired <==> id in I.LapsedIds(s, now, origin) {}
      assert retired == I.LapsedIds(s, now, origin);
      SweptGrantsView(s, now, origin, View());
    }

    method SweepGrantRow(k: Id, now: real, origin: Id, ghost s: Snapshot, ghost retired: set<Id>)
      returns (ghost more: set<Id>)
      requires RecordsValid(s.records) && GrantsBound(s.grants, s.records) && k in s.grants && k in grants
          && grants[k] == s.grants[k]
      requires View() == Retire(s, retired).(grants := grants)
      requires forall id :: id in retired ==> exists j :: j in s.grants && j != k && s.grants[j].credentialId == id
      modifies `records, `blocked, `grants
      ensures grants == old(grants)[k := I.SweepGrant(s, k, s.grants[k], now, origin)]
      ensures forall id :: id in more <==> id in retired || Lapses(s, k, now, origin, id)
      ensures View() == Retire(s, more).(grants := grants)
      ensures grants[k] == s.grants[k] ==> View() == old(View())
    {
      hide Retire, GrantsBound, RecordsValid, I.SweepGrant;
      var g := grants[k];
      ghost var before := grants;
      more := retired;
      OthersUnaffected(s, retired, grants, k, now, origin);
      var h := SwungGrant(k, g, now, origin);
      if h != g {
        if !TerminalGrant(g.state) {
          RetireIds({g.credentialId});
          RetireTwice(s, retired, {g.credentialId});
          RetireGrantFrames(s, retired, {g.credentialId}, before);
          more := retired + {g.credentialId};
        }
        RetireGrantFrame(s, more, grants, grants[k := h]);
      }
      grants := grants[k := h];
    }

    method SweepGrants(now: real, origin: Id, write: Write) returns (ok: bool)
      requires Valid()
      modifies this
      ensures Valid()
      ensures disk == old(disk) || disk == I.SweepGrants(old(disk), now, origin)
      ensures ok ==> disk == I.SweepGrants(old(disk), now, origin)
      ensures write.Written? ==> ok
    {
      hide Schema, Admissible, Commit, IdsImmutable, RecordsValid, GrantsBound, I.SweepGrants;
      SweepGrantsAdmissible(disk, now, origin);
      SchemaGrants(disk);
      var changed := SweepGrantRows(now, origin);
      ok := true;
      if changed {
        var reply := Flush(write);
        ok := reply == Done;
      }
    }

    /** What becomes of one grant, read off the store as it is now. */
    method SwungGrant(k: Id, g: Grant, now: real, origin: Id) returns (h: Grant)
      ensures h == I.SweepGrant(View(), k, g, now, origin)
    {
      hide I.AllBlocked, I.IssuedBlocked;
      h := g;
      if g.state.Completed? {
        if I.AllBlocked(View(), k) { h := g.(state := GrantState.Revoked); }
      } else if !TerminalGrant(g.state) {
        if I.IssuedBlocked(View(), g) {
          h := g.(state := GrantState.Revoked);
        } else if g.expiresAt <= now {
          h := g.(state := GrantState.Expired);
        } else if g.generation != owner.generation || g.origin != origin {
          h := g.(state := GrantState.Stale);
        }
      }
    }

    method Apply(now: real, origin: Id, k: Id, secret: Id, code: Id, name: Id, claimed: Id, expiresAt: real,
                 w1: Write, w2: Write, w3: Write)
      returns (reply: Reply)
      requires Valid()
      modifies this
      ensures Valid()
      ensures var tx := IntegrationTx(origin, None, I.Applying(k, secret, claimed, name, code, expiresAt));
        && CutShort(old(disk), disk, now, tx)
        && (w1.Written? && w2.Written? && w3.Written? ==>
            disk == After(old(disk), now, tx, 3) && reply == ReplyTo(old(disk), now, tx))
    {
      hide Schema, Admissible, Commit, I.SweepGrants, E.MarkIfStale, I.Retained;
      ghost var tx := IntegrationTx(origin, None, I.Applying(k, secret, claimed, name, code, expiresAt));
      ghost var start := disk;
      var swept := SweepGrants(now, origin, w1);
      assert disk == After(start, now, tx, 0) || disk == After(start, now, tx, 1);
      if !swept { return Refuse(Interrupted); }
      ghost var s := View();
      if claimed != origin { return Refuse(InvalidRequest); }
      if k in grants {
        var g := grants[k];
        if secret != g.secretHash { return Refuse(Unauthorized); }
        return if g.name == name && g.origin == claimed && g.expiresAt == expiresAt then Done else Refuse(Conflict);
      }
      if !(now < expiresAt <= now + I.GRANT_TTL) { return Refuse(Unavailable); }
      var kept := I.Retained(grants, now);
      if |I.Unissued(kept)| >= I.MAX_UNISSUED { return Refuse(OverCapacity); }
      if !owner.active { return Refuse(Unavailable); }
      if |kept| >= LIMIT { return Refuse(OverCapacity); }
      var marked := MarkStale(now, origin, w2);
      assert disk == After(start, now, tx, 1) || disk == After(start, now, tx, 2);
      if !marked { return Refuse(Interrupted); }
      assert View() == E.MarkStale(s, now, origin);
      grants := kept[k := Grant(expiresAt, owner.generation, origin, name, GrantState.Pending, 0, secret, code, NONE)];
      reply := Flush(w3);
      assert w3.FailedBefore? || disk == After(start, now, tx, 3);
    }

    method Issue(now: real, origin: Id, k: Id, secret: Id, id: Id, verifier: Id, w1: Write, w2: Write)
      returns (reply: Reply)
      requires Valid()
      modifies this
      ensures Valid()
      ensures var tx := IntegrationTx(origin, None, I.Collecting(k, secret, id, verifier));
        && CutShort(old(disk), disk, now, tx)
        && (w1.Written? && w2.Written? ==> disk == After(old(disk), now, tx, 3) && reply == ReplyTo(old(disk), now, tx))
    {
      hide Schema, Admissible, Commit, I.SweepGrants;
      ghost var tx := IntegrationTx(origin, None, I.Collecting(k, secret, id, verifier));
      ghost var start := disk;
      var swept := SweepGrants(now, origin, w1);
      assert disk == After(start, now, tx, 0) || disk == After(start, now, tx, 1);
      if !swept { return Refuse(Interrupted); }
      if k !in grants { return Refuse(NotFound); }
      var g := grants[k];
      if secret != g.secretHash { return Refuse(Unauthorized); }
      if !g.state.Approved? { return Refuse(Unavailable); }
      grants := grants[k := g.(state := GrantState.Delivered, credentialId := id)];
      records := records + [Credential(id, IntegrationRole, Agent(k), verifier, false)];
      reply := Flush(w2);
      assert w2.FailedBefore? || disk == After(start, now, tx, 3);
    }

    method Enable(id: Id)
      modifies `records
      ensures records == I.Enable(old(records), id)
    {
      var i := 0;
      while i < |records|
        invariant 0 <= i <= |records| == |old(records)|
        invariant forall j :: 0 <= j < i ==> records[j] == I.EnableIf(old(records)[j], id)
        invariant forall j :: i <= j < |records| ==> records[j] == old(records)[j]
      {
        if records[i].id == id { records := records[i := records[i].(enabled := true)]; }
        i := i + 1;
      }
    }

    /** The save acknowledgement: completion and activation are one commit. */
    method Activate(now: real, origin: Id, k: Id, secret: Id, verifier: Id, saved: bool, w1: Write, w2: Write)
      returns (reply: Reply)
      requires Valid()
      modifies this
      ensures Valid()
      ensures var tx := IntegrationTx(origin, None, I.Saving(k, secret, verifier, saved));
        && CutShort(old(disk), disk, now, tx)
        && (w1.Written? && w2.Written? ==> disk == After(old(disk), now, tx, 3) && reply == ReplyTo(old(disk), now, tx))
    {
      hide Schema, Admissible, Commit, I.SweepGrants, I.Presents;
      ghost var tx := IntegrationTx(origin, None, I.Saving(k, secret, verifier, saved));
      ghost var start := disk;
      var swept := SweepGrants(now, origin, w1);
      assert disk == After(start, now, tx, 0) || disk == After(start, now, tx, 1);
      if !swept { return Refuse(Interrupted); }
      if k !in grants { return Refuse(NotFound); }
      var g := grants[k];
      if secret != g.secretHash { return Refuse(Unauthorized); }
      if !saved || !I.Presents(View(), g, verifier) { return Refuse(InvalidAck); }
      if g.state.Completed? { return Done; }
      if !g.state.Delivered? { return Refuse(Unavailable); }
      grants := grants[k := g.(state := GrantState.Completed)];
      Enable(g.credentialId);
      reply := Flush(w2);
      assert w2.FailedBefore? || disk == After(start, now, tx, 3);
    }

    /** Approval of an integration request, once the sweep is done. */
    method ApproveRow(k: Id, presented: Id, write: Write) returns (reply: Reply)
      requires Valid() && k in grants
      modifies this
      ensures Valid() && (disk == old(disk) || disk == I.Approval(old(disk), k, presented).after)
      ensures !write.FailedBefore? ==> disk == I.Approval(old(disk), k, presented).after
      ensures write.Written? ==> reply == I.Approval(old(disk), k, presented).reply
    {
      hide Schema, Admissible, Commit;
      var g := grants[k];
      if !(g.state.Pending? || g.state.Approved?) { return Refuse(Unavailable); }
      if presented != g.codeHash {
        g := g.(attempts := g.attempts + 1);
        if g.attempts >= MAX_ATTEMPTS { g := g.(state := GrantState.Failed); }
        grants := grants[k := g];
        var flushed := Flush(write);
        return if write.Written? then Refuse(InvalidCode) else Refuse(Interrupted);
      }
      grants := grants[k := g.(state := GrantState.Approved)];
      reply := Flush(write);
    }

    /** The owner's approval, by repeating the code shown to the requester. */
    method Approve(now: real, origin: Id, principal: Option<Principal>, k: Id, presented: Id, w1: Write, w2: Write)
      returns (reply: Reply)
      requires Valid()
      modifies this
      ensures Valid()
      ensures var tx := IntegrationTx(origin, principal, I.Approving(k, presented));
        && CutShort(old(disk), disk, now, tx)
        && (w1.Written? && w2.Written? ==> disk == After(old(disk), now, tx, 3) && reply == ReplyTo(old(disk), now, tx))
    {
      hide Schema, Commit, I.SweepGrants, IsOwner, I.Apply, I.Confirmed, I.Ended, I.Issue, I.Approval;
      ghost var tx := IntegrationTx(origin, principal, I.Approving(k, presented));
      ghost var start := disk;
      var swept := SweepGrants(now, origin, w1);
      assert disk == After(start, now, tx, 0) || disk == After(start, now, tx, 1);
      if !swept { return Refuse(Interrupted); }
      if principal.None? { return Refuse(Unauthorized); }
      if !IsOwner(View(), principal.value) { return Refuse(Forbidden); }
      if k !in grants { return Refuse(NotFound); }
      reply := ApproveRow(k, presented, w2);
      assert disk == After(start, now, tx, 0) || disk == After(start, now, tx, 1) || disk == After(start, now, tx, 3);
    }

    /** Denial or withdrawal of an integration request, once the sweep is done. */
    method EndRow(k: Id, target: GrantState, write: Write) returns (reply: Reply)
      requires Valid() && k in grants
      modifies this
      ensures Valid() && (disk == old(disk) || disk == I.Ended(old(disk), k, target).after)
      ensures !write.FailedBefore? ==> disk == I.Ended(old(disk), k, target).after
      ensures write.Written? ==> reply == I.Ended(old(disk), k, target).reply
    {
      hide Schema, Admissible, Commit, Retire;
      var g := grants[k];
      if g.state == target { return Done; }
      if TerminalGrant(g.state) { return Refuse(Unavailable); }
      RetireIds({g.credentialId});
      grants := grants[k := g.(state := target)];
      reply := Flush(write);
    }

    /** Denial by the owner or withdrawal by the requester. */
    method End(now: real, origin: Id, principal: Option<Principal>, k: Id, secret: Id, denial: bool, w1: Write,
               w2: Write)
      returns (reply: Reply)
      requires Valid()
      modifies this
      ensures Valid()
      ensures var tx := IntegrationTx(origin, principal, if denial then I.Denying(k) else I.Withdrawing(k, secret));
        && CutShort(old(disk), disk, now, tx)
        && (w1.Written? && w2.Written? ==> disk == After(old(disk), now, tx, 3) && reply == ReplyTo(old(disk), now, tx))
    {
      hide Schema, Commit, I.SweepGrants, IsOwner, I.Apply, I.Confirmed, I.Approval, I.Issue, I.Ended;
      ghost var tx := IntegrationTx(origin, principal, if denial then I.Denying(k) else I.Withdrawing(k, secret));
      ghost var start := disk;
      var swept := SweepGrants(now, origin, w1);
      assert disk == After(start, now, tx, 0) || disk == After(start, now, tx, 1);
      if !swept { return Refuse(Interrupted); }
      if denial {
        if principal.None? { return Refuse(Unauthorized); }
        if !IsOwner(View(), principal.value) { return Refuse(Forbidden); }
      }
      if k !in grants { return Refuse(NotFound); }
      var g := grants[k];
      if !denial && secret != g.secretHash { return Refuse(Unauthorized); }
      reply := EndRow(k, if denial then GrantState.Denied else GrantState.Cancelled, w2);
      assert disk == After(start, now, tx, 0) || disk == After(start, now, tx, 1) || disk == After(start, now, tx, 3);
    }
  }

  lemma RetireFrames(s: Snapshot, a: set<Id>, b: set<Id>, operations: map<Id, Operation>)
    ensures Retire(Retire(s, a).(operations := operations), b) == Retire(Retire(s, a), b).(operations := operations)
  {}

  lemma SomeSubject(s: set<Subject>)
    ensures s == {} || exists d :: d in s
  {}

  /** The pieces of the sweep, staged one after the other, make up the sweep. */
  lemma SweepStaged(s: Snapshot, now: real, origin: Id, t: Snapshot)
    requires var ids := L.SweptIds(s, now, origin); var operations := L.SweepOps(s.operations, s.owner.generation,
        now, origin);
      t == Retire(s, ids).(operations := operations, recovery := L.LivePointers(s.recovery, operations),
                           requests := InvalidateApprovals(s.requests, ids))
    ensures t == L.Sweep(s, now, origin)
  {}

  /** The sweep ends grant `k` before it was completed, and retires `id` with it. */
  ghost predicate Lapses(s: Snapshot, k: Id, now: real, origin: Id, id: Id) {
    && k in s.grants && !TerminalGrant(s.grants[k].state) && s.grants[k].credentialId == id
    && I.SweepGrant(s, k, s.grants[k], now, origin) != s.grants[k]
  }

  lemma SchemaGrants(s: Snapshot)
    requires Schema(s)
    ensures RecordsValid(s.records) && GrantsBound(s.grants, s.records)
  {}

  lemma RetireGrantFrames(s: Snapshot, a: set<Id>, b: set<Id>, grants: map<Id, Grant>)
    ensures Retire(Retire(s, a).(grants := grants), b) == Retire(Retire(s, a), b).(grants := grants)
  {}

  lemma RetireGrantFrame(s: Snapshot, a: set<Id>, before: map<Id, Grant>, after: map<Id, Grant>)
    ensures Retire(s, a).(grants := before).(grants := after) == Retire(s, a).(grants := after)
  {}

  lemma SweptGrantsView(s: Snapshot, now: real, origin: Id, t: Snapshot)
    requires t == Retire(s, I.LapsedIds(s, now, origin)).(grants := t.grants) && t.grants.Keys == s.grants.Keys
    requires forall k :: k in t.grants ==> t.grants[k] == I.SweepGrant(s, k, s.grants[k], now, origin)
    ensures t == I.SweepGrants(s, now, origin)
  {
    hide I.SweepGrant, I.LapsedIds, Retire;
  }

  /** Retiring what other grants issued does not change what becomes of grant `k`. */
  lemma OthersUnaffected(s: Snapshot, ids: set<Id>, grants: map<Id, Grant>, k: Id, now: real, origin: Id)
    requires RecordsValid(s.records) && GrantsBound(s.grants, s.records) && k in s.grants
    requires forall id :: id in ids ==> exists j :: j in s.grants && j != k && s.grants[j].credentialId == id
    ensures var t := Retire(s, ids).(grants := grants);
      I.SweepGrant(t, k, s.grants[k], now, origin) == I.SweepGrant(s, k, s.grants[k], now, origin)
  {
    hide RecordsValid, GrantsBound;
    var t := Retire(s, ids).(grants := grants);
    RetireShape(s, ids);
    forall i | 0 <= i < |s.records| && s.records[i].subject == Agent(k)
      ensures s.records[i].id !in ids
      ensures s.records[i].verifier in t.blocked <==> s.records[i].verifier in s.blocked
    {
      if s.records[i].id in ids {
        var j :| j in s.grants && j != k && s.grants[j].credentialId == s.records[i].id;
        IssuedTo(s, j, i);
      }
      assert s.records[i] in s.records;
      Expiry.TombstonesOnlyTheirs(s, ids, s.records[i]);
    }
    AllBlockedSame(s, t, k);
    if s.grants[k].credentialId != NONE { IssuedBlockedSame(s, t, k); } else { NoneIssued(s, t, k); }
  }

  /** The credential that grant `j` issued is its agent's. */
  lemma IssuedTo(s: Snapshot, j: Id, i: nat)
    requires RecordsValid(s.records) && GrantsBound(s.grants, s.records) && j in s.grants
    requires i < |s.records| && s.records[i].id == s.grants[j].credentialId
    ensures s.records[i].subject == Agent(j)
  {}

  ghost predicate AgreesOn(s: Snapshot, t: Snapshot, k: Id) {
    && Extends(s.records, t.records) && |s.records| == |t.records|
    && forall i :: 0 <= i < |s.records| && s.records[i].subject == Agent(k) ==>
         (s.records[i].verifier in t.blocked <==> s.records[i].verifier in s.blocked)
  }

  lemma AllBlockedSame(s: Snapshot, t: Snapshot, k: Id)
    requires AgreesOn(s, t, k)
    ensures I.AllBlocked(t, k) <==> I.AllBlocked(s, k)
  {}

  lemma IssuedBlockedSame(s: Snapshot, t: Snapshot, k: Id)
    requires AgreesOn(s, t, k) && RecordsValid(s.records) && GrantsBound(s.grants, s.records) && k in s.grants
    ensures I.IssuedBlocked(t, s.grants[k]) <==> I.IssuedBlocked(s, s.grants[k])
  {
    hide RecordsValid, GrantsBound;
    var id := s.grants[k].credentialId;
    forall i | 0 <= i < |s.records| && s.records[i].id == id
      ensures s.records[i].verifier in t.blocked <==> s.records[i].verifier in s.blocked
    {
      IssuedTo(s, k, i);
    }
    if I.IssuedBlocked(t, s.grants[k]) {
      var q :| q in t.records && q.id == id && q.verifier in t.blocked;
      var i :| 0 <= i < |t.records| && t.records[i] == q;
      assert SameIdentity(s.records[i], t.records[i]) && s.records[i] in s.records;
    }
    if I.IssuedBlocked(s, s.grants[k]) {
      var q :| q in s.records && q.id == id && q.verifier in s.blocked;
      var i :| 0 <= i < |s.records| && s.records[i] == q;
      assert SameIdentity(s.records[i], t.records[i]) && t.records[i] in t.records;
    }
  }

  lemma NoneIssued(s: Snapshot, t: Snapshot, k: Id)
    requires AgreesOn(s, t, k) && RecordsValid(s.records) && k in s.grants && s.grants[k].credentialId == NONE
    ensures !I.IssuedBlocked(t, s.grants[k]) && !I.IssuedBlocked(s, s.grants[k])
  {}
}
