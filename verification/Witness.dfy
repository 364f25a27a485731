/** Concrete runs from the empty store: a complete pairing, so the theorems about runs speak of
    runs that issue something, and the two runs on which a first expectation fails. */
module Witness {
  import opened Basics
  import opened Authority
  import opened Transitions
  import opened Runs
  import opened Handover
  import Records
  import opened Issuance
  import L = Lifecycle
  import E = Enrollment
  import LT = Latch
  import Expiry

  const DEVICE := Named(7)
  const KEY := Binding(8, Physical)
  const CODE: Id := 5
  const CLERK := Principal(OwnerRole, OWNER_NAME, 1, NONE)

  predicate Open(state: RequestState) { state.Challenge? || state.Ready? || state.Initiated? || state.Approved? }

  function Row(state: RequestState): Request {
    Request(KEY, DEVICE, 300.0, 1, 2, state, 0, if state.Challenge? then NONE else CODE,
            if state.Challenge? || state.Ready? then None else Some(CLERK),
            if state.Approved? || state.Consumed? then Some(CLERK) else None)
  }

  function Step(m: E.Move): Tx { EnrollmentTx(2, Some(CLERK), m) }

  function Asks(q: Id): Tx { Step(E.Asking(KEY, 7, DEVICE, false, q)) }

  // ---- Small snapshots on which the sweeps find nothing to do ----

  ghost predicate Calm(s: Snapshot) {
    && s.owner == Owner(true, 1) && s.grants == map[]
    && (forall k :: k in s.operations ==>
          !L.Due(s.operations[k], 1, 0.0, 2) && !s.operations[k].state.Acknowledged?)
    && (forall d :: d in s.recovery ==>
          s.recovery[d].operationId in s.operations && !TerminalOp(s.operations[s.recovery[d].operationId].state))
    && (forall q :: q in s.requests ==>
          s.requests[q] == Row(s.requests[q].state) && (Open(s.requests[q].state) || s.requests[q].state.Consumed?))
  }

  ghost predicate Small(s: Snapshot) {
    && |s.records| <= 4 && |s.blocked| <= 4 && |s.operations| <= 4 && |s.bindings| <= 4 && |s.recovery| <= 4
    && |s.requests| <= 4 && s.grants == map[]
    && RecordsValid(s.records) && RecoveryValid(s.operations, s.bindings, s.recovery)
    && (forall k :: k in s.operations ==> OperationValid(s.operations[k]))
    && (forall q :: q in s.requests ==> RequestValid(s.requests[q]))
  }

  lemma {:induction false} FewDigests(records: seq<Credential>)
    ensures |Digests(records)| <= |records|
  {
    if records != [] {
      var init, last := records[..|records| - 1], records[|records| - 1];
      FewDigests(init);
      assert Digests(records) == Digests(init) + {last.verifier};
    }
  }

  lemma SmallIsValid(s: Snapshot)
    requires Small(s)
    ensures Schema(s)
  {
    hide RecordsValid, RecoveryValid, OperationValid, RequestValid, HasCapacity;
    SmallHasRoom(s);
  }

  lemma SmallHasRoom(s: Snapshot)
    requires |s.records| <= 4 && |s.blocked| <= 4 && |s.operations| <= 4
    ensures HasCapacity(s)
  {
    hide Digests;
    FewDigests(s.records);
    var digests := Digests(s.records);
    Records.SubsetSize(Unfinished(s.operations), s.operations.Keys);
    Records.SubsetSize(digests - s.blocked, digests);
    UnionSize(s.blocked, digests);
  }

  lemma UnionSize(a: set<Id>, b: set<Id>)
    ensures |a + b| <= |a| + |b|
  {
    assert a + b == a + (b - a);
    Records.SubsetSize(b - a, b);
  }

  lemma NothingToSweep(s: Snapshot)
    requires Calm(s)
    ensures L.Sweep(s, 0.0, 2) == s
  {
    hide Row, L.Due;
    LT.RetireNothing(s);
    Expiry.InvalidateNothing(s.requests);
    assert L.SweptIds(s, 0.0, 2) == {};
    var swept := L.SweepOps(s.operations, 1, 0.0, 2);
    assert swept.Keys == s.operations.Keys;
    forall k | k in s.operations ensures swept[k] == s.operations[k] {}
    assert swept == s.operations;
    assert L.LivePointers(s.recovery, s.operations) == s.recovery;
  }

  lemma RowStands(s: Snapshot, state: RequestState)
    requires s.owner == Owner(true, 1) && (Open(state) || state.Consumed?)
    ensures E.MarkIfStale(s, Row(state), 0.0, 2) == Row(state)
    ensures Open(state) ==> E.Live(s, Row(state), 0.0, 2)
    ensures state.Consumed? ==> !E.Live(s, Row(state), 0.0, 2)
    ensures RequestValid(Row(state))
  {
    hide Current;
  }

  lemma NothingStale(s: Snapshot)
    requires Calm(s)
    ensures E.MarkStale(s, 0.0, 2) == s
  {
    hide E.MarkIfStale, Row;
    var t := E.MarkStale(s, 0.0, 2);
    assert t.requests.Keys == s.requests.Keys;
    forall q | q in s.requests ensures t.requests[q] == s.requests[q] { RowStands(s, s.requests[q].state); }
    assert t.requests == s.requests;
  }

  lemma Reaches(s: Snapshot, m: E.Move)
    requires Calm(s)
    ensures After(s, 0.0, Step(m), 3) == E.Pair(s, 0.0, 2, Some(CLERK), m).after
  {
    hide L.Sweep, E.MarkStale, E.Pair, Calm;
    NothingToSweep(s);
    NothingStale(s);
  }

  lemma ReachesControl(s: Snapshot, p: Principal, c: L.Command)
    requires Calm(s)
    ensures After(s, 0.0, LifecycleTx(2, Some(p), c), 2) == L.Act(s, 0.0, 2, Some(p), c).after
  {
    hide L.Sweep, L.Act, Calm;
    NothingToSweep(s);
  }

  // ---- The steps ----

  lemma SameRecords(s: Snapshot, t: Snapshot)
    requires Small(t) && t.records == s.records
    ensures Admissible(s, t)
  {
    hide Schema;
    SmallIsValid(t);
  }

  lemma Asked(s: Snapshot, q: Id)
    requires Calm(s) && |s.requests| <= 3 && |s.records| <= 4
    requires forall p :: p in s.requests ==> s.requests[p].state.Consumed?
    requires if DEVICE in s.bindings then s.bindings == map[DEVICE := KEY]
        else s.bindings == map[] && s.requests == map[] && s.records == []
    requires Small(E.Opened(s, 0.0, 2, KEY, DEVICE, q))
    ensures After(s, 0.0, Asks(q), 3) == E.Opened(s, 0.0, 2, KEY, DEVICE, q)
  {
    hide Admissible, Commit, After, Small, E.Opened, E.Live, E.DeviceBusy, E.UnownedError, E.ResolvesTo, Calm;
    Reaches(s, E.Asking(KEY, 7, DEVICE, false, q));
    Unhindered(s);
    OpenedRecords(s, q);
    SameRecords(s, E.Opened(s, 0.0, 2, KEY, DEVICE, q));
  }

  lemma OpenedRecords(s: Snapshot, q: Id)
    ensures E.Opened(s, 0.0, 2, KEY, DEVICE, q).records == s.records
  {}

  lemma Unhindered(s: Snapshot)
    requires Calm(s) && |s.requests| <= 3 && |s.records| <= 4
    requires forall p :: p in s.requests ==> s.requests[p].state.Consumed?
    requires if DEVICE in s.bindings then s.bindings == map[DEVICE := KEY]
        else s.bindings == map[] && s.requests == map[] && s.records == []
    ensures s.owner.active && E.Unexpired(s.requests, 0.0) == s.requests
    ensures E.ResolvesTo(s.bindings, s.requests, KEY, 7, DEVICE)
    ensures E.UnownedError(s, DEVICE, KEY) == None
    ensures !E.DeviceBusy(s, s.requests, DEVICE, 0.0, 2)
  {
    hide E.Live;
    forall p | p in s.requests ensures !E.Live(s, s.requests[p], 0.0, 2) { RowStands(s, s.requests[p].state); }
    assert (0.0).Floor == 0;
    forall p | p in s.requests ensures p in E.Unexpired(s.requests, 0.0) {}
    assert E.Unexpired(s.requests, 0.0).Keys == s.requests.Keys;
  }

  lemma Moved(s: Snapshot, q: Id, m: E.Move, next: RequestState)
    requires Calm(s) && q in s.requests && |s.records| <= 4
    requires if DEVICE in s.bindings then s.bindings[DEVICE] == KEY else s.records == []
    requires var state := s.requests[q].state;
      || (state.Challenge? && m == E.Proving(q, true, CODE) && next.Ready?)
      || (state.Ready? && m == E.Initiating(q, CODE) && next.Initiated?)
      || (state.Initiated? && m == E.Approving(q, CODE) && next.Approved?)
    requires Small(s.(requests := s.requests[q := Row(next)]))
    ensures After(s, 0.0, Step(m), 3) == s.(requests := s.requests[q := Row(next)])
  {
    hide Admissible, Commit, After, E.Live, Small;
    Reaches(s, m);
    RowStands(s, s.requests[q].state);
    SameRecords(s, s.(requests := s.requests[q := Row(next)]));
  }

  lemma Redeemed(s: Snapshot, q: Id, id: Id, verifier: Id)
    requires Calm(s) && q in s.requests && s.requests[q].state.Approved? && |s.records| <= 3 && |s.bindings| <= 3
    requires if DEVICE in s.bindings then s.bindings[DEVICE] == KEY else s.records == []
    requires Small(E.Redeemed(s, q, id, verifier)) && IdsImmutable(s.records, E.Redeemed(s, q, id, verifier).records)
    ensures After(s, 0.0, Step(E.Redeeming(q, true, id, verifier)), 3) == E.Redeemed(s, q, id, verifier)
  {
    hide Schema, Commit, After, E.Live, Small, E.Redeemed, IdsImmutable;
    Reaches(s, E.Redeeming(q, true, id, verifier));
    RowStands(s, RequestState.Approved);
    SmallIsValid(E.Redeemed(s, q, id, verifier));
  }

  lemma Ordered(s: Snapshot, action: Action, k: Id)
    requires Calm(s) && k !in s.operations && (action.Rotate? || action.Recover?)
    requires s.operations == map[] && L.HasMatching(s.records, DeviceRole, DEVICE) && DEVICE in s.bindings
    requires action.Rotate? ==> L.AnyUsable(s, DeviceRole, DEVICE, 0.0)
    requires Small(L.Controlled(s, 0.0, 2, action, k, DeviceRole, DEVICE))
    requires IdsImmutable(s.records, L.Controlled(s, 0.0, 2, action, k, DeviceRole, DEVICE).records)
    ensures After(s, 0.0, LifecycleTx(2, Some(CLERK), L.Ordered(action, k, DeviceRole, DEVICE)), 2)
         == L.Controlled(s, 0.0, 2, action, k, DeviceRole, DEVICE)
  {
    hide Schema, Commit, After, Small, L.Controlled, IdsImmutable, L.HasMatching, L.AnyUsable, Current;
    ReachesControl(s, CLERK, L.Ordered(action, k, DeviceRole, DEVICE));
    SmallIsValid(L.Controlled(s, 0.0, 2, action, k, DeviceRole, DEVICE));
  }

  lemma Polled(s: Snapshot, p: Principal, k: Id)
    requires Calm(s) && Current(s, p, 0.0) && p.role.DeviceRole? && s.operations.Keys == {k}
    requires L.LiveRotation(s.operations[k], p) && s.operations[k].state.Queued?
    requires Small(s.(operations := s.operations[k := s.operations[k].(state := OpState.Pending)]))
    ensures var tx := LifecycleTx(2, Some(p), L.Polling(Some(k)));
      && Faithful(s, 0.0, tx)
      && After(s, 0.0, tx, 2) == s.(operations := s.operations[k := s.operations[k].(state := OpState.Pending)])
  {
    hide Admissible, Commit, After, Small, Current, L.Sweep, Calm;
    ReachesControl(s, p, L.Polling(Some(k)));
    NothingToSweep(s);
    SameRecords(s, s.(operations := s.operations[k := s.operations[k].(state := OpState.Pending)]));
  }

  lemma HandsOver(s: Snapshot, p: Principal, k: Id, id: Id, verifier: Id)
    requires Calm(s) && Current(s, p, 0.0) && L.OwnsOperation(s, p, k) && |s.records| <= 3
    requires s.operations[k].state.Pending? && s.operations[k].action.Rotate?
    requires Small(L.Handover(s, 0.0, k, id, verifier))
        && IdsImmutable(s.records, L.Handover(s, 0.0, k, id, verifier).records)
    ensures After(s, 0.0, LifecycleTx(2, Some(p), L.Delivery(k, id, verifier)), 2)
        == L.Handover(s, 0.0, k, id, verifier)
  {
    hide Schema, Commit, After, Small, Current, IdsImmutable, L.Handover, Calm;
    ReachesControl(s, p, L.Delivery(k, id, verifier));
    SmallIsValid(L.Handover(s, 0.0, k, id, verifier));
  }

  lemma TakesReceipt(s: Snapshot, p: Principal, k: Id)
    requires Calm(s) && Current(s, p, 0.0) && L.OwnsOperation(s, p, k) && p.credentialId == s.operations[k].credentialId
    requires s.operations[k].state.Delivered?
    requires Small(L.Acked(s, k)) && IdsImmutable(s.records, L.Acked(s, k).records)
    ensures After(s, 0.0, LifecycleTx(2, Some(p), L.Receipt(k, true)), 2) == L.Acked(s, k)
  {
    hide Schema, Commit, After, Small, Current, IdsImmutable, L.Acked, Calm;
    ReachesControl(s, p, L.Receipt(k, true));
    SmallIsValid(L.Acked(s, k));
  }

  // ---- A pairing ----

  const FIRST := Credential(11, DeviceRole, DEVICE, 12, true)
  const SECOND := Credential(13, DeviceRole, DEVICE, 14, true)
  const THIRD := Credential(16, DeviceRole, DEVICE, 17, true)

  function Stage(records: seq<Credential>, blocked: set<Id>, requests: map<Id, Request>, operations: map<Id, Operation>,
                 recovery: map<Subject, Recovery>): Snapshot
  {
    Snapshot(records, Owner(true, 1), requests, operations, blocked, map[DEVICE := KEY], recovery, map[])
  }

  function Owned(): Snapshot { EMPTY.(owner := Owner(true, 1)) }

  function Requested(state: RequestState): Snapshot { Owned().(requests := map[9 := Row(state)]) }

  function Paired(): Snapshot { Stage([FIRST], {}, map[9 := Row(Consumed)], map[], map[]) }

  function At(tx: Tx, cut: nat, s: Snapshot): Moment { Moment(0.0, tx, cut, s) }

  function Ceremony(): seq<Moment> {
    [At(OwnerTx(Owner(true, 1)), 1, Owned()),
     At(Asks(9), 3, Requested(Challenge)),
     At(Step(E.Proving(9, true, CODE)), 3, Requested(Ready)),
     At(Step(E.Initiating(9, CODE)), 3, Requested(Initiated)),
     At(Step(E.Approving(9, CODE)), 3, Requested(RequestState.Approved)),
     At(Step(E.Redeeming(9, true, 11, 12)), 3, Paired())]
  }

  lemma RequestedSmall(state: RequestState)
    requires Open(state)
    ensures Small(Requested(state)) && Calm(Requested(state))
  {
    hide RecordsValid, RecoveryValid;
    RowStands(Requested(state), state);
    NoneValid();
    assert |Requested(state).requests| == 1;
  }

  lemma NoneValid()
    ensures RecordsValid([])
    ensures forall bindings :: RecoveryValid(map[], bindings, map[])
  {}

  lemma FirstPairing()
    ensures IsRun(Ceremony())
  {
    hide After, Calm, Small, Row, E.Opened, E.Redeemed;
    FirstAsked();
    FirstMoved(Challenge, E.Proving(9, true, CODE), Ready);
    FirstMoved(Ready, E.Initiating(9, CODE), Initiated);
    FirstMoved(Initiated, E.Approving(9, CODE), RequestState.Approved);
    FirstRedeemed();
  }

  lemma FirstAsked()
    ensures After(Owned(), 0.0, Asks(9), 3) == Requested(Challenge)
  {
    hide After, Small;
    RequestedSmall(Challenge);
    assert E.Unexpired(map[], 0.0) == map[];
    assert E.Opened(Owned(), 0.0, 2, KEY, DEVICE, 9) == Requested(Challenge);
    Asked(Owned(), 9);
  }

  lemma FirstMoved(state: RequestState, m: E.Move, next: RequestState)
    requires || (state.Challenge? && m == E.Proving(9, true, CODE) && next.Ready?)
             || (state.Ready? && m == E.Initiating(9, CODE) && next.Initiated?)
             || (state.Initiated? && m == E.Approving(9, CODE) && next.Approved?)
    ensures After(Requested(state), 0.0, Step(m), 3) == Requested(next)
  {
    hide After, Small, Calm;
    RequestedSmall(state);
    RequestedSmall(next);
    assert map[9 := Row(state)][9 := Row(next)] == map[9 := Row(next)];
    Moved(Requested(state), 9, m, next);
  }

  lemma PairedSmall()
    ensures Small(Paired()) && Calm(Paired())
  {
    RowStands(Paired(), Consumed);
    assert |Paired().requests| == 1 && |Paired().bindings| == 1;
  }

  lemma FirstRedeemed()
    ensures After(Requested(RequestState.Approved), 0.0, Step(E.Redeeming(9, true, 11, 12)), 3) == Paired()
  {
    hide After, Small, Calm;
    var s := Requested(RequestState.Approved);
    RequestedSmall(RequestState.Approved);
    PairedSmall();
    LT.RetireNothing(s);
    assert L.MatchingIds(s.records, DeviceRole, DEVICE) == {};
    assert s.requests[9 := Row(Consumed)] == Paired().requests;
    assert E.Redeemed(s, 9, 11, 12) == Paired();
    Redeemed(s, 9, 11, 12);
  }

  /** The ceremony starts from a snapshot with the invariant, its request ids are fresh, its last
      transaction mints a credential, and that credential is usable. */
  lemma PairingHappens()
    ensures IsRun(Ceremony()) && Inv(Ceremony()[0].s) && FreshIds(Ceremony())
    ensures Mints(Ceremony()[4].s, Ceremony()[5].s, Pairing(9)) && Enters(Ceremony(), 5, 9, Consumed)
    ensures UsableId(Ceremony()[5].s, 11, 0.0)
  {
    hide Inv, IsRun;
    FirstPairing();
    OwnedInv();
    assert Paired().records[0] in Paired().records;
  }

  lemma OwnedInv()
    ensures Inv(Owned())
  {
    EmptyInv();
    StepInv(EMPTY, 0.0, OwnerTx(Owner(true, 1)), 1);
  }

  /** One run after another that starts where it ended. */
  lemma Joined(a: seq<Moment>, b: seq<Moment>)
    requires IsRun(a) && IsRun(b) && a[|a| - 1] == b[0]
    ensures IsRun(a + b[1..])
  {
    hide Follows;
    var run := a + b[1..];
    forall i | 0 <= i < |run| - 1 ensures Follows(run[i], run[i + 1]) {
      if |a| - 1 <= i {
        var j := i - (|a| - 1);
        assert run[i] == b[j] && run[i + 1] == b[j + 1];
      }
    }
  }
}
