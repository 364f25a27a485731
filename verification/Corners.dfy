/** Two runs from the empty store on which a first expectation fails: a recovery that is delivered
    and opened again, and a rotation of a device that is paired again before it acknowledges. */
module Corners {
  import opened Basics
  import opened Authority
  import opened Transitions
  import opened Runs
  import opened Handover
  import opened Witness
  import L = Lifecycle
  import E = Enrollment
  import Expiry

  // ---- A recovery that is delivered and opened again ----

  const LAPSED := FIRST.(enabled := false)

  function Twice(state: RequestState): map<Id, Request> { map[9 := Row(Consumed), 10 := Row(state)] }

  function Recovery1(state: OpState, credentialId: Id, overlapUntil: real): map<Id, Operation> {
    map[3 := Operation(DeviceRole, DEVICE, Recover, state, 300.0, overlapUntil, credentialId, {11}, 1, 2)]
  }

  function Lost(): Snapshot {
    Stage([LAPSED], {12}, map[9 := Row(Consumed)], Recovery1(Queued, NONE, 0.0), map[DEVICE := Recovery(3, NONE)])
  }

  function Recovering(state: RequestState): Snapshot {
    Stage([LAPSED], {12}, Twice(state), Recovery1(OpState.Pending, NONE, 0.0), map[DEVICE := Recovery(3, 10)])
  }

  function Found(): Snapshot {
    Stage([LAPSED, SECOND], {12}, Twice(Consumed), Recovery1(OpState.Delivered, 13, 300.0),
        map[DEVICE := Recovery(3, 10)])
  }

  function Reopened(): Snapshot {
    Stage([LAPSED, SECOND], {12}, Twice(Consumed)[15 := Row(Challenge)], Recovery1(OpState.Pending, 13, 300.0),
          map[DEVICE := Recovery(3, 15)])
  }

  predicate StageRecords(records: seq<Credential>) {
    records == [FIRST] || records == [LAPSED] || records == [LAPSED, SECOND] || records == [LAPSED, SECOND, THIRD]
  }

  lemma StageIsSmall(records: seq<Credential>, blocked: set<Id>, requests: map<Id, Request>, op: Operation,
                     recovery: map<Subject, Recovery>)
    requires StageRecords(records) && |blocked| <= 1 && |requests| <= 3
    requires forall q :: q in requests ==>
      requests[q] == Row(requests[q].state) && (Open(requests[q].state) || requests[q].state.Consumed?)
    requires OperationValid(op) && !TerminalOp(op.state) && !L.Due(op, 1, 0.0, 2)
    requires recovery == map[] ||
             (exists q :: recovery == map[DEVICE := Recovery(3, q)] && op.subject == DEVICE && op.role.DeviceRole?
                 && op.action.Recover?)
    ensures Small(Stage(records, blocked, requests, map[3 := op], recovery))
    ensures !op.state.Acknowledged? ==> Calm(Stage(records, blocked, requests, map[3 := op], recovery))
  {
    hide OperationValid, L.Due, Row, RequestValid;
    var s := Stage(records, blocked, requests, map[3 := op], recovery);
    forall q | q in requests ensures RequestValid(requests[q]) { RowStands(s, requests[q].state); }
    assert |s.bindings| == 1 && |s.operations| == 1 && |s.recovery| <= 1;
  }

  lemma StagesImmutable(before: seq<Credential>, after: seq<Credential>)
    requires StageRecords(before) && StageRecords(after)
    ensures IdsImmutable(before, after)
  {}

  lemma TwiceIsSmall(state: RequestState)
    ensures |Twice(state)| == 2 && Twice(state)[10 := Row(Consumed)] == Twice(Consumed)
    ensures |Twice(state)[15 := Row(Challenge)]| == 3
  {}

  lemma SecondMoved(records: seq<Credential>, blocked: set<Id>, op: Operation, recovery: map<Subject, Recovery>,
                    state: RequestState, m: E.Move, next: RequestState)
    requires StageRecords(records) && |records| <= 2 && |blocked| <= 1
    requires Small(Stage(records, blocked, Twice(next), map[3 := op], recovery))
    requires Calm(Stage(records, blocked, Twice(state), map[3 := op], recovery))
    requires || (state.Challenge? && m == E.Proving(10, true, CODE) && next.Ready?)
             || (state.Ready? && m == E.Initiating(10, CODE) && next.Initiated?)
             || (state.Initiated? && m == E.Approving(10, CODE) && next.Approved?)
    ensures After(Stage(records, blocked, Twice(state), map[3 := op], recovery), 0.0, Step(m), 3)
         == Stage(records, blocked, Twice(next), map[3 := op], recovery)
  {
    hide After, Small, Calm, Row;
    var s := Stage(records, blocked, Twice(state), map[3 := op], recovery);
    RowState(state);
    assert Twice(state)[10 := Row(next)] == Twice(next);
    Moved(s, 10, m, next);
  }

  lemma RowState(state: RequestState)
    ensures Row(state).state == state
  {}

  /** Only the first credential is there to be retired. */
  lemma FirstRetires(s: Snapshot)
    requires s.records == [FIRST] || s.records == [LAPSED]
    ensures L.MatchingIds(s.records, DeviceRole, DEVICE) == {11}
    ensures Retire(s, {11}) == s.(records := [LAPSED], blocked := s.blocked + {12})
  {
    assert s.records[0] in s.records;
    assert VerifiersOf(s.records, {11}) == {12} && Disable(s.records, {11}) == [LAPSED];
  }

  lemma RecoveringIsSmall(state: RequestState)
    requires Open(state) || state.Consumed?
    ensures Small(Recovering(state)) && Calm(Recovering(state))
  {
    TwiceIsSmall(state);
    StageIsSmall([LAPSED], {12}, Twice(state), Recovery1(OpState.Pending, NONE, 0.0)[3],
        map[DEVICE := Recovery(3, 10)]);
  }

  lemma ConsumedStays(requests: map<Id, Request>)
    requires forall q :: q in requests ==> TerminalRequest(requests[q].state)
    ensures L.AbandonPairing(InvalidateApprovals(requests, {11}), DEVICE) == requests
    ensures InvalidateApprovals(requests, {11}) == requests
  {
    forall q | q in requests ensures InvalidateApprovals(requests, {11})[q] == requests[q] {}
    assert InvalidateApprovals(requests, {11}) == requests;
    forall q | q in requests ensures L.AbandonPairing(requests, DEVICE)[q] == requests[q] {}
    assert L.AbandonPairing(requests, DEVICE) == requests;
  }

  lemma Loses()
    ensures After(Paired(), 0.0, LifecycleTx(2, Some(CLERK), L.Ordered(Recover, 3, DeviceRole, DEVICE)), 2) == Lost()
    ensures Small(Lost()) && Calm(Lost())
  {
    hide After, Small, Calm, Row, IdsImmutable, Retire, L.MatchingIds, L.AbandonPairing;
    var s := Paired();
    PairedSmall();
    assert s.records[0] in s.records;
    assert |map[9 := Row(Consumed)]| == 1;
    RowState(Consumed);
    StageIsSmall([LAPSED], {12}, map[9 := Row(Consumed)], Recovery1(Queued, NONE, 0.0)[3],
        map[DEVICE := Recovery(3, NONE)]);
    StagesImmutable([FIRST], [LAPSED]);
    FirstRetires(s);
    ConsumedStays(s.requests);
    assert L.RevokeActive(s.operations, DEVICE) == map[];
    assert L.Controlled(s, 0.0, 2, Recover, 3, DeviceRole, DEVICE) == Lost();
    Ordered(s, Recover, 3);
  }

  lemma RecoveryAsked()
    ensures After(Lost(), 0.0, Asks(10), 3) == Recovering(Challenge)
  {
    hide After, Small, Calm, E.Unexpired;
    Loses();
    RecoveringIsSmall(Challenge);
    Unhindered(Lost());
    assert E.Opened(Lost(), 0.0, 2, KEY, DEVICE, 10) == Recovering(Challenge);
    Asked(Lost(), 10);
  }

  lemma Recovers()
    ensures After(Recovering(RequestState.Approved), 0.0, Step(E.Redeeming(10, true, 13, 14)), 3) == Found()
    ensures Small(Found()) && Calm(Found())
  {
    hide After, Small, Calm, IdsImmutable, E.Redeemed;
    var s := Recovering(RequestState.Approved);
    RecoveringIsSmall(RequestState.Approved);
    TwiceIsSmall(RequestState.Approved);
    TwiceIsSmall(Consumed);
    StageIsSmall([LAPSED, SECOND], {12}, Twice(Consumed), Recovery1(OpState.Delivered, 13, 300.0)[3],
        map[DEVICE := Recovery(3, 10)]);
    StagesImmutable([LAPSED], [LAPSED, SECOND]);
    RedeemedAgain();
    Redeemed(s, 10, 13, 14);
  }

  lemma Reopens()
    ensures After(Found(), 0.0, Asks(15), 3) == Reopened()
  {
    hide After, Small, Calm, E.Opened;
    Recovers();
    TwiceIsSmall(Consumed);
    StageIsSmall([LAPSED, SECOND], {12}, Reopened().requests, Reopened().operations[3], Reopened().recovery);
    OpenedAgain();
    Asked(Found(), 15);
  }

  lemma RedeemedAgain()
    ensures E.Redeemed(Recovering(RequestState.Approved), 10, 13, 14) == Found()
  {
    hide Retire, L.MatchingIds;
    FirstRetires(Recovering(RequestState.Approved));
    TwiceIsSmall(RequestState.Approved);
  }

  lemma OpenedAgain()
    ensures E.Opened(Found(), 0.0, 2, KEY, DEVICE, 15) == Reopened()
  {
    hide E.Unexpired, Small, Calm, Row, E.NewRequest, Twice;
    Recovers();
    TwiceConsumed();
    Unhindered(Found());
    NewIsRow(Found());
  }

  lemma TwiceConsumed()
    ensures |Twice(Consumed)| <= 3 && forall q :: q in Twice(Consumed) ==> Twice(Consumed)[q].state.Consumed?
  {
    TwiceIsSmall(Consumed);
  }

  lemma NewIsRow(s: Snapshot)
    requires s.owner == Owner(true, 1)
    ensures E.NewRequest(s, 0.0, 2, KEY, DEVICE) == Row(Challenge)
  {
    assert (0.0).Floor == 0;
  }

  function RecoveryPart(): seq<Moment> {
    [Ceremony()[5],
     At(LifecycleTx(2, Some(CLERK), L.Ordered(Recover, 3, DeviceRole, DEVICE)), 2, Lost()),
     At(Asks(10), 3, Recovering(Challenge)),
     At(Step(E.Proving(10, true, CODE)), 3, Recovering(Ready)),
     At(Step(E.Initiating(10, CODE)), 3, Recovering(Initiated)),
     At(Step(E.Approving(10, CODE)), 3, Recovering(RequestState.Approved)),
     At(Step(E.Redeeming(10, true, 13, 14)), 3, Found()),
     At(Asks(15), 3, Reopened())]
  }

  function RecoveryRun(): seq<Moment> { Ceremony() + RecoveryPart()[1..] }

  lemma RecoveryMoved(state: RequestState, m: E.Move, next: RequestState)
    requires || (state.Challenge? && m == E.Proving(10, true, CODE) && next.Ready?)
             || (state.Ready? && m == E.Initiating(10, CODE) && next.Initiated?)
             || (state.Initiated? && m == E.Approving(10, CODE) && next.Approved?)
    ensures After(Recovering(state), 0.0, Step(m), 3) == Recovering(next)
  {
    hide After, Small, Calm, Row;
    RecoveringIsSmall(state);
    RecoveringIsSmall(next);
    SecondMoved([LAPSED], {12}, Recovery1(OpState.Pending, NONE, 0.0)[3], map[DEVICE := Recovery(3, 10)], state, m,
        next);
  }

  lemma RecoveryHappens()
    ensures IsRun(RecoveryRun())
  {
    hide After, Small, Calm, Row, Lost, Recovering, Found, Reopened, Paired;
    FirstPairing();
    Loses();
    RecoveryAsked();
    RecoveryMoved(Challenge, E.Proving(10, true, CODE), Ready);
    RecoveryMoved(Ready, E.Initiating(10, CODE), Initiated);
    RecoveryMoved(Initiated, E.Approving(10, CODE), RequestState.Approved);
    Recovers();
    Reopens();
    assert IsRun(RecoveryPart());
    Joined(Ceremony(), RecoveryPart());
  }

  /** At the end of this run from the store's beginning, the credential of the re-opened recovery
      outlives the deadline until a sweep runs, and not after: the agreement of lazy expiry needs
      the hypothesis that pending operations hold no credential. */
  lemma ReopenedRecoveryExpiresOnlyWhenSwept()
    ensures var run := RecoveryRun(); var s := run[|run| - 1].s;
      && IsRun(run) && Inv(run[0].s) && Inv(s) && s == Reopened() && SECOND in s.records
      && Usable(s, SECOND, 300.0)
      && !Usable(L.Sweep(s, 300.0, 2), DisabledIf(SECOND, L.SweptIds(s, 300.0, 2)), 300.0)
  {
    hide IsRun, Inv, L.Sweep, L.SweptIds, Usable;
    RecoveryHappens();
    OwnedInv();
    RunInv(RecoveryRun(), |RecoveryRun()| - 1);
    ReopenedUsable();
    assert Reopened().records[1] in Reopened().records;
    Expiry.SweepTakesExactly(Reopened(), 300.0, 2, SECOND, 300.0);
  }

  lemma ReopenedUsable()
    ensures var s := Reopened(); Usable(s, SECOND, 300.0) && 13 in L.SweptIds(s, 300.0, 2) && RecordsValid(s.records)
  {
    var op := Reopened().operations[3];
    assert L.Due(op, 1, 300.0, 2) && 13 in L.Exposed(op);
  }

  // ---- A rotation of a device that is paired again ----

  function Rotation1(state: OpState, credentialId: Id, overlapUntil: real): map<Id, Operation> {
    map[3 := Operation(DeviceRole, DEVICE, Rotate, state, 86400.0, overlapUntil, credentialId, {11}, 1, 2)]
  }

  function Turned(): Snapshot { Stage([FIRST], {}, map[9 := Row(Consumed)], Rotation1(Queued, NONE, 0.0), map[]) }

  function Repairing(state: RequestState): Snapshot {
    Stage([FIRST], {}, Twice(state), Rotation1(Queued, NONE, 0.0), map[])
  }

  function Repaired(state: OpState): Snapshot {
    Stage([LAPSED, SECOND], {12}, Twice(Consumed), Rotation1(state, NONE, 0.0), map[])
  }

  function Handed(state: OpState): Snapshot {
    Stage([LAPSED, SECOND, THIRD], {12}, Twice(Consumed), Rotation1(state, 16, 300.0), map[])
  }

  function HolderOf(c: Credential): Principal { Principal(c.role, c.subject, c.id, c.verifier) }

  function RotationPart(): seq<Moment> {
    [Ceremony()[5],
     At(LifecycleTx(2, Some(CLERK), L.Ordered(Rotate, 3, DeviceRole, DEVICE)), 2, Turned()),
     At(Asks(10), 3, Repairing(Challenge)),
     At(Step(E.Proving(10, true, CODE)), 3, Repairing(Ready)),
     At(Step(E.Initiating(10, CODE)), 3, Repairing(Initiated)),
     At(Step(E.Approving(10, CODE)), 3, Repairing(RequestState.Approved)),
     At(Step(E.Redeeming(10, true, 13, 14)), 3, Repaired(Queued)),
     At(LifecycleTx(2, Some(HolderOf(SECOND)), L.Polling(Some(3))), 2, Repaired(OpState.Pending)),
     At(LifecycleTx(2, Some(HolderOf(SECOND)), L.Delivery(3, 16, 17)), 2, Handed(OpState.Delivered)),
     At(LifecycleTx(2, Some(HolderOf(THIRD)), L.Receipt(3, true)), 2, Handed(OpState.Acknowledged))]
  }

  function RotationRun(): seq<Moment> { Ceremony() + RotationPart()[1..] }

  lemma TurnedIsSmall()
    ensures Small(Turned()) && Calm(Turned())
  {
    assert |map[9 := Row(Consumed)]| == 1;
    StageIsSmall([FIRST], {}, map[9 := Row(Consumed)], Rotation1(Queued, NONE, 0.0)[3], map[]);
  }

  lemma Turns()
    ensures After(Paired(), 0.0, LifecycleTx(2, Some(CLERK), L.Ordered(Rotate, 3, DeviceRole, DEVICE)), 2) == Turned()
  {
    hide After, Small, Calm, Row, Retire, L.MatchingIds, Usable;
    var s := Paired();
    PairedSmall();
    TurnedIsSmall();
    FirstIsUsable();
    FirstRetires(s);
    StagesImmutable([FIRST], [FIRST]);
    assert s.records[0] in s.records;
    assert L.Controlled(s, 0.0, 2, Rotate, 3, DeviceRole, DEVICE) == Turned();
    Ordered(s, Rotate, 3);
  }

  lemma FirstIsUsable()
    ensures Usable(Paired(), FIRST, 0.0)
  {}

  lemma RepairingIsSmall(state: RequestState)
    requires Open(state) || state.Consumed?
    ensures Small(Repairing(state)) && Calm(Repairing(state))
  {
    TwiceIsSmall(state);
    StageIsSmall([FIRST], {}, Twice(state), Rotation1(Queued, NONE, 0.0)[3], map[]);
  }

  lemma RepairedIsSmall(state: OpState)
    requires state.Queued? || state.Pending?
    ensures Small(Repaired(state)) && Calm(Repaired(state))
  {
    TwiceIsSmall(Consumed);
    StageIsSmall([LAPSED, SECOND], {12}, Twice(Consumed), Rotation1(state, NONE, 0.0)[3], map[]);
  }

  lemma HandedIsSmall(state: OpState)
    requires state.Delivered? || state.Acknowledged?
    ensures Small(Handed(state)) && (state.Delivered? ==> Calm(Handed(state)))
  {
    TwiceIsSmall(Consumed);
    StageIsSmall([LAPSED, SECOND, THIRD], {12}, Twice(Consumed), Rotation1(state, 16, 300.0)[3], map[]);
  }

  lemma RepairAsked()
    ensures After(Turned(), 0.0, Asks(10), 3) == Repairing(Challenge)
  {
    hide After, Small, Calm, E.Unexpired;
    TurnedIsSmall();
    RepairingIsSmall(Challenge);
    Unhindered(Turned());
    assert E.Opened(Turned(), 0.0, 2, KEY, DEVICE, 10) == Repairing(Challenge);
    Asked(Turned(), 10);
  }

  lemma RepairMoved(state: RequestState, m: E.Move, next: RequestState)
    requires || (state.Challenge? && m == E.Proving(10, true, CODE) && next.Ready?)
             || (state.Ready? && m == E.Initiating(10, CODE) && next.Initiated?)
             || (state.Initiated? && m == E.Approving(10, CODE) && next.Approved?)
    ensures After(Repairing(state), 0.0, Step(m), 3) == Repairing(next)
  {
    hide After, Small, Calm, Row;
    RepairingIsSmall(state);
    RepairingIsSmall(next);
    SecondMoved([FIRST], {}, Rotation1(Queued, NONE, 0.0)[3], map[], state, m, next);
  }

  lemma Repairs()
    ensures After(Repairing(RequestState.Approved), 0.0, Step(E.Redeeming(10, true, 13, 14)), 3) == Repaired(Queued)
  {
    hide After, Small, Calm, IdsImmutable, Retire, L.MatchingIds;
    var s := Repairing(RequestState.Approved);
    RepairingIsSmall(RequestState.Approved);
    RepairedIsSmall(Queued);
    TwiceIsSmall(RequestState.Approved);
    StagesImmutable([FIRST], [LAPSED, SECOND]);
    FirstRetires(s);
    assert E.Redeemed(s, 10, 13, 14) == Repaired(Queued);
    Redeemed(s, 10, 13, 14);
  }

  lemma HoldersAreCurrent()
    ensures Current(Repaired(Queued), HolderOf(SECOND), 0.0)
        && Current(Repaired(OpState.Pending), HolderOf(SECOND), 0.0)
    ensures Current(Handed(OpState.Delivered), HolderOf(THIRD), 0.0)
  {
    assert Usable(Repaired(Queued), SECOND, 0.0) && Usable(Repaired(OpState.Pending), SECOND, 0.0);
    assert Usable(Handed(OpState.Delivered), THIRD, 0.0);
    assert Repaired(Queued).records[1] == Repaired(OpState.Pending).records[1] == SECOND;
    assert Handed(OpState.Delivered).records[2] == THIRD;
  }

  lemma Polls()
    ensures var tx := LifecycleTx(2, Some(HolderOf(SECOND)), L.Polling(Some(3)));
      Faithful(Repaired(Queued), 0.0, tx) && After(Repaired(Queued), 0.0, tx, 2) == Repaired(OpState.Pending)
  {
    hide After, Small, Calm, Row, Current, Faithful;
    RepairedIsSmall(Queued);
    RepairedIsSmall(OpState.Pending);
    HoldersAreCurrent();
    var s := Repaired(Queued);
    assert s.(operations := s.operations[3 := s.operations[3].(state := OpState.Pending)]) == Repaired(OpState.Pending);
    Polled(s, HolderOf(SECOND), 3);
  }

  lemma Delivers()
    ensures After(Repaired(OpState.Pending), 0.0, LifecycleTx(2, Some(HolderOf(SECOND)), L.Delivery(3, 16, 17)), 2)
         == Handed(OpState.Delivered)
  {
    hide After, Small, Calm, Row, Current, IdsImmutable;
    RepairedIsSmall(OpState.Pending);
    HandedIsSmall(OpState.Delivered);
    HoldersAreCurrent();
    StagesImmutable([LAPSED, SECOND], [LAPSED, SECOND, THIRD]);
    assert L.Handover(Repaired(OpState.Pending), 0.0, 3, 16, 17) == Handed(OpState.Delivered);
    HandsOver(Repaired(OpState.Pending), HolderOf(SECOND), 3, 16, 17);
  }

  lemma FirstStaysRetired(s: Snapshot)
    requires s.records == [LAPSED, SECOND, THIRD] && s.blocked == {12}
    ensures Retire(s, {11}) == s
  {
    assert s.records[0] in s.records;
    assert VerifiersOf(s.records, {11}) == {12} && Disable(s.records, {11}) == s.records;
  }

  lemma Acknowledges()
    ensures After(Handed(OpState.Delivered), 0.0, LifecycleTx(2, Some(HolderOf(THIRD)), L.Receipt(3, true)), 2)
         == Handed(OpState.Acknowledged)
  {
    hide After, Small, Calm, Current, IdsImmutable, Retire;
    var s := Handed(OpState.Delivered);
    HandedIsSmall(OpState.Delivered);
    HandedIsSmall(OpState.Acknowledged);
    HoldersAreCurrent();
    StagesImmutable([LAPSED, SECOND, THIRD], [LAPSED, SECOND, THIRD]);
    FirstStaysRetired(s);
    ConsumedStays(s.requests);
    assert L.Acked(s, 3) == Handed(OpState.Acknowledged);
    TakesReceipt(s, HolderOf(THIRD), 3);
  }

  lemma RotationHappens()
    ensures IsRun(RotationRun())
  {
    hide After, Faithful, Turned, Repairing, Repaired, Handed, Paired;
    FirstPairing();
    Turns();
    RepairAsked();
    RepairMoved(Challenge, E.Proving(10, true, CODE), Ready);
    RepairMoved(Ready, E.Initiating(10, CODE), Initiated);
    RepairMoved(Initiated, E.Approving(10, CODE), RequestState.Approved);
    Repairs();
    Polls();
    Delivers();
    Acknowledges();
    OthersFaithful();
    assert IsRun(RotationPart());
    Joined(Ceremony(), RotationPart());
  }

  lemma OthersFaithful()
    ensures forall s: Snapshot, now, tx: Tx :: (tx.LifecycleTx? ==> !tx.command.Polling?) ==> Faithful(s, now, tx)
  {}

  /** At the end of this run the rotation is acknowledged and two credentials are usable: exact
      handover needs that the device is not paired again between order and acknowledgement. */
  lemma RepairLeavesTwoUsable()
    ensures var run := RotationRun(); var s := run[|run| - 1].s;
      && IsRun(run) && Inv(run[0].s) && Inv(s) && s == Handed(OpState.Acknowledged)
      && SECOND in s.records && THIRD in s.records && Usable(s, SECOND, 0.0) && Usable(s, THIRD, 0.0)
      && !Covered(Handed(OpState.Delivered), 3)
  {
    hide IsRun, Inv, Usable;
    RotationHappens();
    OwnedInv();
    RunInv(RotationRun(), |RotationRun()| - 1);
    BothUsable();
    assert Handed(OpState.Acknowledged).records[1] == SECOND && Handed(OpState.Acknowledged).records[2] == THIRD;
    assert L.Matches(Handed(OpState.Delivered).records[1], DeviceRole, DEVICE);
  }

  lemma BothUsable()
    ensures Usable(Handed(OpState.Acknowledged), SECOND, 0.0) && Usable(Handed(OpState.Acknowledged), THIRD, 0.0)
  {}
}
