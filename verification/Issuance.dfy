/** Pairing over whole runs: a request issues at most one credential, and only after it was
    proved, initiated and approved, in that order. */
module Issuance {
  import opened Basics
  import opened Authority
  import opened Transitions
  import opened Requests
  import opened Upkeep
  import opened Records
  import opened Runs
  import opened Handover
  import opened Permission
  import L = Lifecycle
  import E = Enrollment
  import I = Integration
  import LT = Latch
  import Identity

  // ---- One row through one transaction ----

  ghost predicate Asks(tx: Tx, q: Id) {
    tx.EnrollmentTx? && tx.move.Asking? && tx.move.requestId == q
  }

  ghost predicate MovesOn(tx: Tx, q: Id) {
    tx.EnrollmentTx? && !tx.move.Asking? && tx.move.q == q
  }

  /** A row is left alone, made stale, moved by a pairing call that names it, or brand new. */
  ghost predicate RowStep(s: Snapshot, t: Snapshot, tx: Tx, q: Id) {
    q in t.requests ==>
      || (q in s.requests && Quiet(s.requests[q], t.requests[q]))
      || (q in s.requests && MovesOn(tx, q) && Moves(s.requests[q], t.requests[q], tx.move, tx.principal))
      || (Asks(tx, q) && t.requests[q].state.Challenge? && t.requests[q].attempts == 0)
  }

  lemma PairRowStep(s: map<Id, Request>, mid: map<Id, Request>, t: map<Id, Request>, now: real, m: E.Move,
                    principal: Option<Principal>, q: Id)
    requires AllQuiet(s, mid) && PairsRows(mid, t, now, m, principal) && q in t
    ensures || (q in s && Quiet(s[q], t[q]))
            || (q in s && !m.Asking? && m.q == q && Moves(s[q], t[q], m, principal))
            || (m.Asking? && m.requestId == q && t[q].state.Challenge? && t[q].attempts == 0)
  {
    hide Costs, Steps;
  }

  lemma TransactionRow(s: Snapshot, now: real, tx: Tx, cut: nat, q: Id)
    ensures RowStep(s, After(s, now, tx, cut), tx, q)
  {
    hide L.Act, E.Pair, I.Serve, VerifiersOf, Disable, L.SweptIds, L.LivePointers, L.SweepOps, I.LapsedIds,
      I.SweepGrant, E.MarkIfStale, Moves, PairsRows, InvalidateApprovals;
    var t := After(s, now, tx, cut);
    match tx
    case LifecycleTx(origin, principal, command) =>
      var swept := L.Sweep(s, now, origin);
      SweepQuiet(s, now, origin);
      ActQuiet(swept, now, origin, principal, command);
      if cut > 1 { QuietTwice(s.requests, swept.requests, t.requests); }
    case EnrollmentTx(origin, principal, move) =>
      var swept := L.Sweep(s, now, origin);
      var marked := E.MarkStale(swept, now, origin);
      SweepQuiet(s, now, origin);
      MarkStaleQuiet(swept, now, origin);
      QuietTwice(s.requests, swept.requests, marked.requests);
      if cut > 2 {
        PairRows(marked, now, origin, principal, move);
        if q in t.requests { PairRowStep(s.requests, marked.requests, t.requests, now, move, principal, q); }
      }
    case IntegrationTx(origin, principal, call) =>
      var swept := I.SweepGrants(s, now, origin);
      MarkStaleQuiet(swept, now, origin);
      ServeQuiet(swept, now, origin, principal, call);
    case HousekeepingTx(origin) => MarkStaleQuiet(s, now, origin);
    case OwnerTx(owner) =>
  }

  // ---- Runs ----

  ghost predicate InState(run: seq<Moment>, i: int, q: Id, state: RequestState) {
    0 <= i < |run| && q in run[i].s.requests && run[i].s.requests[q].state == state
  }

  /** The request enters `state` with the `j`-th transaction. */
  ghost predicate Enters(run: seq<Moment>, j: int, q: Id, state: RequestState) {
    0 < j < |run| && InState(run, j, q, state) && !InState(run, j - 1, q, state)
  }

  /** Request ids are random and never drawn twice. */
  ghost predicate FreshIds(run: seq<Moment>) {
    forall i, j, q :: 0 <= i < j < |run| && Asks(run[j].tx, q) ==> q !in run[i].s.requests
  }

  predicate Ceremonial(state: RequestState) {
    state.Ready? || state.Initiated? || state.Approved? || state.Consumed?
  }

  function Before(state: RequestState): RequestState
    requires Ceremonial(state)
  {
    match state
    case Ready => Challenge
    case Initiated => Ready
    case Approved => Initiated
    case Consumed => RequestState.Approved
  }

  lemma RunRow(run: seq<Moment>, j: nat, q: Id)
    requires IsRun(run) && 0 < j < |run|
    ensures RowStep(run[j - 1].s, run[j].s, run[j].tx, q)
  {
    hide After, Faithful, RowStep;
    assert Follows(run[j - 1], run[j]);
    TransactionRow(run[j - 1].s, run[j].now, run[j].tx, run[j].cut, q);
  }

  /** The transaction is the call that stands for entering the state, with the signature or code
      that it takes; an endorsement is sent, and recorded, in the name of a controller whose
      authority stands at that moment. */
  ghost predicate Stands(run: seq<Moment>, j: int, q: Id, state: RequestState) {
    && 0 < j < |run| && q in run[j - 1].s.requests && StandsFor(run[j - 1].s.requests[q], run[j], q, state)
  }

  ghost predicate StandsFor(before: Request, m: Moment, q: Id, state: RequestState) {
    && MovesOn(m.tx, q) && q in m.s.requests
    && var row, move := m.s.requests[q], m.tx.move;
       && row.binding == before.binding
       && match state
          case Ready => move.Proving? && move.signed
          case Initiated =>
            && move.Initiating? && move.presented == before.codeHash && row.initiator == m.tx.principal
            && ControllerSpeaks(m.s, m.tx.principal, row.binding.kind, m.now)
          case Approved =>
            && move.Approving? && move.presented == before.codeHash && row.approver == m.tx.principal
            && row.initiator == before.initiator
            && ControllerSpeaks(m.s, m.tx.principal, row.binding.kind, m.now)
          case Consumed =>
            move.Redeeming? && move.signed && row.initiator == before.initiator && row.approver == before.approver
          case Denied => move.Denying? && ControllerSpeaks(m.s, m.tx.principal, row.binding.kind, m.now)
          case Cancelled => move.Cancelling? && move.signed
          case Failed => before.attempts >= 4
          case _ => false
  }

  /** A row in this state moved there by a call, or was opened in it or made stale. */
  predicate Moved(state: RequestState) { !state.Challenge? && !state.Stale? }

  lemma EntersByCall(run: seq<Moment>, j: nat, q: Id, state: RequestState)
    requires IsRun(run) && Moved(state) && Enters(run, j, q, state)
    ensures q in run[j - 1].s.requests && !TerminalRequest(run[j - 1].s.requests[q].state)
    ensures Stands(run, j, q, state)
  {
    hide IsRun, After, ControllerSpeaks;
    RunRow(run, j, q);
    if state.Initiated? || state.Approved? || state.Denied? {
      assert Follows(run[j - 1], run[j]) by { FollowsAt(run, j); }
      EndorsedByController(run[j - 1].s, run[j].now, run[j].tx, run[j].cut, q);
    }
  }

  /** A changed row was changed past the upkeep, by a controller if the call takes one. */
  lemma EndorsedByController(s: Snapshot, now: real, tx: Tx, cut: nat, q: Id)
    requires MovesOn(tx, q) && Controls(tx.move) && q in s.requests
    requires q in After(s, now, tx, cut).requests
    requires var t := After(s, now, tx, cut); !Quiet(s.requests[q], t.requests[q])
    requires After(s, now, tx, cut).requests[q].binding == s.requests[q].binding
    ensures var t := After(s, now, tx, cut); ControllerSpeaks(t, tx.principal, t.requests[q].binding.kind, now)
  {
    hide After, ControllerSpeaks, OnlyUpkeep, Quiet;
    UpkeepQuiet(s, now, tx, q);
    MarkedBinding(s.requests[q], After(s, now, tx, 2).requests[q]);
    PairingNeedsAController(s, now, tx, cut);
    StillAController(s, now, tx, cut, s.requests[q].binding.kind);
  }

  lemma MarkedBinding(before: Request, after: Request)
    requires Quiet(before, after)
    ensures after.binding == before.binding
  {}

  lemma UpkeepQuiet(s: Snapshot, now: real, tx: Tx, q: Id)
    requires tx.EnrollmentTx? && q in s.requests
    ensures forall cut: nat :: cut <= 2 ==>
      q in After(s, now, tx, cut).requests && Quiet(s.requests[q], After(s, now, tx, cut).requests[q])
    ensures forall t :: OnlyUpkeep(s, t, now, tx) ==> q in t.requests && Quiet(s.requests[q], t.requests[q])
  {
    hide L.Sweep, E.MarkStale, E.Pair;
    var swept := L.Sweep(s, now, tx.origin);
    SweepQuiet(s, now, tx.origin);
    MarkStaleQuiet(swept, now, tx.origin);
    QuietTwice(s.requests, swept.requests, E.MarkStale(swept, now, tx.origin).requests);
  }

  /** A phase of the ceremony is entered only from the phase before it, by the call that
      stands for it. */
  lemma EntersFromBefore(run: seq<Moment>, j: nat, q: Id, state: RequestState)
    requires IsRun(run) && Ceremonial(state) && Enters(run, j, q, state)
    ensures InState(run, j - 1, q, Before(state))
    ensures Stands(run, j, q, state)
  {
    hide IsRun, Stands;
    RunRow(run, j, q);
    EntersByCall(run, j, q, state);
  }

  /** A request that is in a phase entered it at some moment since it was opened, and has been in
      it since. */
  lemma {:induction false} EnteredAt(run: seq<Moment>, j: nat, q: Id, state: RequestState) returns (i: nat)
    requires IsRun(run) && Ceremonial(state) && InState(run, j, q, state) && q !in run[0].s.requests
    ensures 0 < i <= j && Enters(run, i, q, state)
    ensures run[j].s.requests[q].initiator == run[i].s.requests[q].initiator
    ensures run[j].s.requests[q].approver == run[i].s.requests[q].approver
    ensures run[j].s.requests[q].binding == run[i].s.requests[q].binding
  {
    hide IsRun;
    if InState(run, j - 1, q, state) {
      i := EnteredAt(run, j - 1, q, state);
      RunRow(run, j, q);
    } else {
      i := j;
    }
  }

  /** Before a request is redeemed it was proved, then initiated, then approved: each by the call
      that stands for it, and the request still names who initiated and who approved it. */
  lemma RedeemedAfterCeremony(run: seq<Moment>, j: nat, q: Id) returns (a: nat, b: nat, c: nat)
    requires IsRun(run) && q !in run[0].s.requests && Enters(run, j, q, Consumed)
    ensures 0 < a < b < c < j
    ensures Enters(run, a, q, Ready) && Stands(run, a, q, Ready)
    ensures Enters(run, b, q, Initiated) && Stands(run, b, q, Initiated)
    ensures Enters(run, c, q, RequestState.Approved)
    ensures Stands(run, c, q, RequestState.Approved)
    ensures Stands(run, j, q, Consumed)
    ensures run[j].s.requests[q].initiator == run[b].tx.principal
    ensures run[j].s.requests[q].approver == run[c].tx.principal
  {
    hide IsRun, InState, ControllerSpeaks;
    EntersFromBefore(run, j, q, Consumed);
    c := EnteredAt(run, j - 1, q, RequestState.Approved);
    EntersFromBefore(run, c, q, RequestState.Approved);
    b := EnteredAt(run, c - 1, q, Initiated);
    EntersFromBefore(run, b, q, Initiated);
    a := EnteredAt(run, b - 1, q, Ready);
    EntersFromBefore(run, a, q, Ready);
  }

  /** A browser pairing is opened only by the owner. */
  lemma BrowserOpenedByOwner(run: seq<Moment>, j: nat, q: Id)
    requires IsRun(run) && 0 < j < |run| && q !in run[j - 1].s.requests && q in run[j].s.requests
    ensures Asks(run[j].tx, q) && run[j].s.requests[q].state.Challenge?
    ensures run[j].s.requests[q].binding == run[j].tx.move.binding
    ensures run[j].s.requests[q].binding.kind.Browser? ==>
              ControllerSpeaks(run[j].s, run[j].tx.principal, Browser, run[j].now)
  {
    hide After, ControllerSpeaks, OnlyUpkeep, IsRun;
    assert Follows(run[j - 1], run[j]) by { FollowsAt(run, j); }
    var s, now, tx, cut := run[j - 1].s, run[j].now, run[j].tx, run[j].cut;
    RunRow(run, j, q);
    OpenedBinding(s, now, tx, cut, q);
    if tx.move.binding.kind.Browser? {
      PairingNeedsAController(s, now, tx, cut);
      StillAController(s, now, tx, cut, Browser);
    }
  }

  lemma FollowsAt(run: seq<Moment>, j: nat)
    requires IsRun(run) && 0 < j < |run|
    ensures Follows(run[j - 1], run[j])
  {}

  lemma OpenedBinding(s: Snapshot, now: real, tx: Tx, cut: nat, q: Id)
    requires Asks(tx, q) && q !in s.requests && q in After(s, now, tx, cut).requests
    ensures 2 < cut && After(s, now, tx, cut).requests[q].binding == tx.move.binding
    ensures !OnlyUpkeep(s, After(s, now, tx, cut), now, tx)
  {
    hide L.Sweep, E.MarkStale, E.Pair, E.Unexpired, Moves;
    var swept := L.Sweep(s, now, tx.origin);
    var marked := E.MarkStale(swept, now, tx.origin);
    SweepQuiet(s, now, tx.origin);
    MarkStaleQuiet(swept, now, tx.origin);
    PairRows(marked, now, tx.origin, tx.principal, tx.move);
  }

  /** Finished requests never change again: they are kept as they are until they are dropped,
      and never come back. */
  lemma {:induction false} FinishedIsFinal(run: seq<Moment>, i: nat, j: nat, q: Id)
    requires IsRun(run) && FreshIds(run) && i <= j < |run|
    requires q in run[i].s.requests && TerminalRequest(run[i].s.requests[q].state)
    ensures q in run[j].s.requests ==> run[j].s.requests[q] == run[i].s.requests[q]
    decreases j - i
  {
    hide IsRun;
    if i < j {
      FinishedIsFinal(run, i, j - 1, q);
      RunRow(run, j, q);
      DroppedStaysDropped(run, i, j, q);
    }
  }

  lemma DroppedStaysDropped(run: seq<Moment>, i: nat, j: nat, q: Id)
    requires FreshIds(run) && i < j < |run| && q in run[i].s.requests
    ensures !Asks(run[j].tx, q)
  {}

  /** A request issues at most one credential. */
  lemma RedeemedOnce(run: seq<Moment>, i: nat, j: nat, q: Id)
    requires IsRun(run) && FreshIds(run) && Enters(run, i, q, Consumed) && Enters(run, j, q, Consumed)
    ensures i == j
  {
    hide IsRun, FreshIds;
    if i < j {
      EntersFromBefore(run, j, q, Consumed);
      FinishedIsFinal(run, i, j - 1, q);
    } else if j < i {
      EntersFromBefore(run, i, q, Consumed);
      FinishedIsFinal(run, j, i - 1, q);
    }
  }

  /** Every credential minted by pairing stems from one completed ceremony of its own. */
  lemma MintedByOneCeremony(run: seq<Moment>, j: nat, q: Id) returns (a: nat, b: nat, c: nat)
    requires IsRun(run) && FreshIds(run) && q !in run[0].s.requests
    requires 0 < j < |run| && Mints(run[j - 1].s, run[j].s, Pairing(q))
    ensures 0 < a < b < c < j && Enters(run, a, q, Ready) && Enters(run, b, q, Initiated)
        && Enters(run, c, q, RequestState.Approved)
    ensures forall i :: 0 < i < |run| && Mints(run[i - 1].s, run[i].s, Pairing(q)) ==> i == j
  {
    hide IsRun, FreshIds;
    a, b, c := RedeemedAfterCeremony(run, j, q);
    forall i | 0 < i < |run| && Mints(run[i - 1].s, run[i].s, Pairing(q)) ensures i == j {
      RedeemedOnce(run, i, j, q);
    }
  }

  // ---- What redemption checks ----

  /** A redemption that mints a credential happens in time, on the origin and under the owner
      generation of the request, with whoever initiated and approved it still current. */
  lemma RedemptionIsAuthorized(s: Snapshot, now: real, origin: Id, principal: Option<Principal>, m: E.Move)
    requires EnrollmentValid(s.requests)
    requires m.Redeeming? && |E.Pair(s, now, origin, principal, m).after.records| != |s.records|
    ensures m.q in s.requests && m.signed
    ensures var row := s.requests[m.q];
      && row.state.Approved? && now < row.expiresAt
      && row.origin == origin && row.generation == s.owner.generation
      && row.initiator.Some? && Holds(s, row.initiator.value, now)
      && row.approver.Some? && Holds(s, row.approver.value, now)
      && (row.device in s.bindings ==> s.bindings[row.device] == row.binding)
      && (row.device !in s.bindings ==> forall r :: r in s.records ==> r.subject != row.device)
  {
    hide Admissible, VerifiersOf, Disable, Usable, L.MatchingIds;
    assert RequestValid(s.requests[m.q]);
  }

  // ---- One live request per device ----

  ghost predicate Pending(row: Request, now: real) {
    !TerminalRequest(row.state) && now < row.expiresAt
  }

  ghost predicate OnePending(requests: map<Id, Request>, now: real) {
    forall p, q ::
      p in requests && q in requests && requests[p].device == requests[q].device
      && Pending(requests[p], now) && Pending(requests[q], now)
      ==> p == q
  }

  lemma QuietOnePending(before: map<Id, Request>, after: map<Id, Request>, now: real)
    requires AllQuiet(before, after) && OnePending(before, now)
    ensures OnePending(after, now)
  {}

  lemma MovedOnePending(before: map<Id, Request>, after: map<Id, Request>, now: real, m: E.Move,
                        principal: Option<Principal>)
    requires !m.Asking? && PairsRows(before, after, now, m, principal) && OnePending(before, now)
    ensures OnePending(after, now)
  {}

  /** Once stale requests are marked, a pending one is live. */
  lemma MarkedPendingIsLive(s: Snapshot, now: real, origin: Id, q: Id)
    requires var t := E.MarkStale(s, now, origin); q in t.requests && Pending(t.requests[q], now)
    ensures var t := E.MarkStale(s, now, origin); E.Live(t, t.requests[q], now, origin)
  {}

  lemma OpenedOnePending(s: Snapshot, now: real, origin: Id, m: E.Move)
    requires m.Asking? && OnePending(s.requests, now)
    requires forall q :: q in s.requests && Pending(s.requests[q], now) ==> E.Live(s, s.requests[q], now, origin)
    requires !E.DeviceBusy(s, E.Unexpired(s.requests, now), m.device, now, origin)
    ensures OnePending(E.Opened(s, now, origin, m.binding, m.device, m.requestId).requests, now)
  {
    hide E.Live, E.NewRequest;
    var t := E.Opened(s, now, origin, m.binding, m.device, m.requestId);
    assert E.NewRequest(s, now, origin, m.binding, m.device).device == m.device
      by { NewDevice(s, now, origin, m.binding, m.device); }
    forall p | p in t.requests && p != m.requestId && t.requests[p].device == m.device
      ensures !Pending(t.requests[p], now) {
      assert p in E.Unexpired(s.requests, now);
    }
  }

  lemma NewDevice(s: Snapshot, now: real, origin: Id, binding: Binding, device: Subject)
    ensures E.NewRequest(s, now, origin, binding, device).device == device
  {}

  lemma PairOnePending(s: Snapshot, now: real, origin: Id, principal: Option<Principal>, m: E.Move)
    requires OnePending(s.requests, now)
    requires forall q :: q in s.requests && Pending(s.requests[q], now) ==> E.Live(s, s.requests[q], now, origin)
    ensures OnePending(E.Pair(s, now, origin, principal, m).after.requests, now)
  {
    hide OnePending, E.Pair, E.Opened, E.Live, E.ResolvesTo, E.DeviceBusy, E.Unexpired, PairsRows;
    if m.Asking? {
      Identity.AskingChecked(s, now, origin, principal, m);
      if E.Pair(s, now, origin, principal, m).after != s { OpenedOnePending(s, now, origin, m); }
    } else {
      PairRows(s, now, origin, principal, m);
      MovedOnePending(s.requests, E.Pair(s, now, origin, principal, m).after.requests, now, m, principal);
    }
  }

  lemma StepOnePending(s: Snapshot, now: real, tx: Tx, cut: nat)
    requires OnePending(s.requests, now)
    ensures OnePending(After(s, now, tx, cut).requests, now)
  {
    hide OnePending, AllQuiet, L.Act, E.Pair, I.Serve, VerifiersOf, Disable, L.SweptIds, L.LivePointers,
      L.SweepOps, I.LapsedIds, I.SweepGrant, E.MarkIfStale, InvalidateApprovals, E.Live;
    match tx
    case LifecycleTx(origin, principal, command) =>
      var swept := L.Sweep(s, now, origin);
      SweepQuiet(s, now, origin);
      QuietOnePending(s.requests, swept.requests, now);
      ActQuiet(swept, now, origin, principal, command);
      QuietOnePending(swept.requests, L.Act(swept, now, origin, principal, command).after.requests, now);
    case EnrollmentTx(origin, principal, move) =>
      var swept := L.Sweep(s, now, origin);
      var marked := E.MarkStale(swept, now, origin);
      SweepQuiet(s, now, origin);
      QuietOnePending(s.requests, swept.requests, now);
      MarkStaleQuiet(swept, now, origin);
      QuietOnePending(swept.requests, marked.requests, now);
      forall q | q in marked.requests && Pending(marked.requests[q], now)
        ensures E.Live(marked, marked.requests[q], now, origin) {
        MarkedPendingIsLive(swept, now, origin, q);
      }
      PairOnePending(marked, now, origin, principal, move);
    case IntegrationTx(origin, principal, call) =>
      var swept := I.SweepGrants(s, now, origin);
      MarkStaleQuiet(swept, now, origin);
      QuietOnePending(swept.requests, E.MarkStale(swept, now, origin).requests, now);
      ServeQuiet(swept, now, origin, principal, call);
      QuietOnePending(swept.requests, I.Serve(swept, now, origin, principal, call).after.requests, now);
    case HousekeepingTx(origin) =>
      MarkStaleQuiet(s, now, origin);
      QuietOnePending(s.requests, E.MarkStale(s, now, origin).requests, now);
    case OwnerTx(owner) =>
  }

  /** At any moment of a run at most one unexpired request of a device is unfinished. */
  lemma {:induction false} OnePendingAlways(run: seq<Moment>, i: nat)
    requires IsRun(run) && OnePending(run[0].s.requests, run[0].now) && i < |run|
    ensures OnePending(run[i].s.requests, run[i].now)
  {
    hide After, Faithful;
    if i > 0 {
      OnePendingAlways(run, i - 1);
      assert Follows(run[i - 1], run[i]);
      StepOnePending(run[i - 1].s, run[i].now, run[i].tx, run[i].cut);
    }
  }

  // ---- One key per device, over the whole run ----

  /** Whenever two pairings issued credentials under one device id, both requests carried the
      same key and kind; and one key never gets credentials under two device ids. */
  lemma OneKeyPerDevice(run: seq<Moment>, i: nat, j: nat, p: Id, q: Id)
    requires IsRun(run) && Inv(run[0].s) && 0 < i <= j < |run|
    requires Mints(run[i - 1].s, run[i].s, Pairing(p)) && Mints(run[j - 1].s, run[j].s, Pairing(q))
    ensures run[i - 1].s.requests[p].device == run[j - 1].s.requests[q].device <==>
            run[i - 1].s.requests[p].binding == run[j - 1].s.requests[q].binding
  {
    hide Inv, After, Faithful, Mints;
    MintedBound(run, i, p);
    MintedBound(run, j, q);
    RunPersists(run, i, j);
    RunInv(run, j);
    InjectiveIn(run[j].s);
  }

  lemma InjectiveIn(s: Snapshot)
    requires Inv(s)
    ensures Identity.Injective(s.bindings)
  {}

  lemma MintedBound(run: seq<Moment>, j: nat, q: Id)
    requires IsRun(run) && Inv(run[0].s) && 0 < j < |run| && Mints(run[j - 1].s, run[j].s, Pairing(q))
    ensures q in run[j - 1].s.requests
    ensures run[j - 1].s.requests[q].device in run[j].s.bindings
    ensures run[j].s.bindings[run[j - 1].s.requests[q].device] == run[j - 1].s.requests[q].binding
  {
    hide Inv, After, Faithful;
    assert Follows(run[j - 1], run[j]);
    RunInv(run, j - 1);
    CredentialsAreMinted(run[j - 1].s, run[j].now, run[j].tx, run[j].cut);
    TransactionRow(run[j - 1].s, run[j].now, run[j].tx, run[j].cut, q);
    BoundByMinting(run[j - 1].s, run[j].now, run[j].tx, run[j].cut, q);
  }

  lemma BoundByMinting(s: Snapshot, now: real, tx: Tx, cut: nat, q: Id)
    requires Mints(s, After(s, now, tx, cut), Pairing(q)) && MovesOn(tx, q)
    ensures var t := After(s, now, tx, cut);
      q in s.requests && s.requests[q].device in t.bindings && t.bindings[s.requests[q].device] == s.requests[q].binding
  {
    hide E.Pair, E.Opened, VerifiersOf, Disable, L.MatchingIds, L.SweptIds, L.LivePointers, L.SweepOps,
      InvalidateApprovals, E.MarkIfStale;
    var origin, principal, move := tx.origin, tx.principal, tx.move;
    var swept := L.Sweep(s, now, origin);
    var marked := E.MarkStale(swept, now, origin);
    SweepQuiet(s, now, origin);
    MarkStaleQuiet(swept, now, origin);
    QuietTwice(s.requests, swept.requests, marked.requests);
    RetireShape(s, L.SweptIds(s, now, origin));
    LT.PairShape(marked, now, origin, principal, move);
    PairMints(marked, now, origin, principal, move);
    assert q in s.requests ==> Quiet(s.requests[q], marked.requests[q]);
  }
}
