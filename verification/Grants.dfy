/** Integration enrollment over whole runs: an agent's credential becomes usable only after its
    request was approved, its credential delivered, and its saving acknowledged, in that order;
    and a request issues at most one credential. */
module Grants {
  import opened Basics
  import opened Authority
  import opened Transitions
  import opened Runs
  import opened Handover
  import opened Linked
  import opened Permission
  import L = Lifecycle
  import E = Enrollment
  import I = Integration
  import LT = Latch
  import Registry

  // ----- One request through one transaction -----

  /** What an application says never changes. */
  ghost predicate SameTerms(a: Grant, b: Grant) {
    && a.expiresAt == b.expiresAt && a.generation == b.generation && a.origin == b.origin
    && a.name == b.name && a.secretHash == b.secretHash && a.codeHash == b.codeHash
  }

  /** Left alone, or ended by the sweep. */
  ghost predicate Quiet(g: Grant, h: Grant) {
    && SameTerms(g, h) && h.credentialId == g.credentialId && h.attempts == g.attempts
    && (h.state == g.state || h.state.Expired? || h.state.Stale? || h.state.Revoked?)
  }

  /** A wrong code costs one attempt and nothing else, except that the fifth one costs the
      request. */
  ghost predicate Costs(g: Grant, h: Grant) {
    && h.attempts == g.attempts + 1 && h.credentialId == g.credentialId
    && (g.state.Pending? || g.state.Approved?)
    && h.state == (if h.attempts < 5 then g.state else GrantState.Failed)
  }

  /** Moved by the call that stands for the step, with the code or secret that it takes. */
  ghost predicate Steps(g: Grant, h: Grant, c: I.Call) {
    && h.attempts == g.attempts
    && (h.credentialId == g.credentialId || h.state.Delivered?)
    && match h.state
       case Approved => c.Approving? && c.presented == g.codeHash && (g.state.Pending? || g.state.Approved?)
       case Delivered => c.Collecting? && c.secret == g.secretHash && g.state.Approved?
       case Completed => c.Saving? && c.saved && c.secret == g.secretHash && g.state.Delivered?
       case Denied => c.Denying? && !TerminalGrant(g.state)
       case Cancelled => c.Withdrawing? && c.secret == g.secretHash && !TerminalGrant(g.state)
       case _ => false
  }

  ghost predicate Moves(g: Grant, h: Grant, c: I.Call) {
    SameTerms(g, h) && ((c.Approving? && c.presented != g.codeHash && Costs(g, h)) || Steps(g, h, c))
  }

  ghost predicate RowStep(before: map<Id, Grant>, after: map<Id, Grant>, c: I.Call, k: Id) {
    k in after ==>
      || (k in before && Quiet(before[k], after[k]))
      || (k in before && c.k == k && Moves(before[k], after[k], c))
      || (k !in before && c.k == k && c.Applying? && after[k].state.Pending? && after[k].attempts == 0
          && after[k].credentialId == NONE)
  }

  lemma ApplyRow(s: Snapshot, now: real, origin: Id, c: I.Call, k: Id)
    requires c.Applying? && c.k !in s.grants
    ensures RowStep(s.grants, I.Apply(s, now, origin, c.k, c.secret, c.code, c.name, c.expiresAt).after.grants, c, k)
  {
    hide Admissible, E.MarkIfStale;
  }

  lemma ApprovalRow(s: Snapshot, c: I.Call, k: Id)
    requires c.Approving? && c.k in s.grants
    ensures RowStep(s.grants, I.Approval(s, c.k, c.presented).after.grants, c, k)
  {
    hide Admissible;
  }

  lemma EndedRow(s: Snapshot, c: I.Call, target: GrantState, k: Id)
    requires c.k in s.grants
    requires || (c.Denying? && target.Denied?)
             || (c.Withdrawing? && target.Cancelled? && c.secret == s.grants[c.k].secretHash)
    ensures RowStep(s.grants, I.Ended(s, c.k, target).after.grants, c, k)
  {
    hide Admissible, VerifiersOf, Disable;
  }

  lemma ServeRow(s: Snapshot, now: real, origin: Id, principal: Option<Principal>, c: I.Call, k: Id)
    ensures RowStep(s.grants, I.Serve(s, now, origin, principal, c).after.grants, c, k)
  {
    hide Admissible, VerifiersOf, Disable, I.Apply, I.Approval, I.Ended, I.Presents, I.Enable, IsOwner;
    if c.Applying? {
      if c.k !in s.grants { ApplyRow(s, now, origin, c, k); }
    } else if c.k in s.grants {
      if c.Approving? { ApprovalRow(s, c, k); }
      if c.Denying? { EndedRow(s, c, GrantState.Denied, k); }
      if c.Withdrawing? && c.secret == s.grants[c.k].secretHash { EndedRow(s, c, GrantState.Cancelled, k); }
    }
  }

  ghost predicate TxStep(s: Snapshot, t: Snapshot, tx: Tx, k: Id) {
    k in t.grants ==>
      || (k in s.grants && Quiet(s.grants[k], t.grants[k]))
      || (tx.IntegrationTx? && RowStep(s.grants, t.grants, tx.call, k))
  }

  lemma SweptRow(s: Snapshot, now: real, origin: Id, k: Id)
    ensures var t := I.SweepGrants(s, now, origin);
      && t.grants.Keys == s.grants.Keys
      && (k in s.grants ==> Quiet(s.grants[k], t.grants[k]))
  {
    hide VerifiersOf, Disable, I.LapsedIds, I.SweepGrant;
  }

  lemma TransactionRow(s: Snapshot, now: real, tx: Tx, cut: nat, k: Id)
    ensures TxStep(s, After(s, now, tx, cut), tx, k)
  {
    hide L.Act, L.Sweep, E.Pair, E.MarkStale, I.Serve, I.SweepGrants;
    match tx
    case LifecycleTx(origin, principal, command) =>
      SweptElsewhere(s, now, origin);
      Registry.ActGrants(L.Sweep(s, now, origin), now, origin, principal, command);
    case EnrollmentTx(origin, principal, move) =>
      SweptElsewhere(s, now, origin);
      MarkedElsewhere(L.Sweep(s, now, origin), now, origin);
      Registry.PairGrants(E.MarkStale(L.Sweep(s, now, origin), now, origin), now, origin, principal, move);
    case IntegrationTx(origin, principal, call) =>
      SweptRow(s, now, origin, k);
      MarkedElsewhere(I.SweepGrants(s, now, origin), now, origin);
      ServeRow(I.SweepGrants(s, now, origin), now, origin, principal, call, k);
    case HousekeepingTx(origin) => MarkedElsewhere(s, now, origin);
    case OwnerTx(owner) =>
  }

  lemma SweptElsewhere(s: Snapshot, now: real, origin: Id)
    ensures L.Sweep(s, now, origin).grants == s.grants
  {}

  lemma MarkedElsewhere(s: Snapshot, now: real, origin: Id)
    ensures E.MarkStale(s, now, origin).grants == s.grants
  {}

  // ----- Runs -----

  ghost predicate InState(run: seq<Moment>, i: int, k: Id, state: GrantState) {
    0 <= i < |run| && k in run[i].s.grants && run[i].s.grants[k].state == state
  }

  ghost predicate Enters(run: seq<Moment>, j: int, k: Id, state: GrantState) {
    0 < j < |run| && InState(run, j, k, state) && !InState(run, j - 1, k, state)
  }

  predicate Ceremonial(state: GrantState) { state.Approved? || state.Delivered? || state.Completed? }

  function Before(state: GrantState): GrantState
    requires Ceremonial(state)
  {
    match state
    case Approved => GrantState.Pending
    case Delivered => GrantState.Approved
    case Completed => GrantState.Delivered
  }

  /** The `j`-th transaction is the call that stands for entering the state, with the code or
      secret that it takes; approving and denying are the owner's. */
  ghost predicate Stands(run: seq<Moment>, j: int, k: Id, state: GrantState) {
    && 0 < j < |run| && k in run[j - 1].s.grants && StandsFor(run[j - 1].s.grants[k], run[j], k, state)
  }

  ghost predicate StandsFor(before: Grant, m: Moment, k: Id, state: GrantState) {
    && m.tx.IntegrationTx? && m.tx.call.k == k
    && var c := m.tx.call;
       match state
       case Approved => c.Approving? && c.presented == before.codeHash && OwnerSpeaks(m.s.owner, m.tx.principal)
       case Delivered => c.Collecting? && c.secret == before.secretHash
       case Completed =>
         c.Saving? && c.saved && c.secret == before.secretHash && Presented(m.s, before.credentialId, c.verifier)
       case Denied => c.Denying? && OwnerSpeaks(m.s.owner, m.tx.principal)
       case Cancelled => c.Withdrawing? && c.secret == before.secretHash
       case Failed => c.Approving? && c.presented != before.codeHash && before.attempts >= 4
       case _ => false
  }

  /** The credential, now enabled, is the one whose token was presented. */
  ghost predicate Presented(s: Snapshot, id: Id, verifier: Id) {
    exists r :: r in s.records && r.id == id && r.verifier == verifier && r.enabled && r.verifier !in s.blocked
  }

  lemma CompletionPresents(s: Snapshot, now: real, tx: Tx, cut: nat, k: Id)
    requires tx.IntegrationTx? && k in s.grants && !s.grants[k].state.Completed? && k in After(s, now, tx, cut).grants
    requires After(s, now, tx, cut).grants[k].state.Completed?
    ensures tx.call.Saving? && Presented(After(s, now, tx, cut), s.grants[k].credentialId, tx.call.verifier)
  {
    hide I.SweepGrants, I.Serve, E.MarkStale, VerifiersOf, Disable, I.Enable, Admissible, Presented;
    var swept := I.SweepGrants(s, now, tx.origin);
    SweptRow(s, now, tx.origin, k);
    MarkedElsewhere(swept, now, tx.origin);
    LT.ServeShape(swept, now, tx.origin, tx.principal, tx.call);
    if tx.call.Saving? && tx.call.k in swept.grants && I.Presents(swept, swept.grants[tx.call.k], tx.call.verifier) {
      ActivatedPresents(swept, tx.call.k, tx.call.verifier);
    }
  }

  lemma ActivatedPresents(s: Snapshot, k: Id, verifier: Id)
    requires k in s.grants && I.Presents(s, s.grants[k], verifier)
    ensures Presented(I.Activated(s, k), s.grants[k].credentialId, verifier)
  {
    var i :| 0 <= i < |s.records| && s.records[i].id == s.grants[k].credentialId && s.records[i].verifier == verifier
             && verifier !in s.blocked;
    assert I.Activated(s, k).records[i] in I.Activated(s, k).records;
  }

  /** A request in this state moved there by a call, not by applying or by the sweep. */
  predicate Moved(state: GrantState) {
    !state.Pending? && !state.Expired? && !state.Stale? && !state.Revoked?
  }

  lemma EntersByCall(run: seq<Moment>, j: nat, k: Id, state: GrantState)
    requires IsRun(run) && Moved(state) && Enters(run, j, k, state)
    ensures Stands(run, j, k, state)
  {
    hide After, Faithful, OnlyUpkeep, OwnerSpeaks, Presented;
    assert Follows(run[j - 1], run[j]);
    var s, now, tx, cut := run[j - 1].s, run[j].now, run[j].tx, run[j].cut;
    TransactionRow(s, now, tx, cut, k);
    if state.Approved? || state.Denied? {
      UpkeepQuiet(s, now, tx, k);
      IntegrationNeedsTheOwner(s, now, tx, cut);
    }
    if state.Completed? { CompletionPresents(s, now, tx, cut, k); }
  }

  lemma UpkeepQuiet(s: Snapshot, now: real, tx: Tx, k: Id)
    requires tx.IntegrationTx? && k in s.grants
    ensures forall t :: OnlyUpkeep(s, t, now, tx) ==> k in t.grants && Quiet(s.grants[k], t.grants[k])
  {
    hide I.SweepGrants, E.MarkStale, I.Serve;
    SweptRow(s, now, tx.origin, k);
    MarkedElsewhere(I.SweepGrants(s, now, tx.origin), now, tx.origin);
  }

  lemma EntersFromBefore(run: seq<Moment>, j: nat, k: Id, state: GrantState)
    requires IsRun(run) && Ceremonial(state) && Enters(run, j, k, state)
    ensures InState(run, j - 1, k, Before(state)) && Stands(run, j, k, state)
  {
    hide After, Faithful, OwnerSpeaks;
    assert Follows(run[j - 1], run[j]);
    TransactionRow(run[j - 1].s, run[j].now, run[j].tx, run[j].cut, k);
    EntersByCall(run, j, k, state);
  }

  lemma {:induction false} EnteredAt(run: seq<Moment>, j: nat, k: Id, state: GrantState) returns (i: nat)
    requires IsRun(run) && InState(run, j, k, state) && k !in run[0].s.grants
    ensures 0 < i <= j && Enters(run, i, k, state)
  {
    hide IsRun;
    if InState(run, j - 1, k, state) {
      i := EnteredAt(run, j - 1, k, state);
    } else {
      i := j;
    }
  }

  /** Before a request is completed it was approved, then its credential was delivered; and the
      completing transaction acknowledges that the credential was saved. */
  lemma CompletedAfterCeremony(run: seq<Moment>, j: nat, k: Id) returns (a: nat, b: nat)
    requires IsRun(run) && k !in run[0].s.grants && Enters(run, j, k, GrantState.Completed)
    ensures 0 < a < b < j && Stands(run, j, k, GrantState.Completed)
    ensures Enters(run, a, k, GrantState.Approved) && Stands(run, a, k, GrantState.Approved)
    ensures Enters(run, b, k, GrantState.Delivered) && Stands(run, b, k, GrantState.Delivered)
  {
    hide IsRun, InState, Stands;
    EntersFromBefore(run, j, k, GrantState.Completed);
    b := EnteredAt(run, j - 1, k, GrantState.Delivered);
    EntersFromBefore(run, b, k, GrantState.Delivered);
    a := EnteredAt(run, b - 1, k, GrantState.Approved);
    EntersFromBefore(run, a, k, GrantState.Approved);
  }

  /** Whenever the credential that a request issued is usable, the request was approved, the
      credential delivered, and its saving acknowledged, at three earlier transactions in order. */
  lemma UsableWasAcknowledged(run: seq<Moment>, j: nat, k: Id, now: real) returns (a: nat, b: nat, c: nat)
    requires IsRun(run) && j < |run| && k !in run[0].s.grants && k in run[j].s.grants
    requires UsableId(run[j].s, run[j].s.grants[k].credentialId, now)
    ensures 0 < a < b < c <= j
    ensures Enters(run, a, k, GrantState.Approved) && Stands(run, a, k, GrantState.Approved)
    ensures Enters(run, b, k, GrantState.Delivered) && Stands(run, b, k, GrantState.Delivered)
    ensures Enters(run, c, k, GrantState.Completed) && Stands(run, c, k, GrantState.Completed)
  {
    hide IsRun, Stands, Withdrawn;
    c := EnteredAt(run, j, k, GrantState.Completed);
    a, b := CompletedAfterCeremony(run, c, k);
  }

  // ----- One credential a request -----

  lemma IssuedStays(s: Snapshot, now: real, tx: Tx, cut: nat, k: Id)
    requires k in s.grants && s.grants[k].credentialId != NONE && GrantsUnissued(s.grants)
    ensures var t := After(s, now, tx, cut); k in t.grants && t.grants[k].credentialId == s.grants[k].credentialId
  {
    hide L.Act, L.Sweep, E.Pair, E.MarkStale, I.Serve, I.SweepGrants, LT.GrantsMove, Retire, Admissible;
    match tx
    case LifecycleTx(origin, principal, command) =>
      SweptElsewhere(s, now, origin);
      Registry.ActGrants(L.Sweep(s, now, origin), now, origin, principal, command);
    case EnrollmentTx(origin, principal, move) =>
      SweptElsewhere(s, now, origin);
      MarkedElsewhere(L.Sweep(s, now, origin), now, origin);
      Registry.PairGrants(E.MarkStale(L.Sweep(s, now, origin), now, origin), now, origin, principal, move);
    case IntegrationTx(origin, principal, call) =>
      SweptRow(s, now, origin, k);
      MarkedElsewhere(I.SweepGrants(s, now, origin), now, origin);
      ServedStays(I.SweepGrants(s, now, origin), now, origin, principal, call, k);
    case HousekeepingTx(origin) => MarkedElsewhere(s, now, origin);
    case OwnerTx(owner) =>
  }

  lemma ServedStays(s: Snapshot, now: real, origin: Id, principal: Option<Principal>, c: I.Call, k: Id)
    requires k in s.grants && s.grants[k].credentialId != NONE && !s.grants[k].state.Approved?
    ensures var t := I.Serve(s, now, origin, principal, c).after;
      k in t.grants && t.grants[k].credentialId == s.grants[k].credentialId
  {
    hide I.Serve, VerifiersOf, Disable, I.Presents, I.Enable, Admissible;
    LT.ServeShape(s, now, origin, principal, c);
  }

  lemma {:induction false} IssuedAlong(run: seq<Moment>, i: nat, j: nat, k: Id)
    requires IsRun(run) && Inv(run[0].s) && i <= j < |run|
    requires k in run[i].s.grants && run[i].s.grants[k].credentialId != NONE
    ensures k in run[j].s.grants && run[j].s.grants[k].credentialId == run[i].s.grants[k].credentialId
    decreases j - i
  {
    hide Inv, After, Faithful, GrantsUnissued;
    if i < j {
      RunInv(run, i);
      Unissued(run[i].s);
      assert Follows(run[i], run[i + 1]);
      IssuedStays(run[i].s, run[i + 1].now, run[i + 1].tx, run[i + 1].cut, k);
      IssuedAlong(run, i + 1, j, k);
    }
  }

  lemma Unissued(s: Snapshot)
    requires Inv(s)
    ensures GrantsUnissued(s.grants)
  {}

  /** In every run a request issues at most one credential, and keeps it. */
  lemma IssuedOnce(run: seq<Moment>, i: nat, j: nat, k: Id)
    requires IsRun(run) && Inv(run[0].s) && 0 < i < |run| && 0 < j < |run|
    requires Mints(run[i - 1].s, run[i].s, Granting(k)) && Mints(run[j - 1].s, run[j].s, Granting(k))
    ensures i == j
  {
    hide Inv, IsRun;
    var first, second := if i < j then i else j, if i < j then j else i;
    if i != j {
      RunInv(run, first);
      RunInv(run, second - 1);
      IssuedIsSome(run[first - 1].s, run[first].s, k);
      IssuedAlong(run, first, second - 1, k);
      Unissued(run[second - 1].s);
    }
  }

  lemma IssuedIsSome(s: Snapshot, t: Snapshot, k: Id)
    requires Mints(s, t, Granting(k)) && Inv(t)
    ensures k in t.grants && t.grants[k].credentialId != NONE
  {
    hide HasCapacity, EnrollmentValid, LifecycleValid, GrantsValid, GrantsBound;
    assert t.records[|s.records|] in t.records;
  }
}
