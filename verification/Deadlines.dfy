/** Every call on a pairing or integration request comes in time: before the deadline set when it
    was opened, at the same origin and under the same owner generation. */
module Deadlines {
  import opened Basics
  import opened Authority
  import opened Transitions
  import opened Requests
  import opened Permission
  import opened Issuance
  import L = Lifecycle
  import E = Enrollment
  import I = Integration
  import G = Grants
  import Guesses

  // ----- Pairing requests -----

  /** What a request records when it is opened. */
  ghost predicate Fresh(row: Request, now: real, owner: Owner, tx: Tx) {
    && tx.EnrollmentTx? && tx.move.Asking? && row.binding == tx.move.binding && row.device == tx.move.device
    && row.expiresAt == now.Floor as real + 300.0
    && row.generation == owner.generation && row.origin == tx.origin && owner.active && tx.origin != NONE
    && row.state.Challenge? && row.attempts == 0 && row.codeHash == NONE
    && row.initiator.None? && row.approver.None?
  }

  /** The authority that the request rests on is what it was: the owner generation, the origin,
      and whoever initiated and approved it. */
  ghost predicate Attached(s: Snapshot, row: Request, now: real, origin: Id) {
    && row.generation == s.owner.generation && row.origin == origin
    && (row.initiator.Some? ==> Holds(s, row.initiator.value, now))
    && (row.approver.Some? ==> Holds(s, row.approver.value, now))
  }

  /** Marking stale ends exactly the unfinished, unexpired requests whose authority has moved, and
      changes nothing else. */
  lemma StaleExactlyWhen(s: Snapshot, now: real, origin: Id, q: Id)
    requires q in s.requests
    ensures var t, row := After(s, now, HousekeepingTx(origin), 1), s.requests[q];
      && q in t.requests && t == s.(requests := t.requests)
      && (t.requests[q].state.Stale? <==>
            row.state.Stale? || (Issuance.Pending(row, now) && !Attached(s, row, now, origin)))
      && (!t.requests[q].state.Stale? ==> t.requests[q] == row)
  {
    hide Usable;
  }

  /** After every pairing call the unfinished requests that are in time still have their
      authority, whatever happened before. */
  lemma UnfinishedIsAttached(s: Snapshot, now: real, tx: Tx, q: Id)
    requires tx.EnrollmentTx? && q in After(s, now, tx, 2).requests
    requires Issuance.Pending(After(s, now, tx, 2).requests[q], now)
    ensures Attached(After(s, now, tx, 2), After(s, now, tx, 2).requests[q], now, tx.origin)
  {
    hide L.Sweep, Usable, E.MarkStale;
    Guesses.MarkedLive(s, now, tx);
  }

  lemma FreshRow(s: Snapshot, now: real, tx: Tx, cut: nat, q: Id)
    requires Asks(tx, q) && q in After(s, now, tx, cut).requests
    requires q in s.requests ==> !Quiet(s.requests[q], After(s, now, tx, cut).requests[q])
    ensures Fresh(After(s, now, tx, cut).requests[q], now, s.owner, tx)
  {
    hide L.Sweep, E.MarkStale, E.Pair, Fresh, Spoil;
    var swept := L.Sweep(s, now, tx.origin);
    SweepQuiet(s, now, tx.origin);
    MarkStaleQuiet(swept, now, tx.origin);
    QuietTwice(s.requests, swept.requests, E.MarkStale(swept, now, tx.origin).requests);
    SweptOwner(s, now, tx.origin);
    OpenedFresh(E.MarkStale(swept, now, tx.origin), now, tx);
  }

  lemma OpenedFresh(s: Snapshot, now: real, tx: Tx)
    requires tx.EnrollmentTx? && tx.move.Asking?
    ensures var t, q := E.Pair(s, now, tx.origin, tx.principal, tx.move).after, tx.move.requestId;
      t == s || (q in t.requests && Fresh(t.requests[q], now, s.owner, tx))
  {
    hide E.Unexpired, E.ResolvesTo, E.DeviceBusy, E.UnownedError, Admissible, E.ControllerError;
  }

  lemma SweptOwner(s: Snapshot, now: real, origin: Id)
    ensures L.Sweep(s, now, origin).owner == s.owner
    ensures E.MarkStale(L.Sweep(s, now, origin), now, origin).owner == s.owner
  {
    hide VerifiersOf, Disable, L.SweptIds, L.SweepOps, L.LivePointers, InvalidateApprovals, E.MarkIfStale;
  }

  /** A call moves the request with the `j`-th transaction. */
  ghost predicate CalledAt(run: seq<Moment>, j: int, q: Id) {
    && 0 < j < |run| && MovesOn(run[j].tx, q) && q in run[j - 1].s.requests && q in run[j].s.requests
    && !Quiet(run[j - 1].s.requests[q], run[j].s.requests[q])
  }

  lemma CalledInTime(s: Snapshot, now: real, tx: Tx, cut: nat, q: Id)
    requires MovesOn(tx, q) && q in s.requests && q in After(s, now, tx, cut).requests
    requires !Quiet(s.requests[q], After(s, now, tx, cut).requests[q])
    ensures Issuance.Pending(s.requests[q], now) && q in After(s, now, tx, 2).requests
    ensures After(s, now, tx, 2).requests[q] == s.requests[q] && After(s, now, tx, 2).owner == s.owner
    ensures Attached(After(s, now, tx, 2), s.requests[q], now, tx.origin)
  {
    hide L.Sweep, E.MarkStale, E.Live, E.Proceed, E.Failure, Quiet, Holds;
    UpkeepQuiet(s, now, tx, q);
    SweptOwner(s, now, tx.origin);
    QuietOrOver(s.requests[q], After(s, now, tx, 2).requests[q]);
    Guesses.MarkedLive(s, now, tx);
    if Issuance.Pending(After(s, now, tx, 2).requests[q], now) {
      UnfinishedIsAttached(s, now, tx, q);
    } else {
      NotLive(After(s, now, tx, 2), now, tx, q);
    }
  }

  lemma QuietOrOver(before: Request, after: Request)
    requires Quiet(before, after)
    ensures after == before || TerminalRequest(after.state)
  {}

  /** A request that is not live stays as it is. */
  lemma NotLive(s: Snapshot, now: real, tx: Tx, q: Id)
    requires MovesOn(tx, q) && q in s.requests && !E.Live(s, s.requests[q], now, tx.origin)
    ensures E.Pair(s, now, tx.origin, tx.principal, tx.move).after == s
  {
    hide E.Live, E.ControllerError;
  }

  ghost predicate SameTerms(a: Request, b: Request) {
    && a.binding == b.binding && a.device == b.device && a.expiresAt == b.expiresAt
    && a.generation == b.generation && a.origin == b.origin
  }

  /** The request was opened with the `i`-th transaction. */
  ghost predicate OpenedAt(run: seq<Moment>, i: int, q: Id) {
    && 0 < i < |run| && Asks(run[i].tx, q) && q in run[i].s.requests
    && Fresh(run[i].s.requests[q], run[i].now, run[i - 1].s.owner, run[i].tx)
  }

  lemma {:induction false} OpenedSince(run: seq<Moment>, j: nat, q: Id) returns (i: nat)
    requires IsRun(run) && j < |run| && q !in run[0].s.requests && q in run[j].s.requests
    ensures i <= j && OpenedAt(run, i, q) && SameTerms(run[i].s.requests[q], run[j].s.requests[q])
  {
    hide After, Faithful, Fresh, Costs, Steps;
    assert Follows(run[j - 1], run[j]);
    RunRow(run, j, q);
    if q in run[j - 1].s.requests
       && (Quiet(run[j - 1].s.requests[q], run[j].s.requests[q]) || !Asks(run[j].tx, q)) {
      i := OpenedSince(run, j - 1, q);
    } else {
      i := j;
      FreshRow(run[j - 1].s, run[j].now, run[j].tx, run[j].cut, q);
    }
  }

  /** Whatever a call does to a pairing request, wrong codes included, it does within the five
      minutes after the request was opened, at the same origin, under the same owner generation,
      and while whoever initiated and approved it still has that authority. */
  lemma HandledAsOpened(run: seq<Moment>, j: nat, q: Id) returns (i: nat)
    requires IsRun(run) && q !in run[0].s.requests && CalledAt(run, j, q)
    ensures i < j && OpenedAt(run, i, q) && SameTerms(run[i].s.requests[q], run[j - 1].s.requests[q])
    ensures run[j].now < run[i].now + 300.0 && run[j].tx.origin == run[i].tx.origin
    ensures run[j - 1].s.owner.generation == run[i - 1].s.owner.generation
    ensures var marked := After(run[j - 1].s, run[j].now, run[j].tx, 2);
      Attached(marked, run[j - 1].s.requests[q], run[j].now, run[j].tx.origin)
  {
    hide After, Faithful, Quiet, Holds;
    assert Follows(run[j - 1], run[j]);
    CalledInTime(run[j - 1].s, run[j].now, run[j].tx, run[j].cut, q);
    i := OpenedSince(run, j - 1, q);
  }

  // ----- Integration requests -----

  /** What an integration request records when it is opened. */
  ghost predicate FreshGrant(g: Grant, now: real, owner: Owner, tx: Tx) {
    && tx.IntegrationTx? && tx.call.Applying? && tx.call.origin == tx.origin && owner.active
    && g.expiresAt == tx.call.expiresAt && now < g.expiresAt <= now + 300.0
    && g.generation == owner.generation && g.origin == tx.origin
    && g.name == tx.call.name && g.secretHash == tx.call.secret && g.codeHash == tx.call.code
    && g.state.Pending? && g.attempts == 0 && g.credentialId == NONE
  }

  ghost predicate GrantInTime(s: Snapshot, g: Grant, now: real, origin: Id) {
    && now < g.expiresAt && g.generation == s.owner.generation && g.origin == origin
    && !(exists r :: r in s.records && r.id == g.credentialId && r.verifier in s.blocked)
  }

  ghost predicate AgentTombstoned(s: Snapshot, k: Id) {
    && (exists r :: r in s.records && r.subject == Agent(k))
    && (forall r :: r in s.records && r.subject == Agent(k) ==> r.verifier in s.blocked)
  }

  /** As what the sweep ends a request: revoked if its authority was withdrawn, else expired if it
      is late, else stale. */
  ghost function Fate(s: Snapshot, g: Grant, now: real): GrantState {
    if g.state.Completed? || exists r :: r in s.records && r.id == g.credentialId && r.verifier in s.blocked
    then GrantState.Revoked
    else if g.expiresAt <= now then GrantState.Expired
    else GrantState.Stale
  }

  /** The sweep ends exactly the unfinished integration requests that are late, whose authority
      has moved or whose credential is tombstoned, and the completed ones all of whose agent's
      credentials are. */
  lemma SweptGrantExactlyWhen(s: Snapshot, now: real, origin: Id, k: Id)
    requires k in s.grants
    ensures var t, g := I.SweepGrants(s, now, origin), s.grants[k];
      && k in t.grants && t.owner == s.owner && G.SameTerms(g, t.grants[k])
      && t.grants[k] == g.(state := t.grants[k].state)
      && (t.grants[k] == g <==>
            if TerminalGrant(g.state)
            then !(g.state.Completed? && AgentTombstoned(s, k))
            else GrantInTime(s, g, now, origin))
      && (t.grants[k] != g ==> t.grants[k].state == Fate(s, g, now))
      && (!TerminalGrant(t.grants[k].state) ==> t.grants[k] == g)
  {
    hide VerifiersOf, Disable, I.LapsedIds;
  }

  /** A call that names the request moves it with the `j`-th transaction. */
  ghost predicate GrantCalledAt(run: seq<Moment>, j: int, k: Id) {
    && 0 < j < |run| && k in run[j - 1].s.grants && k in run[j].s.grants
    && !G.Quiet(run[j - 1].s.grants[k], run[j].s.grants[k])
  }

  lemma GrantCalledInTime(s: Snapshot, now: real, tx: Tx, cut: nat, k: Id)
    requires k in s.grants && k in After(s, now, tx, cut).grants
    requires !G.Quiet(s.grants[k], After(s, now, tx, cut).grants[k])
    ensures tx.IntegrationTx? && tx.call.k == k && GrantInTime(s, s.grants[k], now, tx.origin)
  {
    hide I.SweepGrants, E.MarkStale, I.Serve, G.Moves, L.Sweep, L.Act, E.Pair;
    G.TransactionRow(s, now, tx, cut, k);
    if tx.IntegrationTx? {
      var swept := I.SweepGrants(s, now, tx.origin);
      SweptGrantExactlyWhen(s, now, tx.origin, k);
      G.SweptRow(s, now, tx.origin, k);
      G.MarkedElsewhere(swept, now, tx.origin);
      G.ServeRow(swept, now, tx.origin, tx.principal, tx.call, k);
      if TerminalGrant(swept.grants[k].state) {
        TerminalStays(swept.grants[k], After(s, now, tx, cut).grants[k], tx.call);
      }
    }
  }

  lemma TerminalStays(g: Grant, h: Grant, c: I.Call)
    requires TerminalGrant(g.state)
    ensures !G.Moves(g, h, c)
  {}

  lemma FreshGrantRow(s: Snapshot, now: real, tx: Tx, cut: nat, k: Id)
    requires k !in s.grants && k in After(s, now, tx, cut).grants
    ensures FreshGrant(After(s, now, tx, cut).grants[k], now, s.owner, tx) && tx.call.k == k
  {
    hide I.SweepGrants, E.MarkStale, L.Sweep, L.Act, E.Pair, I.Serve, FreshGrant;
    G.TransactionRow(s, now, tx, cut, k);
    G.SweptRow(s, now, tx.origin, k);
    var swept := I.SweepGrants(s, now, tx.origin);
    G.MarkedElsewhere(swept, now, tx.origin);
    AppliedFresh(swept, now, tx);
    SameOwner(s, now, tx, 1);
  }

  lemma AppliedFresh(s: Snapshot, now: real, tx: Tx)
    requires tx.IntegrationTx? && tx.call.k !in s.grants
    ensures var t, k := I.Serve(s, now, tx.origin, tx.principal, tx.call).after, tx.call.k;
      k in t.grants ==> FreshGrant(t.grants[k], now, s.owner, tx)
  {
    hide E.MarkIfStale, I.Retained, Admissible;
    AppliedKept(s.grants, now, tx.call.k);
  }

  lemma AppliedKept(grants: map<Id, Grant>, now: real, k: Id)
    requires k !in grants
    ensures k !in I.Retained(grants, now)
  {}

  /** The request was opened with the `i`-th transaction. */
  ghost predicate AppliedAt(run: seq<Moment>, i: int, k: Id) {
    && 0 < i < |run| && k !in run[i - 1].s.grants && k in run[i].s.grants
    && FreshGrant(run[i].s.grants[k], run[i].now, run[i - 1].s.owner, run[i].tx) && run[i].tx.call.k == k
  }

  lemma {:induction false} AppliedSince(run: seq<Moment>, j: nat, k: Id) returns (i: nat)
    requires IsRun(run) && j < |run| && k !in run[0].s.grants && k in run[j].s.grants
    ensures i <= j && AppliedAt(run, i, k) && G.SameTerms(run[i].s.grants[k], run[j].s.grants[k])
    ensures run[i].now <= run[j].now
  {
    hide After, Faithful, FreshGrant, G.Costs, G.Steps;
    assert Follows(run[j - 1], run[j]);
    if k in run[j - 1].s.grants {
      i := AppliedSince(run, j - 1, k);
      G.TransactionRow(run[j - 1].s, run[j].now, run[j].tx, run[j].cut, k);
    } else {
      i := j;
      FreshGrantRow(run[j - 1].s, run[j].now, run[j].tx, run[j].cut, k);
    }
  }

  /** Whatever a call does to an integration request, it does before the deadline that the
      application named, which is at most five minutes off, at the same origin and under the same
      owner generation; and its secret or code is measured against the application's. */
  lemma HandledAsApplied(run: seq<Moment>, j: nat, k: Id) returns (i: nat)
    requires IsRun(run) && k !in run[0].s.grants && GrantCalledAt(run, j, k)
    ensures i < j && AppliedAt(run, i, k) && run[j].tx.IntegrationTx? && run[j].tx.call.k == k
    ensures G.SameTerms(run[i].s.grants[k], run[j - 1].s.grants[k])
    ensures run[j].now < run[i].tx.call.expiresAt <= run[i].now + 300.0 && run[j].tx.origin == run[i].tx.origin
    ensures run[j - 1].s.owner.generation == run[i - 1].s.owner.generation
  {
    hide After, Faithful, G.Quiet;
    assert Follows(run[j - 1], run[j]);
    GrantCalledInTime(run[j - 1].s, run[j].now, run[j].tx, run[j].cut, k);
    i := AppliedSince(run, j - 1, k);
  }
}
