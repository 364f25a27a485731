/** How often a signature or a code may be wrong: a request counts exactly the wrong ones that
    were sent for it while it was unfinished, and the fifth one ends it. */
module Guesses {
  import opened Basics
  import opened Authority
  import opened Transitions
  import opened Records
  import opened Requests
  import opened Upkeep
  import opened Runs
  import opened Permission
  import opened Issuance
  import L = Lifecycle
  import E = Enrollment
  import I = Integration
  import G = Grants

  // ----- Pairing requests -----

  ghost predicate Guarded(requests: map<Id, Request>) {
    forall q :: q in requests ==> requests[q].attempts < 5 || (requests[q].attempts == 5 && requests[q].state.Failed?)
  }

  ghost predicate Unfinished(s: Snapshot, q: Id, now: real) {
    q in s.requests && Issuance.Pending(s.requests[q], now)
  }

  /** A call for an unfinished request was refused for its signature or code, and no write
      failed. */
  ghost predicate Missed(s: Snapshot, now: real, tx: Tx, cut: nat, q: Id) {
    MovesOn(tx, q) && 2 < cut && ReplyTo(s, now, tx) == Refuse(InvalidProof) && Unfinished(After(s, now, tx, 2), q, now)
  }

  /** What makes a signature or code wrong. */
  lemma RefusedExactlyWhen(s: Snapshot, now: real, tx: Tx)
    requires tx.EnrollmentTx? && !tx.move.Asking?
    ensures var marked, m := After(s, now, tx, 2), tx.move;
      ReplyTo(s, now, tx) == Refuse(InvalidProof) <==>
        m.q in marked.requests &&
        match m
        case Proving(q, signed, _) => !signed && Unfinished(marked, q, now)
        case Redeeming(q, signed, _, _) => !signed && Unfinished(marked, q, now)
        case Cancelling(q, signed) => !signed && Unfinished(marked, q, now)
        case Checking(_, signed) => !signed
        case Initiating(q, presented) => WrongCode(marked, q, presented, Ready, tx.principal, now)
        case Approving(q, presented) => WrongCode(marked, q, presented, Initiated, tx.principal, now)
        case Denying(_) => false
  {
    hide L.Sweep, E.MarkStale, Usable, Admissible, E.Redeemed, E.Charged, E.Detached;
    MarkedLive(s, now, tx);
  }

  ghost predicate WrongCode(s: Snapshot, q: Id, presented: Id, phase: RequestState, principal: Option<Principal>,
                            now: real)
    requires q in s.requests
  {
    && Unfinished(s, q, now) && s.requests[q].state == phase
    && (presented == NONE || presented != s.requests[q].codeHash)
    && ControllerSpeaks(s, principal, s.requests[q].binding.kind, now)
  }

  lemma MarkedLive(s: Snapshot, now: real, tx: Tx)
    requires tx.EnrollmentTx?
    ensures var marked := After(s, now, tx, 2); forall q :: q in marked.requests ==>
      (Issuance.Pending(marked.requests[q], now) <==> E.Live(marked, marked.requests[q], now, tx.origin))
  {
    hide L.Sweep, E.Live, E.MarkStale;
    var swept := L.Sweep(s, now, tx.origin);
    forall q | q in E.MarkStale(swept, now, tx.origin).requests
      ensures Issuance.Pending(E.MarkStale(swept, now, tx.origin).requests[q], now) <==>
        E.Live(E.MarkStale(swept, now, tx.origin), E.MarkStale(swept, now, tx.origin).requests[q], now, tx.origin)
    {
      MarkedRow(swept, now, tx.origin, q);
    }
  }

  lemma MarkedRow(s: Snapshot, now: real, origin: Id, q: Id)
    requires q in E.MarkStale(s, now, origin).requests
    ensures var t := E.MarkStale(s, now, origin);
      Issuance.Pending(t.requests[q], now) <==> E.Live(t, t.requests[q], now, origin)
  {
    hide E.MarkStale;
    if Issuance.Pending(E.MarkStale(s, now, origin).requests[q], now) { MarkedPendingIsLive(s, now, origin, q); }
  }

  /** There is always room to charge an attempt. */
  lemma ChargeFits(s: Snapshot, q: Id)
    requires Schema(s) && q in s.requests
    ensures Admissible(s, E.With(s, q, E.Charged(s.requests[q])))
  {
    hide EnrollmentValid, GrantsValid, GrantsBound, HasCapacity, LifecycleValid, E.Charged;
    var t := E.With(s, q, E.Charged(s.requests[q]));
    ChargedValid(s.requests, q);
    LifecycleSame(s, t);
    CapacitySame(s, t);
    SameIdentitiesValid(s.records, t.records);
  }

  lemma ChargedValid(requests: map<Id, Request>, q: Id)
    requires EnrollmentValid(requests) && q in requests
    ensures EnrollmentValid(requests[q := E.Charged(requests[q])])
  {
    var row := E.Charged(requests[q]);
    assert requests[q := row].Keys == requests.Keys;
  }

  lemma PairAttempts(s: Snapshot, now: real, origin: Id, principal: Option<Principal>, m: E.Move, q: Id)
    requires Schema(s) && Guarded(s.requests) && q in s.requests && !m.Asking?
    requires forall p :: p in s.requests ==>
      (Issuance.Pending(s.requests[p], now) <==> E.Live(s, s.requests[p], now, origin))
    ensures var e := E.Pair(s, now, origin, principal, m);
      q in e.after.requests && e.after.requests[q].attempts == s.requests[q].attempts +
        if m.q == q && e.reply == Refuse(InvalidProof) && Issuance.Pending(s.requests[q], now) then 1 else 0
  {
    hide Schema, E.Live, E.ControllerError, E.UnownedError, E.Failure, E.Proceed, Guarded;
    if m.q in s.requests {
      var row := s.requests[m.q];
      NeverInvalidProof(s, principal, row, now);
      FailureAttempts(s, m.q, Issuance.Pending(row, now), q);
      if Issuance.Pending(row, now) && E.Signed(m) && (E.NeedsController(m) ==> principal.Some?) {
        ProceedAttempts(s, principal, m, q);
      }
    }
  }

  lemma FailureAttempts(s: Snapshot, p: Id, live: bool, q: Id)
    requires Schema(s) && Guarded(s.requests) && p in s.requests && q in s.requests
    requires live ==> !TerminalRequest(s.requests[p].state)
    ensures var e := E.Failure(s, p, live);
      && e.reply == Refuse(InvalidProof) && q in e.after.requests
      && e.after.requests[q].attempts == s.requests[q].attempts + if live && p == q then 1 else 0
  {
    hide Schema, Admissible, E.Charged;
    ChargeFits(s, p);
    ChargedOnce(s.requests[p]);
  }

  lemma NeverInvalidProof(s: Snapshot, principal: Option<Principal>, row: Request, now: real)
    ensures E.UnownedError(s, row.device, row.binding) != Some(InvalidProof)
    ensures E.ControllerError(s, principal, row.binding.kind, now) != Some(InvalidProof)
    ensures E.ControllerError(s, principal, row.binding.kind, now).None? ==> principal.Some?
  {}

  lemma ProceedAttempts(s: Snapshot, principal: Option<Principal>, m: E.Move, q: Id)
    requires Schema(s) && Guarded(s.requests) && !m.Asking? && m.q in s.requests && q in s.requests
    requires !TerminalRequest(s.requests[m.q].state) && (E.NeedsController(m) ==> principal.Some?)
    ensures var e := E.Proceed(s, principal, m);
      q in e.after.requests && e.after.requests[q].attempts == s.requests[q].attempts +
        if m.q == q && e.reply == Refuse(InvalidProof) then 1 else 0
  {
    hide Schema, Admissible, E.ControllerError, E.UnownedError, E.Charged, E.Redeemed;
    ChargeFits(s, m.q);
    ChargedOnce(s.requests[m.q]);
    NeverInvalidProof(s, principal, s.requests[m.q], 0.0);
    if m.Redeeming? { RedeemedRows(s, m); }
  }

  lemma ChargedOnce(row: Request)
    ensures row.attempts < 5 ==> E.Charged(row).attempts == row.attempts + 1
  {}

  lemma RedeemedRows(s: Snapshot, m: E.Move)
    requires m.Redeeming? && m.q in s.requests
    ensures E.Redeemed(s, m.q, m.id, m.verifier).requests == s.requests[m.q := s.requests[m.q].(state := Consumed)]
  {}

  lemma QuietRow(before: Request, after: Request)
    requires Quiet(before, after)
    ensures after.attempts == before.attempts
  {}

  lemma QuietGuarded(before: map<Id, Request>, after: map<Id, Request>)
    requires AllQuiet(before, after) && Guarded(before)
    ensures Guarded(after)
  {}

  /** A request counts the transaction exactly when it was a miss. */
  lemma StepAttempts(s: Snapshot, now: real, tx: Tx, cut: nat, q: Id)
    requires Inv(s) && Guarded(s.requests) && q in s.requests && q in After(s, now, tx, cut).requests && !Asks(tx, q)
    ensures After(s, now, tx, cut).requests[q].attempts ==
              s.requests[q].attempts + if Missed(s, now, tx, cut, q) then 1 else 0
  {
    hide Inv, After, Quiet, Guarded, Moves, Unfinished;
    TransactionRow(s, now, tx, cut, q);
    if MovesOn(tx, q) {
      UpkeepQuiet(s, now, tx, q);
      if cut <= 2 {
        QuietRow(s.requests[q], After(s, now, tx, cut).requests[q]);
      } else {
        CallAttempts(s, now, tx, cut, q);
      }
    } else {
      QuietRow(s.requests[q], After(s, now, tx, cut).requests[q]);
    }
  }

  lemma CallAttempts(s: Snapshot, now: real, tx: Tx, cut: nat, q: Id)
    requires Inv(s) && Guarded(s.requests) && q in s.requests && MovesOn(tx, q) && 2 < cut
    ensures q in After(s, now, tx, cut).requests
    ensures After(s, now, tx, cut).requests[q].attempts ==
              s.requests[q].attempts + if Missed(s, now, tx, cut, q) then 1 else 0
  {
    hide Inv, Schema, Quiet, Guarded, AllQuiet, L.Sweep, E.MarkStale, E.Pair, E.Live, E.Charged;
    var swept := L.Sweep(s, now, tx.origin);
    var marked := E.MarkStale(swept, now, tx.origin);
    SweepQuiet(s, now, tx.origin);
    MarkStaleQuiet(swept, now, tx.origin);
    QuietTwice(s.requests, swept.requests, marked.requests);
    QuietGuarded(s.requests, marked.requests);
    QuietAt(s.requests, marked.requests, q);
    QuietRow(s.requests[q], marked.requests[q]);
    InvSchema(s);
    AfterSchema(s, now, tx, 2);
    MarkedLive(s, now, tx);
    PairAttempts(marked, now, tx.origin, tx.principal, tx.move, q);
  }

  lemma QuietAt(before: map<Id, Request>, after: map<Id, Request>, q: Id)
    requires AllQuiet(before, after) && q in before
    ensures q in after && Quiet(before[q], after[q])
  {}

  lemma InvSchema(s: Snapshot)
    requires Inv(s)
    ensures Schema(s)
  {}

  /** No transaction lets a request go on after its fifth miss. */
  lemma StepGuarded(s: Snapshot, now: real, tx: Tx, cut: nat)
    requires Guarded(s.requests)
    ensures Guarded(After(s, now, tx, cut).requests)
  {
    hide After;
    forall q | q in After(s, now, tx, cut).requests
      ensures var row := After(s, now, tx, cut).requests[q];
        row.attempts < 5 || (row.attempts == 5 && row.state.Failed?)
    {
      TransactionRow(s, now, tx, cut, q);
    }
  }

  lemma EmptyGuarded()
    ensures Guarded(EMPTY.requests) && GrantsGuarded(EMPTY.grants)
  {}

  /** At every moment of a run a request with five misses is failed. */
  lemma {:induction false} SpentIsFailed(run: seq<Moment>, i: nat)
    requires IsRun(run) && Guarded(run[0].s.requests) && i < |run|
    ensures Guarded(run[i].s.requests)
  {
    hide After, Faithful, Guarded;
    if i > 0 {
      SpentIsFailed(run, i - 1);
      assert Follows(run[i - 1], run[i]);
      StepGuarded(run[i - 1].s, run[i].now, run[i].tx, run[i].cut);
    }
  }

  /** How many of the transactions up to the `j`-th were misses. */
  ghost function Misses(run: seq<Moment>, j: nat, q: Id): nat
    requires j < |run|
  {
    if j == 0 then 0
    else
      var missed := Missed(run[j - 1].s, run[j].now, run[j].tx, run[j].cut, q);
      Misses(run, j - 1, q) + if missed then 1 else 0
  }

  lemma {:induction false} NoMissesBefore(run: seq<Moment>, j: nat, q: Id)
    requires IsRun(run) && j < |run| && forall m :: 0 <= m < j ==> q !in run[m].s.requests
    ensures Misses(run, j, q) == 0
  {
    hide IsRun, Missed;
    if j > 0 {
      NoMissesBefore(run, j - 1, q);
      UnknownNotMissed(run[j - 1].s, run[j].now, run[j].tx, run[j].cut, q);
    }
  }

  lemma UnknownNotMissed(s: Snapshot, now: real, tx: Tx, cut: nat, q: Id)
    requires q !in s.requests
    ensures !Missed(s, now, tx, cut, q)
  {
    hide L.Sweep, E.MarkStale, Quiet;
    if tx.EnrollmentTx? {
      SweepQuiet(s, now, tx.origin);
      MarkStaleQuiet(L.Sweep(s, now, tx.origin), now, tx.origin);
    }
  }

  /** The count kept on a request is the number of misses in the whole run. */
  lemma {:induction false} AttemptsAreMisses(run: seq<Moment>, j: nat, q: Id)
    requires IsRun(run) && Inv(run[0].s) && Guarded(run[0].s.requests) && FreshIds(run)
    requires j < |run| && q !in run[0].s.requests && q in run[j].s.requests
    ensures run[j].s.requests[q].attempts == Misses(run, j, q)
  {
    hide Inv, After, Faithful, FreshIds, Guarded, Missed;
    assert Follows(run[j - 1], run[j]) by { FollowsAt(run, j); }
    if q in run[j - 1].s.requests {
      AttemptsAreMisses(run, j - 1, q);
      SpentIsFailed(run, j - 1);
      RunInv(run, j - 1);
      NotAskedAgain(run, j, q);
      StepAttempts(run[j - 1].s, run[j].now, run[j].tx, run[j].cut, q);
    } else {
      RunRow(run, j, q);
      NewSince(run, j, q);
      NoMissesBefore(run, j, q);
    }
  }

  lemma NotAskedAgain(run: seq<Moment>, j: nat, q: Id)
    requires FreshIds(run) && 0 < j < |run| && q in run[j - 1].s.requests
    ensures !Asks(run[j].tx, q)
  {}

  lemma NewSince(run: seq<Moment>, j: nat, q: Id)
    requires FreshIds(run) && j < |run| && Asks(run[j].tx, q)
    ensures forall m :: 0 <= m < j ==> q !in run[m].s.requests
  {}

  /** So a request that has not ended was sent at most four wrong signatures or codes, however
      the run went; and none is ever sent more than five. */
  lemma AtMostFourMisses(run: seq<Moment>, j: nat, q: Id)
    requires IsRun(run) && Inv(run[0].s) && Guarded(run[0].s.requests) && FreshIds(run)
    requires j < |run| && q !in run[0].s.requests && q in run[j].s.requests
    ensures Misses(run, j, q) <= 5
    ensures !TerminalRequest(run[j].s.requests[q].state) ==> Misses(run, j, q) <= 4
  {
    hide Inv, IsRun, FreshIds, Misses;
    AttemptsAreMisses(run, j, q);
    SpentIsFailed(run, j);
  }

  // ----- Integration requests -----

  ghost predicate GrantsGuarded(grants: map<Id, Grant>) {
    forall k :: k in grants ==> grants[k].attempts < 5 || (grants[k].attempts == 5 && TerminalGrant(grants[k].state))
  }

  /** The owner presented a wrong code, and no write failed. */
  ghost predicate Mistyped(s: Snapshot, now: real, tx: Tx, cut: nat, k: Id) {
    tx.IntegrationTx? && tx.call.k == k && 2 < cut && ReplyTo(s, now, tx) == Refuse(InvalidCode)
  }

  /** What makes a code wrong. */
  lemma MistypedExactlyWhen(s: Snapshot, now: real, tx: Tx)
    requires tx.IntegrationTx?
    ensures var swept, c := After(s, now, tx, 1), tx.call;
      ReplyTo(s, now, tx) == Refuse(InvalidCode) <==>
        && c.Approving? && OwnerSpeaks(swept.owner, tx.principal) && c.k in swept.grants
        && (swept.grants[c.k].state.Pending? || swept.grants[c.k].state.Approved?)
        && c.presented != swept.grants[c.k].codeHash
  {
    hide I.SweepGrants, E.MarkStale, Admissible, I.Activated, I.Issued, I.Presents;
  }

  lemma MistypeFits(s: Snapshot, k: Id, g: Grant)
    requires Schema(s) && k in s.grants && g.attempts <= 5 && g.credentialId == s.grants[k].credentialId
    requires !g.state.Delivered? && !g.state.Completed?
    ensures Admissible(s, I.WithGrant(s, k, g))
  {
    hide EnrollmentValid, HasCapacity, LifecycleValid;
    var t := I.WithGrant(s, k, g);
    assert t.grants.Keys == s.grants.Keys;
    LifecycleSame(s, t);
    CapacitySame(s, t);
    SameIdentitiesValid(s.records, t.records);
  }

  lemma ServeAttempts(s: Snapshot, now: real, origin: Id, principal: Option<Principal>, c: I.Call, k: Id)
    requires Schema(s) && GrantsGuarded(s.grants) && k in s.grants
    ensures var e := I.Serve(s, now, origin, principal, c);
      k in e.after.grants ==>
        e.after.grants[k].attempts == s.grants[k].attempts +
          if c.k == k && e.reply == Refuse(InvalidCode) then 1 else 0
  {
    hide Schema, Admissible, E.MarkStale, VerifiersOf, Disable, I.Presents, I.Enable, I.Apply, I.Approval;
    if c.Applying? && c.k !in s.grants {
      G.ApplyRow(s, now, origin, c, k);
    } else if c.Approving? && c.k in s.grants {
      ApprovalAttempts(s, c.k, c.presented, k);
    }
  }

  lemma ApprovalAttempts(s: Snapshot, j: Id, presented: Id, k: Id)
    requires Schema(s) && GrantsGuarded(s.grants) && j in s.grants && k in s.grants
    ensures var e := I.Approval(s, j, presented);
      && k in e.after.grants
      && e.after.grants[k].attempts == s.grants[k].attempts + if j == k && e.reply == Refuse(InvalidCode) then 1 else 0
  {
    hide Schema, Admissible;
    var g := s.grants[j];
    if (g.state.Pending? || g.state.Approved?) && presented != g.codeHash {
      var tried := g.(attempts := g.attempts + 1);
      MistypeFits(s, j, tried);
      MistypeFits(s, j, tried.(state := GrantState.Failed));
    }
  }

  /** An integration request counts the transaction exactly when a wrong code was presented. */
  lemma StepMistyped(s: Snapshot, now: real, tx: Tx, cut: nat, k: Id)
    requires Inv(s) && GrantsGuarded(s.grants) && k in s.grants && k in After(s, now, tx, cut).grants
    ensures After(s, now, tx, cut).grants[k].attempts ==
              s.grants[k].attempts + if Mistyped(s, now, tx, cut, k) then 1 else 0
  {
    hide Inv, Schema, GrantsGuarded, I.SweepGrants, I.Serve, E.MarkStale, L.Sweep, L.Act, E.Pair, G.Moves;
    if tx.IntegrationTx? {
      var swept := I.SweepGrants(s, now, tx.origin);
      G.SweptRow(s, now, tx.origin, k);
      G.MarkedElsewhere(swept, now, tx.origin);
      SweptGuarded(s, now, tx.origin);
      InvSchema(s);
      AfterSchema(s, now, tx, 1);
      ServeAttempts(swept, now, tx.origin, tx.principal, tx.call, k);
    } else {
      G.TransactionRow(s, now, tx, cut, k);
    }
  }

  lemma SweptGuarded(s: Snapshot, now: real, origin: Id)
    requires GrantsGuarded(s.grants)
    ensures GrantsGuarded(I.SweepGrants(s, now, origin).grants)
  {
    hide I.SweepGrants;
    forall k | k in s.grants ensures var g := I.SweepGrants(s, now, origin).grants;
      k in g && (g[k].attempts < 5 || (g[k].attempts == 5 && TerminalGrant(g[k].state)))
    {
      G.SweptRow(s, now, origin, k);
    }
    G.SweptRow(s, now, origin, NONE);
  }

  lemma StepGrantsGuarded(s: Snapshot, now: real, tx: Tx, cut: nat)
    requires GrantsGuarded(s.grants)
    ensures GrantsGuarded(After(s, now, tx, cut).grants)
  {
    hide After;
    forall k | k in After(s, now, tx, cut).grants
      ensures var g := After(s, now, tx, cut).grants[k];
        g.attempts < 5 || (g.attempts == 5 && TerminalGrant(g.state))
    {
      G.TransactionRow(s, now, tx, cut, k);
    }
  }

  /** At every moment of a run an integration request with five wrong codes is over. */
  lemma {:induction false} SpentGrantIsOver(run: seq<Moment>, i: nat)
    requires IsRun(run) && GrantsGuarded(run[0].s.grants) && i < |run|
    ensures GrantsGuarded(run[i].s.grants)
  {
    hide After, Faithful, GrantsGuarded;
    if i > 0 {
      SpentGrantIsOver(run, i - 1);
      assert Follows(run[i - 1], run[i]);
      StepGrantsGuarded(run[i - 1].s, run[i].now, run[i].tx, run[i].cut);
    }
  }

  /** How many wrong codes were presented after the `i`-th transaction and up to the `j`-th. */
  ghost function WrongCodes(run: seq<Moment>, i: nat, j: nat, k: Id): nat
    requires j < |run|
  {
    if j <= i then 0
    else
      var mistyped := Mistyped(run[j - 1].s, run[j].now, run[j].tx, run[j].cut, k);
      WrongCodes(run, i, j - 1, k) + if mistyped then 1 else 0
  }

  /** While a request is there, its count goes up by exactly the wrong codes presented. Its id is
      the applicant's choice and may come back once the request was dropped. */
  lemma {:induction false} AttemptsAreWrongCodes(run: seq<Moment>, i: nat, j: nat, k: Id)
    requires IsRun(run) && Inv(run[0].s) && GrantsGuarded(run[0].s.grants) && i <= j < |run|
    requires forall m :: i <= m <= j ==> k in run[m].s.grants
    ensures run[j].s.grants[k].attempts == run[i].s.grants[k].attempts + WrongCodes(run, i, j, k)
    decreases j - i
  {
    hide Inv, After, Faithful, GrantsGuarded, Mistyped;
    if i < j {
      AttemptsAreWrongCodes(run, i, j - 1, k);
      assert Follows(run[j - 1], run[j]);
      SpentGrantIsOver(run, j - 1);
      RunInv(run, j - 1);
      StepMistyped(run[j - 1].s, run[j].now, run[j].tx, run[j].cut, k);
    }
  }

  /** So an integration request that has not ended has seen at most four wrong codes since it was
      opened, and none ever sees more than five. */
  lemma AtMostFourWrongCodes(run: seq<Moment>, i: nat, j: nat, k: Id)
    requires IsRun(run) && Inv(run[0].s) && GrantsGuarded(run[0].s.grants) && 0 < i <= j < |run|
    requires k !in run[i - 1].s.grants && forall m :: i <= m <= j ==> k in run[m].s.grants
    ensures WrongCodes(run, i, j, k) <= 5
    ensures !TerminalGrant(run[j].s.grants[k].state) ==> WrongCodes(run, i, j, k) <= 4
  {
    hide Inv, After, Faithful, WrongCodes;
    AttemptsAreWrongCodes(run, i, j, k);
    SpentGrantIsOver(run, j);
    assert Follows(run[i - 1], run[i]);
    G.TransactionRow(run[i - 1].s, run[i].now, run[i].tx, run[i].cut, k);
  }
}
