/** What each step may do to the rows of pairing requests. */
module Requests {
  import opened Basics
  import opened Authority
  import opened Transitions
  import L = Lifecycle
  import E = Enrollment
  import I = Integration

  /** Left alone, or made stale while unfinished. */
  ghost predicate Quiet(before: Request, after: Request) {
    after == before || (!TerminalRequest(before.state) && after == Spoil(before, RequestState.Stale))
  }

  ghost predicate AllQuiet(before: map<Id, Request>, after: map<Id, Request>) {
    before.Keys == after.Keys && forall q :: q in before ==> Quiet(before[q], after[q])
  }

  ghost predicate SameCeremony(a: Request, b: Request) {
    a.binding == b.binding && a.device == b.device && a.expiresAt == b.expiresAt
    && a.generation == b.generation && a.origin == b.origin
  }

  /** A wrong signature or code costs one attempt and nothing else, except that the fifth one
      costs the request. */
  ghost predicate Costs(before: Request, after: Request) {
    && after.attempts == (if before.attempts < 4 then before.attempts + 1 else 5)
    && after.initiator == before.initiator && after.approver == before.approver
    && (if after.attempts < 5 then after.state == before.state && after.codeHash == before.codeHash
        else after.state.Failed?)
  }

  /** The one step of the ceremony that a pairing call stands for: the phase before it, and the
      signature or code that the phase asks for; initiator and approver are who sent it. */
  ghost predicate Steps(before: Request, after: Request, m: E.Move, principal: Option<Principal>) {
    && after.attempts == before.attempts
    && (after.initiator == if after.state.Initiated? then principal else before.initiator)
    && (after.approver == if after.state.Approved? then principal else before.approver)
    && (after.state.Initiated? || after.state.Approved? || after.state.Consumed? ==> after.codeHash == before.codeHash)
    && match after.state
       case Ready => m.Proving? && m.signed && before.state.Challenge? && after.codeHash == m.codeHash
       case Initiated => m.Initiating? && before.state.Ready? && m.presented == before.codeHash && m.presented != NONE
       case Approved => m.Approving? && before.state.Initiated? && m.presented == before.codeHash && m.presented != NONE
       case Consumed => m.Redeeming? && m.signed && before.state.Approved?
       case Denied => m.Denying?
       case Cancelled => m.Cancelling? && m.signed
       case _ => false
  }

  /** The one move that a pairing call makes on the row it names. */
  ghost predicate Moves(before: Request, after: Request, m: E.Move, principal: Option<Principal>) {
    && SameCeremony(before, after) && !TerminalRequest(before.state)
    && (Costs(before, after) || Steps(before, after, m, principal))
  }

  lemma SweepQuiet(s: Snapshot, now: real, origin: Id)
    ensures AllQuiet(s.requests, L.Sweep(s, now, origin).requests)
  {
    hide VerifiersOf, Disable, L.SweptIds, L.SweepOps, L.LivePointers;
  }

  lemma MarkStaleQuiet(s: Snapshot, now: real, origin: Id)
    ensures AllQuiet(s.requests, E.MarkStale(s, now, origin).requests)
  {
    hide E.Detached;
  }

  lemma QuietTwice(a: map<Id, Request>, b: map<Id, Request>, c: map<Id, Request>)
    requires AllQuiet(a, b) && AllQuiet(b, c)
    ensures AllQuiet(a, c)
  {}

  lemma ActQuiet(s: Snapshot, now: real, origin: Id, principal: Option<Principal>, c: L.Command)
    ensures AllQuiet(s.requests, L.Act(s, now, origin, principal, c).after.requests)
  {
    hide Admissible, VerifiersOf, Disable, L.NewOperation, L.RevokeActive, L.MatchingIds,
      L.RemovesLiability, L.AnyUsable, IsOwner, Current;
  }

  /** A pairing call touches one row, or opens one and drops expired ones. */
  ghost predicate PairsRows(before: map<Id, Request>, after: map<Id, Request>, now: real, m: E.Move,
                            principal: Option<Principal>)
  {
    if m.Asking? then
      || after == before
      || (after.Keys == E.Unexpired(before, now).Keys + {m.requestId}
          && (forall q :: q in after && q != m.requestId ==> after[q] == before[q])
          && after[m.requestId].state.Challenge? && after[m.requestId].attempts == 0
          && after[m.requestId].initiator.None? && after[m.requestId].approver.None?
          && after[m.requestId].device == m.device && after[m.requestId].binding == m.binding)
    else
      && after.Keys == before.Keys
      && (forall q :: q in after && q != m.q ==> after[q] == before[q])
      && (m.q in after ==> after[m.q] == before[m.q] || Moves(before[m.q], after[m.q], m, principal))
  }

  lemma ProceedRows(s: Snapshot, principal: Option<Principal>, m: E.Move)
    requires !m.Asking? && m.q in s.requests && (E.NeedsController(m) ==> principal.Some?)
    requires !TerminalRequest(s.requests[m.q].state) && E.Signed(m)
    ensures PairsRows(s.requests, E.Proceed(s, principal, m).after.requests, 0.0, m, principal)
  {
    hide Admissible, Commit, VerifiersOf, Disable, L.MatchingIds, E.Confirm, E.UnownedError, PairsRows, Moves,
      E.Charged;
    var before, after := s.requests[m.q], E.Proceed(s, principal, m).after.requests;
    assert m.q in after && after == s.requests[m.q := after[m.q]];
    if after[m.q] != before && after[m.q] != E.Charged(before) {
      RowStepped(before, after[m.q], m, principal);
    } else {
      RowCharged(before, m, principal);
    }
    RowMoved(s.requests, after[m.q], m, principal);
  }

  lemma RowCharged(before: Request, m: E.Move, principal: Option<Principal>)
    requires !TerminalRequest(before.state)
    ensures Moves(before, E.Charged(before), m, principal)
  {
    hide Steps;
  }

  lemma RowStepped(before: Request, after: Request, m: E.Move, principal: Option<Principal>)
    requires SameCeremony(before, after) && !TerminalRequest(before.state) && Steps(before, after, m, principal)
    ensures Moves(before, after, m, principal)
  {}

  lemma RowMoved(before: map<Id, Request>, row: Request, m: E.Move, principal: Option<Principal>)
    requires !m.Asking? && m.q in before && (row == before[m.q] || Moves(before[m.q], row, m, principal))
    ensures PairsRows(before, before[m.q := row], 0.0, m, principal)
  {
    hide Moves;
  }

  lemma OpenRows(s: Snapshot, now: real, origin: Id, m: E.Move, principal: Option<Principal>)
    requires m.Asking?
    ensures PairsRows(s.requests, E.Opened(s, now, origin, m.binding, m.device, m.requestId).requests, now, m,
              principal)
  {}

  lemma PairRows(s: Snapshot, now: real, origin: Id, principal: Option<Principal>, m: E.Move)
    ensures PairsRows(s.requests, E.Pair(s, now, origin, principal, m).after.requests, now, m, principal)
  {
    hide Admissible, PairsRows, E.Open, E.Opened, E.Proceed, E.Failure, E.Detached, ActorCurrent,
      E.UnownedError, E.ResolvesTo, E.DeviceBusy, E.Charged;
    RowsSame(s.requests, now, m, principal);
    if m.Asking? {
      OpenRows(s, now, origin, m, principal);
    } else if m.q in s.requests {
      var row := s.requests[m.q];
      if E.Live(s, row, now, origin) && E.Signed(m) && (E.NeedsController(m) ==> principal.Some?) {
        ProceedRows(s, principal, m);
        RowsTime(s.requests, E.Proceed(s, principal, m).after.requests, now, m, principal);
      }
      if !TerminalRequest(row.state) { ChargedRows(s.requests, now, m, principal); }
    }
  }

  lemma RowsSame(requests: map<Id, Request>, now: real, m: E.Move, principal: Option<Principal>)
    ensures PairsRows(requests, requests, now, m, principal)
  {}

  lemma RowsTime(before: map<Id, Request>, after: map<Id, Request>, now: real, m: E.Move, principal: Option<Principal>)
    requires !m.Asking? && PairsRows(before, after, 0.0, m, principal)
    ensures PairsRows(before, after, now, m, principal)
  {
    hide Moves;
  }

  lemma ChargedRows(requests: map<Id, Request>, now: real, m: E.Move, principal: Option<Principal>)
    requires !m.Asking? && m.q in requests && !TerminalRequest(requests[m.q].state)
    ensures PairsRows(requests, requests[m.q := E.Charged(requests[m.q])], now, m, principal)
  {
    hide Moves, E.Charged;
    RowCharged(requests[m.q], m, principal);
  }

  lemma ServeQuiet(s: Snapshot, now: real, origin: Id, principal: Option<Principal>, c: I.Call)
    ensures AllQuiet(s.requests, I.Serve(s, now, origin, principal, c).after.requests)
  {
    hide Admissible, VerifiersOf, Disable, I.Presents, I.Enable, E.MarkIfStale, I.Retained, IsOwner;
    MarkStaleQuiet(s, now, origin);
  }
}
