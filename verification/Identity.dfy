/** Device identity is one-to-one: a device id is bound to one key for ever, and a key to one
    device id, however digests collide and whatever length derived ids have. */
module Identity {
  import opened Basics
  import opened Authority
  import opened Transitions
  import opened Requests
  import L = Lifecycle
  import E = Enrollment
  import I = Integration
  import LT = Latch
  import P = Protocol

  ghost predicate OneDevicePerKey(requests: map<Id, Request>) {
    forall p, q :: p in requests && q in requests && requests[p].binding == requests[q].binding ==>
      requests[p].device == requests[q].device
  }

  ghost predicate RequestsFollowBindings(requests: map<Id, Request>, bindings: map<Subject, Binding>) {
    forall q, d :: q in requests && d in bindings && bindings[d] == requests[q].binding ==> requests[q].device == d
  }

  ghost predicate Injective(bindings: map<Subject, Binding>) {
    forall d, e :: d in bindings && e in bindings && bindings[d] == bindings[e] ==> d == e
  }

  /** Device ids never look like the name of an integration agent. */
  ghost predicate DevicesNamed(requests: map<Id, Request>, bindings: map<Subject, Binding>) {
    && (forall q :: q in requests ==> requests[q].device.Named?)
    && (forall d :: d in bindings ==> d.Named?)
  }

  ghost predicate Identified(requests: map<Id, Request>, bindings: map<Subject, Binding>) {
    OneDevicePerKey(requests) && RequestsFollowBindings(requests, bindings) && Injective(bindings)
    && DevicesNamed(requests, bindings)
  }

  ghost predicate BindingsKept(before: map<Subject, Binding>, after: map<Subject, Binding>) {
    forall d :: d in before ==> d in after && after[d] == before[d]
  }

  lemma QuietIdentified(before: map<Id, Request>, after: map<Id, Request>, bindings: map<Subject, Binding>)
    requires AllQuiet(before, after) && Identified(before, bindings)
    ensures Identified(after, bindings)
  {}

  lemma MovedIdentified(before: map<Id, Request>, after: map<Id, Request>, bindings: map<Subject, Binding>,
                        now: real, m: E.Move, principal: Option<Principal>)
    requires !m.Asking? && PairsRows(before, after, now, m, principal) && Identified(before, bindings)
    ensures Identified(after, bindings)
  {}

  lemma AddedIdentified(requests: map<Id, Request>, kept: map<Id, Request>, bindings: map<Subject, Binding>, q: Id,
                        row: Request)
    requires Identified(requests, bindings) && row.device.Named?
    requires forall p :: p in kept ==> p in requests && kept[p] == requests[p]
    requires forall p :: p in kept && kept[p].binding == row.binding ==> kept[p].device == row.device
    requires forall d :: d in bindings && bindings[d] == row.binding ==> d == row.device
    ensures Identified(kept[q := row], bindings)
  {}

  /** The id given to a key agrees with every row and binding that already carries the key. */
  lemma OpenedIdentified(s: Snapshot, now: real, origin: Id, binding: Binding, derived: Id, device: Subject,
                         aliased: bool, q: Id)
    requires Identified(s.requests, s.bindings)
    requires E.ResolvesTo(s.bindings, if aliased then E.Unexpired(s.requests, now)
        else s.requests, binding, derived, device)
    ensures var t := E.Opened(s, now, origin, binding, device, q);
            Identified(t.requests, t.bindings) && t.bindings == s.bindings
  {
    hide OneDevicePerKey, RequestsFollowBindings, Injective, DevicesNamed;
    ResolvedAgrees(s, E.Unexpired(s.requests, now), if aliased then E.Unexpired(s.requests, now)
        else s.requests, binding, derived, device);
    AddedIdentified(s.requests, E.Unexpired(s.requests, now), s.bindings, q,
        E.NewRequest(s, now, origin, binding, device));
  }

  lemma ResolvedAgrees(s: Snapshot, kept: map<Id, Request>, pool: map<Id, Request>, binding: Binding, derived: Id,
                       device: Subject)
    requires Identified(s.requests, s.bindings) && E.ResolvesTo(s.bindings, pool, binding, derived, device)
    requires forall p :: p in kept ==> p in pool
    requires forall p :: p in pool ==> p in s.requests && pool[p] == s.requests[p]
    ensures device.Named?
    ensures forall p :: p in kept && s.requests[p].binding == binding ==> s.requests[p].device == device
    ensures forall d :: d in s.bindings && s.bindings[d] == binding ==> d == device
  {}

  lemma RedeemedIdentified(s: Snapshot, q: Id, id: Id, verifier: Id)
    requires Identified(s.requests, s.bindings) && q in s.requests
    requires E.UnownedError(s, s.requests[q].device, s.requests[q].binding).None?
    ensures var t := E.Redeemed(s, q, id, verifier);
            && Identified(t.requests, t.bindings) && BindingsKept(s.bindings, t.bindings)
            && s.requests[q].device in t.bindings && t.bindings[s.requests[q].device] == s.requests[q].binding
  {
    hide VerifiersOf, Disable, L.MatchingIds;
    var t := E.Redeemed(s, q, id, verifier);
    var row := s.requests[q];
    forall p | p in t.requests ensures t.requests[p].binding == s.requests[p].binding
        && t.requests[p].device == s.requests[p].device {}
    forall d | d in s.bindings && s.bindings[d] == row.binding ensures d == row.device {}
  }

  /** A pairing call that adds a binding has passed the ownership check. */
  lemma RedeemingChecked(s: Snapshot, now: real, origin: Id, principal: Option<Principal>, m: E.Move)
    requires m.Redeeming? && m.q in s.requests
    ensures var t := E.Pair(s, now, origin, principal, m).after;
            t.bindings == s.bindings ||
            (t == E.Redeemed(s, m.q, m.id, m.verifier)
                && E.UnownedError(s, s.requests[m.q].device, s.requests[m.q].binding).None?)
  {
    hide Admissible, E.Redeemed, E.Live, E.UnownedError;
  }

  lemma AskingChecked(s: Snapshot, now: real, origin: Id, principal: Option<Principal>, m: E.Move)
    requires m.Asking?
    ensures var t := E.Pair(s, now, origin, principal, m).after;
            t == s || (t == E.Opened(s, now, origin, m.binding, m.device, m.requestId)
                       && E.ResolvesTo(s.bindings, if m.aliased then E.Unexpired(s.requests, now)
                           else s.requests, m.binding, m.derived, m.device)
                       && !E.DeviceBusy(s, E.Unexpired(s.requests, now), m.device, now, origin))
  {
    hide Admissible, E.Opened, E.ResolvesTo, E.DeviceBusy, E.UnownedError, E.ControllerError, E.Unexpired;
  }

  lemma PairIdentified(s: Snapshot, now: real, origin: Id, principal: Option<Principal>, m: E.Move)
    requires Identified(s.requests, s.bindings)
    ensures var t := E.Pair(s, now, origin, principal, m).after;
            Identified(t.requests, t.bindings) && BindingsKept(s.bindings, t.bindings)
  {
    hide Identified, E.Pair, E.Opened, E.Redeemed, E.ResolvesTo, E.UnownedError, E.DeviceBusy, E.Unexpired,
      PairsRows;
    var t := E.Pair(s, now, origin, principal, m).after;
    LT.PairShape(s, now, origin, principal, m);
    PairRows(s, now, origin, principal, m);
    if m.Asking? {
      AskingChecked(s, now, origin, principal, m);
      if t != s { OpenedIdentified(s, now, origin, m.binding, m.derived, m.device, m.aliased, m.requestId); }
    } else {
      if m.Redeeming? && m.q in s.requests { RedeemingChecked(s, now, origin, principal, m); }
      if t.bindings == s.bindings {
        MovedIdentified(s.requests, t.requests, s.bindings, now, m, principal);
      } else {
        RedeemedIdentified(s, m.q, m.id, m.verifier);
      }
    }
  }

  lemma ActBindings(s: Snapshot, now: real, origin: Id, principal: Option<Principal>, c: L.Command)
    ensures L.Act(s, now, origin, principal, c).after.bindings == s.bindings
  {
    hide Admissible, VerifiersOf, Disable, L.NewOperation, L.RevokeActive, L.MatchingIds,
      L.RemovesLiability, L.AnyUsable, IsOwner, Current, L.AbandonPairing, InvalidateApprovals;
  }

  lemma StepIdentified(s: Snapshot, now: real, tx: Tx, cut: nat)
    requires Identified(s.requests, s.bindings)
    ensures var t := After(s, now, tx, cut);
            Identified(t.requests, t.bindings) && BindingsKept(s.bindings, t.bindings)
  {
    hide Identified, L.Act, E.Pair, I.Serve, AllQuiet, VerifiersOf, Disable, L.SweptIds, L.SweepOps,
      L.LivePointers, InvalidateApprovals, E.MarkIfStale;
    var t := After(s, now, tx, cut);
    match tx
    case LifecycleTx(origin, principal, command) =>
      var swept := L.Sweep(s, now, origin);
      SweepQuiet(s, now, origin);
      QuietIdentified(s.requests, swept.requests, s.bindings);
      ActQuiet(swept, now, origin, principal, command);
      ActBindings(swept, now, origin, principal, command);
      QuietIdentified(swept.requests, L.Act(swept, now, origin, principal, command).after.requests, s.bindings);
    case EnrollmentTx(origin, principal, move) =>
      var swept := L.Sweep(s, now, origin);
      var marked := E.MarkStale(swept, now, origin);
      SweepQuiet(s, now, origin);
      QuietIdentified(s.requests, swept.requests, s.bindings);
      MarkStaleQuiet(swept, now, origin);
      QuietIdentified(swept.requests, marked.requests, s.bindings);
      PairIdentified(marked, now, origin, principal, move);
    case IntegrationTx(origin, principal, call) =>
      var swept := I.SweepGrants(s, now, origin);
      P.GrantsLeaveOperations(s, now, origin, principal, call, cut);
      MarkStaleQuiet(swept, now, origin);
      ServeQuiet(swept, now, origin, principal, call);
      if cut > 1 { QuietIdentified(s.requests, t.requests, s.bindings); }
    case HousekeepingTx(origin) =>
      MarkStaleQuiet(s, now, origin);
      QuietIdentified(s.requests, E.MarkStale(s, now, origin).requests, s.bindings);
    case OwnerTx(owner) =>
  }
}
