/** What a withdrawn credential takes with it, at every moment of every run: no unfinished pairing
    request is in its name, and an integration request that ended before it was completed leaves
    none that is not tombstoned. */
module Withdrawals {
  import opened Basics
  import opened Authority
  import opened Transitions
  import opened Records
  import opened Requests
  import opened Runs
  import opened Permission
  import opened Linked
  import L = Lifecycle
  import E = Enrollment
  import I = Integration
  import LT = Latch
  import G = Grants
  import Registry
  import Handover
  import LatchRuns
  import opened Upkeep

  // ----- Actors of pairing requests -----

  /** An integration that acted on a request still has its credential, enabled, issued by a
      completed enrollment and not tombstoned. */
  ghost predicate Stands(s: Snapshot, actor: Option<Principal>) {
    actor.Some? && !actor.value.role.OwnerRole? ==> StandsAs(s, actor.value.credentialId)
  }

  ghost predicate StandsAs(s: Snapshot, id: Id) {
    exists i :: 0 <= i < |s.records| && s.records[i].id == id && s.records[i].role.IntegrationRole?
                && s.records[i].enabled && s.records[i].verifier !in s.blocked && !Withheld(s.grants, id)
  }

  /** No unfinished request is in the name of a withdrawn credential. */
  ghost predicate ActorsStand(s: Snapshot) {
    forall q :: q in s.requests && !TerminalRequest(s.requests[q].state) ==>
      Stands(s, s.requests[q].initiator) && Stands(s, s.requests[q].approver)
  }

  lemma StandsOn(s: Snapshot, t: Snapshot, ids: set<Id>, id: Id)
    requires RecordsValid(s.records) && StandsAs(s, id) && id !in ids
    requires LT.KeepsBorn(s, t) && t.blocked <= s.blocked + VerifiersOf(s.records, ids)
    ensures StandsAs(t, id)
  {}

  /** Retiring `ids` does no harm if no unfinished request names them. */
  lemma ActorsOn(s: Snapshot, t: Snapshot, ids: set<Id>)
    requires RecordsValid(s.records) && ActorsStand(s)
    requires LT.KeepsBorn(s, t) && t.blocked <= s.blocked + VerifiersOf(s.records, ids)
    requires forall q :: q in t.requests && !TerminalRequest(t.requests[q].state) ==>
      && q in s.requests && !TerminalRequest(s.requests[q].state)
      && t.requests[q].initiator == s.requests[q].initiator && t.requests[q].approver == s.requests[q].approver
      && !Harmed(s, s.requests[q].initiator, ids) && !Harmed(s, s.requests[q].approver, ids)
    ensures ActorsStand(t)
  {
    hide StandsAs, LT.KeepsBorn, RecordsValid;
    forall q | q in t.requests && !TerminalRequest(t.requests[q].state)
      ensures Stands(t, t.requests[q].initiator) && Stands(t, t.requests[q].approver)
    {
      ActorOn(s, t, ids, s.requests[q].initiator);
      ActorOn(s, t, ids, s.requests[q].approver);
    }
  }

  ghost predicate Harmed(s: Snapshot, actor: Option<Principal>, ids: set<Id>) {
    Names(actor, ids) && !actor.value.role.OwnerRole? && StandsAs(s, actor.value.credentialId)
  }

  lemma ActorOn(s: Snapshot, t: Snapshot, ids: set<Id>, actor: Option<Principal>)
    requires RecordsValid(s.records) && Stands(s, actor) && !Harmed(s, actor, ids)
    requires LT.KeepsBorn(s, t) && t.blocked <= s.blocked + VerifiersOf(s.records, ids)
    ensures Stands(t, actor)
  {
    hide StandsAs, LT.KeepsBorn, RecordsValid;
    if actor.Some? && !actor.value.role.OwnerRole? { StandsOn(s, t, ids, actor.value.credentialId); }
  }

  lemma SweptActors(s: Snapshot, now: real, origin: Id)
    requires RecordsValid(s.records) && ActorsStand(s) && LifecycleValid(s) && LT.DeadlinesSet(s.operations)
    ensures ActorsStand(L.Sweep(s, now, origin))
  {
    hide RecordsValid, LifecycleValid, LT.DeadlinesSet, LT.KeepsBorn, LT.KeepsDead, StandsAs, Stands, L.SweptIds,
      L.SweepOps, L.LivePointers, Disable, VerifiersOf, ActorsStand;
    LT.SweepKeeps(s, now, origin);
    ActorsOn(s, L.Sweep(s, now, origin), L.SweptIds(s, now, origin));
  }

  lemma MarkedActors(s: Snapshot, now: real, origin: Id)
    requires RecordsValid(s.records) && ActorsStand(s)
    ensures ActorsStand(E.MarkStale(s, now, origin))
  {
    hide RecordsValid, E.Detached;
  }

  /** What a command tombstones. */
  function Taken(s: Snapshot, c: L.Command): set<Id> {
    match c
    case Ordered(action, _, role, subject) => if action.Rotate? then {} else L.MatchingIds(s.records, role, subject)
    case Receipt(k, _) => if k in s.operations then s.operations[k].oldIds else {}
    case _ => {}
  }

  lemma ActTakes(s: Snapshot, now: real, origin: Id, principal: Option<Principal>, c: L.Command)
    ensures var t := L.Act(s, now, origin, principal, c).after;
      t == s || (t.blocked <= s.blocked + VerifiersOf(s.records, Taken(s, c))
                 && forall q :: q in t.requests && !TerminalRequest(t.requests[q].state) ==>
                      && q in s.requests && t.requests[q] == s.requests[q]
                      && !Names(s.requests[q].initiator, Taken(s, c)) && !Names(s.requests[q].approver, Taken(s, c)))
  {
    hide Admissible, Disable, VerifiersOf, L.MatchingIds, L.RemovesLiability, L.AnyUsable, IsOwner, Current,
      L.HasActive, L.HasMatching, L.RevokeActive, L.NewOperation, L.Controlled;
    if c.Ordered? { ControlTakes(s, now, origin, c); }
  }

  lemma ControlTakes(s: Snapshot, now: real, origin: Id, c: L.Command)
    requires c.Ordered?
    ensures var t := L.Controlled(s, now, origin, c.action, c.opId, c.role, c.subject);
      && t.blocked <= s.blocked + VerifiersOf(s.records, Taken(s, c))
      && forall q :: q in t.requests && !TerminalRequest(t.requests[q].state) ==>
           && q in s.requests && t.requests[q] == s.requests[q]
           && !Names(s.requests[q].initiator, Taken(s, c)) && !Names(s.requests[q].approver, Taken(s, c))
  {
    hide Disable, VerifiersOf, L.MatchingIds, L.RevokeActive, L.NewOperation;
  }

  lemma ActActors(s: Snapshot, now: real, origin: Id, principal: Option<Principal>, c: L.Command)
    requires RecordsValid(s.records) && ActorsStand(s)
    requires LT.Swept(s, now) && LT.DeadlinesSet(s.operations) && 0.0 <= now
    ensures ActorsStand(L.Act(s, now, origin, principal, c).after)
  {
    hide RecordsValid, LT.DeadlinesSet, LT.Swept, LT.KeepsBorn, LT.KeepsDead, StandsAs, Stands, VerifiersOf, L.Act,
      Taken, ActorsStand;
    LT.ActKeeps(s, now, origin, principal, c);
    ActTakes(s, now, origin, principal, c);
    var t := L.Act(s, now, origin, principal, c).after;
    if t != s { ActorsOn(s, t, Taken(s, c)); }
  }

  lemma BearerStands(s: Snapshot, principal: Option<Principal>, kind: Kind, now: real)
    requires ControllerSpeaks(s, principal, kind, now)
    ensures Stands(s, principal)
  {
    hide Withdrawn, Withheld;
    var p := principal.value;
    if !p.role.OwnerRole? {
      var i :| 0 <= i < |s.records| && s.records[i].id == p.credentialId && s.records[i].role == p.role
               && Usable(s, s.records[i], now);
    }
  }

  /** What a pairing call tombstones: the device's own credentials, and those only when it redeems. */
  function Replaced(s: Snapshot, m: E.Move): set<Id> {
    if m.Redeeming? && m.q in s.requests then L.MatchingIds(s.records, DeviceRole, s.requests[m.q].device) else {}
  }

  lemma PairReplaces(s: Snapshot, now: real, origin: Id, principal: Option<Principal>, m: E.Move)
    ensures E.Pair(s, now, origin, principal, m).after.blocked <= s.blocked + VerifiersOf(s.records, Replaced(s, m))
  {
    hide E.Pair, L.MatchingIds, VerifiersOf, E.Unexpired;
    LT.PairShape(s, now, origin, principal, m);
  }

  lemma ReplacedHarmsNone(s: Snapshot, m: E.Move, actor: Option<Principal>)
    requires RecordsValid(s.records)
    ensures !Harmed(s, actor, Replaced(s, m))
  {}

  lemma PairActors(s: Snapshot, now: real, origin: Id, principal: Option<Principal>, m: E.Move)
    requires RecordsValid(s.records) && ActorsStand(s)
    requires LT.Swept(s, now) && LT.DeadlinesSet(s.operations) && 0.0 <= now
    ensures ActorsStand(E.Pair(s, now, origin, principal, m).after)
  {
    hide RecordsValid, LT.DeadlinesSet, LT.Swept, LT.KeepsBorn, LT.KeepsDead, StandsAs, Stands, E.Pair, VerifiersOf,
      Replaced, Harmed, ControllerSpeaks;
    var t := E.Pair(s, now, origin, principal, m).after;
    LT.PairKeeps(s, now, origin, principal, m);
    PairReplaces(s, now, origin, principal, m);
    PairRows(s, now, origin, principal, m);
    NoActor(t);
    if (m.Initiating? || m.Approving?) && t != s {
      EndorserSpeaks(s, now, origin, principal, m);
      BearerStands(s, principal, s.requests[m.q].binding.kind, now);
    }
    forall q | q in t.requests && !TerminalRequest(t.requests[q].state)
      ensures Stands(t, t.requests[q].initiator) && Stands(t, t.requests[q].approver)
    {
      var row := t.requests[q];
      if q in s.requests && !TerminalRequest(s.requests[q].state) {
        ReplacedOn(s, t, m, s.requests[q].initiator);
        ReplacedOn(s, t, m, s.requests[q].approver);
      }
      if Stands(s, principal) { ReplacedOn(s, t, m, principal); }
    }
  }

  lemma EndorserSpeaks(s: Snapshot, now: real, origin: Id, principal: Option<Principal>, m: E.Move)
    requires (m.Initiating? || m.Approving?) && E.Pair(s, now, origin, principal, m).after != s
    ensures m.q in s.requests && ControllerSpeaks(s, principal, s.requests[m.q].binding.kind, now)
  {
    hide E.Live, E.Proceed, Usable;
  }

  lemma NoActor(s: Snapshot)
    ensures Stands(s, None)
  {}

  lemma ReplacedOn(s: Snapshot, t: Snapshot, m: E.Move, actor: Option<Principal>)
    requires RecordsValid(s.records) && Stands(s, actor)
    requires LT.KeepsBorn(s, t) && t.blocked <= s.blocked + VerifiersOf(s.records, Replaced(s, m))
    ensures Stands(t, actor)
  {
    hide RecordsValid, LT.KeepsBorn, Stands, Replaced, Harmed, VerifiersOf;
    ReplacedHarmsNone(s, m, actor);
    ActorOn(s, t, Replaced(s, m), actor);
  }

  // ----- Integration requests withdraw only what was never in use -----

  lemma LapsedHarmsNone(s: Snapshot, now: real, origin: Id, actor: Option<Principal>)
    ensures !Harmed(s, actor, I.LapsedIds(s, now, origin))
  {
    hide I.SweepGrant;
  }

  lemma SweptGrantActors(s: Snapshot, now: real, origin: Id)
    requires RecordsValid(s.records) && GrantsBound(s.grants, s.records) && ActorsStand(s)
    ensures ActorsStand(I.SweepGrants(s, now, origin))
  {
    hide RecordsValid, GrantsBound, LT.KeepsBorn, LT.KeepsDead, StandsAs, I.LapsedIds, I.SweepGrant, Stands, Harmed,
      VerifiersOf, Disable;
    LT.GrantSweepKeeps(s, now, origin);
    forall q | q in s.requests
      ensures !Harmed(s, s.requests[q].initiator, I.LapsedIds(s, now, origin))
      ensures !Harmed(s, s.requests[q].approver, I.LapsedIds(s, now, origin))
    {
      LapsedHarmsNone(s, now, origin, s.requests[q].initiator);
      LapsedHarmsNone(s, now, origin, s.requests[q].approver);
    }
    ActorsOn(s, I.SweepGrants(s, now, origin), I.LapsedIds(s, now, origin));
  }

  /** What an integration call tombstones: what an unfinished request issued. */
  function Dropped(s: Snapshot, c: I.Call): set<Id> {
    if c.k in s.grants && !TerminalGrant(s.grants[c.k].state) then {s.grants[c.k].credentialId} else {}
  }

  lemma ServeDrops(s: Snapshot, now: real, origin: Id, principal: Option<Principal>, c: I.Call)
    ensures I.Serve(s, now, origin, principal, c).after.blocked <= s.blocked + VerifiersOf(s.records, Dropped(s, c))
  {
    hide I.Serve, LT.GrantsMove, VerifiersOf, Admissible, I.Presents;
    LT.ServeShape(s, now, origin, principal, c);
  }

  lemma DroppedHarmsNone(s: Snapshot, c: I.Call, actor: Option<Principal>)
    ensures !Harmed(s, actor, Dropped(s, c))
  {}

  lemma ServeActors(s: Snapshot, now: real, origin: Id, principal: Option<Principal>, c: I.Call)
    requires RecordsValid(s.records) && ActorsStand(s)
    ensures ActorsStand(I.Serve(s, now, origin, principal, c).after)
  {
    hide RecordsValid, LT.KeepsBorn, LT.KeepsDead, StandsAs, I.Serve, Stands, Harmed, VerifiersOf, Dropped;
    LT.ServeKeeps(s, now, origin, principal, c);
    ServeDrops(s, now, origin, principal, c);
    ServeQuiet(s, now, origin, principal, c);
    forall q | q in s.requests
      ensures !Harmed(s, s.requests[q].initiator, Dropped(s, c)) && !Harmed(s, s.requests[q].approver, Dropped(s, c))
    {
      DroppedHarmsNone(s, c, s.requests[q].initiator);
      DroppedHarmsNone(s, c, s.requests[q].approver);
    }
    ActorsOn(s, I.Serve(s, now, origin, principal, c).after, Dropped(s, c));
  }

  lemma StepActors(s: Snapshot, now: real, tx: Tx, cut: nat)
    requires Inv(s) && Faithful(s, now, tx) && 0.0 <= now && ActorsStand(s)
    ensures ActorsStand(After(s, now, tx, cut))
  {
    hide Inv, Schema, RecordsValid, ActorsStand, LT.DeadlinesSet, LT.Swept, L.Sweep, L.Act, E.Pair, E.MarkStale,
      I.Serve, I.SweepGrants, L.FindsRotation, LifecycleValid, GrantsBound;
    InvParts(s);
    match tx
    case LifecycleTx(origin, principal, command) =>
      var swept := L.Sweep(s, now, origin);
      SweptActors(s, now, origin);
      LT.SweepSettles(s, now, origin);
      StepInv(s, now, tx, 1);
      InvParts(swept);
      ActActors(swept, now, origin, principal, command);
    case EnrollmentTx(origin, principal, move) =>
      var swept := L.Sweep(s, now, origin);
      var marked := E.MarkStale(swept, now, origin);
      SweptActors(s, now, origin);
      LT.SweepSettles(s, now, origin);
      StepInv(s, now, tx, 1);
      InvParts(swept);
      MarkedActors(swept, now, origin);
      MarkedSettled(swept, now, origin);
      StepInv(s, now, tx, 2);
      InvParts(marked);
      PairActors(marked, now, origin, principal, move);
    case IntegrationTx(origin, principal, call) =>
      var swept := I.SweepGrants(s, now, origin);
      SweptGrantActors(s, now, origin);
      StepInv(s, now, tx, 1);
      InvParts(swept);
      MarkedActors(swept, now, origin);
      ServeActors(swept, now, origin, principal, call);
    case HousekeepingTx(origin) => MarkedActors(s, now, origin);
    case OwnerTx(owner) => OwnerActors(s, owner);
  }

  lemma InvParts(s: Snapshot)
    requires Inv(s)
    ensures RecordsValid(s.records) && LifecycleValid(s) && GrantsBound(s.grants, s.records)
    ensures LT.DeadlinesSet(s.operations) && GrantsUnissued(s.grants)
  {
    hide RecordsValid, LifecycleValid, GrantsBound, HasCapacity;
  }

  lemma MarkedSettled(s: Snapshot, now: real, origin: Id)
    requires LT.Swept(s, now)
    ensures LT.Swept(E.MarkStale(s, now, origin), now)
  {
    hide E.MarkIfStale;
  }

  lemma OwnerActors(s: Snapshot, owner: Owner)
    requires ActorsStand(s)
    ensures ActorsStand(s.(owner := owner))
  {}

  lemma EmptyStands()
    ensures ActorsStand(EMPTY) && EndedRetired(EMPTY)
  {}

  /** At every moment of a run every unfinished pairing request is in the name of actors whose
      credentials have not been withdrawn: whatever tombstones a credential ends the requests that
      it initiated or approved in the same commit. */
  lemma {:induction false} ActorsAlwaysStand(run: seq<Moment>, i: nat)
    requires IsRun(run) && Inv(run[0].s) && ActorsStand(run[0].s) && i < |run|
    ensures ActorsStand(run[i].s)
  {
    hide Inv, After, Faithful, ActorsStand;
    if i > 0 {
      ActorsAlwaysStand(run, i - 1);
      assert Follows(run[i - 1], run[i]);
      RunInv(run, i - 1);
      RunInv(run, i);
      StepActors(run[i - 1].s, run[i].now, run[i].tx, run[i].cut);
    }
  }

  // ----- Integration requests that ended -----

  /** A request that ended before it was completed leaves no credential that is not tombstoned. */
  ghost predicate EndedRetired(s: Snapshot) {
    forall k, i :: k in s.grants && 0 <= i < |s.records| && s.records[i].id == s.grants[k].credentialId
                   && TerminalGrant(s.grants[k].state) && !s.grants[k].state.Completed? ==>
      s.records[i].verifier in s.blocked
  }

  lemma SweptEnded(s: Snapshot, now: real, origin: Id)
    requires EndedRetired(s) && GrantsBound(s.grants, s.records) && RecordsValid(s.records)
    ensures EndedRetired(I.SweepGrants(s, now, origin))
  {
    hide RecordsValid, GrantsBound, I.AllBlocked, I.SweepGrant;
    var t := I.SweepGrants(s, now, origin);
    forall k, i | k in t.grants && 0 <= i < |t.records| && t.records[i].id == t.grants[k].credentialId
                  && TerminalGrant(t.grants[k].state) && !t.grants[k].state.Completed?
      ensures t.records[i].verifier in t.blocked
    {
      assert t.records[i].id == s.records[i].id && t.records[i].verifier == s.records[i].verifier;
      assert s.records[i] in s.records;
      if s.grants[k].state.Completed? {
        LT.RevokedIsBlocked(s, k, now, origin);
        LT.BoundIsBlocked(s, k, s.records[i]);
      } else if !TerminalGrant(s.grants[k].state) {
        assert s.grants[k].credentialId in I.LapsedIds(s, now, origin);
      }
    }
  }

  lemma ServeEnded(s: Snapshot, now: real, origin: Id, principal: Option<Principal>, c: I.Call)
    requires EndedRetired(s) && RecordsValid(s.records) && GrantsUnissued(s.grants)
    ensures EndedRetired(I.Serve(s, now, origin, principal, c).after)
  {
    hide RecordsValid, GrantsUnissued, I.Apply, I.Approval, I.Ended, I.Presents, I.Issue, Admissible, IsOwner, I.Enable,
      E.MarkStale, EndedRetired;
    if c.Applying? {
      if c.k !in s.grants { ApplyEnded(s, now, origin, c); }
    } else if c.k in s.grants {
      if c.Approving? { ApprovalEnded(s, c.k, c.presented); }
      if c.Denying? { EndingEnded(s, c.k, GrantState.Denied); }
      if c.Withdrawing? { EndingEnded(s, c.k, GrantState.Cancelled); }
      if c.Collecting? { IssueEnded(s, c.k, c.id, c.verifier); }
      if c.Saving? { ActivatedEnded(s, c.k); }
    }
  }

  lemma ApplyEnded(s: Snapshot, now: real, origin: Id, c: I.Call)
    requires c.Applying? && EndedRetired(s) && RecordsValid(s.records)
    ensures EndedRetired(I.Apply(s, now, origin, c.k, c.secret, c.code, c.name, c.expiresAt).after)
  {
    hide RecordsValid, E.MarkIfStale, Admissible;
  }

  lemma ApprovalEnded(s: Snapshot, k: Id, presented: Id)
    requires k in s.grants && EndedRetired(s) && RecordsValid(s.records) && GrantsUnissued(s.grants)
    ensures EndedRetired(I.Approval(s, k, presented).after)
  {
    hide Admissible;
  }

  lemma EndingEnded(s: Snapshot, k: Id, target: GrantState)
    requires k in s.grants && EndedRetired(s)
    ensures EndedRetired(I.Ended(s, k, target).after)
  {
    hide Admissible;
  }

  lemma IssueEnded(s: Snapshot, k: Id, id: Id, verifier: Id)
    requires k in s.grants && EndedRetired(s)
    ensures EndedRetired(I.Issue(s, k, id, verifier).after)
  {
    hide RecordsValid, GrantsBound, HasCapacity, LifecycleValid, EnrollmentValid, GrantsValid, EndedRetired, I.Issued,
      IdsImmutable;
    if Admissible(s, I.Issued(s, k, id, verifier)) {
      IssuedIsNew(s, k, id, verifier);
      IssuedEnded(s, k, id, verifier);
    }
  }

  lemma IssuedEnded(s: Snapshot, k: Id, id: Id, verifier: Id)
    requires k in s.grants && EndedRetired(s)
    requires forall j :: j in s.grants && s.grants[j].credentialId == id ==> j == k
    ensures EndedRetired(I.Issued(s, k, id, verifier))
  {}

  lemma IssuedIsNew(s: Snapshot, k: Id, id: Id, verifier: Id)
    requires k in s.grants && RecordsValid(I.Issued(s, k, id, verifier).records)
    requires GrantsBound(I.Issued(s, k, id, verifier).grants, I.Issued(s, k, id, verifier).records)
    ensures forall j :: j in s.grants && s.grants[j].credentialId == id ==> j == k
  {
    var t := I.Issued(s, k, id, verifier);
    var c := t.records[|s.records|];
    assert c in t.records && c.id == id && c.subject == Agent(k);
    forall j | j in t.grants && t.grants[j].credentialId == id ensures j == k {
      var r :| r in t.records && r.id == id && r.subject == Agent(j);
      SameRecord(t.records, r, c);
    }
    forall j | j in s.grants && s.grants[j].credentialId == id ensures j == k {
      assert t.grants[j].credentialId == id;
    }
  }

  lemma SameRecord(records: seq<Credential>, r: Credential, c: Credential)
    requires RecordsValid(records) && r in records && c in records && r.id == c.id
    ensures r == c
  {
    var i :| 0 <= i < |records| && records[i] == r;
    var j :| 0 <= j < |records| && records[j] == c;
  }

  lemma ActivatedEnded(s: Snapshot, k: Id)
    requires k in s.grants && EndedRetired(s)
    ensures EndedRetired(I.Activated(s, k))
  {}

  /** The other services leave the integration requests alone. */
  lemma ElsewhereEnded(s: Snapshot, t: Snapshot)
    requires EndedRetired(s) && GrantsBound(s.grants, s.records) && RecordsValid(t.records)
    requires t.grants == s.grants && Extends(s.records, t.records) && s.blocked <= t.blocked
    ensures EndedRetired(t)
  {
    forall k, i | k in t.grants && 0 <= i < |t.records| && t.records[i].id == t.grants[k].credentialId
                  && TerminalGrant(t.grants[k].state) && !t.grants[k].state.Completed?
      ensures t.records[i].verifier in t.blocked
    {
      assert t.records[i] in t.records;
      var r :| r in s.records && r.id == s.grants[k].credentialId;
      var j :| 0 <= j < |s.records| && s.records[j] == r;
      assert t.records[j].id == t.records[i].id;
      assert i == j;
    }
  }

  lemma StepEnded(s: Snapshot, now: real, tx: Tx, cut: nat)
    requires Inv(s) && Faithful(s, now, tx) && 0.0 <= now && EndedRetired(s)
    ensures EndedRetired(After(s, now, tx, cut))
  {
    hide Inv, Schema, RecordsValid, GrantsBound, GrantsUnissued, L.Sweep, L.Act, E.Pair, E.MarkStale, I.Serve,
      I.SweepGrants, EndedRetired, LifecycleValid, LT.DeadlinesSet, L.FindsRotation;
    InvParts(s);
    match tx
    case IntegrationTx(origin, principal, call) =>
      var swept := I.SweepGrants(s, now, origin);
      SweptEnded(s, now, origin);
      StepInv(s, now, tx, 1);
      InvParts(swept);
      MarkedEnded(swept, now, origin);
      ServeEnded(swept, now, origin, principal, call);
    case _ =>
      var t := After(s, now, tx, cut);
      OtherGrants(s, now, tx, cut);
      StepInv(s, now, tx, cut);
      InvParts(t);
      Grows(s, now, tx, cut);
      ElsewhereEnded(s, t);
  }

  lemma MarkedEnded(s: Snapshot, now: real, origin: Id)
    requires EndedRetired(s)
    ensures EndedRetired(E.MarkStale(s, now, origin))
  {
    hide E.MarkIfStale;
  }

  lemma OtherGrants(s: Snapshot, now: real, tx: Tx, cut: nat)
    requires !tx.IntegrationTx?
    ensures After(s, now, tx, cut).grants == s.grants
  {
    hide L.Sweep, L.Act, E.Pair, E.MarkStale;
    match tx
    case LifecycleTx(origin, principal, command) =>
      G.SweptElsewhere(s, now, origin);
      Registry.ActGrants(L.Sweep(s, now, origin), now, origin, principal, command);
    case EnrollmentTx(origin, principal, move) =>
      G.SweptElsewhere(s, now, origin);
      G.MarkedElsewhere(L.Sweep(s, now, origin), now, origin);
      Registry.PairGrants(E.MarkStale(L.Sweep(s, now, origin), now, origin), now, origin, principal, move);
    case IntegrationTx(_, _, _) =>
    case HousekeepingTx(origin) => G.MarkedElsewhere(s, now, origin);
    case OwnerTx(owner) =>
  }

  lemma Grows(s: Snapshot, now: real, tx: Tx, cut: nat)
    requires Inv(s) && 0.0 <= now
    ensures Extends(s.records, After(s, now, tx, cut).records) && s.blocked <= After(s, now, tx, cut).blocked
  {
    hide Schema, LT.DeadlinesSet, After, Handover.Mints;
    Handover.CredentialsAreMinted(s, now, tx, cut);
    LatchRuns.StepLatched(s, now, tx, cut);
  }

  /** At every moment of a run the credential of an integration request that ended before it was
      completed is tombstoned. */
  lemma {:induction false} EndedAlwaysRetired(run: seq<Moment>, i: nat)
    requires IsRun(run) && Inv(run[0].s) && EndedRetired(run[0].s) && i < |run|
    ensures EndedRetired(run[i].s)
  {
    hide Inv, After, Faithful, EndedRetired;
    if i > 0 {
      EndedAlwaysRetired(run, i - 1);
      assert Follows(run[i - 1], run[i]);
      RunInv(run, i - 1);
      RunInv(run, i);
      StepEnded(run[i - 1].s, run[i].now, run[i].tx, run[i].cut);
    }
  }
}
