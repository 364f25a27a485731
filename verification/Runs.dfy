/** What every snapshot of every run satisfies, and what never changes along a run. */
module Runs {
  import opened Authority
  import opened Transitions
  import opened Upkeep
  import opened LatchRuns
  import opened Protocol
  import opened Identity
  import opened Linked
  import L = Lifecycle
  import E = Enrollment
  import I = Integration
  import LT = Latch

  ghost predicate Inv(s: Snapshot) {
    Sound(s) && Orderly(s.operations, s.recovery) && Identified(s.requests, s.bindings) && AllLinked(s)
  }

  lemma EmptyInv()
    ensures Inv(EMPTY)
  {
    EmptySound();
  }

  lemma IdentifiedNamed(requests: map<Id, Request>, bindings: map<Subject, Binding>)
    requires Identified(requests, bindings)
    ensures DevicesNamed(requests, bindings)
  {}

  lemma SchemaParts(s: Snapshot)
    requires Schema(s)
    ensures RecordsValid(s.records) && RecoveryValid(s.operations, s.bindings, s.recovery)
  {}

  lemma StepLinked(s: Snapshot, now: real, tx: Tx, cut: nat)
    requires Schema(s) && AllLinked(s) && Identified(s.requests, s.bindings)
    ensures AllLinked(After(s, now, tx, cut))
  {
    hide Schema, IdsImmutable, AllLinked, Identified, L.Sweep, L.Act, E.Pair, I.Serve, I.SweepGrants,
      DevicesNamed, RecordsValid, RecoveryValid;
    match tx
    case LifecycleTx(origin, principal, command) =>
      SweepLinked(s, now, origin);
      ActLinked(L.Sweep(s, now, origin), now, origin, principal, command);
    case EnrollmentTx(origin, principal, move) =>
      var swept := L.Sweep(s, now, origin);
      var marked := E.MarkStale(swept, now, origin);
      SweepLinked(s, now, origin);
      MarkedLinked(swept, now, origin);
      StepIdentified(s, now, tx, 2);
      IdentifiedNamed(marked.requests, marked.bindings);
      SweepAdmissible(s, now, origin);
      MarkStaleAdmissible(swept, now, origin);
      SchemaParts(marked);
      PairLinked(marked, now, origin, principal, move);
    case IntegrationTx(origin, principal, call) =>
      SweepGrantsLinked(s, now, origin);
      MarkedLinked(I.SweepGrants(s, now, origin), now, origin);
      ServeLinked(I.SweepGrants(s, now, origin), now, origin, principal, call);
    case HousekeepingTx(origin) => MarkedLinked(s, now, origin);
    case OwnerTx(owner) => OwnerLinked(s, owner);
  }

  lemma MarkedLinked(s: Snapshot, now: real, origin: Id)
    requires AllLinked(s)
    ensures AllLinked(E.MarkStale(s, now, origin))
  {
    hide OpsLinked, AgentsGranted, GrantsUnissued, E.MarkIfStale;
  }

  lemma OwnerLinked(s: Snapshot, owner: Owner)
    requires AllLinked(s)
    ensures AllLinked(s.(owner := owner))
  {
    hide OpsLinked, AgentsGranted, GrantsUnissued;
  }

  lemma StepInv(s: Snapshot, now: real, tx: Tx, cut: nat)
    requires Inv(s) && Faithful(s, now, tx) && 0.0 <= now
    ensures Inv(After(s, now, tx, cut))
  {
    hide Schema, LT.DeadlinesSet, Orderly, Identified, AllLinked, After, Faithful;
    AfterSchema(s, now, tx, cut);
    StepLatched(s, now, tx, cut);
    StepOrderly(s, now, tx, cut);
    StepIdentified(s, now, tx, cut);
    StepLinked(s, now, tx, cut);
  }

  /** A run that starts from the empty store, or from any snapshot that satisfies the
      invariant, satisfies it at every moment. */
  lemma {:induction false} RunInv(run: seq<Moment>, i: nat)
    requires IsRun(run) && Inv(run[0].s) && i < |run|
    ensures Inv(run[i].s) && 0.0 <= run[i].now
  {
    hide Inv, After, Faithful;
    if i > 0 {
      RunInv(run, i - 1);
      assert Follows(run[i - 1], run[i]);
      StepInv(run[i - 1].s, run[i].now, run[i].tx, run[i].cut);
    }
  }

  ghost predicate Persists(s: Snapshot, t: Snapshot) {
    Advances(s.operations, t.operations) && BindingsKept(s.bindings, t.bindings)
  }

  lemma RunPersistsOnce(run: seq<Moment>, i: nat)
    requires IsRun(run) && Inv(run[0].s) && i + 1 < |run|
    ensures Persists(run[i].s, run[i + 1].s)
  {
    hide Schema, LT.DeadlinesSet, Orderly, Identified, AllLinked, After, Faithful, Advances, BindingsKept;
    RunInv(run, i);
    assert Follows(run[i], run[i + 1]);
    StepOrderly(run[i].s, run[i + 1].now, run[i + 1].tx, run[i + 1].cut);
    StepIdentified(run[i].s, run[i + 1].now, run[i + 1].tx, run[i + 1].cut);
  }

  lemma PersistsOn(a: Snapshot, b: Snapshot, c: Snapshot)
    requires Persists(a, b) && Persists(b, c)
    ensures Persists(a, c)
  {}

  /** Along a run operations are never forgotten, finished ones never change again, and
      device bindings never change or disappear. */
  lemma {:induction false} RunPersists(run: seq<Moment>, i: nat, j: nat)
    requires IsRun(run) && Inv(run[0].s) && i <= j < |run|
    ensures Persists(run[i].s, run[j].s)
    decreases j - i
  {
    hide Inv, IsRun, Persists;
    if i < j {
      RunPersistsOnce(run, i);
      RunPersists(run, i + 1, j);
      PersistsOn(run[i].s, run[i + 1].s, run[j].s);
    } else {
      PersistsItself(run[i].s);
    }
  }

  lemma PersistsItself(s: Snapshot)
    ensures Persists(s, s)
  {}

  /** Pairing can never revive a finished recovery: at every moment a recovery pointer names
      an unfinished recovery of its own subject, and it is that subject's only unfinished
      operation. */
  lemma PointersNameLiveRecoveries(run: seq<Moment>, i: nat, d: Subject)
    requires IsRun(run) && Inv(run[0].s) && i < |run| && d in run[i].s.recovery
    ensures var s := run[i].s; var k := s.recovery[d].operationId;
      && k in s.operations && !TerminalOp(s.operations[k].state) && s.operations[k].action.Recover?
      && s.operations[k].subject == d && s.operations[k].role.DeviceRole?
      && forall j :: j in s.operations && s.operations[j].subject == d && !TerminalOp(s.operations[j].state) ==> j == k
  {
    hide HasCapacity, GrantsBound, GrantsValid, EnrollmentValid, RecordsValid, IsRun, AllLinked, Identified,
      RotationsUnissued, RecoveriesPointed;
    RunInv(run, i);
  }
}
