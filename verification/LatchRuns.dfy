/** The latch over whole runs of the four services. */
module LatchRuns {
  import opened Basics
  import opened Authority
  import opened Latch
  import opened Transitions
  import opened Upkeep
  import L = Lifecycle
  import E = Enrollment
  import I = Integration

  ghost predicate Latched(s: Snapshot, t: Snapshot, now: real) {
    && s.blocked <= t.blocked
    && (forall id :: Dead(s, id, now) ==> Dead(t, id, now))
    && (forall id :: Born(s, id) ==> Born(t, id))
  }

  lemma KeptIsLatched(s: Snapshot, t: Snapshot, now: real)
    requires KeepsDead(s, t, now) && KeepsBorn(s, t)
    ensures Latched(s, t, now)
  {
    hide Dead, Born;
    forall id | Dead(s, id, now) ensures Dead(t, id, now) { DeadStays(s, t, id, now); }
    forall id | Born(s, id) ensures Born(t, id) { BornStays(s, t, id); }
  }

  lemma SweepLatched(s: Snapshot, now: real, origin: Id)
    requires Schema(s) && DeadlinesSet(s.operations)
    ensures Latched(s, L.Sweep(s, now, origin), now)
    ensures Swept(L.Sweep(s, now, origin), now) && DeadlinesSet(L.Sweep(s, now, origin).operations)
  {
    hide LifecycleValid, HasCapacity, DeadlinesSet, KeepsDead, KeepsBorn, Latched, L.Sweep, Swept;
    SweepKeeps(s, now, origin);
    SweepSettles(s, now, origin);
    KeptIsLatched(s, L.Sweep(s, now, origin), now);
  }

  lemma MarkStaleLatched(s: Snapshot, now: real, origin: Id)
    ensures Latched(s, E.MarkStale(s, now, origin), now)
    ensures Swept(s, now) ==> Swept(E.MarkStale(s, now, origin), now)
  {
    hide E.MarkIfStale;
  }

  /** No commit of any service revives a dead credential or undoes an activation. */
  lemma StepLatched(s: Snapshot, now: real, tx: Tx, cut: nat)
    requires Schema(s) && DeadlinesSet(s.operations) && 0.0 <= now
    ensures Latched(s, After(s, now, tx, cut), now) && DeadlinesSet(After(s, now, tx, cut).operations)
  {
    hide WellFormed, HasCapacity, Dead, Born, KeepsDead, KeepsBorn, L.Sweep, L.Act, E.Pair, I.SweepGrants,
      I.Serve, Swept;
    match tx
    case LifecycleTx(origin, principal, command) =>
      SweepLatched(s, now, origin);
      var swept := L.Sweep(s, now, origin);
      ActKeeps(swept, now, origin, principal, command);
      KeptIsLatched(swept, L.Act(swept, now, origin, principal, command).after, now);
    case EnrollmentTx(origin, principal, move) =>
      SweepLatched(s, now, origin);
      var swept := L.Sweep(s, now, origin);
      MarkStaleLatched(swept, now, origin);
      var marked := E.MarkStale(swept, now, origin);
      PairKeeps(marked, now, origin, principal, move);
      KeptIsLatched(marked, E.Pair(marked, now, origin, principal, move).after, now);
    case IntegrationTx(origin, principal, call) =>
      IntegrationLatched(s, now, origin, principal, call, cut);
    case HousekeepingTx(origin) => MarkStaleLatched(s, now, origin);
    case OwnerTx(owner) => OwnerLatched(s, owner, now);
  }

  lemma OwnerLatched(s: Snapshot, owner: Owner, now: real)
    ensures Latched(s, s.(owner := owner), now)
  {}

  lemma IntegrationLatched(s: Snapshot, now: real, origin: Id, principal: Option<Principal>, call: I.Call, cut: nat)
    requires Schema(s)
    ensures var t := After(s, now, IntegrationTx(origin, principal, call), cut);
            Latched(s, t, now) && (DeadlinesSet(s.operations) ==> DeadlinesSet(t.operations))
  {
    hide HasCapacity, EnrollmentValid, LifecycleValid, GrantsValid, GrantsBound, RecordsValid, Dead, Born,
      KeepsDead, KeepsBorn, I.Serve, I.LapsedIds, I.SweepGrant, VerifiersOf, Disable;
    GrantSweepKeeps(s, now, origin);
    SweepGrantsAdmissible(s, now, origin);
    var swept := I.SweepGrants(s, now, origin);
    KeptIsLatched(s, swept, now);
    MarkStaleLatched(swept, now, origin);
    ServeKeeps(swept, now, origin, principal, call);
    KeptIsLatched(swept, I.Serve(swept, now, origin, principal, call).after, now);
  }

  // ---- Runs ----

  /** `t` is a moment at which the snapshot of the run's `i`-th moment is in force. */
  ghost predicate InForce(run: seq<Moment>, i: int, t: real) {
    0 <= i < |run| && run[i].now <= t && (i + 1 < |run| ==> t <= run[i + 1].now)
  }

  ghost predicate Sound(s: Snapshot) {
    Schema(s) && DeadlinesSet(s.operations)
  }

  lemma {:induction false} RunSound(run: seq<Moment>, i: nat)
    requires IsRun(run) && Sound(run[0].s) && i < |run|
    ensures Sound(run[i].s) && 0.0 <= run[i].now
  {
    hide Schema, DeadlinesSet, After, Faithful;
    if i > 0 {
      RunSound(run, i - 1);
      assert Follows(run[i - 1], run[i]);
      AfterSchema(run[i - 1].s, run[i].now, run[i].tx, run[i].cut);
      StepLatched(run[i - 1].s, run[i].now, run[i].tx, run[i].cut);
    }
  }

  lemma RunStep(run: seq<Moment>, i: nat)
    requires IsRun(run) && Sound(run[0].s) && i + 1 < |run|
    ensures Latched(run[i].s, run[i + 1].s, run[i + 1].now)
  {
    hide Schema, DeadlinesSet, After, Faithful, Latched;
    RunSound(run, i);
    assert Follows(run[i], run[i + 1]);
    StepLatched(run[i].s, run[i + 1].now, run[i + 1].tx, run[i + 1].cut);
  }

  lemma {:induction false} TombstonesStay(run: seq<Moment>, i: nat, k: nat)
    requires IsRun(run) && Sound(run[0].s) && i <= k < |run|
    ensures run[i].s.blocked <= run[k].s.blocked
    decreases k - i
  {
    hide Sound, IsRun, Dead, Born;
    if i < k {
      RunStep(run, i);
      TombstonesStay(run, i + 1, k);
    }
  }

  lemma {:induction false} BornAlong(run: seq<Moment>, i: nat, k: nat, id: Id)
    requires IsRun(run) && Sound(run[0].s) && i <= k < |run| && Born(run[i].s, id)
    ensures Born(run[k].s, id)
    decreases k - i
  {
    hide Sound, IsRun, Dead, Born;
    if i < k {
      RunStep(run, i);
      BornAlong(run, i + 1, k, id);
    }
  }

  lemma {:induction false} DeadAlong(run: seq<Moment>, i: nat, k: nat, id: Id, ti: real, tk: real)
    requires IsRun(run) && Sound(run[0].s) && i <= k
    requires InForce(run, i, ti) && InForce(run, k, tk) && ti <= tk && Dead(run[i].s, id, ti)
    ensures Dead(run[k].s, id, tk)
    decreases k - i
  {
    hide Sound, Dead, Born;
    if i == k {
      DeadLater(run[i].s, id, ti, tk);
    } else {
      DeadLater(run[i].s, id, ti, run[i + 1].now);
      RunStep(run, i);
      forall j | 0 <= j < |run| - 1 ensures run[j].now <= run[j + 1].now { assert Follows(run[j], run[j + 1]); }
      ClockMonotone(run, i + 1, k);
      DeadAlong(run, i + 1, k, id, run[i + 1].now, tk);
    }
  }

  lemma {:induction false} ClockMonotone(run: seq<Moment>, i: nat, k: nat)
    requires i <= k < |run| && forall j :: 0 <= j < |run| - 1 ==> run[j].now <= run[j + 1].now
    ensures run[i].now <= run[k].now
    decreases k - i
  {
    if i < k { ClockMonotone(run, i + 1, k); }
  }

  /** A credential that was usable at some moment of a run and is not at a later one is never
      usable again, whatever the four services are asked and wherever writes fail. */
  lemma UsabilityIsALatch(run: seq<Moment>, i: nat, j: nat, k: nat, id: Id, ti: real, tj: real, tk: real)
    requires IsRun(run) && Sound(run[0].s) && i <= j <= k
    requires InForce(run, i, ti) && InForce(run, j, tj) && InForce(run, k, tk) && ti <= tj <= tk
    requires UsableId(run[i].s, id, ti) && !UsableId(run[j].s, id, tj)
    ensures !UsableId(run[k].s, id, tk)
  {
    hide DeadlinesSet, WellFormed, HasCapacity, IsRun, Born, Dead, UsableId;
    RunSound(run, i);
    RunSound(run, j);
    RunSound(run, k);
    UsableHere(run[i].s, id, ti);
    UsableHere(run[j].s, id, tj);
    UsableHere(run[k].s, id, tk);
    BornAlong(run, i, j, id);
    DeadAlong(run, j, k, id, tj, tk);
  }

  lemma UsableHere(s: Snapshot, id: Id, now: real)
    requires Schema(s)
    ensures UsableId(s, id, now) <==> Born(s, id) && !Dead(s, id, now)
  {
    hide HasCapacity, LifecycleValid, EnrollmentValid, GrantsValid, GrantsBound;
    UsableIffBornAndNotDead(s, id, now);
  }

  lemma EmptySound()
    ensures Sound(EMPTY)
  {}
}
