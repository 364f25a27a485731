/** One state machine for the four services: every transaction is a chain of commits, and a
    write failure may stop it after any of them. */
module Transitions {
  import opened Basics
  import opened Authority
  import L = Lifecycle
  import E = Enrollment
  import I = Integration

  datatype Tx =
    | LifecycleTx(origin: Id, principal: Option<Principal>, command: L.Command)
    | EnrollmentTx(origin: Id, principal: Option<Principal>, move: E.Move)
    | IntegrationTx(origin: Id, principal: Option<Principal>, call: I.Call)
    | HousekeepingTx(origin: Id)
    | OwnerTx(owner: Owner)

  /** What iteration order decides is consistent with the snapshot it iterates over. */
  predicate Faithful(s: Snapshot, now: real, tx: Tx) {
    tx.LifecycleTx? && tx.command.Polling? && tx.principal.Some? ==>
      L.FindsRotation(L.Sweep(s, now, tx.origin), tx.principal.value, tx.command.found)
  }

  /** The snapshot on disk when `cut` of the transaction's commits took effect: 0 leaves the
      snapshot untouched, and a large enough number lets the whole transaction through. */
  function After(s: Snapshot, now: real, tx: Tx, cut: nat): Snapshot {
    if cut == 0 then s
    else match tx
      case LifecycleTx(origin, principal, command) =>
        var swept := L.Sweep(s, now, origin);
        if cut == 1 then swept else L.Act(swept, now, origin, principal, command).after
      case EnrollmentTx(origin, principal, move) =>
        var swept := L.Sweep(s, now, origin);
        var marked := E.MarkStale(swept, now, origin);
        if cut == 1 then swept else if cut == 2 then marked
        else E.Pair(marked, now, origin, principal, move).after
      case IntegrationTx(origin, principal, call) =>
        var swept := I.SweepGrants(s, now, origin);
        if cut == 1 then swept else if cut == 2 then E.MarkStale(swept, now, origin)
        else I.Serve(swept, now, origin, principal, call).after
      case HousekeepingTx(origin) => E.MarkStale(s, now, origin)
      case OwnerTx(owner) => s.(owner := owner)
  }

  /** The transaction took effect up to some commit. */
  ghost predicate CutShort(before: Snapshot, after: Snapshot, now: real, tx: Tx) {
    exists cut :: after == After(before, now, tx, cut)
  }

  /** What the caller is told when nothing fails. */
  function ReplyTo(s: Snapshot, now: real, tx: Tx): Reply {
    match tx
    case LifecycleTx(origin, principal, command) => L.Act(L.Sweep(s, now, origin), now, origin, principal,
        command).reply
    case EnrollmentTx(origin, principal, move) =>
      E.Pair(E.MarkStale(L.Sweep(s, now, origin), now, origin), now, origin, principal, move).reply
    case IntegrationTx(origin, principal, call) => I.Serve(I.SweepGrants(s, now, origin), now, origin, principal,
        call).reply
    case HousekeepingTx(_) => Done
    case OwnerTx(_) => Done
  }

  datatype Moment = Moment(now: real, tx: Tx, cut: nat, s: Snapshot)

  /** A run: transactions in any order under a clock that never goes back. `run[i].s` is the
      snapshot on disk at `run[i].now`. */
  predicate Follows(a: Moment, b: Moment) {
    a.now <= b.now && Faithful(a.s, b.now, b.tx) && b.s == After(a.s, b.now, b.tx, b.cut)
  }

  predicate IsRun(run: seq<Moment>) {
    |run| > 0 && 0.0 <= run[0].now && forall i :: 0 <= i < |run| - 1 ==> Follows(run[i], run[i + 1])
  }
}
