/** The two files: authz.json holds authority, agents.json routing metadata. At every point
    between their writes a usable integration credential has its row in agents.json. */
module Registry {
  import opened Basics
  import opened Authority
  import opened Transitions
  import opened Records
  import opened Upkeep
  import opened LatchRuns
  import opened Linked
  import opened Runs
  import opened Handover
  import L = Lifecycle
  import E = Enrollment
  import I = Integration
  import LT = Latch
  import Expiry

  /** A routing row; `integration` rows belong to the integration agent with that name. */
  datatype Entry = Entry(id: Subject, integration: bool)
  datatype Agents = Agents(rows: seq<Entry>, active: Option<Subject>)
  datatype Files = Files(authz: Snapshot, agents: Agents)

  // ---- The registry's own operations ----

  predicate Listed(agents: Agents, id: Subject) {
    exists e :: e in agents.rows && e.id == id
  }

  predicate DistinctIds(rows: seq<Entry>) {
    forall i, j :: 0 <= i < j < |rows| ==> rows[i].id != rows[j].id
  }

  /** Ids are unique and the selection names a listed agent. */
  predicate AgentsValid(agents: Agents) {
    && DistinctIds(agents.rows)
    && (agents.active.Some? ==> Listed(agents, agents.active.value))
  }

  /** No row of another kind has taken the id of an integration agent. */
  ghost predicate Genuine(agents: Agents) {
    forall e :: e in agents.rows && e.id.Agent? ==> e.integration
  }

  /** Registering an agent that is listed changes nothing, its selection included. */
  function Register(agents: Agents, k: Id): Agents {
    if Listed(agents, Agent(k)) then agents else agents.(rows := agents.rows + [Entry(Agent(k), true)])
  }

  predicate CompletedGrant(grants: map<Id, Grant>, k: Id) {
    k in grants && grants[k].credentialId != NONE && grants[k].state.Completed?
  }

  /** Completed enrollment with current authority, by whichever credential of the agent. */
  predicate AgentValid(s: Snapshot, k: Id, now: real) {
    && CompletedGrant(s.grants, k)
    && exists r :: r in s.records && L.Matches(r, IntegrationRole, Agent(k)) && Usable(s, r, now)
  }

  predicate Retains(s: Snapshot, e: Entry, now: real) {
    !e.integration || (e.id.Agent? && AgentValid(s, e.id.request, now))
  }

  function Keep(rows: seq<Entry>, s: Snapshot, now: real): (out: seq<Entry>)
    ensures forall e :: e in out <==> e in rows && Retains(s, e, now)
  {
    if rows == [] then []
    else (if Retains(s, rows[0], now) then [rows[0]] else []) + Keep(rows[1..], s, now)
  }

  /** Rows of agents without authority go, and the selection with them. */
  function RetireInvalid(agents: Agents, s: Snapshot, now: real): Agents {
    var rows := Keep(agents.rows, s, now);
    Agents(rows, if agents.active.Some? && (exists e :: e in rows && e.id == agents.active.value) then agents.active
        else None)
  }

  lemma {:induction false} KeepUnique(rows: seq<Entry>, s: Snapshot, now: real)
    requires DistinctIds(rows)
    ensures DistinctIds(Keep(rows, s, now))
  {
    hide AgentValid;
    if rows != [] {
      var rest := Keep(rows[1..], s, now);
      KeepUnique(rows[1..], s, now);
      forall e | e in rest ensures e.id != rows[0].id {
        var l :| 0 <= l < |rows[1..]| && rows[1..][l] == e;
        assert rows[l + 1] == e;
      }
      DistinctCons(rows[0], rest);
      assert [] + rest == rest;
    }
  }

  lemma DistinctCons(e: Entry, rest: seq<Entry>)
    requires DistinctIds(rest) && forall f :: f in rest ==> f.id != e.id
    ensures DistinctIds([e] + rest)
  {}

  lemma RetiredValid(agents: Agents, s: Snapshot, now: real)
    requires AgentsValid(agents)
    ensures AgentsValid(RetireInvalid(agents, s, now))
  {
    hide AgentValid, Keep;
    KeepUnique(agents.rows, s, now);
    var out := RetireInvalid(agents, s, now);
    assert forall e :: e in out.rows ==> e in agents.rows;
    assert out.active.Some? ==> Listed(out, out.active.value);
  }

  /** Both operations keep the file valid, and neither takes an agent's id for another row. */
  lemma RegistryStaysValid(agents: Agents, k: Id, s: Snapshot, now: real)
    requires AgentsValid(agents)
    ensures AgentsValid(Register(agents, k)) && AgentsValid(RetireInvalid(agents, s, now))
    ensures Listed(Register(agents, k), Agent(k))
    ensures Register(agents, k).active == agents.active
    ensures Genuine(agents) ==> Genuine(Register(agents, k)) && Genuine(RetireInvalid(agents, s, now))
  {
    hide AgentValid, Keep;
    RetiredValid(agents, s, now);
    var more := Register(agents, k);
    if !Listed(agents, Agent(k)) {
      assert more.rows[|agents.rows|] in more.rows;
      forall i | 0 <= i < |agents.rows| ensures more.rows[i].id != Agent(k) { assert agents.rows[i] in agents.rows; }
      if agents.active.Some? {
        var e :| e in agents.rows && e.id == agents.active.value;
        assert e in more.rows;
      }
    }
  }

  // ---- Usability is not created ----

  /** No credential that existed becomes usable. */
  ghost predicate NoneRevived(s: Snapshot, t: Snapshot, now: real) {
    forall i :: 0 <= i < |s.records| && UsableId(t, s.records[i].id, now) ==> UsableId(s, s.records[i].id, now)
  }

  /** The parts of it that concern records and grants. */
  ghost predicate KeepsUnborn(s: Snapshot, t: Snapshot) {
    && (forall i :: 0 <= i < |s.records| && i < |t.records| && t.records[i].enabled ==> s.records[i].enabled)
    && (forall i :: 0 <= i < |s.records| && Withheld(s.grants, s.records[i].id) ==> Withheld(t.grants, s.records[i].id))
  }

  lemma KeptIsNotRevived(s: Snapshot, t: Snapshot, now: real)
    requires LT.KeepsDead(s, t, now) && KeepsUnborn(s, t) && RecordsValid(s.records) && RecordsValid(t.records)
    ensures NoneRevived(s, t, now)
  {
    hide RecordsValid, Withdrawn, Withheld, UsableId;
    forall i | 0 <= i < |s.records| && UsableId(t, s.records[i].id, now) ensures UsableId(s, s.records[i].id, now) {
      var id := s.records[i].id;
      LT.UsableIffBornAndNotDead(t, id, now);
      LT.UsableIffBornAndNotDead(s, id, now);
      if LT.Dead(s, id, now) { LT.DeadStays(s, t, id, now); }
      assert SameIdentity(s.records[i], t.records[i]);
      UniqueBorn(t, i);
      assert LT.Born(s, id);
    }
  }

  lemma UniqueBorn(t: Snapshot, i: nat)
    requires RecordsValid(t.records) && i < |t.records| && LT.Born(t, t.records[i].id)
    ensures t.records[i].verifier in t.blocked || (t.records[i].enabled && !Withheld(t.grants, t.records[i].id))
  {}

  lemma SweepNotRevives(s: Snapshot, now: real, origin: Id)
    requires Schema(s) && LT.DeadlinesSet(s.operations)
    ensures NoneRevived(s, L.Sweep(s, now, origin), now)
  {
    hide HasCapacity, LifecycleValid, NoneRevived, LT.KeepsDead, LT.KeepsBorn, L.SweptIds, L.SweepOps,
      L.LivePointers, VerifiersOf, InvalidateApprovals, LT.DeadlinesSet;
    SweepAdmissible(s, now, origin);
    LT.SweepKeeps(s, now, origin);
    KeptIsNotRevived(s, L.Sweep(s, now, origin), now);
  }

  lemma ActUnborn(s: Snapshot, now: real, origin: Id, principal: Option<Principal>, c: L.Command)
    ensures KeepsUnborn(s, L.Act(s, now, origin, principal, c).after)
  {
    hide Admissible, Withheld, VerifiersOf, L.NewOperation, L.RevokeActive, L.MatchingIds,
      L.RemovesLiability, L.AnyUsable, L.HasMatching, IsOwner, Current, L.AbandonPairing,
      InvalidateApprovals;
  }

  lemma PairUnborn(s: Snapshot, now: real, origin: Id, principal: Option<Principal>, m: E.Move)
    ensures KeepsUnborn(s, E.Pair(s, now, origin, principal, m).after)
  {
    hide E.Pair, Withheld, VerifiersOf, L.MatchingIds, E.Unexpired;
    LT.PairShape(s, now, origin, principal, m);
  }

  lemma SweepGrantsUnborn(s: Snapshot, now: real, origin: Id)
    ensures KeepsUnborn(s, I.SweepGrants(s, now, origin))
  {
    hide I.LapsedIds, I.SweepGrant, VerifiersOf;
    var t := I.SweepGrants(s, now, origin);
    forall k | k in s.grants && !s.grants[k].state.Completed? ensures !t.grants[k].state.Completed? {}
  }

  lemma ServeWithholds(s: Snapshot, now: real, origin: Id, principal: Option<Principal>, c: I.Call, k: Id)
    requires k in s.grants && s.grants[k].credentialId != NONE && !s.grants[k].state.Completed?
    requires !s.grants[k].state.Approved?
    ensures var t := I.Serve(s, now, origin, principal, c).after;
            k in t.grants && t.grants[k].credentialId == s.grants[k].credentialId
            && (!t.grants[k].state.Completed? || (c.Saving? && c.k == k && t == I.Activated(s, k)))
  {
    hide I.Serve, VerifiersOf, Disable, I.Presents, Admissible, I.Enable;
    LT.ServeShape(s, now, origin, principal, c);
  }

  /** Only the acknowledgement of a grant activates anything. */
  lemma ServeUnborn(s: Snapshot, now: real, origin: Id, principal: Option<Principal>, c: I.Call)
    requires RecordsValid(s.records) && GrantsUnissued(s.grants)
    ensures var t := I.Serve(s, now, origin, principal, c).after;
            KeepsUnborn(s, t) || (c.Saving? && c.k in s.grants && t == I.Activated(s, c.k))
  {
    hide I.Serve, VerifiersOf, I.Presents, Admissible, LT.GrantsMove, RecordsValid;
    var t := I.Serve(s, now, origin, principal, c).after;
    LT.ServeShape(s, now, origin, principal, c);
    if !(c.Saving? && c.k in s.grants && t == I.Activated(s, c.k)) {
      forall i | 0 <= i < |s.records| && Withheld(s.grants, s.records[i].id)
        ensures Withheld(t.grants, s.records[i].id) {
        NotNone(s, i);
        var k :| k in s.grants && s.grants[k].credentialId == s.records[i].id && !s.grants[k].state.Completed?;
        ServeWithholds(s, now, origin, principal, c, k);
      }
    }
  }

  lemma NotNone(s: Snapshot, i: nat)
    requires RecordsValid(s.records) && i < |s.records|
    ensures s.records[i].id != NONE
  {}

  /** Activating grant `k` concerns no other agent's credentials. */
  lemma ActivationConcernsOne(s: Snapshot, now: real, k: Id, i: nat)
    requires RecordsValid(s.records) && GrantsBound(s.grants, s.records) && k in s.grants && i < |s.records|
    requires s.records[i].subject != Agent(k) && UsableId(I.Activated(s, k), s.records[i].id, now)
    ensures UsableId(s, s.records[i].id, now)
  {
    hide RecordsValid, GrantsBound, Withdrawn;
    var t := I.Activated(s, k);
    var r :| r in t.records && r.id == s.records[i].id && Usable(t, r, now);
    var j :| 0 <= j < |t.records| && t.records[j] == r;
    SameId(s, i, j);
    NotIssuedTo(s, k, i);
    assert s.records[i] in s.records;
    forall l | l in s.grants && s.grants[l].credentialId == s.records[i].id ensures t.grants[l] == s.grants[l] {}
  }

  lemma SameId(s: Snapshot, i: nat, j: nat)
    requires RecordsValid(s.records) && i < |s.records| && j < |s.records| && s.records[i].id == s.records[j].id
    ensures i == j
  {}

  lemma NotIssuedTo(s: Snapshot, k: Id, i: nat)
    requires RecordsValid(s.records) && GrantsBound(s.grants, s.records) && k in s.grants
    requires i < |s.records| && s.records[i].subject != Agent(k)
    ensures s.grants[k].credentialId != s.records[i].id
  {}

  // ---- Agents are not validated behind the registry's back ----

  /** Every agent valid afterwards was valid before. */
  ghost predicate NoNewAgent(s: Snapshot, t: Snapshot, now: real) {
    forall k :: AgentValid(t, k, now) ==> AgentValid(s, k, now)
  }

  /** A record usable after the step was usable before, if it was there; new ones belong to no
      agent, or to an agent that was valid. */
  lemma NotRevivedNoNewAgent(s: Snapshot, t: Snapshot, now: real)
    requires NoneRevived(s, t, now) && Extends(s.records, t.records) && RecordsValid(s.records)
    requires forall k :: CompletedGrant(t.grants, k) ==> CompletedGrant(s.grants, k)
    requires forall i, k ::
      |s.records| <= i < |t.records| && L.Matches(t.records[i], IntegrationRole, Agent(k))
          && Usable(t, t.records[i], now)
      ==> AgentValid(s, k, now) || !CompletedGrant(t.grants, k)
    ensures NoNewAgent(s, t, now)
  {
    hide RecordsValid, Usable;
    forall k | AgentValid(t, k, now) ensures AgentValid(s, k, now) {
      var r :| r in t.records && L.Matches(r, IntegrationRole, Agent(k)) && Usable(t, r, now);
      var i :| 0 <= i < |t.records| && t.records[i] == r;
      if i < |s.records| {
        assert SameIdentity(s.records[i], t.records[i]);
        assert UsableId(s, s.records[i].id, now);
        var q :| q in s.records && q.id == s.records[i].id && Usable(s, q, now);
        var j :| 0 <= j < |s.records| && s.records[j] == q;
        SameId(s, i, j);
      }
    }
  }

  lemma SameGrantsNoNewAgent(s: Snapshot, t: Snapshot, now: real)
    requires NoneRevived(s, t, now) && Extends(s.records, t.records) && |t.records| == |s.records|
        && RecordsValid(s.records)
    requires t.grants == s.grants
    ensures NoNewAgent(s, t, now)
  {
    hide NoneRevived, RecordsValid, AgentValid, NoNewAgent;
    NotRevivedNoNewAgent(s, t, now);
  }

  /** A rotation is delivered to someone whose credential of the same subject is usable. */
  lemma DeliveryNeedsUsable(s: Snapshot, now: real, origin: Id, principal: Option<Principal>, c: L.Command)
    requires LifecycleValid(s) && c.Delivery?
    ensures var t := L.Act(s, now, origin, principal, c).after;
            |t.records| == |s.records| ||
            (c.opId in s.operations
             && exists r :: r in s.records && L.Matches(r, s.operations[c.opId].role, s.operations[c.opId].subject)
                 && Usable(s, r, now))
  {
    hide Admissible, Usable, RecoveryValid;
  }

  lemma ActNoNewAgent(s: Snapshot, now: real, origin: Id, principal: Option<Principal>, c: L.Command)
    requires Schema(s) && LT.Swept(s, now) && LT.DeadlinesSet(s.operations) && 0.0 <= now
    ensures NoNewAgent(s, L.Act(s, now, origin, principal, c).after, now)
  {
    hide HasCapacity, EnrollmentValid, GrantsValid, GrantsBound, RecordsValid, LifecycleValid, NoneRevived,
      KeepsUnborn, LT.KeepsDead, LT.KeepsBorn, L.Act, NoNewAgent, LT.Swept, LT.DeadlinesSet, Usable;
    var t := L.Act(s, now, origin, principal, c).after;
    ActSchema(s, now, origin, principal, c);
    LT.ActKeeps(s, now, origin, principal, c);
    ActUnborn(s, now, origin, principal, c);
    KeptIsNotRevived(s, t, now);
    ActMints(s, now, origin, principal, c);
    ActGrants(s, now, origin, principal, c);
    if c.Delivery? { DeliveryNeedsUsable(s, now, origin, principal, c); }
    NotRevivedNoNewAgent(s, t, now);
  }

  lemma ActGrants(s: Snapshot, now: real, origin: Id, principal: Option<Principal>, c: L.Command)
    ensures L.Act(s, now, origin, principal, c).after.grants == s.grants
  {
    hide Admissible, VerifiersOf, Disable, L.NewOperation, L.RevokeActive, L.MatchingIds,
      L.RemovesLiability, L.AnyUsable, L.HasMatching, IsOwner, Current, L.AbandonPairing,
      InvalidateApprovals;
  }

  lemma PairNoNewAgent(s: Snapshot, now: real, origin: Id, principal: Option<Principal>, m: E.Move)
    requires Schema(s) && LT.Swept(s, now) && LT.DeadlinesSet(s.operations) && 0.0 <= now
    ensures NoNewAgent(s, E.Pair(s, now, origin, principal, m).after, now)
  {
    hide HasCapacity, EnrollmentValid, GrantsValid, GrantsBound, RecordsValid, LifecycleValid, NoneRevived,
      KeepsUnborn, LT.KeepsDead, LT.KeepsBorn, E.Pair, E.Opened, NoNewAgent, LT.Swept, LT.DeadlinesSet,
      Usable, VerifiersOf, Disable, L.MatchingIds;
    var t := E.Pair(s, now, origin, principal, m).after;
    PairSchema(s, now, origin, principal, m);
    LT.PairKeeps(s, now, origin, principal, m);
    PairUnborn(s, now, origin, principal, m);
    KeptIsNotRevived(s, t, now);
    PairMints(s, now, origin, principal, m);
    PairGrants(s, now, origin, principal, m);
    NotRevivedNoNewAgent(s, t, now);
  }

  lemma PairGrants(s: Snapshot, now: real, origin: Id, principal: Option<Principal>, m: E.Move)
    ensures E.Pair(s, now, origin, principal, m).after.grants == s.grants
  {
    hide E.Pair, VerifiersOf, Disable, L.MatchingIds, E.Unexpired;
    LT.PairShape(s, now, origin, principal, m);
  }

  lemma SweepGrantsNoNewAgent(s: Snapshot, now: real, origin: Id)
    requires Schema(s)
    ensures NoNewAgent(s, I.SweepGrants(s, now, origin), now)
  {
    hide HasCapacity, EnrollmentValid, LifecycleValid, GrantsValid, RecordsValid, GrantsBound, NoneRevived,
      KeepsUnborn, LT.KeepsDead, LT.KeepsBorn, NoNewAgent, I.LapsedIds, I.SweepGrant, VerifiersOf, Usable;
    var t := I.SweepGrants(s, now, origin);
    SweepGrantsAdmissible(s, now, origin);
    LT.GrantSweepKeeps(s, now, origin);
    SweepGrantsUnborn(s, now, origin);
    KeptIsNotRevived(s, t, now);
    RetireShape(s, I.LapsedIds(s, now, origin));
    NotRevivedNoNewAgent(s, t, now);
  }

  /** Only a save acknowledgement makes an agent valid, and only the agent of its grant. */
  lemma ServeNewAgent(s: Snapshot, now: real, origin: Id, principal: Option<Principal>, c: I.Call, k: Id)
    requires Schema(s) && GrantsUnissued(s.grants)
    requires AgentValid(I.Serve(s, now, origin, principal, c).after, k, now) && !AgentValid(s, k, now)
    ensures c.Saving? && c.k == k && k in s.grants && I.Serve(s, now, origin, principal, c).after == I.Activated(s, k)
  {
    hide HasCapacity, EnrollmentValid, LifecycleValid, GrantsValid, RecordsValid, GrantsBound, NoneRevived,
      KeepsUnborn, LT.KeepsDead, LT.KeepsBorn, I.Serve, NoNewAgent, GrantsUnissued, Usable;
    var t := I.Serve(s, now, origin, principal, c).after;
    ServeSchema(s, now, origin, principal, c);
    LT.ServeKeeps(s, now, origin, principal, c);
    ServeUnborn(s, now, origin, principal, c);
    ServeMints(s, now, origin, principal, c);
    ServeCompletes(s, now, origin, principal, c);
    if c.Saving? && c.k in s.grants && t == I.Activated(s, c.k) {
      if c.k != k { ActivatedOther(s, now, c.k, k); }
    } else {
      KeptIsNotRevived(s, t, now);
      MintedDisabled(t, now);
      NotRevivedNoNewAgent(s, t, now);
      NoNewAgentMeans(s, t, now, k);
    }
  }

  lemma NoNewAgentMeans(s: Snapshot, t: Snapshot, now: real, k: Id)
    ensures NoNewAgent(s, t, now) && AgentValid(t, k, now) ==> AgentValid(s, k, now)
  {}

  lemma MintedDisabled(t: Snapshot, now: real)
    ensures forall r :: r in t.records && !r.enabled ==> !Usable(t, r, now)
  {}

  lemma ServeCompletes(s: Snapshot, now: real, origin: Id, principal: Option<Principal>, c: I.Call)
    ensures var t := I.Serve(s, now, origin, principal, c).after;
      (c.Saving? && c.k in s.grants && t == I.Activated(s, c.k)) ||
      forall k :: k in t.grants && t.grants[k].state.Completed? ==> k in s.grants && s.grants[k] == t.grants[k]
  {
    hide I.Serve, VerifiersOf, Disable, I.Presents, Admissible, I.Enable;
    LT.ServeShape(s, now, origin, principal, c);
  }

  lemma ActivatedOther(s: Snapshot, now: real, j: Id, k: Id)
    requires RecordsValid(s.records) && GrantsBound(s.grants, s.records) && j in s.grants && j != k
    ensures AgentValid(I.Activated(s, j), k, now) ==> AgentValid(s, k, now)
  {
    hide RecordsValid, GrantsBound, Usable;
    var t := I.Activated(s, j);
    if AgentValid(t, k, now) {
      var r :| r in t.records && L.Matches(r, IntegrationRole, Agent(k)) && Usable(t, r, now);
      var i :| 0 <= i < |t.records| && t.records[i] == r;
      ActivationConcernsOne(s, now, j, i);
      var q :| q in s.records && q.id == s.records[i].id && Usable(s, q, now);
      var l :| 0 <= l < |s.records| && s.records[l] == q;
      SameId(s, i, l);
    }
  }

  // ---- The two files, write by write ----

  predicate Acknowledges(tx: Tx) {
    tx.IntegrationTx? && tx.call.Saving?
  }

  /** A save acknowledgement registers the agent once everything about it was checked. */
  predicate Registers(s: Snapshot, tx: Tx)
    requires Acknowledges(tx)
  {
    var c := tx.call;
    && c.k in s.grants && c.secret == s.grants[c.k].secretHash && c.saved && I.Presents(s, s.grants[c.k], c.verifier)
    && (s.grants[c.k].state.Completed? || s.grants[c.k].state.Delivered?)
  }

  datatype FileWrite = CommitTo(cut: nat) | RegisterAgent(k: Id) | RetireAgents | Nothing

  /** The durable writes of a transaction, in order. Every commit of authz.json is followed by
      retiring agents; an acknowledgement registers its agent before it activates it. */
  function WriteAt(s: Snapshot, now: real, tx: Tx, n: nat): FileWrite {
    if Acknowledges(tx) then
      match n
      case 0 => CommitTo(1)
      case 1 => RetireAgents
      case 2 => if Registers(After(s, now, tx, 1), tx) then RegisterAgent(tx.call.k) else Nothing
      case 3 => CommitTo(3)
      case _ => RetireAgents
    else if n % 2 == 0 then CommitTo(n / 2 + 1)
    else RetireAgents
  }

  /** How many commits of authz.json the first `n` writes contain. */
  function CutAt(tx: Tx, n: nat): nat {
    if Acknowledges(tx) then if n == 0 then 0 else if n < 4 then 1 else 3
    else (n + 1) / 2
  }

  /** The files when a crash lets exactly `n` of the transaction's writes happen. */
  function FilesAfter(f: Files, now: real, tx: Tx, n: nat): Files {
    if n == 0 then f
    else
      var g := FilesAfter(f, now, tx, n - 1);
      match WriteAt(f.authz, now, tx, n - 1)
      case CommitTo(cut) => g.(authz := After(f.authz, now, tx, cut))
      case RegisterAgent(k) => g.(agents := Register(g.agents, k))
      case RetireAgents => g.(agents := RetireInvalid(g.agents, g.authz, now))
      case Nothing => g
  }

  /** Every agent with a usable credential and a completed grant has its routing row. */
  ghost predicate Covers(f: Files, now: real) {
    AgentsValid(f.agents) && forall k :: AgentValid(f.authz, k, now) ==> Listed(f.agents, Agent(k))
  }

  lemma RetireCovers(f: Files, now: real)
    requires Covers(f, now)
    ensures Covers(f.(agents := RetireInvalid(f.agents, f.authz, now)), now)
  {
    hide AgentValid, AgentsValid;
    RetiredValid(f.agents, f.authz, now);
    var g := f.(agents := RetireInvalid(f.agents, f.authz, now));
    forall k | AgentValid(g.authz, k, now) ensures Listed(g.agents, Agent(k)) {
      var e :| e in f.agents.rows && e.id == Agent(k);
      assert e in g.agents.rows;
    }
  }

  lemma CommitCovers(f: Files, t: Snapshot, now: real)
    requires Covers(f, now) && NoNewAgent(f.authz, t, now)
    ensures Covers(f.(authz := t), now)
  {
    hide AgentValid, Listed;
  }

  lemma InvParts(s: Snapshot)
    requires Inv(s)
    ensures Schema(s) && LT.DeadlinesSet(s.operations) && GrantsUnissued(s.grants)
  {}

  lemma SweepNoNewAgent(s: Snapshot, now: real, origin: Id)
    requires Schema(s) && LT.DeadlinesSet(s.operations)
    ensures NoNewAgent(s, L.Sweep(s, now, origin), now)
  {
    hide HasCapacity, EnrollmentValid, LifecycleValid, GrantsValid, GrantsBound, RecordsValid, NoneRevived,
      LT.DeadlinesSet, L.SweptIds, L.SweepOps, L.LivePointers, VerifiersOf, InvalidateApprovals, NoNewAgent;
    SweepNotRevives(s, now, origin);
    RetireShape(s, L.SweptIds(s, now, origin));
    SameGrantsNoNewAgent(s, L.Sweep(s, now, origin), now);
  }

  lemma MarkStaleNoNewAgent(s: Snapshot, now: real, origin: Id)
    ensures NoNewAgent(s, E.MarkStale(s, now, origin), now)
  {
    hide E.MarkIfStale;
  }

  /** No commit but an activating acknowledgement makes an agent valid. */
  lemma StageNoNewAgent(s: Snapshot, now: real, tx: Tx, cut: nat)
    requires Inv(s) && Faithful(s, now, tx) && 0.0 <= now && !Acknowledges(tx)
    ensures NoNewAgent(After(s, now, tx, cut), After(s, now, tx, cut + 1), now)
  {
    hide Inv, Schema, LT.DeadlinesSet, GrantsUnissued, L.Sweep, L.Act, E.Pair, I.SweepGrants, I.Serve,
      E.MarkStale, NoNewAgent, LT.Swept, Faithful;
    InvParts(s);
    NothingNoNewAgent(After(s, now, tx, cut), now);
    match tx
    case LifecycleTx(origin, principal, command) =>
      SweepNoNewAgent(s, now, origin);
      SweepAdmissible(s, now, origin);
      SweepLatched(s, now, origin);
      ActNoNewAgent(L.Sweep(s, now, origin), now, origin, principal, command);
    case EnrollmentTx(origin, principal, move) =>
      var swept := L.Sweep(s, now, origin);
      SweepNoNewAgent(s, now, origin);
      SweepAdmissible(s, now, origin);
      SweepLatched(s, now, origin);
      MarkStaleNoNewAgent(swept, now, origin);
      MarkStaleAdmissible(swept, now, origin);
      MarkStaleLatched(swept, now, origin);
      MarkStaleOperations(swept, now, origin);
      PairNoNewAgent(E.MarkStale(swept, now, origin), now, origin, principal, move);
    case IntegrationTx(origin, principal, call) =>
      var swept := I.SweepGrants(s, now, origin);
      SweepGrantsNoNewAgent(s, now, origin);
      MarkStaleNoNewAgent(swept, now, origin);
      IntegrationStages(s, now, origin, principal, call);
    case HousekeepingTx(origin) => MarkStaleNoNewAgent(s, now, origin);
    case OwnerTx(owner) => OwnerNoNewAgent(s, owner, now);
  }

  lemma NothingNoNewAgent(s: Snapshot, now: real)
    ensures NoNewAgent(s, s, now)
  {}

  lemma MarkStaleOperations(s: Snapshot, now: real, origin: Id)
    ensures E.MarkStale(s, now, origin).operations == s.operations
  {}

  lemma OwnerNoNewAgent(s: Snapshot, owner: Owner, now: real)
    ensures NoNewAgent(s, s.(owner := owner), now)
  {}

  lemma IntegrationStages(s: Snapshot, now: real, origin: Id, principal: Option<Principal>, call: I.Call)
    requires Inv(s) && 0.0 <= now && !call.Saving?
    ensures var swept := I.SweepGrants(s, now, origin);
      NoNewAgent(E.MarkStale(swept, now, origin), I.Serve(swept, now, origin, principal, call).after, now)
  {
    hide Inv, Schema, I.Serve, I.SweepGrants, E.MarkStale, AgentValid;
    var swept := I.SweepGrants(s, now, origin);
    SweptUnissued(s, now, origin);
    forall k | AgentValid(I.Serve(swept, now, origin, principal, call).after, k, now)
      ensures AgentValid(E.MarkStale(swept, now, origin), k, now)
    {
      if !AgentValid(swept, k, now) { ServeNewAgent(swept, now, origin, principal, call, k); }
      MarkedStillValid(swept, now, origin, k);
    }
  }

  lemma MarkedStillValid(s: Snapshot, now: real, origin: Id, k: Id)
    ensures AgentValid(s, k, now) ==> AgentValid(E.MarkStale(s, now, origin), k, now)
  {}

  lemma SweptUnissued(s: Snapshot, now: real, origin: Id)
    requires Inv(s)
    ensures Schema(I.SweepGrants(s, now, origin)) && GrantsUnissued(I.SweepGrants(s, now, origin).grants)
  {
    hide Inv, Schema, I.SweepGrant, I.LapsedIds, VerifiersOf, Disable;
    InvParts(s);
    SweepGrantsAdmissible(s, now, origin);
  }

  /** The acknowledgement activates an agent only after registering it. */
  lemma ActivationRegistered(s: Snapshot, now: real, tx: Tx, k: Id)
    requires Inv(s) && 0.0 <= now && Acknowledges(tx)
    requires AgentValid(After(s, now, tx, 3), k, now) && !AgentValid(After(s, now, tx, 1), k, now)
    ensures k == tx.call.k && Registers(After(s, now, tx, 1), tx)
  {
    hide Inv, Schema, I.SweepGrants, I.Serve, GrantsUnissued, AgentValid;
    var swept := I.SweepGrants(s, now, tx.origin);
    SweptUnissued(s, now, tx.origin);
    ServeNewAgent(swept, now, tx.origin, tx.principal, tx.call, k);
    ActivationChecked(swept, now, tx);
  }

  lemma ActivationChecked(s: Snapshot, now: real, tx: Tx)
    requires Acknowledges(tx) && tx.call.k in s.grants
    ensures Registers(s, tx) || I.Serve(s, now, tx.origin, tx.principal, tx.call).after == s
  {
    hide I.Presents;
  }

  lemma AcknowledgedCovers(f: Files, g: Files, now: real, tx: Tx, cut: nat)
    requires Inv(f.authz) && 0.0 <= now && Acknowledges(tx) && Covers(g, now) && (cut == 1 || cut == 3)
    requires g.authz == After(f.authz, now, tx, if cut == 1 then 0 else 1)
    requires cut == 3 && Registers(After(f.authz, now, tx, 1), tx) ==> Listed(g.agents, Agent(tx.call.k))
    ensures Covers(g.(authz := After(f.authz, now, tx, cut)), now)
  {
    hide Inv, Registers, Listed, AgentValid, AgentsValid, I.SweepGrants, I.Serve, Schema, LT.DeadlinesSet,
      GrantsUnissued;
    InvParts(f.authz);
    if cut == 1 {
      SweepGrantsNoNewAgent(f.authz, now, tx.origin);
      CommitCovers(g, After(f.authz, now, tx, 1), now);
    } else {
      forall k | AgentValid(After(f.authz, now, tx, 3), k, now) ensures Listed(g.agents, Agent(k)) {
        if !AgentValid(After(f.authz, now, tx, 1), k, now) { ActivationRegistered(f.authz, now, tx, k); }
      }
    }
  }

  /** A crash after any of a transaction's writes to the two files never leaves a usable
      integration credential without its routing row. */
  lemma {:induction false} FilesStayCovered(f: Files, now: real, tx: Tx, n: nat)
    requires Inv(f.authz) && Faithful(f.authz, now, tx) && 0.0 <= now && Covers(f, now)
    ensures Covers(FilesAfter(f, now, tx, n), now)
    ensures FilesAfter(f, now, tx, n).authz == After(f.authz, now, tx, CutAt(tx, n))
    ensures Acknowledges(tx) && n == 3 && Registers(After(f.authz, now, tx, 1), tx) ==>
        Listed(FilesAfter(f, now, tx, n).agents, Agent(tx.call.k))
  {
    hide Inv, Faithful, After, Covers, Registers, Listed, RetireInvalid, Register, AgentValid;
    if n == 0 {
      AfterNothing(f.authz, now, tx);
    } else {
      FilesStayCovered(f, now, tx, n - 1);
      var g := FilesAfter(f, now, tx, n - 1);
      match WriteAt(f.authz, now, tx, n - 1)
      case CommitTo(cut) =>
        if Acknowledges(tx) {
          AcknowledgedCovers(f, g, now, tx, cut);
        } else {
          StageNoNewAgent(f.authz, now, tx, cut - 1);
          CommitCovers(g, After(f.authz, now, tx, cut), now);
        }
      case RegisterAgent(k) => RegisterCovers(g, now, k);
      case RetireAgents => RetireCovers(g, now);
      case Nothing =>
    }
  }

  lemma AfterNothing(s: Snapshot, now: real, tx: Tx)
    ensures After(s, now, tx, 0) == s
  {}

  lemma RegisterCovers(f: Files, now: real, k: Id)
    requires Covers(f, now)
    ensures Covers(f.(agents := Register(f.agents, k)), now)
    ensures Listed(Register(f.agents, k), Agent(k))
  {
    hide AgentValid, AgentsValid;
    RegistryStaysValid(f.agents, k, f.authz, now);
    var g := f.(agents := Register(f.agents, k));
    forall j | Listed(f.agents, Agent(j)) ensures Listed(g.agents, Agent(j)) {
      var e :| e in f.agents.rows && e.id == Agent(j);
      assert e in g.agents.rows;
    }
  }

  /** Coverage lasts as time passes, since authority is only ever lost by waiting. */
  lemma CoversLater(f: Files, now: real, later: real)
    requires Covers(f, now) && now <= later
    ensures Covers(f, later)
  {
    hide Usable, Listed, AgentsValid;
    forall k | AgentValid(f.authz, k, later) ensures AgentValid(f.authz, k, now) {
      var r :| r in f.authz.records && L.Matches(r, IntegrationRole, Agent(k)) && Usable(f.authz, r, later);
      Expiry.UsableEarlier(f.authz, r, now, later);
    }
  }

  /** What a failed write of authz.json leaves: the store reloads the file and has the agents
      without authority retired, with no commit before it. */
  function AfterFailure(f: Files, now: real): Files {
    f.(agents := RetireInvalid(f.agents, f.authz, now))
  }

  /** One transaction, stopped after any number of its writes; `failed` says whether it was
      stopped by a failed write of authz.json, or by a crash. */
  datatype Attempt = Attempt(now: real, tx: Tx, writes: nat, failed: bool)

  function Tried(f: Files, a: Attempt): Files {
    var g := FilesAfter(f, a.now, a.tx, a.writes);
    if a.failed then AfterFailure(g, a.now) else g
  }

  function Play(f: Files, attempts: seq<Attempt>): Files
    decreases |attempts|
  {
    if attempts == [] then f else Play(Tried(f, attempts[0]), attempts[1..])
  }

  ghost predicate Playable(f: Files, clock: real, attempts: seq<Attempt>)
    decreases |attempts|
  {
    attempts == [] ||
    (clock <= attempts[0].now && Faithful(f.authz, attempts[0].now, attempts[0].tx)
     && Playable(Tried(f, attempts[0]), attempts[0].now, attempts[1..]))
  }

  function LastTime(clock: real, attempts: seq<Attempt>): real {
    if attempts == [] then clock else attempts[|attempts| - 1].now
  }

  lemma TriedCovers(f: Files, a: Attempt)
    requires Inv(f.authz) && Faithful(f.authz, a.now, a.tx) && 0.0 <= a.now && Covers(f, a.now)
    ensures Covers(Tried(f, a), a.now)
    ensures Tried(f, a).authz == After(f.authz, a.now, a.tx, CutAt(a.tx, a.writes))
  {
    hide Inv, Faithful, After, Covers, RetireInvalid, FilesAfter;
    FilesStayCovered(f, a.now, a.tx, a.writes);
    RetireCovers(FilesAfter(f, a.now, a.tx, a.writes), a.now);
  }

  lemma {:induction false} FilesStayGenuine(f: Files, now: real, tx: Tx, n: nat)
    requires Genuine(f.agents) && AgentsValid(f.agents)
    ensures Genuine(FilesAfter(f, now, tx, n).agents) && AgentsValid(FilesAfter(f, now, tx, n).agents)
  {
    hide Genuine, AgentsValid, After, RetireInvalid, Register, Registers;
    if n > 0 {
      FilesStayGenuine(f, now, tx, n - 1);
      var g := FilesAfter(f, now, tx, n - 1);
      RegistryStaysValid(g.agents, if tx.IntegrationTx? && tx.call.Saving? then tx.call.k else NONE, g.authz, now);
    }
  }

  /** Over any number of transactions, crashes and failed writes, from files that agree at first:
      whoever holds a usable integration credential is listed, so routing metadata never has to
      be rebuilt from enrollment proofs; and the row is an integration row if no other row had
      the agent's id to begin with. */
  lemma {:induction false} AuthorityIsAlwaysListed(f: Files, clock: real, attempts: seq<Attempt>)
    requires Inv(f.authz) && Covers(f, clock) && 0.0 <= clock && Playable(f, clock, attempts)
    ensures Covers(Play(f, attempts), LastTime(clock, attempts)) && Inv(Play(f, attempts).authz)
    ensures Genuine(f.agents) ==> Genuine(Play(f, attempts).agents)
    decreases |attempts|
  {
    hide Inv, Covers, Faithful, After, Tried, Genuine;
    if attempts != [] {
      var a := attempts[0];
      CoversLater(f, clock, a.now);
      TriedCovers(f, a);
      StepInv(f.authz, a.now, a.tx, CutAt(a.tx, a.writes));
      if Genuine(f.agents) { TriedGenuine(f, clock, a); }
      AuthorityIsAlwaysListed(Tried(f, a), a.now, attempts[1..]);
    }
  }

  lemma TriedGenuine(f: Files, clock: real, a: Attempt)
    requires Genuine(f.agents) && Covers(f, clock)
    ensures Genuine(Tried(f, a).agents)
  {
    hide Genuine, AgentsValid, FilesAfter, RetireInvalid, AgentValid;
    FilesStayGenuine(f, a.now, a.tx, a.writes);
    var g := FilesAfter(f, a.now, a.tx, a.writes);
    RegistryStaysValid(g.agents, NONE, g.authz, a.now);
  }

  // ---- What is listed ----

  /** Retiring drops exactly the integration rows whose agent has no usable credential or no
      completed enrollment, keeps every other row, and clears the selection only with its row. */
  lemma RetiresExactly(agents: Agents, s: Snapshot, now: real, e: Entry)
    requires AgentsValid(agents)
    ensures var out := RetireInvalid(agents, s, now);
      && (e in out.rows <==>
            e in agents.rows
            && (e.integration ==>
                  && e.id.Agent? && e.id.request in s.grants && s.grants[e.id.request].state.Completed?
                  && s.grants[e.id.request].credentialId != NONE
                  && exists r :: r in s.records && r.role == IntegrationRole && r.subject == e.id && Usable(s, r, now)))
      && out.active == (if agents.active.Some? && Listed(out, agents.active.value) then agents.active else None)
  {
    hide Usable;
  }

  /** Registering adds the agent's row at most, and never selects it. */
  lemma RegistersOne(agents: Agents, k: Id, e: Entry)
    ensures var out := Register(agents, k);
      && out.active == agents.active
      && (e in out.rows <==>
            e in agents.rows || (e == Entry(Agent(k), true) && forall d :: d in agents.rows ==> d.id != Agent(k)))
  {
    assert Register(agents, k).rows == agents.rows || Register(agents, k).rows == agents.rows + [Entry(Agent(k), true)];
  }

  /** Right after agents were retired, and no transaction ends without that, exactly the agents
      with a completed enrollment and a usable credential are listed. */
  lemma ListedExactlyWhenAuthorized(f: Files, now: real, tx: Tx, n: nat, k: Id)
    requires Inv(f.authz) && Faithful(f.authz, now, tx) && 0.0 <= now && Covers(f, now) && Genuine(f.agents)
    requires 0 < n && WriteAt(f.authz, now, tx, n - 1).RetireAgents?
    ensures var g := FilesAfter(f, now, tx, n); var s := g.authz;
      Listed(g.agents, Agent(k)) <==>
        && k in s.grants && s.grants[k].state.Completed? && s.grants[k].credentialId != NONE
        && exists r :: r in s.records && r.role == IntegrationRole && r.subject == Agent(k) && Usable(s, r, now)
  {
    hide Inv, Faithful, After, WriteAt, RetireInvalid, Usable, AgentsValid;
    FilesStayCovered(f, now, tx, n);
    CoveredValid(f, now);
    FilesStayGenuine(f, now, tx, n);
    FilesStayGenuine(f, now, tx, n - 1);
    var before, g := FilesAfter(f, now, tx, n - 1), FilesAfter(f, now, tx, n);
    RetiresExactly(before.agents, before.authz, now, Entry(Agent(k), true));
    if Listed(g.agents, Agent(k)) {
      var e :| e in g.agents.rows && e.id == Agent(k);
      assert e == Entry(Agent(k), true);
    }
  }

  lemma CoveredValid(f: Files, now: real)
    requires Covers(f, now)
    ensures AgentsValid(f.agents)
  {}

  /** Rows that are not an integration's are never touched, and the selection is only ever lost,
      with its row. */
  lemma {:induction false} OrdinaryRowsStay(f: Files, now: real, tx: Tx, n: nat, e: Entry)
    requires AgentsValid(f.agents) && Genuine(f.agents) && !e.integration
    ensures var g := FilesAfter(f, now, tx, n);
      && (e in g.agents.rows <==> e in f.agents.rows)
      && (g.agents.active == f.agents.active || g.agents.active == None)
      && (f.agents.active == Some(e.id) && e in f.agents.rows ==> g.agents.active == f.agents.active)
  {
    hide Genuine, AgentsValid, After, RetireInvalid, Register, Registers;
    if n > 0 {
      OrdinaryRowsStay(f, now, tx, n - 1, e);
      FilesStayGenuine(f, now, tx, n - 1);
      var g := FilesAfter(f, now, tx, n - 1);
      RetiresExactly(g.agents, g.authz, now, e);
      if Acknowledges(tx) { RegistersOne(g.agents, tx.call.k, e); }
    }
  }
}
