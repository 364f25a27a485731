/** How the list of credentials, the tombstones and the counts move together. */
module Records {
  import opened Authority
  import opened Lifecycle
  import opened Integration

  ghost predicate SameIdentity(r: Credential, q: Credential) {
    r.id == q.id && r.role == q.role && r.subject == q.subject && r.verifier == q.verifier
  }

  /** Credentials are never removed, reordered or renamed. */
  ghost predicate Extends(before: seq<Credential>, after: seq<Credential>) {
    |before| <= |after| && forall i :: 0 <= i < |before| ==> SameIdentity(before[i], after[i])
  }

  lemma ExtendsOn(a: seq<Credential>, b: seq<Credential>, c: seq<Credential>)
    requires Extends(a, b) && Extends(b, c)
    ensures Extends(a, c)
  {}

  ghost predicate HasRecord(records: seq<Credential>, id: Id, role: Role, subject: Subject) {
    exists i :: 0 <= i < |records| && records[i].id == id && Matches(records[i], role, subject)
  }

  lemma SameIdentitiesValid(before: seq<Credential>, after: seq<Credential>)
    requires Extends(before, after) && |before| == |after| && RecordsValid(before)
    ensures RecordsValid(after) && IdsImmutable(before, after)
  {}

  lemma GrantsBoundExtends(grants: map<Id, Grant>, before: seq<Credential>, after: seq<Credential>)
    requires Extends(before, after) && GrantsBound(grants, before)
    ensures GrantsBound(grants, after)
  {}

  /** Retirement keeps identities, only adds tombstones of admitted verifiers, and so never
      needs room that was not reserved. */
  lemma RetireShape(s: Snapshot, ids: set<Id>)
    ensures Extends(s.records, Retire(s, ids).records)
    ensures |Retire(s, ids).records| == |s.records|
    ensures Digests(Retire(s, ids).records) == Digests(s.records)
    ensures s.blocked <= Retire(s, ids).blocked <= s.blocked + Digests(s.records)
  {}

  lemma SubsetSize<T>(a: set<T>, b: set<T>)
    requires a <= b
    ensures |a| <= |b|
  {
    if a != b {
      var rest := b - a;
      assert b == a + rest;
    }
  }

  /** If no operation or credential is added, tombstones come from admitted verifiers and no
      operation is reopened, the reserved totals do not grow. */
  lemma CapacityKept(s: Snapshot, t: Snapshot)
    requires HasCapacity(s)
    requires |t.records| == |s.records| && Digests(t.records) == Digests(s.records)
    requires s.blocked <= t.blocked <= s.blocked + Digests(s.records)
    requires |t.operations| == |s.operations| && Unfinished(t.operations) <= Unfinished(s.operations)
    ensures HasCapacity(t)
    ensures |t.blocked| <= TOMBSTONE_LIMIT
  {
    assert t.blocked + Digests(t.records) == s.blocked + Digests(s.records);
    SubsetSize(Digests(t.records) - t.blocked, Digests(s.records) - s.blocked);
    SubsetSize(Unfinished(t.operations), Unfinished(s.operations));
    SubsetSize(t.blocked, s.blocked + Digests(s.records));
  }
}
