/** The license table with its machines: the persistent state every request
    reads and writes. */
module Store {
  import opened Records

  /** The store's invariant: the key and the id of a license are unique (the
      database's own constraints), ids already issued are below `nextId`, and
      no fingerprint is bound twice to one license. The last one is not a
      database constraint; activation keeps it by looking the fingerprint up
      before it inserts, and every request is proved to preserve it. */
  ghost predicate Consistent(licenses: map<string, License>, nextId: nat)
  {
    (forall k :: k in licenses ==>
      licenses[k].key == k && licenses[k].id < nextId && UniqueFingerprints(licenses[k].machines))
    && (forall k, k' :: k in licenses && k' in licenses && licenses[k].id == licenses[k'].id ==> k == k')
  }

  /** Rewriting one row, keeping its key and id, keeps the constraints as long as
      its machines keep distinct fingerprints. */
  lemma ReplaceKeepsConsistent(licenses: map<string, License>, nextId: nat, nextId': nat, key: string, lic: License)
    requires Consistent(licenses, nextId) && key in licenses && nextId <= nextId'
    requires lic.key == key && lic.id == licenses[key].id && UniqueFingerprints(lic.machines)
    ensures Consistent(licenses[key := lic], nextId')
  {
  }

  class LicenseStore {
    /** Licenses by key; each license carries the machines bound to it. */
    var licenses: map<string, License>
    /** Source of fresh row ids (the database assigns ids on insert). */
    var nextId: nat

    ghost predicate Valid()
      reads this
    {
      Consistent(licenses, nextId)
    }

    constructor ()
      ensures Valid()
      ensures licenses == map[] && nextId == 0
    {
      licenses := map[];
      nextId := 0;
    }
  }
}
