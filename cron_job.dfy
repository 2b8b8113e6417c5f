/** The hourly expiry sweep (src/jobs/CronJob.ts): one bulk update that marks
    every ACTIVE license whose expiry has passed as EXPIRED. */
module CronJob {
  import opened Enums
  import opened Records
  import opened Store
  import opened LicenseService

  /** The filter of the bulk update: status ACTIVE and an expiry strictly
      before `now` (a license without expiry never matches). */
  predicate SweepMatches(lic: License, now: Time)
  {
    lic.status == ACTIVE && lic.expiresAt.Some? && lic.expiresAt.value < now
  }

  /** One row after the sweep. */
  function Swept(lic: License, now: Time): (r: License)
    ensures r == lic.(status := r.status)
    ensures SweepMatches(lic, now) ==> r.status == EXPIRED
    ensures !SweepMatches(lic, now) ==> r == lic
    ensures !SweepMatches(r, now)
  {
    if SweepMatches(lic, now) then lic.(status := EXPIRED) else lic
  }

  /** The whole table after the sweep. */
  function Sweep(licenses: map<string, License>, now: Time): (r: map<string, License>)
    ensures r.Keys == licenses.Keys
    // afterwards no ACTIVE license is past its expiry
    ensures forall k :: k in r ==> !(r[k].status == ACTIVE && IsExpired(r[k], now))
    // only statuses change, and only ACTIVE ones, to EXPIRED
    ensures forall k :: k in r ==> r[k] == licenses[k].(status := r[k].status)
    ensures forall k :: k in r && r[k].status != licenses[k].status ==>
      licenses[k].status == ACTIVE && r[k].status == EXPIRED
    // exactly the ACTIVE rows with a past expiry change; perpetual rows and
    // rows whose expiry is still ahead keep their status
    ensures forall k :: k in r ==> (r[k].status != licenses[k].status <==> SweepMatches(licenses[k], now))
  {
    map k | k in licenses :: Swept(licenses[k], now)
  }

  /** The job body: a failure of the update is caught and logged, so it never
      reaches the scheduler and the table stays as it was. */
  method ExpirySweep(store: LicenseStore, now: Time, updateFails: bool)
    requires store.Valid()
    modifies store
    ensures store.Valid() && store.nextId == old(store.nextId)
    ensures updateFails ==> store.licenses == old(store.licenses)
    ensures !updateFails ==> store.licenses == Sweep(old(store.licenses), now)
  {
    if !updateFails {
      var rows := store.licenses;
      store.licenses := map k | k in rows ::
        if rows[k].status == ACTIVE && rows[k].expiresAt.Some? && rows[k].expiresAt.value < now
        then rows[k].(status := EXPIRED)
        else rows[k];
      assert store.licenses == Sweep(rows, now);
      SweepKeepsConsistent(rows, store.nextId, now);
    }
  }

  lemma SweepKeepsConsistent(licenses: map<string, License>, nextId: nat, now: Time)
    requires Consistent(licenses, nextId)
    ensures Consistent(Sweep(licenses, now), nextId)
  {
    var r := Sweep(licenses, now);
    forall k, k' | k in r && k' in r && r[k].id == r[k'].id ensures k == k' {
      assert licenses[k].id == r[k].id && licenses[k'].id == r[k'].id;
    }
  }

  /** The sweep's filter and checkExpiry's test are the same expiry test,
      restricted to ACTIVE licenses. */
  lemma SweepAgreesWithCheckExpiry(lic: License, now: Time)
    ensures SweepMatches(lic, now) <==> lic.status == ACTIVE && IsExpired(lic, now)
  {
  }

  /** Running the sweep twice at one instant is the same as running it once. */
  lemma SweepIdempotent(licenses: map<string, License>, now: Time)
    ensures Sweep(Sweep(licenses, now), now) == Sweep(licenses, now)
  {
    var once := Sweep(licenses, now);
    var twice := Sweep(once, now);
    assert twice.Keys == once.Keys;
    forall k | k in once ensures twice[k] == once[k] {
      assert !SweepMatches(once[k], now);
    }
  }

  /** The sweep is an optimisation only: every request answers the same and
      leaves the same row whether or not the sweep ran first. */
  lemma SweepInvisibleToRequests(lic: License, fp: string, meta: Meta, now: Time, newId: Id, victim: nat)
    requires lic.machines != [] ==> IsOldest(lic.machines, victim)
    ensures Activation(Swept(lic, now), fp, meta, now, newId, victim) == Activation(lic, fp, meta, now, newId, victim)
    ensures Heartbeat(Swept(lic, now), fp, now) == Heartbeat(lic, fp, now)
    ensures Inspection(Swept(lic, now), now) == Inspection(lic, now)
  {
  }
}
