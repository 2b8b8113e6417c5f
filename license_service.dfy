/** The binding engine (src/services/LicenseService.ts): activation, heartbeat
    and inspection of a license by key, each of which first applies the lazy
    expiry correction.

    Each request is given twice: as a pure function of the license row it read
    (what the request answers and what the row looks like afterwards), and as a
    method that performs the source's writes on the store one by one and is
    proved to leave the store exactly as that function says. */
module LicenseService {
  import opened Enums
  import opened Records
  import opened Store

  /** A request's answer together with the license row as it stands afterwards. */
  datatype Outcome<T> = Outcome(result: Result<T>, license: License)

  /** The two success messages of activation. */
  datatype Greeting =
    | WelcomeBack  // '欢迎回来': the fingerprint was already bound
    | Activated    // '激活成功': a machine was bound

  /** What a client may see of its license. */
  datatype Info = Info(
    status: Status,
    maxMachines: int,
    usedMachines: nat,
    expiresAt: Option<Time>,
    remainingDays: int,
    strategy: Strategy)

  // ---------------------------------------------------------------------------
  // Expiry

  /** The expiry test of checkExpiry: an expiry is set and `now` is strictly
      after it. */
  predicate IsExpired(lic: License, now: Time)
  {
    lic.expiresAt.Some? && now > lic.expiresAt.value
  }

  /** The row as checkExpiry leaves an expired license: status EXPIRED whatever it
      was before (SUSPENDED included); no write at all when it already was. */
  function ExpiryCorrected(lic: License): (r: License)
    ensures r.status == EXPIRED
    ensures r == lic.(status := EXPIRED)
    ensures lic.status == EXPIRED ==> r == lic
  {
    if lic.status != EXPIRED then lic.(status := EXPIRED) else lic
  }

  // ---------------------------------------------------------------------------
  // Machines

  /** `machines.find(m => m.fingerprint === fp)`, as a position. */
  function FindMachine(ms: seq<Machine>, fp: string): (r: Option<nat>)
    ensures r.None? <==> !Bound(ms, fp)
    ensures r.Some? ==> r.value < |ms| && ms[r.value].fingerprint == fp
    ensures r.Some? ==> forall j :: 0 <= j < r.value ==> ms[j].fingerprint != fp
  {
    if ms == [] then None
    else if ms[0].fingerprint == fp then Some(0)
    else match FindMachine(ms[1..], fp)
      case None =>
        assert forall j :: 1 <= j < |ms| ==> ms[j] == ms[1..][j - 1];
        None
      case Some(i) => Some(i + 1)
  }

  /** Position `v` holds a machine seen no later than any other: a machine the
      query ordered by ascending lastSeen may put first. Ties are left open, as
      the query leaves them to the database. */
  predicate IsOldest(ms: seq<Machine>, v: nat)
  {
    v < |ms| && forall j :: 0 <= j < |ms| ==> ms[v].lastSeen <= ms[j].lastSeen
  }

  lemma {:induction false} OldestExists(ms: seq<Machine>)
    requires ms != []
    ensures exists v :: IsOldest(ms, v)
  {
    if |ms| == 1 {
      assert IsOldest(ms, 0);
    } else {
      var tail := ms[1..];
      OldestExists(tail);
      var v: nat :| IsOldest(tail, v);
      assert forall j :: 1 <= j < |ms| ==> ms[j] == tail[j - 1];
      if ms[0].lastSeen <= tail[v].lastSeen {
        assert IsOldest(ms, 0);
      } else {
        assert IsOldest(ms, v + 1);
      }
    }
  }

  /** The row machine.create inserts; lastSeen takes the schema default, the
      time of the insert. */
  function NewMachine(id: Id, fp: string, meta: Meta, now: Time): (m: Machine)
    ensures m.fingerprint == fp && m.lastSeen == now && m.ip == meta.ip
    ensures m.platform == meta.platform && m.name == meta.hostname && m.id == id
  {
    Machine(id, fp, now, meta.ip, meta.platform, meta.hostname)
  }

  lemma TouchKeepsUnique(ms: seq<Machine>, i: nat, m: Machine)
    requires i < |ms| && UniqueFingerprints(ms) && m.fingerprint == ms[i].fingerprint
    ensures UniqueFingerprints(ms[i := m])
  {
    var ms' := ms[i := m];
    forall a, b | 0 <= a < |ms'| && 0 <= b < |ms'| && ms'[a].fingerprint == ms'[b].fingerprint
      ensures a == b
    {
      assert ms[a].fingerprint == ms'[a].fingerprint;
    }
  }

  lemma AppendKeepsUnique(ms: seq<Machine>, m: Machine)
    requires UniqueFingerprints(ms) && !Bound(ms, m.fingerprint)
    ensures UniqueFingerprints(ms + [m])
  {
  }

  lemma RemoveKeepsUnique(ms: seq<Machine>, v: nat)
    requires v < |ms| && UniqueFingerprints(ms)
    ensures UniqueFingerprints(RemoveAt(ms, v))
    ensures forall fp :: Bound(RemoveAt(ms, v), fp) ==> Bound(ms, fp)
  {
    var r := RemoveAt(ms, v);
    forall a, b | 0 <= a < |r| && 0 <= b < |r| && r[a].fingerprint == r[b].fingerprint
      ensures a == b
    {
      var a' := if a < v then a else a + 1;
      var b' := if b < v then b else b + 1;
      assert r[a] == ms[a'] && r[b] == ms[b'];
    }
    forall fp | Bound(r, fp) ensures Bound(ms, fp) {
      var a :| 0 <= a < |r| && r[a].fingerprint == fp;
      assert r[a] == ms[if a < v then a else a + 1];
    }
  }

  // ---------------------------------------------------------------------------
  // Activation

  /** activate(key, fingerprint, meta) on the row found for the key. `newId` is
      the id the store gives an inserted machine; `victim` is the machine the
      lastSeen ordering puts first, consulted only when a FLOATING license is
      full. */
  function Activation(lic: License, fp: string, meta: Meta, now: Time, newId: Id, victim: nat): (o: Outcome<Greeting>)
    requires lic.machines != [] ==> IsOldest(lic.machines, victim)
    // nothing but the status and the machines is ever written
    ensures o.license == lic.(status := o.license.status, machines := o.license.machines)
    ensures o.license.status == (if IsExpired(lic, now) then EXPIRED else lic.status)
    // the order of the checks decides which error is reported
    ensures IsExpired(lic, now) <==> o.result == Err(LicenseExpired)
    ensures !IsExpired(lic, now) && lic.status != ACTIVE <==> o.result == Err(Unavailable(lic.status))
    ensures o.result.Ok? <==>
      !IsExpired(lic, now) && lic.status == ACTIVE &&
      (Bound(lic.machines, fp) || |lic.machines| < lic.maxMachines ||
       (lic.strategy == FLOATING && lic.machines != []))
    ensures o.result.Err? ==> o.license.machines == lic.machines
    // on success the fingerprint is bound, and the capacity is kept
    ensures o.result.Ok? ==> Bound(o.license.machines, fp)
    ensures o.result.Ok? && |lic.machines| <= lic.maxMachines ==>
      |o.license.machines| <= o.license.maxMachines
  {
    var ms := lic.machines;
    if IsExpired(lic, now) then Outcome(Err(LicenseExpired), ExpiryCorrected(lic))
    else if lic.status != ACTIVE then Outcome(Err(Unavailable(lic.status)), lic)
    else match FindMachine(ms, fp)
      case Some(i) =>
        var touched := ms[i].(lastSeen := now, ip := meta.ip);
        assert ms[i := touched][i] == touched;
        Outcome(Ok(WelcomeBack), lic.(machines := ms[i := touched]))
      case None =>
        var added := NewMachine(newId, fp, meta, now);
        assert (ms + [added])[|ms|] == added;
        if |ms| < lic.maxMachines then
          Outcome(Ok(Activated), lic.(machines := ms + [added]))
        else if lic.strategy != FLOATING then Outcome(Err(CapacityReached), lic)
        else if ms == [] then Outcome(Err(NoMachineToEvict), lic)
        else
          assert (RemoveAt(ms, victim) + [added])[|ms| - 1] == added;
          Outcome(Ok(Activated), lic.(machines := RemoveAt(ms, victim) + [added]))
  }

  /** Re-activating a bound fingerprint is a success that evicts nobody: only
      that machine's lastSeen and ip change. */
  lemma ReactivationEvictsNobody(lic: License, fp: string, meta: Meta, now: Time, newId: Id, victim: nat, i: nat)
    requires lic.machines != [] ==> IsOldest(lic.machines, victim)
    requires UniqueFingerprints(lic.machines)
    requires !IsExpired(lic, now) && lic.status == ACTIVE
    requires i < |lic.machines| && lic.machines[i].fingerprint == fp
    ensures var o := Activation(lic, fp, meta, now, newId, victim);
      o.result == Ok(WelcomeBack) &&
      |o.license.machines| == |lic.machines| &&
      o.license.machines[i] == lic.machines[i].(lastSeen := now, ip := meta.ip) &&
      (forall j :: 0 <= j < |lic.machines| && j != i ==> o.license.machines[j] == lic.machines[j])
  {
    var found := FindMachine(lic.machines, fp);
    assert found == Some(i);
  }

  /** A new fingerprint below capacity is appended, the other machines untouched. */
  lemma NewMachineTakesFreeSlot(lic: License, fp: string, meta: Meta, now: Time, newId: Id, victim: nat)
    requires lic.machines != [] ==> IsOldest(lic.machines, victim)
    requires !IsExpired(lic, now) && lic.status == ACTIVE
    requires !Bound(lic.machines, fp) && |lic.machines| < lic.maxMachines
    ensures var o := Activation(lic, fp, meta, now, newId, victim);
      o.result == Ok(Activated) &&
      o.license.machines == lic.machines + [NewMachine(newId, fp, meta, now)]
  {
  }

  /** A FLOATING license at capacity drops exactly one machine with the oldest
      lastSeen and binds the new one: the count does not change. */
  lemma FloatingEvictsOldest(lic: License, fp: string, meta: Meta, now: Time, newId: Id, victim: nat)
    requires lic.machines != [] ==> IsOldest(lic.machines, victim)
    requires !IsExpired(lic, now) && lic.status == ACTIVE && lic.strategy == FLOATING
    requires !Bound(lic.machines, fp) && lic.machines != [] && |lic.machines| >= lic.maxMachines
    ensures var o := Activation(lic, fp, meta, now, newId, victim);
      o.result == Ok(Activated) &&
      |o.license.machines| == |lic.machines| &&
      o.license.machines == RemoveAt(lic.machines, victim) + [NewMachine(newId, fp, meta, now)] &&
      multiset(o.license.machines) + multiset{lic.machines[victim]} ==
        multiset(lic.machines) + multiset{NewMachine(newId, fp, meta, now)} &&
      (forall j :: 0 <= j < |lic.machines| ==> lic.machines[victim].lastSeen <= lic.machines[j].lastSeen)
  {
  }

  /** A STRICT license at capacity refuses a new fingerprint and changes nothing. */
  lemma StrictRejectsWhenFull(lic: License, fp: string, meta: Meta, now: Time, newId: Id, victim: nat)
    requires lic.machines != [] ==> IsOldest(lic.machines, victim)
    requires !IsExpired(lic, now) && lic.status == ACTIVE && lic.strategy == STRICT
    requires !Bound(lic.machines, fp) && |lic.machines| >= lic.maxMachines
    ensures Activation(lic, fp, meta, now, newId, victim) == Outcome(Err(CapacityReached), lic)
  {
  }

  /** A FLOATING license whose capacity is negative is full with no machine to
      evict: the source's read of the first machine throws, and nothing is
      written. */
  lemma FloatingWithoutMachinesFails(lic: License, fp: string, meta: Meta, now: Time, newId: Id, victim: nat)
    requires !IsExpired(lic, now) && lic.status == ACTIVE && lic.strategy == FLOATING
    requires lic.machines == [] && lic.maxMachines <= 0
    ensures Activation(lic, fp, meta, now, newId, victim) == Outcome(Err(NoMachineToEvict), lic)
  {
  }

  /** A license already above its capacity (an admin lowered maxMachines) stays
      above it: activation evicts at most one machine. */
  lemma OverCapacityStaysOver(lic: License, fp: string, meta: Meta, now: Time, newId: Id, victim: nat)
    requires lic.machines != [] ==> IsOldest(lic.machines, victim)
    requires |lic.machines| > lic.maxMachines
    ensures var o := Activation(lic, fp, meta, now, newId, victim);
      |o.license.machines| == |lic.machines| > o.license.maxMachines
  {
  }

  /** No activation ever binds a fingerprint twice. */
  lemma ActivationKeepsFingerprintsUnique(lic: License, fp: string, meta: Meta, now: Time, newId: Id, victim: nat)
    requires lic.machines != [] ==> IsOldest(lic.machines, victim)
    requires UniqueFingerprints(lic.machines)
    ensures UniqueFingerprints(Activation(lic, fp, meta, now, newId, victim).license.machines)
  {
    var ms := lic.machines;
    if IsExpired(lic, now) || lic.status != ACTIVE {
    } else if Bound(ms, fp) {
      var i := FindMachine(ms, fp).value;
      TouchKeepsUnique(ms, i, ms[i].(lastSeen := now, ip := meta.ip));
    } else if |ms| < lic.maxMachines {
      AppendKeepsUnique(ms, NewMachine(newId, fp, meta, now));
    } else if lic.strategy == FLOATING && ms != [] {
      RemoveKeepsUnique(ms, victim);
      AppendKeepsUnique(RemoveAt(ms, victim), NewMachine(newId, fp, meta, now));
    }
  }

  // ---------------------------------------------------------------------------
  // Heartbeat

  /** heartbeat(key, fingerprint) on the row found for the key. There is no
      status test: a SUSPENDED license keeps its heartbeat. */
  function Heartbeat(lic: License, fp: string, now: Time): (o: Outcome<()>)
    ensures o.license == lic.(status := o.license.status, machines := o.license.machines)
    ensures o.license.status == (if IsExpired(lic, now) then EXPIRED else lic.status)
    ensures IsExpired(lic, now) <==> o.result == Err(LicenseExpired)
    ensures !IsExpired(lic, now) && !Bound(lic.machines, fp) <==> o.result == Err(SessionKicked)
    ensures o.result.Ok? <==> !IsExpired(lic, now) && Bound(lic.machines, fp)
    // no machine is added or removed; only the caller's lastSeen moves
    ensures |o.license.machines| == |lic.machines|
    ensures forall j :: 0 <= j < |lic.machines| ==>
      o.license.machines[j] == lic.machines[j].(lastSeen := o.license.machines[j].lastSeen)
    ensures forall j :: 0 <= j < |lic.machines| && lic.machines[j].fingerprint != fp ==>
      o.license.machines[j] == lic.machines[j]
    ensures o.result.Ok? ==> exists j :: (0 <= j < |lic.machines| && lic.machines[j].fingerprint == fp &&
      o.license.machines[j].lastSeen == now)
  {
    var ms := lic.machines;
    if IsExpired(lic, now) then Outcome(Err(LicenseExpired), ExpiryCorrected(lic))
    else match FindMachine(ms, fp)
      case None => Outcome(Err(SessionKicked), lic)
      case Some(i) => Outcome(Ok(()), lic.(machines := ms[i := ms[i].(lastSeen := now)]))
  }

  /** FLOATING with one slot: B's activation evicts A, after which A's heartbeat
      is kicked and B's succeeds. */
  lemma FloatingHandover(lic: License, a: string, b: string, ma: Meta, mb: Meta,
                         t1: Time, t2: Time, t3: Time, id1: Id, id2: Id)
    requires lic.status == ACTIVE && lic.strategy == FLOATING
    requires lic.maxMachines == 1 && lic.machines == [] && a != b
    requires !IsExpired(lic, t1) && !IsExpired(lic, t2) && !IsExpired(lic, t3)
    ensures var first := Activation(lic, a, ma, t1, id1, 0);
      first.result == Ok(Activated) &&
      first.license.machines == [NewMachine(id1, a, ma, t1)] &&
      var second := Activation(first.license, b, mb, t2, id2, 0);
      second.result == Ok(Activated) &&
      second.license.machines == [NewMachine(id2, b, mb, t2)] &&
      Heartbeat(second.license, a, t3).result == Err(SessionKicked) &&
      Heartbeat(second.license, b, t3).result == Ok(())
  {
    var first := Activation(lic, a, ma, t1, id1, 0);
    assert first.license.machines == [] + [NewMachine(id1, a, ma, t1)];
    var second := Activation(first.license, b, mb, t2, id2, 0);
    assert !Bound(first.license.machines, b);
    assert second.license.machines == RemoveAt(first.license.machines, 0) + [NewMachine(id2, b, mb, t2)];
    assert !Bound(second.license.machines, a);
  }

  /** STRICT with one slot: B is refused, A stays bound and keeps its heartbeat. */
  lemma StrictKeepsFirst(lic: License, a: string, b: string, ma: Meta, mb: Meta,
                         t1: Time, t2: Time, t3: Time, id1: Id, id2: Id)
    requires lic.status == ACTIVE && lic.strategy == STRICT
    requires lic.maxMachines == 1 && lic.machines == [] && a != b
    requires !IsExpired(lic, t1) && !IsExpired(lic, t2) && !IsExpired(lic, t3)
    ensures var first := Activation(lic, a, ma, t1, id1, 0);
      first.result == Ok(Activated) &&
      first.license.machines == [NewMachine(id1, a, ma, t1)] &&
      var second := Activation(first.license, b, mb, t2, id2, 0);
      second == Outcome(Err(CapacityReached), first.license) &&
      Heartbeat(second.license, a, t3).result == Ok(())
  {
    var first := Activation(lic, a, ma, t1, id1, 0);
    assert first.license.machines == [] + [NewMachine(id1, a, ma, t1)];
    assert !Bound(first.license.machines, b);
    assert first.license.machines[0].fingerprint == a;
  }

  /** A machine that has just activated is found by its heartbeat. */
  lemma ActivatedMachineIsAlive(lic: License, fp: string, meta: Meta, now: Time, newId: Id, victim: nat)
    requires lic.machines != [] ==> IsOldest(lic.machines, victim)
    requires Activation(lic, fp, meta, now, newId, victim).result.Ok?
    ensures Heartbeat(Activation(lic, fp, meta, now, newId, victim).license, fp, now).result == Ok(())
  {
  }

  // ---------------------------------------------------------------------------
  // Inspection

  /** Whole days from `now` to the expiry, truncated like dayjs' diff; the
      sentinel 99999 for a perpetual license. */
  function RemainingDays(expiresAt: Option<Time>, now: Time): (d: int)
    ensures expiresAt.None? ==> d == PERPETUAL_DAYS
    ensures expiresAt.Some? && expiresAt.value >= now ==>
      0 <= d && d * DAY <= expiresAt.value - now < (d + 1) * DAY
    ensures expiresAt.Some? && expiresAt.value < now ==>
      d <= 0 && (d - 1) * DAY < expiresAt.value - now <= d * DAY
  {
    match expiresAt
    case None => PERPETUAL_DAYS
    case Some(e) => TruncDiv(e - now, DAY)
  }

  /** getInfo(key) on the row found for the key. */
  function Inspection(lic: License, now: Time): (o: Outcome<Info>)
    ensures o.license.machines == lic.machines
    ensures o.license == lic.(status := o.license.status)
    ensures o.license.status == (if IsExpired(lic, now) then EXPIRED else lic.status)
    ensures IsExpired(lic, now) <==> o.result == Err(LicenseExpired)
    ensures o.result.Ok? <==> !IsExpired(lic, now)
    ensures o.result.Ok? ==>
      var info := o.result.value;
      info.usedMachines == |lic.machines| && info.status == lic.status &&
      info.maxMachines == lic.maxMachines && info.strategy == lic.strategy &&
      info.expiresAt == lic.expiresAt && info.remainingDays >= 0 &&
      info.remainingDays == RemainingDays(lic.expiresAt, now)
  {
    if IsExpired(lic, now) then Outcome(Err(LicenseExpired), ExpiryCorrected(lic))
    else
      Outcome(Ok(Info(lic.status, lic.maxMachines, |lic.machines|, lic.expiresAt,
                      RemainingDays(lic.expiresAt, now), lic.strategy)), lic)
  }

  /** An expiry in the past is reported before anything else by all three
      requests, none of them touches a machine, and each leaves the status
      EXPIRED. */
  lemma ExpiryDetectedFirst(lic: License, fp: string, meta: Meta, now: Time, newId: Id, victim: nat)
    requires lic.machines != [] ==> IsOldest(lic.machines, victim)
    requires IsExpired(lic, now)
    ensures var a := Activation(lic, fp, meta, now, newId, victim);
      a.result == Err(LicenseExpired) && a.license == ExpiryCorrected(lic)
    ensures var h := Heartbeat(lic, fp, now);
      h.result == Err(LicenseExpired) && h.license == ExpiryCorrected(lic)
    ensures var i := Inspection(lic, now);
      i.result == Err(LicenseExpired) && i.license == ExpiryCorrected(lic)
    ensures ExpiryCorrected(lic).machines == lic.machines && ExpiryCorrected(lic).status == EXPIRED
  {
  }

  /** The perpetual sentinel is not exclusive to perpetual licenses: an expiry
      exactly 99999 days ahead reports the same number of days. */
  lemma SentinelNotExclusive(lic: License, now: Time)
    requires lic.expiresAt == Some(now + PERPETUAL_DAYS * DAY)
    ensures Inspection(lic, now).result.Ok?
    ensures Inspection(lic, now).result.value.remainingDays == PERPETUAL_DAYS
  {
  }

  // ---------------------------------------------------------------------------
  // The requests, as writes on the store

  /** checkExpiry on the license stored under `key`: the status write happens
      only for an expired license that is not EXPIRED yet. */
  method CheckExpiry(store: LicenseStore, key: string, now: Time) returns (expired: bool)
    requires store.Valid() && key in store.licenses
    modifies store
    ensures store.Valid() && store.nextId == old(store.nextId)
    ensures expired == IsExpired(old(store.licenses[key]), now)
    ensures store.licenses ==
      if expired then old(store.licenses)[key := ExpiryCorrected(old(store.licenses[key]))]
      else old(store.licenses)
  {
    var lic := store.licenses[key];
    expired := lic.expiresAt.Some? && now > lic.expiresAt.value;
    if expired {
      if lic.status != EXPIRED {
        store.licenses := store.licenses[key := lic.(status := EXPIRED)];
      }
    }
  }

  method Activate(store: LicenseStore, key: string, fp: string, meta: Meta, now: Time)
    returns (r: Result<Greeting>, ghost victim: nat)
    requires store.Valid()
    modifies store
    ensures store.Valid() && store.nextId >= old(store.nextId)
    ensures key !in old(store.licenses) ==>
      r == Err(InvalidLicense) && store.licenses == old(store.licenses)
    ensures key in old(store.licenses) ==>
      var lic := old(store.licenses)[key];
      (lic.machines != [] ==> IsOldest(lic.machines, victim)) &&
      var o := Activation(lic, fp, meta, now, old(store.nextId), victim);
      r == o.result && store.licenses == old(store.licenses)[key := o.license]
  {
    victim := 0;
    if key !in store.licenses {
      return Err(InvalidLicense), victim;
    }
    var lic := store.licenses[key];
    ghost var id0 := store.nextId;
    ghost var before := store.licenses;
    // the read orders the machines by ascending lastSeen; its head is `v`
    var v: nat := 0;
    if lic.machines != [] {
      OldestExists(lic.machines);
      v :| 0 <= v < |lic.machines| && IsOldest(lic.machines, v);
    }
    victim := v;
    ghost var o := Activation(lic, fp, meta, now, id0, v);
    ActivationKeepsFingerprintsUnique(lic, fp, meta, now, id0, v);

    var expired := CheckExpiry(store, key, now);
    if expired {
      return Err(LicenseExpired), victim;
    }
    if lic.status != ACTIVE {
      return Err(Unavailable(lic.status)), victim;
    }

    var ms := lic.machines;
    var found := FindMachine(ms, fp);
    if found.Some? {
      var i := found.value;
      store.licenses := store.licenses[key := lic.(machines := ms[i := ms[i].(lastSeen := now, ip := meta.ip)])];
      assert o.license == store.licenses[key];
      ReplaceKeepsConsistent(before, id0, id0, key, o.license);
      return Ok(WelcomeBack), victim;
    }

    if |ms| >= lic.maxMachines {
      if lic.strategy == FLOATING {
        if ms == [] {
          return Err(NoMachineToEvict), victim;
        }
        ms := RemoveAt(ms, v);
        store.licenses := store.licenses[key := lic.(machines := ms)];
      } else {
        return Err(CapacityReached), victim;
      }
    }

    var id := store.nextId;
    store.nextId := store.nextId + 1;
    store.licenses := store.licenses[key := lic.(machines := ms + [NewMachine(id, fp, meta, now)])];
    r := Ok(Activated);
    assert o.license == store.licenses[key];
    ReplaceKeepsConsistent(before, id0, store.nextId, key, o.license);
  }

  method HeartbeatRequest(store: LicenseStore, key: string, fp: string, now: Time) returns (r: Result<()>)
    requires store.Valid()
    modifies store
    ensures store.Valid() && store.nextId == old(store.nextId)
    ensures key !in old(store.licenses) ==>
      r == Err(InvalidLicense) && store.licenses == old(store.licenses)
    ensures key in old(store.licenses) ==>
      var o := Heartbeat(old(store.licenses)[key], fp, now);
      r == o.result && store.licenses == old(store.licenses)[key := o.license]
  {
    if key !in store.licenses {
      return Err(InvalidLicense);
    }
    var lic := store.licenses[key];
    var expired := CheckExpiry(store, key, now);
    if expired {
      return Err(LicenseExpired);
    }
    var found := FindMachine(lic.machines, fp);
    if found.None? {
      return Err(SessionKicked);
    }
    var i := found.value;
    var touched := lic.machines[i].(lastSeen := now);
    TouchKeepsUnique(lic.machines, i, touched);
    store.licenses := store.licenses[key := lic.(machines := lic.machines[i := touched])];
    r := Ok(());
  }

  method GetInfo(store: LicenseStore, key: string, now: Time) returns (r: Result<Info>)
    requires store.Valid()
    modifies store
    ensures store.Valid() && store.nextId == old(store.nextId)
    ensures key !in old(store.licenses) ==>
      r == Err(InvalidLicense) && store.licenses == old(store.licenses)
    ensures key in old(store.licenses) ==>
      var o := Inspection(old(store.licenses)[key], now);
      r == o.result && store.licenses == old(store.licenses)[key := o.license]
  {
    if key !in store.licenses {
      return Err(InvalidLicense);
    }
    var lic := store.licenses[key];
    var expired := CheckExpiry(store, key, now);
    if expired {
      return Err(LicenseExpired);
    }
    var usedCount := |lic.machines|;
    var remainingDays := RemainingDays(lic.expiresAt, now);
    r := Ok(Info(lic.status, lic.maxMachines, usedCount, lic.expiresAt, remainingDays, lic.strategy));
  }
}
