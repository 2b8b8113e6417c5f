/** The administrative surface (src/controllers/AdminController.ts): issuing,
    editing, resetting and deleting licenses, and the projections shown in the
    license list, the machine list and the dashboard. */
module AdminController {
  import opened Enums
  import opened Records
  import opened Store
  import opened LicenseService

  // ---------------------------------------------------------------------------
  // Issuing a license

  /** The body of a create request; 0, None and "" stand for absent (falsy)
      values. */
  datatype CreateRequest = CreateRequest(days: int, maxMachines: int, strategy: Option<Strategy>, remark: string)

  function UpperChar(c: char): (u: char)
    ensures !('a' <= u <= 'z')
    ensures 'a' <= c <= 'z' ==> 'A' <= u <= 'Z' && u as int - 'A' as int == c as int - 'a' as int
    ensures !('a' <= c <= 'z') ==> u == c
  {
    if 'a' <= c <= 'z' then (c as int - 32) as char else c
  }

  /** `toUpperCase()` on a uuid, whose letters are the hex letters a-f. */
  function Upper(s: string): (r: string)
    ensures |r| == |s|
    ensures forall i :: 0 <= i < |r| ==> !('a' <= r[i] <= 'z')
    ensures forall i :: 0 <= i < |s| && !('a' <= s[i] <= 'z') ==> r[i] == s[i]
    // a lower-case letter becomes its own capital
    ensures forall i :: 0 <= i < |s| && 'a' <= s[i] <= 'z' ==> r[i] == (s[i] as int - 32) as char
  {
    seq(|s|, i requires 0 <= i < |s| => UpperChar(s[i]))
  }

  /** The row createLicense inserts: ACTIVE, no machine, one slot and FLOATING
      unless the request says otherwise, perpetual unless `days` is given. */
  function NewLicense(id: Id, uuid: string, req: CreateRequest, now: Time): (lic: License)
    ensures lic.id == id && lic.key == Upper(uuid) && lic.remark == req.remark
    ensures lic.status == ACTIVE && lic.machines == []
    ensures req.maxMachines == 0 ==> lic.maxMachines == 1
    ensures req.maxMachines != 0 ==> lic.maxMachines == req.maxMachines
    ensures req.strategy.None? ==> lic.strategy == FLOATING
    ensures req.strategy.Some? ==> lic.strategy == req.strategy.value
    ensures req.days == 0 ==> lic.expiresAt.None?
    ensures req.days != 0 ==> lic.expiresAt == Some(now + req.days * DAY)
    ensures req.days >= 0 ==> !IsExpired(lic, now)
  {
    License(
      id := id,
      key := Upper(uuid),
      status := ACTIVE,
      expiresAt := if req.days != 0 then Some(now + req.days * DAY) else None,
      maxMachines := if req.maxMachines != 0 then req.maxMachines else 1,
      strategy := if req.strategy.Some? then req.strategy.value else FLOATING,
      remark := req.remark,
      machines := [])
  }

  /** A license just issued with no negative count binds its first machine. */
  lemma NewLicenseBindsFirstMachine(id: Id, uuid: string, req: CreateRequest, now: Time,
                                    fp: string, meta: Meta, newId: Id)
    requires req.days >= 0 && req.maxMachines >= 0
    ensures var o := Activation(NewLicense(id, uuid, req, now), fp, meta, now, newId, 0);
      o.result == Ok(Activated) && o.license.machines == [NewMachine(newId, fp, meta, now)]
  {
    var lic := NewLicense(id, uuid, req, now);
    assert lic.machines + [NewMachine(newId, fp, meta, now)] == [NewMachine(newId, fp, meta, now)];
  }

  method CreateLicense(store: LicenseStore, uuid: string, req: CreateRequest, now: Time) returns (r: Result<License>)
    requires store.Valid()
    modifies store
    ensures store.Valid()
    ensures Upper(uuid) in old(store.licenses) ==>
      r == Err(DuplicateKey) && store.licenses == old(store.licenses)
    ensures Upper(uuid) !in old(store.licenses) ==>
      r == Ok(NewLicense(old(store.nextId), uuid, req, now)) &&
      store.licenses == old(store.licenses)[Upper(uuid) := r.value]
  {
    var key := Upper(uuid);
    if key in store.licenses {
      return Err(DuplicateKey);
    }
    var id := store.nextId;
    store.nextId := store.nextId + 1;
    var lic := NewLicense(id, uuid, req, now);
    store.licenses := store.licenses[key := lic];
    r := Ok(lic);
  }

  // ---------------------------------------------------------------------------
  // Editing a license

  /** The body of an update request: 0, None and "" stand for falsy values;
      `addDays` is None unless the body holds a number there. */
  datatype UpdateRequest = UpdateRequest(
    status: Option<Status>,
    remark: string,
    maxMachines: int,
    strategy: Option<Strategy>,
    addDays: Option<int>)

  /** Whether the request asks for an extension (`addDays` a non-zero number). */
  predicate Extends(req: UpdateRequest)
  {
    req.addDays.Some? && req.addDays.value != 0
  }

  /** Where an extension starts: the current expiry while it lies in the future,
      `now` when it has passed or the license is perpetual. */
  function ExtensionBase(expiresAt: Option<Time>, now: Time): (b: Time)
    ensures b >= now
    ensures expiresAt.Some? ==> b >= expiresAt.value
    ensures b == now || expiresAt == Some(b)
  {
    match expiresAt
    case Some(e) => if e > now then e else now
    case None => now
  }

  /** The row after updateLicense: each truthy field of the request is written;
      an extension moves the expiry and turns a stored EXPIRED into ACTIVE, over
      whatever status the request sent. */
  function Patched(lic: License, req: UpdateRequest, now: Time): (r: License)
    ensures r.id == lic.id && r.key == lic.key && r.machines == lic.machines
    ensures r.remark == if req.remark != "" then req.remark else lic.remark
    ensures r.maxMachines == if req.maxMachines != 0 then req.maxMachines else lic.maxMachines
    ensures r.strategy == if req.strategy.Some? then req.strategy.value else lic.strategy
    ensures Extends(req) && lic.status == EXPIRED ==> r.status == ACTIVE
    ensures !(Extends(req) && lic.status == EXPIRED) ==>
      r.status == if req.status.Some? then req.status.value else lic.status
    ensures !Extends(req) ==> r.expiresAt == lic.expiresAt
    ensures Extends(req) ==> r.expiresAt == Some(ExtensionBase(lic.expiresAt, now) + req.addDays.value * DAY)
  {
    var extend := Extends(req);
    lic.(
      status := if extend && lic.status == EXPIRED then ACTIVE
                else if req.status.Some? then req.status.value else lic.status,
      remark := if req.remark != "" then req.remark else lic.remark,
      maxMachines := if req.maxMachines != 0 then req.maxMachines else lic.maxMachines,
      strategy := if req.strategy.Some? then req.strategy.value else lic.strategy,
      expiresAt := if extend then Some(ExtensionBase(lic.expiresAt, now) + req.addDays.value * DAY)
                   else lic.expiresAt)
  }

  /** A positive extension ends strictly after both `now` and the old expiry, so
      the license is no longer expired. */
  lemma ExtensionMovesExpiryForward(lic: License, req: UpdateRequest, now: Time)
    requires req.addDays.Some? && req.addDays.value > 0
    ensures var r := Patched(lic, req, now);
      r.expiresAt.Some? && r.expiresAt.value > now &&
      (lic.expiresAt.Some? ==> r.expiresAt.value > lic.expiresAt.value) &&
      !IsExpired(r, now)
  {
  }

  /** Extending an EXPIRED license reopens it: its next activation passes the
      expiry and status checks whatever status the request carried. */
  lemma RenewalReopens(lic: License, req: UpdateRequest, now: Time,
                       fp: string, meta: Meta, newId: Id, victim: nat)
    requires lic.status == EXPIRED && req.addDays.Some? && req.addDays.value > 0
    requires lic.machines != [] ==> IsOldest(lic.machines, victim)
    ensures var o := Activation(Patched(lic, req, now), fp, meta, now, newId, victim);
      o.result != Err(LicenseExpired) && !(o.result.Err? && o.result.error.Unavailable?)
  {
    ExtensionMovesExpiryForward(lic, req, now);
  }

  /** The license with a given id exists. */
  ghost predicate HasId(licenses: map<string, License>, id: Id)
  {
    exists k :: k in licenses && licenses[k].id == id
  }

  /** The key of the license with a given id. */
  ghost function KeyOfId(licenses: map<string, License>, id: Id): (k: string)
    requires HasId(licenses, id)
    ensures k in licenses && licenses[k].id == id
  {
    var k :| k in licenses && licenses[k].id == id; k
  }

  method UpdateLicense(store: LicenseStore, id: Id, req: UpdateRequest, now: Time) returns (r: Result<License>)
    requires store.Valid()
    modifies store
    ensures store.Valid() && store.nextId == old(store.nextId)
    ensures !HasId(old(store.licenses), id) ==>
      r == Err(RecordNotFound) && store.licenses == old(store.licenses)
    ensures HasId(old(store.licenses), id) ==>
      var k := KeyOfId(old(store.licenses), id);
      r == Ok(Patched(old(store.licenses)[k], req, now)) &&
      store.licenses == old(store.licenses)[k := r.value]
  {
    if !exists k :: k in store.licenses && store.licenses[k].id == id {
      return Err(RecordNotFound);
    }
    var key :| key in store.licenses && store.licenses[key].id == id;
    var current := store.licenses[key];
    var updated := current;
    if req.status.Some? { updated := updated.(status := req.status.value); }
    if req.remark != "" { updated := updated.(remark := req.remark); }
    if req.maxMachines != 0 { updated := updated.(maxMachines := req.maxMachines); }
    if req.strategy.Some? { updated := updated.(strategy := req.strategy.value); }
    if req.addDays.Some? && req.addDays.value != 0 {
      var currentExpire := if current.expiresAt.Some? then current.expiresAt.value else now;
      var baseDate := if currentExpire > now then currentExpire else now;
      updated := updated.(expiresAt := Some(baseDate + req.addDays.value * DAY));
      if current.status == EXPIRED {
        updated := updated.(status := ACTIVE);
      }
    }
    assert updated == Patched(current, req, now);
    assert key == KeyOfId(store.licenses, id);
    ReplaceKeepsConsistent(store.licenses, store.nextId, store.nextId, key, updated);
    store.licenses := store.licenses[key := updated];
    r := Ok(updated);
  }

  // ---------------------------------------------------------------------------
  // Resetting and deleting

  method ResetMachines(store: LicenseStore, id: Id)
    requires store.Valid()
    modifies store
    ensures store.Valid() && store.nextId == old(store.nextId)
    ensures !HasId(old(store.licenses), id) ==> store.licenses == old(store.licenses)
    ensures HasId(old(store.licenses), id) ==>
      var k := KeyOfId(old(store.licenses), id);
      store.licenses == old(store.licenses)[k := old(store.licenses)[k].(machines := [])]
  {
    if exists k :: k in store.licenses && store.licenses[k].id == id {
      var key :| key in store.licenses && store.licenses[key].id == id;
      ReplaceKeepsConsistent(store.licenses, store.nextId, store.nextId, key, store.licenses[key].(machines := []));
      store.licenses := store.licenses[key := store.licenses[key].(machines := [])];
    }
  }

  method DeleteLicense(store: LicenseStore, id: Id) returns (r: Result<()>)
    requires store.Valid()
    modifies store
    ensures store.Valid() && store.nextId == old(store.nextId)
    ensures !HasId(old(store.licenses), id) ==>
      r == Err(RecordNotFound) && store.licenses == old(store.licenses)
    ensures HasId(old(store.licenses), id) ==>
      r == Ok(()) && store.licenses == old(store.licenses) - {KeyOfId(old(store.licenses), id)}
  {
    if !exists k :: k in store.licenses && store.licenses[k].id == id {
      return Err(RecordNotFound);
    }
    var key :| key in store.licenses && store.licenses[key].id == id;
    store.licenses := store.licenses - {key};
    r := Ok(());
  }

  // ---------------------------------------------------------------------------
  // Pagination

  /** `parseInt(page) || 1`: None stands for NaN (absent or not a number). */
  function PageNumber(param: Option<int>): (p: int)
    ensures p != 0
    ensures param.Some? && param.value != 0 ==> p == param.value
    ensures param.None? || param.value == 0 ==> p == 1
  {
    if param.Some? && param.value != 0 then param.value else 1
  }

  /** `parseInt(pageSize) || 10`. */
  function PageSize(param: Option<int>): (s: int)
    ensures s != 0
    ensures param.Some? && param.value != 0 ==> s == param.value
    ensures param.None? || param.value == 0 ==> s == 10
  {
    if param.Some? && param.value != 0 then param.value else 10
  }

  function Skip(page: int, pageSize: int): int
  {
    (page - 1) * pageSize
  }

  /** The rows a query with `skip` and `take` returns from the ordered matches. */
  function Window<T>(rows: seq<T>, skip: int, take: int): (w: Result<seq<T>>)
    ensures skip < 0 || take < 0 <==> w.Err?
    ensures w.Ok? ==> |w.value| <= take
    ensures w.Ok? ==> forall i :: 0 <= i < |w.value| ==> skip + i < |rows| && w.value[i] == rows[skip + i]
    ensures w.Ok? && skip + take <= |rows| ==> |w.value| == take
  {
    if skip < 0 || take < 0 then Err(InvalidQuery)
    else
      var lo := if skip < |rows| then skip else |rows|;
      var hi := if skip + take < |rows| then skip + take else |rows|;
      Ok(rows[lo..hi])
  }

  /** Reading pages 1 to n in turn returns the first n * pageSize matches, in
      order, each exactly once. */
  lemma {:induction false} PagesTile<T>(rows: seq<T>, pageSize: int, n: nat)
    requires pageSize > 0
    ensures Pages(rows, pageSize, n) == rows[..if n * pageSize < |rows| then n * pageSize else |rows|]
  {
    if n > 0 {
      PagesTile(rows, pageSize, n - 1);
      var prev := (n - 1) * pageSize;
      var lo := if prev < |rows| then prev else |rows|;
      var hi := if n * pageSize < |rows| then n * pageSize else |rows|;
      assert Skip(n, pageSize) == prev;
      assert Window(rows, prev, pageSize) == Ok(rows[lo..hi]);
      assert rows[..lo] + rows[lo..hi] == rows[..hi];
    }
  }

  /** The concatenation of pages 1 to n. */
  function Pages<T>(rows: seq<T>, pageSize: int, n: nat): seq<T>
    requires pageSize > 0
  {
    if n == 0 then []
    else
      var w := Window(rows, Skip(n, pageSize), pageSize);
      Pages(rows, pageSize, n - 1) + (if w.Ok? then w.value else [])
  }

  /** A listing response: the number of matches and the requested page. */
  datatype Listing<T> = Listing(total: nat, page: int, pageSize: int, list: seq<T>)

  // ---------------------------------------------------------------------------
  // The license list

  /** The status the list shows: EXPIRED for an ACTIVE license past its expiry,
      then INACTIVE for an ACTIVE license with no machine, else the stored one. */
  function DisplayStatus(lic: License, now: Time): (s: Status)
    ensures s == EXPIRED <==> lic.status == EXPIRED || (lic.status == ACTIVE && IsExpired(lic, now))
    ensures s == INACTIVE <==> lic.status == INACTIVE || (lic.status == ACTIVE && !IsExpired(lic, now) && lic.machines == [])
    ensures s == ACTIVE <==> lic.status == ACTIVE && !IsExpired(lic, now) && lic.machines != []
    ensures s == SUSPENDED <==> lic.status == SUSPENDED
  {
    var shown := if lic.expiresAt.Some? && lic.status == ACTIVE && now > lic.expiresAt.value then EXPIRED else lic.status;
    if shown == ACTIVE && |lic.machines| == 0 then INACTIVE else shown
  }

  /** A SUSPENDED license past its expiry is listed as SUSPENDED although every
      client request reports it expired. */
  lemma SuspendedShownOverExpiry(lic: License, now: Time)
    requires lic.status == SUSPENDED && IsExpired(lic, now)
    ensures DisplayStatus(lic, now) == SUSPENDED
    ensures Inspection(lic, now).result == Err(LicenseExpired)
  {
  }

  /** One entry of the license list. */
  datatype LicenseItem = LicenseItem(
    row: License,
    status: Status,
    rawStatus: Status,
    remainingDays: int,
    isPermanent: bool,
    usedCount: nat,
    isActivated: bool,
    lastSeenAt: Option<Time>,
    lastIp: Option<string>,
    machineNames: seq<string>)

  /** Machines in the order the list query returns them: latest lastSeen first. */
  ghost predicate NewestFirst(ms: seq<Machine>)
  {
    forall i, j :: 0 <= i < j < |ms| ==> ms[i].lastSeen >= ms[j].lastSeen
  }

  /** The entry built for a license row whose machines the query returned
      newest first. */
  function LicenseListItem(lic: License, now: Time): (it: LicenseItem)
    ensures it.row == lic && it.rawStatus == lic.status && it.status == DisplayStatus(lic, now)
    ensures it.isPermanent <==> lic.expiresAt.None?
    ensures it.remainingDays == RemainingDays(lic.expiresAt, now)
    ensures lic.expiresAt.None? ==> it.remainingDays == PERPETUAL_DAYS
    ensures lic.expiresAt.Some? && lic.expiresAt.value - now < PERPETUAL_DAYS * DAY ==>
      it.remainingDays < PERPETUAL_DAYS
    ensures it.usedCount == |lic.machines|
    ensures it.isActivated <==> it.usedCount > 0
    ensures it.lastSeenAt.Some? <==> lic.machines != []
    ensures NewestFirst(lic.machines) && it.lastSeenAt.Some? ==>
      forall j :: 0 <= j < |lic.machines| ==> lic.machines[j].lastSeen <= it.lastSeenAt.value
    // the last-seen time and the last address both come from the head machine
    ensures it.lastSeenAt.Some? ==> it.lastSeenAt.value == lic.machines[0].lastSeen
    ensures it.lastIp.Some? <==> lic.machines != [] && lic.machines[0].ip != ""
    ensures it.lastIp.Some? ==> it.lastIp.value == lic.machines[0].ip
    ensures |it.machineNames| == |lic.machines|
    ensures forall j :: 0 <= j < |lic.machines| ==>
      it.machineNames[j] == if lic.machines[j].name != "" then lic.machines[j].name else lic.machines[j].fingerprint
  {
    var ms := lic.machines;
    LicenseItem(
      row := lic,
      status := DisplayStatus(lic, now),
      rawStatus := lic.status,
      remainingDays := RemainingDays(lic.expiresAt, now),
      isPermanent := lic.expiresAt.None?,
      usedCount := |ms|,
      isActivated := |ms| > 0,
      lastSeenAt := if ms != [] then Some(ms[0].lastSeen) else None,
      lastIp := if ms != [] && ms[0].ip != "" then Some(ms[0].ip) else None,
      machineNames := seq(|ms|, j requires 0 <= j < |ms| => if ms[j].name != "" then ms[j].name else ms[j].fingerprint))
  }

  /** listLicenses over the matching rows in the requested order. */
  function ListLicenses(rows: seq<License>, pageParam: Option<int>, sizeParam: Option<int>, now: Time)
    : (r: Result<Listing<LicenseItem>>)
    ensures r.Ok? ==> (r.value.total == |rows| && r.value.page == PageNumber(pageParam) &&
      r.value.pageSize == PageSize(sizeParam))
    ensures r.Ok? <==> Window(rows, Skip(PageNumber(pageParam), PageSize(sizeParam)), PageSize(sizeParam)).Ok?
    ensures r.Ok? ==>
      var w := Window(rows, Skip(PageNumber(pageParam), PageSize(sizeParam)), PageSize(sizeParam)).value;
      |r.value.list| == |w| && forall i :: 0 <= i < |w| ==> r.value.list[i] == LicenseListItem(w[i], now)
  {
    var page := PageNumber(pageParam);
    var pageSize := PageSize(sizeParam);
    match Window(rows, Skip(page, pageSize), pageSize)
    case Err(e) => Err(e)
    case Ok(w) =>
      Ok(Listing(|rows|, page, pageSize, seq(|w|, i requires 0 <= i < |w| => LicenseListItem(w[i], now))))
  }

  // ---------------------------------------------------------------------------
  // The machine list

  const UNKNOWN_DEVICE: string := "未知设备"

  /** How long ago a machine was seen: '在线' (online) or '<n>分钟前' (n minutes ago). */
  datatype Presence = OnlineNow | MinutesAgo(minutes: int)

  /** One entry of the machine list, with the owning license's key, remark and
      stored status. */
  datatype MachineItem = MachineItem(
    id: Id,
    fingerprint: string,
    name: string,
    platform: string,
    ip: string,
    lastSeen: Time,
    isOnline: bool,
    offlineDuration: Presence,
    licenseKey: string,
    licenseRemark: string,
    licenseStatus: Status)

  /** Whole minutes since `lastSeen`, truncated like dayjs' diff. */
  function MinutesSince(lastSeen: Time, now: Time): int
  {
    TruncDiv(now - lastSeen, MINUTE)
  }

  /** The list's online test (fewer than 10 whole minutes since lastSeen) is
      "less than 10 minutes ago", also for a lastSeen in the future. */
  lemma ListOnlineMeansUnderTenMinutes(lastSeen: Time, now: Time)
    ensures MinutesSince(lastSeen, now) < 10 <==> now - lastSeen < 10 * MINUTE
  {
    var d := now - lastSeen;
    var q := MinutesSince(lastSeen, now);
    if d >= 0 {
      assert q * MINUTE <= d < q * MINUTE + MINUTE;
      if q < 10 { assert q * MINUTE <= 9 * MINUTE; }
      else { assert q * MINUTE >= 10 * MINUTE; }
    }
  }

  function MachineListItem(m: Machine, owner: License, now: Time): (it: MachineItem)
    ensures it.isOnline <==> now - m.lastSeen < 10 * MINUTE
    ensures it.isOnline <==> it.offlineDuration == OnlineNow
    ensures !it.isOnline ==> it.offlineDuration.minutes == MinutesSince(m.lastSeen, now) >= 10
    ensures it.name == if m.name != "" then m.name else UNKNOWN_DEVICE
    ensures it.id == m.id && it.fingerprint == m.fingerprint && it.platform == m.platform
    ensures it.ip == m.ip && it.lastSeen == m.lastSeen
    ensures it.licenseKey == owner.key && it.licenseRemark == owner.remark && it.licenseStatus == owner.status
  {
    var diffMinutes := MinutesSince(m.lastSeen, now);
    ListOnlineMeansUnderTenMinutes(m.lastSeen, now);
    var isOnline := diffMinutes < 10;
    MachineItem(
      id := m.id,
      fingerprint := m.fingerprint,
      name := if m.name != "" then m.name else UNKNOWN_DEVICE,
      platform := m.platform,
      ip := m.ip,
      lastSeen := m.lastSeen,
      isOnline := isOnline,
      offlineDuration := if isOnline then OnlineNow else MinutesAgo(diffMinutes),
      licenseKey := owner.key,
      licenseRemark := owner.remark,
      licenseStatus := owner.status)
  }

  /** listMachines over the matching machines, each with its license, newest
      first. */
  function ListMachines(rows: seq<(Machine, License)>, pageParam: Option<int>, sizeParam: Option<int>, now: Time)
    : (r: Result<Listing<MachineItem>>)
    ensures r.Ok? ==> (r.value.total == |rows| && r.value.page == PageNumber(pageParam) &&
      r.value.pageSize == PageSize(sizeParam))
    ensures r.Ok? <==> Window(rows, Skip(PageNumber(pageParam), PageSize(sizeParam)), PageSize(sizeParam)).Ok?
    ensures r.Ok? ==>
      var w := Window(rows, Skip(PageNumber(pageParam), PageSize(sizeParam)), PageSize(sizeParam)).value;
      |r.value.list| == |w| && forall i :: 0 <= i < |w| ==> r.value.list[i] == MachineListItem(w[i].0, w[i].1, now)
  {
    var page := PageNumber(pageParam);
    var pageSize := PageSize(sizeParam);
    match Window(rows, Skip(page, pageSize), pageSize)
    case Err(e) => Err(e)
    case Ok(w) =>
      Ok(Listing(|rows|, page, pageSize, seq(|w|, i requires 0 <= i < |w| => MachineListItem(w[i].0, w[i].1, now))))
  }

  // ---------------------------------------------------------------------------
  // The dashboard

  datatype Stats = Stats(
    totalLicenses: nat,
    activeLicenses: nat,
    inactiveLicenses: int,
    totalMachines: nat,
    totalBoundMachines: nat,
    onlineMachines: nat,
    expiringSoon: nat)

  /** Every bound machine, as (license key, position). */
  function BoundMachines(licenses: map<string, License>): set<(string, nat)>
  {
    set k, i | k in licenses && 0 <= i < |licenses[k].machines| :: (k, i)
  }

  /** The dashboard's online test: lastSeen no earlier than ten minutes ago. */
  predicate StatsOnline(m: Machine, now: Time)
  {
    m.lastSeen >= now - 10 * MINUTE
  }

  /** The machines the dashboard counts as online, as (license key, position). */
  function OnlineMachines(licenses: map<string, License>, now: Time): (s: set<(string, nat)>)
    ensures s <= BoundMachines(licenses)
    ensures forall k, i :: (k, i) in s <==>
      (k in licenses && 0 <= i < |licenses[k].machines| && licenses[k].machines[i].lastSeen >= now - 10 * MINUTE)
  {
    set k, i | k in licenses && 0 <= i < |licenses[k].machines| && StatsOnline(licenses[k].machines[i], now) :: (k, i)
  }

  function UsedLicenses(licenses: map<string, License>): set<string>
  {
    set k | k in licenses && licenses[k].machines != []
  }

  function UnusedLicenses(licenses: map<string, License>): set<string>
  {
    set k | k in licenses && licenses[k].machines == []
  }

  /** ACTIVE licenses whose expiry lies within the next seven days, both ends
      included. */
  function ExpiringSoon(licenses: map<string, License>, now: Time): (s: set<string>)
    ensures s <= licenses.Keys
    ensures forall k :: k in s <==> (k in licenses && licenses[k].status == ACTIVE &&
      licenses[k].expiresAt.Some? && now <= licenses[k].expiresAt.value <= now + 7 * DAY)
  {
    set k | k in licenses && licenses[k].status == ACTIVE && licenses[k].expiresAt.Some? &&
      now <= licenses[k].expiresAt.value <= now + 7 * DAY
  }

  lemma SubsetSmaller<T>(a: set<T>, b: set<T>)
    requires a <= b
    ensures |a| <= |b|
  {
    assert b == a + (b - a);
  }

  /** getStats over the whole table. */
  function GetStats(licenses: map<string, License>, now: Time): (s: Stats)
    ensures s.totalLicenses == |licenses|
    ensures s.inactiveLicenses == s.totalLicenses - s.activeLicenses
    // the licenses without machines are exactly the inactive ones
    ensures s.inactiveLicenses == |UnusedLicenses(licenses)| >= 0
    ensures s.activeLicenses == |UsedLicenses(licenses)|
    ensures s.totalMachines == s.totalBoundMachines == |BoundMachines(licenses)|
    // online: seen within the last ten minutes, both ends included
    ensures s.onlineMachines == |OnlineMachines(licenses, now)| <= s.totalBoundMachines
    // expiring soon: ACTIVE with an expiry within the next seven days
    ensures s.expiringSoon == |ExpiringSoon(licenses, now)| <= s.totalLicenses
  {
    var used := UsedLicenses(licenses);
    var unused := UnusedLicenses(licenses);
    assert licenses.Keys == used + unused && used * unused == {};
    SubsetSmaller(OnlineMachines(licenses, now), BoundMachines(licenses));
    SubsetSmaller(ExpiringSoon(licenses, now), licenses.Keys);
    var total := |licenses|;
    var bound := |BoundMachines(licenses)|;
    Stats(
      totalLicenses := total,
      activeLicenses := |used|,
      inactiveLicenses := total - |used|,
      totalMachines := bound,
      totalBoundMachines := bound,
      onlineMachines := |OnlineMachines(licenses, now)|,
      expiringSoon := |ExpiringSoon(licenses, now)|)
  }

  /** The list and the dashboard disagree on one instant only: a machine last
      seen exactly ten minutes ago is online on the dashboard and offline in
      the machine list. */
  lemma OnlineTestsDifferAtTenMinutes(m: Machine, owner: License, now: Time)
    ensures MachineListItem(m, owner, now).isOnline ==> StatsOnline(m, now)
    ensures StatsOnline(m, now) && !MachineListItem(m, owner, now).isOnline <==>
      now - m.lastSeen == 10 * MINUTE
  {
  }
}
