# License/machine binding engine — a Dafny model

This project models the core of a license server. Each license has a key. A
client machine binds to a license by activating with its fingerprint. The
server binds the machine into a free slot, or evicts the machine seen least
recently (FLOATING strategy), or refuses it (STRICT strategy). Clients then
send heartbeats; a heartbeat from an evicted machine is answered "kicked". An
administrator issues, edits, resets and deletes licenses and reads the lists
and the dashboard. An hourly job marks ACTIVE licenses whose expiry has passed
as EXPIRED. Every client response is wrapped in an envelope that carries a
signature when a private key is loaded.

Files and modules, one per source file:

- `enums.dfy` (`Enums`): license status, strategy and protocol error codes.
- `records.dfy` (`Records`): the License and Machine rows, the error kinds, time constants, truncating division.
- `store.dfy` (`Store`): the store class `LicenseStore`, a map from key to license plus an id counter, with its consistency invariant (unique keys and ids, unique fingerprints per license).
- `license_service.dfy` (`LicenseService`): `checkExpiry`, `activate`, `heartbeat`, `getInfo`.
- `admin_controller.dfy` (`AdminController`): create, update, reset and delete; the list projections, pagination and dashboard counts.
- `signer.dfy` (`Signer`): `signResponse` with an opaque signing function.
- `client_controller.dfy` (`ClientController`): the handlers `validate`, `heartbeat` and `check`.
- `cron_job.dfy` (`CronJob`): the expiry sweep.

Most state-changing requests come in two forms. The first is a pure function
of the row it read. It returns an `Outcome`: the answer, plus the row as the
request leaves it. The second is a method that performs the source's writes on
the store one at a time. Each method is proved to leave the store exactly as
its function says. `resetMachines` and `deleteLicense` write a single field
or remove a single row, so they are methods only, and their contracts give the
new store directly. The properties are stated on the functions, as their
contracts and as lemmas.

Conventions:

- Time is an integer count of milliseconds. The clock is a parameter `now`.
- A day is 86 400 000 ms. dayjs `diff` is integer division truncating toward zero (`TruncDiv`).
- A nullable text field is a `string`, with `""` for null. Where the source tests such a field for truthiness (a machine's name, the last ip, the update fields) null and `""` behave alike. Where it returns the field as it is, they do not; see "## Left out".
- The eviction victim is any machine with minimal `lastSeen` (`IsOldest`). The method picks it with `:|` when it reads the row. No tie-break is claimed.

Behaviour of the code worth knowing, which the model reproduces:

- `checkExpiry` overwrites SUSPENDED with EXPIRED.
- `heartbeat` has no status check.
- Capacity is tested with `>=` and at most one machine is evicted. A license above its capacity stays above it.
- A FLOATING license at capacity with no machines at all (a negative `maxMachines`, which `createLicense` and `updateLicense` store as given; a 0 is replaced by the default or skipped) makes the source dereference `machines[0]`, which is undefined. That throws; the model reports `NoMachineToEvict` and changes nothing.
- `check` (and with it `getInfo`) has a handler but no route: the router mounts only `validate` and `heartbeat` for clients, so `check` cannot be reached over HTTP.
- `remainingDays` uses 99999 both as the perpetual sentinel and as the count for an expiry exactly 99999 days ahead, so the value alone does not tell a perpetual license apart.

## Model

| member | source | states |
|---|---|---|
| `Enums.CodeText` | src/enums.ts:18-21 | the wire text of a protocol error code is nonempty, and is `SESSION_KICKED` exactly for KICKED |
| `Enums.StatusText` | src/enums.ts:4-9 | the stored text of a status is a word of capital letters (at least six); distinct statuses have distinct texts |
| `Enums.StatusTextInjective` | src/enums.ts:4-9 | equal status texts mean equal statuses, so a message quoting the text names the status |
| `Records.Message` | src/services/LicenseService.ts:18-93 | the message of the thrown error: equal to the code text `SESSION_KICKED` exactly for a kicked heartbeat; the not-available message quotes the status |
| `Records.TruncDiv` | src/services/LicenseService.ts:125 | whole units between two instants, truncated toward zero: the quotient is the largest multiple not past the difference for a nonnegative difference, the smallest not below it for a negative one |
| `LicenseService.IsExpired` | src/services/LicenseService.ts:10 | an expiry is set and `now` is strictly after it |
| `LicenseService.ExpiryCorrected` | src/services/LicenseService.ts:9-20 | an expired license is left with status EXPIRED, whatever its prior status (SUSPENDED included); nothing changes if it is already EXPIRED |
| `LicenseService.CheckExpiry` | src/services/LicenseService.ts:9-20 | reports expiry; writes EXPIRED only for an expired license not already EXPIRED; otherwise the store is unchanged |
| `LicenseService.FindMachine` | src/services/LicenseService.ts:40 | finds the first machine with the fingerprint, or none exactly when no machine has it |
| `LicenseService.OldestExists` | src/services/LicenseService.ts:29 | a nonempty machine list has a machine with minimal lastSeen, which is what the ascending lastSeen query puts first |
| `LicenseService.NewMachine` | src/services/LicenseService.ts:64-72 | the inserted machine has the fingerprint, ip, platform and hostname of the request, and lastSeen = now (schema default) |
| `LicenseService.Activation` | src/services/LicenseService.ts:26-74 | check order: expiry first, then non-ACTIVE. Success iff not expired, ACTIVE, and (fingerprint bound, or a free slot, or FLOATING with a machine to evict). Failure leaves the machines unchanged. Only status and machines are written. On success the fingerprint is bound, and a machine count within maxMachines is kept |
| `LicenseService.FloatingWithoutMachinesFails` | src/services/LicenseService.ts:50-56 | a FLOATING license with a negative capacity and no machine fails with `NoMachineToEvict` (the source's read of the first machine throws) and the row is unchanged |
| `LicenseService.ReactivationEvictsNobody` | src/services/LicenseService.ts:40-47 | re-activating a bound fingerprint answers "welcome back" and keeps the count; only that machine's lastSeen and ip change |
| `LicenseService.NewMachineTakesFreeSlot` | src/services/LicenseService.ts:50-73 | a new fingerprint below capacity appends exactly one machine; the others are untouched |
| `LicenseService.FloatingEvictsOldest` | src/services/LicenseService.ts:50-73 | FLOATING at capacity removes exactly one machine with minimal lastSeen and adds the new one; the count is unchanged |
| `LicenseService.StrictRejectsWhenFull` | src/services/LicenseService.ts:58-60 | STRICT at capacity fails with capacity reached and changes nothing |
| `LicenseService.OverCapacityStaysOver` | src/services/LicenseService.ts:50-57 | a license above its capacity keeps its machine count on activation, so it stays above |
| `LicenseService.ActivationKeepsFingerprintsUnique` | src/services/LicenseService.ts:40-73 | activation never binds a fingerprint twice |
| `LicenseService.FloatingHandover` | src/services/LicenseService.ts:50-94 | FLOATING with one slot: B's activation evicts A; A's heartbeat is then kicked and B's succeeds |
| `LicenseService.StrictKeepsFirst` | src/services/LicenseService.ts:58-101 | STRICT with one slot: B is refused; A stays bound and its heartbeat succeeds |
| `LicenseService.ActivatedMachineIsAlive` | src/services/LicenseService.ts:63-101 | after a successful activation, the same machine's heartbeat succeeds |
| `LicenseService.Heartbeat` | src/services/LicenseService.ts:80-102 | expiry is checked first, with no status check. Kicked iff the fingerprint is not bound. No machine is added or removed. Only the caller's lastSeen changes (its ip does not) |
| `LicenseService.RemainingDays` | src/services/LicenseService.ts:125 | 99999 for a perpetual license; otherwise whole days to the expiry, truncated toward zero |
| `LicenseService.Inspection` | src/services/LicenseService.ts:108-137 | fails only when expired. Machines are never changed. The info reports the stored status, `usedMachines` is the machine count, the capacity, strategy and expiry, and `remainingDays` is `RemainingDays` of the expiry: 99999 when perpetual, else the whole days left, truncated, never negative |
| `LicenseService.ExpiryDetectedFirst` | src/services/LicenseService.ts:9-120 | a past expiry makes activate, heartbeat and getInfo all fail with expired; each leaves the status EXPIRED and the machines unchanged |
| `LicenseService.SentinelNotExclusive` | src/services/LicenseService.ts:125 | an expiry exactly 99999 days ahead also reports 99999 remaining days |
| `LicenseService.Activate` | src/services/LicenseService.ts:26-74 | unknown key: fails with invalid license, store unchanged. Otherwise the writes leave the store as `Activation` says, with the victim a machine of minimal lastSeen |
| `LicenseService.HeartbeatRequest` | src/services/LicenseService.ts:80-102 | unknown key: fails with invalid license, store unchanged. Otherwise the store ends as `Heartbeat` says |
| `LicenseService.GetInfo` | src/services/LicenseService.ts:108-137 | unknown key: fails with invalid license, store unchanged. Otherwise the store ends as `Inspection` says |
| `AdminController.Upper` | src/controllers/AdminController.ts:16 | same length; each lower-case ASCII letter becomes its own capital (`a`..`z` to `A`..`Z`); every other character is kept |
| `AdminController.NewLicense` | src/controllers/AdminController.ts:14-22 | status ACTIVE, no machines, key upper-cased. `maxMachines` is 1 when falsy, strategy FLOATING when falsy. `expiresAt` is null when `days` is falsy, else `now + days` days. Not expired when `days >= 0` |
| `AdminController.NewLicenseBindsFirstMachine` | src/controllers/AdminController.ts:14-22 | a license just issued, with no negative count, binds its first machine |
| `AdminController.CreateLicense` | src/controllers/AdminController.ts:11-28 | inserts `NewLicense` under a fresh id; a colliding key is refused by the unique index |
| `AdminController.ExtensionBase` | src/controllers/AdminController.ts:245-248 | the base is the later of the current expiry and `now`; a perpetual license counts as `now` |
| `AdminController.Patched` | src/controllers/AdminController.ts:231-257 | only the truthy request fields are written. An extension sets the expiry to base + addDays days. A stored EXPIRED becomes ACTIVE over any status in the request. Id, key and machines are unchanged |
| `AdminController.ExtensionMovesExpiryForward` | src/controllers/AdminController.ts:239-256 | with `addDays > 0` the new expiry is after both `now` and the old expiry, so the license is not expired |
| `AdminController.RenewalReopens` | src/controllers/AdminController.ts:239-256 | extending an EXPIRED license makes its next activation pass the expiry and status checks |
| `AdminController.UpdateLicense` | src/controllers/AdminController.ts:224-271 | an unknown id fails with no change; otherwise only that license is replaced, by `Patched` |
| `AdminController.ResetMachines` | src/controllers/AdminController.ts:278-281 | empties exactly that license's machines; its other fields and all other licenses are unchanged |
| `AdminController.DeleteLicense` | src/controllers/AdminController.ts:273-276 | removes exactly that license; an unknown id fails with no change |
| `AdminController.PageNumber` | src/controllers/AdminController.ts:33 | the page parameter, or 1 when it is absent, NaN or 0 |
| `AdminController.PageSize` | src/controllers/AdminController.ts:34 | the page-size parameter, or 10 when it is absent, NaN or 0 |
| `AdminController.Window` | src/controllers/AdminController.ts:66-72 | `skip`/`take`: at most `take` rows, the i-th being row `skip + i`; a full page when enough rows remain; a negative skip or take is an error |
| `AdminController.PagesTile` | src/controllers/AdminController.ts:68-69 | pages 1 to n, read in turn, return the first `n * pageSize` matches in order, each exactly once |
| `AdminController.DisplayStatus` | src/controllers/AdminController.ts:78-91 | EXPIRED iff stored EXPIRED, or ACTIVE and past expiry. INACTIVE iff ACTIVE, not past expiry, with no machine (or stored INACTIVE). ACTIVE iff ACTIVE, not past expiry, with a machine. SUSPENDED iff stored SUSPENDED |
| `AdminController.SuspendedShownOverExpiry` | src/controllers/AdminController.ts:84 | a SUSPENDED license past expiry is listed as SUSPENDED, although getInfo reports it expired |
| `AdminController.LicenseListItem` | src/controllers/AdminController.ts:75-104 | `rawStatus` is the stored status. `isPermanent` iff no expiry. `remainingDays` is `RemainingDays` of the expiry: 99999 when perpetual, else the truncated whole days to the expiry (below 99999 for any expiry under 99999 days ahead). `usedCount` is the machine count; `isActivated` iff `usedCount > 0`. `lastSeenAt` is the head machine's lastSeen, the latest for newest-first machines. `lastIp` is present iff the head machine has a nonempty ip, and is then that ip. Names fall back to the fingerprint |
| `AdminController.ListLicenses` | src/controllers/AdminController.ts:64-107 | total is the number of matches. The list is the requested window, each row projected by `LicenseListItem` |
| `AdminController.ListOnlineMeansUnderTenMinutes` | src/controllers/AdminController.ts:196-197 | fewer than 10 whole minutes since lastSeen iff less than 600 000 ms have passed |
| `AdminController.MachineListItem` | src/controllers/AdminController.ts:194-215 | online iff less than 10 minutes since lastSeen. The offline text carries the truncated whole minutes since lastSeen, which are at least 10. The name falls back to the unknown-device label. The license's key, remark and status are carried |
| `AdminController.ListMachines` | src/controllers/AdminController.ts:177-217 | total is the number of matches. The list is the requested window, each row projected by `MachineListItem` |
| `AdminController.OnlineMachines` | src/controllers/AdminController.ts:122-125 | a bound machine is online on the dashboard iff its lastSeen is no earlier than 10 minutes ago |
| `AdminController.GetStats` | src/controllers/AdminController.ts:114-158 | `inactiveLicenses = totalLicenses - activeLicenses`, which is the number of licenses with no machine (so `>= 0`). `onlineMachines` is the number of machines seen in the last 10 minutes, at most the bound machines. `expiringSoon` is the number of ACTIVE licenses with `now <= expiresAt <= now + 7` days, at most the total |
| `AdminController.ExpiringSoon` | src/controllers/AdminController.ts:133-138 | a license is expiring soon iff it is ACTIVE and its expiry lies between `now` and `now + 7` days, both ends included |
| `AdminController.OnlineTestsDifferAtTenMinutes` | src/controllers/AdminController.ts:122-197 | online in the machine list implies online on the dashboard; they disagree exactly when lastSeen is exactly 10 minutes ago |
| `Signer.SignResponse` | src/utils/Signer.ts:14-26 | the payload is returned unchanged. It is signed iff a key is loaded, with a signature that depends on the payload alone |
| `ClientController.ValidateResponse` | src/controllers/ClientController.ts:7-23 | success: 200 with the activation message. Any failure: 403 with `{success:false, error}`. Signed exactly once |
| `ClientController.HeartbeatResponse` | src/controllers/ClientController.ts:25-35 | success: `{success:true, alive:true}`. Failure: 403 with code KICKED iff the error's message equals the code text `SESSION_KICKED` (which holds exactly for a kicked session), else ERROR. Signed exactly once |
| `ClientController.CheckResponse` | src/controllers/ClientController.ts:39-60 | no key: 400. Success: the info fields. Failure: 403 with no code. Signed exactly once |
| `ClientController.ClientIp` | src/controllers/ClientController.ts:10 | the forwarded-for header when present, else the socket address |
| `ClientController.Validate` | src/controllers/ClientController.ts:7-23 | the response is `ValidateResponse` of activate's result; the store changes as `Activate` does |
| `ClientController.Heartbeat` | src/controllers/ClientController.ts:25-35 | the response is `HeartbeatResponse` of heartbeat's result; the store changes as `HeartbeatRequest` does |
| `ClientController.Check` | src/controllers/ClientController.ts:39-60 | a missing key answers 400 without calling getInfo, and the store is unchanged. Otherwise the response is `CheckResponse` of getInfo's result |
| `CronJob.Swept` | src/jobs/CronJob.ts:11-19 | an ACTIVE license with `expiresAt < now` becomes EXPIRED. Every other license is untouched, including SUSPENDED, EXPIRED and perpetual ones and those with `expiresAt >= now`. Only the status can change |
| `CronJob.Sweep` | src/jobs/CronJob.ts:11-19 | same keys. A row's status changes iff it is ACTIVE with `expiresAt < now`, and then to EXPIRED; perpetual rows and rows whose expiry is still ahead keep their status. Nothing else changes. Afterwards no ACTIVE license is past expiry |
| `CronJob.ExpirySweep` | src/jobs/CronJob.ts:10-22 | applies `Sweep` to the store; a failing update is caught and leaves the store unchanged |
| `CronJob.SweepKeepsConsistent` | src/jobs/CronJob.ts:11-19 | the sweep keeps the store's key, id and fingerprint constraints |
| `CronJob.SweepAgreesWithCheckExpiry` | src/jobs/CronJob.ts:14 | the sweep's `expiresAt < now` is `checkExpiry`'s test restricted to ACTIVE licenses |
| `CronJob.SweepIdempotent` | src/jobs/CronJob.ts:11-19 | sweeping twice at one instant equals sweeping once |
| `CronJob.SweepInvisibleToRequests` | src/jobs/CronJob.ts:11-19 | activate, heartbeat and getInfo answer the same, and leave the same row, whether or not the sweep ran first |

## Left out

- Cryptography: the RSA/SHA-256 signature is an opaque function carried by the loaded key. Unforgeability is not modelled. Reading `private.pem` becomes the choice between `NoKey` and `PrivateKey`.
- Concurrency: requests run one at a time and each is atomic. The source reads and then writes without a transaction, and two activations can race for the last slot. That race, and the `deleteMany` that tolerates a concurrent delete, are not modelled.
- Database queries: the keyword and `contains` search, the status and usage filters, `orderBy` and `count` are not modelled. The list functions take the matching rows, already ordered, as input.
- Prisma's negative `take` (paging backwards) is modelled as an error, like a negative `skip`.
- Calendar arithmetic: dayjs day addition (time zones, DST) is fixed 24-hour days on integer timestamps. Fractional `days`/`addDays` are not modelled.
- The wall clock is the parameter `now`. The uuid behind a new key is a parameter; upper-casing is modelled for ASCII letters only, which is all a uuid holds.
- Row ids come from a counter in the store. The database's own id scheme is not modelled.
- `deleteLicense`: only the removal of the license is modelled. Its machines live inside the license row here, so they go with it; the schema's cascade is not part of this model. An unknown id is reported as an error; in the source the rejection is unhandled.
- Admin error responses (HTTP 500 with the message) are `Err` results. The HTTP layer is not modelled.
- Express routing (`src/routes.ts`, `src/app.ts`), admin login (`src/controllers/AuthController.ts`), the seed and key-generation scripts, the cron schedule `'0 * * * *'` and all logging are not part of this model.
- Fields of the license table outside the core (creation time and the like) are not modelled. The `...item` spread in the license list carries the modelled row.
- Errors travel as kinds. `Records.Message` gives each kind's message. For the admin-only kinds (record not found, duplicate key, invalid query) the message is the database client's error code, not its full text. For the missing-machine case it is the TypeError text of the JavaScript engine.
- Null and `""` are one value. The machine list returns `platform`, `ip` and the license remark as stored, and the license list spreads `remark`. In those fields the JSON output distinguishes null from `""`, and the model does not.
- Request fields are assumed present. `key` and `fingerprint` go from the request body to the database client unchecked. An absent key makes the license lookup an invalid query, which the database client rejects with its own error, not the invalid-license message. An absent fingerprint matches no machine, so the request reaches the machine insert without one; for a full FLOATING license that happens after the victim has been deleted. The model types both fields as strings, so it does not model these cases; the database schema is not part of this model, so the exact rejection is not stated.
- The victim tie-break: when several machines share the oldest lastSeen, the database decides. The model leaves the choice open and proves only that the victim's lastSeen is minimal.
