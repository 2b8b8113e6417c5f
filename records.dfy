/** The rows of the license store, the error kinds of the service, and the
    time arithmetic they share. */
module Records {
  import opened Enums

  datatype Option<T> = None | Some(value: T)

  /** The outcome of a request: a value, or the error the source throws. */
  datatype Result<T> = Ok(value: T) | Err(error: Failure)

  /** Errors thrown by the service and the admin surface, by kind rather than by
      their (Chinese) message text. */
  datatype Failure =
    | InvalidLicense            // no license has this key
    | LicenseExpired            // the license is past its expiry
    | Unavailable(status: Status) // the license is not ACTIVE; the message quotes the status
    | CapacityReached           // every slot is taken and the strategy is STRICT
    | SessionKicked             // heartbeat from a machine that is no longer bound
    | NoMachineToEvict          // FLOATING at capacity with no machine at all: the source
                                // reads a field of machines[0] == undefined and throws
    | MissingKey                // check called without a key
    | RecordNotFound            // the database has no license with this id
    | DuplicateKey              // the unique index on the key refuses an insert
    | InvalidQuery              // a negative skip or take in a list query

  /** The message of the error thrown for each kind. The service throws the
      protocol code SESSION_KICKED as the message of a kicked heartbeat, and
      prose for every other failure; the admin-only kinds carry the database
      client's error code instead of its full text. */
  function Message(f: Failure): (m: string)
    ensures m != []
    ensures m == CodeText(KICKED) <==> f == SessionKicked
    ensures f.Unavailable? ==> m == "授权码不可用: " + StatusText(f.status)
  {
    match f
    case InvalidLicense => "授权码无效"
    case LicenseExpired => "授权码已过期"
    case Unavailable(s) =>
      var m := "授权码不可用: " + StatusText(s);
      assert m[0] != CodeText(KICKED)[0];
      m
    case CapacityReached => "机器数量已达上限"
    case SessionKicked => CodeText(KICKED)
    case NoMachineToEvict => "Cannot read properties of undefined (reading 'fingerprint')"
    case MissingKey => "缺少授权码"
    case RecordNotFound => "P2025"
    case DuplicateKey => "P2002"
    case InvalidQuery => "PrismaClientValidationError"
  }

  /** Timestamps are milliseconds since the epoch; the clock is a parameter. */
  type Time = int
  type Id = nat

  const MINUTE: int := 60_000
  const DAY: int := 86_400_000

  /** The "remaining days" value reported for a license without expiry. */
  const PERPETUAL_DAYS: int := 99999

  /** A bound client machine. Absent text fields are "" (null and "" agree
      wherever the source tests a field for truthiness, but not where it
      returns a field as stored). */
  datatype Machine = Machine(
    id: Id,
    fingerprint: string,
    lastSeen: Time,
    ip: string,
    platform: string,
    name: string)

  datatype License = License(
    id: Id,
    key: string,
    status: Status,
    expiresAt: Option<Time>,
    maxMachines: int,
    strategy: Strategy,
    remark: string,
    machines: seq<Machine>)

  /** What a client reports about itself when it activates. */
  datatype Meta = Meta(ip: string, platform: string, hostname: string)

  /** Integer division truncating toward zero, as dayjs' `diff` reports whole
      units (Dafny's own `/` rounds toward negative infinity for a negative
      dividend). */
  function TruncDiv(a: int, b: int): (q: int)
    requires b > 0
    ensures a >= 0 ==> q * b <= a < q * b + b
    ensures a < 0 ==> q * b - b < a <= q * b
  {
    if a >= 0 then a / b else -((-a) / b)
  }

  /** No two machines of one license share a fingerprint. */
  ghost predicate UniqueFingerprints(ms: seq<Machine>)
  {
    forall i, j :: 0 <= i < |ms| && 0 <= j < |ms| && ms[i].fingerprint == ms[j].fingerprint ==> i == j
  }

  /** Whether some machine in `ms` has fingerprint `fp`. */
  predicate Bound(ms: seq<Machine>, fp: string)
  {
    exists i :: 0 <= i < |ms| && ms[i].fingerprint == fp
  }

  /** The sequence without its element at position `i`. */
  function RemoveAt<T>(s: seq<T>, i: nat): (r: seq<T>)
    requires i < |s|
    ensures |r| == |s| - 1
    ensures forall j :: 0 <= j < i ==> r[j] == s[j]
    ensures forall j :: i <= j < |r| ==> r[j] == s[j + 1]
    ensures multiset(r) + multiset{s[i]} == multiset(s)
  {
    assert s == s[..i] + [s[i]] + s[i + 1..];
    s[..i] + s[i + 1..]
  }
}
