/** The enumerations shared by the server and its clients (src/enums.ts). */
module Enums {

  /** License status. ACTIVE, SUSPENDED and EXPIRED are stored; INACTIVE is only
      ever produced by the admin listing, for an active license with no machine. */
  datatype Status = ACTIVE | SUSPENDED | EXPIRED | INACTIVE

  /** The stored text of each status. */
  function StatusText(s: Status): (t: string)
    ensures |t| >= 6
    ensures forall i :: 0 <= i < |t| ==> 'A' <= t[i] <= 'Z'
  {
    match s
    case ACTIVE => "ACTIVE"
    case SUSPENDED => "SUSPENDED"
    case EXPIRED => "EXPIRED"
    case INACTIVE => "INACTIVE"
  }

  /** The text of a status identifies it, so a message quoting it names the
      status. */
  lemma StatusTextInjective(a: Status, b: Status)
    ensures StatusText(a) == StatusText(b) ==> a == b
  {
  }

  /** What activation does with a new machine when every slot is taken. */
  datatype Strategy =
    | FLOATING  // evict the machine seen least recently
    | STRICT    // refuse the new machine

  /** Error codes of the client protocol. */
  datatype ErrorCode =
    | KICKED  // 'SESSION_KICKED': the machine's binding is gone
    | ERROR   // 'ERROR': any other failure

  /** The wire text of each error code. */
  function CodeText(c: ErrorCode): (t: string)
    ensures t != []
    ensures c == KICKED <==> t == "SESSION_KICKED"
  {
    match c
    case KICKED => "SESSION_KICKED"
    case ERROR => "ERROR"
  }
}
