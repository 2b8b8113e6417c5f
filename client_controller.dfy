/** The client handlers (src/controllers/ClientController.ts; only validate
    and heartbeat are routed): each calls the binding engine and maps its
    result, or the error it throws, to a signed response body and an HTTP
    status. */
module ClientController {
  import opened Enums
  import opened Records
  import opened Store
  import opened LicenseService
  import Signer

  /** The `code` field of a failed heartbeat: 'KICKED' or 'ERROR' (the wire
      text of the code, not the error message it was decided on). */
  datatype HeartbeatCode = Kicked | Generic

  /** The response bodies, before signing. */
  datatype Body =
    | Welcome(greeting: Greeting)                         // {success: true, valid: true, message}
    | Alive                                               // {success: true, alive: true}
    | Details(info: Info)                                 // {success: true, valid: true, status, ...}
    | Refusal(code: Option<HeartbeatCode>, error: Failure) // {success: false, code?, error}

  predicate Succeeded(b: Body)
  {
    !b.Refusal?
  }

  datatype Response = Response(httpStatus: int, body: Signer.Envelope<Body>)

  /** The response of `validate` for the result of activate. */
  function ValidateResponse(key: Signer.SigningKey<Body>, r: Result<Greeting>): (resp: Response)
    ensures resp.body == Signer.SignResponse(key, resp.body.data)
    ensures Succeeded(resp.body.data) <==> r.Ok?
    ensures r.Ok? ==> resp.httpStatus == 200 && resp.body.data == Welcome(r.value)
    ensures r.Err? ==> resp.httpStatus == 403 && resp.body.data == Refusal(None, r.error)
  {
    match r
    case Ok(greeting) => Response(200, Signer.SignResponse(key, Welcome(greeting)))
    case Err(e) => Response(403, Signer.SignResponse(key, Refusal(None, e)))
  }

  /** The response of `heartbeat` for the result of heartbeat: only the error
      SESSION_KICKED carries the code KICKED. */
  function HeartbeatResponse(key: Signer.SigningKey<Body>, r: Result<()>): (resp: Response)
    ensures resp.body == Signer.SignResponse(key, resp.body.data)
    ensures Succeeded(resp.body.data) <==> r.Ok?
    ensures r.Ok? ==> resp.httpStatus == 200 && resp.body.data == Alive
    ensures r.Err? ==> (resp.httpStatus == 403 && resp.body.data.Refusal? &&
      resp.body.data.error == r.error && resp.body.data.code.Some?)
    // the code is decided on the error's message, which is the protocol code
    // SESSION_KICKED exactly for a kicked session
    ensures r.Err? ==> (resp.body.data.code == Some(Kicked) <==> Message(r.error) == CodeText(KICKED))
    ensures r.Err? ==> (resp.body.data.code == Some(Kicked) <==> r.error == SessionKicked)
  {
    match r
    case Ok(_) => Response(200, Signer.SignResponse(key, Alive))
    case Err(e) =>
      var code := if Message(e) == CodeText(KICKED) then Kicked else Generic;
      Response(403, Signer.SignResponse(key, Refusal(Some(code), e)))
  }

  /** The response of `check`: 400 without a key, else the result of getInfo. */
  function CheckResponse(key: Signer.SigningKey<Body>, licenseKey: string, r: Result<Info>): (resp: Response)
    ensures resp.body == Signer.SignResponse(key, resp.body.data)
    ensures licenseKey == "" ==> resp.httpStatus == 400 && resp.body.data == Refusal(None, MissingKey)
    ensures licenseKey != "" && r.Ok? ==> resp.httpStatus == 200 && resp.body.data == Details(r.value)
    ensures licenseKey != "" && r.Err? ==> resp.httpStatus == 403 && resp.body.data == Refusal(None, r.error)
    ensures resp.body.data.Refusal? ==> resp.body.data.code.None?
  {
    if licenseKey == "" then Response(400, Signer.SignResponse(key, Refusal(None, MissingKey)))
    else match r
      case Ok(info) => Response(200, Signer.SignResponse(key, Details(info)))
      case Err(e) => Response(403, Signer.SignResponse(key, Refusal(None, e)))
  }

  /** The client's address: the forwarded-for header when present, else the
      socket's peer address. */
  function ClientIp(forwardedFor: string, remoteAddress: string): (ip: string)
    ensures forwardedFor != "" ==> ip == forwardedFor
    ensures forwardedFor == "" ==> ip == remoteAddress
  {
    if forwardedFor != "" then forwardedFor else remoteAddress
  }

  method Validate(store: LicenseStore, signer: Signer.SigningKey<Body>, key: string, fp: string,
                  platform: string, hostname: string, forwardedFor: string, remoteAddress: string, now: Time)
    returns (resp: Response, ghost result: Result<Greeting>, ghost victim: nat)
    requires store.Valid()
    modifies store
    ensures store.Valid()
    ensures resp == ValidateResponse(signer, result)
    ensures key !in old(store.licenses) ==>
      result == Err(InvalidLicense) && store.licenses == old(store.licenses)
    ensures key in old(store.licenses) ==>
      var lic := old(store.licenses)[key];
      (lic.machines != [] ==> IsOldest(lic.machines, victim)) &&
      var o := Activation(lic, fp, Meta(ClientIp(forwardedFor, remoteAddress), platform, hostname),
                          now, old(store.nextId), victim);
      result == o.result && store.licenses == old(store.licenses)[key := o.license]
  {
    var ip := ClientIp(forwardedFor, remoteAddress);
    var r;
    r, victim := Activate(store, key, fp, Meta(ip, platform, hostname), now);
    result := r;
    match r {
      case Ok(greeting) => resp := Response(200, Signer.SignResponse(signer, Welcome(greeting)));
      case Err(e) => resp := Response(403, Signer.SignResponse(signer, Refusal(None, e)));
    }
  }

  method Heartbeat(store: LicenseStore, signer: Signer.SigningKey<Body>, key: string, fp: string, now: Time)
    returns (resp: Response)
    requires store.Valid()
    modifies store
    ensures store.Valid()
    ensures key !in old(store.licenses) ==>
      resp == HeartbeatResponse(signer, Err(InvalidLicense)) && store.licenses == old(store.licenses)
    ensures key in old(store.licenses) ==>
      var o := LicenseService.Heartbeat(old(store.licenses)[key], fp, now);
      resp == HeartbeatResponse(signer, o.result) && store.licenses == old(store.licenses)[key := o.license]
  {
    var r := HeartbeatRequest(store, key, fp, now);
    match r {
      case Ok(_) => resp := Response(200, Signer.SignResponse(signer, Alive));
      case Err(e) =>
        var code := if Message(e) == CodeText(KICKED) then Kicked else Generic;
        resp := Response(403, Signer.SignResponse(signer, Refusal(Some(code), e)));
    }
  }

  method Check(store: LicenseStore, signer: Signer.SigningKey<Body>, key: string, now: Time)
    returns (resp: Response)
    requires store.Valid()
    modifies store
    ensures store.Valid()
    ensures key == "" ==>
      resp == CheckResponse(signer, key, Err(MissingKey)) && store.licenses == old(store.licenses)
    ensures key != "" && key !in old(store.licenses) ==>
      resp == CheckResponse(signer, key, Err(InvalidLicense)) && store.licenses == old(store.licenses)
    ensures key != "" && key in old(store.licenses) ==>
      var o := Inspection(old(store.licenses)[key], now);
      resp == CheckResponse(signer, key, o.result) && store.licenses == old(store.licenses)[key := o.license]
  {
    if key == "" {
      return Response(400, Signer.SignResponse(signer, Refusal(None, MissingKey)));
    }
    var r := GetInfo(store, key, now);
    match r {
      case Ok(info) => resp := Response(200, Signer.SignResponse(signer, Details(info)));
      case Err(e) => resp := Response(403, Signer.SignResponse(signer, Refusal(None, e)));
    }
  }
}
