/**
 * The monitor's two exchanges with the service directory: fetching the
 * roster of registered VPN servers, and the signed request that
 * deregisters dead ones. The HTTP exchanges are replaced by their outcomes.
 */
module Directory {
  import opened Wrappers
  import opened Cipher

  /** The only status the directory answers a successful deregistration with. */
  const StatusOK: int := 200

  /** Path of the roster query, appended to the directory's base URL. */
  const VPNListPath: string := "/api/services?type=vpn"

  /** Path of the deregistration route, appended to the directory's base URL. */
  const DeregisterPath: string := "/api/services/deregister/vpn"

  /** A service's network address: its public key and a port. */
  datatype SWAddr = SWAddr(pk: PubKey, port: nat)

  /** A registered service; only its address is used. */
  datatype Service = Service(addr: SWAddr)

  /** How the roster query went: each step of `getVPNs` can fail. */
  datatype RosterReply =
    | GetFailed(cause: string)
    | ReadFailed(cause: string)
    | DecodeFailed(cause: string)
    | Decoded(services: seq<Service>)

  /** The roster query: the decoded list, or the error of the step that failed (no partial data). */
  function GetVPNs(reply: RosterReply): (r: Result<seq<Service>, string>)
    ensures r.Success? <==> reply.Decoded?
    ensures r.Success? ==> r.value == reply.services
    ensures r.Failure? ==> r.error == reply.cause
  {
    match reply
    case GetFailed(e) => Failure(e)
    case ReadFailed(e) => Failure(e)
    case DecodeFailed(e) => Failure(e)
    case Decoded(data) => Success(data)
  }

  /** One key per listed service, in the order listed. */
  function KeysOf(services: seq<Service>): (keys: seq<PubKey>)
    ensures |keys| == |services|
    ensures forall i :: 0 <= i < |services| ==> keys[i] == services[i].addr.pk
  {
    if services == [] then []
    else KeysOf(services[..|services| - 1]) + [services[|services| - 1].addr.pk]
  }

  /** The DELETE request the reporter sends; its body is the list of hex keys. */
  datatype Request = Request(verb: string, url: string, body: seq<string>)

  /** How each step of a deregistration request goes: URL parse, body marshal, send (status or error). */
  datatype ReportEnv = ReportEnv(urlParse: Option<string>, marshal: Option<string>, response: Result<int, string>)

  /** Why a deregistration request failed. */
  datatype ReportError =
    | BadURL(cause: string)
    | BadKeys(cause: string)
    | SendFailed(cause: string)
    | BadStatus(code: int)

  /** The request sent, if one was, and the error returned, if any. */
  datatype Report = Report(sent: Option<Request>, err: Option<ReportError>)

  /**
   * Sends one DELETE with `keys` as body to `rawURL`. A request goes out
   * only when the URL parses and the keys marshal; the result is no error
   * exactly when it went out and was answered with status 200.
   */
  function DeregisterRequest(keys: seq<string>, rawURL: string, env: ReportEnv): (r: Report)
    ensures r.sent.Some? <==> env.urlParse.None? && env.marshal.None?
    ensures r.sent.Some? ==> r.sent.value == Request("DELETE", rawURL, keys)
    ensures r.err.None? <==> r.sent.Some? && env.response == Success(StatusOK)
    ensures env.urlParse.Some? ==> r.err == Some(BadURL(env.urlParse.value))
    ensures env.urlParse.None? && env.marshal.Some? ==> r.err == Some(BadKeys(env.marshal.value))
    ensures r.sent.Some? && env.response.Failure? ==> r.err == Some(SendFailed(env.response.error))
    ensures r.sent.Some? && env.response.Success? && env.response.value != StatusOK ==>
      r.err == Some(BadStatus(env.response.value))
  {
    if env.urlParse.Some? then Report(None, Some(BadURL(env.urlParse.value)))
    else if env.marshal.Some? then Report(None, Some(BadKeys(env.marshal.value)))
    else
      var req := Request("DELETE", rawURL, keys);
      match env.response
      case Failure(e) => Report(Some(req), Some(SendFailed(e)))
      case Success(code) =>
        if code != StatusOK then Report(Some(req), Some(BadStatus(code)))
        else Report(Some(req), None)
  }
}
