/**
 * One liveness probe of a VPN server: open a dmsg transport, run a
 * vpn-client session against the server, classify the outcome, remove the
 * transport. The visor (the monitor's own node, whose app-control calls do
 * the network work) is replaced by the replies it gives, and each probe
 * also returns the visor calls it issued, in order.
 */
module Probe {
  import opened Wrappers
  import opened Cipher
  import opened Vpn

  /** The transport type used for probes. */
  const DMSG: string := "dmsg"

  /** The client application started for each probe. */
  const VPNClientName: string := "vpn-client"

  /** One entry of an app's connection summary; only its latency is read. */
  datatype ConnectionSummary = ConnectionSummary(latency: int)

  /** What `AddTransport` returns on success; only its id is used. */
  datatype TransportSummary = TransportSummary(id: nat)

  /** A call issued to the visor. */
  datatype VisorCall =
    | AddTransport(remote: PubKey, tpType: string)
    | SetAppPK(app: string, pk: PubKey)
    | StartApp(app: string)
    | GetAppError(app: string)
    | GetAppConnectionsSummary(app: string)
    | StopApp(app: string)
    | RemoveTransport(id: nat)

  /**
   * The visor's answers to the calls of one probe, one field per call. A
   * failing call answers with its error text: the visor cannot produce the
   * vpn sentinels, which belong to a package internal to the monitor's
   * repository.
   */
  datatype VisorReplies = VisorReplies(
    addTransport: Result<TransportSummary, string>,
    setAppPK: Option<string>,
    startApp: Option<string>,
    appError: string,
    connectionsSummary: Result<seq<ConnectionSummary>, string>,
    stopApp: Option<string>,
    removeTransport: Option<string>)

  /** The result of a client session, with the visor calls it made. */
  datatype Session = Session(summary: seq<ConnectionSummary>, err: Option<Error>, calls: seq<VisorCall>)

  /** The verdict of a probe, with the visor calls it made. */
  datatype ProbeResult = ProbeResult(online: bool, calls: seq<VisorCall>)

  /** The calls a client session makes when nothing fails. */
  function SessionCalls(app: string, pk: PubKey): seq<VisorCall>
  {
    [SetAppPK(app, pk), StartApp(app), GetAppError(app), GetAppConnectionsSummary(app), StopApp(app)]
  }

  /** True when the app started, i.e. neither `SetAppPK` nor `StartApp` failed. */
  predicate Started(v: VisorReplies)
  {
    v.setAppPK.None? && v.startApp.None?
  }

  /** True when the app-error text is that of one of the three sentinels. */
  predicate IsSentinelText(texts: SentinelTexts, appErr: string)
  {
    appErr == texts.setupNode || appErr == texts.notPermitted || appErr == texts.serverOffline
  }

  /** The closed rule for a connected probe: no error, or one of the two benign sentinels. */
  predicate Benign(err: Option<Error>)
  {
    err == None || err == Some(ErrSetupNode) || err == Some(ErrNotPermitted)
  }

  /**
   * Runs the vpn-client app against `serverPK`. Every failure returns its
   * error with an empty summary; the app-error text is mapped to a sentinel,
   * tried in the order set-up node, not permitted, server offline; only full
   * success returns the fetched summary with no error.
   */
  function RunVpnClient(v: VisorReplies, serverPK: PubKey, appName: string, texts: SentinelTexts): (s: Session)
    ensures s.calls <= SessionCalls(appName, serverPK) && |s.calls| >= 1
    ensures s.err.Some? ==> s.summary == []
    ensures s.err.None? <==>
      Started(v) && !IsSentinelText(texts, v.appError) && v.connectionsSummary.Success? && v.stopApp.None?
    ensures s.err.None? ==>
      s.summary == v.connectionsSummary.value && s.calls == SessionCalls(appName, serverPK)
    ensures v.setAppPK.Some? ==> s.err == Some(OtherError(v.setAppPK.value)) && |s.calls| == 1
    ensures v.setAppPK.None? && v.startApp.Some? ==> s.err == Some(OtherError(v.startApp.value)) && |s.calls| == 2
    ensures Started(v) && v.appError == texts.setupNode ==> s.err == Some(ErrSetupNode) && |s.calls| == 3
    ensures Started(v) && v.appError != texts.setupNode && v.appError == texts.notPermitted ==>
      s.err == Some(ErrNotPermitted) && |s.calls| == 3
    ensures (Started(v) && v.appError != texts.setupNode && v.appError != texts.notPermitted
             && v.appError == texts.serverOffline) ==> s.err == Some(ErrServerOffline) && |s.calls| == 3
    ensures Started(v) && !IsSentinelText(texts, v.appError) && v.connectionsSummary.Failure? ==>
      s.err == Some(OtherError(v.connectionsSummary.error)) && |s.calls| == 4
    ensures (Started(v) && !IsSentinelText(texts, v.appError) && v.connectionsSummary.Success?
             && v.stopApp.Some?) ==> s.err == Some(OtherError(v.stopApp.value)) && |s.calls| == 5
  {
    var all := SessionCalls(appName, serverPK);
    if v.setAppPK.Some? then Session([], Some(OtherError(v.setAppPK.value)), all[..1])
    else if v.startApp.Some? then Session([], Some(OtherError(v.startApp.value)), all[..2])
    else if v.appError == texts.setupNode then Session([], Some(ErrSetupNode), all[..3])
    else if v.appError == texts.notPermitted then Session([], Some(ErrNotPermitted), all[..3])
    else if v.appError == texts.serverOffline then Session([], Some(ErrServerOffline), all[..3])
    else match v.connectionsSummary
      case Failure(e) => Session([], Some(OtherError(e)), all[..4])
      case Success(sum) =>
        if v.stopApp.Some? then Session([], Some(OtherError(v.stopApp.value)), all)
        else Session(sum, None, all)
  }

  /**
   * Probes one server. A failed `AddTransport` is dead at once, with no
   * session and no removal. Once connected the verdict follows the session
   * error alone, and the transport removal is issued on every connected
   * path whatever it answers.
   */
  function IsOnline(key: PubKey, texts: SentinelTexts, v: VisorReplies): (p: ProbeResult)
    ensures v.addTransport.Failure? ==> !p.online && p.calls == [AddTransport(key, DMSG)]
    ensures v.addTransport.Success? ==>
      var s := RunVpnClient(v, key, VPNClientName, texts);
      && (p.online <==> Benign(s.err))
      && p.calls == [AddTransport(key, DMSG)] + s.calls + [RemoveTransport(v.addTransport.value.id)]
  {
    match v.addTransport
    case Failure(_) => ProbeResult(false, [AddTransport(key, DMSG)])
    case Success(tp) =>
      var s := RunVpnClient(v, key, VPNClientName, texts);
      var ok := match s.err
        case None => true
        case Some(ErrSetupNode) => true
        case Some(ErrNotPermitted) => true
        case Some(_) => false;
      // the removal's own error is only logged
      ProbeResult(ok, [AddTransport(key, DMSG)] + s.calls + [RemoveTransport(tp.id)])
  }

  /**
   * An app-error text that is none of the three sentinel texts is not
   * treated as an error: when the summary and the stop calls succeed the
   * session returns no error and the server is counted online.
   */
  lemma UnrecognisedAppErrorIgnored(key: PubKey, texts: SentinelTexts, v: VisorReplies)
    requires v.addTransport.Success? && Started(v)
    requires v.appError != "" && !IsSentinelText(texts, v.appError)
    requires v.connectionsSummary.Success? && v.stopApp.None?
    ensures RunVpnClient(v, key, VPNClientName, texts).err == None
    ensures IsOnline(key, texts, v).online
  {
  }

  /** Connected servers reporting "server offline", or any other error, are dead. */
  lemma OfflineIsDead(key: PubKey, texts: SentinelTexts, v: VisorReplies)
    requires v.addTransport.Success?
    requires RunVpnClient(v, key, VPNClientName, texts).err.Some?
    requires RunVpnClient(v, key, VPNClientName, texts).err.value !in {ErrSetupNode, ErrNotPermitted}
    ensures !IsOnline(key, texts, v).online
  {
  }

  /** The latencies in the summary, zero or not, never change the verdict. */
  lemma VerdictIgnoresLatency(key: PubKey, texts: SentinelTexts, v: VisorReplies, other: seq<ConnectionSummary>)
    requires v.connectionsSummary.Success?
    ensures IsOnline(key, texts, v).online == IsOnline(key, texts, v.(connectionsSummary := Success(other))).online
  {
  }

  /** What `RemoveTransport` answers changes neither the verdict nor the calls made. */
  lemma VerdictIgnoresTeardown(key: PubKey, texts: SentinelTexts, v: VisorReplies, removal: Option<string>)
    ensures IsOnline(key, texts, v) == IsOnline(key, texts, v.(removeTransport := removal))
  {
  }

  /** What a connected probe's session came to, as the classification sees it. */
  datatype SessionResult = Ok(summary: seq<ConnectionSummary>) | SetupNode | NotPermitted | ServerOffline | OtherErr

  /** How a probe went: no transport, or a transport, a session and whether its removal succeeded. */
  datatype ProbeOutcome = ConnFail | Connected(session: SessionResult, removeOk: bool)

  /**
   * The closed classification rule: a probe that could not connect is dead;
   * a connected one is alive after a clean session or one refused as a
   * set-up node or as not permitted, and dead after anything else.
   */
  predicate Alive(o: ProbeOutcome)
  {
    match o
    case ConnFail => false
    case Connected(session, _) => session.Ok? || session.SetupNode? || session.NotPermitted?
  }

  /** The session result the visor's replies amount to, read off the replies in the order the client runs. */
  function SessionOf(v: VisorReplies, texts: SentinelTexts): SessionResult
  {
    if !Started(v) then OtherErr
    else if v.appError == texts.setupNode then SetupNode
    else if v.appError == texts.notPermitted then NotPermitted
    else if v.appError == texts.serverOffline then ServerOffline
    else if v.connectionsSummary.Failure? || v.stopApp.Some? then OtherErr
    else Ok(v.connectionsSummary.value)
  }

  /** The outcome the visor's replies amount to. */
  function OutcomeOf(v: VisorReplies, texts: SentinelTexts): ProbeOutcome
  {
    if v.addTransport.Failure? then ConnFail
    else Connected(SessionOf(v, texts), v.removeTransport.None?)
  }

  /**
   * The session's error is the error kind of the session result: none for a
   * clean session (with its summary), the matching sentinel for the three
   * recognised app errors, and some other error otherwise.
   */
  lemma SessionErrorKind(v: VisorReplies, pk: PubKey, texts: SentinelTexts)
    ensures var s := RunVpnClient(v, pk, VPNClientName, texts);
      match SessionOf(v, texts)
      case Ok(sum) => s.err == None && s.summary == sum
      case SetupNode => s.err == Some(ErrSetupNode)
      case NotPermitted => s.err == Some(ErrNotPermitted)
      case ServerOffline => s.err == Some(ErrServerOffline)
      case OtherErr => s.err.Some? && s.err.value.OtherError?
  {
  }

  /** The probe's verdict is the classification rule applied to the probe's outcome. */
  lemma IsOnlineClassifies(key: PubKey, texts: SentinelTexts, v: VisorReplies)
    ensures IsOnline(key, texts, v).online == Alive(OutcomeOf(v, texts))
  {
    if v.addTransport.Success? {
      SessionErrorKind(v, key, texts);
    }
  }
}
