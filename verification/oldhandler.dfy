/**
 * The proxy call handler of the store-backed generation.  Mocking is tried
 * unless the call disables it, metadata first and then the request body;
 * a call that insists on a mock and gets none fails with NotFound.
 */
module OldHandler {
  import opened Wrappers
  import opened Types
  import opened Metadata
  import opened Settings
  import opened Relay
  import opened CaseMatch
  import Match
  import Director
  import Handler

  /** shouldMock: mocking is tried unless some value under the enable key is the disable value. */
  function ShouldMock(conf: ProxyConf, md: MD): (b: bool)
    ensures b <==> !HasValue(md, conf.enableKey, conf.disableValue)
  {
    var values := set v | v in Values(md, conf.enableKey);
    conf.disableValue !in values
  }

  /** mustMock: a mock is demanded when some value under the enable key is the enable value. */
  function MustMock(conf: ProxyConf, md: MD): (b: bool)
    ensures b <==> HasValue(md, conf.enableKey, conf.enableValue)
  {
    var values := set v | v in Values(md, conf.enableKey);
    conf.enableValue in values
  }

  /** Everything a call did, in the order the handler does it. */
  datatype Trace = Trace(
    status: CallStatus,
    routed: bool,
    recvs: nat,
    metaAsked: Option<ReqMeta>,
    bodyAsked: bool,
    mockType: Match.MatchedType,
    streamOpened: bool,
    toCaller: seq<Event>,
    toBackend: seq<Bytes>,
    closedSend: bool,
    cancelled: bool)

  const NoMethod := "lowLevelServerStream not exists in context"
  const NoMetadata := "metadata not exists in context"
  const MatchFailed := "matched fail, check request and cases"

  function Refused(status: CallStatus, routed: bool): Trace
  {
    Trace(status, routed, 0, None, false, Match.MatchedNone, false, [], [], false, false)
  }

  /** The result of doMock: the match type, what the caller was sent, and whether the body matcher panicked. */
  datatype Mocked = Mocked(mockType: Match.MatchedType, events: seq<Event>, crashed: bool)

  /** The handler, wired with the settings, the shared director and the two matchers. */
  class OldProxyHandler {
    const conf: ProxyConf
    const director: Director.GrpcManager
    const byMeta: ReqMeta -> Option<Msg>
    const byBody: (Bytes, ReqMeta) -> Verdict

    constructor (conf: ProxyConf, director: Director.GrpcManager, byMeta: ReqMeta -> Option<Msg>, byBody: (Bytes, ReqMeta) -> Verdict)
      ensures this.conf == conf && this.director == director && this.byMeta == byMeta && this.byBody == byBody
    {
      this.conf := conf;
      this.director := director;
      this.byMeta := byMeta;
      this.byBody := byBody;
    }

    /** doMock: the body matcher is asked only when the metadata matcher has no answer. */
    function DoMockSpec(reqBytes: Bytes, meta: ReqMeta): (r: Mocked)
      ensures byMeta(meta).Some? ==> r == Mocked(Match.MatchedMetaData, MockEvents(byMeta(meta)), false)
      ensures byMeta(meta).None? && byBody(reqBytes, meta).Hit? ==>
        r == Mocked(Match.MatchedBody, MockEvents(Some(byBody(reqBytes, meta).resp)), false)
      ensures r.crashed <==> byMeta(meta).None? && byBody(reqBytes, meta) == Crash
      ensures r.mockType == Match.MatchedNone <==> r.events == []
    {
      match byMeta(meta)
      case Some(m) => Mocked(Match.MatchedMetaData, MockEvents(Some(m)), false)
      case None =>
        match byBody(reqBytes, meta)
        case Hit(m) => Mocked(Match.MatchedBody, MockEvents(Some(m)), false)
        case Miss => Mocked(Match.MatchedNone, [], false)
        case Crash => Mocked(Match.MatchedNone, [], true)
    }

    method DoMock(reqBytes: Bytes, meta: ReqMeta) returns (r: Mocked)
      ensures r == DoMockSpec(reqBytes, meta)
    {
      var matched := false;
      var response: Option<Msg> := None;
      var crashed := false;
      var mt := Match.MatchedNone;
      var fromMeta := byMeta(meta);
      matched, response := fromMeta.Some?, fromMeta;
      if matched {
        mt := Match.MatchedMetaData;
      } else {
        var v := byBody(reqBytes, meta);
        if v.Crash? {
          crashed := true;
        } else {
          matched := v.Hit?;
          response := if v.Hit? then Some(v.resp) else None;
          if matched {
            mt := Match.MatchedBody;
          }
        }
      }
      // the deferred send
      var events: seq<Event> := [];
      if matched {
        events := MockEvents(response);
      }
      r := Mocked(mt, events, crashed);
    }

    /** The whole call; the director must have been handed a route table. */
    function Spec(call: Handler.Call, backend: Backend): (t: Trace)
      requires director.method2Cli.Some?
      reads director
    {
      if call.methodName.None? then Refused(Internal(NoMethod), false)
      else if call.md.None? then Refused(Internal(NoMetadata), false)
      else
        var name := call.methodName.value;
        var md := call.md.value;
        var app := First(md, conf.testedAppNameKey);
        var routed := Director.Route(director.method2Cli.value, name);
        if routed.Err? then Refused(Raised(Broken(routed.error)), true)
        else
          var reqBytes := LastFrame(call.inbound.frames);
          var recvs := |call.inbound.frames| + 1;
          var meta := ReqMeta(name, app, map[]);
          var shouldMock := ShouldMock(conf, md);
          var mocked := if shouldMock then DoMockSpec(reqBytes, meta) else Mocked(Match.MatchedNone, [], false);
          var metaAsked := if shouldMock then Some(meta) else None;
          var bodyAsked := shouldMock && byMeta(meta).None?;
          if mocked.crashed then
            Trace(Panic, true, recvs, metaAsked, bodyAsked, Match.MatchedNone, false, [], [], false, false)
          else if mocked.mockType != Match.MatchedNone then
            Trace(StatusOK, true, recvs, metaAsked, bodyAsked, mocked.mockType, false, mocked.events, [], false, false)
          else if shouldMock && MustMock(conf, md) then
            Trace(CallStatus.NotFound(MatchFailed), true, recvs, metaAsked, bodyAsked, Match.MatchedNone, false, [], [], false, false)
          else
            var p := ProxySpec(reqBytes, call.inbound.end, call.callerSink, backend);
            Trace(p.status, true, recvs, metaAsked, bodyAsked, Match.MatchedNone, p.streamOpened, p.toCaller, p.toBackend,
                  p.closedSend, p.cancelled)
    }

    method Handle(call: Handler.Call, backend: Backend) returns (t: Trace)
      requires director.method2Cli.Some?
      ensures t == Spec(call, backend)
    {
      if call.methodName.None? {
        return Refused(Internal(NoMethod), false);
      }
      if call.md.None? {
        return Refused(Internal(NoMetadata), false);
      }
      var name := call.methodName.value;
      var md := call.md.value;
      var app := First(md, conf.testedAppNameKey);
      var _, conn, err := director.StreamDirector(md, name);
      if err.Some? {
        return Refused(Raised(Broken(err.value)), true);
      }
      var reqBytes, recvs := Drain(call.inbound);
      var meta := ReqMeta(name, app, map[]);
      var metaAsked: Option<ReqMeta> := None;
      var bodyAsked := false;
      if ShouldMock(conf, md) {
        metaAsked := Some(meta);
        bodyAsked := byMeta(meta).None?;
        var mocked := DoMock(reqBytes, meta);
        if mocked.crashed {
          return Trace(Panic, true, recvs, metaAsked, bodyAsked, Match.MatchedNone, false, [], [], false, false);
        }
        if mocked.mockType != Match.MatchedNone {
          return Trace(StatusOK, true, recvs, metaAsked, bodyAsked, mocked.mockType, false, mocked.events, [], false, false);
        }
        if MustMock(conf, md) {
          return Trace(CallStatus.NotFound(MatchFailed), true, recvs, metaAsked, bodyAsked, Match.MatchedNone, false, [], [], false, false);
        }
      }
      var p := ProxyCall(reqBytes, call.inbound.end, call.callerSink, backend);
      t := Trace(p.status, true, recvs, metaAsked, bodyAsked, Match.MatchedNone, p.streamOpened, p.toCaller, p.toBackend,
                 p.closedSend, p.cancelled);
    }

    /** Routing comes first: an unrouted method is refused before any frame is read or any matcher asked. */
    lemma RouteBeforeMock(call: Handler.Call, backend: Backend)
      requires director.method2Cli.Some?
      requires call.methodName.Some? && call.md.Some? && call.methodName.value !in director.method2Cli.value
      ensures var t := Spec(call, backend);
        t.status == Raised(Broken(Director.Unregistered)) && t.recvs == 0 && t.metaAsked.None? && !t.bodyAsked
    {
    }

    /** A call that disables mocking is proxied without asking either matcher. */
    lemma DisabledProxies(call: Handler.Call, backend: Backend)
      requires director.method2Cli.Some?
      requires call.methodName.Some? && call.md.Some? && call.methodName.value in director.method2Cli.value
      requires HasValue(call.md.value, conf.enableKey, conf.disableValue)
      ensures var t := Spec(call, backend);
        var p := ProxySpec(LastFrame(call.inbound.frames), call.inbound.end, call.callerSink, backend);
        t.metaAsked.None? && !t.bodyAsked && t.status == p.status && t.toCaller == p.toCaller && t.toBackend == p.toBackend
    {
    }

    /** The metadata matcher is asked first; when it answers, the body matcher is not asked. */
    lemma MetadataBeforeBody(call: Handler.Call, backend: Backend)
      requires director.method2Cli.Some?
      requires call.methodName.Some? && call.md.Some? && call.methodName.value in director.method2Cli.value
      requires !HasValue(call.md.value, conf.enableKey, conf.disableValue)
      requires byMeta(ReqMeta(call.methodName.value, First(call.md.value, conf.testedAppNameKey), map[])).Some?
      ensures var t := Spec(call, backend);
        var meta := ReqMeta(call.methodName.value, First(call.md.value, conf.testedAppNameKey), map[]);
        t.metaAsked == Some(meta) && !t.bodyAsked && t.status == StatusOK && !t.streamOpened &&
        t.mockType == Match.MatchedMetaData && t.toCaller == MockEvents(byMeta(meta))
    {
    }

    /** Demanding a mock and getting none fails with NotFound, without opening a backend stream; disabling wins over demanding. */
    lemma MustMockWithoutMatch(call: Handler.Call, backend: Backend)
      requires director.method2Cli.Some?
      requires call.methodName.Some? && call.md.Some? && call.methodName.value in director.method2Cli.value
      requires HasValue(call.md.value, conf.enableKey, conf.enableValue)
      requires var meta := ReqMeta(call.methodName.value, First(call.md.value, conf.testedAppNameKey), map[]);
        byMeta(meta).None? && byBody(LastFrame(call.inbound.frames), meta) == Miss
      ensures var t := Spec(call, backend);
        if HasValue(call.md.value, conf.enableKey, conf.disableValue) then t.metaAsked.None? && t.status != CallStatus.NotFound(MatchFailed)
        else t.status == CallStatus.NotFound(MatchFailed) && !t.streamOpened && t.toCaller == [] && t.toBackend == []
    {
    }

    /**
     * The matchers are handed no metadata: wired to the store-backed
     * metadata matcher, this phase never produces a mock.
     */
    lemma MatchersSeeNoMetadata(call: Handler.Call, backend: Backend, cases: Option<CaseTable>, desc: Option<MethodDesc>, engine: Engine)
      requires director.method2Cli.Some?
      ensures var t := Spec(call, backend);
        t.metaAsked.Some? ==>
          (t.metaAsked.value.md == map[] && ByMetaSpec(conf, cases, desc, engine, t.metaAsked.value).None?)
    {
      var t := Spec(call, backend);
      if t.metaAsked.Some? {
        NoMetadataNoMatch(conf, cases, desc, engine, t.metaAsked.value);
      }
    }
  }
}
