/**
 * The proxy call handler of the in-memory generation: check the call's
 * context, route it, drain the caller's frames, ask the matcher, and either
 * answer with the mock or proxy to the backend.
 */
module Handler {
  import opened Wrappers
  import opened Types
  import opened Metadata
  import opened Relay
  import Match
  import Settings
  import CaseManager
  import DialManager

  /** The server stream as the handler finds it. */
  datatype Call = Call(methodName: Option<string>, md: Option<MD>, inbound: Inbound, callerSink: Sink)

  /** Everything a call did, in the order the handler does it. */
  datatype Trace = Trace(
    status: CallStatus,
    routed: bool,
    recvs: nat,
    asked: Option<Match.Request>,
    mockType: Match.MatchedType,
    streamOpened: bool,
    toCaller: seq<Event>,
    toBackend: seq<Bytes>,
    closedSend: bool,
    cancelled: bool)

  const NoMethod := "lowLevelServerStream not exists in context"
  const NoMetadata := "metadata not exists in context"

  function Refused(status: CallStatus, routed: bool): Trace
  {
    Trace(status, routed, 0, None, Match.MatchedNone, false, [], [], false, false)
  }

  /**
   * doMock as written: a matcher error is answered with `resp.MatchType`,
   * but the response is nil on every error path of the matcher, so this
   * dereference needs the matcher to have succeeded.
   */
  predicate DerefSafe(r: Result<Match.Response, Match.MatchError>)
  {
    r.Ok?
  }

  function DoMockAsWritten(r: Result<Match.Response, Match.MatchError>): (out: (Match.MatchedType, seq<Event>))
    requires DerefSafe(r)
    ensures out.0 == r.value.matchType
    ensures out.1 != [] <==> out.0 != Match.MatchedNone
  {
    if r.value.matchType != Match.MatchedNone then (r.value.matchType, MockEvents(r.value.mockResp))
    else (Match.MatchedNone, [])
  }

  /**
   * A matcher error on a call the director routes: the method is routed, so
   * UpstreamClient finds its client, and the case named in the metadata
   * exists, but its body does not decode into the output type.
   */
  lemma MatcherErrorReachesDoMock(conf: Settings.MatchConf, codec: Match.Codec, req: Match.Request)
    requires conf == Settings.DefaultMatchConf
    requires req == Match.Request("/pkg.Svc/Get", map["mock" := ["yes"], "case_name" := ["c1"]], [])
    requires codec.decodeBody(MessageType("pkg.Reply"), "not json").None?
    ensures var get := MethodDesc("Get", "/pkg.Svc/Get", MessageType("pkg.Req"), MessageType("pkg.Reply"));
      var client := DialManager.RpcClient(DialManager.UpstreamConf("up", ["127.0.0.1:9000"]), Conn("127.0.0.1:9000"),
                                          [ServiceDesc("Svc", "pkg.Svc", [get])]);
      var reg := DialManager.Registry(map["up" := client], map["/pkg.Svc/Get" := client]);
      var cases := map["/pkg.Svc/Get" := map["c1" := Case("", "/pkg.Svc/Get", "c1", "", "not json")]];
      var r := Match.MetadataSpec(conf, cases, reg, codec, req);
      req.fullMethodName in reg.methodClient && r == Err(Match.BodyUndecodable) && !DerefSafe(r)
  {
    var get := MethodDesc("Get", "/pkg.Svc/Get", MessageType("pkg.Req"), MessageType("pkg.Reply"));
    var client := DialManager.RpcClient(DialManager.UpstreamConf("up", ["127.0.0.1:9000"]), Conn("127.0.0.1:9000"),
                                        [ServiceDesc("Svc", "pkg.Svc", [get])]);
    var reg := DialManager.Registry(map["up" := client], map["/pkg.Svc/Get" := client]);
    var cases := map["/pkg.Svc/Get" := map["c1" := Case("", "/pkg.Svc/Get", "c1", "", "not json")]];
    assert First(req.md, conf.enableKey) == "yes";
    assert First(req.md, conf.caseKey) == "c1";
    assert CaseManager.Lookup(cases, req.fullMethodName, "c1").body == "not json";
    assert DialManager.FindIn([get], req.fullMethodName) == Some(get);
    assert DialManager.Detail(reg, req.fullMethodName) == Ok(get);
  }

  /** The corrected doMock: a matcher error is no match, so the call is proxied. */
  function DoMockSpec(r: Result<Match.Response, Match.MatchError>): (out: (Match.MatchedType, seq<Event>))
    ensures r.Err? ==> out == (Match.MatchedNone, [])
    ensures DerefSafe(r) ==> out == DoMockAsWritten(r)
    ensures r.Ok? ==> (out.0 != Match.MatchedNone <==> out.1 == MockEvents(r.value.mockResp))
  {
    if r.Err? then (Match.MatchedNone, []) else DoMockAsWritten(r)
  }

  /** The handler, wired with a director and a matcher. */
  class ProxyHandler {
    const director: string -> Result<Conn, string>
    const matcher: Match.Request -> Result<Match.Response, Match.MatchError>

    constructor (director: string -> Result<Conn, string>, matcher: Match.Request -> Result<Match.Response, Match.MatchError>)
      ensures this.director == director && this.matcher == matcher
    {
      this.director := director;
      this.matcher := matcher;
    }

    /** The whole call, as a function of the call, the backend and the two collaborators. */
    function Spec(call: Call, backend: Backend): (t: Trace)
    {
      if call.methodName.None? then Refused(Internal(NoMethod), false)
      else if call.md.None? then Refused(Internal(NoMetadata), false)
      else
        var name := call.methodName.value;
        var routed := director(name);
        if routed.Err? then Refused(Raised(Broken(routed.error)), true)
        else
          var req := Match.Request(name, call.md.value, LastFrame(call.inbound.frames));
          var recvs := |call.inbound.frames| + 1;
          var (mt, events) := DoMockSpec(matcher(req));
          if mt != Match.MatchedNone then
            Trace(StatusOK, true, recvs, Some(req), mt, false, events, [], false, false)
          else
            var p := ProxySpec(req.rawReq, call.inbound.end, call.callerSink, backend);
            Trace(p.status, true, recvs, Some(req), mt, p.streamOpened, p.toCaller, p.toBackend, p.closedSend, p.cancelled)
    }

    /** doMock with the correction: matcher errors fall through to the proxy. */
    method DoMock(req: Match.Request) returns (mt: Match.MatchedType, events: seq<Event>)
      ensures (mt, events) == DoMockSpec(matcher(req))
    {
      var r := matcher(req);
      events := [];
      if r.Err? {
        return Match.MatchedNone, events;
      }
      var matched := false;
      var response: Option<Msg> := None;
      if r.value.matchType != Match.MatchedNone {
        matched := true;
        response := r.value.mockResp;
      }
      // the deferred send
      if matched {
        events := MockEvents(response);
      }
      mt := r.value.matchType;
    }

    method Handle(call: Call, backend: Backend) returns (t: Trace)
      ensures t == Spec(call, backend)
    {
      if call.methodName.None? {
        return Refused(Internal(NoMethod), false);
      }
      if call.md.None? {
        return Refused(Internal(NoMetadata), false);
      }
      var name := call.methodName.value;
      var routed := director(name);
      if routed.Err? {
        return Refused(Raised(Broken(routed.error)), true);
      }
      var reqBytes, recvs := Drain(call.inbound);
      var req := Match.Request(name, call.md.value, reqBytes);
      var mt, events := DoMock(req);
      if mt != Match.MatchedNone {
        return Trace(StatusOK, true, recvs, Some(req), mt, false, events, [], false, false);
      }
      var p := ProxyCall(reqBytes, call.inbound.end, call.callerSink, backend);
      t := Trace(p.status, true, recvs, Some(req), mt, p.streamOpened, p.toCaller, p.toBackend, p.closedSend, p.cancelled);
    }

    /** Without a method name or metadata the call fails with Internal before routing. */
    lemma ContextRequired(call: Call, backend: Backend)
      requires call.methodName.None? || call.md.None?
      ensures var t := Spec(call, backend);
        t.status.Internal? && !t.routed && t.recvs == 0 && t.asked.None? && !t.streamOpened
    {
    }

    /** A director error is returned before any frame is read or the matcher asked: unrouted methods are never mocked. */
    lemma RouteBeforeMock(call: Call, backend: Backend)
      requires call.methodName.Some? && call.md.Some? && director(call.methodName.value).Err?
      ensures var t := Spec(call, backend);
        t.status == Raised(Broken(director(call.methodName.value).error)) &&
        t.recvs == 0 && t.asked.None? && t.mockType == Match.MatchedNone && t.toCaller == []
    {
    }

    /** The matcher sees the method, the metadata and the last frame the caller sent. */
    lemma AskedWithLastFrame(call: Call, backend: Backend)
      requires call.methodName.Some? && call.md.Some? && director(call.methodName.value).Ok?
      ensures var t := Spec(call, backend);
        t.asked == Some(Match.Request(call.methodName.value, call.md.value, LastFrame(call.inbound.frames))) &&
        t.recvs == |call.inbound.frames| + 1
    {
    }

    /** A match answers the call itself: no backend stream, an empty trailer, the mock header, the response once. */
    lemma MockShortCircuits(call: Call, backend: Backend)
      requires call.methodName.Some? && call.md.Some? && director(call.methodName.value).Ok?
      requires var req := Match.Request(call.methodName.value, call.md.value, LastFrame(call.inbound.frames));
        matcher(req).Ok? && matcher(req).value.matchType != Match.MatchedNone
      ensures var t := Spec(call, backend);
        var req := Match.Request(call.methodName.value, call.md.value, LastFrame(call.inbound.frames));
        t.status == StatusOK && !t.streamOpened && t.toBackend == [] &&
        t.toCaller == MockEvents(matcher(req).value.mockResp) &&
        t.mockType == matcher(req).value.matchType
    {
    }

    /** No match proxies the call with the buffered request; so does a matcher error, with the corrected doMock. */
    lemma NoMatchProxies(call: Call, backend: Backend)
      requires call.methodName.Some? && call.md.Some? && director(call.methodName.value).Ok?
      requires var req := Match.Request(call.methodName.value, call.md.value, LastFrame(call.inbound.frames));
        matcher(req).Err? || matcher(req).value.matchType == Match.MatchedNone
      ensures var t := Spec(call, backend);
        var p := ProxySpec(LastFrame(call.inbound.frames), call.inbound.end, call.callerSink, backend);
        t.status == p.status && t.toCaller == p.toCaller && t.toBackend == p.toBackend &&
        t.streamOpened == backend.openErr.None? && t.mockType == Match.MatchedNone
    {
    }
  }
}
