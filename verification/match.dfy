/**
 * The decision engine of the in-memory generation: metadata first, then the
 * rules of the cases registered for the method, in list order.
 */
module Match {
  import opened Wrappers
  import opened Types
  import opened Metadata
  import opened Settings
  import CaseManager
  import DialManager

  datatype MatchedType = MatchedNone | MatchedMetaData | MatchedBody

  datatype Response = Response(matchType: MatchedType, mockResp: Option<Msg>)

  const NoMatch := Response(MatchedNone, None)

  datatype Request = Request(fullMethodName: string, md: MD, rawReq: Bytes)

  datatype MatchError = MethodUnknown(cause: DialManager.DialError) | BodyUndecodable | RequestUndecodable | JsonFailed

  /** What expr.Eval hands back: an error, a boolean, or some other value. */
  datatype EvalOutcome = EvalFailed | EvalBool(b: bool) | EvalOther

  /**
   * The foreign codecs: jsonpb.Unmarshal of a stored body, the proto codec's
   * Unmarshal of the request, MarshalJSONPB of the decoded request, and
   * expr.Eval of a rule in an environment built from that JSON.
   */
  datatype Codec = Codec(
    decodeBody: (MessageType, string) -> Option<Msg>,
    decodeRequest: (MessageType, Bytes) -> Option<Msg>,
    toJson: Msg -> Option<string>,
    eval: (string, string) -> EvalOutcome)

  /** The three settings metadata matching needs are all configured. */
  predicate Configured(conf: MatchConf)
  {
    conf.enableKey != "" && conf.enableValue != "" && conf.caseKey != ""
  }

  /** matchWithMetadata. */
  function MetadataSpec(conf: MatchConf, cases: CaseManager.Table, reg: DialManager.Registry, codec: Codec, req: Request)
    : (r: Result<Response, MatchError>)
    ensures r.Ok? ==> r.value.matchType in {MatchedNone, MatchedMetaData}
    ensures r.Ok? && r.value.matchType == MatchedNone ==> r.value == NoMatch
  {
    if !Configured(conf) then Ok(NoMatch)
    else if First(req.md, conf.enableKey) != conf.enableValue then Ok(NoMatch)
    else
      var caseName := First(req.md, conf.caseKey);
      if caseName == "" then Ok(NoMatch)
      else
        var c := CaseManager.Lookup(cases, req.fullMethodName, caseName);
        if c.body == "" then Ok(NoMatch)
        else match DialManager.Detail(reg, req.fullMethodName)
          case Err(e) => Err(MethodUnknown(e))
          case Ok(desc) =>
            match codec.decodeBody(desc.output, c.body)
            case None => Err(BodyUndecodable)
            case Some(msg) => Ok(Response(MatchedMetaData, Some(msg)))
  }

  /** The cases that carry a rule, in list order. */
  function RuleCases(list: seq<Case>): (r: seq<Case>)
    ensures forall c :: c in r <==> c in list && c.rule != ""
    ensures |r| <= |list|
  {
    if list == [] then []
    else
      var last := list[|list| - 1];
      assert list == list[..|list| - 1] + [last];
      RuleCases(list[..|list| - 1]) + (if last.rule != "" then [last] else [])
  }

  /** Case `c`'s rule evaluates to boolean true and its body decodes. */
  predicate Fires(codec: Codec, js: string, out: MessageType, c: Case)
  {
    codec.eval(c.rule, js) == EvalBool(true) && codec.decodeBody(out, c.body).Some?
  }

  /** Candidate `k` is the first to fire. */
  predicate Wins(codec: Codec, js: string, out: MessageType, cands: seq<Case>, k: int)
  {
    0 <= k < |cands| && Fires(codec, js, out, cands[k]) &&
    forall i :: 0 <= i < k ==> !Fires(codec, js, out, cands[i])
  }

  /** The body of the first candidate that fires, decoded. */
  function Search(codec: Codec, js: string, out: MessageType, cands: seq<Case>): (r: Option<Msg>)
    ensures r.None? <==> forall i :: 0 <= i < |cands| ==> !Fires(codec, js, out, cands[i])
    ensures r.Some? ==> exists k :: Wins(codec, js, out, cands, k) && r.value == codec.decodeBody(out, cands[k].body).value
  {
    if cands == [] then None
    else if Fires(codec, js, out, cands[0]) then codec.decodeBody(out, cands[0].body)
    else
      var r := Search(codec, js, out, cands[1..]);
      assert forall i :: 0 < i < |cands| ==> cands[i] == cands[1..][i - 1];
      if r.Some? then
        var k :| Wins(codec, js, out, cands[1..], k) && r.value == codec.decodeBody(out, cands[1..][k].body).value;
        assert Wins(codec, js, out, cands, k + 1);
        r
      else r
  }

  /** matchWithRequestBody, given the order in which CaseList produced the cases. */
  function BodySpec(list: seq<Case>, reg: DialManager.Registry, codec: Codec, req: Request): (r: Result<Response, MatchError>)
    ensures r.Ok? ==> r.value.matchType in {MatchedNone, MatchedBody}
  {
    var ruleCases := RuleCases(list);
    if ruleCases == [] then Ok(NoMatch)
    else match DialManager.Detail(reg, req.fullMethodName)
      case Err(e) => Err(MethodUnknown(e))
      case Ok(desc) =>
        match codec.decodeRequest(desc.input, req.rawReq)
        case None => Err(RequestUndecodable)
        case Some(input) =>
          match codec.toJson(input)
          case None => Err(JsonFailed)
          case Some(js) =>
            match Search(codec, js, desc.output, ruleCases)
            case Some(msg) => Ok(Response(MatchedBody, Some(msg)))
            case None => Ok(NoMatch)
  }

  /** Match. */
  function MatchSpec(conf: MatchConf, cases: CaseManager.Table, list: seq<Case>, reg: DialManager.Registry,
                     codec: Codec, req: Request): (r: Result<Response, MatchError>)
  {
    match MetadataSpec(conf, cases, reg, codec, req)
    case Err(e) => Err(e)
    case Ok(resp) => if resp.matchType != MatchedNone then Ok(resp) else BodySpec(list, reg, codec, req)
  }

  /**
   * Metadata selects a case exactly when all three settings are configured,
   * the first enable value is the configured one, a case name is given, the
   * case stored under it has a body, the method is known and that body
   * decodes; a missing case counts as an empty body.
   */
  lemma {:induction false} MetadataMatchIff(conf: MatchConf, cases: CaseManager.Table, reg: DialManager.Registry,
                                            codec: Codec, req: Request, msg: Msg)
    ensures MetadataSpec(conf, cases, reg, codec, req) == Ok(Response(MatchedMetaData, Some(msg))) <==>
      var caseName := First(req.md, conf.caseKey);
      var c := CaseManager.Lookup(cases, req.fullMethodName, caseName);
      Configured(conf) && First(req.md, conf.enableKey) == conf.enableValue && caseName != "" &&
      CaseManager.Stored(cases, req.fullMethodName, caseName) && c.body != "" &&
      DialManager.Detail(reg, req.fullMethodName).Ok? &&
      codec.decodeBody(DialManager.Detail(reg, req.fullMethodName).value.output, c.body) == Some(msg)
  {
    var caseName := First(req.md, conf.caseKey);
    if !CaseManager.Stored(cases, req.fullMethodName, caseName) {
      assert CaseManager.Lookup(cases, req.fullMethodName, caseName).body == "";
    }
  }

  /** The gates before the case lookup, and an empty or missing case, give no match and no error. */
  lemma MetadataGates(conf: MatchConf, cases: CaseManager.Table, reg: DialManager.Registry, codec: Codec, req: Request)
    requires !Configured(conf) || First(req.md, conf.enableKey) != conf.enableValue ||
             First(req.md, conf.caseKey) == "" ||
             !CaseManager.Stored(cases, req.fullMethodName, First(req.md, conf.caseKey)) ||
             cases[req.fullMethodName][First(req.md, conf.caseKey)].body == ""
    ensures MetadataSpec(conf, cases, reg, codec, req) == Ok(NoMatch)
  {
  }

  /**
   * Once metadata has decided (an error or a match), the outcome does not
   * depend on the listed cases: body matching is not tried.  When it has
   * not, the outcome is body matching's.
   */
  lemma MetadataFirst(conf: MatchConf, cases: CaseManager.Table, list: seq<Case>, reg: DialManager.Registry,
                      codec: Codec, req: Request)
    ensures var m := MetadataSpec(conf, cases, reg, codec, req);
      (m.Err? || m.value.matchType != MatchedNone ==> MatchSpec(conf, cases, list, reg, codec, req) == m) &&
      (m == Ok(NoMatch) ==> MatchSpec(conf, cases, list, reg, codec, req) == BodySpec(list, reg, codec, req))
  {
  }

  /** Without a rule-bearing case the answer is no match, whatever the method, request or codecs. */
  lemma BodyWithoutRules(list: seq<Case>, reg: DialManager.Registry, codec: Codec, req: Request)
    requires forall i :: 0 <= i < |list| ==> list[i].rule == ""
    ensures BodySpec(list, reg, codec, req) == Ok(NoMatch)
  {
    NoRuleCases(list);
  }

  lemma {:induction false} NoRuleCases(list: seq<Case>)
    requires forall i :: 0 <= i < |list| ==> list[i].rule == ""
    ensures RuleCases(list) == []
  {
    if list != [] {
      NoRuleCases(list[..|list| - 1]);
    }
  }

  /**
   * Body matching succeeds exactly with the first rule-bearing case, in list
   * order, whose rule is boolean true and whose body decodes; with a known
   * method and a decodable request, no firing case means no match.
   */
  lemma {:induction false} BodyOutcome(list: seq<Case>, reg: DialManager.Registry, codec: Codec, req: Request)
    requires RuleCases(list) != []
    ensures DialManager.Detail(reg, req.fullMethodName).Err? ==> BodySpec(list, reg, codec, req).Err?
    ensures var d := DialManager.Detail(reg, req.fullMethodName);
      d.Ok? && codec.decodeRequest(d.value.input, req.rawReq).None? ==>
        BodySpec(list, reg, codec, req) == Err(RequestUndecodable)
    ensures var d := DialManager.Detail(reg, req.fullMethodName);
      d.Ok? && codec.decodeRequest(d.value.input, req.rawReq).Some? &&
      codec.toJson(codec.decodeRequest(d.value.input, req.rawReq).value).Some? ==>
        var js := codec.toJson(codec.decodeRequest(d.value.input, req.rawReq).value).value;
        var cands := RuleCases(list);
        (BodySpec(list, reg, codec, req) == Ok(NoMatch) <==> forall i :: 0 <= i < |cands| ==> !Fires(codec, js, d.value.output, cands[i])) &&
        (forall msg :: BodySpec(list, reg, codec, req) == Ok(Response(MatchedBody, Some(msg))) <==>
          exists k :: Wins(codec, js, d.value.output, cands, k) && codec.decodeBody(d.value.output, cands[k].body) == Some(msg))
  {
    var d := DialManager.Detail(reg, req.fullMethodName);
    if d.Ok? && codec.decodeRequest(d.value.input, req.rawReq).Some? &&
       codec.toJson(codec.decodeRequest(d.value.input, req.rawReq).value).Some? {
      var js := codec.toJson(codec.decodeRequest(d.value.input, req.rawReq).value).value;
      var cands := RuleCases(list);
      var out := d.value.output;
      forall msg
        ensures (exists k :: Wins(codec, js, out, cands, k) && codec.decodeBody(out, cands[k].body) == Some(msg)) ==>
          Search(codec, js, out, cands) == Some(msg)
      {
        if k :| Wins(codec, js, out, cands, k) && codec.decodeBody(out, cands[k].body) == Some(msg) {
          WinnerUnique(codec, js, out, cands, k);
        }
      }
    }
  }

  /** At most one candidate is the first to fire, and Search returns its body. */
  lemma WinnerUnique(codec: Codec, js: string, out: MessageType, cands: seq<Case>, k: int)
    requires Wins(codec, js, out, cands, k)
    ensures Search(codec, js, out, cands) == codec.decodeBody(out, cands[k].body)
  {
    var r := Search(codec, js, out, cands);
    var k' :| Wins(codec, js, out, cands, k') && r.value == codec.decodeBody(out, cands[k'].body).value;
    assert k' == k;
  }

  /** The cases that carry a rule, kept in list order, one at a time. */
  method SelectRuleCases(cases: seq<Case>) returns (ruleCases: seq<Case>)
    ensures ruleCases == RuleCases(cases)
  {
    ruleCases := [];
    var i := 0;
    while i < |cases|
      invariant i <= |cases|
      invariant ruleCases == RuleCases(cases[..i])
    {
      assert cases[..i + 1][..i] == cases[..i];
      if cases[i].rule != "" {
        ruleCases := ruleCases + [cases[i]];
      }
      i := i + 1;
    }
    assert cases[..i] == cases;
  }

  /** The candidates tried in order; the first whose rule holds and whose body decodes answers. */
  method SearchCases(codec: Codec, js: string, out: MessageType, cands: seq<Case>) returns (msg: Option<Msg>)
    ensures msg == Search(codec, js, out, cands)
  {
    var k := 0;
    while k < |cands|
      invariant k <= |cands|
      invariant Search(codec, js, out, cands[k..]) == Search(codec, js, out, cands)
    {
      assert cands[k..][0] == cands[k] && cands[k..][1..] == cands[k + 1..];
      var output := codec.eval(cands[k].rule, js);
      if output == EvalBool(true) {
        msg := codec.decodeBody(out, cands[k].body);
        if msg.Some? {
          return;
        }
      }
      k := k + 1;
    }
    msg := None;
  }

  class Matcher {
    const conf: MatchConf
    const caseManager: CaseManager.Manager
    const dialManager: DialManager.Manager
    const codec: Codec

    constructor (conf: MatchConf, caseManager: CaseManager.Manager, dialManager: DialManager.Manager, codec: Codec)
      ensures this.conf == conf && this.caseManager == caseManager && this.dialManager == dialManager && this.codec == codec
    {
      this.conf := conf;
      this.caseManager := caseManager;
      this.dialManager := dialManager;
      this.codec := codec;
    }

    method MatchWithMetadata(req: Request) returns (r: Result<Response, MatchError>)
      ensures r == MetadataSpec(conf, caseManager.cases, dialManager.State(), codec, req)
    {
      if conf.enableKey == "" || conf.enableValue == "" || conf.caseKey == "" {
        return Ok(NoMatch);
      }
      var enable := First(req.md, conf.enableKey);
      if enable != conf.enableValue {
        return Ok(NoMatch);
      }
      var caseName := First(req.md, conf.caseKey);
      if caseName == "" {
        return Ok(NoMatch);
      }
      var c := caseManager.CaseGet(req.fullMethodName, caseName);
      if c.body == "" {
        return Ok(NoMatch);
      }
      var desc := dialManager.MethodDetail(req.fullMethodName);
      if desc.Err? {
        return Err(MethodUnknown(desc.error));
      }
      var msg := codec.decodeBody(desc.value.output, c.body);
      if msg.None? {
        return Err(BodyUndecodable);
      }
      r := Ok(Response(MatchedMetaData, Some(msg.value)));
    }

    method MatchWithRequestBody(req: Request) returns (r: Result<Response, MatchError>)
      ensures exists list :: (CaseManager.IsListing(caseManager.cases, req.fullMethodName, list) &&
        r == BodySpec(list, dialManager.State(), codec, req))
    {
      var cases := caseManager.CaseList(req.fullMethodName);
      var ruleCases := SelectRuleCases(cases);
      if |ruleCases| == 0 {
        r := Ok(NoMatch);
      } else {
        var desc := dialManager.MethodDetail(req.fullMethodName);
        if desc.Err? {
          r := Err(MethodUnknown(desc.error));
        } else {
          var input := codec.decodeRequest(desc.value.input, req.rawReq);
          if input.None? {
            r := Err(RequestUndecodable);
          } else {
            var js := codec.toJson(input.value);
            if js.None? {
              r := Err(JsonFailed);
            } else {
              var msg := SearchCases(codec, js.value, desc.value.output, ruleCases);
              r := if msg.Some? then Ok(Response(MatchedBody, Some(msg.value))) else Ok(NoMatch);
            }
          }
        }
      }
      assert r == BodySpec(cases, dialManager.State(), codec, req);
    }

    /** Match: metadata first, then request body. */
    method Match(req: Request) returns (r: Result<Response, MatchError>)
      ensures var m := MetadataSpec(conf, caseManager.cases, dialManager.State(), codec, req);
        (m.Err? || m.value.matchType != MatchedNone ==> r == m) &&
        (m == Ok(NoMatch) ==> exists list :: (CaseManager.IsListing(caseManager.cases, req.fullMethodName, list) &&
          r == MatchSpec(conf, caseManager.cases, list, dialManager.State(), codec, req)))
    {
      var resp := MatchWithMetadata(req);
      if resp.Err? {
        return Err(resp.error);
      }
      if resp.value.matchType != MatchedNone {
        return resp;
      }
      r := MatchWithRequestBody(req);
    }
  }
}
